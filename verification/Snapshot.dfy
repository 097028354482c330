/** Closing a session: the frontier is kept and the raw tail becomes one more leaf. */
module Snapshot {
  import opened Wrappers
  import opened Messages
  import opened ArchiveWalks
  import opened ContextArchive
  import opened Provenance
  import opened Frontier
  import opened Conversation
  import opened History
  import opened Attempts
  import opened Compactor
  import opened Session

  /** The raw messages a snapshot archives: everything that is neither a system message nor a summary. */
  function Spoken(ms: seq<Message>): seq<Message> {
    if ms == [] then [] else (if ms[0].System? || ms[0].Summary? then [] else [ms[0]]) + Spoken(ms[1..])
  }

  datatype RestSnapshot = RestSnapshot(tables: Tables, forests: seq<Message>, sourceCount: nat)

  function TakeSnapshot(t: Tables, ms: seq<Message>, text: string): RestSnapshot {
    var spoken := Spoken(ms);
    if spoken == [] then RestSnapshot(t, Segments(ms), 0)
    else RestSnapshot(Record(t, text, spoken, None, [], "rest-snapshot"),
                      Segments(ms) + [SummaryMessage(text, |t.nodes|, 0)], |spoken|)
  }

  /** `recordRestContextSnapshot`; `text` is the generated description of the new leaf. */
  method RecordRestSnapshot(archive: Archive, ms: seq<Message>, text: string)
    returns (summaryIds: seq<SummaryId>, forests: seq<Message>, sourceCount: nat)
    modifies archive
    ensures RestSnapshot(archive.Contents(), forests, sourceCount) == TakeSnapshot(old(archive.Contents()), ms, text)
    ensures summaryIds == ActiveIds(forests)
  {
    forests := Segments(ms);
    var spoken := Spoken(ms);
    if |spoken| > 0 {
      var id := archive.RecordCompaction(text, spoken, None, [], "rest-snapshot");
      forests := forests + [SummaryMessage(text, id, 0)];
    }
    sourceCount := |spoken|;
    summaryIds := ActiveIds(forests);
  }

  /** The archived messages are those that are neither, in order. */
  lemma {:induction false} SpokenAre(ms: seq<Message>)
    ensures Spoken(ms)
         == Flatten(seq(|ms|, i requires 0 <= i < |ms| => if ms[i].System? || ms[i].Summary? then [] else [ms[i]]))
  {
    if ms != [] {
      var parts := seq(|ms|, i requires 0 <= i < |ms| => if ms[i].System? || ms[i].Summary? then [] else [ms[i]]);
      SpokenAre(ms[1..]);
      assert parts[1..] == seq(|ms[1..]|, i requires 0 <= i < |ms[1..]| =>
        if ms[1..][i].System? || ms[1..][i].Summary? then [] else [ms[1..][i]]);
    }
  }

  lemma {:induction false} SpokenConcat(a: seq<Message>, b: seq<Message>)
    ensures Spoken(a + b) == Spoken(a) + Spoken(b)
  {
    if a == [] {
      assert a + b == b;
    } else {
      assert (a + b)[1..] == a[1..] + b;
      SpokenConcat(a[1..], b);
    }
  }

  lemma {:induction false} NothingSpoken(ms: seq<Message>)
    requires forall i :: 0 <= i < |ms| ==> ms[i].System? || ms[i].Summary?
    ensures Spoken(ms) == []
  {
    if ms != [] {
      NothingSpoken(ms[1..]);
    }
  }

  lemma {:induction false} SpokenIsShorter(ms: seq<Message>)
    requires NoSummary(ms)
    ensures |Spoken(ms)| <= |ms|
    ensures |Spoken(ms)| == |ms| ==> Spoken(ms) == ms
    ensures |Spoken(ms)| == |ms| <==> forall i :: 0 <= i < |ms| ==> !ms[i].System?
  {
    if ms != [] {
      SpokenIsShorter(ms[1..]);
      assert ms == [ms[0]] + ms[1..];
      assert forall i :: 0 <= i < |ms[1..]| ==> ms[1..][i] == ms[i + 1];
    }
  }

  lemma {:induction false} SpokenOfTidy(ms: seq<Message>)
    requires Tidy(ms)
    ensures Spoken(ms) == Spoken(Tail(ms))
  {
    SpokenConcat(Head(ms) + Segments(ms), Tail(ms));
    NothingSpoken(Head(ms) + Segments(ms));
  }

  lemma {:induction false} SnapshotRow(t: Tables, text: string, spoken: seq<Message>)
    requires Valid(t)
    ensures var r := Record(t, text, spoken, None, [], "rest-snapshot");
      Valid(r) && r.nodes == t.nodes + [Node(text, "rest-snapshot", [], Ids(spoken))]
  {
    RecordKeepsValid(t, text, spoken, None, [], "rest-snapshot");
  }

  lemma {:induction false} SilentSnapshot(t: Tables, segs: seq<Message>, trim: map<SummaryId, nat>, head: seq<Message>,
                                          b: nat, leaves: nat)
    requires Valid(t) && AllSystem(head) && AllMarked(segs) && Front(t.nodes, IdsOf(segs), DepthsOf(segs), b, leaves)
    ensures Recovered(t.nodes, trim, head + segs) == head + Originals(JoinBehind(t.nodes, trim, IdsOf(segs)))
    ensures segs != [] ==> Sound(t, head + segs, b, leaves)
  {
    assert head + segs + [] == head + segs;
    RecoveredTidy(t.nodes, trim, head, segs, []);
    if segs != [] {
      SoundFromParts(t, head, segs, [], b, leaves);
    }
  }

  lemma {:induction false} SpokenSnapshot(t: Tables, text: string, segs: seq<Message>, spoken: seq<Message>,
                                          trim: map<SummaryId, nat>, head: seq<Message>, b: nat, leaves: nat)
    requires b >= 2 && Valid(t) && AllSystem(head) && AllMarked(segs)
    requires Front(t.nodes, IdsOf(segs), DepthsOf(segs), b, leaves)
    ensures var r := Record(t, text, spoken, None, [], "rest-snapshot");
      var replayed := head + (segs + [SummaryMessage(text, |t.nodes|, 0)]);
      && Recovered(r.nodes, trim[|t.nodes| := 0], replayed)
         == head + Originals(JoinBehind(t.nodes, trim, IdsOf(segs))) + spoken
      && Sound(r, replayed, b, leaves + 1)
  {
    var made := SummaryMessage(text, |t.nodes|, 0);
    var node := Node(text, "rest-snapshot", [], Ids(spoken));
    SnapshotRow(t, text, spoken);
    LeafFrontOf(t.nodes, node, segs, made, b, leaves);
    assert head + (segs + [made]) + [] == head + (segs + [made]);
    SoundFromParts(Record(t, text, spoken, None, [], "rest-snapshot"), head, segs + [made], [], b, leaves + 1);
    SnapshotRecovers(t.nodes, node, trim, head, segs, spoken, made);
  }

  /** Replayed behind any system head, the forests are a sound frontier for the next session, and stand for
      everything the closed one stood for except the system messages of its head and tail. */
  lemma {:induction false} SnapshotKeepsHistory(t: Tables, ms: seq<Message>, text: string, b: nat,
                                                trim: map<SummaryId, nat>, leaves: nat, head: seq<Message>)
    requires b >= 2 && Sound(t, ms, b, leaves) && AllSystem(head)
    ensures var r := TakeSnapshot(t, ms, text);
      var trim' := if Spoken(ms) == [] then trim else trim[|t.nodes| := 0];
      && Recovered(r.tables.nodes, trim', head + r.forests)
         == head + Originals(JoinBehind(t.nodes, trim, IdsOf(Segments(ms)))) + Spoken(Tail(ms))
      && (r.forests != [] ==> Sound(r.tables, head + r.forests, b, leaves + if Spoken(ms) == [] then 0 else 1))
      && r.sourceCount == |Spoken(ms)|
  {
    SpokenOfTidy(ms);
    if Spoken(ms) == [] {
      SilentSnapshot(t, Segments(ms), trim, head, b, leaves);
    } else {
      SpokenSnapshot(t, text, Segments(ms), Spoken(ms), trim, head, b, leaves);
    }
  }

  lemma {:induction false} SnapshotRecovers(nodes: seq<Node>, node: Node, trim: map<SummaryId, nat>, head: seq<Message>,
                                            segs: seq<Message>, spoken: seq<Message>, made: Message)
    requires Acyclic(nodes) && Disjoint(nodes, IdsOf(segs)) && node.parents == [] && node.sources == Ids(spoken)
    requires NoSummary(head) && AllMarked(segs) && Marked(made) && IdOf(made) == |nodes|
    ensures Recovered(nodes + [node], trim[|nodes| := 0], head + (segs + [made]))
         == head + Originals(JoinBehind(nodes, trim, IdsOf(segs))) + spoken
  {
    var before := JoinBehind(nodes, trim, IdsOf(segs));
    var none: seq<Message> := [];
    assert node.sources == Ids(spoken + none) by { assert spoken + none == spoken; }
    LeafJoin(nodes, node, trim, segs, spoken, none, made);
    SplitOriginals(before, spoken);
    RecoveredTidy(nodes + [node], trim[|nodes| := 0], head, segs + [made], none);
    WithoutTail(head, segs + [made]);
    WithoutTail(head, Originals(before) + spoken);
    Assoc(head, Originals(before), spoken);
  }

  lemma {:induction false} WithoutTail(head: seq<Message>, rest: seq<Message>)
    ensures head + rest + [] == head + rest
  {
  }

  /** A snapshot loses nothing of a session's conversation exactly when its tail holds no system message. */
  lemma {:induction false} SnapshotIsComplete(t: Tables, ms: seq<Message>, text: string, b: nat,
                                              trim: map<SummaryId, nat>, leaves: nat)
    requires b >= 2 && Sound(t, ms, b, leaves)
    ensures var r := TakeSnapshot(t, ms, text);
      var trim' := if Spoken(ms) == [] then trim else trim[|t.nodes| := 0];
      Recovered(r.tables.nodes, trim', Head(ms) + r.forests) == Recovered(t.nodes, trim, ms)
      <==> forall i :: 0 <= i < |Tail(ms)| ==> !Tail(ms)[i].System?
  {
    SnapshotKeepsHistory(t, ms, text, b, trim, leaves, Head(ms));
    RecoveredTidy(t.nodes, trim, Head(ms), Segments(ms), Tail(ms));
    SpokenIsShorter(Tail(ms));
  }

  const LATE_SYSTEM := [User("hi"), System("s")]

  lemma {:induction false} LateSystemRun(c: Config)
    requires c.batch >= 2
    ensures Run(c, FRESH, [Append(User("hi")), Append(System("s"))])
         == State(FRESH.tables, LATE_SYSTEM, LATE_SYSTEM, map[], 0)
  {
    var events := [Append(User("hi")), Append(System("s"))];
    assert events[1..] == [Append(System("s"))] && events[1..][1..] == [];
    assert [] + [User("hi")] == [User("hi")] && [User("hi")] + [System("s")] == LATE_SYSTEM;
  }

  /** A run that reaches such a tail: a system message appended after the conversation has begun. */
  lemma {:induction false} TailSystemIsDropped(c: Config, text: string)
    requires c.batch >= 2
    ensures var s := Run(c, FRESH, [Append(User("hi")), Append(System("s"))]);
      var r := TakeSnapshot(s.tables, s.messages, text);
      var trim' := if Spoken(s.messages) == [] then s.trim else s.trim[|s.tables.nodes| := 0];
      Recovered(r.tables.nodes, trim', Head(s.messages) + r.forests) != Recovered(s.tables.nodes, s.trim, s.messages)
  {
    FreshRemembers(c);
    HistoryIsNeverLost(c, FRESH, [Append(User("hi")), Append(System("s"))]);
    LateSystemRun(c);
    assert LATE_SYSTEM[1].System?;
    SnapshotIsComplete(FRESH.tables, LATE_SYSTEM, text, c.batch, map[], 0);
  }
}
