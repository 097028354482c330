/** One compaction attempt: every history message stays recoverable and the frontier stays sound. */
module Attempts {
  import opened Wrappers
  import opened Messages
  import opened ArchiveWalks
  import opened ContextArchive
  import opened Provenance
  import opened Numerals
  import opened Frontier
  import opened Lcm
  import opened Summarize
  import opened Compactor
  import opened Conversation
  import opened History

  // ---- committing a leaf ----

  /** The pieces of a compaction of a tidy conversation. */
  function Folded(ms: seq<Message>, cut: nat, text: string, testimony: seq<Message>): Compaction
    requires cut <= |Tail(ms)|
  {
    Compaction(Head(ms) + Segments(ms) + [Summary(None, None, text)] + Tail(ms)[cut..],
               Tail(ms)[..cut] + testimony, text)
  }

  lemma {:induction false} AfterHead(ms: seq<Message>)
    requires Tidy(ms)
    ensures Raw(ms[LeadingSystems(ms)..]) == Tail(ms) && Segments(ms[LeadingSystems(ms)..]) == Segments(ms)
  {
    SegmentsOf([], Segments(ms), Tail(ms));
    assert ms[LeadingSystems(ms)..] == [] + Segments(ms) + Tail(ms);
    assert [] + Tail(ms) == Tail(ms);
  }

  lemma {:induction false} CompactFolds(ms: seq<Message>, k: Keep, testimony: seq<Message>, reply: Reply)
    requires Tidy(ms) && Compact(ms, k, testimony, reply).Some?
    ensures Cut(ms, k) <= |Tail(ms)|
    ensures Compact(ms, k, testimony, reply).value == Folded(ms, Cut(ms, k), reply.text, testimony)
  {
    AfterHead(ms);
  }

  lemma {:induction false} AttachParts(head: seq<Message>, segs: seq<Message>, tail: seq<Message>, id: SummaryId,
                                       text: string)
    requires NoSummary(head) && AllMarked(segs)
    ensures Attach(head + segs + [Summary(None, None, text)] + tail, id, 0)
         == head + (segs + [Summary(Some(id), Some(0), text)]) + tail
  {
    var ms := head + segs + [Summary(None, None, text)] + tail;
    var k := |head| + |segs|;
    assert ms[k] == Summary(None, None, text);
    AttachMarksNewSegment(ms, k, id, 0);
    assert ms[k := Summary(Some(id), Some(0), text)] == head + (segs + [Summary(Some(id), Some(0), text)]) + tail;
  }

  lemma {:induction false} LeafFront(nodes: seq<Node>, node: Node, ids: seq<SummaryId>, depths: seq<nat>, b: nat,
                                     leaves: nat)
    requires Acyclic(nodes) && Acyclic(nodes + [node]) && node.parents == [] && Front(nodes, ids, depths, b, leaves)
    ensures Front(nodes + [node], ids + [|nodes|], depths + [0], b, leaves + 1)
  {
    MergeKeepsDisjoint(nodes, node, ids, |ids|, |ids|);
    assert ids[..|ids|] + [|nodes|] + ids[|ids|..] == ids + [|nodes|];
    RecordedDepth(nodes, node, 0);
    forall k | 0 <= k < |ids|
      ensures StoredDepth(nodes + [node], ids[k], {}) == depths[k]
    {
      DepthIgnoresLaterRow(nodes, node, ids[k], {});
    }
    WeightConcat(b, depths, [0]);
    assert Weight(b, [0]) == Pow(b, 0) + Weight(b, []);
  }

  lemma {:induction false} LeafBehind(nodes: seq<Node>, node: Node, trim: map<SummaryId, nat>, n: nat,
                                      ids: seq<SummaryId>)
    requires Acyclic(nodes) && Disjoint(nodes, ids) && node.parents == [] && n <= |node.sources|
    ensures JoinBehind(nodes + [node], trim[|nodes| := n], ids + [|nodes|])
            == JoinBehind(nodes, trim, ids) + node.sources[..|node.sources| - n]
  {
    RecordBehind(nodes, node, trim, n, ids, |ids|, 0);
    assert ids[..|ids|] == ids;
    assert ids[..|ids|] + [|nodes|] + ids[|ids|..] == ids + [|nodes|];
  }

  lemma {:induction false} LeafRow(t: Tables, c: Compaction, via: string)
    requires Valid(t)
    ensures Record(t, c.text, c.compacted, None, [], via).nodes == t.nodes + [Node(c.text, via, [], Ids(c.compacted))]
    ensures Valid(Record(t, c.text, c.compacted, None, [], via))
  {
    RecordKeepsValid(t, c.text, c.compacted, None, [], via);
  }

  lemma {:induction false} LeafJoin(nodes: seq<Node>, node: Node, trim: map<SummaryId, nat>, segs: seq<Message>,
                                    middle: seq<Message>, testimony: seq<Message>, made: Message)
    requires Acyclic(nodes) && Disjoint(nodes, IdsOf(segs)) && node.parents == []
    requires node.sources == Ids(middle + testimony)
    requires IdOf(made) == |nodes|
    ensures JoinBehind(nodes + [node], trim[|nodes| := |testimony|], IdsOf(segs + [made]))
         == JoinBehind(nodes, trim, IdsOf(segs)) + Ids(middle)
  {
    assert IdsOf(segs + [made]) == IdsOf(segs) + [|nodes|];
    LeafBehind(nodes, node, trim, |testimony|, IdsOf(segs));
    assert Ids(middle + testimony)[..|middle|] == Ids(middle);
  }

  lemma {:induction false} LeafRecovers(nodes: seq<Node>, node: Node, trim: map<SummaryId, nat>, head: seq<Message>,
                                        segs: seq<Message>, middle: seq<Message>, testimony: seq<Message>,
                                        rest: seq<Message>, made: Message)
    requires Acyclic(nodes) && Disjoint(nodes, IdsOf(segs)) && node.parents == []
    requires node.sources == Ids(middle + testimony)
    requires NoSummary(head) && AllMarked(segs) && NoSummary(middle) && NoSummary(rest) && Marked(made)
    requires IdOf(made) == |nodes|
    ensures Recovered(nodes + [node], trim[|nodes| := |testimony|], head + (segs + [made]) + rest)
            == Recovered(nodes, trim, head + segs + (middle + rest))
  {
    var before := JoinBehind(nodes, trim, IdsOf(segs));
    assert Recovered(nodes, trim, head + segs + (middle + rest)) == head + Originals(before) + (middle + rest) by {
      RecoveredTidy(nodes, trim, head, segs, middle + rest);
    }
    assert Recovered(nodes + [node], trim[|nodes| := |testimony|], head + (segs + [made]) + rest)
        == head + (Originals(before) + middle) + rest by {
      RecoveredTidy(nodes + [node], trim[|nodes| := |testimony|], head, segs + [made], rest);
      LeafJoin(nodes, node, trim, segs, middle, testimony, made);
      SplitOriginals(before, middle);
    }
    assert head + (Originals(before) + middle) + rest == head + Originals(before) + (middle + rest);
  }

  lemma {:induction false} SplitOriginals(ids: seq<MessageId>, ms: seq<Message>)
    ensures Originals(ids + Ids(ms)) == Originals(ids) + ms
  {
  }

  /** A committed leaf, seen from both sides: the row it adds and the conversation it leaves. */
  lemma {:induction false} LeafShape(t: Tables, ms: seq<Message>, cut: nat, text: string, testimony: seq<Message>,
                                     via: string)
    returns (node: Node, made: Message)
    requires Valid(t) && Tidy(ms) && cut <= |Tail(ms)|
    ensures node.parents == [] && node.sources == Ids(Tail(ms)[..cut] + testimony)
    ensures Marked(made) && IdOf(made) == |t.nodes| && DepthOf(made) == 0
    ensures var r := CommitLeaf(t, Folded(ms, cut, text, testimony), via);
      && r.tables.nodes == t.nodes + [node] && Valid(r.tables)
      && r.messages == Head(ms) + (Segments(ms) + [made]) + Tail(ms)[cut..]
  {
    var c := Folded(ms, cut, text, testimony);
    node := Node(text, via, [], Ids(c.compacted));
    made := Summary(Some(|t.nodes|), Some(0), text);
    LeafRow(t, c, via);
    var marked := Head(ms) + (Segments(ms) + [made]) + Tail(ms)[cut..];
    assert Attach(c.messages, |t.nodes|, 0) == marked by {
      AttachParts(Head(ms), Segments(ms), Tail(ms)[cut..], |t.nodes|, text);
    }
    assert Normalize(marked) == marked by {
      TidyBuild(Head(ms), Segments(ms) + [made], Tail(ms)[cut..]);
      NormalizeTidy(marked);
    }
  }

  lemma {:induction false} LeafFrontOf(nodes: seq<Node>, node: Node, segs: seq<Message>, made: Message, b: nat,
                                       leaves: nat)
    requires Acyclic(nodes) && Acyclic(nodes + [node]) && node.parents == []
    requires Front(nodes, IdsOf(segs), DepthsOf(segs), b, leaves)
    requires IdOf(made) == |nodes| && DepthOf(made) == 0
    ensures Front(nodes + [node], IdsOf(segs + [made]), DepthsOf(segs + [made]), b, leaves + 1)
  {
    LeafFront(nodes, node, IdsOf(segs), DepthsOf(segs), b, leaves);
    assert IdsOf(segs + [made]) == IdsOf(segs) + [|nodes|];
    assert DepthsOf(segs + [made]) == DepthsOf(segs) + [0];
  }

  lemma {:induction false} SoundLeaf(t: Tables, t': Tables, node: Node, head: seq<Message>, segs: seq<Message>,
                                     rest: seq<Message>, made: Message, b: nat, leaves: nat)
    requires Valid(t) && Valid(t') && t'.nodes == t.nodes + [node] && node.parents == []
    requires AllSystem(head) && AllMarked(segs) && NoSummary(rest)
    requires Front(t.nodes, IdsOf(segs), DepthsOf(segs), b, leaves)
    requires Marked(made) && IdOf(made) == |t.nodes| && DepthOf(made) == 0
    ensures Sound(t', head + (segs + [made]) + rest, b, leaves + 1)
  {
    LeafFrontOf(t.nodes, node, segs, made, b, leaves);
    SoundFromParts(t', head, segs + [made], rest, b, leaves + 1);
  }

  lemma {:induction false} LeafIsSound(t: Tables, ms: seq<Message>, b: nat, cut: nat, text: string,
                                       testimony: seq<Message>, via: string, leaves: nat)
    requires b >= 2 && Sound(t, ms, b, leaves) && cut <= |Tail(ms)|
    ensures var r := CommitLeaf(t, Folded(ms, cut, text, testimony), via);
      Sound(r.tables, r.messages, b, leaves + 1) && |r.tables.nodes| == |t.nodes| + 1
  {
    var node, made := LeafShape(t, ms, cut, text, testimony, via);
    SoundLeaf(t, CommitLeaf(t, Folded(ms, cut, text, testimony), via).tables, node, Head(ms), Segments(ms),
              Tail(ms)[cut..], made, b, leaves);
  }

  lemma {:induction false} LeafHistory(t: Tables, ms: seq<Message>, b: nat, cut: nat, text: string,
                                       testimony: seq<Message>, via: string, trim: map<SummaryId, nat>, leaves: nat)
    requires b >= 2 && Sound(t, ms, b, leaves) && cut <= |Tail(ms)|
    ensures var r := CommitLeaf(t, Folded(ms, cut, text, testimony), via);
      Recovered(r.tables.nodes, trim[|t.nodes| := |testimony|], r.messages) == Recovered(t.nodes, trim, ms)
  {
    var node, made := LeafShape(t, ms, cut, text, testimony, via);
    var tail := Tail(ms);
    assert tail[..cut] + tail[cut..] == tail;
    LeafRecovers(t.nodes, node, trim, Head(ms), Segments(ms), tail[..cut], testimony, tail[cut..], made);
  }

  /** Committing a leaf adds one to the frontier's weight and loses no history. */
  lemma {:induction false} LeafKeeps(t: Tables, ms: seq<Message>, b: nat, cut: nat, text: string,
                                     testimony: seq<Message>, via: string, trim: map<SummaryId, nat>, leaves: nat)
    requires b >= 2 && Sound(t, ms, b, leaves) && cut <= |Tail(ms)|
    ensures var r := CommitLeaf(t, Folded(ms, cut, text, testimony), via);
      && Sound(r.tables, r.messages, b, leaves + 1)
      && |r.tables.nodes| == |t.nodes| + 1
      && Recovered(r.tables.nodes, trim[|t.nodes| := |testimony|], r.messages) == Recovered(t.nodes, trim, ms)
  {
    LeafIsSound(t, ms, b, cut, text, testimony, via, leaves);
    LeafHistory(t, ms, b, cut, text, testimony, via, trim, leaves);
  }

  /** A whole commit: the leaf, then the merges it makes room for. */
  lemma {:induction false} CommitKeeps(t: Tables, ms: seq<Message>, b: nat, cut: nat, text: string,
                                       testimony: seq<Message>, via: string, replies: seq<Reply>,
                                       trim: map<SummaryId, nat>, leaves: nat)
    requires b >= 2 && Sound(t, ms, b, leaves) && cut <= |Tail(ms)|
    ensures var r := Commit(t, Folded(ms, cut, text, testimony), b, via, replies);
      && Sound(r.tables, r.messages, b, leaves + 1)
      && |r.tables.nodes| == |t.nodes| + 1 + |r.merged|
      && Recovered(r.tables.nodes, Trimmed(trim[|t.nodes| := |testimony|], r.merged, 0), r.messages)
          == Recovered(t.nodes, trim, ms)
  {
    var leaf := CommitLeaf(t, Folded(ms, cut, text, testimony), via);
    LeafKeeps(t, ms, b, cut, text, testimony, via, trim, leaves);
    NormalizeTidy(leaf.messages);
    ConsolidateKeeps(leaf.tables, leaf.messages, b, true, [], replies, trim[|t.nodes| := |testimony|], leaves + 1);
  }

  // ---- pruning ----

  /** `b` is `a` with some tool outputs replaced by marked excerpts. */
  ghost predicate PrunedList(cfg: PruneConfig, a: seq<Message>, b: seq<Message>) {
    |a| == |b| && forall i :: 0 <= i < |a| ==> b[i] == a[i] || IsPrunedCopy(cfg, b[i], a[i])
  }

  lemma {:induction false} PrunedFrontIsSame(cfg: PruneConfig, a: seq<Message>, b: seq<Message>, to: nat)
    requires PrunedList(cfg, a, b) && to <= |a| && forall i :: 0 <= i < to ==> !a[i].Tool?
    ensures b[..to] == a[..to]
  {
    forall i | 0 <= i < to
      ensures b[i] == a[i]
    {
      assert !IsPrunedCopy(cfg, b[i], a[i]);
    }
  }

  lemma {:induction false} PrunedKinds(cfg: PruneConfig, a: seq<Message>, b: seq<Message>)
    requires PrunedList(cfg, a, b)
    ensures Segments(a) == Segments(b) && LeadingSystems(a) == LeadingSystems(b)
    ensures NoSummary(a) ==> NoSummary(b)
  {
    PruneKeepsKinds(a, b);
  }

  lemma {:induction false} PrunedListIsTidy(cfg: PruneConfig, a: seq<Message>, b: seq<Message>)
    requires Tidy(a) && PrunedList(cfg, a, b)
    ensures Tidy(b) && Head(b) == Head(a) && Segments(b) == Segments(a) && PrunedList(cfg, Tail(a), Tail(b))
  {
    var head, segs, tail := Head(a), Segments(a), Tail(a);
    var cut := |head| + |segs|;
    PrunedFrontIsSame(cfg, a, b, cut);
    PrunedKinds(cfg, a, b);
    PrunedKinds(cfg, a[cut..], b[cut..]);
    FrontAndTail(a, b, head, segs, tail);
  }

  lemma {:induction false} FrontAndTail(a: seq<Message>, b: seq<Message>, head: seq<Message>, segs: seq<Message>,
                                        tail: seq<Message>)
    requires a == head + segs + tail && |b| == |a| && b[..|head| + |segs|] == a[..|head| + |segs|]
    ensures b == head + segs + b[|head| + |segs|..] && a[|head| + |segs|..] == tail && b[..|head|] == head
  {
    assert a[..|head| + |segs|] == head + segs;
    assert b == b[..|head| + |segs|] + b[|head| + |segs|..];
    assert b[..|head|] == b[..|head| + |segs|][..|head|];
  }

  /** Each message of `kept` is the message of `wanted` at its place, or its excerpt with the original archived. */
  ghost predicate KeptOrPruned(cfg: PruneConfig, rows: map<MessageId, Row>, wanted: seq<Message>, kept: seq<Message>) {
    && |wanted| == |kept|
    && forall i :: 0 <= i < |wanted| ==>
         kept[i] == wanted[i] || (IsPrunedCopy(cfg, kept[i], wanted[i]) && Hash(wanted[i]) in rows)
  }

  lemma {:induction false} KeptThroughRows(cfg: PruneConfig, rows: map<MessageId, Row>, rows': map<MessageId, Row>,
                                           wanted: seq<Message>, kept: seq<Message>)
    requires KeptOrPruned(cfg, rows, wanted, kept) && rows.Keys <= rows'.Keys
    ensures KeptOrPruned(cfg, rows', wanted, kept)
  {
  }

  lemma {:induction false} PruningRecovers(cfg: PruneConfig, t: Tables, t': Tables, a: seq<Message>, b: seq<Message>,
                                           trim: map<SummaryId, nat>)
    requires Tidy(a) && PrunedList(cfg, a, b) && t'.nodes == t.nodes
    requires forall i :: 0 <= i < |Tail(a)| ==> Hash(Tail(a)[i]) in t'.messages
    ensures KeptOrPruned(cfg, t'.messages, Recovered(t.nodes, trim, a), Recovered(t'.nodes, trim, b))
  {
    PrunedListIsTidy(cfg, a, b);
    RecoveredTidy(t.nodes, trim, Head(a), Segments(a), Tail(a));
    RecoveredTidy(t.nodes, trim, Head(a), Segments(a), Tail(b));
  }

  // ---- rows only grow ----

  lemma {:induction false} RecordGrows(t: Tables, text: string, compacted: seq<Message>, prior: Option<Message>,
                                       parentIds: seq<SummaryId>, via: string)
    ensures t.messages.Keys <= Record(t, text, compacted, prior, parentIds, via).messages.Keys
    ensures t.nodes <= Record(t, text, compacted, prior, parentIds, via).nodes
  {
    InsertAllIsAppendOnly(t.messages, RecordedSources(t, compacted, prior, parentIds), "compaction:" + via);
  }

  lemma {:induction false} ConsolidateGrows(t: Tables, ms: seq<Message>, b: nat, overflow: bool,
                                            testimony: seq<Message>, replies: seq<Reply>)
    requires b >= 2
    ensures var r := ConsolidateFrom(t, ms, b, overflow, testimony, replies);
      t.messages.Keys <= r.tables.messages.Keys && t.nodes <= r.tables.nodes
    decreases |ms|
  {
    var batch := MergeableBatch(ms, b, overflow);
    if batch.Some? && MergeText(batch.value, Next(replies)).Some? {
      var text := MergeText(batch.value, Next(replies)).value;
      var step := MergeOnce(t, ms, b, overflow, batch.value, text, testimony);
      RecordGrows(t, text, testimony, None, SegmentIds(batch.value), MergeMethod(batch.value[0].depth + 1));
      ConsolidateGrows(step.tables, step.messages, b, overflow, [], Later(replies));
    }
  }

  lemma {:induction false} CommitGrows(t: Tables, c: Compaction, b: nat, via: string, replies: seq<Reply>)
    requires b >= 2
    ensures var r := Commit(t, c, b, via, replies);
      t.messages.Keys <= r.tables.messages.Keys && t.nodes <= r.tables.nodes
  {
    var leaf := CommitLeaf(t, c, via);
    RecordGrows(t, c.text, c.compacted, None, [], via);
    ConsolidateGrows(leaf.tables, Normalize(leaf.messages), b, true, [], replies);
  }

  // ---- one attempt ----

  /** The testimony ledger after an attempt. */
  function Ledger(trim: map<SummaryId, nat>, o: Outcome): map<SummaryId, nat> {
    if o.leaf.Some? then Trimmed(trim[o.leaf.value := |o.testimony|], o.merged, 0)
    else Trimmed(trim, o.merged, |o.testimony|)
  }

  function Grown(leaves: nat, leaf: Option<SummaryId>): nat {
    leaves + if leaf.Some? then 1 else 0
  }

  /** What an attempt keeps: the frontier's soundness and, up to archived pruning, all history. */
  ghost predicate AttemptKeeps(c: Config, t: Tables, ms: seq<Message>, trim: map<SummaryId, nat>, leaves: nat,
                               o: Outcome) {
    && Sound(o.tables, o.messages, c.batch, Grown(leaves, o.leaf))
    && t.messages.Keys <= o.tables.messages.Keys
    && (!o.applied ==> o.messages == ms && o.tables.nodes == t.nodes && o.leaf.None?)
    && KeptOrPruned(c.prune, o.tables.messages, Recovered(t.nodes, trim, ms),
        Recovered(o.tables.nodes, Ledger(trim, o), o.messages))
  }

  lemma {:induction false} WeaveFolds(c: Config, working: seq<Message>, reply: Reply, testimony: Option<string>,
                                      second: Reply)
    returns (text: string, extra: seq<Message>)
    requires Tidy(working) && Compact(working, c.keep, [], reply).Some?
    ensures Cut(working, c.keep) <= |Tail(working)|
    ensures var draft := Compact(working, c.keep, [], reply).value;
      var woven := Weave(c, working, draft, testimony, second);
      woven == Folded(working, Cut(working, c.keep), text, extra) && woven.compacted[|draft.compacted|..] == extra
  {
    CompactFolds(working, c.keep, [], reply);
    var draft := Compact(working, c.keep, [], reply).value;
    var middle := Tail(working)[..Cut(working, c.keep)];
    assert draft.compacted == middle;
    if testimony.None? || testimony.value == "" {
      text, extra := reply.text, [];
    } else {
      var pair := RecollectionPair(c.recollectionPrompt, testimony);
      if Compact(working, c.keep, pair, second).Some? {
        CompactFolds(working, c.keep, pair, second);
        text, extra := second.text, pair;
      } else {
        text, extra := reply.text, [User(c.recollectionPrompt), Assistant(testimony.value, [])];
      }
    }
  }

  /** An applied outcome keeps the frontier sound and stands for what `working` stood for; an outcome that
      is not applied returns the input and adds no row. */
  ghost predicate OutcomeKeeps(c: Config, t: Tables, ms: seq<Message>, working: seq<Message>, trim: map<SummaryId, nat>,
                               leaves: nat, o: Outcome) {
    && t.messages.Keys <= o.tables.messages.Keys
    && (!o.applied ==> o.messages == ms && o.tables == t && o.leaf.None? && o.merged == [])
    && (o.applied ==> Sound(o.tables, o.messages, c.batch, Grown(leaves, o.leaf))
                      && Recovered(o.tables.nodes, Ledger(trim, o), o.messages) == Recovered(t.nodes, trim, working))
  }

  lemma {:induction false} CommittedKeeps(c: Config, t: Tables, working: seq<Message>, phase: string, first: Reply,
                                          testimony: Option<string>, second: Reply, rest: seq<Reply>,
                                          trim: map<SummaryId, nat>, leaves: nat)
    requires c.batch >= 2 && Sound(t, working, c.batch, leaves) && Compact(working, c.keep, [], first).Some?
    ensures var draft := Compact(working, c.keep, [], first).value;
      var woven := Weave(c, working, draft, testimony, second);
      var r := Commit(t, woven, c.batch, phase, rest);
      var extra := woven.compacted[|draft.compacted|..];
      && t.messages.Keys <= r.tables.messages.Keys
      && Sound(r.tables, r.messages, c.batch, leaves + 1)
      && Recovered(r.tables.nodes, Trimmed(trim[|t.nodes| := |extra|], r.merged, 0), r.messages)
          == Recovered(t.nodes, trim, working)
  {
    var text, extra := WeaveFolds(c, working, first, testimony, second);
    CommitKeeps(t, working, c.batch, Cut(working, c.keep), text, extra, phase, rest, trim, leaves);
    CommitGrows(t, Weave(c, working, Compact(working, c.keep, [], first).value, testimony, second), c.batch, phase,
                rest);
  }

  lemma {:induction false} SummarizeFreshKeeps(c: Config, t: Tables, working: seq<Message>, phase: string,
                                               heard: Option<string>, answers: seq<Option<string>>, replies: seq<Reply>,
                                               ms: seq<Message>, pruned: bool, trim: map<SummaryId, nat>, leaves: nat)
    requires c.batch >= 2 && Sound(t, working, c.batch, leaves)
    ensures OutcomeKeeps(c, t, ms, working, trim, leaves,
         SummarizeFresh(c, t, ms, working, pruned, phase, heard, answers, replies))
  {
    var o := SummarizeFresh(c, t, ms, working, pruned, phase, heard, answers, replies);
    var draft := Compact(working, c.keep, [], Next(replies));
    PrunedOnlyKeeps(c, t, ms, working, pruned, phase, trim, leaves);
    if draft.Some? {
      var testimony := if heard.Some? then heard else Ask(answers);
      var second := Next(Later(replies));
      if c.estimate(Weave(c, working, draft.value, testimony, second).messages) < c.estimate(working) {
        var rest := if testimony.Some? && testimony.value != "" then Later(Later(replies)) else Later(replies);
        assert o.applied && o.leaf == Some(|t.nodes|);
        CommittedKeeps(c, t, working, phase + "-llm", Next(replies), testimony, second, rest, trim, leaves);
      } else {
        assert o == PrunedOnly(t, ms, working, pruned, phase);
      }
    }
  }

  lemma {:induction false} PrunedOnlyKeeps(c: Config, t: Tables, ms: seq<Message>, working: seq<Message>, pruned: bool,
                                           phase: string, trim: map<SummaryId, nat>, leaves: nat)
    requires Sound(t, working, c.batch, leaves)
    ensures OutcomeKeeps(c, t, ms, working, trim, leaves, PrunedOnly(t, ms, working, pruned, phase))
  {
  }

  lemma {:induction false} AfterPruningKeeps(c: Config, t: Tables, ms: seq<Message>, working: seq<Message>,
                                             pruned: bool, observed: nat, phase: string, a: Answers,
                                             trim: map<SummaryId, nat>, leaves: nat)
    requires c.batch >= 2 && Sound(t, working, c.batch, leaves)
    ensures OutcomeKeeps(c, t, ms, working, trim, leaves, AfterPruning(c, t, ms, working, pruned, observed, phase, a))
  {
    var defer, canMerge := ShouldDefer(c, working, observed), CanConsolidate(working, c.batch);
    if !a.summarizer || (defer && !canMerge) {
    } else if !canMerge {
      SummarizeFreshKeeps(c, t, working, phase, None, a.testimony, a.replies, ms, pruned, trim, leaves);
    } else {
      var heard := Ask(a.testimony);
      var pair := RecollectionPair(c.recollectionPrompt, heard);
      var frontier := Consolidate(t, working, c.batch, false, pair, a.replies);
      NormalizeTidy(working);
      ConsolidateKeeps(t, working, c.batch, false, pair, a.replies, trim, leaves);
      ConsolidateGrows(t, working, c.batch, false, pair, a.replies);
      if frontier.merged == [] {
        NoMergeNoChange(t, working, c.batch, false, pair, a.replies);
        if !defer {
          SummarizeFreshKeeps(c, t, working, phase, heard, if a.testimony != [] then a.testimony[1..] else [],
                              frontier.rest, ms, pruned, trim, leaves);
        }
      }
    }
  }

  lemma {:induction false} RawHasTail(ms: seq<Message>)
    requires Tidy(ms)
    ensures forall i :: 0 <= i < |Tail(ms)| ==> Tail(ms)[i] in Raw(ms)
  {
    SegmentsOf(Head(ms), Segments(ms), Tail(ms));
  }

  lemma {:induction false} ArchivingKeepsSound(t: Tables, ms: seq<Message>, added: seq<Message>, source: string, b: nat,
                                               leaves: nat)
    requires Sound(t, ms, b, leaves)
    ensures Sound(Tables(InsertAll(t.messages, added, source), t.nodes), ms, b, leaves)
    ensures t.messages.Keys <= InsertAll(t.messages, added, source).Keys
    ensures forall m :: m in added ==> Hash(m) in InsertAll(t.messages, added, source)
  {
    InsertKeepsValid(t, added, source);
    InsertAllIsAppendOnly(t.messages, added, source);
  }

  lemma {:induction false} PruningKeeps(c: Config, t: Tables, ms: seq<Message>, source: string,
                                        trim: map<SummaryId, nat>, leaves: nat)
    requires Sound(t, ms, c.batch, leaves)
    ensures var archived := Tables(InsertAll(t.messages, Raw(ms), source), t.nodes);
      var working := Prune(ms, c.prune).messages;
      && Sound(archived, ms, c.batch, leaves) && Sound(archived, working, c.batch, leaves)
      && t.messages.Keys <= archived.messages.Keys
      && KeptOrPruned(c.prune, archived.messages, Recovered(t.nodes, trim, ms),
          Recovered(archived.nodes, trim, working))
  {
    var archived := Tables(InsertAll(t.messages, Raw(ms), source), t.nodes);
    ArchivingKeepsSound(t, ms, Raw(ms), source, c.batch, leaves);
    PruneShape(ms, c.prune);
    PrunedListIsTidy(c.prune, ms, Prune(ms, c.prune).messages);
    RawHasTail(ms);
    PruningRecovers(c.prune, t, archived, ms, Prune(ms, c.prune).messages, trim);
  }

  /** Every attempt, whatever the summarizer and the agent answer, keeps the frontier sound and loses no
      history: pruned outputs are archived before their excerpt replaces them. */
  lemma {:induction false} AttemptLosesNothing(c: Config, t: Tables, ms: seq<Message>, observed: nat, phase: string,
                                               a: Answers, trim: map<SummaryId, nat>, leaves: nat)
    requires c.batch >= 2 && Sound(t, ms, c.batch, leaves)
    ensures AttemptKeeps(c, t, ms, trim, leaves, MaybeCompact(c, t, ms, observed, phase, a))
  {
    var o := MaybeCompact(c, t, ms, observed, phase, a);
    var working := Prune(ms, c.prune).messages;
    var archived := Tables(InsertAll(t.messages, Raw(ms), phase + "-tool-prune"), t.nodes);
    if observed < c.triggerTokens {
      assert o == Unchanged(t, ms, phase);
    } else if Prune(ms, c.prune).pruned == 0 {
      assert o == AfterPruning(c, t, ms, ms, false, observed, phase, a);
      AfterPruningKeeps(c, t, ms, ms, false, observed, phase, a, trim, leaves);
    } else {
      PruningKeeps(c, t, ms, phase + "-tool-prune", trim, leaves);
      if c.estimate(working) < c.triggerTokens {
        assert o == PrunedOnly(archived, ms, working, true, phase);
        PrunedOnlyKeeps(c, archived, ms, working, true, phase, trim, leaves);
      } else {
        assert o == AfterPruning(c, archived, ms, working, true, observed, phase, a);
        AfterPruningKeeps(c, archived, ms, working, true, observed, phase, a, trim, leaves);
      }
    }
  }
}
