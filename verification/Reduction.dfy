/** Every recorded summary row pays for itself: the acceptance gate bounds how often a history can be summarized. */
module Reduction {
  import opened Wrappers
  import opened Messages
  import opened ArchiveWalks
  import opened ContextArchive
  import opened Frontier
  import opened Lcm
  import opened Summarize
  import opened Compactor
  import opened Session

  const SAVED_PER_ROW: nat := 9

  /** The text a message carries, a summary's fixed envelope and marker lines aside. */
  function Told(m: Message): nat {
    if m.Summary? then |m.body| else |m.text|
  }

  function ToldChars(ms: seq<Message>): nat
    decreases |ms|
  {
    if ms == [] then 0 else Told(ms[0]) + ToldChars(ms[1..])
  }

  lemma {:induction false} ToldConcat(a: seq<Message>, b: seq<Message>)
    ensures ToldChars(a + b) == ToldChars(a) + ToldChars(b)
    decreases |a|
  {
    if a == [] {
      assert a + b == b;
    } else {
      assert (a + b)[1..] == a[1..] + b && (a + b)[0] == a[0];
      ToldConcat(a[1..], b);
    }
  }

  lemma {:induction false} ToldOne(m: Message)
    ensures ToldChars([m]) == Told(m)
  {
    assert [m][1..] == [];
  }

  lemma {:induction false} ToldOfRaw(ms: seq<Message>)
    requires forall i :: 0 <= i < |ms| ==> !ms[i].Summary?
    ensures ToldChars(ms) == Chars(ms)
    decreases |ms|
  {
    if ms != [] {
      ToldOfRaw(ms[1..]);
    }
  }

  lemma {:induction false} ToldByKind(ms: seq<Message>)
    ensures ToldChars(ms) == ToldChars(Raw(ms)) + ToldChars(Segments(ms))
    decreases |ms|
  {
    if ms != [] {
      ToldByKind(ms[1..]);
      ToldConcat([ms[0]], Raw(ms[1..]));
      ToldConcat([ms[0]], Segments(ms[1..]));
      ToldOne(ms[0]);
      assert [] + Raw(ms[1..]) == Raw(ms[1..]) && [] + Segments(ms[1..]) == Segments(ms[1..]);
    }
  }

  lemma {:induction false} NoLonger(a: seq<Message>, b: seq<Message>)
    requires |a| == |b| && forall i :: 0 <= i < |a| ==> Told(b[i]) <= Told(a[i])
    ensures ToldChars(b) <= ToldChars(a)
    decreases |a|
  {
    if a != [] {
      NoLonger(a[1..], b[1..]);
    }
  }

  // ---- the gate ----

  /** At least 80 characters and at most nine tenths of what it replaces: an accepted text saves nine characters. */
  lemma {:induction false} AcceptedSaves(reply: Reply, replaced: nat)
    requires Accepts(reply, replaced)
    ensures |reply.text| + SAVED_PER_ROW <= replaced
  {
    var n := |reply.text|;
    assert (n as real) <= (replaced as real) * 0.9;
    assert 10 * n <= 9 * replaced;
  }

  /** The entry stands at `index` in the conversation and carries the body of that summary. */
  ghost predicate Carries(ms: seq<Message>, a: ActiveSummary, index: nat) {
    index < |ms| && a.index == index && ms[index].Summary? && a.text == ms[index].body
  }

  lemma {:induction false} BatchTold(ms: seq<Message>, batch: seq<ActiveSummary>, at: nat)
    requires at + |batch| <= |ms| && forall k :: 0 <= k < |batch| ==> Carries(ms, batch[k], at + k)
    ensures ToldChars(ms[at..at + |batch|]) == BodyChars(batch)
    decreases |batch|
  {
    if batch != [] {
      assert Carries(ms, batch[0], at + 0);
      forall k | 0 <= k < |batch[1..]|
        ensures Carries(ms, batch[1..][k], at + 1 + k)
      {
        assert Carries(ms, batch[k + 1], at + (k + 1));
      }
      BatchTold(ms, batch[1..], at + 1);
      var part := ms[at..at + |batch|];
      assert part[0] == ms[at] && part[1..] == ms[at + 1..at + 1 + |batch[1..]|];
    }
  }

  lemma {:induction false} SpliceTold(ms: seq<Message>, from: nat, to: nat, made: Message)
    requires from <= to <= |ms|
    ensures ToldChars(ms[..from] + [made] + ms[to..]) + ToldChars(ms[from..to]) == ToldChars(ms) + Told(made)
  {
    assert ms == ms[..from] + ms[from..to] + ms[to..];
    ToldConcat(ms[..from] + ms[from..to], ms[to..]);
    ToldConcat(ms[..from], ms[from..to]);
    ToldConcat(ms[..from] + [made], ms[to..]);
    ToldConcat(ms[..from], [made]);
    ToldOne(made);
  }

  lemma {:induction false} BatchBodies(ms: seq<Message>, b: nat, overflow: bool)
    requires b >= 2 && MergeableBatch(ms, b, overflow).Some?
    ensures var batch := MergeableBatch(ms, b, overflow).value;
      && |batch| == b && batch[0].index + b <= |ms|
      && ToldChars(ms[batch[0].index..batch[0].index + b]) == BodyChars(batch)
  {
    var batch := MergeableBatch(ms, b, overflow).value;
    var at := batch[0].index;
    BatchMember(ms, b, overflow, b - 1);
    forall k | 0 <= k < |batch|
      ensures Carries(ms, batch[k], at + k)
    {
      BatchMember(ms, b, overflow, k);
    }
    BatchTold(ms, batch, at);
  }

  lemma {:induction false} MergeTextIsAccepted(batch: seq<ActiveSummary>, reply: Reply)
    requires MergeText(batch, reply).Some?
    ensures Accepts(reply, BodyChars(batch)) && MergeText(batch, reply).value == reply.text
  {
  }

  lemma {:induction false} ReplacedTold(ms: seq<Message>, b: nat, overflow: bool, made: Message)
    requires b >= 2 && MergeableBatch(ms, b, overflow).Some?
    ensures var batch := MergeableBatch(ms, b, overflow).value;
      ToldChars(ReplaceBatch(ms, batch, made)) + BodyChars(batch) == ToldChars(ms) + Told(made)
  {
    var at := MergeableBatch(ms, b, overflow).value[0].index;
    MergeIsSplice(ms, b, overflow, made);
    BatchBodies(ms, b, overflow);
    SpliceTold(ms, at, at + b, made);
  }

  lemma {:induction false} MergeShortens(t: Tables, ms: seq<Message>, b: nat, overflow: bool, text: string,
                                         testimony: seq<Message>)
    requires b >= 2 && MergeableBatch(ms, b, overflow).Some?
    requires |text| + SAVED_PER_ROW <= BodyChars(MergeableBatch(ms, b, overflow).value)
    ensures ToldChars(MergeOnce(t, ms, b, overflow, MergeableBatch(ms, b, overflow).value, text, testimony).messages)
         + SAVED_PER_ROW
         <= ToldChars(ms)
  {
    ReplacedTold(ms, b, overflow, SummaryMessage(text, |t.nodes|, MergeableBatch(ms, b, overflow).value[0].depth + 1));
  }

  lemma {:induction false} MergeSaves(t: Tables, ms: seq<Message>, b: nat, overflow: bool, reply: Reply,
                                      testimony: seq<Message>)
    requires b >= 2 && MergeableBatch(ms, b, overflow).Some?
    requires MergeText(MergeableBatch(ms, b, overflow).value, reply).Some?
    ensures var batch := MergeableBatch(ms, b, overflow).value;
      ToldChars(MergeOnce(t, ms, b, overflow, batch, MergeText(batch, reply).value, testimony).messages) + SAVED_PER_ROW
      <= ToldChars(ms)
  {
    var batch := MergeableBatch(ms, b, overflow).value;
    MergeTextIsAccepted(batch, reply);
    AcceptedSaves(reply, BodyChars(batch));
    MergeShortens(t, ms, b, overflow, reply.text, testimony);
  }

  // ---- whole operations ----

  /** The conversation and the archive after some steps: every row added saved its characters. */
  ghost predicate Paid(before: seq<Message>, rowsBefore: nat, after: seq<Message>, rowsAfter: nat) {
    ToldChars(after) + SAVED_PER_ROW * rowsAfter <= ToldChars(before) + SAVED_PER_ROW * rowsBefore
  }

  lemma {:induction false} MergesPay(t: Tables, ms: seq<Message>, b: nat, overflow: bool, testimony: seq<Message>,
                                     replies: seq<Reply>)
    requires b >= 2
    ensures var r := ConsolidateFrom(t, ms, b, overflow, testimony, replies);
      Paid(ms, |t.nodes|, r.messages, |r.tables.nodes|)
    decreases |ms|
  {
    var batch := MergeableBatch(ms, b, overflow);
    if batch.Some? && MergeText(batch.value, Next(replies)).Some? {
      var step := MergeOnce(t, ms, b, overflow, batch.value, MergeText(batch.value, Next(replies)).value, testimony);
      MergeSaves(t, ms, b, overflow, Next(replies), testimony);
      assert |step.tables.nodes| == |t.nodes| + 1;
      MergesPay(step.tables, step.messages, b, overflow, [], Later(replies));
    }
  }

  lemma {:induction false} NormalizeTold(ms: seq<Message>)
    ensures ToldChars(Normalize(ms)) == ToldChars(ms)
    decreases |ms|
  {
    if ms != [] {
      NormalizeTold(ms[1..]);
      assert Normalize(ms)[1..] == Normalize(ms[1..]);
    }
  }

  lemma {:induction false} AttachTold(ms: seq<Message>, id: SummaryId, depth: nat)
    ensures ToldChars(Attach(ms, id, depth)) == ToldChars(ms)
    decreases |ms|
  {
    if ms != [] {
      if ms[0].Summary? && ms[0].id.None? {
        assert Attach(ms, id, depth)[1..] == ms[1..];
      } else {
        AttachTold(ms[1..], id, depth);
        assert Attach(ms, id, depth)[1..] == Attach(ms[1..], id, depth);
      }
    }
  }

  lemma {:induction false} CommitPays(t: Tables, c: Compaction, b: nat, via: string, replies: seq<Reply>,
                                      before: seq<Message>)
    requires b >= 2 && ToldChars(c.messages) + SAVED_PER_ROW <= ToldChars(before)
    ensures var r := Commit(t, c, b, via, replies); Paid(before, |t.nodes|, r.messages, |r.tables.nodes|)
  {
    var leaf := CommitLeaf(t, c, via);
    AttachTold(c.messages, |t.nodes|, 0);
    NormalizeTold(Attach(c.messages, |t.nodes|, 0));
    NormalizeTold(leaf.messages);
    assert |leaf.tables.nodes| == |t.nodes| + 1;
    MergesPay(leaf.tables, Normalize(leaf.messages), b, true, [], replies);
  }

  lemma {:induction false} ToldParts(head: seq<Message>, segs: seq<Message>, made: Message, raw: seq<Message>, cut: nat)
    requires cut <= |raw|
    ensures ToldChars(head + segs + [made] + raw[cut..]) + ToldChars(raw[..cut])
         == ToldChars(head) + ToldChars(segs) + Told(made) + ToldChars(raw)
  {
    ToldConcat(head + segs + [made], raw[cut..]);
    ToldConcat(head + segs, [made]);
    ToldConcat(head, segs);
    ToldOne(made);
    assert raw == raw[..cut] + raw[cut..];
    ToldConcat(raw[..cut], raw[cut..]);
  }

  lemma {:induction false} RawPrefixTold(ms: seq<Message>, cut: nat)
    requires cut <= |Raw(ms)|
    ensures ToldChars(Raw(ms)[..cut]) == Chars(Raw(ms)[..cut])
  {
    RawIsRaw(ms);
    ToldOfRaw(Raw(ms)[..cut]);
  }

  lemma {:induction false} CompactSaves(ms: seq<Message>, k: Keep, testimony: seq<Message>, reply: Reply)
    requires Compact(ms, k, testimony, reply).Some?
    ensures ToldChars(Compact(ms, k, testimony, reply).value.messages) + SAVED_PER_ROW <= ToldChars(ms)
  {
    var h, cut := LeadingSystems(ms), Cut(ms, k);
    var rest := ms[h..];
    AcceptedSaves(reply, Chars(Raw(rest)[..cut]));
    RawPrefixTold(rest, cut);
    ToldParts(ms[..h], Segments(rest), Summary(None, None, reply.text), Raw(rest), cut);
    ToldByKind(rest);
    assert ms == ms[..h] + rest;
    ToldConcat(ms[..h], rest);
  }

  lemma {:induction false} WeaveSaves(c: Config, working: seq<Message>, first: Reply, testimony: Option<string>,
                                      second: Reply)
    requires Compact(working, c.keep, [], first).Some?
    ensures var woven := Weave(c, working, Compact(working, c.keep, [], first).value, testimony, second);
      ToldChars(woven.messages) + SAVED_PER_ROW <= ToldChars(working)
  {
    CompactSaves(working, c.keep, [], first);
    var pair := RecollectionPair(c.recollectionPrompt, testimony);
    if Compact(working, c.keep, pair, second).Some? {
      CompactSaves(working, c.keep, pair, second);
    }
  }

  lemma {:induction false} SummarizePays(c: Config, t: Tables, ms: seq<Message>, working: seq<Message>, pruned: bool,
                                         phase: string, heard: Option<string>, answers: seq<Option<string>>,
                                         replies: seq<Reply>)
    requires c.batch >= 2 && ToldChars(working) <= ToldChars(ms)
    ensures var o := SummarizeFresh(c, t, ms, working, pruned, phase, heard, answers, replies);
      Paid(ms, |t.nodes|, o.messages, |o.tables.nodes|)
  {
    var draft := Compact(working, c.keep, [], Next(replies));
    if draft.Some? {
      var testimony := if heard.Some? then heard else Ask(answers);
      var woven := Weave(c, working, draft.value, testimony, Next(Later(replies)));
      WeaveSaves(c, working, Next(replies), testimony, Next(Later(replies)));
      var rest := if testimony.Some? && testimony.value != "" then Later(Later(replies)) else Later(replies);
      CommitPays(t, woven, c.batch, phase + "-llm", rest, ms);
    }
  }

  lemma {:induction false} EscalationPays(c: Config, t: Tables, ms: seq<Message>, working: seq<Message>, pruned: bool,
                                          observed: nat, phase: string, a: Answers)
    requires c.batch >= 2 && ToldChars(working) <= ToldChars(ms)
    ensures var o := AfterPruning(c, t, ms, working, pruned, observed, phase, a);
      Paid(ms, |t.nodes|, o.messages, |o.tables.nodes|)
  {
    var heard := Ask(a.testimony);
    var rest := if a.testimony != [] then a.testimony[1..] else [];
    var frontier := Consolidate(t, working, c.batch, false, RecollectionPair(c.recollectionPrompt, heard), a.replies);
    if !CanConsolidate(working, c.batch) {
      SummarizePays(c, t, ms, working, pruned, phase, None, a.testimony, a.replies);
    } else {
      NormalizeTold(working);
      MergesPay(t, Normalize(working), c.batch, false, RecollectionPair(c.recollectionPrompt, heard), a.replies);
      if frontier.merged == [] {
        NoMergeNoChange(t, Normalize(working), c.batch, false, RecollectionPair(c.recollectionPrompt, heard),
            a.replies);
        SummarizePays(c, frontier.tables, ms, working, pruned, phase, heard, rest, frontier.rest);
      }
    }
  }

  lemma {:induction false} PruningTold(ms: seq<Message>, cfg: PruneConfig)
    ensures ToldChars(Prune(ms, cfg).messages) <= ToldChars(ms)
  {
    var pruned := Prune(ms, cfg).messages;
    PruneShape(ms, cfg);
    forall i | 0 <= i < |ms|
      ensures Told(pruned[i]) <= Told(ms[i])
    {
      PruneOneIsCopy(cfg, ToolNames(ms), ms[i]);
    }
    NoLonger(ms, pruned);
  }

  lemma {:induction false} AttemptPays(c: Config, t: Tables, ms: seq<Message>, observed: nat, phase: string, a: Answers)
    requires c.batch >= 2
    ensures var o := MaybeCompact(c, t, ms, observed, phase, a); Paid(ms, |t.nodes|, o.messages, |o.tables.nodes|)
  {
    if observed >= c.triggerTokens {
      if Prune(ms, c.prune).pruned == 0 {
        EscalationPays(c, t, ms, ms, false, observed, phase, a);
      } else {
        PruningTold(ms, c.prune);
        var archived := Tables(InsertAll(t.messages, Raw(ms), phase + "-tool-prune"), t.nodes);
        EscalationPays(c, archived, ms, Prune(ms, c.prune).messages, true, observed, phase, a);
      }
    }
  }

  lemma {:induction false} StepPays(c: Config, s: State, e: Event)
    requires c.batch >= 2 && Paid(s.history, 0, s.messages, |s.tables.nodes|)
    ensures var n := Step(c, s, e); Paid(n.history, 0, n.messages, |n.tables.nodes|)
  {
    match e {
      case Append(m) =>
        ToldConcat(s.messages, [m]);
        ToldConcat(s.history, [m]);
      case Attempt(observed, phase, a) => AttemptPays(c, s.tables, s.messages, observed, phase, a);
      case Rest(testimony, replies) =>
        var pair := RecollectionPair(c.recollectionPrompt, testimony);
        var folded := Compact(s.messages, KEEP_NOTHING, pair, Next(replies));
        if folded.Some? {
          CompactSaves(s.messages, KEEP_NOTHING, pair, Next(replies));
          CommitPays(s.tables, folded.value, c.batch, "rest-llm", Later(replies), s.messages);
        }
    }
  }

  /** Over every run, for every behaviour of the summarizer, the text of the conversation plus nine characters for each
      row of the archive never exceeds the text appended: a history of n characters is summarized at most n / 9 times,
      and no compaction makes the conversation's text longer. */
  lemma {:induction false} RowsArePaidFor(c: Config, s: State, events: seq<Event>)
    requires c.batch >= 2 && Paid(s.history, 0, s.messages, |s.tables.nodes|)
    ensures var last := Run(c, s, events);
      ToldChars(last.messages) + SAVED_PER_ROW * |last.tables.nodes| <= ToldChars(last.history)
    decreases |events|
  {
    if events != [] {
      StepPays(c, s, events[0]);
      RowsArePaidFor(c, Step(c, s, events[0]), events[1..]);
    }
  }
}
