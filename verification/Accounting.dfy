/** Where each raw message goes in one compaction attempt, for every conversation, tidy or not. */
module Accounting {
  import opened Wrappers
  import opened Messages
  import opened ArchiveWalks
  import opened ContextArchive
  import opened Frontier
  import opened Lcm
  import opened Summarize
  import opened Compactor
  import opened Conversation
  import opened Attempts

  lemma {:induction false} RawNormalize(ms: seq<Message>)
    ensures Raw(Normalize(ms)) == Raw(ms)
  {
    if ms != [] {
      RawNormalize(ms[1..]);
      assert Normalize(ms)[1..] == Normalize(ms[1..]);
    }
  }

  lemma {:induction false} RawAttach(ms: seq<Message>, id: SummaryId, depth: nat)
    ensures Raw(Attach(ms, id, depth)) == Raw(ms)
  {
    if ms != [] {
      if ms[0].Summary? && ms[0].id.None? {
        assert Attach(ms, id, depth)[1..] == ms[1..];
      } else {
        RawAttach(ms[1..], id, depth);
        assert Attach(ms, id, depth)[1..] == Attach(ms[1..], id, depth);
      }
    }
  }

  /** Merging touches no raw message and adds one row per merge. */
  lemma {:induction false} ConsolidateAccounts(t: Tables, ms: seq<Message>, b: nat, overflow: bool,
                                               testimony: seq<Message>, replies: seq<Reply>)
    requires b >= 2
    ensures var r := ConsolidateFrom(t, ms, b, overflow, testimony, replies);
      Raw(r.messages) == Raw(ms) && |r.tables.nodes| == |t.nodes| + |r.merged|
    decreases |ms|
  {
    var batch := MergeableBatch(ms, b, overflow);
    if batch.Some? && MergeText(batch.value, Next(replies)).Some? {
      var text := MergeText(batch.value, Next(replies)).value;
      var step := MergeOnce(t, ms, b, overflow, batch.value, text, testimony);
      MergeRaw(t, ms, b, overflow, text, testimony);
      ConsolidateAccounts(step.tables, step.messages, b, overflow, [], Later(replies));
    }
  }

  lemma {:induction false} MergeRaw(t: Tables, ms: seq<Message>, b: nat, overflow: bool, text: string,
                                    testimony: seq<Message>)
    requires b >= 2 && MergeableBatch(ms, b, overflow).Some?
    ensures Raw(MergeOnce(t, ms, b, overflow, MergeableBatch(ms, b, overflow).value, text, testimony).messages)
         == Raw(ms)
  {
    var batch := MergeableBatch(ms, b, overflow).value;
    var made := SummaryMessage(text, |t.nodes|, batch[0].depth + 1);
    MergeIsSplice(ms, b, overflow, made);
    RawOfSplice(ms, batch[0].index, batch[0].index + b, made);
  }

  lemma {:induction false} CommitAccounts(t: Tables, c: Compaction, b: nat, via: string, replies: seq<Reply>)
    requires b >= 2
    ensures var r := Commit(t, c, b, via, replies);
      && Raw(r.messages) == Raw(c.messages)
      && |r.tables.nodes| == |t.nodes| + 1 + |r.merged|
      && Sources(r.tables.nodes, |t.nodes|) == Ids(c.compacted)
  {
    var leaf := CommitLeaf(t, c, via);
    RawAttach(c.messages, |t.nodes|, 0);
    RawNormalize(Attach(c.messages, |t.nodes|, 0));
    RawNormalize(leaf.messages);
    ConsolidateAccounts(leaf.tables, Normalize(leaf.messages), b, true, [], replies);
    ConsolidateGrows(leaf.tables, Normalize(leaf.messages), b, true, [], replies);
    assert leaf.tables.nodes[|t.nodes|].sources == Ids(c.compacted);
  }

  lemma {:induction false} RawAfterHead(ms: seq<Message>)
    ensures var h := LeadingSystems(ms); Raw(ms) == ms[..h] + Raw(ms[h..])
  {
    var h := LeadingSystems(ms);
    assert ms == ms[..h] + ms[h..];
    RawConcat(ms[..h], ms[h..]);
    RawOfRaw(ms[..h]);
  }

  lemma {:induction false} SegmentsAreSummaries(ms: seq<Message>)
    ensures forall i :: 0 <= i < |Segments(ms)| ==> Segments(ms)[i].Summary?
  {
    if ms != [] {
      SegmentsAreSummaries(ms[1..]);
    }
  }

  /** A compaction keeps the head and the raw tail, and folds exactly the raw messages between. */
  lemma {:induction false} CompactAccounts(ms: seq<Message>, k: Keep, testimony: seq<Message>, reply: Reply)
    requires Compact(ms, k, testimony, reply).Some?
    ensures var c, h, cut := Compact(ms, k, testimony, reply).value, LeadingSystems(ms), Cut(ms, k);
      && h + cut <= |Raw(ms)| && 0 < cut
      && Raw(c.messages) == Raw(ms)[..h] + Raw(ms)[h + cut..]
      && c.compacted == Raw(ms)[h..h + cut] + testimony
  {
    var c, h, cut := Compact(ms, k, testimony, reply).value, LeadingSystems(ms), Cut(ms, k);
    var segs, raw := Segments(ms[h..]), Raw(ms[h..]);
    RawAfterHead(ms);
    RawSlices(ms[..h], raw, cut, Raw(ms));
    RawIsRaw(ms[h..]);
    SegmentsAreSummaries(ms[h..]);
    RawSuffix(raw, cut);
    RawOfFolded(ms[..h], segs, Summary(None, None, reply.text), raw[cut..]);
  }

  lemma {:induction false} RawSlices(head: seq<Message>, raw: seq<Message>, cut: nat, all: seq<Message>)
    requires all == head + raw && cut <= |raw|
    ensures all[..|head|] == head && all[|head|..|head| + cut] == raw[..cut] && all[|head| + cut..] == raw[cut..]
  {
    SlicesOfConcat(head, raw, cut);
  }

  lemma {:induction false} RawSuffix(raw: seq<Message>, cut: nat)
    requires NoSummary(raw) && cut <= |raw|
    ensures NoSummary(raw[cut..])
  {
  }

  lemma {:induction false} RawOfFolded(head: seq<Message>, segs: seq<Message>, made: Message, rest: seq<Message>)
    requires NoSummary(head) && NoSummary(rest) && made.Summary? && forall i :: 0 <= i < |segs| ==> segs[i].Summary?
    ensures Raw(head + segs + [made] + rest) == head + rest
  {
    assert head + segs + [made] + rest == head + (segs + [made]) + rest;
    SegmentsOf(head, segs + [made], rest);
  }

  /** The list the later stages work on: pruned when something was pruned. */
  function Working(c: Config, ms: seq<Message>, observed: nat): seq<Message> {
    if observed >= c.triggerTokens && Prune(ms, c.prune).pruned > 0 then Prune(ms, c.prune).messages else ms
  }

  /** The books of an attempt over `w`: nothing moved unless applied; otherwise the raw messages are all
      still there, or the new leaf's direct sources are exactly the ones that are not. */
  ghost predicate Balanced(c: Config, t: Tables, ms: seq<Message>, w: seq<Message>, o: Outcome) {
    && |o.tables.nodes| == |t.nodes| + (if o.leaf.Some? then 1 else 0) + |o.merged|
    && (!o.applied ==> o.messages == ms && o.tables.nodes == t.nodes)
    && (o.applied && o.leaf.None? ==> Raw(o.messages) == Raw(w))
    && (o.leaf.Some? ==>
          var h, cut := LeadingSystems(w), Cut(w, c.keep);
          && h + cut <= |Raw(w)|
          && Raw(o.messages) == Raw(w)[..h] + Raw(w)[h + cut..]
          && Sources(o.tables.nodes, o.leaf.value) == Ids(Raw(w)[h..h + cut] + o.testimony))
  }

  lemma {:induction false} SummarizeFreshBalanced(c: Config, t: Tables, ms: seq<Message>, working: seq<Message>,
                                                  pruned: bool, phase: string, heard: Option<string>,
                                                  answers: seq<Option<string>>, replies: seq<Reply>)
    requires c.batch >= 2
    ensures Balanced(c, t, ms, working, SummarizeFresh(c, t, ms, working, pruned, phase, heard, answers, replies))
  {
    var o := SummarizeFresh(c, t, ms, working, pruned, phase, heard, answers, replies);
    var draft := Compact(working, c.keep, [], Next(replies));
    if draft.Some? {
      var testimony := if heard.Some? then heard else Ask(answers);
      var second := Next(Later(replies));
      var woven := Weave(c, working, draft.value, testimony, second);
      if c.estimate(woven.messages) < c.estimate(working) {
        var rest := if testimony.Some? && testimony.value != "" then Later(Later(replies)) else Later(replies);
        assert o.leaf == Some(|t.nodes|) && o.testimony == woven.compacted[|draft.value.compacted|..];
        WeaveAccounts(c, working, Next(replies), testimony, second);
        CommitAccounts(t, woven, c.batch, phase + "-llm", rest);
      } else {
        assert o == PrunedOnly(t, ms, working, pruned, phase);
      }
    }
  }

  lemma {:induction false} WeaveAccounts(c: Config, working: seq<Message>, first: Reply, testimony: Option<string>,
                                         second: Reply)
    requires Compact(working, c.keep, [], first).Some?
    ensures var draft := Compact(working, c.keep, [], first).value;
      var woven := Weave(c, working, draft, testimony, second);
      var h, cut := LeadingSystems(working), Cut(working, c.keep);
      && h + cut <= |Raw(working)|
      && Raw(woven.messages) == Raw(working)[..h] + Raw(working)[h + cut..]
      && woven.compacted == Raw(working)[h..h + cut] + woven.compacted[|draft.compacted|..]
  {
    CompactAccounts(working, c.keep, [], first);
    var draft := Compact(working, c.keep, [], first).value;
    var woven := Weave(c, working, draft, testimony, second);
    var h, cut := LeadingSystems(working), Cut(working, c.keep);
    assert draft.compacted == Raw(working)[h..h + cut];
    if testimony.Some? && testimony.value != "" {
      var pair := RecollectionPair(c.recollectionPrompt, testimony);
      if Compact(working, c.keep, pair, second).Some? {
        CompactAccounts(working, c.keep, pair, second);
      }
    }
  }

  lemma {:induction false} EscalationBalanced(c: Config, t: Tables, ms: seq<Message>, working: seq<Message>,
                                              pruned: bool, observed: nat, phase: string, a: Answers)
    requires c.batch >= 2
    ensures Balanced(c, t, ms, working, AfterPruning(c, t, ms, working, pruned, observed, phase, a))
  {
    var defer, canMerge := ShouldDefer(c, working, observed), CanConsolidate(working, c.batch);
    if !a.summarizer || (defer && !canMerge) {
    } else if !canMerge {
      SummarizeFreshBalanced(c, t, ms, working, pruned, phase, None, a.testimony, a.replies);
    } else {
      var heard := Ask(a.testimony);
      var pair := RecollectionPair(c.recollectionPrompt, heard);
      var frontier := Consolidate(t, working, c.batch, false, pair, a.replies);
      RawNormalize(working);
      ConsolidateAccounts(t, Normalize(working), c.batch, false, pair, a.replies);
      if frontier.merged == [] {
        NoMergeNoChange(t, Normalize(working), c.batch, false, pair, a.replies);
        if !defer {
          SummarizeFreshBalanced(c, t, ms, working, pruned, phase, heard,
                                 if a.testimony != [] then a.testimony[1..] else [], frontier.rest);
        }
      }
    }
  }

  /** On every path, for every conversation and every answer: an attempt that is not applied returns its
      input; otherwise each raw message is kept, or kept as an excerpt with its original archived in the
      call, or is a direct source of the new leaf, in order; a summary that fails records no row. */
  lemma {:induction false} AttemptAccounts(c: Config, t: Tables, ms: seq<Message>, observed: nat, phase: string,
                                           a: Answers)
    requires c.batch >= 2
    ensures var o, w := MaybeCompact(c, t, ms, observed, phase, a), Working(c, ms, observed);
      && Balanced(c, t, ms, w, o)
      && PrunedList(c.prune, ms, w)
      && (w != ms ==> forall m :: m in Raw(ms) ==> Hash(m) in o.tables.messages)
  {
    var o := MaybeCompact(c, t, ms, observed, phase, a);
    PruneShape(ms, c.prune);
    if observed >= c.triggerTokens {
      var w := Prune(ms, c.prune).messages;
      var archived := Tables(InsertAll(t.messages, Raw(ms), phase + "-tool-prune"), t.nodes);
      if Prune(ms, c.prune).pruned == 0 {
        EscalationBalanced(c, t, ms, ms, false, observed, phase, a);
      } else {
        InsertAllIsAppendOnly(t.messages, Raw(ms), phase + "-tool-prune");
        if c.estimate(w) < c.triggerTokens {
          assert o == PrunedOnly(archived, ms, w, true, phase);
        } else {
          assert o == AfterPruning(c, archived, ms, w, true, observed, phase, a);
          EscalationBalanced(c, archived, ms, w, true, observed, phase, a);
          EscalationGrows(c, archived, ms, w, true, observed, phase, a);
        }
      }
    }
  }

  lemma {:induction false} EscalationGrows(c: Config, t: Tables, ms: seq<Message>, working: seq<Message>, pruned: bool,
                                           observed: nat, phase: string, a: Answers)
    requires c.batch >= 2
    ensures t.messages.Keys <= AfterPruning(c, t, ms, working, pruned, observed, phase, a).tables.messages.Keys
  {
    if !CanConsolidate(working, c.batch) {
      SummarizeFreshGrows(c, t, ms, working, pruned, phase, None, a.testimony, a.replies);
    } else {
      var pair := RecollectionPair(c.recollectionPrompt, Ask(a.testimony));
      var rest := if a.testimony != [] then a.testimony[1..] else [];
      var frontier := Consolidate(t, working, c.batch, false, pair, a.replies);
      ConsolidateGrows(t, Normalize(working), c.batch, false, pair, a.replies);
      SummarizeFreshGrows(c, frontier.tables, ms, working, pruned, phase, Ask(a.testimony), rest, frontier.rest);
    }
  }

  lemma {:induction false} SummarizeFreshGrows(c: Config, t: Tables, ms: seq<Message>, working: seq<Message>,
                                               pruned: bool, phase: string, heard: Option<string>,
                                               answers: seq<Option<string>>, replies: seq<Reply>)
    requires c.batch >= 2
    ensures t.messages.Keys <= SummarizeFresh(c, t, ms, working, pruned, phase, heard, answers,
         replies).tables.messages.Keys
  {
    var draft := Compact(working, c.keep, [], Next(replies));
    if draft.Some? {
      var testimony := if heard.Some? then heard else Ask(answers);
      var woven := Weave(c, working, draft.value, testimony, Next(Later(replies)));
      CommitGrows(t, woven, c.batch, phase + "-llm", Later(Later(replies)));
      CommitGrows(t, woven, c.batch, phase + "-llm", Later(replies));
    }
  }

  lemma {:induction false} EscalationIsDue(c: Config, t: Tables, ms: seq<Message>, working: seq<Message>, pruned: bool,
                                           observed: nat, phase: string, a: Answers)
    requires c.batch >= 2
    ensures AfterPruning(c, t, ms, working, pruned, observed, phase, a).leaf.Some?
            ==> a.summarizer && !ShouldDefer(c, working, observed)
  {
  }

  /** A new leaf is only recorded when it is due: the trigger is reached, pruning alone did not bring the estimate below
      it, a summarizer is there, and the attempt is a first one, has enough new messages, or is past the hard
      trigger. */
  lemma {:induction false} LeafOnlyWhenDue(c: Config, t: Tables, ms: seq<Message>, observed: nat, phase: string,
                                           a: Answers)
    requires c.batch >= 2
    ensures var o, w := MaybeCompact(c, t, ms, observed, phase, a), Working(c, ms, observed);
      o.leaf.Some? ==>
        && observed >= c.triggerTokens && a.summarizer
        && (Prune(ms, c.prune).pruned > 0 ==> c.estimate(w) >= c.triggerTokens)
        && (Segments(w) == [] || Cut(w, c.keep) >= c.minNewMessages || observed >= c.hardTriggerTokens)
  {
    var w := Working(c, ms, observed);
    var archived := Tables(InsertAll(t.messages, Raw(ms), phase + "-tool-prune"), t.nodes);
    EscalationIsDue(c, t, ms, ms, false, observed, phase, a);
    EscalationIsDue(c, archived, ms, w, true, observed, phase, a);
  }
}
