/** Whole runs of a session over one archive. */
module Session {
  import opened Wrappers
  import opened Messages
  import opened ArchiveWalks
  import opened ContextArchive
  import opened Numerals
  import opened Frontier
  import opened Lcm
  import opened Summarize
  import opened Compactor
  import opened Conversation
  import opened History
  import opened Attempts

  // ---- the testimony ledger ----

  /** Nothing, or the recollection prompt and the agent's answer to it. */
  ghost predicate IsExchange(prompt: string, ms: seq<Message>) {
    ms == [] || (|ms| == 2 && ms[0] == User(prompt) && ms[1].Assistant? && ms[1].calls == [])
  }

  /** The last `n` sources of a row are a recollection exchange. */
  ghost predicate EndsInExchange(prompt: string, nodes: seq<Node>, id: SummaryId, n: nat) {
    id < |nodes| && n <= |nodes[id].sources|
    && IsExchange(prompt, Originals(nodes[id].sources[|nodes[id].sources| - n..]))
  }

  /** What the ledger leaves out of a row is exactly the exchange its recording added. */
  ghost predicate Honest(prompt: string, nodes: seq<Node>, trim: map<SummaryId, nat>) {
    forall id :: id in trim ==> EndsInExchange(prompt, nodes, id, trim[id])
  }

  lemma {:induction false} HonestRow(prompt: string, nodes: seq<Node>, node: Node, own: seq<Message>,
                                     testimony: seq<Message>, trim: map<SummaryId, nat>)
    requires Honest(prompt, nodes, trim) && IsExchange(prompt, testimony) && node.sources == Ids(own + testimony)
    ensures Honest(prompt, nodes + [node], trim[|nodes| := |testimony|])
  {
    var nodes', trim' := nodes + [node], trim[|nodes| := |testimony|];
    assert Originals(node.sources[|own|..]) == testimony;
    forall id | id in trim'
      ensures EndsInExchange(prompt, nodes', id, trim'[id])
    {
      if id != |nodes| {
        assert EndsInExchange(prompt, nodes, id, trim[id]);
        assert nodes'[id] == nodes[id];
      }
    }
  }

  lemma {:induction false} ConsolidateHonest(prompt: string, t: Tables, ms: seq<Message>, b: nat, overflow: bool,
                                             testimony: seq<Message>, replies: seq<Reply>, trim: map<SummaryId, nat>)
    requires b >= 2 && Honest(prompt, t.nodes, trim) && IsExchange(prompt, testimony)
    ensures var r := ConsolidateFrom(t, ms, b, overflow, testimony, replies);
      Honest(prompt, r.tables.nodes, Trimmed(trim, r.merged, |testimony|))
    decreases |ms|
  {
    var batch := MergeableBatch(ms, b, overflow);
    if batch.Some? && MergeText(batch.value, Next(replies)).Some? {
      var text := MergeText(batch.value, Next(replies)).value;
      var step := MergeOnce(t, ms, b, overflow, batch.value, text, testimony);
      var node := step.tables.nodes[|t.nodes|];
      assert [] + testimony == testimony;
      HonestRow(prompt, t.nodes, node, [], testimony, trim);
      ConsolidateHonest(prompt, step.tables, step.messages, b, overflow, [], Later(replies),
                        trim[|t.nodes| := |testimony|]);
      var rest := ConsolidateFrom(step.tables, step.messages, b, overflow, [], Later(replies));
      assert ([|t.nodes|] + rest.merged)[1..] == rest.merged;
    }
  }

  lemma {:induction false} CommitHonest(prompt: string, t: Tables, c: Compaction, own: seq<Message>,
                                        testimony: seq<Message>, b: nat, via: string, replies: seq<Reply>,
                                        trim: map<SummaryId, nat>)
    requires b >= 2 && Honest(prompt, t.nodes, trim) && IsExchange(prompt, testimony) && c.compacted == own + testimony
    ensures var r := Commit(t, c, b, via, replies);
      Honest(prompt, r.tables.nodes, Trimmed(trim[|t.nodes| := |testimony|], r.merged, 0))
  {
    var leaf := CommitLeaf(t, c, via);
    HonestRow(prompt, t.nodes, leaf.tables.nodes[|t.nodes|], own, testimony, trim);
    ConsolidateHonest(prompt, leaf.tables, Normalize(leaf.messages), b, true, [], replies,
                      trim[|t.nodes| := |testimony|]);
  }

  /** Weaving adds nothing to the folded messages but an exchange at their end. */
  lemma {:induction false} WeaveExchange(c: Config, working: seq<Message>, first: Reply, testimony: Option<string>,
                                         second: Reply)
    requires Compact(working, c.keep, [], first).Some?
    ensures var draft := Compact(working, c.keep, [], first).value;
      var woven := Weave(c, working, draft, testimony, second);
      var extra := woven.compacted[|draft.compacted|..];
      woven.compacted == draft.compacted + extra && IsExchange(c.recollectionPrompt, extra)
  {
    var draft := Compact(working, c.keep, [], first).value;
    if testimony.Some? && testimony.value != "" {
      var pair := RecollectionPair(c.recollectionPrompt, testimony);
      var woven := Compact(working, c.keep, pair, second);
      if woven.Some? {
        assert draft.compacted + pair == woven.value.compacted;
        assert woven.value.compacted[|draft.compacted|..] == pair;
      } else {
        var exchange := [User(c.recollectionPrompt), Assistant(testimony.value, [])];
        assert (draft.compacted + exchange)[|draft.compacted|..] == exchange;
      }
    }
  }

  lemma {:induction false} SummarizeFreshHonest(c: Config, t: Tables, ms: seq<Message>, working: seq<Message>,
                                                pruned: bool, phase: string, heard: Option<string>,
                                                answers: seq<Option<string>>, replies: seq<Reply>,
                                                trim: map<SummaryId, nat>)
    requires c.batch >= 2 && Honest(c.recollectionPrompt, t.nodes, trim)
    ensures var o := SummarizeFresh(c, t, ms, working, pruned, phase, heard, answers, replies);
      Honest(c.recollectionPrompt, o.tables.nodes, Ledger(trim, o))
  {
    var o := SummarizeFresh(c, t, ms, working, pruned, phase, heard, answers, replies);
    var draft := Compact(working, c.keep, [], Next(replies));
    if draft.Some? {
      var testimony := if heard.Some? then heard else Ask(answers);
      var second := Next(Later(replies));
      var woven := Weave(c, working, draft.value, testimony, second);
      if c.estimate(woven.messages) < c.estimate(working) {
        var rest := if testimony.Some? && testimony.value != "" then Later(Later(replies)) else Later(replies);
        assert o.leaf == Some(|t.nodes|) && o.testimony == woven.compacted[|draft.value.compacted|..];
        WeaveExchange(c, working, Next(replies), testimony, second);
        CommitHonest(c.recollectionPrompt, t, woven, draft.value.compacted, o.testimony, c.batch, phase + "-llm", rest,
                     trim);
      } else {
        assert o == PrunedOnly(t, ms, working, pruned, phase);
      }
    }
  }

  lemma {:induction false} AttemptHonest(c: Config, t: Tables, ms: seq<Message>, observed: nat, phase: string,
                                         a: Answers, trim: map<SummaryId, nat>)
    requires c.batch >= 2 && Honest(c.recollectionPrompt, t.nodes, trim)
    ensures var o := MaybeCompact(c, t, ms, observed, phase, a);
      Honest(c.recollectionPrompt, o.tables.nodes, Ledger(trim, o))
  {
    var o := MaybeCompact(c, t, ms, observed, phase, a);
    if observed >= c.triggerTokens {
      var archived := Tables(InsertAll(t.messages, Raw(ms), phase + "-tool-prune"), t.nodes);
      var result := Prune(ms, c.prune);
      if result.pruned == 0 {
        EscalationHonest(c, t, ms, ms, false, observed, phase, a, trim);
      } else if c.estimate(result.messages) >= c.triggerTokens {
        EscalationHonest(c, archived, ms, result.messages, true, observed, phase, a, trim);
      }
    }
  }

  lemma {:induction false} EscalationHonest(c: Config, t: Tables, ms: seq<Message>, working: seq<Message>, pruned: bool,
                                            observed: nat, phase: string, a: Answers, trim: map<SummaryId, nat>)
    requires c.batch >= 2 && Honest(c.recollectionPrompt, t.nodes, trim)
    ensures var o := AfterPruning(c, t, ms, working, pruned, observed, phase, a);
      Honest(c.recollectionPrompt, o.tables.nodes, Ledger(trim, o))
  {
    var defer, canMerge := ShouldDefer(c, working, observed), CanConsolidate(working, c.batch);
    if !a.summarizer || (defer && !canMerge) {
    } else if !canMerge {
      SummarizeFreshHonest(c, t, ms, working, pruned, phase, None, a.testimony, a.replies, trim);
    } else {
      var heard := Ask(a.testimony);
      var pair := RecollectionPair(c.recollectionPrompt, heard);
      var frontier := Consolidate(t, working, c.batch, false, pair, a.replies);
      ConsolidateHonest(c.recollectionPrompt, t, Normalize(working), c.batch, false, pair, a.replies, trim);
      if frontier.merged == [] {
        NoMergeNoChange(t, Normalize(working), c.batch, false, pair, a.replies);
        if !defer {
          SummarizeFreshHonest(c, t, ms, working, pruned, phase, heard,
                               if a.testimony != [] then a.testimony[1..] else [], frontier.rest, trim);
        }
      }
    }
  }

  // ---- runs ----

  /** A session and what is remembered about it: everything ever appended, the ledger, the leaves recorded. */
  datatype State = State(
    tables: Tables, messages: seq<Message>, history: seq<Message>, trim: map<SummaryId, nat>, leaves: nat)

  datatype Event =
    | Append(message: Message)
    | Attempt(observed: nat, phase: string, answers: Answers)
    | Rest(testimony: Option<string>, replies: seq<Reply>)

  const FRESH := State(Tables(map[], []), [], [], map[], 0)

  /** The sizing of a rest compaction. */
  const KEEP_NOTHING := ResolveKeep(Some(0), Some(0), Some(0))

  /** With that sizing the cut is at the end: no raw message stays. */
  lemma {:induction false} RestKeepsNoTail(ms: seq<Message>)
    ensures Cut(ms, KEEP_NOTHING) == |Raw(ms[LeadingSystems(ms)..])|
  {
    var raw := Raw(ms[LeadingSystems(ms)..]);
    assert Extend(raw, 0, KEEP_NOTHING, |raw|) == |raw|;
  }

  /** Folding a whole conversation at rest, with no tail kept; nothing when the summarizer declines. */
  function RestCompaction(t: Tables, ms: seq<Message>, b: nat, pair: seq<Message>,
                          replies: seq<Reply>): Option<Consolidated>
    requires b >= 2
  {
    var c := Compact(ms, KEEP_NOTHING, pair, Next(replies));
    if c.None? then None else Some(Commit(t, c.value, b, "rest-llm", Later(replies)))
  }

  function Step(c: Config, s: State, e: Event): State
    requires c.batch >= 2
  {
    match e
    case Append(m) =>
      if m.Summary? then s else s.(messages := s.messages + [m], history := s.history + [m])
    case Attempt(observed, phase, answers) =>
      var o := MaybeCompact(c, s.tables, s.messages, observed, phase, answers);
      s.(tables := o.tables, messages := o.messages, trim := Ledger(s.trim, o), leaves := Grown(s.leaves, o.leaf))
    case Rest(testimony, replies) =>
      var pair := RecollectionPair(c.recollectionPrompt, testimony);
      match RestCompaction(s.tables, s.messages, c.batch, pair, replies)
      case None => s
      case Some(r) =>
        State(r.tables, r.messages, s.history, Trimmed(s.trim[|s.tables.nodes| := |pair|], r.merged, 0), s.leaves + 1)
  }

  function Run(c: Config, s: State, events: seq<Event>): State
    requires c.batch >= 2
    decreases |events|
  {
    if events == [] then s else Run(c, Step(c, s, events[0]), events[1..])
  }

  /** The messages a run appends; a message that looks like a summary is ignored. */
  ghost function Appended(events: seq<Event>): seq<Message> {
    Flatten(seq(|events|, i requires 0 <= i < |events| =>
                  if events[i].Append? && !events[i].message.Summary? then [events[i].message] else []))
  }

  lemma {:induction false} AppendedFirst(events: seq<Event>)
    requires events != []
    ensures Appended(events)
         == (if events[0].Append? && !events[0].message.Summary? then [events[0].message] else [])
            + Appended(events[1..])
  {
    var parts := seq(|events|, i requires 0 <= i < |events| =>
      if events[i].Append? && !events[i].message.Summary? then [events[i].message] else []);
    assert parts[1..] == seq(|events[1..]|, i requires 0 <= i < |events[1..]| =>
      if events[1..][i].Append? && !events[1..][i].message.Summary? then [events[1..][i].message] else []);
  }

  /** The remembered history of a run is exactly what its events appended. */
  lemma {:induction false} HistoryIsAppended(c: Config, s: State, events: seq<Event>)
    requires c.batch >= 2
    ensures Run(c, s, events).history == s.history + Appended(events)
    decreases |events|
  {
    if events != [] {
      HistoryIsAppended(c, Step(c, s, events[0]), events[1..]);
      AppendedFirst(events);
      StepHistory(c, s, events[0]);
      Assoc(s.history, if events[0].Append? && !events[0].message.Summary? then [events[0].message] else [],
            Appended(events[1..]));
    } else {
      assert s.history + [] == s.history;
    }
  }

  lemma {:induction false} StepHistory(c: Config, s: State, e: Event)
    requires c.batch >= 2
    ensures Step(c, s, e).history
         == s.history + if e.Append? && !e.message.Summary? then [e.message] else []
  {
    assert s.history + [] == s.history;
  }

  /** Every appended message, in order, is in the conversation or behind one of its summaries, verbatim or
      as an excerpt whose original is archived; and the frontier is a sound numeral. */
  ghost predicate Remembers(c: Config, s: State) {
    && Sound(s.tables, s.messages, c.batch, s.leaves)
    && KeptOrPruned(c.prune, s.tables.messages, s.history, Recovered(s.tables.nodes, s.trim, s.messages))
    && Honest(c.recollectionPrompt, s.tables.nodes, s.trim)
  }

  lemma {:induction false} AppendRemembers(c: Config, s: State, m: Message)
    requires c.batch >= 2 && Remembers(c, s) && !m.Summary?
    ensures Remembers(c, Step(c, s, Append(m)))
  {
    TidyAppend(s.messages, m);
    RecoveredConcat(s.tables.nodes, s.trim, s.messages, [m]);
    RecoveredRaw(s.tables.nodes, s.trim, [m]);
  }

  lemma {:induction false} AttemptRemembers(c: Config, s: State, observed: nat, phase: string, a: Answers)
    requires c.batch >= 2 && Remembers(c, s)
    ensures Remembers(c, Step(c, s, Attempt(observed, phase, a)))
  {
    var o := MaybeCompact(c, s.tables, s.messages, observed, phase, a);
    AttemptLosesNothing(c, s.tables, s.messages, observed, phase, a, s.trim, s.leaves);
    AttemptHonest(c, s.tables, s.messages, observed, phase, a, s.trim);
    KeptThroughRows(c.prune, s.tables.messages, o.tables.messages, s.history, Recovered(s.tables.nodes, s.trim,
                    s.messages));
  }

  lemma {:induction false} FoldRemembers(c: Config, s: State, cut: nat, text: string, testimony: seq<Message>,
                                         via: string, replies: seq<Reply>)
    requires c.batch >= 2 && Remembers(c, s) && cut <= |Tail(s.messages)| && IsExchange(c.recollectionPrompt, testimony)
    ensures var r := Commit(s.tables, Folded(s.messages, cut, text, testimony), c.batch, via, replies);
      Remembers(c, State(r.tables, r.messages, s.history,
          Trimmed(s.trim[|s.tables.nodes| := |testimony|], r.merged, 0), s.leaves + 1))
  {
    var folded := Folded(s.messages, cut, text, testimony);
    var r := Commit(s.tables, folded, c.batch, via, replies);
    CommitKeeps(s.tables, s.messages, c.batch, cut, text, testimony, via, replies, s.trim, s.leaves);
    CommitGrows(s.tables, folded, c.batch, via, replies);
    CommitHonest(c.recollectionPrompt, s.tables, folded, Tail(s.messages)[..cut], testimony, c.batch, via, replies,
                 s.trim);
    KeptThroughRows(c.prune, s.tables.messages, r.tables.messages, s.history, Recovered(s.tables.nodes, s.trim,
                    s.messages));
  }

  lemma {:induction false} RestStep(c: Config, s: State, testimony: Option<string>, replies: seq<Reply>,
                                    folded: Compaction)
    requires c.batch >= 2
    requires Compact(s.messages, KEEP_NOTHING, RecollectionPair(c.recollectionPrompt, testimony), Next(replies))
         == Some(folded)
    ensures var pair := RecollectionPair(c.recollectionPrompt, testimony);
      var r := Commit(s.tables, folded, c.batch, "rest-llm", Later(replies));
      Step(c, s, Rest(testimony, replies))
      == State(r.tables, r.messages, s.history, Trimmed(s.trim[|s.tables.nodes| := |pair|], r.merged, 0), s.leaves + 1)
  {
  }

  lemma {:induction false} RestRemembers(c: Config, s: State, testimony: Option<string>, replies: seq<Reply>)
    requires c.batch >= 2 && Remembers(c, s)
    ensures Remembers(c, Step(c, s, Rest(testimony, replies)))
  {
    var pair, reply := RecollectionPair(c.recollectionPrompt, testimony), Next(replies);
    var folded := Compact(s.messages, KEEP_NOTHING, pair, reply);
    if folded.Some? {
      CompactFolds(s.messages, KEEP_NOTHING, pair, reply);
      RestStep(c, s, testimony, replies, folded.value);
      FoldRemembers(c, s, Cut(s.messages, KEEP_NOTHING), reply.text, pair, "rest-llm", Later(replies));
    }
  }

  lemma {:induction false} StepRemembers(c: Config, s: State, e: Event)
    requires c.batch >= 2 && Remembers(c, s)
    ensures Remembers(c, Step(c, s, e))
  {
    match e {
      case Append(m) =>
        if !m.Summary? {
          AppendRemembers(c, s, m);
        }
      case Attempt(observed, phase, a) => AttemptRemembers(c, s, observed, phase, a);
      case Rest(testimony, replies) => RestRemembers(c, s, testimony, replies);
    }
  }

  /** Over every run of appends, compaction attempts and rest compactions, for every behaviour of the
      summarizer and the agent, no history is lost. */
  lemma {:induction false} HistoryIsNeverLost(c: Config, s: State, events: seq<Event>)
    requires c.batch >= 2 && Remembers(c, s)
    ensures Remembers(c, Run(c, s, events))
    decreases |events|
  {
    if events != [] {
      StepRemembers(c, s, events[0]);
      HistoryIsNeverLost(c, Step(c, s, events[0]), events[1..]);
    }
  }

  lemma {:induction false} FreshRemembers(c: Config)
    ensures Remembers(c, FRESH)
  {
  }

  // ---- the frontier stays small ----

  ghost predicate Logarithmic(b: nat, depths: seq<nat>, leaves: nat) {
    && |depths| <= b * (1 + Log(b, leaves))
    && forall d :: Occurrences(depths, d) <= b
  }

  lemma {:induction false} NumeralIsLogarithmic(b: nat, depths: seq<nat>)
    requires b >= 2 && NonIncreasing(depths) && NoRun(depths, b + 1)
    ensures Logarithmic(b, depths, Weight(b, depths))
  {
    SettledFrontierIsLogarithmic(b, depths);
    forall d
      ensures Occurrences(depths, d) <= b
    {
      EachDepthAtMost(b, depths, d);
    }
  }

  lemma {:induction false} SettledIsLogarithmic(t: Tables, ms: seq<Message>, b: nat, leaves: nat)
    requires b >= 2 && Sound(t, ms, b, leaves) && MergeableBatch(ms, b, true).None?
    ensures Logarithmic(b, DepthsOf(Segments(ms)), leaves)
  {
    NoBatchOfTidy(ms, b, true);
    NumeralIsLogarithmic(b, DepthsOf(Segments(ms)));
  }

  /** After a commit each depth occurs at most b times and there are at most b (1 + log_b leaves) segments,
      unless the summarizer rejected the last batch it was asked to merge. */
  lemma {:induction false} CommitIsLogarithmic(t: Tables, ms: seq<Message>, b: nat, cut: nat, text: string,
                                               testimony: seq<Message>, via: string, replies: seq<Reply>, leaves: nat)
    requires b >= 2 && Sound(t, ms, b, leaves) && cut <= |Tail(ms)|
    ensures var r := Commit(t, Folded(ms, cut, text, testimony), b, via, replies);
      var batch := MergeableBatch(r.messages, b, true);
      && (batch.None? ==> Logarithmic(b, DepthsOf(Segments(r.messages)), leaves + 1))
      && (batch.Some? ==> !Passes(AnswerAt(replies, |r.merged|), BodyChars(batch.value)))
  {
    var r := Commit(t, Folded(ms, cut, text, testimony), b, via, replies);
    var leaf := CommitLeaf(t, Folded(ms, cut, text, testimony), via);
    CommitKeeps(t, ms, b, cut, text, testimony, via, replies, map[], leaves);
    StopsOnlyWhenDeclined(leaf.tables, Normalize(leaf.messages), b, true, [], replies, r);
    if MergeableBatch(r.messages, b, true).None? {
      SettledIsLogarithmic(r.tables, r.messages, b, leaves + 1);
    }
  }

  /** At every point of every run: a session without a mergeable overflow has a logarithmic frontier. */
  lemma {:induction false} RunStaysLogarithmic(c: Config, events: seq<Event>)
    requires c.batch >= 2
    ensures var s := Run(c, FRESH, events);
      MergeableBatch(s.messages, c.batch, true).None? ==> Logarithmic(c.batch, DepthsOf(Segments(s.messages)), s.leaves)
  {
    var s := Run(c, FRESH, events);
    FreshRemembers(c);
    HistoryIsNeverLost(c, FRESH, events);
    if MergeableBatch(s.messages, c.batch, true).None? {
      SettledIsLogarithmic(s.tables, s.messages, c.batch, s.leaves);
    }
  }
}
