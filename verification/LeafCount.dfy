/** The leaves a session counts are the archive's rows without parents. */
module LeafCount {
  import opened Wrappers
  import opened Messages
  import opened ArchiveWalks
  import opened ContextArchive
  import opened Frontier
  import opened Lcm
  import opened Summarize
  import opened Compactor
  import opened Conversation
  import opened History
  import opened Attempts
  import opened Session

  function LeafRows(nodes: seq<Node>): nat
    decreases |nodes|
  {
    if nodes == [] then 0
    else LeafRows(nodes[..|nodes| - 1]) + if nodes[|nodes| - 1].parents == [] then 1 else 0
  }

  /** A merged row has the b segments of its batch as parents, so merging adds no leaf row. */
  lemma {:induction false} MergeAddsNoLeaf(t: Tables, ms: seq<Message>, b: nat, overflow: bool, text: string,
                                           testimony: seq<Message>, leaves: nat)
    requires b >= 2 && Sound(t, ms, b, leaves) && MergeableBatch(ms, b, overflow).Some?
    ensures LeafRows(MergeOnce(t, ms, b, overflow, MergeableBatch(ms, b, overflow).value, text, testimony).tables.nodes)
         == LeafRows(t.nodes)
  {
    var start, node, made := MergeShape(t, ms, b, overflow, text, testimony);
    assert |node.parents| == b;
  }

  lemma {:induction false} ConsolidateAddsNoLeaf(t: Tables, ms: seq<Message>, b: nat, overflow: bool,
                                                 testimony: seq<Message>, replies: seq<Reply>, leaves: nat)
    requires b >= 2 && Sound(t, ms, b, leaves)
    ensures LeafRows(ConsolidateFrom(t, ms, b, overflow, testimony, replies).tables.nodes) == LeafRows(t.nodes)
    decreases |ms|
  {
    var batch := MergeableBatch(ms, b, overflow);
    if batch.Some? && MergeText(batch.value, Next(replies)).Some? {
      var text := MergeText(batch.value, Next(replies)).value;
      var step := MergeOnce(t, ms, b, overflow, batch.value, text, testimony);
      MergeAddsNoLeaf(t, ms, b, overflow, text, testimony, leaves);
      MergeKeeps(t, ms, b, overflow, text, testimony, map[], leaves);
      ConsolidateAddsNoLeaf(step.tables, step.messages, b, overflow, [], Later(replies), leaves);
      ConsolidateCounts(t, ms, b, overflow, testimony, replies, step);
    }
  }

  lemma {:induction false} CommitAddsOneLeaf(t: Tables, ms: seq<Message>, b: nat, cut: nat, text: string,
                                             testimony: seq<Message>, via: string, replies: seq<Reply>, leaves: nat)
    requires b >= 2 && Sound(t, ms, b, leaves) && cut <= |Tail(ms)|
    ensures LeafRows(Commit(t, Folded(ms, cut, text, testimony), b, via, replies).tables.nodes) == LeafRows(t.nodes) + 1
  {
    var leaf := CommitLeaf(t, Folded(ms, cut, text, testimony), via);
    var node, made := LeafShape(t, ms, cut, text, testimony, via);
    LeafKeeps(t, ms, b, cut, text, testimony, via, map[], leaves);
    NormalizeTidy(leaf.messages);
    ConsolidateAddsNoLeaf(leaf.tables, leaf.messages, b, true, [], replies, leaves + 1);
  }

  /** The leaf rows after an outcome: one more iff it records a leaf. */
  ghost predicate CountsLeaf(t: Tables, o: Outcome) {
    LeafRows(o.tables.nodes) == Grown(LeafRows(t.nodes), o.leaf)
  }

  lemma {:induction false} WovenAddsOneLeaf(c: Config, t: Tables, working: seq<Message>, first: Reply,
                                            testimony: Option<string>, second: Reply, via: string, rest: seq<Reply>,
                                            leaves: nat)
    requires c.batch >= 2 && Sound(t, working, c.batch, leaves) && Compact(working, c.keep, [], first).Some?
    ensures var woven := Weave(c, working, Compact(working, c.keep, [], first).value, testimony, second);
      LeafRows(Commit(t, woven, c.batch, via, rest).tables.nodes) == LeafRows(t.nodes) + 1
  {
    var text, extra := WeaveFolds(c, working, first, testimony, second);
    CommitAddsOneLeaf(t, working, c.batch, Cut(working, c.keep), text, extra, via, rest, leaves);
  }

  lemma {:induction false} SummarizeFreshCounts(c: Config, t: Tables, ms: seq<Message>, working: seq<Message>,
                                                pruned: bool, phase: string, heard: Option<string>,
                                                answers: seq<Option<string>>, replies: seq<Reply>, leaves: nat)
    requires c.batch >= 2 && Sound(t, working, c.batch, leaves)
    ensures CountsLeaf(t, SummarizeFresh(c, t, ms, working, pruned, phase, heard, answers, replies))
  {
    var draft := Compact(working, c.keep, [], Next(replies));
    if draft.Some? {
      var testimony := if heard.Some? then heard else Ask(answers);
      var rest := if testimony.Some? && testimony.value != "" then Later(Later(replies)) else Later(replies);
      WovenAddsOneLeaf(c, t, working, Next(replies), testimony, Next(Later(replies)), phase + "-llm", rest, leaves);
    }
  }

  lemma {:induction false} EscalationCounts(c: Config, t: Tables, ms: seq<Message>, working: seq<Message>, pruned: bool,
                                            observed: nat, phase: string, a: Answers, leaves: nat)
    requires c.batch >= 2 && Sound(t, working, c.batch, leaves)
    ensures CountsLeaf(t, AfterPruning(c, t, ms, working, pruned, observed, phase, a))
  {
    if !CanConsolidate(working, c.batch) {
      SummarizeFreshCounts(c, t, ms, working, pruned, phase, None, a.testimony, a.replies, leaves);
    } else {
      var heard := Ask(a.testimony);
      var pair := RecollectionPair(c.recollectionPrompt, heard);
      var rest := if a.testimony != [] then a.testimony[1..] else [];
      var frontier := Consolidate(t, working, c.batch, false, pair, a.replies);
      NormalizeTidy(working);
      ConsolidateAddsNoLeaf(t, working, c.batch, false, pair, a.replies, leaves);
      if frontier.merged == [] {
        NoMergeNoChange(t, working, c.batch, false, pair, a.replies);
        SummarizeFreshCounts(c, t, ms, working, pruned, phase, heard, rest, frontier.rest, leaves);
      }
    }
  }

  lemma {:induction false} AttemptCounts(c: Config, t: Tables, ms: seq<Message>, observed: nat, phase: string,
                                         a: Answers, leaves: nat)
    requires c.batch >= 2 && Sound(t, ms, c.batch, leaves)
    ensures CountsLeaf(t, MaybeCompact(c, t, ms, observed, phase, a))
  {
    if observed >= c.triggerTokens {
      if Prune(ms, c.prune).pruned == 0 {
        EscalationCounts(c, t, ms, ms, false, observed, phase, a, leaves);
      } else {
        PruningKeeps(c, t, ms, phase + "-tool-prune", map[], leaves);
        PrunedAttemptCounts(c, t, ms, Prune(ms, c.prune).messages, observed, phase, a, leaves);
      }
    }
  }

  lemma {:induction false} PrunedAttemptCounts(c: Config, t: Tables, ms: seq<Message>, w: seq<Message>, observed: nat,
                                               phase: string, a: Answers, leaves: nat)
    requires c.batch >= 2 && observed >= c.triggerTokens
    requires Prune(ms, c.prune).pruned != 0 && w == Prune(ms, c.prune).messages
    requires Sound(Tables(InsertAll(t.messages, Raw(ms), phase + "-tool-prune"), t.nodes), w, c.batch, leaves)
    ensures CountsLeaf(t, MaybeCompact(c, t, ms, observed, phase, a))
  {
    var archived := Tables(InsertAll(t.messages, Raw(ms), phase + "-tool-prune"), t.nodes);
    EscalationCounts(c, archived, ms, w, true, observed, phase, a, leaves);
  }

  lemma {:induction false} RestCounts(c: Config, s: State, testimony: Option<string>, replies: seq<Reply>)
    requires c.batch >= 2 && Remembers(c, s)
    ensures var n := Step(c, s, Rest(testimony, replies));
      LeafRows(n.tables.nodes) + s.leaves == LeafRows(s.tables.nodes) + n.leaves
  {
    var pair, reply := RecollectionPair(c.recollectionPrompt, testimony), Next(replies);
    var folded := Compact(s.messages, KEEP_NOTHING, pair, reply);
    if folded.Some? {
      CompactFolds(s.messages, KEEP_NOTHING, pair, reply);
      RestStep(c, s, testimony, replies, folded.value);
      CommitAddsOneLeaf(s.tables, s.messages, c.batch, Cut(s.messages, KEEP_NOTHING), reply.text, pair, "rest-llm",
                        Later(replies), s.leaves);
    }
  }

  lemma {:induction false} StepCounts(c: Config, s: State, e: Event)
    requires c.batch >= 2 && Remembers(c, s)
    ensures var n := Step(c, s, e); LeafRows(n.tables.nodes) + s.leaves == LeafRows(s.tables.nodes) + n.leaves
  {
    match e {
      case Append(_) =>
      case Attempt(observed, phase, a) => AttemptCounts(c, s.tables, s.messages, observed, phase, a, s.leaves);
      case Rest(testimony, replies) => RestCounts(c, s, testimony, replies);
    }
  }

  lemma {:induction false} RunCounts(c: Config, s: State, events: seq<Event>)
    requires c.batch >= 2 && Remembers(c, s) && s.leaves == LeafRows(s.tables.nodes)
    ensures Run(c, s, events).leaves == LeafRows(Run(c, s, events).tables.nodes)
    decreases |events|
  {
    if events != [] {
      StepRemembers(c, s, events[0]);
      StepCounts(c, s, events[0]);
      RunCounts(c, Step(c, s, events[0]), events[1..]);
    }
  }

  /** At every point of every run from a fresh session, the leaves counted, which the frontier's weights add up to,
      are the rows of the archive that have no parents. */
  lemma {:induction false} LeavesAreRowsWithoutParents(c: Config, events: seq<Event>)
    requires c.batch >= 2
    ensures Run(c, FRESH, events).leaves == LeafRows(Run(c, FRESH, events).tables.nodes)
  {
    FreshRemembers(c);
    RunCounts(c, FRESH, events);
  }
}
