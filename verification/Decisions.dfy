/** When an attempt merges, when it commits a leaf, and what it then records, read off its inputs alone. */
module Decisions {
  import opened Wrappers
  import opened Messages
  import opened ArchiveWalks
  import opened ContextArchive
  import opened Frontier
  import opened Lcm
  import opened Summarize
  import opened Compactor
  import opened History
  import opened Accounting

  // ---- a fold of fresh messages ----

  /** The raw messages behind the system head. */
  ghost function Body(w: seq<Message>): seq<Message> {
    Raw(w[LeadingSystems(w)..])
  }

  /** The conversation with the first `cut` raw messages of its body folded into one segment, not yet marked. */
  ghost function Fold(w: seq<Message>, cut: nat, text: string): seq<Message>
    requires cut <= |Body(w)|
  {
    var h := LeadingSystems(w);
    w[..h] + Segments(w[h..]) + [Summary(None, None, text)] + Body(w)[cut..]
  }

  /** The answer may replace what a fold takes away: there is something, and the gate lets the text pass. */
  ghost predicate Folds(w: seq<Message>, k: Keep, reply: Reply) {
    0 < Cut(w, k) <= |Body(w)| && Passes(reply, Chars(Body(w)[..Cut(w, k)]))
  }

  /** A compaction is made exactly when something is cut and the answer passes the gate; then it folds just that. */
  lemma {:induction false} CompactIff(w: seq<Message>, k: Keep, testimony: seq<Message>, reply: Reply)
    ensures Compact(w, k, testimony, reply)
         == if Folds(w, k, reply)
            then Some(Compaction(Fold(w, Cut(w, k), reply.text), Body(w)[..Cut(w, k)] + testimony, reply.text))
            else None
  {
    AcceptsIffPasses(reply, Chars(Body(w)[..Cut(w, k)]));
  }

  /** At rest everything behind the head is folded, whenever there is anything and the answer passes the gate. */
  lemma {:induction false} RestFoldsIff(w: seq<Message>, keep: Keep, testimony: seq<Message>, reply: Reply)
    requires keep == ResolveKeep(Some(0), Some(0), Some(0))
    ensures Compact(w, keep, testimony, reply).Some? <==> Body(w) != [] && Passes(reply, Chars(Body(w)))
    ensures Compact(w, keep, testimony, reply).Some? ==>
      Compact(w, keep, testimony, reply).value.compacted == Body(w) + testimony
  {
    CompactIff(w, keep, testimony, reply);
    assert Extend(Body(w), 0, keep, |Body(w)|) == |Body(w)|;
    assert Body(w)[..|Body(w)|] == Body(w);
  }

  // ---- the agent's testimony ----

  ghost predicate Speaks(voice: Option<string>) {
    voice.Some? && voice.value != ""
  }

  ghost function VoiceAt(answers: seq<Option<string>>, k: nat): Option<string> {
    if k < |answers| then answers[k] else None
  }

  /** The text committed: the second one, written with the testimony, when there is testimony and it passes the gate. */
  ghost function CommittedText(w: seq<Message>, k: Keep, first: Reply, voice: Option<string>, second: Reply): string
    requires first.Text?
  {
    if Speaks(voice) && Folds(w, k, second) then second.text else first.text
  }

  /** The exchange linked beside the folded messages: none without testimony, or for a blank one woven in. */
  ghost function LinkedExchange(c: Config, w: seq<Message>, voice: Option<string>, second: Reply): seq<Message> {
    if !Speaks(voice) || (Folds(w, c.keep, second) && Blank(voice.value)) then []
    else [User(c.recollectionPrompt), Assistant(voice.value, [])]
  }

  lemma {:induction false} WeaveIs(c: Config, w: seq<Message>, first: Reply, voice: Option<string>, second: Reply,
                                   draft: Compaction)
    requires Folds(w, c.keep, first) && Compact(w, c.keep, [], first) == Some(draft)
    ensures var text := CommittedText(w, c.keep, first, voice, second);
      Weave(c, w, draft, voice, second)
      == Compaction(Fold(w, Cut(w, c.keep), text),
                    Body(w)[..Cut(w, c.keep)] + LinkedExchange(c, w, voice, second), text)
  {
    CompactIff(w, c.keep, [], first);
    CompactIff(w, c.keep, RecollectionPair(c.recollectionPrompt, voice), second);
    assert draft.compacted == Body(w)[..Cut(w, c.keep)];
    assert draft.compacted + [] == draft.compacted;
  }

  // ---- the summarizing stage ----

  /** What is committed is smaller than what it replaces, by the estimate. */
  ghost predicate Commits(c: Config, w: seq<Message>, first: Reply, voice: Option<string>, second: Reply) {
    && Folds(w, c.keep, first)
    && c.estimate(Fold(w, Cut(w, c.keep), CommittedText(w, c.keep, first, voice, second))) < c.estimate(w)
  }

  /** The new row: the committed text, the folded messages and the exchange, and no parent. */
  ghost predicate RecordsLeaf(c: Config, t: Tables, w: seq<Message>, phase: string, first: Reply,
                              voice: Option<string>, second: Reply, o: Outcome)
    requires Folds(w, c.keep, first)
  {
    && o.applied && o.leaf == Some(|t.nodes|) && o.via == phase + "-llm" && |t.nodes| < |o.tables.nodes|
    && o.testimony == LinkedExchange(c, w, voice, second)
    && o.tables.nodes[|t.nodes|]
       == Node(CommittedText(w, c.keep, first, voice, second), phase + "-llm", [],
               Ids(Body(w)[..Cut(w, c.keep)] + o.testimony))
  }

  /** A commit records its leaf and then merges with the answers that follow. */
  lemma {:induction false} CommitRecords(t: Tables, c: Compaction, b: nat, via: string, replies: seq<Reply>)
    requires b >= 2
    ensures var r := Commit(t, c, b, via, replies);
      && |t.nodes| < |r.tables.nodes| && r.tables.nodes[|t.nodes|] == Node(c.text, via, [], Ids(c.compacted))
      && TakesAnswers(r.tables.nodes, r.merged, replies, [])
  {
    var leaf := CommitLeaf(t, c, via);
    var r := Commit(t, c, b, via, replies);
    LeafIsRecorded(t, c, via);
    MergesAppendRows(leaf.tables, Normalize(leaf.messages), b, true, [], replies);
    MergesTakeAnswersInOrder(leaf.tables, Normalize(leaf.messages), b, true, [], replies);
    RowsKept(leaf.tables.nodes, r.tables.nodes, |t.nodes|);
  }

  ghost function Committed(c: Config, w: seq<Message>, first: Reply, voice: Option<string>, second: Reply): Compaction
    requires Folds(w, c.keep, first)
  {
    var text := CommittedText(w, c.keep, first, voice, second);
    Compaction(Fold(w, Cut(w, c.keep), text),
               Body(w)[..Cut(w, c.keep)] + LinkedExchange(c, w, voice, second), text)
  }

  lemma {:induction false} StageRefuses(c: Config, t: Tables, ms: seq<Message>, w: seq<Message>, pruned: bool,
                                        phase: string, heard: Option<string>, answers: seq<Option<string>>,
                                        replies: seq<Reply>)
    requires c.batch >= 2
    requires !Commits(c, w, AnswerAt(replies, 0), if heard.Some? then heard else VoiceAt(answers, 0),
                      AnswerAt(replies, 1))
    ensures SummarizeFresh(c, t, ms, w, pruned, phase, heard, answers, replies) == PrunedOnly(t, ms, w, pruned, phase)
  {
    var first, second := AnswerAt(replies, 0), AnswerAt(replies, 1);
    CompactIff(w, c.keep, [], first);
    if Folds(w, c.keep, first) {
      WeaveIs(c, w, first, if heard.Some? then heard else VoiceAt(answers, 0), second,
              Compact(w, c.keep, [], first).value);
    }
  }

  lemma {:induction false} StageCommits(c: Config, t: Tables, ms: seq<Message>, w: seq<Message>, pruned: bool,
                                        phase: string, heard: Option<string>, answers: seq<Option<string>>,
                                        replies: seq<Reply>, voice: Option<string>, r: Consolidated)
    requires c.batch >= 2 && voice == if heard.Some? then heard else VoiceAt(answers, 0)
    requires Commits(c, w, AnswerAt(replies, 0), voice, AnswerAt(replies, 1))
    requires r == Commit(t, Committed(c, w, AnswerAt(replies, 0), voice, AnswerAt(replies, 1)), c.batch,
                         phase + "-llm", Without(replies, if Speaks(voice) then 2 else 1))
    ensures SummarizeFresh(c, t, ms, w, pruned, phase, heard, answers, replies)
         == Outcome(true, phase + "-llm", r.messages, r.tables, Some(|t.nodes|), r.merged,
                    LinkedExchange(c, w, voice, AnswerAt(replies, 1)))
  {
    var first, second := AnswerAt(replies, 0), AnswerAt(replies, 1);
    CompactIff(w, c.keep, [], first);
    WeaveIs(c, w, first, voice, second, Compact(w, c.keep, [], first).value);
    LinkedIsSuffix(Body(w)[..Cut(w, c.keep)], LinkedExchange(c, w, voice, second));
    assert Without(replies, if Speaks(voice) then 2 else 1)
        == if Speaks(voice) then Later(Later(replies)) else Later(replies);
  }

  /** The summarizing stage commits a leaf exactly when its draft passes the gate and what would be committed is
      smaller; otherwise it returns what pruning left, or its input. */
  lemma {:induction false} SummarizeIff(c: Config, t: Tables, ms: seq<Message>, w: seq<Message>, pruned: bool,
                                        phase: string, heard: Option<string>, answers: seq<Option<string>>,
                                        replies: seq<Reply>)
    requires c.batch >= 2
    ensures var o := SummarizeFresh(c, t, ms, w, pruned, phase, heard, answers, replies);
      var first, second := AnswerAt(replies, 0), AnswerAt(replies, 1);
      var voice := if heard.Some? then heard else VoiceAt(answers, 0);
      && (Commits(c, w, first, voice, second) ==>
            && RecordsLeaf(c, t, w, phase, first, voice, second, o)
            && TakesAnswers(o.tables.nodes, o.merged, Without(replies, if Speaks(voice) then 2 else 1), []))
      && (!Commits(c, w, first, voice, second) ==>
            o == if pruned then Outcome(true, phase + "-tool-prune", w, t, None, [], [])
                 else Outcome(false, phase, ms, t, None, [], []))
  {
    var first, second := AnswerAt(replies, 0), AnswerAt(replies, 1);
    var voice := if heard.Some? then heard else VoiceAt(answers, 0);
    if Commits(c, w, first, voice, second) {
      var made, rest := Committed(c, w, first, voice, second), Without(replies, if Speaks(voice) then 2 else 1);
      StageCommits(c, t, ms, w, pruned, phase, heard, answers, replies, voice,
                   Commit(t, made, c.batch, phase + "-llm", rest));
      CommitRecords(t, made, c.batch, phase + "-llm", rest);
    } else {
      StageRefuses(c, t, ms, w, pruned, phase, heard, answers, replies);
    }
  }

  lemma {:induction false} LinkedIsSuffix(folded: seq<Message>, linked: seq<Message>)
    ensures (folded + linked)[|folded + []|..] == linked && folded + [] == folded
  {
  }

  // ---- the merging stage ----

  ghost predicate Ready(w: seq<Message>, b: nat) {
    exists i: nat :: RunAt(w, i, b)
  }

  /** Body lengths of `n` segments from `i` on. */
  ghost function BodyTotal(w: seq<Message>, i: nat, n: nat): nat
    requires i + n <= |w|
  {
    |Flatten(seq(n, k requires 0 <= k < n => if w[i + k].Summary? then w[i + k].body else ""))|
  }

  /** The answer is accepted as the merge of the first b consecutive segments of one depth. */
  ghost predicate Merges(w: seq<Message>, b: nat, reply: Reply) {
    exists i: nat :: RunAt(w, i, b) && (forall j: nat :: j < i ==> !RunAt(w, j, b)) && Passes(reply, BodyTotal(w, i, b))
  }

  lemma {:induction false} RunAtNormalized(w: seq<Message>, i: nat, n: nat)
    ensures RunAt(Normalize(w), i, n) <==> RunAt(w, i, n)
  {
    if i + n <= |w| {
      assert forall k :: i <= k < i + n ==> MarkedDepth(Normalize(w)[k]) == MarkedDepth(w[k]);
    }
  }

  lemma {:induction false} ReadyIff(w: seq<Message>, b: nat)
    requires b >= 2
    ensures CanConsolidate(w, b) <==> Ready(w, b)
  {
    BatchIsFirstRun(Normalize(w), b, false);
    forall i: nat
      ensures RunAt(Normalize(w), i, b) <==> RunAt(w, i, b)
    {
      RunAtNormalized(w, i, b);
    }
  }

  lemma {:induction false} BodiesOfRun(w: seq<Message>, batch: seq<ActiveSummary>, i: nat, b: nat)
    requires ReadsFrom(Normalize(w), batch, b) && i == batch[0].index && RunAt(w, i, b)
    ensures BodyChars(batch) == BodyTotal(w, i, b)
  {
    BodyCharsIsLength(batch);
    forall k | 0 <= k < b
      ensures batch[k].text == w[i + k].body
    {
      assert ReadsMessage(Normalize(w), 0, batch[k]);
    }
    assert seq(|batch|, k requires 0 <= k < |batch| => batch[k].text)
        == seq(b, k requires 0 <= k < b => if w[i + k].Summary? then w[i + k].body else "");
  }

  /** Something is merged exactly when the first answer is accepted for the first run that is ready; otherwise at most
      that one answer is used up, and nothing changes. */
  lemma {:induction false} MergesIff(t: Tables, w: seq<Message>, b: nat, pair: seq<Message>, replies: seq<Reply>)
    requires b >= 2
    ensures var r := Consolidate(t, w, b, false, pair, replies);
      && (r.merged != [] <==> Merges(w, b, AnswerAt(replies, 0)))
      && TakesAnswers(r.tables.nodes, r.merged, replies, pair)
      && (r.merged == [] ==> r.tables == t && r.rest == Without(replies, if Ready(w, b) then 1 else 0))
  {
    var batch := MergeableBatch(Normalize(w), b, false);
    var r := Consolidate(t, w, b, false, pair, replies);
    ReadyIff(w, b);
    MergesTakeAnswersInOrder(t, Normalize(w), b, false, pair, replies);
    if r.merged == [] {
      StopsAtOnce(t, Normalize(w), b, false, pair, replies);
      NoMergeNoChange(t, Normalize(w), b, false, pair, replies);
    }
    if batch.Some? {
      FirstRunOf(w, b, batch.value);
      MergeTextIff(Normalize(w), b, false, Next(replies));
      MergesFirst(w, b, batch.value[0].index, AnswerAt(replies, 0));
    }
  }

  lemma {:induction false} FirstRunOf(w: seq<Message>, b: nat, batch: seq<ActiveSummary>)
    requires b >= 2 && MergeableBatch(Normalize(w), b, false) == Some(batch)
    ensures RunAt(w, batch[0].index, b) && forall j: nat :: j < batch[0].index ==> !RunAt(w, j, b)
    ensures BodyChars(batch) == BodyTotal(w, batch[0].index, b)
  {
    BatchIsFirstRun(Normalize(w), b, false);
    forall i: nat
      ensures RunAt(Normalize(w), i, b) <==> RunAt(w, i, b)
    {
      RunAtNormalized(w, i, b);
    }
    BodiesOfRun(w, batch, batch[0].index, b);
  }

  lemma {:induction false} MergesFirst(w: seq<Message>, b: nat, i: nat, reply: Reply)
    requires RunAt(w, i, b) && forall j: nat :: j < i ==> !RunAt(w, j, b)
    ensures Merges(w, b, reply) <==> Passes(reply, BodyTotal(w, i, b))
  {
    if Merges(w, b, reply) {
      var k: nat :| RunAt(w, k, b) && (forall j: nat :: j < k ==> !RunAt(w, j, b)) && Passes(reply, BodyTotal(w, k, b));
      assert k == i;
    }
  }

  // ---- the whole attempt ----

  /** The attempt goes on after pruning: triggered, still too large if pruned, and with a summarizer. */
  ghost predicate GoesOn(c: Config, ms: seq<Message>, observed: nat, a: Answers) {
    && observed >= c.triggerTokens && a.summarizer
    && (Prune(ms, c.prune).pruned > 0 ==> c.estimate(Prune(ms, c.prune).messages) >= c.triggerTokens)
  }

  /** Fresh messages are worth a segment of their own: the first one, enough of them, or no more room. */
  ghost predicate Fresh(c: Config, w: seq<Message>, observed: nat) {
    Segments(w) == [] || Cut(w, c.keep) >= c.minNewMessages || observed >= c.hardTriggerTokens
  }

  /** The testimony the summarizing stage works with; a merge that was asked for has already asked once. */
  ghost function Voice(ready: bool, testimony: seq<Option<string>>): Option<string> {
    if ready && VoiceAt(testimony, 0).Some? then VoiceAt(testimony, 0) else VoiceAt(testimony, if ready then 1 else 0)
  }

  lemma {:induction false} ReadyDecides(c: Config, t: Tables, ms: seq<Message>, w: seq<Message>, pruned: bool,
                                        observed: nat, phase: string, a: Answers)
    requires c.batch >= 2 && a.summarizer && Ready(w, c.batch)
    ensures var o := AfterPruning(c, t, ms, w, pruned, observed, phase, a);
      Decided(c, t, ms, w, pruned, observed, phase, a, true, o)
  {
    var heard, rest := VoiceAt(a.testimony, 0), if a.testimony != [] then a.testimony[1..] else [];
    var pair := RecollectionPair(c.recollectionPrompt, heard);
    ReadyIff(w, c.batch);
    MergesIff(t, w, c.batch, pair, a.replies);
    var frontier := Consolidate(t, w, c.batch, false, pair, a.replies);
    SummarizeIff(c, t, ms, w, pruned, phase, heard, rest, frontier.rest);
    AnswersLeft(a.replies, if Speaks(Voice(true, a.testimony)) then 2 else 1);
  }

  lemma {:induction false} UnreadyDecides(c: Config, t: Tables, ms: seq<Message>, w: seq<Message>, pruned: bool,
                                          observed: nat, phase: string, a: Answers)
    requires c.batch >= 2 && a.summarizer && !Ready(w, c.batch)
    ensures var o := AfterPruning(c, t, ms, w, pruned, observed, phase, a);
      Decided(c, t, ms, w, pruned, observed, phase, a, true, o)
  {
    ReadyIff(w, c.batch);
    SummarizeIff(c, t, ms, w, pruned, phase, None, a.testimony, a.replies);
  }

  lemma {:induction false} EscalationDecides(c: Config, t: Tables, ms: seq<Message>, w: seq<Message>, pruned: bool,
                                             observed: nat, phase: string, a: Answers)
    requires c.batch >= 2
    ensures var o := AfterPruning(c, t, ms, w, pruned, observed, phase, a);
      Decided(c, t, ms, w, pruned, observed, phase, a, a.summarizer, o)
  {
    if a.summarizer {
      if Ready(w, c.batch) {
        ReadyDecides(c, t, ms, w, pruned, observed, phase, a);
      } else {
        UnreadyDecides(c, t, ms, w, pruned, observed, phase, a);
      }
    }
  }

  /** The exit an attempt over `w` takes, by its inputs: merging, committing a leaf, or what pruning left; only a
      refused merge whose fresh messages are not worth a segment returns the list it was given. */
  ghost predicate Decided(c: Config, t: Tables, ms: seq<Message>, w: seq<Message>, pruned: bool, observed: nat,
                          phase: string, a: Answers, goesOn: bool, o: Outcome)
  {
    var ready := Ready(w, c.batch);
    var merges := goesOn && Merges(w, c.batch, AnswerAt(a.replies, 0));
    var k := if ready then 1 else 0;
    var first, second, voice := AnswerAt(a.replies, k), AnswerAt(a.replies, k + 1), Voice(ready, a.testimony);
    var commits := goesOn && !merges && Fresh(c, w, observed) && Commits(c, w, first, voice, second);
    && (o.leaf.Some? <==> commits)
    && (commits ==>
          && RecordsLeaf(c, t, w, phase, first, voice, second, o)
          && TakesAnswers(o.tables.nodes, o.merged, Without(a.replies, k + if Speaks(voice) then 2 else 1), []))
    && (o.leaf.None? && o.merged != [] <==> merges)
    && (merges ==>
          && o.applied && o.via == phase + "-lcm-merge"
          && o.testimony == RecollectionPair(c.recollectionPrompt, VoiceAt(a.testimony, 0))
          && TakesAnswers(o.tables.nodes, o.merged, a.replies, o.testimony))
    && (!commits && !merges ==>
          var kept := pruned && !(goesOn && ready && !Fresh(c, w, observed));
          o == if kept then Outcome(true, phase + "-tool-prune", w, t, None, [], [])
               else Outcome(false, phase, ms, t, None, [], []))
  }

  /** For every conversation, configuration and answers: which exit an attempt takes, and what it records there. */
  lemma {:induction false} AttemptDecides(c: Config, t: Tables, ms: seq<Message>, observed: nat, phase: string,
                                          a: Answers)
    requires c.batch >= 2
    ensures var pruned := observed >= c.triggerTokens && Prune(ms, c.prune).pruned > 0;
      var t' := if pruned then Tables(InsertAll(t.messages, Raw(ms), phase + "-tool-prune"), t.nodes) else t;
      Decided(c, t', ms, Working(c, ms, observed), pruned, observed, phase, a, GoesOn(c, ms, observed, a),
              MaybeCompact(c, t, ms, observed, phase, a))
  {
    if observed >= c.triggerTokens {
      var result := Prune(ms, c.prune);
      var archived := Tables(InsertAll(t.messages, Raw(ms), phase + "-tool-prune"), t.nodes);
      if result.pruned == 0 {
        EscalationDecides(c, t, ms, ms, false, observed, phase, a);
      } else if c.estimate(result.messages) >= c.triggerTokens {
        EscalationDecides(c, archived, ms, result.messages, true, observed, phase, a);
      }
    }
  }

  /** A first fold by the plain path: no testimony, nothing pruned, no batch ready. */
  lemma {:induction false} PlainAttemptCommitsIff(c: Config, t: Tables, ms: seq<Message>, observed: nat, phase: string,
                                                  a: Answers)
    requires c.batch >= 2 && observed >= c.triggerTokens && a.summarizer && a.testimony == []
    requires Prune(ms, c.prune).pruned == 0 && !Ready(ms, c.batch) && Fresh(c, ms, observed)
    requires Folds(ms, c.keep, AnswerAt(a.replies, 0))
    ensures MaybeCompact(c, t, ms, observed, phase, a).leaf.Some?
       <==> c.estimate(Fold(ms, Cut(ms, c.keep), AnswerAt(a.replies, 0).text)) < c.estimate(ms)
  {
    AttemptDecides(c, t, ms, observed, phase, a);
  }

  /** Whatever path an attempt takes, a leaf is only committed for a smaller conversation. */
  lemma {:induction false} LeafShrinksEstimate(c: Config, t: Tables, ms: seq<Message>, observed: nat, phase: string,
                                               a: Answers)
    requires c.batch >= 2 && MaybeCompact(c, t, ms, observed, phase, a).leaf.Some?
    ensures var w := Working(c, ms, observed);
      && Cut(w, c.keep) <= |Body(w)|
      && exists text :: c.estimate(Fold(w, Cut(w, c.keep), text)) < c.estimate(w)
  {
    AttemptDecides(c, t, ms, observed, phase, a);
  }

  /** What pruning saved is given up again in one case only: a batch was ready, its merge was refused, and the fresh
      messages are not worth a segment. */
  lemma {:induction false} PruningIsDroppedIff(c: Config, t: Tables, ms: seq<Message>, observed: nat, phase: string,
                                               a: Answers)
    requires c.batch >= 2 && observed >= c.triggerTokens && Prune(ms, c.prune).pruned > 0
    ensures !MaybeCompact(c, t, ms, observed, phase, a).applied
       <==> var w := Working(c, ms, observed);
            && GoesOn(c, ms, observed, a) && Ready(w, c.batch) && !Merges(w, c.batch, AnswerAt(a.replies, 0))
            && !Fresh(c, w, observed)
  {
    AttemptDecides(c, t, ms, observed, phase, a);
  }

  // ---- pruning given up, concretely ----

  const TWO_SEGMENTS := [Summary(Some(0), Some(0), ""), Summary(Some(1), Some(0), "")]

  const LONG_OUTPUT := "aaaaaaaaa"

  /** Two segments that may be merged, one long tool output, and a message behind it. */
  const PRUNABLE := TWO_SEGMENTS + [Tool("t", LONG_OUTPUT), User("")]

  /** Outputs are cut to one character at each end; a batch is two segments; nothing may be folded. */
  function SmallConfig(): Config {
    Config(PruneConfig(0, 0, 0, 1, "#", (n, name) => "", name => false), Keep(9, 9, 0), 2, 0, 1, 1, "", ms => 0)
  }

  lemma {:induction false} NothingNamed(ms: seq<Message>)
    requires forall i :: 0 <= i < |ms| ==> !ms[i].Assistant?
    ensures ToolNames(ms) == map[]
  {
    if ms != [] {
      NothingNamed(ms[..|ms| - 1]);
    }
  }

  lemma {:induction false} LongOutputIsCut()
    ensures Prunable(SmallConfig().prune, map[], PRUNABLE[2])
  {
    var cfg := SmallConfig().prune;
    assert LONG_OUTPUT[0] == 'a' && cfg.marker[0] == '#';
    assert HeadSlice(LONG_OUTPUT, 1) == "a" && TailSlice(LONG_OUTPUT, 1) == "a";
    assert |Excerpt(cfg, LONG_OUTPUT, "")| == 8;
  }

  lemma {:induction false} SmallPrune()
    ensures Prune(PRUNABLE, SmallConfig().prune).pruned > 0
  {
    var cfg := SmallConfig().prune;
    NothingNamed(PRUNABLE);
    LongOutputIsCut();
    ExposedIff(PRUNABLE, 0, 2);
    assert ProtectedStart(PRUNABLE, 0, |PRUNABLE|) == 3;
    assert PRUNABLE[..3] == PRUNABLE[..2] + [PRUNABLE[2]];
    SavingsSnoc(cfg, map[], PRUNABLE[..2], PRUNABLE[2]);
  }

  lemma {:induction false} ShortBodyStays(ms: seq<Message>)
    requires |ms| <= 9
    ensures TailStart(ms, 0, SmallConfig().keep) == 0
  {
    ScanKeepsMinimum(ms, 0, SmallConfig().keep, |ms|);
  }

  lemma {:induction false} RawIsNoLonger(ms: seq<Message>)
    ensures |Raw(ms)| <= |ms|
  {
    if ms != [] {
      RawIsNoLonger(ms[1..]);
    }
  }

  /** The attempt prunes the output, is refused the merge, defers the fold, and returns the unpruned list. */
  lemma {:induction false} RefusedMergeDropsPruning(t: Tables)
    ensures Prune(PRUNABLE, SmallConfig().prune).pruned > 0
    ensures !MaybeCompact(SmallConfig(), t, PRUNABLE, 0, "", Answers(true, [], [])).applied
  {
    var c, a := SmallConfig(), Answers(true, [], []);
    var w := Prune(PRUNABLE, c.prune).messages;
    SmallPrune();
    PruneShape(PRUNABLE, c.prune);
    assert w[0] == PRUNABLE[0] && w[1] == PRUNABLE[1];
    assert RunAt(w, 0, 2);
    assert LeadingSystems(w) == 0 && Segments(w) != [];
    RawIsNoLonger(w);
    assert w[0..] == w;
    ShortBodyStays(Body(w));
    PruningIsDroppedIff(c, t, PRUNABLE, 0, "", a);
  }
}
