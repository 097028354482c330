/** The compactor: prune tool output, merge the frontier, and only then summarize fresh messages. */
module Compactor {
  import opened Wrappers
  import opened Messages
  import opened ArchiveWalks
  import opened ContextArchive
  import opened Lcm
  import opened Summarize

  // ---- pruning ----

  /** `notice` is the wording after the marker, given the archived length and the tool name. */
  datatype PruneConfig = PruneConfig(
    protectedTailChars: nat, minToolChars: nat, minSavingsChars: nat, edgeChars: nat, marker: string,
    notice: (nat, string) -> string, protects: string -> bool)

  datatype PruneResult = PruneResult(messages: seq<Message>, pruned: nat, removed: nat)

  /** Start of the protected suffix: the shortest one reaching the character limit, else everything. */
  function ProtectedStart(ms: seq<Message>, limit: nat, counted: nat): (r: nat)
    requires counted <= |ms|
    ensures r <= counted
  {
    if counted == 0 then 0
    else if Chars(ms[counted - 1..]) >= limit then counted - 1
    else ProtectedStart(ms, limit, counted - 1)
  }

  function AddNames(names: map<string, string>, calls: seq<ToolCall>): map<string, string>
    decreases |calls|
  {
    if calls == [] then names else AddNames(names[calls[0].id := calls[0].name], calls[1..])
  }

  /** Call id to tool name; a later call wins. */
  function ToolNames(ms: seq<Message>): map<string, string> {
    if ms == [] then map[]
    else
      var earlier := ToolNames(ms[..|ms| - 1]);
      var m := ms[|ms| - 1];
      if m.Assistant? then AddNames(earlier, m.calls) else earlier
  }

  function HeadSlice(s: string, n: nat): string {
    s[..Min(n, |s|)]
  }

  /** `slice(-n)`: the whole text when n is zero. */
  function TailSlice(s: string, n: nat): string {
    if n == 0 || n >= |s| then s else s[|s| - n..]
  }

  function Excerpt(cfg: PruneConfig, content: string, toolName: string): string {
    cfg.marker + cfg.notice(|content|, toolName)
    + HeadSlice(content, cfg.edgeChars) + "\n...\n" + TailSlice(content, cfg.edgeChars)
  }

  function NameOf(names: map<string, string>, callId: string): string {
    if callId in names then names[callId] else ""
  }

  predicate Prunable(cfg: PruneConfig, names: map<string, string>, m: Message) {
    && m.Tool?
    && |m.text| >= cfg.minToolChars
    && !(cfg.marker <= m.text)
    && !cfg.protects(NameOf(names, m.callId))
    && |Excerpt(cfg, m.text, NameOf(names, m.callId))| < |m.text|
  }

  function PruneOne(cfg: PruneConfig, names: map<string, string>, m: Message): Message {
    if Prunable(cfg, names, m) then Tool(m.callId, Excerpt(cfg, m.text, NameOf(names, m.callId))) else m
  }

  /** The first `start` messages pruned one by one, the protected rest untouched. */
  function PruneBefore(cfg: PruneConfig, names: map<string, string>, ms: seq<Message>, start: nat): (r: seq<Message>)
    requires start <= |ms|
    ensures |r| == |ms|
    ensures forall i :: 0 <= i < |ms| ==> r[i] == if i < start then PruneOne(cfg, names, ms[i]) else ms[i]
  {
    seq(|ms|, i requires 0 <= i < |ms| => if i < start then PruneOne(cfg, names, ms[i]) else ms[i])
  }

  function PruneCount(cfg: PruneConfig, names: map<string, string>, ms: seq<Message>): nat
    decreases |ms|
  {
    if ms == [] then 0 else (if Prunable(cfg, names, ms[0]) then 1 else 0) + PruneCount(cfg, names, ms[1..])
  }

  /** Characters pruning takes out of a stretch of messages. */
  function Savings(cfg: PruneConfig, names: map<string, string>, ms: seq<Message>): nat
    decreases |ms|
  {
    if ms == [] then 0
    else Width(ms[0]) - Width(PruneOne(cfg, names, ms[0])) + Savings(cfg, names, ms[1..])
  }

  function Prune(ms: seq<Message>, cfg: PruneConfig): PruneResult {
    var start := ProtectedStart(ms, cfg.protectedTailChars, |ms|);
    var names := ToolNames(ms);
    var removed := Savings(cfg, names, ms[..start]);
    if removed < cfg.minSavingsChars then PruneResult(ms, 0, 0)
    else PruneResult(PruneBefore(cfg, names, ms, start), PruneCount(cfg, names, ms[..start]), removed)
  }

  lemma {:induction false} SavingsSnoc(cfg: PruneConfig, names: map<string, string>, ms: seq<Message>, m: Message)
    decreases |ms|
    ensures Savings(cfg, names, ms + [m]) == Savings(cfg, names, ms) + Width(m) - Width(PruneOne(cfg, names, m))
    ensures PruneCount(cfg, names, ms + [m]) == PruneCount(cfg, names, ms) + if Prunable(cfg, names, m) then 1 else 0
  {
    if ms != [] {
      assert (ms + [m])[1..] == ms[1..] + [m];
      SavingsSnoc(cfg, names, ms[1..], m);
    }
  }

  /** The backward pass: where the protected tail starts. */
  method FindProtectedStart(ms: seq<Message>, limit: nat) returns (start: nat)
    ensures start == ProtectedStart(ms, limit, |ms|) && start <= |ms|
  {
    var chars := 0;
    start := |ms|;
    while start > 0
      invariant 0 <= start <= |ms| && chars == Chars(ms[start..])
      invariant ProtectedStart(ms, limit, |ms|) == ProtectedStart(ms, limit, start)
    {
      assert ms[start - 1..] == [ms[start - 1]] + ms[start..];
      start := start - 1;
      chars := chars + Width(ms[start]);
      if chars >= limit {
        break;
      }
    }
  }

  /** Both passes of `pruneToolOutputsForCompaction`. */
  method PruneToolOutputs(ms: seq<Message>, cfg: PruneConfig) returns (r: PruneResult)
    ensures r == Prune(ms, cfg)
  {
    var start := FindProtectedStart(ms, cfg.protectedTailChars);
    var names := ToolNames(ms);
    var pruned, removed := 0, 0;
    var out: seq<Message> := [];
    for i := 0 to |ms|
      invariant |out| == i
      invariant forall j :: 0 <= j < i ==> out[j] == if j < start then PruneOne(cfg, names, ms[j]) else ms[j]
      invariant removed == Savings(cfg, names, ms[..Min(i, start)])
      invariant pruned == PruneCount(cfg, names, ms[..Min(i, start)])
    {
      if i < start {
        assert ms[..i + 1] == ms[..i] + [ms[i]];
        SavingsSnoc(cfg, names, ms[..i], ms[i]);
      }
      if i < start && Prunable(cfg, names, ms[i]) {
        var replacement := PruneOne(cfg, names, ms[i]);
        pruned := pruned + 1;
        removed := removed + |ms[i].text| - |replacement.text|;
        out := out + [replacement];
      } else {
        out := out + [ms[i]];
      }
    }
    if removed < cfg.minSavingsChars {
      return PruneResult(ms, 0, 0);
    }
    assert out == PruneBefore(cfg, names, ms, start);
    return PruneResult(out, pruned, removed);
  }

  // ---- what pruning keeps ----

  /** `copy` is `original` with its output cut to a marked excerpt. */
  ghost predicate IsPrunedCopy(cfg: PruneConfig, copy: Message, original: Message) {
    && original.Tool? && copy.Tool? && copy.callId == original.callId
    && !(cfg.marker <= original.text) && cfg.marker <= copy.text
    && exists name :: copy.text == Excerpt(cfg, original.text, name)
  }

  lemma {:induction false} PruneOneIsCopy(cfg: PruneConfig, names: map<string, string>, m: Message)
    ensures PruneOne(cfg, names, m) == m || IsPrunedCopy(cfg, PruneOne(cfg, names, m), m)
    ensures Width(PruneOne(cfg, names, m)) <= Width(m)
    ensures !Prunable(cfg, names, PruneOne(cfg, names, m))
  {
    if Prunable(cfg, names, m) {
      var name := NameOf(names, m.callId);
      assert cfg.marker <= Excerpt(cfg, m.text, name);
    }
  }

  lemma {:induction false} PruneBeforeChars(cfg: PruneConfig, names: map<string, string>, ms: seq<Message>, start: nat)
    requires start <= |ms|
    ensures Chars(PruneBefore(cfg, names, ms, start)) + Savings(cfg, names, ms[..start]) == Chars(ms)
    decreases start
  {
    if start == 0 {
      assert PruneBefore(cfg, names, ms, 0) == ms;
    } else {
      PruneOneIsCopy(cfg, names, ms[0]);
      PruneBeforeChars(cfg, names, ms[1..], start - 1);
      assert PruneBefore(cfg, names, ms, start)
          == [PruneOne(cfg, names, ms[0])] + PruneBefore(cfg, names, ms[1..], start - 1);
      assert ms[..start][1..] == ms[1..][..start - 1];
    }
  }

  /** Pruning keeps every message in place, except that a tool output may become its marked excerpt with
      the same call id, and takes out exactly the characters it reports. */
  lemma {:induction false} PruneShape(ms: seq<Message>, cfg: PruneConfig)
    ensures var r := Prune(ms, cfg);
      && |r.messages| == |ms|
      && (forall i :: 0 <= i < |ms| ==> r.messages[i] == ms[i] || IsPrunedCopy(cfg, r.messages[i], ms[i]))
      && Chars(r.messages) + r.removed == Chars(ms)
      && (r.messages != ms ==> r.removed >= cfg.minSavingsChars)
  {
    var start := ProtectedStart(ms, cfg.protectedTailChars, |ms|);
    var names := ToolNames(ms);
    PruneBeforeChars(cfg, names, ms, start);
    forall i | 0 <= i < |ms|
      ensures PruneOne(cfg, names, ms[i]) == ms[i] || IsPrunedCopy(cfg, PruneOne(cfg, names, ms[i]), ms[i])
    {
      PruneOneIsCopy(cfg, names, ms[i]);
    }
  }

  /** A protected suffix that leaves something before it reaches the limit by itself. */
  lemma {:induction false} ProtectedSuffixReachesLimit(ms: seq<Message>, limit: nat, counted: nat)
    requires counted <= |ms| && ProtectedStart(ms, limit, counted) > 0
    ensures ProtectedStart(ms, limit, counted) < counted
    ensures Chars(ms[ProtectedStart(ms, limit, counted)..]) >= limit
    decreases counted
  {
    if ProtectedStart(ms, limit, counted) != counted - 1 {
      ProtectedSuffixReachesLimit(ms, limit, counted - 1);
    }
  }

  /** And no shorter suffix does. */
  lemma {:induction false} ShorterSuffixFallsShort(ms: seq<Message>, limit: nat, counted: nat, i: nat)
    requires counted <= |ms| && ProtectedStart(ms, limit, counted) < i < counted
    ensures Chars(ms[i..]) < limit
    decreases counted
  {
    if i < counted - 1 {
      ShorterSuffixFallsShort(ms, limit, counted - 1, i);
    }
  }

  lemma {:induction false} SameSuffixSameStart(a: seq<Message>, b: seq<Message>, limit: nat, counted: nat, start: nat)
    requires |a| == |b| && counted <= |a| && start == ProtectedStart(a, limit, counted)
    requires forall i :: start <= i < |a| ==> a[i] == b[i]
    ensures ProtectedStart(b, limit, counted) == start
  {
    if counted > 0 {
      assert start <= counted - 1;
      assert a[counted - 1..] == b[counted - 1..];
      if Chars(a[counted - 1..]) < limit {
        SameSuffixSameStart(a, b, limit, counted - 1, start);
      }
    }
  }

  lemma {:induction false} SameCallsSameNames(a: seq<Message>, b: seq<Message>)
    requires |a| == |b| && forall i :: 0 <= i < |a| ==> a[i] == b[i] || (a[i].Tool? && b[i].Tool?)
    ensures ToolNames(a) == ToolNames(b)
  {
    if a != [] {
      SameCallsSameNames(a[..|a| - 1], b[..|b| - 1]);
    }
  }

  /** Pruning a pruned conversation again changes nothing. */
  lemma {:induction false} PruneIsIdempotent(ms: seq<Message>, cfg: PruneConfig)
    ensures var once := Prune(ms, cfg).messages; Prune(once, cfg).messages == once
  {
    var once := Prune(ms, cfg).messages;
    if once != ms {
      var start := ProtectedStart(ms, cfg.protectedTailChars, |ms|);
      var names := ToolNames(ms);
      PruneShape(ms, cfg);
      SameSuffixSameStart(ms, once, cfg.protectedTailChars, |ms|, start);
      SameCallsSameNames(ms, once);
      forall i | 0 <= i < start
        ensures !Prunable(cfg, names, once[i])
      {
        PruneOneIsCopy(cfg, names, ms[i]);
      }
      assert PruneBefore(cfg, names, once, start) == once;
    }
  }

  // ---- exactly what is pruned ----

  /** The messages after the i-th one fill the protected tail by themselves. */
  ghost predicate Exposed(ms: seq<Message>, limit: nat, i: nat)
    requires i < |ms|
  {
    i + 1 < |ms| && Chars(ms[i + 1..]) >= limit
  }

  lemma {:induction false} LongerSuffix(ms: seq<Message>, i: nat, j: nat)
    requires i <= j <= |ms|
    ensures Chars(ms[i..]) >= Chars(ms[j..])
    decreases j - i
  {
    if i < j {
      LongerSuffix(ms, i + 1, j);
      assert ms[i..] == [ms[i]] + ms[i + 1..];
    }
  }

  lemma {:induction false} ExposedIff(ms: seq<Message>, limit: nat, i: nat)
    requires i < |ms|
    ensures i < ProtectedStart(ms, limit, |ms|) <==> Exposed(ms, limit, i)
  {
    var start := ProtectedStart(ms, limit, |ms|);
    if i < start {
      ProtectedSuffixReachesLimit(ms, limit, |ms|);
      LongerSuffix(ms, i + 1, start);
    } else if i + 1 < |ms| {
      ShorterSuffixFallsShort(ms, limit, |ms|, i + 1);
    }
  }

  /** All tool calls of a conversation, in order. */
  ghost function AllCalls(ms: seq<Message>): seq<ToolCall> {
    if ms == [] then []
    else AllCalls(ms[..|ms| - 1]) + if ms[|ms| - 1].Assistant? then ms[|ms| - 1].calls else []
  }

  lemma {:induction false} AddNamesConcat(names: map<string, string>, a: seq<ToolCall>, b: seq<ToolCall>)
    ensures AddNames(names, a + b) == AddNames(AddNames(names, a), b)
    decreases |a|
  {
    if a == [] {
      assert a + b == b;
    } else {
      assert (a + b)[1..] == a[1..] + b && (a + b)[0] == a[0];
      AddNamesConcat(names[a[0].id := a[0].name], a[1..], b);
    }
  }

  lemma {:induction false} NamesOfAllCalls(ms: seq<Message>)
    ensures ToolNames(ms) == AddNames(map[], AllCalls(ms))
  {
    if ms != [] {
      var earlier, m := ms[..|ms| - 1], ms[|ms| - 1];
      NamesOfAllCalls(earlier);
      AddNamesConcat(map[], AllCalls(earlier), if m.Assistant? then m.calls else []);
    }
  }

  lemma {:induction false} LastCallNames(calls: seq<ToolCall>, id: string)
    ensures id in AddNames(map[], calls) <==> exists k :: 0 <= k < |calls| && calls[k].id == id
    ensures forall k :: 0 <= k < |calls| && calls[k].id == id && (forall j :: k < j < |calls| ==> calls[j].id != id)
                ==> id in AddNames(map[], calls) && AddNames(map[], calls)[id] == calls[k].name
    decreases |calls|
  {
    if calls != [] {
      var front, last := calls[..|calls| - 1], calls[|calls| - 1];
      assert calls == front + [last];
      LastCallNames(front, id);
      AddNamesConcat(map[], front, [last]);
      assert [last][1..] == [];
      assert AddNames(map[], calls) == AddNames(map[], front)[last.id := last.name];
      if last.id != id {
        assert forall k :: 0 <= k < |calls| && calls[k].id == id ==> k < |front| && front[k] == calls[k];
      }
    }
  }

  /** The tool a result is attributed to: the one named by the last call of its id, and none without such a call. */
  lemma {:induction false} NameIsLast(ms: seq<Message>, id: string)
    ensures (forall k :: 0 <= k < |AllCalls(ms)| ==> AllCalls(ms)[k].id != id) ==> NameOf(ToolNames(ms), id) == ""
    ensures forall k :: 0 <= k < |AllCalls(ms)| && AllCalls(ms)[k].id == id
                && (forall j :: k < j < |AllCalls(ms)| ==> AllCalls(ms)[j].id != id)
                ==> NameOf(ToolNames(ms), id) == AllCalls(ms)[k].name
  {
    NamesOfAllCalls(ms);
    LastCallNames(AllCalls(ms), id);
  }

  /** An excerpt: the marker and notice, then the two ends of the content, the whole of it for a tail of no size. */
  lemma {:induction false} ExcerptShape(cfg: PruneConfig, content: string, toolName: string)
    returns (front: string, back: string)
    ensures Excerpt(cfg, content, toolName)
         == cfg.marker + cfg.notice(|content|, toolName) + front + "\n...\n" + back
    ensures front <= content && |front| == Min(cfg.edgeChars, |content|)
    ensures |back| <= |content| && content[|content| - |back|..] == back
    ensures |back| == if cfg.edgeChars == 0 then |content| else Min(cfg.edgeChars, |content|)
  {
    front, back := HeadSlice(content, cfg.edgeChars), TailSlice(content, cfg.edgeChars);
  }

  /** A tool output that is long enough, not pruned before, of no protected tool, and longer than its excerpt. */
  ghost predicate MayBeCut(cfg: PruneConfig, ms: seq<Message>, i: nat)
    requires i < |ms|
  {
    && ms[i].Tool? && |ms[i].text| >= cfg.minToolChars && !(cfg.marker <= ms[i].text)
    && var name := NameOf(ToolNames(ms), ms[i].callId);
       !cfg.protects(name) && |Excerpt(cfg, ms[i].text, name)| < |ms[i].text|
  }

  /** The conversation with every such output in front of the protected tail replaced by its excerpt. */
  ghost function AllCut(cfg: PruneConfig, ms: seq<Message>): seq<Message> {
    seq(|ms|, i requires 0 <= i < |ms| =>
      if Exposed(ms, cfg.protectedTailChars, i) && MayBeCut(cfg, ms, i)
      then Tool(ms[i].callId, Excerpt(cfg, ms[i].text, NameOf(ToolNames(ms), ms[i].callId)))
      else ms[i])
  }

  ghost function Changed(a: seq<Message>, b: seq<Message>): set<nat>
    requires |a| == |b|
  {
    set i: nat | 0 <= i < |a| && a[i] != b[i]
  }

  lemma {:induction false} AllCutIsPruneBefore(cfg: PruneConfig, ms: seq<Message>)
    ensures var start := ProtectedStart(ms, cfg.protectedTailChars, |ms|);
      AllCut(cfg, ms) == PruneBefore(cfg, ToolNames(ms), ms, start)
  {
    var start := ProtectedStart(ms, cfg.protectedTailChars, |ms|);
    forall i | 0 <= i < |ms|
      ensures AllCut(cfg, ms)[i] == PruneBefore(cfg, ToolNames(ms), ms, start)[i]
    {
      ExposedIff(ms, cfg.protectedTailChars, i);
    }
  }

  ghost function Picked(flags: seq<bool>, start: nat): set<nat>
    requires start <= |flags|
  {
    set i: nat | 0 <= i < start && flags[i]
  }

  lemma {:induction false} PickedOneMore(flags: seq<bool>, k: nat)
    requires k < |flags|
    ensures |Picked(flags, k + 1)| == |Picked(flags, k)| + if flags[k] then 1 else 0
  {
    assert Picked(flags, k + 1) == Picked(flags, k) + if flags[k] then {k} else {};
  }

  ghost function PruneFlags(cfg: PruneConfig, names: map<string, string>, ms: seq<Message>): seq<bool> {
    seq(|ms|, i requires 0 <= i < |ms| => Prunable(cfg, names, ms[i]))
  }

  lemma {:induction false} PruneCountIsSize(cfg: PruneConfig, names: map<string, string>, ms: seq<Message>, start: nat)
    requires start <= |ms|
    ensures PruneCount(cfg, names, ms[..start]) == |Picked(PruneFlags(cfg, names, ms), start)|
    decreases start
  {
    if start > 0 {
      assert ms[..start] == ms[..start - 1] + [ms[start - 1]];
      SavingsSnoc(cfg, names, ms[..start - 1], ms[start - 1]);
      PruneCountIsSize(cfg, names, ms, start - 1);
      PickedOneMore(PruneFlags(cfg, names, ms), start - 1);
    }
  }

  lemma {:induction false} ChangedIsPrunable(cfg: PruneConfig, names: map<string, string>, ms: seq<Message>, start: nat)
    requires start <= |ms|
    ensures Changed(PruneBefore(cfg, names, ms, start), ms) == Picked(PruneFlags(cfg, names, ms), start)
  {
    forall i: nat | i < |ms|
      ensures PruneOne(cfg, names, ms[i]) != ms[i] <==> Prunable(cfg, names, ms[i])
    {
      PruneOneIsCopy(cfg, names, ms[i]);
    }
  }

  /** Pruning replaces every output that may be cut, or, when that would not save enough, nothing; and it reports how
      many messages it changed and by how many characters it shortened them. */
  lemma {:induction false} PruneIs(ms: seq<Message>, cfg: PruneConfig)
    ensures var r, cut := Prune(ms, cfg), AllCut(cfg, ms);
      && r.messages == (if Chars(ms) - Chars(cut) >= cfg.minSavingsChars then cut else ms)
      && r.pruned == |Changed(r.messages, ms)| && r.removed == Chars(ms) - Chars(r.messages)
  {
    var start := ProtectedStart(ms, cfg.protectedTailChars, |ms|);
    AllCutIsPruneBefore(cfg, ms);
    PruneBeforeChars(cfg, ToolNames(ms), ms, start);
    PruneCountIsSize(cfg, ToolNames(ms), ms, start);
    ChangedIsPrunable(cfg, ToolNames(ms), ms, start);
    assert Changed(ms, ms) == {};
  }

  lemma {:induction false} PruneKeepsKinds(a: seq<Message>, b: seq<Message>)
    requires |a| == |b| && forall i :: 0 <= i < |a| ==> a[i] == b[i] || (a[i].Tool? && b[i].Tool?)
    ensures Segments(a) == Segments(b) && |Raw(a)| == |Raw(b)| && LeadingSystems(a) == LeadingSystems(b)
  {
    if a != [] {
      PruneKeepsKinds(a[1..], b[1..]);
    }
  }

  // ---- one compaction attempt ----

  /** What the compactor is built with; `estimate` is the prompt-size estimate. */
  datatype Config = Config(
    prune: PruneConfig, keep: Keep, batch: nat, triggerTokens: nat, hardTriggerTokens: nat, minNewMessages: nat,
    recollectionPrompt: string, estimate: seq<Message> -> nat)

  /** Everything the outside world answers during one attempt, in the order it is asked. */
  datatype Answers = Answers(summarizer: bool, testimony: seq<Option<string>>, replies: seq<Reply>)

  datatype Outcome = Outcome(
    applied: bool, via: string, messages: seq<Message>, tables: Tables,
    leaf: Option<SummaryId>, merged: seq<SummaryId>, testimony: seq<Message>)

  function Unchanged(t: Tables, ms: seq<Message>, phase: string): Outcome {
    Outcome(false, phase, ms, t, None, [], [])
  }

  /** The outcome of every path that stops after pruning: the pruned list if anything was pruned. */
  function PrunedOnly(t: Tables, ms: seq<Message>, working: seq<Message>, pruned: bool, phase: string): Outcome {
    if pruned then Outcome(true, phase + "-tool-prune", working, t, None, [], []) else Unchanged(t, ms, phase)
  }

  predicate ShouldDefer(c: Config, working: seq<Message>, observed: nat) {
    && Segments(working) != []
    && CandidateCount(working, c.keep) < c.minNewMessages
    && observed < c.hardTriggerTokens
  }

  function Ask(testimony: seq<Option<string>>): Option<string> {
    if testimony == [] then None else testimony[0]
  }

  /** The summary that is committed: woven with testimony, or the first draft with the testimony attached. */
  function Weave(c: Config, working: seq<Message>, draft: Compaction, testimony: Option<string>,
                 reply: Reply): Compaction {
    if testimony.None? || testimony.value == "" then draft
    else
      var woven := Compact(working, c.keep, RecollectionPair(c.recollectionPrompt, testimony), reply);
      if woven.Some? then woven.value
      else draft.(compacted := draft.compacted + [User(c.recollectionPrompt), Assistant(testimony.value, [])])
  }

  /** Third stage: draft, weave, and commit when the estimate gets smaller. */
  function SummarizeFresh(c: Config, t: Tables, ms: seq<Message>, working: seq<Message>, pruned: bool, phase: string,
                          heard: Option<string>, answers: seq<Option<string>>, replies: seq<Reply>): Outcome
    requires c.batch >= 2
  {
    var draft := Compact(working, c.keep, [], Next(replies));
    if draft.None? then PrunedOnly(t, ms, working, pruned, phase)
    else
      var testimony := if heard.Some? then heard else Ask(answers);
      var wove := testimony.Some? && testimony.value != "";
      var compaction := Weave(c, working, draft.value, testimony, Next(Later(replies)));
      if c.estimate(compaction.messages) >= c.estimate(working) then PrunedOnly(t, ms, working, pruned, phase)
      else
        var rest := if wove then Later(Later(replies)) else Later(replies);
        var committed := Commit(t, compaction, c.batch, phase + "-llm", rest);
        Outcome(true, phase + "-llm", committed.messages, committed.tables, Some(|t.nodes|), committed.merged,
                compaction.compacted[|draft.value.compacted|..])
  }

  /** Second stage: merge the frontier when a batch is ready; otherwise defer or summarize. */
  function AfterPruning(c: Config, t: Tables, ms: seq<Message>, working: seq<Message>, pruned: bool, observed: nat,
                        phase: string, a: Answers): Outcome
    requires c.batch >= 2
  {
    var defer := ShouldDefer(c, working, observed);
    var canMerge := CanConsolidate(working, c.batch);
    if !a.summarizer || (defer && !canMerge) then PrunedOnly(t, ms, working, pruned, phase)
    else if !canMerge then SummarizeFresh(c, t, ms, working, pruned, phase, None, a.testimony, a.replies)
    else
      var heard := Ask(a.testimony);
      var pair := RecollectionPair(c.recollectionPrompt, heard);
      var frontier := Consolidate(t, working, c.batch, false, pair, a.replies);
      if frontier.merged != [] then
        Outcome(true, phase + "-lcm-merge", frontier.messages, frontier.tables, None, frontier.merged, pair)
      else if defer then Unchanged(frontier.tables, ms, phase)
      else SummarizeFresh(c, frontier.tables, ms, working, pruned, phase, heard,
                          if a.testimony != [] then a.testimony[1..] else [], frontier.rest)
  }

  function MaybeCompact(c: Config, t: Tables, ms: seq<Message>, observed: nat, phase: string, a: Answers): Outcome
    requires c.batch >= 2
  {
    if observed < c.triggerTokens then Unchanged(t, ms, phase)
    else
      var result := Prune(ms, c.prune);
      if result.pruned == 0 then AfterPruning(c, t, ms, ms, false, observed, phase, a)
      else
        var archived := Tables(InsertAll(t.messages, Raw(ms), phase + "-tool-prune"), t.nodes);
        if c.estimate(result.messages) < c.triggerTokens then PrunedOnly(archived, ms, result.messages, true, phase)
        else AfterPruning(c, archived, ms, result.messages, true, observed, phase, a)
  }

  class ContextCompactor {
    const config: Config
    const lcm: LcmEngine

    ghost predicate Valid() {
      config.batch >= 2 && lcm.batchSize == config.batch
    }

    constructor (config: Config, lcm: LcmEngine)
      requires config.batch >= 2 && lcm.batchSize == config.batch
      ensures Valid() && this.config == config && this.lcm == lcm
    {
      this.config := config;
      this.lcm := lcm;
    }

    /** One attempt, in the order of its escalation; every exit is the matching exit of `MaybeCompact`. */
    method Attempt(messages: seq<Message>, observed: nat, phase: string, a: Answers) returns (o: Outcome)
      requires Valid()
      modifies lcm.archive
      ensures o == MaybeCompact(config, old(lcm.archive.Contents()), messages, observed, phase, a)
      ensures lcm.archive.Contents() == o.tables
    {
      if observed < config.triggerTokens {
        return Unchanged(lcm.archive.Contents(), messages, phase);
      }
      var working, pruned := messages, false;
      var result := PruneToolOutputs(working, config.prune);
      if result.pruned > 0 {
        var _ := lcm.archive.ArchiveMessages(working, phase + "-tool-prune");
        working, pruned := result.messages, true;
        if config.estimate(working) < config.triggerTokens {
          return PrunedOnly(lcm.archive.Contents(), messages, working, pruned, phase);
        }
      }
      o := Escalate(messages, working, pruned, observed, phase, a);
    }

    /** The merging stage. */
    method Escalate(messages: seq<Message>, working: seq<Message>, pruned: bool, observed: nat, phase: string,
                    a: Answers)
      returns (o: Outcome)
      requires Valid()
      modifies lcm.archive
      ensures o == AfterPruning(config, old(lcm.archive.Contents()), messages, working, pruned, observed, phase, a)
      ensures lcm.archive.Contents() == o.tables
    {
      if !a.summarizer {
        return PrunedOnly(lcm.archive.Contents(), messages, working, pruned, phase);
      }
      var defer, canMerge := ShouldDefer(config, working, observed), CanConsolidate(working, config.batch);
      if defer && !canMerge {
        return PrunedOnly(lcm.archive.Contents(), messages, working, pruned, phase);
      }
      var heard, asked, replies := None, a.testimony, a.replies;
      if canMerge {
        heard := Ask(asked);
        asked := if asked != [] then asked[1..] else asked;
        var pair := RecollectionPair(config.recollectionPrompt, heard);
        var merged, frontier, _, rest := lcm.ConsolidateFrontier(working, false, pair, replies);
        if frontier != [] {
          return Outcome(true, phase + "-lcm-merge", merged, lcm.archive.Contents(), None, frontier, pair);
        }
        replies := rest;
      }
      if defer {
        return Unchanged(lcm.archive.Contents(), messages, phase);
      }
      o := Summarize(messages, working, pruned, phase, heard, asked, replies);
    }

    /** The summarizing stage. */
    method Summarize(messages: seq<Message>, working: seq<Message>, pruned: bool, phase: string,
                     heard: Option<string>, asked: seq<Option<string>>, replies: seq<Reply>) returns (o: Outcome)
      requires Valid()
      modifies lcm.archive
      ensures o == SummarizeFresh(config, old(lcm.archive.Contents()), messages, working, pruned, phase, heard, asked,
           replies)
      ensures lcm.archive.Contents() == o.tables
    {
      var preflight := SummarizeConversation(working, config.keep, [], Next(replies));
      var rest := Later(replies);
      if preflight.None? {
        return PrunedOnly(lcm.archive.Contents(), messages, working, pruned, phase);
      }
      var testimony := if heard.Some? then heard else Ask(asked);
      var compaction := preflight.value;
      if testimony.Some? && testimony.value != "" {
        var pair := RecollectionPair(config.recollectionPrompt, testimony);
        var recollected := SummarizeConversation(working, config.keep, pair, Next(rest));
        rest := Later(rest);
        if recollected.Some? {
          compaction := recollected.value;
        } else {
          compaction := compaction.(compacted := compaction.compacted
              + [User(config.recollectionPrompt), Assistant(testimony.value, [])]);
        }
      }
      if config.estimate(compaction.messages) >= config.estimate(working) {
        return PrunedOnly(lcm.archive.Contents(), messages, working, pruned, phase);
      }
      var committed, leaf, merged, _, _ := lcm.CommitCompaction(compaction, phase + "-llm", rest);
      o := Outcome(true, phase + "-llm", committed, lcm.archive.Contents(), Some(leaf), merged,
                   compaction.compacted[|preflight.value.compacted|..]);
    }
  }
}
