/** Choosing what to compact, chunking its transcript, and building the compacted conversation. */
module Summarize {
  import opened Wrappers
  import opened Messages
  import opened Lcm

  /** Sizing of the verbatim tail, after defaults and floors are applied. */
  datatype Keep = Keep(minKeep: nat, maxKeep: nat, charBudget: nat)

  /** The options of one call: defaults, then floors; zero means none of it. The maximum never undercuts the minimum. */
  function ResolveKeep(minKeep: Option<int>, maxKeep: Option<int>, charBudget: Option<int>): (k: Keep)
    ensures k.minKeep <= k.maxKeep
    ensures minKeep.None? ==> k.minKeep == 6
    ensures minKeep.Some? ==> k.minKeep == if minKeep.value == 0 || minKeep.value >= 2 then minKeep.value else 2
    ensures maxKeep.None? ==> k.maxKeep >= 40 && (k.maxKeep == 40 || k.maxKeep == k.minKeep)
    ensures maxKeep.Some? ==> k.maxKeep >= maxKeep.value && (k.maxKeep == maxKeep.value || k.maxKeep == k.minKeep)
    ensures charBudget.None? ==> k.charBudget == 60_000
    ensures charBudget.Some? ==>
      k.charBudget == if charBudget.value == 0 || charBudget.value >= 8_000 then charBudget.value else 8_000
  {
    var least := if minKeep == Some(0) then 0 else Max(2, if minKeep.Some? then minKeep.value else 6);
    Keep(least,
         Max(least, if maxKeep.Some? then maxKeep.value else 40),
         if charBudget == Some(0) then 0 else Max(8_000, if charBudget.Some? then charBudget.value else 60_000))
  }

  // ---- the cut ----

  /** Whether the message before `start` may still join the tail that begins at `start`. */
  predicate MayExtend(ms: seq<Message>, k: Keep, start: nat)
    requires 0 < start <= |ms|
  {
    var kept := |ms| - start;
    !(kept >= k.minKeep && (Chars(ms[start..]) + Width(ms[start - 1]) > k.charBudget || kept >= k.maxKeep))
  }

  function Extend(ms: seq<Message>, floor: nat, k: Keep, start: nat): (r: nat)
    requires floor <= start <= |ms|
    ensures floor <= r <= start
  {
    if start > floor && MayExtend(ms, k, start) then Extend(ms, floor, k, start - 1) else start
  }

  /** Backing up over tool results, so that the tail starts at a self-contained message. */
  function BackUp(ms: seq<Message>, floor: nat, start: nat): (r: nat)
    requires floor <= start <= |ms|
    ensures floor <= r <= start
  {
    if start > floor && start < |ms| && ms[start].Tool? then BackUp(ms, floor, start - 1) else start
  }

  function TailStart(ms: seq<Message>, floor: nat, k: Keep): nat
    requires floor <= |ms|
  {
    BackUp(ms, floor, Extend(ms, floor, k, |ms|))
  }

  method ChooseTailStart(ms: seq<Message>, floor: nat, k: Keep) returns (start: nat)
    requires floor <= |ms|
    ensures start == TailStart(ms, floor, k)
  {
    var chars, kept := 0, 0;
    start := |ms|;
    var i: int := |ms| - 1;
    while i >= floor
      invariant floor - 1 <= i < |ms| && start == i + 1
      invariant chars == Chars(ms[start..]) && kept == |ms| - start
      invariant Extend(ms, floor, k, |ms|) == Extend(ms, floor, k, start)
      decreases i
    {
      var c := Width(ms[i]);
      if kept >= k.minKeep && (chars + c > k.charBudget || kept >= k.maxKeep) {
        break;
      }
      assert ms[i..] == [ms[i]] + ms[start..];
      chars := chars + c;
      start := i;
      kept := kept + 1;
      i := i - 1;
    }
    assert Extend(ms, floor, k, start) == start;
    while start > floor && start < |ms| && ms[start].Tool?
      invariant floor <= start <= |ms|
      invariant BackUp(ms, floor, start) == TailStart(ms, floor, k)
    {
      start := start - 1;
    }
  }

  /** What the scan alone keeps: enough messages, within both limits beyond the minimum. */
  ghost predicate TailWithinLimits(ms: seq<Message>, k: Keep, start: nat)
    requires start <= |ms|
  {
    var kept := |ms| - start;
    kept <= k.minKeep || (kept <= k.maxKeep && Chars(ms[start..]) <= k.charBudget)
  }

  /** The scan stops at a start that is within the limits, keeps the minimum, and is out of them one message on. */
  lemma {:induction false} ScanIsMaximal(ms: seq<Message>, floor: nat, k: Keep, start: nat)
    requires floor <= start <= |ms|
    requires TailWithinLimits(ms, k, start)
    ensures var s := Extend(ms, floor, k, start);
      && TailWithinLimits(ms, k, s)
      && (s == floor || !TailWithinLimits(ms, k, s - 1))
      && (start == |ms| ==> |ms| - s >= Min(k.minKeep, |ms| - floor))
  {
    if start > floor {
      ExtendsWithinLimits(ms, k, start);
      if MayExtend(ms, k, start) {
        ScanIsMaximal(ms, floor, k, start - 1);
        if start == |ms| && k.minKeep >= 1 {
          ScanKeepsMinimum(ms, floor, k, start - 1);
        }
      }
    }
  }

  /** The message before a start joins the tail exactly when the longer tail is within the limits. */
  lemma {:induction false} ExtendsWithinLimits(ms: seq<Message>, k: Keep, start: nat)
    requires 0 < start <= |ms|
    ensures MayExtend(ms, k, start) <==> TailWithinLimits(ms, k, start - 1)
  {
    assert ms[start - 1..] == [ms[start - 1]] + ms[start..];
  }

  /** Whatever options a call is given, its scan from the end keeps the resolved minimum, stays within the resolved
      limits beyond it, and would break them with one message more. */
  lemma {:induction false} ResolvedScanIsMaximal(ms: seq<Message>, minKeep: Option<int>, maxKeep: Option<int>,
                                                 charBudget: Option<int>)
    ensures var k := ResolveKeep(minKeep, maxKeep, charBudget);
      var s := Extend(ms, 0, k, |ms|);
      && TailWithinLimits(ms, k, s) && (s == 0 || !TailWithinLimits(ms, k, s - 1)) && |ms| - s >= Min(k.minKeep, |ms|)
  {
    ScanIsMaximal(ms, 0, ResolveKeep(minKeep, maxKeep, charBudget), |ms|);
  }

  lemma {:induction false} ScanKeepsMinimum(ms: seq<Message>, floor: nat, k: Keep, start: nat)
    requires floor <= start <= |ms|
    ensures |ms| - Extend(ms, floor, k, start) >= Min(k.minKeep, |ms| - floor)
  {
    if start > floor && MayExtend(ms, k, start) {
      ScanKeepsMinimum(ms, floor, k, start - 1);
    }
  }

  lemma {:induction false} ShorterTailIsWithin(ms: seq<Message>, k: Keep, start: nat, later: nat)
    requires start <= later <= |ms| && TailWithinLimits(ms, k, start)
    ensures TailWithinLimits(ms, k, later)
    decreases later - start
  {
    if start < later {
      assert ms[start..] == [ms[start]] + ms[start + 1..];
      ShorterTailIsWithin(ms, k, start + 1, later);
    }
  }

  /** The scan from the end stops at the one start that is within the limits and out of them one message on. */
  lemma {:induction false} ScanIsUnique(ms: seq<Message>, floor: nat, k: Keep, start: nat, s: nat)
    requires floor <= s <= start <= |ms|
    requires TailWithinLimits(ms, k, s) && (s == floor || !TailWithinLimits(ms, k, s - 1))
    ensures Extend(ms, floor, k, start) == s
  {
    if start > floor {
      ExtendsWithinLimits(ms, k, start);
      if s < start {
        ShorterTailIsWithin(ms, k, s, start - 1);
        ScanIsUnique(ms, floor, k, start - 1, s);
      }
    }
  }

  /** Where the tail starts: the scan stops at `s`, the only start within the limits and out of them one message on;
      from there the cut moves back over tool results, to the first message that is none. */
  lemma {:induction false} TailStartIs(ms: seq<Message>, floor: nat, k: Keep) returns (s: nat)
    requires floor <= |ms|
    ensures var t := TailStart(ms, floor, k);
      && floor <= t <= s <= |ms|
      && TailWithinLimits(ms, k, s) && (s == floor || !TailWithinLimits(ms, k, s - 1))
      && (forall m :: t < m <= s && m < |ms| ==> ms[m].Tool?)
      && (t == floor || t == |ms| || !ms[t].Tool?)
  {
    s := Extend(ms, floor, k, |ms|);
    ScanIsMaximal(ms, floor, k, |ms|);
    BackUpStopsAtBoundary(ms, floor, s);
  }

  /** The tool result at `j` answers the assistant message at `i`, with only tool results between. */
  ghost predicate Answers(ms: seq<Message>, i: nat, j: nat) {
    && i < j < |ms| && ms[i].Assistant? && ms[j].Tool?
    && (exists c :: c in ms[i].calls && c.id == ms[j].callId)
    && forall m :: i < m <= j ==> ms[m].Tool?
  }

  lemma {:induction false} BackUpStopsAtBoundary(ms: seq<Message>, floor: nat, start: nat)
    requires floor <= start <= |ms|
    ensures var s := BackUp(ms, floor, start);
      && (s == floor || s == |ms| || !ms[s].Tool?)
      && forall m :: s < m <= start && m < |ms| ==> ms[m].Tool?
  {
    if start > floor && start < |ms| && ms[start].Tool? {
      BackUpStopsAtBoundary(ms, floor, start - 1);
    }
  }

  /** No cut separates a contiguous tool result from its call: both are compacted or both are kept. */
  lemma {:induction false} CutSeparatesNoCall(ms: seq<Message>, k: Keep, i: nat, j: nat)
    requires Answers(ms, i, j)
    ensures i < TailStart(ms, 0, k) <==> j < TailStart(ms, 0, k)
  {
    BackUpStopsAtBoundary(ms, 0, Extend(ms, 0, k, |ms|));
  }

  // ---- transcript chunks ----

  /** A text without its newlines. */
  function Erase(s: string): string {
    if s == [] then [] else (if s[0] == '\n' then [] else [s[0]]) + Erase(s[1..])
  }

  lemma {:induction false} EraseConcat(a: string, b: string)
    ensures Erase(a + b) == Erase(a) + Erase(b)
  {
    if a == [] {
      assert a + b == b;
    } else {
      assert (a + b)[1..] == a[1..] + b;
      EraseConcat(a[1..], b);
    }
  }

  lemma {:induction false} EraseNothing(s: string)
    requires '\n' !in s
    ensures Erase(s) == s
  {
    if s != [] {
      EraseNothing(s[1..]);
    }
  }

  ghost predicate WellSized(chunks: seq<string>, maxChars: nat) {
    && (forall i :: 0 <= i < |chunks| ==> 1 <= |chunks[i]| <= maxChars)
    && forall i :: 0 <= i < |chunks| ==> |chunks[i]| >= maxChars - 1
  }

  /** Pieces of text written one below the other. */
  function Lined(pieces: seq<string>): string {
    if pieces == [] then []
    else if |pieces| == 1 then pieces[0]
    else Lined(pieces[..|pieces| - 1]) + "\n" + pieces[|pieces| - 1]
  }

  /** Appending a piece of a line, on a new line of the chunk unless the chunk is empty. */
  function Grow(current: string, piece: string): string {
    current + (if current == [] then [] else "\n") + piece
  }

  ghost predicate NoneEmpty(pieces: seq<string>) {
    forall i :: 0 <= i < |pieces| ==> pieces[i] != []
  }

  /** The finished chunks are the groups of pieces, one below the other, and the one being filled is `open`. */
  ghost predicate Shows(chunks: seq<string>, current: string, groups: seq<seq<string>>, open: seq<string>) {
    && |groups| == |chunks| && NoneEmpty(open) && current == Lined(open)
    && forall i :: 0 <= i < |groups| ==> groups[i] != [] && NoneEmpty(groups[i]) && chunks[i] == Lined(groups[i])
  }

  lemma {:induction false} LinedIsEmpty(pieces: seq<string>)
    requires NoneEmpty(pieces)
    ensures Lined(pieces) == [] <==> pieces == []
  {
  }

  lemma {:induction false} ShowsGrown(chunks: seq<string>, current: string, groups: seq<seq<string>>,
                                      open: seq<string>, piece: string)
    requires Shows(chunks, current, groups, open) && piece != []
    ensures Shows(chunks, Grow(current, piece), groups, open + [piece])
    ensures |Grow(current, piece)| == |current| + |piece| + if current == [] then 0 else 1
  {
    LinedIsEmpty(open);
    assert (open + [piece])[..|open|] == open;
  }

  lemma {:induction false} ShowsFlushed(chunks: seq<string>, current: string, groups: seq<seq<string>>,
                                        open: seq<string>)
    requires Shows(chunks, current, groups, open) && current != []
    ensures Shows(chunks + [current], [], groups + [open], []) && Flatten(groups + [open]) == Flatten(groups) + open
  {
    LinedIsEmpty(open);
    FlattenSnoc(groups, open);
  }

  lemma {:induction false} FlushKeepsSizes(chunks: seq<string>, current: string, maxChars: nat)
    requires WellSized(chunks, maxChars) && 1 <= |current| <= maxChars <= |current| + 1
    ensures WellSized(chunks + [current], maxChars)
  {
  }

  lemma {:induction false} TakePiece(pieces: seq<string>, remaining: string, size: nat, before: seq<string>)
    requires 0 < size <= |remaining| && NoneEmpty(pieces)
    ensures NoneEmpty(pieces + [remaining[..size]])
    ensures Flatten(pieces + [remaining[..size]]) + remaining[size..] == Flatten(pieces) + remaining
    ensures before + pieces + [remaining[..size]] == before + (pieces + [remaining[..size]])
  {
    FlattenSnoc(pieces, remaining[..size]);
    assert remaining[..size] + remaining[size..] == remaining;
  }

  /** The inner loop: one line is cut into pieces, which go over as many chunks as they need. */
  method AddLine(chunks0: seq<string>, current0: string, line: string, maxChars: nat, ghost groups0: seq<seq<string>>,
                 ghost open0: seq<string>)
    returns (chunks: seq<string>, current: string, ghost groups: seq<seq<string>>, ghost open: seq<string>,
             ghost pieces: seq<string>)
    requires maxChars >= 1 && WellSized(chunks0, maxChars) && |current0| <= maxChars
    requires Shows(chunks0, current0, groups0, open0)
    ensures WellSized(chunks, maxChars) && |current| <= maxChars && Shows(chunks, current, groups, open)
    ensures Flatten(pieces) == line && NoneEmpty(pieces)
    ensures Flatten(groups) + open == Flatten(groups0) + open0 + pieces
  {
    chunks, current, groups, open, pieces := chunks0, current0, groups0, open0, [];
    var remaining := line;
    while |remaining| > 0
      invariant WellSized(chunks, maxChars) && |current| <= maxChars && Shows(chunks, current, groups, open)
      invariant Flatten(pieces) + remaining == line && NoneEmpty(pieces)
      invariant Flatten(groups) + open == Flatten(groups0) + open0 + pieces
      decreases |remaining|, |current|
    {
      var available := maxChars - |current| - (if current != [] then 1 else 0);
      if available <= 0 {
        ShowsFlushed(chunks, current, groups, open);
        FlushKeepsSizes(chunks, current, maxChars);
        chunks, current, groups, open := chunks + [current], [], groups + [open], [];
      } else {
        var size := Min(|remaining|, available);
        var piece := remaining[..size];
        ShowsGrown(chunks, current, groups, open, piece);
        TakePiece(pieces, remaining, size, Flatten(groups0) + open0);
        Assoc(Flatten(groups), open, [piece]);
        current, open, pieces := Grow(current, piece), open + [piece], pieces + [piece];
        if |remaining| <= available {
          remaining := "";
        } else {
          remaining := remaining[size..];
          ShowsFlushed(chunks, current, groups, open);
          FlushKeepsSizes(chunks, current, maxChars);
          chunks, current, groups, open := chunks + [current], [], groups + [open], [];
        }
      }
    }
  }

  /** Every line is the concatenation of its pieces, none of them empty. */
  ghost predicate CutsLines(pieces: seq<seq<string>>, lines: seq<string>) {
    |pieces| == |lines| && forall n :: 0 <= n < |lines| ==> Flatten(pieces[n]) == lines[n] && NoneEmpty(pieces[n])
  }

  lemma {:induction false} CutsOneMore(pieces: seq<seq<string>>, lines: seq<string>, n: nat, cut: seq<string>)
    requires n < |lines| && CutsLines(pieces, lines[..n]) && Flatten(cut) == lines[n] && NoneEmpty(cut)
    ensures CutsLines(pieces + [cut], lines[..n + 1]) && Flatten(pieces + [cut]) == Flatten(pieces) + cut
  {
    FlattenSnoc(pieces, cut);
  }

  /** The outer loop: every line is added to the chunk being filled. */
  method FillChunks(lines: seq<string>, maxChars: nat)
    returns (chunks: seq<string>, current: string, ghost groups: seq<seq<string>>, ghost open: seq<string>,
             ghost pieces: seq<seq<string>>)
    requires maxChars >= 1
    ensures WellSized(chunks, maxChars) && |current| <= maxChars && Shows(chunks, current, groups, open)
    ensures CutsLines(pieces, lines) && Flatten(groups) + open == Flatten(pieces)
  {
    chunks, current, groups, open, pieces := [], [], [], [], [];
    for n := 0 to |lines|
      invariant WellSized(chunks, maxChars) && |current| <= maxChars && Shows(chunks, current, groups, open)
      invariant CutsLines(pieces, lines[..n]) && Flatten(groups) + open == Flatten(pieces)
    {
      ghost var cut;
      chunks, current, groups, open, cut := AddLine(chunks, current, lines[n], maxChars, groups, open);
      CutsOneMore(pieces, lines, n, cut);
      pieces := pieces + [cut];
    }
    assert lines[..|lines|] == lines;
  }

  /** Splitting terminates. The chunks are the non-empty pieces of the lines, in order, grouped and written one below
      the other; every chunk is non-empty and bounded, and all but the last are full to one character. */
  method SplitSummaryTranscript(lines: seq<string>, maxChars: nat)
    returns (chunks: seq<string>, ghost groups: seq<seq<string>>, ghost pieces: seq<seq<string>>)
    requires maxChars >= 1
    ensures forall i :: 0 <= i < |chunks| ==> 1 <= |chunks[i]| <= maxChars
    ensures forall i :: 0 <= i < |chunks| - 1 ==> |chunks[i]| >= maxChars - 1
    ensures CutsLines(pieces, lines) && Flatten(groups) == Flatten(pieces) && Shows(chunks, [], groups, [])
  {
    var current;
    ghost var open;
    chunks, current, groups, open, pieces := FillChunks(lines, maxChars);
    LinedIsEmpty(open);
    assert Flatten(groups) + [] == Flatten(groups);
    if current != [] {
      ShowsFlushed(chunks, current, groups, open);
      chunks, groups := chunks + [current], groups + [open];
    }
  }

  /** Writing pieces below each other adds one line break between every two, and nothing else. */
  lemma {:induction false} LinedErases(pieces: seq<string>)
    ensures Erase(Lined(pieces)) == Erase(Flatten(pieces))
    ensures pieces != [] ==> |Lined(pieces)| == |Flatten(pieces)| + |pieces| - 1
  {
    if |pieces| == 1 {
      assert pieces == [pieces[0]] && pieces[1..] == [];
      assert Flatten(pieces) == pieces[0] + [] == pieces[0];
    } else if pieces != [] {
      var front, last := pieces[..|pieces| - 1], pieces[|pieces| - 1];
      assert pieces == front + [last];
      LinedErases(front);
      FlattenSnoc(front, last);
      EraseConcat(Lined(front) + "\n", last);
      EraseConcat(Lined(front), "\n");
      EraseConcat(Flatten(front), last);
    }
  }

  lemma {:induction false} ChunksErase(chunks: seq<string>, groups: seq<seq<string>>)
    requires Shows(chunks, [], groups, [])
    ensures Erase(Flatten(chunks)) == Erase(Flatten(Flatten(groups)))
  {
    if chunks != [] {
      ChunksErase(chunks[1..], groups[1..]);
      LinedErases(groups[0]);
      EraseConcat(chunks[0], Flatten(chunks[1..]));
      FlattenConcat(groups[0], Flatten(groups[1..]));
      EraseConcat(Flatten(groups[0]), Flatten(Flatten(groups[1..])));
    }
  }

  lemma {:induction false} PiecesAreLines(pieces: seq<seq<string>>, lines: seq<string>)
    requires CutsLines(pieces, lines)
    ensures Flatten(Flatten(pieces)) == Flatten(lines)
  {
    if lines != [] {
      PiecesAreLines(pieces[1..], lines[1..]);
      FlattenConcat(pieces[0], Flatten(pieces[1..]));
    }
  }

  /** Apart from line breaks nothing is lost; and on newline-free lines, the chunks without breaks are the lines. */
  lemma {:induction false} SplitLosesNothing(lines: seq<string>, chunks: seq<string>, groups: seq<seq<string>>,
                                             pieces: seq<seq<string>>)
    requires CutsLines(pieces, lines) && Flatten(groups) == Flatten(pieces) && Shows(chunks, [], groups, [])
    ensures Erase(Flatten(chunks)) == Erase(Flatten(lines))
    ensures (forall i :: 0 <= i < |lines| ==> '\n' !in lines[i]) ==> Erase(Flatten(chunks)) == Flatten(lines)
  {
    ChunksErase(chunks, groups);
    PiecesAreLines(pieces, lines);
    if forall i :: 0 <= i < |lines| ==> '\n' !in lines[i] {
      NewlineFree(lines);
      EraseNothing(Flatten(lines));
    }
  }

  lemma {:induction false} NewlineFree(lines: seq<string>)
    requires forall i :: 0 <= i < |lines| ==> '\n' !in lines[i]
    ensures '\n' !in Flatten(lines)
  {
    if lines != [] {
      NewlineFree(lines[1..]);
    }
  }

  // ---- the compacted conversation ----

  /** The recollection exchange kept with a compaction, when the agent's testimony is not blank. */
  function RecollectionPair(prompt: string, testimony: Option<string>): seq<Message> {
    if testimony.Some? && !Blank(testimony.value) then [User(prompt), Assistant(testimony.value, [])] else []
  }

  /** Head, segments and raw messages of a conversation, and where its raw tail starts. */
  function Cut(ms: seq<Message>, k: Keep): nat {
    TailStart(Raw(ms[LeadingSystems(ms)..]), 0, k)
  }

  /** Summarizing the raw messages before the cut; nothing to cut or a rejected answer gives nothing. */
  function Compact(ms: seq<Message>, k: Keep, testimony: seq<Message>, reply: Reply): Option<Compaction> {
    var head := LeadingSystems(ms);
    var raw := Raw(ms[head..]);
    var cut := TailStart(raw, 0, k);
    if cut == 0 || !Accepts(reply, Chars(raw[..cut])) then None
    else Some(Compaction(
      ms[..head] + Segments(ms[head..]) + [Summary(None, None, reply.text)] + raw[cut..],
      raw[..cut] + testimony,
      reply.text))
  }

  /** How many messages the next compaction would fold; the same cut the compaction itself makes. */
  function CandidateCount(ms: seq<Message>, k: Keep): nat {
    Cut(ms, k)
  }

  method SummarizeConversation(ms: seq<Message>, k: Keep, testimony: seq<Message>, reply: Reply)
      returns (c: Option<Compaction>)
    ensures c == Compact(ms, k, testimony, reply)
    ensures c.Some? ==> |c.value.compacted| == CandidateCount(ms, k) + |testimony|
  {
    var leading := 0;
    while leading < |ms| && ms[leading].System?
      invariant leading <= |ms| && LeadingSystems(ms) == leading + LeadingSystems(ms[leading..])
    {
      leading := leading + 1;
    }
    var head, afterHead := ms[..leading], ms[leading..];
    var summaries, raw := Segments(afterHead), Raw(afterHead);
    var cut := ChooseTailStart(raw, 0, k);
    if cut <= 0 || !Accepts(reply, Chars(raw[..cut])) {
      return None;
    }
    return Some(Compaction(head + summaries + [Summary(None, None, reply.text)] + raw[cut..],
                           raw[..cut] + testimony, reply.text));
  }
}
