/** The active summary frontier: finding, merging and replacing same-depth segments in a conversation. */
module Frontier {
  import opened Wrappers
  import opened Messages

  datatype ActiveSummary = ActiveSummary(index: nat, id: SummaryId, depth: nat, text: string)

  /** A summary message with an id is active; without a depth marker it counts as depth 0. */
  function ActiveFrom(ms: seq<Message>, base: nat): seq<ActiveSummary> {
    if ms == [] then []
    else (if ms[0].Summary? && ms[0].id.Some? then [ActiveAt(ms[0], base)] else []) + ActiveFrom(ms[1..], base + 1)
  }

  function ActiveAt(m: Message, index: nat): ActiveSummary
    requires m.Summary? && m.id.Some?
  {
    ActiveSummary(index, m.id.value, if m.depth.Some? then m.depth.value else 0, m.body)
  }

  function Active(ms: seq<Message>): seq<ActiveSummary> {
    ActiveFrom(ms, 0)
  }

  function ActiveIds(ms: seq<Message>): seq<SummaryId> {
    SegmentIds(Active(ms))
  }

  function SegmentIds(segments: seq<ActiveSummary>): (r: seq<SummaryId>)
    ensures |r| == |segments| && forall i :: 0 <= i < |r| ==> r[i] == segments[i].id
  {
    seq(|segments|, i requires 0 <= i < |segments| => segments[i].id)
  }

  /** A summary with an id and no depth marker is given depth 0. */
  function NormalizeOne(m: Message): Message {
    if m.Summary? && m.id.Some? && m.depth.None? then m.(depth := Some(0)) else m
  }

  function Normalize(ms: seq<Message>): (r: seq<Message>)
    ensures |r| == |ms| && forall i :: 0 <= i < |ms| ==> r[i] == NormalizeOne(ms[i])
  {
    seq(|ms|, i requires 0 <= i < |ms| => NormalizeOne(ms[i]))
  }

  function SummaryMessage(text: string, id: SummaryId, depth: nat): Message {
    Summary(Some(id), Some(depth), text)
  }

  /** The first summary without an id receives it, together with a depth marker. */
  function Attach(ms: seq<Message>, id: SummaryId, depth: nat): seq<Message> {
    if ms == [] then []
    else if ms[0].Summary? && ms[0].id.None? then [Summary(Some(id), Some(depth), ms[0].body)] + ms[1..]
    else [ms[0]] + Attach(ms[1..], id, depth)
  }

  /** Attaching marks the new segment at `k` exactly when no earlier summary lacks an id. */
  lemma {:induction false} AttachMarksNewSegment(ms: seq<Message>, k: nat, id: SummaryId, depth: nat)
    requires k < |ms| && ms[k].Summary? && ms[k].id.None?
    ensures Attach(ms, id, depth) == ms[k := Summary(Some(id), Some(depth), ms[k].body)]
            <==> forall i :: 0 <= i < k && ms[i].Summary? ==> ms[i].id.Some?
  {
    if ms[0].Summary? && ms[0].id.None? {
      if k > 0 {
        assert Attach(ms, id, depth)[0] != ms[0];
      }
    } else {
      AttachMarksNewSegment(ms[1..], k - 1, id, depth);
      var target := Summary(Some(id), Some(depth), ms[k].body);
      assert ms[k := target] == [ms[0]] + ms[1..][k - 1 := target];
      assert Attach(ms, id, depth)[1..] == Attach(ms[1..], id, depth);
      forall i | 0 <= i < k && ms[i].Summary?
        ensures i > 0 ==> ms[1..][i - 1] == ms[i]
      {
      }
      assert forall i :: 0 <= i < k - 1 ==> ms[1..][i] == ms[i + 1];
    }
  }

  // ---- finding a batch ----

  /** `len` summaries from `start`: equal depth, adjacent in the conversation. */
  predicate IsBatchRun(s: seq<ActiveSummary>, start: nat, len: nat) {
    && start + len <= |s|
    && forall k :: start <= k < start + len ==>
         s[k].depth == s[start].depth && (k == start || s[k].index == s[k - 1].index + 1)
  }

  function RunLength(b: nat, overflow: bool): nat {
    b + (if overflow then 1 else 0)
  }

  /** First start at or after `start` of a run of the required length. */
  function FirstRun(s: seq<ActiveSummary>, len: nat, start: nat): (r: Option<nat>)
    requires len >= 1
    ensures r.Some? ==> r.value + len <= |s|
    decreases |s| - start
  {
    if start + len > |s| then None
    else if IsBatchRun(s, start, len) then Some(start)
    else FirstRun(s, len, start + 1)
  }

  lemma {:induction false} FirstRunIsFirst(s: seq<ActiveSummary>, len: nat, start: nat)
    requires len >= 1
    ensures var r := FirstRun(s, len, start);
      && (r.Some? ==> start <= r.value && IsBatchRun(s, r.value, len))
      && forall k :: start <= k && (r.Some? ==> k < r.value) ==> !IsBatchRun(s, k, len)
    decreases |s| - start
  {
    if start + len <= |s| && !IsBatchRun(s, start, len) {
      FirstRunIsFirst(s, len, start + 1);
    }
  }

  function MergeableBatch(ms: seq<Message>, b: nat, overflow: bool): (r: Option<seq<ActiveSummary>>)
    requires b >= 1
    ensures r.Some? ==> |r.value| == b
  {
    match FirstRun(Active(ms), RunLength(b, overflow), 0)
    case None => None
    case Some(start) => Some(Active(ms)[start..start + b])
  }

  // ---- replacing a batch ----

  /** The batch's first message becomes the replacement, its others disappear. */
  function ReplaceFrom(ms: seq<Message>, base: nat, batch: seq<ActiveSummary>, replacement: Message): seq<Message>
    requires batch != []
  {
    if ms == [] then []
    else
      (if base == batch[0].index then [replacement]
       else if exists s :: s in batch && s.index == base then []
       else [ms[0]]) + ReplaceFrom(ms[1..], base + 1, batch, replacement)
  }

  function ReplaceBatch(ms: seq<Message>, batch: seq<ActiveSummary>, replacement: Message): seq<Message>
    requires batch != []
  {
    ReplaceFrom(ms, 0, batch, replacement)
  }

  ghost predicate Adjacent(batch: seq<ActiveSummary>) {
    forall k :: 0 <= k < |batch| ==> batch[k].index == batch[0].index + k
  }

  lemma {:induction false} SpliceAfterFirst(ms: seq<Message>, i: nat, n: nat, replacement: Message)
    requires 0 < i && i + n <= |ms|
    ensures [ms[0]] + (ms[1..][..i - 1] + [replacement] + ms[1..][i - 1 + n..]) == ms[..i] + [replacement] + ms[i + n..]
  {
  }

  lemma {:induction false} ReplaceIsSplice(ms: seq<Message>, base: nat, batch: seq<ActiveSummary>, replacement: Message)
    requires batch != [] && Adjacent(batch)
    requires base <= batch[0].index && batch[0].index + |batch| <= base + |ms|
    ensures var i := batch[0].index - base;
      ReplaceFrom(ms, base, batch, replacement) == ms[..i] + [replacement] + ms[i + |batch|..]
  {
    if base < batch[0].index {
      ReplaceIsSplice(ms[1..], base + 1, batch, replacement);
      SpliceAfterFirst(ms, batch[0].index - base, |batch|, replacement);
    } else {
      ReplaceRest(ms[1..], base + 1, batch, replacement);
      assert ms[1..][|batch| - 1..] == ms[|batch|..];
    }
  }

  lemma {:induction false} ReplaceRest(ms: seq<Message>, base: nat, batch: seq<ActiveSummary>, replacement: Message)
    requires batch != [] && Adjacent(batch) && base > batch[0].index
    requires batch[0].index + |batch| <= base + |ms|
    ensures ReplaceFrom(ms, base, batch, replacement) == ms[Max(0, batch[0].index + |batch| - base)..]
  {
    if ms != [] {
      ReplaceRest(ms[1..], base + 1, batch, replacement);
      if base < batch[0].index + |batch| {
        assert batch[base - batch[0].index] in batch;
        var k := batch[0].index + |batch| - base;
        assert ms[1..][k - 1..] == ms[k..];
      } else {
        assert !exists s :: s in batch && s.index == base;
      }
    }
  }

  ghost predicate ReadsMessage(ms: seq<Message>, base: nat, a: ActiveSummary) {
    && base <= a.index < base + |ms|
    && var m := ms[a.index - base]; m.Summary? && m.id.Some? && a == ActiveAt(m, a.index)
  }

  lemma {:induction false} ActiveInRange(ms: seq<Message>, base: nat)
    ensures forall a :: a in ActiveFrom(ms, base) ==> ReadsMessage(ms, base, a)
  {
    if ms != [] {
      ActiveInRange(ms[1..], base + 1);
      forall a | a in ActiveFrom(ms, base)
        ensures ReadsMessage(ms, base, a)
      {
        if a in ActiveFrom(ms[1..], base + 1) {
          assert ReadsMessage(ms[1..], base + 1, a);
          assert ms[1..][a.index - (base + 1)] == ms[a.index - base];
        }
      }
    }
  }

  lemma {:induction false} RunIsAdjacent(s: seq<ActiveSummary>, start: nat, len: nat, k: nat)
    requires IsBatchRun(s, start, len) && k < len
    ensures s[start + k].index == s[start].index + k
  {
    if k > 0 {
      RunIsAdjacent(s, start, len, k - 1);
    }
  }

  /** The k-th member of a found batch stands k messages after the first and has its depth. */
  lemma {:induction false} BatchMember(ms: seq<Message>, b: nat, overflow: bool, k: nat)
    requires b >= 1 && k < b && MergeableBatch(ms, b, overflow).Some?
    ensures var batch := MergeableBatch(ms, b, overflow).value;
      && batch[k].index == batch[0].index + k
      && batch[k].depth == batch[0].depth
      && ReadsMessage(ms, 0, batch[k])
  {
    var s := Active(ms);
    var start := FirstRun(s, RunLength(b, overflow), 0).value;
    FirstRunIsFirst(s, RunLength(b, overflow), 0);
    RunIsAdjacent(s, start, RunLength(b, overflow), k);
    ActiveInRange(ms, 0);
    assert s[start..start + b][k] == s[start + k];
  }

  lemma {:induction false} ActiveConcat(a: seq<Message>, b: seq<Message>, base: nat)
    ensures ActiveFrom(a + b, base) == ActiveFrom(a, base) + ActiveFrom(b, base + |a|)
  {
    if a == [] {
      assert a + b == b;
    } else {
      assert (a + b)[1..] == a[1..] + b;
      ActiveConcat(a[1..], b, base + 1);
    }
  }

  /** `n` messages from `i` on are summaries with an id and one common depth, a missing depth marker counting as 0. */
  ghost predicate RunAt(ms: seq<Message>, i: nat, n: nat) {
    && i + n <= |ms|
    && forall k :: i <= k < i + n ==>
         ms[k].Summary? && ms[k].id.Some? && MarkedDepth(ms[k]) == MarkedDepth(ms[i])
  }

  ghost function MarkedDepth(m: Message): nat {
    if m.Summary? && m.depth.Some? then m.depth.value else 0
  }

  lemma {:induction false} ActivePosition(ms: seq<Message>, k: nat)
    requires k < |ms| && ms[k].Summary? && ms[k].id.Some?
    ensures var p := |Active(ms[..k])|;
      && p < |Active(ms)| && Active(ms)[p] == ActiveAt(ms[k], k)
      && |Active(ms[..k + 1])| == p + 1
  {
    assert ms == ms[..k] + ([ms[k]] + ms[k + 1..]) && ms[..k + 1] == ms[..k] + [ms[k]];
    ActiveConcat(ms[..k], [ms[k]] + ms[k + 1..], 0);
    ActiveConcat([ms[k]], ms[k + 1..], k);
    ActiveConcat(ms[..k], [ms[k]], 0);
    assert [ms[k]][1..] == [];
    assert ActiveFrom([ms[k]], k) == [ActiveAt(ms[k], k)] + [];
  }

  lemma {:induction false} RunPositions(ms: seq<Message>, i: nat, n: nat, k: nat)
    requires RunAt(ms, i, n) && k <= n
    ensures |Active(ms[..i + k])| == |Active(ms[..i])| + k
  {
    if k > 0 {
      RunPositions(ms, i, n, k - 1);
      ActivePosition(ms, i + k - 1);
    }
  }

  lemma {:induction false} RunMember(ms: seq<Message>, i: nat, n: nat, q: nat)
    requires RunAt(ms, i, n) && |Active(ms[..i])| <= q < |Active(ms[..i])| + n
    ensures var k := i + q - |Active(ms[..i])|;
      q < |Active(ms)| && Active(ms)[q] == ActiveAt(ms[k], k)
  {
    RunPositions(ms, i, n, q - |Active(ms[..i])|);
    ActivePosition(ms, i + q - |Active(ms[..i])|);
  }

  lemma {:induction false} RunIsBatchRun(ms: seq<Message>, i: nat, n: nat)
    requires RunAt(ms, i, n) && n >= 1
    ensures IsBatchRun(Active(ms), |Active(ms[..i])|, n) && Active(ms)[|Active(ms[..i])|].index == i
  {
    var s, p := Active(ms), |Active(ms[..i])|;
    RunMember(ms, i, n, p);
    RunMember(ms, i, n, p + n - 1);
    forall q | p <= q < p + n
      ensures s[q].index == i + q - p && s[q].depth == MarkedDepth(ms[i])
    {
      RunMember(ms, i, n, q);
    }
  }

  lemma {:induction false} BatchRunMember(ms: seq<Message>, p: nat, n: nat, k: nat)
    requires IsBatchRun(Active(ms), p, n) && k < n
    ensures var i := Active(ms)[p].index + k;
      i < |ms| && ms[i].Summary? && ms[i].id.Some? && Active(ms)[p + k] == ActiveAt(ms[i], i)
  {
    RunIsAdjacent(Active(ms), p, n, k);
    ActiveInRange(ms, 0);
    assert Active(ms)[p + k] in Active(ms);
  }

  lemma {:induction false} BatchRunIsRun(ms: seq<Message>, p: nat, n: nat)
    requires IsBatchRun(Active(ms), p, n) && n >= 1
    ensures RunAt(ms, Active(ms)[p].index, n)
  {
    var s, i := Active(ms), Active(ms)[p].index;
    BatchRunMember(ms, p, n, 0);
    BatchRunMember(ms, p, n, n - 1);
    forall k | i <= k < i + n
      ensures ms[k].Summary? && ms[k].id.Some? && MarkedDepth(ms[k]) == s[p].depth
    {
      BatchRunMember(ms, p, n, k - i);
    }
  }

  lemma {:induction false} ActiveAscends(ms: seq<Message>, base: nat, p: nat, q: nat)
    requires p < q < |ActiveFrom(ms, base)|
    ensures ActiveFrom(ms, base)[p].index < ActiveFrom(ms, base)[q].index
  {
    var rest := ActiveFrom(ms[1..], base + 1);
    if ms[0].Summary? && ms[0].id.Some? {
      ActiveInRange(ms[1..], base + 1);
      if p == 0 {
        assert rest[q - 1] in rest;
      } else {
        ActiveAscends(ms[1..], base + 1, p - 1, q - 1);
      }
    } else {
      ActiveAscends(ms[1..], base + 1, p, q);
    }
  }

  lemma {:induction false} FirstRunIsOldest(ms: seq<Message>, n: nat, i: nat)
    requires n >= 1 && RunAt(ms, i, n)
    ensures var first := FirstRun(Active(ms), n, 0); first.Some? && Active(ms)[first.value].index <= i
  {
    var first := FirstRun(Active(ms), n, 0);
    FirstRunIsFirst(Active(ms), n, 0);
    RunIsBatchRun(ms, i, n);
    if first.Some? && first.value < |Active(ms[..i])| {
      ActiveAscends(ms, 0, first.value, |Active(ms[..i])|);
    }
  }

  /** `batch` is `b` messages from its first one on, as the frontier reads them. */
  ghost predicate ReadsFrom(ms: seq<Message>, batch: seq<ActiveSummary>, b: nat) {
    && |batch| == b > 0 && batch[0].index + b <= |ms|
    && forall k :: 0 <= k < b ==> ReadsMessage(ms, 0, batch[k]) && batch[k].index == batch[0].index + k
  }

  /** What is merged next, for any conversation: the b oldest members of its first run of b consecutive equal-depth
      segments, of b + 1 when only an overflow may be merged; nothing exactly when there is no such run. */
  lemma {:induction false} BatchIsFirstRun(ms: seq<Message>, b: nat, overflow: bool)
    requires b >= 1
    ensures var n, batch := (if overflow then b + 1 else b), MergeableBatch(ms, b, overflow);
      && (batch.None? <==> forall i: nat :: !RunAt(ms, i, n))
      && (batch.Some? ==>
            && ReadsFrom(ms, batch.value, b) && RunAt(ms, batch.value[0].index, n)
            && forall i: nat :: i < batch.value[0].index ==> !RunAt(ms, i, n))
  {
    var n := if overflow then b + 1 else b;
    forall i: nat | RunAt(ms, i, n)
      ensures MergeableBatch(ms, b, overflow).Some? && MergeableBatch(ms, b, overflow).value[0].index <= i
    {
      FirstRunIsOldest(ms, n, i);
    }
    if MergeableBatch(ms, b, overflow).Some? {
      FirstRunIsFirst(Active(ms), n, 0);
      BatchRunIsRun(ms, FirstRun(Active(ms), n, 0).value, n);
      forall k | 0 <= k < b
        ensures var batch := MergeableBatch(ms, b, overflow).value;
          ReadsMessage(ms, 0, batch[k]) && batch[k].index == batch[0].index + k
      {
        BatchMember(ms, b, overflow, k);
      }
    }
  }

  /** The active ids are those of the summaries that have one, in order. */
  lemma {:induction false} ActiveIdsInOrder(ms: seq<Message>)
    ensures ActiveIds(ms)
         == Flatten(seq(|ms|, i requires 0 <= i < |ms| =>
                          if ms[i].Summary? && ms[i].id.Some? then [ms[i].id.value] else []))
  {
    ActiveIdsFrom(ms, 0);
  }

  lemma {:induction false} ActiveIdsFrom(ms: seq<Message>, base: nat)
    ensures SegmentIds(ActiveFrom(ms, base))
         == Flatten(seq(|ms|, i requires 0 <= i < |ms| =>
                          if ms[i].Summary? && ms[i].id.Some? then [ms[i].id.value] else []))
  {
    if ms != [] {
      ActiveIdsFrom(ms[1..], base + 1);
      var ids := seq(|ms|, i requires 0 <= i < |ms| =>
        if ms[i].Summary? && ms[i].id.Some? then [ms[i].id.value] else []);
      assert ids[1..] == seq(|ms[1..]|, i requires 0 <= i < |ms[1..]| =>
        if ms[1..][i].Summary? && ms[1..][i].id.Some? then [ms[1..][i].id.value] else []);
      assert SegmentIds(ActiveFrom(ms, base)) == ids[0] + SegmentIds(ActiveFrom(ms[1..], base + 1));
    }
  }

  /** Normalizing gives the summaries that have an id but no depth marker the depth 0, and changes nothing else. */
  lemma {:induction false} NormalizeMarksDepth(ms: seq<Message>, i: nat)
    requires i < |ms|
    ensures var m, r := ms[i], Normalize(ms);
      && |r| == |ms|
      && r[i] == (if m.Summary? && m.id.Some? && m.depth.None? then Summary(m.id, Some(0), m.body) else m)
  {
  }

  /** A batch is a stretch of the conversation, so merging it replaces b messages by one. */
  lemma {:induction false} MergeIsSplice(ms: seq<Message>, b: nat, overflow: bool, replacement: Message)
    requires b >= 1 && MergeableBatch(ms, b, overflow).Some?
    ensures var batch := MergeableBatch(ms, b, overflow).value;
      && batch[0].index + b <= |ms|
      && (forall k :: batch[0].index <= k < batch[0].index + b ==> ms[k].Summary?)
      && ReplaceBatch(ms, batch, replacement) == ms[..batch[0].index] + [replacement] + ms[batch[0].index + b..]
  {
    var batch := MergeableBatch(ms, b, overflow).value;
    forall k | 0 <= k < b
      ensures batch[k].index == batch[0].index + k
    {
      BatchMember(ms, b, overflow, k);
    }
    BatchMember(ms, b, overflow, b - 1);
    forall k | batch[0].index <= k < batch[0].index + b
      ensures ms[k].Summary?
    {
      BatchMember(ms, b, overflow, k - batch[0].index);
    }
    ReplaceIsSplice(ms, 0, batch, replacement);
  }

  lemma {:induction false} RawOfSplice(ms: seq<Message>, from: nat, to: nat, replacement: Message)
    requires from <= to <= |ms| && replacement.Summary? && forall k :: from <= k < to ==> ms[k].Summary?
    ensures Raw(ms[..from] + [replacement] + ms[to..]) == Raw(ms)
  {
    assert ms == ms[..from] + ms[from..to] + ms[to..];
    RawConcat(ms[..from], ms[from..to]);
    RawConcat(ms[..from] + ms[from..to], ms[to..]);
    RawConcat(ms[..from], [replacement]);
    RawConcat(ms[..from] + [replacement], ms[to..]);
    RawOfSegments(ms[from..to]);
    RawOfSegments([replacement]);
  }
}
