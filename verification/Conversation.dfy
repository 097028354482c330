/** The shape of a conversation, its frontier as a numeral, and the history it stands for. */
module Conversation {
  import opened Wrappers
  import opened Messages
  import opened ArchiveWalks
  import opened ContextArchive
  import opened Provenance
  import opened Numerals
  import opened Frontier
  import opened Compactor

  // ---- the shape of a conversation ----

  predicate Marked(m: Message) {
    m.Summary? && m.id.Some? && m.depth.Some?
  }

  ghost predicate AllMarked(ms: seq<Message>) {
    forall i :: 0 <= i < |ms| ==> Marked(ms[i])
  }

  ghost predicate AllSystem(ms: seq<Message>) {
    forall i :: 0 <= i < |ms| ==> ms[i].System?
  }

  ghost predicate NoSummary(ms: seq<Message>) {
    forall i :: 0 <= i < |ms| ==> !ms[i].Summary?
  }

  function Head(ms: seq<Message>): seq<Message> {
    ms[..LeadingSystems(ms)]
  }

  function Tail(ms: seq<Message>): seq<Message> {
    var from := LeadingSystems(ms) + |Segments(ms)|;
    if from <= |ms| then ms[from..] else []
  }

  /** System head, then marked summaries only, then messages that are not summaries. */
  ghost predicate Tidy(ms: seq<Message>) {
    ms == Head(ms) + Segments(ms) + Tail(ms) && AllMarked(Segments(ms)) && NoSummary(Tail(ms))
  }

  lemma {:induction false} LeadingSystemsOf(head: seq<Message>, rest: seq<Message>)
    requires AllSystem(head) && (rest == [] || !rest[0].System?)
    ensures LeadingSystems(head + rest) == |head|
  {
    if head == [] {
      assert head + rest == rest;
    } else {
      assert (head + rest)[1..] == head[1..] + rest;
      LeadingSystemsOf(head[1..], rest);
    }
  }

  lemma {:induction false} SegmentsOf(head: seq<Message>, segs: seq<Message>, tail: seq<Message>)
    requires NoSummary(head) && NoSummary(tail) && forall i :: 0 <= i < |segs| ==> segs[i].Summary?
    ensures Segments(head + segs + tail) == segs && Raw(head + segs + tail) == head + tail
  {
    SegmentsConcat(head + segs, tail);
    SegmentsConcat(head, segs);
    RawConcat(head + segs, tail);
    RawConcat(head, segs);
    RawOfRaw(head);
    RawOfRaw(tail);
    RawOfSegments(segs);
    EmptyParts(head, segs, tail);
  }

  lemma {:induction false} EmptyParts(head: seq<Message>, segs: seq<Message>, tail: seq<Message>)
    ensures [] + segs + [] == segs && head + [] + tail == head + tail
  {
  }

  lemma {:induction false} TidyBuild(head: seq<Message>, segs: seq<Message>, tail: seq<Message>)
    requires AllSystem(head) && AllMarked(segs) && NoSummary(tail) && segs != []
    ensures var ms := head + segs + tail; Tidy(ms) && Head(ms) == head && Segments(ms) == segs && Tail(ms) == tail
  {
    var ms := head + segs + tail;
    SegmentsOf(head, segs, tail);
    assert ms == head + (segs + tail);
    assert (segs + tail)[0] == segs[0];
    LeadingSystemsOf(head, segs + tail);
    assert ms[..|head|] == head;
    assert ms[|head| + |segs|..] == tail;
  }

  lemma {:induction false} TidyWithoutSummaries(ms: seq<Message>)
    requires NoSummary(ms)
    ensures Tidy(ms) && Segments(ms) == []
  {
    RawOfRaw(ms);
  }

  lemma {:induction false} TidyAppend(ms: seq<Message>, m: Message)
    requires Tidy(ms) && !m.Summary?
    ensures Tidy(ms + [m]) && Segments(ms + [m]) == Segments(ms)
  {
    var segs := Segments(ms);
    if segs == [] {
      TidyWithoutSummaries(ms + [m]);
    } else {
      TidyBuild(Head(ms), segs, Tail(ms) + [m]);
      assert ms + [m] == Head(ms) + segs + (Tail(ms) + [m]);
    }
  }

  // ---- the frontier of a tidy conversation ----

  function IdOf(m: Message): SummaryId {
    if m.Summary? && m.id.Some? then m.id.value else 0
  }

  function DepthOf(m: Message): nat {
    if m.Summary? && m.depth.Some? then m.depth.value else 0
  }

  function IdsOf(segs: seq<Message>): (r: seq<SummaryId>)
    ensures |r| == |segs| && forall i :: 0 <= i < |segs| ==> r[i] == IdOf(segs[i])
  {
    seq(|segs|, i requires 0 <= i < |segs| => IdOf(segs[i]))
  }

  function DepthsOf(segs: seq<Message>): (r: seq<nat>)
    ensures |r| == |segs| && forall i :: 0 <= i < |segs| ==> r[i] == DepthOf(segs[i])
  {
    seq(|segs|, i requires 0 <= i < |segs| => DepthOf(segs[i]))
  }

  /** A frontier read as a numeral over the archive: disjoint provenance, true depth marks, digits sorted
      from oldest to newest, and a weight equal to the leaves recorded. */
  ghost predicate Front(nodes: seq<Node>, ids: seq<SummaryId>, depths: seq<nat>, b: nat, leaves: nat) {
    && |ids| == |depths|
    && Disjoint(nodes, ids)
    && (forall k :: 0 <= k < |ids| ==> depths[k] == StoredDepth(nodes, ids[k], {}))
    && NonIncreasing(depths)
    && Weight(b, depths) == leaves
  }

  ghost predicate Sound(t: Tables, ms: seq<Message>, b: nat, leaves: nat) {
    Valid(t) && Tidy(ms) && Front(t.nodes, IdsOf(Segments(ms)), DepthsOf(Segments(ms)), b, leaves)
  }

  function ActiveOf(segs: seq<Message>, base: nat): (r: seq<ActiveSummary>)
    requires forall i :: 0 <= i < |segs| ==> segs[i].Summary? && segs[i].id.Some?
    ensures |r| == |segs| && forall i :: 0 <= i < |segs| ==> r[i] == ActiveAt(segs[i], base + i)
  {
    seq(|segs|, i requires 0 <= i < |segs| => ActiveAt(segs[i], base + i))
  }

  lemma {:induction false} ActiveOfRaw(ms: seq<Message>, base: nat)
    requires NoSummary(ms)
    ensures ActiveFrom(ms, base) == []
  {
    if ms != [] {
      ActiveOfRaw(ms[1..], base + 1);
    }
  }

  lemma {:induction false} ActiveOfSegments(segs: seq<Message>, base: nat)
    requires AllMarked(segs)
    ensures ActiveFrom(segs, base) == ActiveOf(segs, base)
  {
    if segs != [] {
      ActiveOfSegments(segs[1..], base + 1);
      assert ActiveOf(segs, base) == [ActiveAt(segs[0], base)] + ActiveOf(segs[1..], base + 1);
    }
  }

  lemma {:induction false} ActiveOfTidy(ms: seq<Message>)
    requires Tidy(ms)
    ensures Active(ms) == ActiveOf(Segments(ms), |Head(ms)|)
  {
    ActiveOfParts(Head(ms), Segments(ms), Tail(ms));
  }

  lemma {:induction false} ActiveOfParts(head: seq<Message>, segs: seq<Message>, tail: seq<Message>)
    requires NoSummary(head) && AllMarked(segs) && NoSummary(tail)
    ensures Active(head + segs + tail) == ActiveOf(segs, |head|)
  {
    ActiveConcat(head + segs, tail, 0);
    ActiveConcat(head, segs, 0);
    ActiveOfRaw(head, 0);
    ActiveOfRaw(tail, |head| + |segs|);
    ActiveOfSegments(segs, |head|);
  }

  /** In a tidy conversation adjacency is automatic: a batch run is a run of equal depths. */
  lemma {:induction false} RunsAreDepthRuns(segs: seq<Message>, base: nat, start: nat, len: nat)
    requires AllMarked(segs)
    ensures start < |segs| ==> (IsBatchRun(ActiveOf(segs, base), start, len) <==> IsRun(DepthsOf(segs), start, len))
  {
    var s := ActiveOf(segs, base);
    if start < |segs| && start + len <= |segs| {
      assert forall k :: start <= k < start + len ==> s[k].depth == DepthsOf(segs)[k] && s[k].index == base + k;
    }
  }

  /** The batch found in a tidy conversation is the first depth run, by position in the frontier. */
  lemma {:induction false} BatchOfTidy(ms: seq<Message>, b: nat, overflow: bool) returns (start: nat)
    requires b >= 1 && Tidy(ms) && MergeableBatch(ms, b, overflow).Some?
    ensures FirstDepthRun(DepthsOf(Segments(ms)), start, RunLength(b, overflow))
    ensures MergeableBatch(ms, b, overflow).value == ActiveOf(Segments(ms), |Head(ms)|)[start..start + b]
  {
    ActiveOfTidy(ms);
    start := FirstRun(Active(ms), RunLength(b, overflow), 0).value;
    FirstBatchRunIsFirstDepthRun(Segments(ms), |Head(ms)|, RunLength(b, overflow));
  }

  ghost predicate FirstDepthRun(depths: seq<nat>, start: nat, len: nat) {
    IsRun(depths, start, len) && forall s :: 0 <= s < start ==> !IsRun(depths, s, len)
  }

  lemma {:induction false} FirstBatchRunIsFirstDepthRun(segs: seq<Message>, base: nat, len: nat)
    requires AllMarked(segs) && len >= 1
    ensures var r := FirstRun(ActiveOf(segs, base), len, 0);
      r.Some? ==> FirstDepthRun(DepthsOf(segs), r.value, len)
  {
    var r := FirstRun(ActiveOf(segs, base), len, 0);
    if r.Some? {
      FirstRunIsFirst(ActiveOf(segs, base), len, 0);
      RunsAreDepthRuns(segs, base, r.value, len);
      forall s | 0 <= s < r.value
        ensures !IsRun(DepthsOf(segs), s, len)
      {
        RunsAreDepthRuns(segs, base, s, len);
      }
    }
  }

  lemma {:induction false} NoBatchOfTidy(ms: seq<Message>, b: nat, overflow: bool)
    requires b >= 1 && Tidy(ms) && MergeableBatch(ms, b, overflow).None?
    ensures NoRun(DepthsOf(Segments(ms)), RunLength(b, overflow))
  {
    var segs, len := Segments(ms), RunLength(b, overflow);
    ActiveOfTidy(ms);
    FirstRunIsFirst(Active(ms), len, 0);
    forall s: nat | s < |segs|
      ensures !IsRun(DepthsOf(segs), s, len)
    {
      RunsAreDepthRuns(segs, |Head(ms)|, s, len);
    }
  }

  // ---- recovering history ----

  /** The messages a conversation stands for: a summary's history in its place, testimony left out. */
  function Recovered(nodes: seq<Node>, trim: map<SummaryId, nat>, ms: seq<Message>): seq<Message> {
    if ms == [] then []
    else (if !ms[0].Summary? then [ms[0]]
          else if ms[0].id.Some? then Originals(Behind(nodes, trim, ms[0].id.value))
          else []) + Recovered(nodes, trim, ms[1..])
  }

  lemma {:induction false} RecoveredConcat(nodes: seq<Node>, trim: map<SummaryId, nat>, a: seq<Message>,
                                           b: seq<Message>)
    ensures Recovered(nodes, trim, a + b) == Recovered(nodes, trim, a) + Recovered(nodes, trim, b)
  {
    if a == [] {
      assert a + b == b;
    } else {
      assert (a + b)[1..] == a[1..] + b;
      RecoveredConcat(nodes, trim, a[1..], b);
    }
  }

  lemma {:induction false} RecoveredRaw(nodes: seq<Node>, trim: map<SummaryId, nat>, ms: seq<Message>)
    requires NoSummary(ms)
    ensures Recovered(nodes, trim, ms) == ms
  {
    if ms != [] {
      RecoveredRaw(nodes, trim, ms[1..]);
    }
  }

  lemma {:induction false} OriginalsConcat(a: seq<MessageId>, b: seq<MessageId>)
    ensures Originals(a + b) == Originals(a) + Originals(b)
  {
  }

  lemma {:induction false} RecoveredSegments(nodes: seq<Node>, trim: map<SummaryId, nat>, segs: seq<Message>)
    requires AllMarked(segs)
    ensures Recovered(nodes, trim, segs) == Originals(JoinBehind(nodes, trim, IdsOf(segs)))
  {
    if segs != [] {
      RecoveredSegments(nodes, trim, segs[1..]);
      assert IdsOf(segs)[1..] == IdsOf(segs[1..]);
      OriginalsConcat(Behind(nodes, trim, IdsOf(segs)[0]), JoinBehind(nodes, trim, IdsOf(segs[1..])));
    }
  }

  lemma {:induction false} RecoveredTidy(nodes: seq<Node>, trim: map<SummaryId, nat>, head: seq<Message>,
                                         segs: seq<Message>, tail: seq<Message>)
    requires NoSummary(head) && AllMarked(segs) && NoSummary(tail)
    ensures Recovered(nodes, trim, head + segs + tail) == head + Originals(JoinBehind(nodes, trim, IdsOf(segs))) + tail
  {
    RecoveredConcat(nodes, trim, head + segs, tail);
    RecoveredConcat(nodes, trim, head, segs);
    RecoveredRaw(nodes, trim, head);
    RecoveredRaw(nodes, trim, tail);
    RecoveredSegments(nodes, trim, segs);
  }
}
