/** Merging and committing keep the frontier sound and lose no history. */
module History {
  import opened Wrappers
  import opened Messages
  import opened ArchiveWalks
  import opened ContextArchive
  import opened Provenance
  import opened Numerals
  import opened Frontier
  import opened Lcm
  import opened Conversation

  /** The row a merge records: exactly the batch as parents, the testimony as its own sources. */
  lemma {:induction false} MergeRow(t: Tables, text: string, testimony: seq<Message>, parents: seq<SummaryId>,
                                    via: string)
    requires Valid(t) && Disjoint(t.nodes, parents)
    ensures Record(t, text, testimony, None, parents, via).nodes == t.nodes + [Node(text, via, parents, Ids(testimony))]
    ensures Valid(Record(t, text, testimony, None, parents, via))
  {
    AdmittedKeepsValid(parents, |t.nodes|);
    RecordKeepsValid(t, text, testimony, None, parents, via);
  }

  /** The frontier after the segments from `start` to `start + b` give way to one new segment. */
  function Spliced(segs: seq<Message>, start: nat, b: nat, made: Message): seq<Message>
    requires start + b <= |segs|
  {
    segs[..start] + [made] + segs[start + b..]
  }

  lemma {:induction false} SplicedIds(segs: seq<Message>, start: nat, b: nat, made: Message)
    requires start + b <= |segs|
    ensures IdsOf(Spliced(segs, start, b, made)) == IdsOf(segs)[..start] + [IdOf(made)] + IdsOf(segs)[start + b..]
    ensures DepthsOf(Spliced(segs, start, b, made))
         == DepthsOf(segs)[..start] + [DepthOf(made)] + DepthsOf(segs)[start + b..]
  {
  }

  lemma {:induction false} BatchFields(segs: seq<Message>, base: nat, start: nat, b: nat)
    requires AllMarked(segs) && b >= 1 && start + b <= |segs|
    ensures var batch := ActiveOf(segs, base)[start..start + b];
      && batch[0].index == base + start && batch[0].depth == DepthsOf(segs)[start]
      && SegmentIds(batch) == IdsOf(segs)[start..start + b]
  {
    assert ActiveOf(segs, base)[start..start + b][0] == ActiveOf(segs, base)[start];
  }

  lemma {:induction false} SpliceOfParts(head: seq<Message>, segs: seq<Message>, tail: seq<Message>, start: nat, b: nat,
                                         made: Message)
    requires start + b <= |segs|
    ensures var ms := head + segs + tail;
      ms[..|head| + start] + [made] + ms[|head| + start + b..] == head + Spliced(segs, start, b, made) + tail
  {
  }

  /** Where the batch of a tidy conversation lies, and what it carries. */
  lemma {:induction false} BatchFacts(ms: seq<Message>, b: nat, overflow: bool) returns (start: nat)
    requires b >= 2 && Tidy(ms) && MergeableBatch(ms, b, overflow).Some?
    ensures FirstDepthRun(DepthsOf(Segments(ms)), start, RunLength(b, overflow)) && start + b <= |Segments(ms)|
    ensures var batch := MergeableBatch(ms, b, overflow).value;
      && |batch| == b && batch[0].index == |Head(ms)| + start && batch[0].depth == DepthsOf(Segments(ms))[start]
      && SegmentIds(batch) == IdsOf(Segments(ms))[start..start + b]
  {
    start := BatchOfTidy(ms, b, overflow);
    BatchFields(Segments(ms), |Head(ms)|, start, b);
  }

  /** What one merge does to the archive. */
  lemma {:induction false} MergeTables(t: Tables, ms: seq<Message>, b: nat, overflow: bool, text: string,
                                       testimony: seq<Message>, depth: nat, parents: seq<SummaryId>)
    requires b >= 2 && MergeableBatch(ms, b, overflow).Some?
    requires var batch := MergeableBatch(ms, b, overflow).value;
      |batch| == b && batch[0].depth + 1 == depth && SegmentIds(batch) == parents
    ensures MergeOnce(t, ms, b, overflow, MergeableBatch(ms, b, overflow).value, text, testimony).tables
         == Record(t, text, testimony, None, parents, MergeMethod(depth))
  {
  }

  /** What one merge does to the conversation. */
  lemma {:induction false} MergeMessages(t: Tables, ms: seq<Message>, b: nat, overflow: bool, text: string,
                                         testimony: seq<Message>, start: nat, depth: nat, batch: seq<ActiveSummary>)
    requires b >= 2 && Tidy(ms) && MergeableBatch(ms, b, overflow) == Some(batch) && start + b <= |Segments(ms)|
    requires batch[0].index == |Head(ms)| + start && batch[0].depth + 1 == depth
    ensures MergeOnce(t, ms, b, overflow, batch, text, testimony).messages
         == Head(ms) + Spliced(Segments(ms), start, b, SummaryMessage(text, |t.nodes|, depth)) + Tail(ms)
  {
    MergeIsRecorded(t, ms, b, overflow, text, testimony);
    SpliceOfParts(Head(ms), Segments(ms), Tail(ms), start, b, SummaryMessage(text, |t.nodes|, depth));
  }

  /** Depth marks stay true when a run of depth d is merged. */
  lemma {:induction false} MergeDepths(nodes: seq<Node>, node: Node, ids: seq<SummaryId>, depths: seq<nat>, start: nat,
                                       b: nat)
    requires b >= 1 && Acyclic(nodes) && Acyclic(nodes + [node]) && |ids| == |depths|
    requires forall k :: 0 <= k < |ids| ==> ids[k] < |nodes| && depths[k] == StoredDepth(nodes, ids[k], {})
    requires IsRun(depths, start, b) && node.parents == ids[start..start + b]
    ensures var ids', depths' := ids[..start] + [|nodes|] + ids[start + b..], Carry(b, depths, start);
      forall k :: 0 <= k < |ids'| ==> depths'[k] == StoredDepth(nodes + [node], ids'[k], {})
  {
    forall p | p in node.parents
      ensures p < |nodes| && StoredDepth(nodes, p, {}) == depths[start]
    {
      var k :| 0 <= k < b && ids[start..start + b][k] == p;
      assert p == ids[start + k] && depths[start + k] == depths[start];
    }
    RecordedDepth(nodes, node, depths[start]);
    assert node.parents[0] == ids[start];
    forall k | 0 <= k < |ids|
      ensures StoredDepth(nodes + [node], ids[k], {}) == depths[k]
    {
      DepthIgnoresLaterRow(nodes, node, ids[k], {});
    }
    ReplacedDepths(nodes + [node], ids, depths, |nodes|, start, b, depths[start] + 1);
  }

  lemma {:induction false} ReplacedDepths(nodes: seq<Node>, ids: seq<SummaryId>, depths: seq<nat>, id: SummaryId,
                                          start: nat, b: nat, d: nat)
    requires |ids| == |depths| && start + b <= |ids| && StoredDepth(nodes, id, {}) == d
    requires forall k :: 0 <= k < |ids| ==> StoredDepth(nodes, ids[k], {}) == depths[k]
    ensures var ids', depths' := ids[..start] + [id] + ids[start + b..], depths[..start] + [d] + depths[start + b..];
      forall k :: 0 <= k < |ids'| ==> depths'[k] == StoredDepth(nodes, ids'[k], {})
  {
    var ids', depths' := ids[..start] + [id] + ids[start + b..], depths[..start] + [d] + depths[start + b..];
    forall k | 0 <= k < |ids'|
      ensures depths'[k] == StoredDepth(nodes, ids'[k], {})
    {
      if k < start {
        assert ids'[k] == ids[k];
      } else if k > start {
        assert ids'[k] == ids[k - 1 + b];
      }
    }
  }

  /** Carrying the first run of the frontier keeps it a sound numeral over the archive. */
  lemma {:induction false} MergeFront(nodes: seq<Node>, node: Node, ids: seq<SummaryId>, depths: seq<nat>, start: nat,
                                      b: nat, need: nat, leaves: nat)
    requires 1 <= b <= need && Acyclic(nodes) && Acyclic(nodes + [node]) && Front(nodes, ids, depths, b, leaves)
    requires FirstDepthRun(depths, start, need) && node.parents == ids[start..start + b]
    ensures Front(nodes + [node], ids[..start] + [|nodes|] + ids[start + b..], Carry(b, depths, start), b, leaves)
  {
    assert IsRun(depths, start, b);
    MergeKeepsDisjoint(nodes, node, ids, start, start + b);
    MergeDepths(nodes, node, ids, depths, start, b);
    CarryKeepsWeight(b, depths, start);
    CarryKeepsOrder(b, need, depths, start);
  }

  lemma {:induction false} JoinBehindOfParts(nodes: seq<Node>, trim: map<SummaryId, nat>, left: seq<SummaryId>,
                                             mid: seq<SummaryId>, right: seq<SummaryId>)
    ensures JoinBehind(nodes, trim, left + mid + right)
            == JoinBehind(nodes, trim, left) + JoinBehind(nodes, trim, mid) + JoinBehind(nodes, trim, right)
  {
    JoinBehindConcat(nodes, trim, left + mid, right);
    JoinBehindConcat(nodes, trim, left, mid);
  }

  lemma {:induction false} JoinBehindHalves(nodes: seq<Node>, trim: map<SummaryId, nat>, ids: seq<SummaryId>, k: nat)
    requires k <= |ids|
    ensures JoinBehind(nodes, trim, ids) == JoinBehind(nodes, trim, ids[..k]) + JoinBehind(nodes, trim, ids[k..])
  {
    assert ids == ids[..k] + ids[k..];
    JoinBehindConcat(nodes, trim, ids[..k], ids[k..]);
  }

  lemma {:induction false} SingleBehind(nodes: seq<Node>, trim: map<SummaryId, nat>, id: SummaryId)
    ensures JoinBehind(nodes, trim, [id]) == Behind(nodes, trim, id)
  {
    assert [id][1..] == [];
    assert JoinBehind(nodes, trim, []) == [];
  }

  /** A row recorded over a run of the frontier, with `n` testimony sources, stands for the run's history
      followed by its own sources; the rest of the frontier stands for what it did. */
  lemma {:induction false} RecordBehind(nodes: seq<Node>, node: Node, trim: map<SummaryId, nat>, n: nat,
                                        ids: seq<SummaryId>, start: nat, b: nat)
    requires Acyclic(nodes) && Disjoint(nodes, ids) && start + b <= |ids| && node.parents == ids[start..start + b]
    requires n <= |node.sources|
    ensures JoinBehind(nodes + [node], trim[|nodes| := n], ids[..start] + [|nodes|] + ids[start + b..])
            == JoinBehind(nodes, trim, ids[..start + b]) + node.sources[..|node.sources| - n]
                + JoinBehind(nodes, trim, ids[start + b..])
  {
    var nodes', trim' := nodes + [node], trim[|nodes| := n];
    var left, run, right := ids[..start], ids[start..start + b], ids[start + b..];
    var own := node.sources[..|node.sources| - n];
    assert JoinBehind(nodes, trim, ids[..start + b])
        == JoinBehind(nodes, trim, left) + JoinBehind(nodes, trim, run) by {
      assert ids[..start + b] == left + run;
      JoinBehindConcat(nodes, trim, left, run);
    }
    assert JoinBehind(nodes', trim', [|nodes|]) == JoinBehind(nodes, trim, run) + own by {
      DisjointSlice(nodes, ids, start, start + b);
      RecordedBehind(nodes, node, trim, n);
      SingleBehind(nodes', trim', |nodes|);
    }
    assert JoinBehind(nodes', trim', left) == JoinBehind(nodes, trim, left) by {
      BehindIgnoresLaterRow(nodes, node, trim, n, left);
    }
    assert JoinBehind(nodes', trim', right) == JoinBehind(nodes, trim, right) by {
      BehindIgnoresLaterRow(nodes, node, trim, n, right);
    }
    JoinBehindOfParts(nodes', trim', left, [|nodes|], right);
    Regroup(JoinBehind(nodes, trim, left), JoinBehind(nodes, trim, run), own, JoinBehind(nodes, trim, right));
  }

  /** One merge, seen from both sides: the row it adds and the conversation it leaves. */
  lemma {:induction false} MergeShape(t: Tables, ms: seq<Message>, b: nat, overflow: bool, text: string,
                                      testimony: seq<Message>)
    returns (start: nat, node: Node, made: Message)
    requires b >= 2 && Valid(t) && Tidy(ms) && Disjoint(t.nodes, IdsOf(Segments(ms)))
    requires MergeableBatch(ms, b, overflow).Some?
    ensures FirstDepthRun(DepthsOf(Segments(ms)), start, RunLength(b, overflow))
    ensures node.parents == IdsOf(Segments(ms))[start..start + b] && node.sources == Ids(testimony)
    ensures Marked(made) && IdOf(made) == |t.nodes| && DepthOf(made) == DepthsOf(Segments(ms))[start] + 1
    ensures var r := MergeOnce(t, ms, b, overflow, MergeableBatch(ms, b, overflow).value, text, testimony);
      && r.tables.nodes == t.nodes + [node] && Valid(r.tables)
      && r.messages == Head(ms) + Spliced(Segments(ms), start, b, made) + Tail(ms)
  {
    start := BatchFacts(ms, b, overflow);
    var depth, parents := DepthsOf(Segments(ms))[start] + 1, IdsOf(Segments(ms))[start..start + b];
    made := SummaryMessage(text, |t.nodes|, depth);
    node := Node(text, MergeMethod(depth), parents, Ids(testimony));
    MergeTables(t, ms, b, overflow, text, testimony, depth, parents);
    MergeMessages(t, ms, b, overflow, text, testimony, start, depth, MergeableBatch(ms, b, overflow).value);
    DisjointSlice(t.nodes, IdsOf(Segments(ms)), start, start + b);
    MergeRow(t, text, testimony, parents, node.via);
  }

  lemma {:induction false} SplicedFront(nodes: seq<Node>, node: Node, segs: seq<Message>, start: nat, b: nat, need: nat,
                                        made: Message, leaves: nat)
    requires 1 <= b <= need && Acyclic(nodes) && Acyclic(nodes + [node])
    requires Front(nodes, IdsOf(segs), DepthsOf(segs), b, leaves)
    requires FirstDepthRun(DepthsOf(segs), start, need) && node.parents == IdsOf(segs)[start..start + b]
    requires IdOf(made) == |nodes| && DepthOf(made) == DepthsOf(segs)[start] + 1
    ensures Front(nodes + [node], IdsOf(Spliced(segs, start, b, made)), DepthsOf(Spliced(segs, start, b, made)), b,
         leaves)
  {
    SplicedIds(segs, start, b, made);
    MergeFront(nodes, node, IdsOf(segs), DepthsOf(segs), start, b, need, leaves);
  }

  lemma {:induction false} SoundFromParts(t: Tables, head: seq<Message>, segs: seq<Message>, tail: seq<Message>, b: nat,
                                          leaves: nat)
    requires Valid(t) && AllSystem(head) && AllMarked(segs) && NoSummary(tail) && segs != []
    requires Front(t.nodes, IdsOf(segs), DepthsOf(segs), b, leaves)
    ensures Sound(t, head + segs + tail, b, leaves)
    ensures Head(head + segs + tail) == head && Segments(head + segs + tail) == segs && Tail(head + segs + tail) == tail
  {
    TidyBuild(head, segs, tail);
  }

  /** One merge keeps the frontier sound and the history behind the conversation unchanged. */
  lemma {:induction false} MergeKeeps(t: Tables, ms: seq<Message>, b: nat, overflow: bool, text: string,
                                      testimony: seq<Message>, trim: map<SummaryId, nat>, leaves: nat)
    requires b >= 2 && Sound(t, ms, b, leaves) && MergeableBatch(ms, b, overflow).Some?
    ensures var r := MergeOnce(t, ms, b, overflow, MergeableBatch(ms, b, overflow).value, text, testimony);
      && Sound(r.tables, r.messages, b, leaves)
      && |r.tables.nodes| == |t.nodes| + 1
      && Recovered(r.tables.nodes, trim[|t.nodes| := |testimony|], r.messages) == Recovered(t.nodes, trim, ms)
  {
    var start, node, made := MergeShape(t, ms, b, overflow, text, testimony);
    var r := MergeOnce(t, ms, b, overflow, MergeableBatch(ms, b, overflow).value, text, testimony);
    SplicedFront(t.nodes, node, Segments(ms), start, b, RunLength(b, overflow), made, leaves);
    SplicedMarked(Segments(ms), start, b, made);
    SoundFromParts(r.tables, Head(ms), Spliced(Segments(ms), start, b, made), Tail(ms), b, leaves);
    MergeRecovers(t.nodes, node, trim, Head(ms), Segments(ms), Tail(ms), start, b, made);
  }

  lemma {:induction false} MergeBehind(nodes: seq<Node>, node: Node, trim: map<SummaryId, nat>, ids: seq<SummaryId>,
                                       start: nat, b: nat)
    requires Acyclic(nodes) && Disjoint(nodes, ids) && start + b <= |ids| && node.parents == ids[start..start + b]
    ensures JoinBehind(nodes + [node], trim[|nodes| := |node.sources|], ids[..start] + [|nodes|] + ids[start + b..])
            == JoinBehind(nodes, trim, ids)
  {
    RecordBehind(nodes, node, trim, |node.sources|, ids, start, b);
    JoinBehindHalves(nodes, trim, ids, start + b);
    assert JoinBehind(nodes, trim, ids[..start + b]) + [] == JoinBehind(nodes, trim, ids[..start + b]);
  }

  lemma {:induction false} MergeRecovers(nodes: seq<Node>, node: Node, trim: map<SummaryId, nat>, head: seq<Message>,
                                         segs: seq<Message>, tail: seq<Message>, start: nat, b: nat, made: Message)
    requires Acyclic(nodes) && Disjoint(nodes, IdsOf(segs)) && start + b <= |segs|
    requires node.parents == IdsOf(segs)[start..start + b]
    requires NoSummary(head) && AllMarked(segs) && NoSummary(tail) && Marked(made) && IdOf(made) == |nodes|
    ensures Recovered(nodes + [node], trim[|nodes| := |node.sources|], head + Spliced(segs, start, b, made) + tail)
            == Recovered(nodes, trim, head + segs + tail)
  {
    var ids := IdsOf(segs);
    var nodes', trim' := nodes + [node], trim[|nodes| := |node.sources|];
    var merged := Spliced(segs, start, b, made);
    assert JoinBehind(nodes', trim', IdsOf(merged)) == JoinBehind(nodes, trim, ids) by {
      SplicedIds(segs, start, b, made);
      MergeBehind(nodes, node, trim, ids, start, b);
    }
    assert Recovered(nodes, trim, head + segs + tail) == head + Originals(JoinBehind(nodes, trim, ids)) + tail by {
      RecoveredTidy(nodes, trim, head, segs, tail);
    }
    assert Recovered(nodes', trim', head + merged + tail)
        == head + Originals(JoinBehind(nodes', trim', IdsOf(merged))) + tail by {
      SplicedMarked(segs, start, b, made);
      RecoveredTidy(nodes', trim', head, merged, tail);
    }
  }

  lemma {:induction false} SplicedMarked(segs: seq<Message>, start: nat, b: nat, made: Message)
    requires start + b <= |segs| && AllMarked(segs) && Marked(made)
    ensures AllMarked(Spliced(segs, start, b, made))
  {
  }

  /** The ledger after a series of merges, the first of which archived `n` testimony messages. */
  function Trimmed(trim: map<SummaryId, nat>, merged: seq<SummaryId>, n: nat): map<SummaryId, nat>
    decreases |merged|
  {
    if merged == [] then trim else Trimmed(trim[merged[0] := n], merged[1..], 0)
  }

  lemma {:induction false} NormalizeTidy(ms: seq<Message>)
    requires Tidy(ms)
    ensures Normalize(ms) == ms
  {
    forall i | 0 <= i < |ms|
      ensures NormalizeOne(ms[i]) == ms[i]
    {
      var h := |Head(ms)|;
      if h <= i < h + |Segments(ms)| {
        assert ms[i] == Segments(ms)[i - h];
      } else if i >= h {
        assert ms[i] == Tail(ms)[i - h - |Segments(ms)|];
      }
    }
  }

  /** Any number of merges, for any answers, keeps the frontier sound and loses no history. */
  lemma {:induction false} ConsolidateKeeps(t: Tables, ms: seq<Message>, b: nat, overflow: bool,
                                            testimony: seq<Message>, replies: seq<Reply>, trim: map<SummaryId, nat>,
                                            leaves: nat)
    requires b >= 2 && Sound(t, ms, b, leaves)
    ensures var r := ConsolidateFrom(t, ms, b, overflow, testimony, replies);
      && Sound(r.tables, r.messages, b, leaves)
      && |r.tables.nodes| == |t.nodes| + |r.merged|
      && Recovered(r.tables.nodes, Trimmed(trim, r.merged, |testimony|), r.messages) == Recovered(t.nodes, trim, ms)
    decreases |ms|
  {
    var batch := MergeableBatch(ms, b, overflow);
    if batch.Some? && MergeText(batch.value, Next(replies)).Some? {
      var text := MergeText(batch.value, Next(replies)).value;
      var step := MergeOnce(t, ms, b, overflow, batch.value, text, testimony);
      MergeKeeps(t, ms, b, overflow, text, testimony, trim, leaves);
      ConsolidateKeeps(step.tables, step.messages, b, overflow, [], Later(replies), trim[|t.nodes| := |testimony|],
                       leaves);
      var rest := ConsolidateFrom(step.tables, step.messages, b, overflow, [], Later(replies));
      assert ([|t.nodes|] + rest.merged)[1..] == rest.merged;
    }
  }

  lemma {:induction false} OneMergeShorter(n: int, k: nat, b: nat, last: int)
    requires last == n - b + 1 - k * (b - 1)
    ensures last == n - (k + 1) * (b - 1)
  {
  }

  /** The merge loop ends for every summarizer: each merge shortens the conversation by b - 1. */
  lemma {:induction false} MergesShrink(t: Tables, ms: seq<Message>, b: nat, overflow: bool, testimony: seq<Message>,
                                        replies: seq<Reply>, r: Consolidated)
    requires b >= 2 && r == ConsolidateFrom(t, ms, b, overflow, testimony, replies)
    ensures |r.messages| == |ms| - |r.merged| * (b - 1)
    decreases |ms|
  {
    if r.merged != [] {
      var step, rest := FirstMerge(t, ms, b, overflow, testimony, replies);
      MergesShrink(step.tables, step.messages, b, overflow, [], Later(replies), rest);
      OneMergeShorter(|ms|, |rest.merged|, b, |r.messages|);
    } else {
      NoMergeNoChange(t, ms, b, overflow, testimony, replies);
    }
  }

  /** The answers left after `n` questions. */
  function Without(replies: seq<Reply>, n: nat): seq<Reply> {
    if n <= |replies| then replies[n..] else []
  }

  /** The answer to the question asked after `k` earlier ones. */
  function AnswerAt(replies: seq<Reply>, k: nat): Reply {
    if k < |replies| then replies[k] else Unavailable
  }

  /** Merging stops only when no batch is left or the summarizer rejects the batch it is asked about. */
  lemma {:induction false} StopsOnlyWhenDeclined(t: Tables, ms: seq<Message>, b: nat, overflow: bool,
                                                 testimony: seq<Message>, replies: seq<Reply>, r: Consolidated)
    requires b >= 2 && r == ConsolidateFrom(t, ms, b, overflow, testimony, replies)
    ensures var batch := MergeableBatch(r.messages, b, overflow);
      && (batch.Some? ==> !Passes(AnswerAt(replies, |r.merged|), BodyChars(batch.value)))
      && r.rest == Without(replies, |r.merged| + if batch.Some? then 1 else 0)
    decreases |ms|
  {
    if r.merged != [] {
      var step, rest := FirstMerge(t, ms, b, overflow, testimony, replies);
      StopsOnlyWhenDeclined(step.tables, step.messages, b, overflow, [], Later(replies), rest);
      AnswersLeft(replies, |rest.merged|);
      AnswersLeft(replies, |rest.merged| + 1);
    } else {
      StopsAtOnce(t, ms, b, overflow, testimony, replies);
    }
  }

  lemma {:induction false} AnswersLeft(replies: seq<Reply>, n: nat)
    ensures AnswerAt(replies, n + 1) == AnswerAt(Later(replies), n)
    ensures Without(replies, n + 1) == Without(Later(replies), n)
  {
  }

  lemma {:induction false} StopsAtOnce(t: Tables, ms: seq<Message>, b: nat, overflow: bool, testimony: seq<Message>,
                                       replies: seq<Reply>)
    requires b >= 2 && ConsolidateFrom(t, ms, b, overflow, testimony, replies).merged == []
    ensures var r, batch := ConsolidateFrom(t, ms, b, overflow, testimony, replies), MergeableBatch(ms, b, overflow);
      && r.messages == ms
      && (batch.Some? ==> !Passes(AnswerAt(replies, 0), BodyChars(batch.value)))
      && r.rest == Without(replies, if batch.Some? then 1 else 0)
  {
    if MergeableBatch(ms, b, overflow).Some? {
      MergeTextIff(ms, b, overflow, Next(replies));
    }
  }

  /** The k-th row that merging adds has the k-th answer's text; the first also links the exchange. */
  ghost predicate MergedRow(nodes: seq<Node>, id: SummaryId, answer: Reply, testimony: seq<Message>) {
    id < |nodes| && answer.Text? && nodes[id].text == answer.text && nodes[id].sources == Ids(testimony)
  }

  lemma {:induction false} FirstMerge(t: Tables, ms: seq<Message>, b: nat, overflow: bool, testimony: seq<Message>,
                                      replies: seq<Reply>) returns (step: Consolidated, rest: Consolidated)
    requires b >= 2 && ConsolidateFrom(t, ms, b, overflow, testimony, replies).merged != []
    ensures rest == ConsolidateFrom(step.tables, step.messages, b, overflow, [], Later(replies))
    ensures var r := ConsolidateFrom(t, ms, b, overflow, testimony, replies);
      r == Consolidated(rest.tables, rest.messages, [|t.nodes|] + rest.merged, rest.rest)
    ensures |step.messages| == |ms| - b + 1 && |step.tables.nodes| == |t.nodes| + 1
    ensures MergedRow(rest.tables.nodes, |t.nodes|, AnswerAt(replies, 0), testimony)
  {
    var batch := MergeableBatch(ms, b, overflow).value;
    MergeTextIff(ms, b, overflow, Next(replies));
    step := MergeOnce(t, ms, b, overflow, batch, Next(replies).text, testimony);
    rest := ConsolidateFrom(step.tables, step.messages, b, overflow, [], Later(replies));
    MergeIsRecorded(t, ms, b, overflow, Next(replies).text, testimony);
    MergesAppendRows(step.tables, step.messages, b, overflow, [], Later(replies));
    RowsKept(step.tables.nodes, rest.tables.nodes, |t.nodes|);
  }

  lemma {:induction false} RowsKept(before: seq<Node>, after: seq<Node>, id: SummaryId)
    requires |before| <= |after| && after[..|before|] == before && id < |before|
    ensures after[id] == before[id]
  {
    assert after[..|before|][id] == before[id];
  }

  /** The merged rows have the texts of the answers, in order; the exchange goes to the first. */
  ghost predicate TakesAnswers(nodes: seq<Node>, merged: seq<SummaryId>, replies: seq<Reply>, testimony: seq<Message>)
    decreases |merged|
  {
    merged != [] ==>
      && MergedRow(nodes, merged[0], AnswerAt(replies, 0), testimony)
      && TakesAnswers(nodes, merged[1..], Later(replies), [])
  }

  lemma {:induction false} TakesAnswersFrom(nodes: seq<Node>, first: SummaryId, merged: seq<SummaryId>,
                                            replies: seq<Reply>, testimony: seq<Message>)
    requires MergedRow(nodes, first, AnswerAt(replies, 0), testimony) && TakesAnswers(nodes, merged, Later(replies), [])
    ensures TakesAnswers(nodes, [first] + merged, replies, testimony)
  {
    assert ([first] + merged)[1..] == merged;
  }

  lemma {:induction false} MergesTakeAnswersInOrder(t: Tables, ms: seq<Message>, b: nat, overflow: bool,
                                                    testimony: seq<Message>, replies: seq<Reply>)
    requires b >= 2
    ensures var r := ConsolidateFrom(t, ms, b, overflow, testimony, replies);
      TakesAnswers(r.tables.nodes, r.merged, replies, testimony)
    decreases |ms|
  {
    if ConsolidateFrom(t, ms, b, overflow, testimony, replies).merged != [] {
      var step, rest := FirstMerge(t, ms, b, overflow, testimony, replies);
      MergesTakeAnswersInOrder(step.tables, step.messages, b, overflow, [], Later(replies));
      TakesAnswersFrom(rest.tables.nodes, |t.nodes|, rest.merged, replies, testimony);
    }
  }

  lemma {:induction false} MergesAppendRows(t: Tables, ms: seq<Message>, b: nat, overflow: bool,
                                            testimony: seq<Message>, replies: seq<Reply>)
    requires b >= 2
    ensures var r := ConsolidateFrom(t, ms, b, overflow, testimony, replies);
      |r.tables.nodes| == |t.nodes| + |r.merged| && r.tables.nodes[..|t.nodes|] == t.nodes
    decreases |ms|
  {
    var batch := MergeableBatch(ms, b, overflow);
    if batch.Some? && MergeText(batch.value, Next(replies)).Some? {
      var text := MergeText(batch.value, Next(replies)).value;
      var step := MergeOnce(t, ms, b, overflow, batch.value, text, testimony);
      MergeIsRecorded(t, ms, b, overflow, text, testimony);
      MergesAppendRows(step.tables, step.messages, b, overflow, [], Later(replies));
    }
  }
}
