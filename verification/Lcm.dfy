/** The layered-memory engine: committing a leaf segment and merging same-depth segments. */
module Lcm {
  import opened Decimal
  import opened Wrappers
  import opened Messages
  import opened ArchiveWalks
  import opened ContextArchive
  import opened Frontier

  /** One answer of the summarizer; `Unavailable` is an open circuit, an error or a rejected call. */
  datatype Reply = Unavailable | Text(text: string, meta: bool)

  function Next(replies: seq<Reply>): Reply {
    if replies == [] then Unavailable else replies[0]
  }

  function Later(replies: seq<Reply>): (r: seq<Reply>)
    ensures |r| <= |replies|
  {
    if replies == [] then [] else replies[1..]
  }

  const MIN_REDUCTION := 0.1
  const MIN_SUMMARY_CHARS := 80

  /** The acceptance gate both kinds of summary share: long enough, not a meta-reply, shorter by a tenth. */
  predicate Accepts(reply: Reply, replacedChars: nat) {
    && reply.Text?
    && |reply.text| >= MIN_SUMMARY_CHARS
    && !reply.meta
    && !((|reply.text| as real) > (replacedChars as real) * (1.0 - MIN_REDUCTION))
  }

  /** In whole numbers: a text of 80 characters or more, no meta-reply, at most nine tenths of what it replaces. */
  ghost predicate Passes(reply: Reply, replacedChars: nat) {
    reply.Text? && !reply.meta && 80 <= |reply.text| && 10 * |reply.text| <= 9 * replacedChars
  }

  lemma {:induction false} AcceptsIffPasses(reply: Reply, replacedChars: nat)
    ensures Accepts(reply, replacedChars) <==> Passes(reply, replacedChars)
  {
    if reply.Text? {
      assert (replacedChars as real) * (1.0 - MIN_REDUCTION) == (9 * replacedChars) as real / 10.0;
      assert |reply.text| as real == (10 * |reply.text|) as real / 10.0;
    }
  }

  function BodyChars(segments: seq<ActiveSummary>): nat {
    if segments == [] then 0 else |segments[0].text| + BodyChars(segments[1..])
  }

  function MergeText(segments: seq<ActiveSummary>, reply: Reply): Option<string> {
    if |segments| < 2 then None
    else if exists k :: 0 <= k < |segments| && segments[k].depth != segments[0].depth then None
    else if Accepts(reply, BodyChars(segments)) then Some(reply.text)
    else None
  }

  lemma {:induction false} BodyCharsIsLength(segments: seq<ActiveSummary>)
    ensures BodyChars(segments) == |Flatten(seq(|segments|, i requires 0 <= i < |segments| => segments[i].text))|
  {
    if segments != [] {
      var texts := seq(|segments|, i requires 0 <= i < |segments| => segments[i].text);
      BodyCharsIsLength(segments[1..]);
      assert texts[1..] == seq(|segments[1..]|, i requires 0 <= i < |segments[1..]| => segments[1..][i].text);
    }
  }

  /** A batch found is merged into the answer's text exactly when the answer passes the gate over the batch's bodies. */
  lemma {:induction false} MergeTextIff(ms: seq<Message>, b: nat, overflow: bool, reply: Reply)
    requires b >= 2 && MergeableBatch(ms, b, overflow).Some?
    ensures var batch := MergeableBatch(ms, b, overflow).value;
      MergeText(batch, reply) == if Passes(reply, BodyChars(batch)) then Some(reply.text) else None
  {
    var batch := MergeableBatch(ms, b, overflow).value;
    forall k | 0 <= k < |batch|
      ensures batch[k].depth == batch[0].depth
    {
      BatchMember(ms, b, overflow, k);
    }
    AcceptsIffPasses(reply, BodyChars(batch));
  }

  datatype Consolidated = Consolidated(tables: Tables, messages: seq<Message>, merged: seq<SummaryId>, rest: seq<Reply>)

  function MergeMethod(depth: nat): string {
    "lcm-merge-d" + Digits(depth)
  }

  /** Merging until no batch is left or the summarizer declines; testimony goes to the first merge. */
  function ConsolidateFrom(t: Tables, ms: seq<Message>, b: nat, overflow: bool, testimony: seq<Message>,
                           replies: seq<Reply>): Consolidated
    requires b >= 2
    decreases |ms|
  {
    match MergeableBatch(ms, b, overflow)
    case None => Consolidated(t, ms, [], replies)
    case Some(batch) =>
      match MergeText(batch, Next(replies))
      case None => Consolidated(t, ms, [], Later(replies))
      case Some(text) =>
        var merged := MergeOnce(t, ms, b, overflow, batch, text, testimony);
        var r := ConsolidateFrom(merged.tables, merged.messages, b, overflow, [], Later(replies));
        r.(merged := merged.merged + r.merged)
  }

  /** A consolidation that follows the given merges. */
  function After(merged: seq<SummaryId>, r: Consolidated): Consolidated {
    r.(merged := merged + r.merged)
  }

  lemma {:induction false} AfterTwice(a: seq<SummaryId>, b: seq<SummaryId>, r: Consolidated)
    ensures After(a, After(b, r)) == After(a + b, r)
  {
    Assoc(a, b, r.merged);
  }

  lemma {:induction false} ConsolidateCounts(t: Tables, ms: seq<Message>, b: nat, overflow: bool,
                                             testimony: seq<Message>, replies: seq<Reply>, step: Consolidated)
    requires b >= 2 && MergeableBatch(ms, b, overflow).Some?
    requires var batch := MergeableBatch(ms, b, overflow).value;
      && MergeText(batch, Next(replies)).Some?
      && step == MergeOnce(t, ms, b, overflow, batch, MergeText(batch, Next(replies)).value, testimony)
    ensures var r := ConsolidateFrom(t, ms, b, overflow, testimony, replies);
      var rest := ConsolidateFrom(step.tables, step.messages, b, overflow, [], Later(replies));
      r.messages == rest.messages && r.tables == rest.tables && |r.merged| == 1 + |rest.merged|
  {
  }

  lemma {:induction false} NoMergeNoChange(t: Tables, ms: seq<Message>, b: nat, overflow: bool, testimony: seq<Message>,
                                           replies: seq<Reply>)
    requires b >= 2 && ConsolidateFrom(t, ms, b, overflow, testimony, replies).merged == []
    ensures var r := ConsolidateFrom(t, ms, b, overflow, testimony, replies); r.tables == t && r.messages == ms
  {
  }

  /** One merge: the batch becomes the parents of a row one level deeper and its message is replaced. */
  function MergeOnce(t: Tables, ms: seq<Message>, b: nat, overflow: bool, batch: seq<ActiveSummary>, text: string,
                     testimony: seq<Message>): (r: Consolidated)
    requires b >= 2 && MergeableBatch(ms, b, overflow) == Some(batch)
    ensures |r.messages| == |ms| - b + 1
  {
    var depth := batch[0].depth + 1;
    var replacement := SummaryMessage(text, |t.nodes|, depth);
    MergeIsSplice(ms, b, overflow, replacement);
    Consolidated(Record(t, text, testimony, None, SegmentIds(batch), MergeMethod(depth)),
                 ReplaceBatch(ms, batch, replacement), [|t.nodes|], [])
  }

  /** What one merge does: a row with the text, the batch's ids as parents and the testimony as sources; and in place
      of the batch, a segment of that row, one level deeper. */
  lemma {:induction false} MergeIsRecorded(t: Tables, ms: seq<Message>, b: nat, overflow: bool, text: string,
                                           testimony: seq<Message>)
    requires b >= 2 && MergeableBatch(ms, b, overflow).Some?
    ensures var batch := MergeableBatch(ms, b, overflow).value;
      var r, n, depth := MergeOnce(t, ms, b, overflow, batch, text, testimony), |t.nodes|, batch[0].depth + 1;
      && |r.tables.nodes| == n + 1 && r.tables.nodes[..n] == t.nodes && r.merged == [n]
      && r.tables.nodes[n].text == text && r.tables.nodes[n].via == "lcm-merge-d" + Digits(depth)
      && r.tables.nodes[n].sources == Ids(testimony)
      && (forall p :: p in r.tables.nodes[n].parents <==> p < n && exists k :: 0 <= k < b && batch[k].id == p)
      && batch[0].index + b <= |ms|
      && r.messages
         == ms[..batch[0].index] + [Summary(Some(n), Some(depth), text)] + ms[batch[0].index + b..]
  {
    var batch := MergeableBatch(ms, b, overflow).value;
    MergeIsSplice(ms, b, overflow, SummaryMessage(text, |t.nodes|, batch[0].depth + 1));
    RecordShape(t, text, testimony, None, SegmentIds(batch), MergeMethod(batch[0].depth + 1));
    assert |SegmentIds(batch)| == b;
  }

  function Consolidate(t: Tables, ms: seq<Message>, b: nat, overflow: bool, testimony: seq<Message>,
                       replies: seq<Reply>): Consolidated
    requires b >= 2
  {
    ConsolidateFrom(t, Normalize(ms), b, overflow, testimony, replies)
  }

  predicate CanConsolidate(ms: seq<Message>, b: nat)
    requires b >= 2
  {
    MergeableBatch(Normalize(ms), b, false).Some?
  }

  /** A freshly summarized conversation: the new list with its id-less segment, and what it replaced. */
  datatype Compaction = Compaction(messages: seq<Message>, compacted: seq<Message>, text: string)

  function CommitLeaf(t: Tables, c: Compaction, via: string): Consolidated {
    Consolidated(Record(t, c.text, c.compacted, None, [], via), Normalize(Attach(c.messages, |t.nodes|, 0)),
        [|t.nodes|], [])
  }

  /** What recording a leaf does: a parentless row with the text, linked to everything folded. */
  lemma {:induction false} LeafIsRecorded(t: Tables, c: Compaction, via: string)
    ensures var r, n := CommitLeaf(t, c, via), |t.nodes|;
      && |r.tables.nodes| == n + 1 && r.tables.nodes[..n] == t.nodes
      && r.tables.nodes[n] == Node(c.text, via, [], Ids(c.compacted))
  {
    RecordShape(t, c.text, c.compacted, None, [], via);
  }

  /** Record the leaf, mark its segment, then merge while a run exceeds the batch size. */
  function Commit(t: Tables, c: Compaction, b: nat, via: string, replies: seq<Reply>): Consolidated
    requires b >= 2
  {
    var leaf := CommitLeaf(t, c, via);
    Consolidate(leaf.tables, leaf.messages, b, true, [], replies)
  }

  /** The search loop of `findMergeableContextSummaryBatch`. */
  method FindMergeableBatch(ms: seq<Message>, b: nat, overflow: bool) returns (batch: Option<seq<ActiveSummary>>)
    requires b >= 2
    ensures batch == MergeableBatch(ms, b, overflow)
  {
    var summaries := Active(ms);
    var required := RunLength(b, overflow);
    var start := 0;
    while start + required <= |summaries|
      invariant FirstRun(summaries, required, 0) == FirstRun(summaries, required, start)
    {
      if IsBatchRun(summaries, start, required) {
        return Some(summaries[start..start + b]);
      }
      start := start + 1;
    }
    return None;
  }

  class LcmEngine {
    const archive: Archive
    const batchSize: nat

    constructor (archive: Archive, batchSize: int)
      ensures this.archive == archive && this.batchSize == Max(2, batchSize)
    {
      this.archive := archive;
      this.batchSize := Max(2, batchSize);
    }

    /** Records one merged segment and puts it in place of its batch. */
    method RecordMerge(ms: seq<Message>, overflow: bool, batch: seq<ActiveSummary>, text: string,
                       testimony: seq<Message>)
      returns (id: SummaryId, messages: seq<Message>)
      requires batchSize >= 2 && MergeableBatch(ms, batchSize, overflow) == Some(batch)
      modifies archive
      ensures Consolidated(archive.Contents(), messages, [id], [])
              == MergeOnce(old(archive.Contents()), ms, batchSize, overflow, batch, text, testimony)
    {
      var depth := batch[0].depth + 1;
      id := archive.RecordCompaction(text, testimony, None, SegmentIds(batch), MergeMethod(depth));
      messages := ReplaceBatch(ms, batch, SummaryMessage(text, id, depth));
    }

    /** The merge loop; `replies` are the summarizer's answers in order, `rest` those not asked for. */
    method ConsolidateFrontier(initial: seq<Message>, overflow: bool, testimony: seq<Message>, replies: seq<Reply>)
      returns (messages: seq<Message>, merged: seq<SummaryId>, activeIds: seq<SummaryId>, rest: seq<Reply>)
      requires batchSize >= 2
      modifies archive
      ensures Consolidated(archive.Contents(), messages, merged, rest)
              == Consolidate(old(archive.Contents()), initial, batchSize, overflow, testimony, replies)
      ensures activeIds == ActiveIds(messages)
    {
      messages, merged, rest := Normalize(initial), [], replies;
      var pending := testimony;
      ghost var goal := Consolidate(archive.Contents(), initial, batchSize, overflow, testimony, replies);
      while true
        invariant goal == After(merged,
            ConsolidateFrom(archive.Contents(), messages, batchSize, overflow, pending, rest))
        decreases |messages|
      {
        var batch := FindMergeableBatch(messages, batchSize, overflow);
        if batch.None? {
          break;
        }
        var text := MergeText(batch.value, Next(rest));
        rest := Later(rest);
        if text.None? {
          break;
        }
        var id;
        id, messages := RecordMerge(messages, overflow, batch.value, text.value, pending);
        AfterTwice(merged, [id], ConsolidateFrom(archive.Contents(), messages, batchSize, overflow, [], rest));
        pending := [];
        merged := merged + [id];
      }
      activeIds := ActiveIds(messages);
    }

    method CommitCompaction(c: Compaction, via: string, replies: seq<Reply>)
      returns (messages: seq<Message>, leaf: SummaryId, merged: seq<SummaryId>, activeIds: seq<SummaryId>,
          rest: seq<Reply>)
      requires batchSize >= 2
      modifies archive
      ensures leaf == |old(archive.nodes)|
      ensures Consolidated(archive.Contents(), messages, merged, rest)
           == Commit(old(archive.Contents()), c, batchSize, via, replies)
      ensures activeIds == ActiveIds(messages)
    {
      leaf := archive.RecordCompaction(c.text, c.compacted, None, [], via);
      var marked := Normalize(Attach(c.messages, leaf, 0));
      messages, merged, activeIds, rest := ConsolidateFrontier(marked, true, [], replies);
    }
  }
}
