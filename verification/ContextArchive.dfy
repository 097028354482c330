/** The context archive: append-only message and summary tables, written by compactions and read by
    the provenance walks of `ArchiveWalks`. */
module ContextArchive {
  import opened Wrappers
  import opened Messages
  import opened ArchiveWalks

  // ---- writing: the value each write leaves in the tables ----

  function InsertMessageRow(rows: map<MessageId, Row>, m: Message, source: string): map<MessageId, Row> {
    if Hash(m) in rows then rows else rows[Hash(m) := Row(m, source)]
  }

  function InsertAll(rows: map<MessageId, Row>, ms: seq<Message>, source: string): map<MessageId, Row> {
    if ms == [] then rows
    else InsertMessageRow(InsertAll(rows, ms[..|ms| - 1], source), ms[|ms| - 1], source)
  }

  /** Inserting only adds the missing digests, each with its own message; no row ever changes. */
  lemma {:induction false} InsertAllIsAppendOnly(rows: map<MessageId, Row>, ms: seq<Message>, source: string)
    ensures var r := InsertAll(rows, ms, source);
      && (forall id :: id in rows ==> id in r && r[id] == rows[id])
      && (forall id :: id in r <==> id in rows || id.message in ms)
      && (forall id :: id in r && id !in rows ==> r[id] == Row(id.message, source))
  {
    if ms != [] {
      var last := |ms| - 1;
      InsertAllIsAppendOnly(rows, ms[..last], source);
      assert ms == ms[..last] + [ms[last]];
    }
  }

  function Ids(ms: seq<Message>): (r: seq<MessageId>)
    ensures |r| == |ms| && forall i :: 0 <= i < |ms| ==> r[i] == Hash(ms[i])
  {
    seq(|ms|, i requires 0 <= i < |ms| => Hash(ms[i]))
  }

  /** Candidate parents that exist, first occurrences only, in order. */
  function Admitted(candidates: seq<SummaryId>, rowCount: nat): (r: seq<SummaryId>)
    ensures Distinct(r)
    ensures forall x :: x in r <==> x in candidates && x < rowCount
  {
    if candidates == [] then []
    else
      var last := |candidates| - 1;
      var earlier := Admitted(candidates[..last], rowCount);
      assert candidates == candidates[..last] + [candidates[last]];
      if candidates[last] in earlier || candidates[last] >= rowCount then earlier else earlier + [candidates[last]]
  }

  lemma {:induction false} AdmittedKeepsValid(candidates: seq<SummaryId>, rowCount: nat)
    requires Distinct(candidates) && forall x :: x in candidates ==> x < rowCount
    ensures Admitted(candidates, rowCount) == candidates
  {
    if candidates != [] {
      var last := |candidates| - 1;
      assert candidates == candidates[..last] + [candidates[last]];
      forall x | x in candidates[..last] ensures x < rowCount { assert x in candidates; }
      AdmittedKeepsValid(candidates[..last], rowCount);
      assert candidates[last] in candidates;
    }
  }

  lemma {:induction false} InsertAllSnoc(rows: map<MessageId, Row>, ms: seq<Message>, m: Message, source: string)
    ensures InsertAll(rows, ms + [m], source) == InsertMessageRow(InsertAll(rows, ms, source), m, source)
    ensures Ids(ms + [m]) == Ids(ms) + [Hash(m)]
  {
    assert (ms + [m])[..|ms|] == ms;
  }

  lemma {:induction false} RawSnoc(ms: seq<Message>, m: Message)
    ensures Raw(ms + [m]) == if m.Summary? then Raw(ms) else Raw(ms) + [m]
  {
    RawConcat(ms, [m]);
    assert Raw([m]) == if m.Summary? then [] else [m];
  }

  /** The parent named by the marker inside a superseded summary, when there is one. */
  function PriorParent(prior: Option<Message>): seq<SummaryId> {
    if prior.Some? && prior.value.Summary? && prior.value.id.Some? then [prior.value.id.value] else []
  }

  function RecordedParents(t: Tables, prior: Option<Message>, parentIds: seq<SummaryId>): seq<SummaryId> {
    Admitted(if parentIds != [] then parentIds else PriorParent(prior), |t.nodes|)
  }

  function RecordedSources(t: Tables, compacted: seq<Message>, prior: Option<Message>,
                           parentIds: seq<SummaryId>): seq<Message> {
    if RecordedParents(t, prior, parentIds) != [] || prior.None? then compacted else [prior.value] + compacted
  }

  /** The tables after one compaction is recorded; its row is the new last one. */
  function Record(t: Tables, text: string, compacted: seq<Message>, prior: Option<Message>, parentIds: seq<SummaryId>,
                  via: string): Tables {
    var sources := RecordedSources(t, compacted, prior, parentIds);
    Tables(InsertAll(t.messages, sources, "compaction:" + via),
           t.nodes + [Node(text, via, RecordedParents(t, prior, parentIds), Ids(sources))])
  }

  /** One recorded compaction adds one row at the end. Its parents are the candidates that have a row, or for lack of
      candidates the segment it supersedes; a superseded segment that is no parent is linked as its first source. */
  lemma {:induction false} RecordShape(t: Tables, text: string, compacted: seq<Message>, prior: Option<Message>,
                                       parentIds: seq<SummaryId>, via: string)
    ensures var r, n := Record(t, text, compacted, prior, parentIds, via), |t.nodes|;
      && |r.nodes| == n + 1 && r.nodes[..n] == t.nodes && r.nodes[n].text == text && r.nodes[n].via == via
      && Distinct(r.nodes[n].parents)
      && (forall p :: p in r.nodes[n].parents <==>
            p < n && (p in parentIds
                      || (parentIds == [] && prior.Some? && prior.value.Summary? && prior.value.id == Some(p))))
      && r.nodes[n].sources
         == Ids(if prior.Some? && r.nodes[n].parents == [] then [prior.value] + compacted else compacted)
      && (forall id: MessageId :: id in r.messages <==> id in t.messages || id in r.nodes[n].sources)
      && (forall id: MessageId :: id in t.messages ==> r.messages[id] == t.messages[id])
      && (forall id: MessageId :: id in r.messages && id !in t.messages ==>
            r.messages[id] == Row(id.message, "compaction:" + via))
  {
    var sources := RecordedSources(t, compacted, prior, parentIds);
    InsertAllIsAppendOnly(t.messages, sources, "compaction:" + via);
    IdsOfMembers(sources);
  }

  lemma {:induction false} IdsOfMembers(ms: seq<Message>)
    ensures forall id: MessageId :: id in Ids(ms) <==> id.message in ms
  {
    forall id: MessageId | id.message in ms
      ensures id in Ids(ms)
    {
      var k :| 0 <= k < |ms| && ms[k] == id.message;
      assert Ids(ms)[k] == id;
    }
  }

  /** What every sequence of writes keeps: edges point to earlier rows without repetition, every link
      has its message row, and a row is filed under its own digest. */
  ghost predicate Valid(t: Tables) {
    && Acyclic(t.nodes)
    && (forall i :: 0 <= i < |t.nodes| ==> Distinct(t.nodes[i].parents))
    && (forall i, s :: 0 <= i < |t.nodes| && s in t.nodes[i].sources ==> s in t.messages)
    && (forall id :: id in t.messages ==> t.messages[id].message == id.message)
  }

  lemma {:induction false} RecordKeepsValid(t: Tables, text: string, compacted: seq<Message>, prior: Option<Message>,
                                            parentIds: seq<SummaryId>, via: string)
    requires Valid(t)
    ensures Valid(Record(t, text, compacted, prior, parentIds, via))
  {
    var t' := Record(t, text, compacted, prior, parentIds, via);
    var sources := RecordedSources(t, compacted, prior, parentIds);
    InsertAllIsAppendOnly(t.messages, sources, "compaction:" + via);
    forall i, s | 0 <= i < |t'.nodes| && s in t'.nodes[i].sources
      ensures s in t'.messages
    {
      if i < |t.nodes| {
        assert t'.nodes[i] == t.nodes[i];
      } else {
        var k :| 0 <= k < |sources| && Ids(sources)[k] == s;
        assert sources[k] in sources;
      }
    }
  }

  lemma {:induction false} InsertKeepsValid(t: Tables, ms: seq<Message>, source: string)
    requires Valid(t)
    ensures Valid(Tables(InsertAll(t.messages, ms, source), t.nodes))
  {
    InsertAllIsAppendOnly(t.messages, ms, source);
  }

  // ---- reading ----

  /** Direct message ids of the given nodes, node after node. */
  function MessageIds(nodes: seq<Node>, order: seq<SummaryId>): seq<MessageId> {
    if order == [] then [] else Sources(nodes, order[0]) + MessageIds(nodes, order[1..])
  }

  lemma {:induction false} MessageIdsConcat(nodes: seq<Node>, a: seq<SummaryId>, b: seq<SummaryId>)
    ensures MessageIds(nodes, a + b) == MessageIds(nodes, a) + MessageIds(nodes, b)
  {
    if a == [] {
      assert a + b == b;
    } else {
      assert (a + b)[1..] == a[1..] + b;
      MessageIdsConcat(nodes, a[1..], b);
    }
  }

  lemma {:induction false} MessageIdsMembers(nodes: seq<Node>, order: seq<SummaryId>)
    ensures forall m :: m in MessageIds(nodes, order) <==> exists x :: x in order && m in Sources(nodes, x)
  {
    if order != [] {
      MessageIdsMembers(nodes, order[1..]);
      assert forall x :: x in order <==> x == order[0] || x in order[1..];
    }
  }

  function Expansion(nodes: seq<Node>, id: SummaryId): seq<MessageId> {
    MessageIds(nodes, PostWalk(nodes, [id], {}).order)
  }

  /** A message is in the SQL grep scope of a summary when a node of the recursive tree links it. */
  ghost predicate InScope(nodes: seq<Node>, tree: set<SummaryId>, m: MessageId) {
    exists x :: x in tree && m in Sources(nodes, x)
  }

  /** Expand, describe and scoped grep agree: the recursive SQL tree, the node-id walk and the nodes
      behind the expansion are one closure, each of its nodes contributing its links once. */
  lemma {:induction false} WalksAgree(nodes: seq<Node>, id: SummaryId, tree: set<SummaryId>)
    requires IsClosure(nodes, id, tree)
    ensures var order := PostWalk(nodes, [id], {}).order;
      && PostWalk(nodes, [id], {}).seen == tree
      && PreWalk(nodes, [id], None, 0, {}).seen == tree
      && Distinct(order) && Elements(order) == tree
      && Expansion(nodes, id) == MessageIds(nodes, order)
    ensures forall m :: m in Expansion(nodes, id) <==> InScope(nodes, tree, m)
  {
    PostWalkIsClosure(nodes, id);
    assert PostWalk(nodes, [id], {}).seen == tree;
    PreWalkSeesWhatPostWalkSees(nodes, [id], None, 0, {});
    MessageIdsMembers(nodes, PostWalk(nodes, [id], {}).order);
  }

  const DEFAULT_EXPAND_LIMIT := 12
  const MAX_EXPAND_LIMIT := 40

  /** `boundedInteger`: absent, zero and sub-one values fall back, the rest is floored and capped. */
  function Bounded(value: Option<real>, fallback: nat, max: nat): (n: nat)
    requires 1 <= fallback <= max
    ensures 1 <= n <= max
    ensures value.None? || value.value < 1.0 ==> n == fallback
    ensures value.Some? && value.value >= 1.0 ==>
      n as real <= value.value && (n == max || value.value < (n + 1) as real)
  {
    if value.None? || value.value < 1.0 then fallback else Min(value.value.Floor, max)
  }

  function Offset(value: Option<real>): (n: nat)
    ensures value.None? || value.value <= 0.0 ==> n == 0
    ensures value.Some? && value.value > 0.0 ==> n as real <= value.value < (n + 1) as real
  {
    if value.Some? && value.value > 0.0 then value.value.Floor else 0
  }

  /** Up to `limit` elements from `offset` on. */
  function Page<T>(all: seq<T>, offset: nat, limit: nat): (page: seq<T>)
    ensures |page| == Max(0, Min(limit, |all| - offset))
    ensures forall i :: 0 <= i < |page| ==> page[i] == all[offset + i]
  {
    if offset >= |all| then [] else all[offset..Min(offset + limit, |all|)]
  }

  function PageCount(total: nat, limit: nat): nat
    requires limit >= 1
  {
    (total + limit - 1) / limit
  }

  function Pages<T>(all: seq<T>, limit: nat, count: nat): seq<T> {
    if count == 0 then [] else Pages(all, limit, count - 1) + Page(all, (count - 1) * limit, limit)
  }

  lemma {:induction false} PageAfterPrefix<T>(all: seq<T>, from: nat, limit: nat)
    ensures all[..Min(from, |all|)] + Page(all, from, limit) == all[..Min(from + limit, |all|)]
  {
  }

  lemma {:induction false} PagesArePrefix<T>(all: seq<T>, limit: nat, count: nat)
    requires limit >= 1
    ensures Pages(all, limit, count) == all[..Min(count * limit, |all|)]
  {
    if count > 0 {
      PagesArePrefix(all, limit, count - 1);
      PageAfterPrefix(all, (count - 1) * limit, limit);
      assert count * limit == (count - 1) * limit + limit;
    }
  }

  lemma {:induction false} TimesMonotone(x: nat, y: nat, k: nat)
    requires x <= y
    ensures x * k <= y * k
  {
  }

  lemma {:induction false} TimesOneLess(n: nat, k: nat)
    requires n > 0
    ensures (n - 1) * k == n * k - k
  {
  }

  lemma {:induction false} PageCountBounds(total: nat, limit: nat)
    requires limit >= 1
    ensures var n := PageCount(total, limit); n * limit <= total + limit - 1 < n * limit + limit
  {
  }

  lemma {:induction false} PageCountIsCeiling(total: nat, limit: nat, count: nat)
    requires limit >= 1
    ensures count < PageCount(total, limit) <==> count * limit < total
  {
    var n := PageCount(total, limit);
    PageCountBounds(total, limit);
    if count < n {
      TimesMonotone(count, n - 1, limit);
      TimesOneLess(n, limit);
    } else {
      TimesMonotone(n, count, limit);
    }
  }

  /** Reading the estimated number of pages one after the other returns every message once, in order,
      and no smaller number of pages does. */
  lemma {:induction false} PagingIsComplete<T>(all: seq<T>, limit: nat, count: nat)
    requires limit >= 1
    ensures Pages(all, limit, count) == all <==> count >= PageCount(|all|, limit)
  {
    PagesArePrefix(all, limit, count);
    PageCountIsCeiling(|all|, limit, count);
  }

  /** The stored messages behind the ids; an id without a row is skipped. */
  function Lookup(rows: map<MessageId, Row>, ids: seq<MessageId>): seq<Message> {
    if ids == [] then []
    else (if ids[0] in rows then [rows[ids[0]].message] else []) + Lookup(rows, ids[1..])
  }

  function Originals(ids: seq<MessageId>): (r: seq<Message>)
    ensures |r| == |ids| && forall i :: 0 <= i < |ids| ==> r[i] == ids[i].message
  {
    seq(|ids|, i requires 0 <= i < |ids| => ids[i].message)
  }

  lemma {:induction false} LookupConcat(rows: map<MessageId, Row>, a: seq<MessageId>, b: seq<MessageId>)
    ensures Lookup(rows, a + b) == Lookup(rows, a) + Lookup(rows, b)
  {
    if a == [] {
      assert a + b == b;
    } else {
      assert (a + b)[1..] == a[1..] + b;
      LookupConcat(rows, a[1..], b);
    }
  }

  lemma {:induction false} LookupFindsOriginals(rows: map<MessageId, Row>, ids: seq<MessageId>)
    requires forall id :: id in ids ==> id in rows && rows[id].message == id.message
    ensures Lookup(rows, ids) == Originals(ids)
  {
    if ids != [] {
      assert ids[0] in ids;
      LookupFindsOriginals(rows, ids[1..]);
      assert Originals(ids) == [ids[0].message] + Originals(ids[1..]);
    }
  }

  /** In a valid archive no id behind a summary is dangling: expansion restores every original. */
  lemma {:induction false} ExpansionRestoresOriginals(t: Tables, id: SummaryId)
    requires Valid(t)
    ensures Lookup(t.messages, Expansion(t.nodes, id)) == Originals(Expansion(t.nodes, id))
  {
    MessageIdsMembers(t.nodes, PostWalk(t.nodes, [id], {}).order);
    forall m | m in Expansion(t.nodes, id)
      ensures m in t.messages && t.messages[m].message == m.message
    {
      var x :| x in PostWalk(t.nodes, [id], {}).order && m in Sources(t.nodes, x);
      assert m in t.nodes[x].sources;
    }
    LookupFindsOriginals(t.messages, Expansion(t.nodes, id));
  }

  datatype Expanded = Expanded(text: string, via: string, total: nat, offset: nat, limit: nat, messages: seq<Message>)

  datatype Description = Description(
    parentIds: seq<SummaryId>, childIds: set<SummaryId>, depth: nat, nodeCount: nat, manifest: seq<Entry>,
        manifestTruncated: bool,
    totalMessages: nat, estimatedPages: nat)

  class Archive {
    var messages: map<MessageId, Row>
    var nodes: seq<Node>

    function Contents(): Tables
      reads this
    {
      Tables(messages, nodes)
    }

    constructor ()
      ensures messages == map[] && nodes == []
      ensures Valid(Contents())
    {
      messages := map[];
      nodes := [];
    }

    method InsertMessage(m: Message, source: string) returns (id: MessageId)
      modifies this`messages
      ensures id == Hash(m) && messages == InsertMessageRow(old(messages), m, source)
    {
      id := Hash(m);
      if id !in messages {
        messages := messages[id := Row(m, source)];
      }
    }

    /** Persists the non-summary messages of a checkpoint and returns their ids. */
    method ArchiveMessages(ms: seq<Message>, source: string) returns (ids: seq<MessageId>)
      modifies this`messages
      ensures messages == InsertAll(old(messages), Raw(ms), source)
      ensures ids == Ids(Raw(ms))
    {
      ids := [];
      for i := 0 to |ms|
        invariant messages == InsertAll(old(messages), Raw(ms[..i]), source)
        invariant ids == Ids(Raw(ms[..i]))
      {
        assert ms[..i + 1] == ms[..i] + [ms[i]];
        RawSnoc(ms[..i], ms[i]);
        if !ms[i].Summary? {
          InsertAllSnoc(old(messages), Raw(ms[..i]), ms[i], source);
          var id := InsertMessage(ms[i], source);
          ids := ids + [id];
        }
      }
      assert ms[..|ms|] == ms;
    }

    method LinkSources(sources: seq<Message>, source: string) returns (links: seq<MessageId>)
      modifies this`messages
      ensures messages == InsertAll(old(messages), sources, source)
      ensures links == Ids(sources)
    {
      links := [];
      for i := 0 to |sources|
        invariant links == Ids(sources[..i])
        invariant messages == InsertAll(old(messages), sources[..i], source)
      {
        assert sources[..i + 1] == sources[..i] + [sources[i]];
        InsertAllSnoc(old(messages), sources[..i], sources[i], source);
        var link := InsertMessage(sources[i], source);
        links := links + [link];
      }
      assert sources[..|sources|] == sources;
    }

    method ExistingParents(candidates: seq<SummaryId>) returns (parents: seq<SummaryId>)
      ensures parents == Admitted(candidates, |nodes|)
    {
      parents := [];
      for i := 0 to |candidates|
        invariant parents == Admitted(candidates[..i], |nodes|)
      {
        assert candidates[..i + 1][..i] == candidates[..i];
        if candidates[i] !in parents && candidates[i] < |nodes| {
          parents := parents + [candidates[i]];
        }
      }
      assert candidates[..|candidates|] == candidates;
    }

    /** Records one summary row with its ordered parent edges and source links. */
    method RecordCompaction(text: string, compacted: seq<Message>, prior: Option<Message>, parentIds: seq<SummaryId>,
                            via: string)
      returns (id: SummaryId)
      modifies this
      ensures id == |old(nodes)|
      ensures Contents() == Record(old(Contents()), text, compacted, prior, parentIds, via)
    {
      id := |nodes|;
      var parents := ExistingParents(if parentIds != [] then parentIds else PriorParent(prior));
      var sources := if parents != [] || prior.None? then compacted else [prior.value] + compacted;
      var links := LinkSources(sources, "compaction:" + via);
      nodes := nodes + [Node(text, via, parents, links)];
    }

    /** Message ids beneath a summary: inherited first, then direct; `seen` is shared by the recursion. */
    method CollectMessageIds(id: SummaryId, seen: set<SummaryId>) returns (ids: seq<MessageId>, seen': set<SummaryId>)
      ensures ids == MessageIds(nodes, PostWalk(nodes, [id], seen).order)
      ensures seen' == PostWalk(nodes, [id], seen).seen
      decreases Unseen(nodes, seen), 1
    {
      if id in seen {
        return [], seen;
      }
      assert id < |nodes| ==> id in Unseen(nodes, seen);
      seen' := seen + {id};
      ids := [];
      var parents := Parents(nodes, id);
      ghost var up := PostWalk(nodes, parents, seen');
      for k := 0 to |parents|
        invariant seen + {id} <= seen'
        invariant MessageIds(nodes, up.order) == ids + MessageIds(nodes, PostWalk(nodes, parents[k..], seen').order)
        invariant up.seen == PostWalk(nodes, parents[k..], seen').seen
      {
        assert Unseen(nodes, seen') < Unseen(nodes, seen);
        var inherited, seen1 := CollectMessageIds(parents[k], seen');
        MessageIdsUnfold(nodes, parents[k..], seen');
        assert parents[k..][1..] == parents[k + 1..];
        Assoc(ids, inherited, MessageIds(nodes, PostWalk(nodes, parents[k + 1..], seen1).order));
        ids := ids + inherited;
        seen' := seen1;
      }
      assert parents[|parents|..] == [] && ids + [] == ids;
      OwnIdsLast(nodes, id, seen);
      ids := ids + Sources(nodes, id);
    }

    method CollectNodeIds(id: SummaryId, seen: set<SummaryId>) returns (seen': set<SummaryId>)
      ensures seen' == PostWalk(nodes, [id], seen).seen
      decreases Unseen(nodes, seen), 1
    {
      if id in seen {
        return seen;
      }
      assert id < |nodes| ==> id in Unseen(nodes, seen);
      seen' := seen + {id};
      var parents := Parents(nodes, id);
      ghost var up := PostWalk(nodes, parents, seen');
      for k := 0 to |parents|
        invariant seen + {id} <= seen'
        invariant up.seen == PostWalk(nodes, parents[k..], seen').seen
      {
        assert Unseen(nodes, seen') < Unseen(nodes, seen);
        UnfoldWalk(nodes, parents[k..], seen');
        assert parents[k..][1..] == parents[k + 1..];
        seen' := CollectNodeIds(parents[k], seen');
      }
      UnfoldWalk(nodes, [id], seen);
    }

    method CollectManifest(id: SummaryId, child: Option<SummaryId>, depth: nat, seen: set<SummaryId>)
      returns (entries: seq<Entry>, seen': set<SummaryId>)
      ensures Listing(entries, seen') == ManifestWalk(nodes, [id], child, depth, seen)
      decreases Unseen(nodes, seen), 1
    {
      if id in seen || |seen| >= MAX_MANIFEST_NODES {
        return [], seen;
      }
      seen' := seen + {id};
      if id >= |nodes| {
        return [], seen';
      }
      assert id in Unseen(nodes, seen);
      entries := [Entry(id, child, depth)];
      var parents := Parents(nodes, id);
      ghost var up := ManifestWalk(nodes, parents, Some(id), depth + 1, seen');
      for k := 0 to |parents|
        invariant seen + {id} <= seen'
        invariant [Entry(id, child, depth)] + up.entries
            == entries + ManifestWalk(nodes, parents[k..], Some(id), depth + 1, seen').entries
        invariant up.seen == ManifestWalk(nodes, parents[k..], Some(id), depth + 1, seen').seen
      {
        assert Unseen(nodes, seen') < Unseen(nodes, seen);
        UnfoldManifest(nodes, parents[k..], Some(id), depth + 1, seen');
        assert parents[k..][1..] == parents[k + 1..];
        var more, seen1 := CollectManifest(parents[k], Some(id), depth + 1, seen');
        entries := entries + more;
        seen' := seen1;
      }
      UnfoldManifest(nodes, [id], child, depth, seen);
    }

    /** Depth with a copy of the path's `seen` handed to each branch. */
    method SummaryDepth(id: SummaryId, seen: set<SummaryId>) returns (depth: nat)
      ensures depth == StoredDepth(nodes, id, seen)
      decreases Unseen(nodes, seen), 1
    {
      var parents := Parents(nodes, id);
      if id in seen || parents == [] {
        return 0;
      }
      assert id in Unseen(nodes, seen);
      assert Unseen(nodes, seen + {id}) < Unseen(nodes, seen);
      var k := |parents| - 1;
      depth := SummaryDepth(parents[k], seen + {id});
      while k > 0
        invariant 0 <= k < |parents|
        invariant depth == MaxDepth(nodes, parents[k..], seen + {id})
      {
        k := k - 1;
        var d := SummaryDepth(parents[k], seen + {id});
        assert parents[k..][1..] == parents[k + 1..];
        depth := Max(d, depth);
      }
      depth := 1 + depth;
    }

    /** One page of the verbatim messages beneath a summary, or nothing for an unknown id. */
    method Expand(id: SummaryId, offset: Option<real>, limit: Option<real>) returns (result: Option<Expanded>)
      ensures result.None? <==> id >= |nodes|
      ensures result.Some? ==>
        var all := Expansion(nodes, id);
        var from, count := Offset(offset), Bounded(limit, DEFAULT_EXPAND_LIMIT, MAX_EXPAND_LIMIT);
        result.value == Expanded(nodes[id].text, nodes[id].via, |all|, from, count,
            Lookup(messages, Page(all, from, count)))
    {
      if id >= |nodes| {
        return None;
      }
      var all, _ := CollectMessageIds(id, {});
      var from, count := Offset(offset), Bounded(limit, DEFAULT_EXPAND_LIMIT, MAX_EXPAND_LIMIT);
      var selected := Page(all, from, count);
      var found: seq<Message> := [];
      for i := 0 to |selected|
        invariant found == Lookup(messages, selected[..i])
      {
        assert selected[..i + 1] == selected[..i] + [selected[i]];
        LookupConcat(messages, selected[..i], [selected[i]]);
        if selected[i] in messages {
          found := found + [messages[selected[i]].message];
        }
      }
      assert selected[..|selected|] == selected;
      result := Some(Expanded(nodes[id].text, nodes[id].via, |all|, from, count, found));
    }

    /** The figures shown before an expansion: depth, size, and the bounded manifest. */
    method Describe(id: SummaryId) returns (result: Option<Description>)
      requires Valid(Contents())
      ensures result.None? <==> id >= |nodes|
      ensures result.Some? ==>
        var d := result.value;
        var closure := PostWalk(nodes, [id], {}).seen;
        && IsClosure(nodes, id, closure)
        && d.parentIds == nodes[id].parents
        && d.childIds == (set c: SummaryId | 0 <= c < |nodes| && id in nodes[c].parents)
        && (exists path :: IsPath(nodes, path) && path[0] == id && |path| - 1 == d.depth)
        && (forall path :: IsPath(nodes, path) && path[0] == id ==> |path| - 1 <= d.depth)
        && d.nodeCount == |closure|
        && (var preorder := PreWalk(nodes, [id], None, 0, {}).entries;
            |preorder| == |closure| && d.manifest == preorder[..Min(|preorder|, MAX_MANIFEST_NODES)])
        && IsTreeListing(nodes, id, d.manifest)
        && (d.manifestTruncated <==> |closure| > MAX_MANIFEST_NODES)
        && d.totalMessages == |Expansion(nodes, id)|
        && d.estimatedPages == PageCount(d.totalMessages, DEFAULT_EXPAND_LIMIT)
    {
      if id >= |nodes| {
        return None;
      }
      forall i, p | 0 <= i < |nodes| && p in nodes[i].parents ensures p < |nodes| { }
      var all, _ := CollectMessageIds(id, {});
      var manifest, _ := CollectManifest(id, None, 0, {});
      var closure := CollectNodeIds(id, {});
      var depth := SummaryDepth(id, {});
      ManifestOfSummary(nodes, id);
      PreWalkIsTree(nodes, id, |manifest|);
      StoredDepthIsLongestPath(nodes, id, {});
      var children := set c: SummaryId | 0 <= c < |nodes| && id in nodes[c].parents;
      result := Some(Description(nodes[id].parents, children, depth, |closure|, manifest, |closure| > |manifest|,
                                 |all|, PageCount(|all|, DEFAULT_EXPAND_LIMIT)));
    }

    /** `with recursive tree(id) as (select ? union select parent_id ...)`: the queue evaluation of a
        recursive query that drops duplicate rows. */
    method RecursiveTree(id: SummaryId) returns (tree: set<SummaryId>)
      requires Referential(nodes)
      ensures IsClosure(nodes, id, tree)
    {
      tree := {id};
      var queue := [id];
      ReachesSelf(nodes, id);
      while queue != []
        invariant id in tree
        invariant forall x :: x in tree ==> Reaches(nodes, id, x)
        invariant forall x :: x in queue ==> x in tree
        invariant forall x, p :: x in tree && x !in queue && p in Parents(nodes, x) ==> p in tree
        decreases Unseen(nodes, tree), |queue|
      {
        var row := queue[0];
        var parents := Parents(nodes, row);
        ghost var before := tree;
        ghost var rest := queue[1..];
        queue := queue[1..];
        assert forall x :: x in before && x !in rest ==> x == row || x !in [row] + rest;
        for k := 0 to |parents|
          invariant before <= tree && rest <= queue
          invariant tree == before ==> queue == rest
          invariant tree != before ==> Unseen(nodes, tree) < Unseen(nodes, before)
          invariant forall x :: x in tree ==> Reaches(nodes, id, x)
          invariant forall x :: x in queue ==> x in tree
          invariant forall x :: x in tree && x !in before ==> x in queue
          invariant forall j :: 0 <= j < k ==> parents[j] in tree
        {
          var p := parents[k];
          if p !in tree {
            ReachesStep(nodes, id, row, p);
            assert p in nodes[row].parents;
            assert p in Unseen(nodes, tree);
            tree := tree + {p};
            queue := queue + [p];
          }
        }
        assert forall p :: p in parents ==> p in tree;
      }
      ClosureFromInvariant(nodes, id, tree);
    }
  }

  /** One step of a walk over a list: the first root alone, then the others with what it left seen. */
  lemma {:induction false} UnfoldWalk(nodes: seq<Node>, ids: seq<SummaryId>, seen: set<SummaryId>)
    requires ids != []
    ensures var first := PostWalk(nodes, [ids[0]], seen);
      var rest := PostWalk(nodes, ids[1..], first.seen);
      PostWalk(nodes, ids, seen) == Walk(first.order + rest.order, rest.seen)
    ensures ids[0] !in seen ==>
      var up := PostWalk(nodes, Parents(nodes, ids[0]), seen + {ids[0]});
      PostWalk(nodes, [ids[0]], seen) == Walk(up.order + [ids[0]], up.seen)
  {
    assert [ids[0]][1..] == [];
  }

  /** The ids of the first root's walk, then those of the others. */
  lemma {:induction false} MessageIdsUnfold(nodes: seq<Node>, ids: seq<SummaryId>, seen: set<SummaryId>)
    requires ids != []
    ensures var first := PostWalk(nodes, [ids[0]], seen);
      var rest := PostWalk(nodes, ids[1..], first.seen);
      && MessageIds(nodes, PostWalk(nodes, ids, seen).order)
         == MessageIds(nodes, first.order) + MessageIds(nodes, rest.order)
      && PostWalk(nodes, ids, seen).seen == rest.seen
  {
    var first := PostWalk(nodes, [ids[0]], seen);
    UnfoldWalk(nodes, ids, seen);
    MessageIdsConcat(nodes, first.order, PostWalk(nodes, ids[1..], first.seen).order);
  }

  /** The ids of one root's walk: inherited ones, then its own. */
  lemma {:induction false} OwnIdsLast(nodes: seq<Node>, id: SummaryId, seen: set<SummaryId>)
    requires id !in seen
    ensures var up := PostWalk(nodes, Parents(nodes, id), seen + {id});
      && MessageIds(nodes, PostWalk(nodes, [id], seen).order) == MessageIds(nodes, up.order) + Sources(nodes, id)
      && PostWalk(nodes, [id], seen).seen == up.seen
  {
    UnfoldWalk(nodes, [id], seen);
    MessageIdsConcat(nodes, PostWalk(nodes, Parents(nodes, id), seen + {id}).order, [id]);
    assert [id][1..] == [];
    assert MessageIds(nodes, [id]) == Sources(nodes, id) + [];
  }

  lemma {:induction false} UnfoldManifest(nodes: seq<Node>, ids: seq<SummaryId>, child: Option<SummaryId>, depth: nat,
                                          seen: set<SummaryId>)
    requires ids != []
    ensures var first := ManifestWalk(nodes, [ids[0]], child, depth, seen);
      var rest := ManifestWalk(nodes, ids[1..], child, depth, first.seen);
      ManifestWalk(nodes, ids, child, depth, seen) == Listing(first.entries + rest.entries, rest.seen)
  {
    assert [ids[0]][1..] == [];
  }
}
