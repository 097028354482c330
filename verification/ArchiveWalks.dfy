/** Provenance walks over the parent edges of the context archive. */
module ArchiveWalks {
  import opened Wrappers
  import opened Messages

  /** Content-addressed message id: the digest is taken to be injective, so it is the message itself. */
  datatype MessageId = Hash(message: Message)

  datatype Row = Row(message: Message, source: string)

  datatype Node = Node(text: string, via: string, parents: seq<SummaryId>, sources: seq<MessageId>)

  /** The four tables: messages, and per summary its row, ordered parents and ordered sources. */
  datatype Tables = Tables(messages: map<MessageId, Row>, nodes: seq<Node>)

  function Parents(nodes: seq<Node>, id: SummaryId): seq<SummaryId> {
    if id < |nodes| then nodes[id].parents else []
  }

  function Sources(nodes: seq<Node>, id: SummaryId): seq<MessageId> {
    if id < |nodes| then nodes[id].sources else []
  }

  ghost predicate Acyclic(nodes: seq<Node>) {
    forall i, p :: 0 <= i < |nodes| && p in nodes[i].parents ==> p < i
  }

  // ---- the closure every walk is measured against ----

  ghost predicate IsPath(nodes: seq<Node>, path: seq<SummaryId>) {
    && path != []
    && forall i :: 0 <= i < |path| - 1 ==> path[i + 1] in Parents(nodes, path[i])
  }

  ghost predicate PathBetween(nodes: seq<Node>, path: seq<SummaryId>, a: SummaryId, b: SummaryId) {
    IsPath(nodes, path) && path[0] == a && path[|path| - 1] == b
  }

  /** `b` is `a` or an ancestor of `a`. */
  ghost predicate Reaches(nodes: seq<Node>, a: SummaryId, b: SummaryId) {
    exists path :: PathBetween(nodes, path, a, b)
  }

  lemma {:induction false} ReachesSelf(nodes: seq<Node>, a: SummaryId)
    ensures Reaches(nodes, a, a)
  {
    assert PathBetween(nodes, [a], a, a);
  }

  lemma {:induction false} ReachesStep(nodes: seq<Node>, a: SummaryId, b: SummaryId, c: SummaryId)
    requires Reaches(nodes, a, b) && c in Parents(nodes, b)
    ensures Reaches(nodes, a, c)
  {
    var path :| PathBetween(nodes, path, a, b);
    assert PathBetween(nodes, path + [c], a, c);
  }

  ghost predicate ClosedUnderParents(nodes: seq<Node>, s: set<SummaryId>) {
    forall x, p :: x in s && p in Parents(nodes, x) ==> p in s
  }

  lemma {:induction false} ClosedContainsReachable(nodes: seq<Node>, s: set<SummaryId>, a: SummaryId,
                                                   path: seq<SummaryId>)
    requires ClosedUnderParents(nodes, s) && a in s
    requires IsPath(nodes, path) && path[0] == a
    ensures path[|path| - 1] in s
    decreases |path|
  {
    if |path| > 1 {
      assert path[1] in Parents(nodes, path[0]);
      forall i | 0 <= i < |path[1..]| - 1
        ensures path[1..][i + 1] in Parents(nodes, path[1..][i])
      {
        assert path[i + 2] in Parents(nodes, path[i + 1]);
      }
      ClosedContainsReachable(nodes, s, path[1], path[1..]);
    }
  }

  /** `s` is exactly the reflexive-transitive closure of `id` under the parent edges. */
  ghost predicate IsClosure(nodes: seq<Node>, id: SummaryId, s: set<SummaryId>) {
    forall x: SummaryId :: x in s <==> Reaches(nodes, id, x)
  }

  lemma {:induction false} ClosureFromInvariant(nodes: seq<Node>, id: SummaryId, s: set<SummaryId>)
    requires id in s && ClosedUnderParents(nodes, s)
    requires forall x :: x in s ==> Reaches(nodes, id, x)
    ensures IsClosure(nodes, id, s)
  {
    forall x: SummaryId | Reaches(nodes, id, x)
      ensures x in s
    {
      var path :| PathBetween(nodes, path, id, x);
      ClosedContainsReachable(nodes, s, id, path);
    }
  }

  // ---- depth-first walk with a shared `seen` set ----

  /** Nodes finished by a walk, in finishing order, and the `seen` set it leaves behind. */
  datatype Walk = Walk(order: seq<SummaryId>, seen: set<SummaryId>)

  function Unseen(nodes: seq<Node>, seen: set<SummaryId>): set<SummaryId> {
    set i: SummaryId | 0 <= i < |nodes| && i !in seen
  }

  /** The walk shared by the message-id and node-id collectors: parents before the node itself,
      one `seen` set threaded through the whole forest. */
  function PostWalk(nodes: seq<Node>, ids: seq<SummaryId>, seen: set<SummaryId>): (w: Walk)
    ensures seen <= w.seen
    decreases Unseen(nodes, seen), |ids|
  {
    if ids == [] then Walk([], seen)
    else if ids[0] in seen then PostWalk(nodes, ids[1..], seen)
    else
      assert ids[0] < |nodes| ==> ids[0] in Unseen(nodes, seen);
      assert ids[0] >= |nodes| ==> Unseen(nodes, seen + {ids[0]}) == Unseen(nodes, seen);
      var up := PostWalk(nodes, Parents(nodes, ids[0]), seen + {ids[0]});
      var rest := PostWalk(nodes, ids[1..], up.seen);
      Walk(up.order + [ids[0]] + rest.order, rest.seen)
  }

  lemma {:induction false} ReachesFirst(nodes: seq<Node>, a: SummaryId, p: SummaryId, b: SummaryId)
    requires p in Parents(nodes, a) && Reaches(nodes, p, b)
    ensures Reaches(nodes, a, b)
  {
    var path :| PathBetween(nodes, path, p, b);
    assert PathBetween(nodes, [a] + path, a, b);
  }

  /** What one walk over any graph, cyclic or not, leaves behind: each new node once, only nodes
      reachable from the roots, and every parent of a new node seen. */
  lemma {:induction false} PostWalkFacts(nodes: seq<Node>, ids: seq<SummaryId>, seen: set<SummaryId>)
    ensures var w := PostWalk(nodes, ids, seen);
      && w.seen == seen + Elements(w.order)
      && Distinct(w.order)
      && (forall x :: x in w.order ==> x !in seen)
      && (forall x, p :: x in w.order && p in Parents(nodes, x) ==> p in w.seen)
      && (forall id :: id in ids ==> id in w.seen)
      && (forall x :: x in w.order ==> exists r :: r in ids && Reaches(nodes, r, x))
    decreases Unseen(nodes, seen), |ids|
  {
    if ids != [] {
      var id := ids[0];
      if id in seen {
        PostWalkFacts(nodes, ids[1..], seen);
      } else {
        assert id < |nodes| ==> id in Unseen(nodes, seen);
        assert id >= |nodes| ==> Unseen(nodes, seen + {id}) == Unseen(nodes, seen);
        var up := PostWalk(nodes, Parents(nodes, id), seen + {id});
        PostWalkFacts(nodes, Parents(nodes, id), seen + {id});
        PostWalkFacts(nodes, ids[1..], up.seen);
        DistinctConcat(up.order, [id]);
        DistinctConcat(up.order + [id], PostWalk(nodes, ids[1..], up.seen).order);
        forall x | x in PostWalk(nodes, ids, seen).order
          ensures exists r :: r in ids && Reaches(nodes, r, x)
        {
          if x == id {
            ReachesSelf(nodes, id);
          } else if x in up.order {
            var p :| p in Parents(nodes, id) && Reaches(nodes, p, x);
            ReachesFirst(nodes, id, p, x);
          }
        }
      }
    }
  }

  /** The node-id walk covers exactly the closure, in any graph. */
  lemma {:induction false} PostWalkIsClosure(nodes: seq<Node>, id: SummaryId)
    ensures IsClosure(nodes, id, PostWalk(nodes, [id], {}).seen)
    ensures Distinct(PostWalk(nodes, [id], {}).order)
    ensures Elements(PostWalk(nodes, [id], {}).order) == PostWalk(nodes, [id], {}).seen
  {
    PostWalkFacts(nodes, [id], {});
    ClosureFromInvariant(nodes, id, PostWalk(nodes, [id], {}).seen);
  }

  // ---- the manifest: a preorder walk stopped after a fixed number of nodes ----

  const MAX_MANIFEST_NODES := 16

  datatype Entry = Entry(summaryId: SummaryId, parent: Option<SummaryId>, depthFromRoot: nat)

  datatype Listing = Listing(entries: seq<Entry>, seen: set<SummaryId>)

  /** The uncapped preorder: a node, then its parents' subtrees, one shared `seen` set. */
  function PreWalk(nodes: seq<Node>, ids: seq<SummaryId>, child: Option<SummaryId>, depth: nat,
                   seen: set<SummaryId>): (w: Listing)
    ensures seen <= w.seen
    decreases Unseen(nodes, seen), |ids|
  {
    if ids == [] then Listing([], seen)
    else if ids[0] in seen then PreWalk(nodes, ids[1..], child, depth, seen)
    else
      assert ids[0] < |nodes| ==> ids[0] in Unseen(nodes, seen);
      assert ids[0] >= |nodes| ==> Unseen(nodes, seen + {ids[0]}) == Unseen(nodes, seen);
      var up := PreWalk(nodes, Parents(nodes, ids[0]), Some(ids[0]), depth + 1, seen + {ids[0]});
      var rest := PreWalk(nodes, ids[1..], child, depth, up.seen);
      Listing([Entry(ids[0], child, depth)] + up.entries + rest.entries, rest.seen)
  }

  /** The walk the manifest really does: it also stops once `seen` holds sixteen ids, and a row that
      is missing is marked seen without being listed. */
  function ManifestWalk(nodes: seq<Node>, ids: seq<SummaryId>, child: Option<SummaryId>, depth: nat,
                        seen: set<SummaryId>): (w: Listing)
    ensures seen <= w.seen
    decreases Unseen(nodes, seen), |ids|
  {
    if ids == [] then Listing([], seen)
    else if ids[0] in seen || |seen| >= MAX_MANIFEST_NODES then ManifestWalk(nodes, ids[1..], child, depth, seen)
    else if ids[0] >= |nodes| then
      assert Unseen(nodes, seen + {ids[0]}) == Unseen(nodes, seen);
      ManifestWalk(nodes, ids[1..], child, depth, seen + {ids[0]})
    else
      assert ids[0] in Unseen(nodes, seen);
      var up := ManifestWalk(nodes, Parents(nodes, ids[0]), Some(ids[0]), depth + 1, seen + {ids[0]});
      var rest := ManifestWalk(nodes, ids[1..], child, depth, up.seen);
      Listing([Entry(ids[0], child, depth)] + up.entries + rest.entries, rest.seen)
  }

  function EntryIds(entries: seq<Entry>): seq<SummaryId> {
    seq(|entries|, i requires 0 <= i < |entries| => entries[i].summaryId)
  }

  lemma {:induction false} PreWalkSeesWhatPostWalkSees(nodes: seq<Node>, ids: seq<SummaryId>, child: Option<SummaryId>,
                                                       depth: nat, seen: set<SummaryId>)
    ensures PreWalk(nodes, ids, child, depth, seen).seen == PostWalk(nodes, ids, seen).seen
    decreases Unseen(nodes, seen), |ids|
  {
    if ids != [] {
      var id := ids[0];
      if id in seen {
        PreWalkSeesWhatPostWalkSees(nodes, ids[1..], child, depth, seen);
      } else {
        assert id < |nodes| ==> id in Unseen(nodes, seen);
        assert id >= |nodes| ==> Unseen(nodes, seen + {id}) == Unseen(nodes, seen);
        var up := PreWalk(nodes, Parents(nodes, id), Some(id), depth + 1, seen + {id});
        PreWalkSeesWhatPostWalkSees(nodes, Parents(nodes, id), Some(id), depth + 1, seen + {id});
        PreWalkSeesWhatPostWalkSees(nodes, ids[1..], child, depth, up.seen);
      }
    }
  }

  lemma {:induction false} EntryIdsConcat(a: seq<Entry>, b: seq<Entry>)
    ensures Elements(EntryIds(a + b)) == Elements(EntryIds(a)) + Elements(EntryIds(b))
  {
    assert EntryIds(a + b) == EntryIds(a) + EntryIds(b);
  }

  lemma {:induction false} ListedParts(seen: set<SummaryId>, entry: Entry, up: seq<Entry>, upSeen: set<SummaryId>,
                                       rest: seq<Entry>, restSeen: set<SummaryId>)
    requires entry.summaryId !in seen && upSeen == seen + {entry.summaryId} + Elements(EntryIds(up))
    requires |upSeen| == |seen| + 1 + |up|
    requires restSeen == upSeen + Elements(EntryIds(rest)) && |restSeen| == |upSeen| + |rest|
    ensures restSeen == seen + Elements(EntryIds([entry] + up + rest)) && |restSeen| == |seen| + |[entry] + up + rest|
  {
    EntryIdsConcat([entry], up);
    EntryIdsConcat([entry] + up, rest);
    assert EntryIds([entry]) == [entry.summaryId];
    var ids := [entry.summaryId] + EntryIds(up) + EntryIds(rest);
    assert forall x :: x in ids <==> x == entry.summaryId || x in EntryIds(up) || x in EntryIds(rest);
  }

  /** The preorder lists each node it newly sees once: as many entries as new ids. */
  lemma {:induction false} PreWalkListsEachOnce(nodes: seq<Node>, ids: seq<SummaryId>, child: Option<SummaryId>,
                                                depth: nat, seen: set<SummaryId>)
    ensures var w := PreWalk(nodes, ids, child, depth, seen);
      w.seen == seen + Elements(EntryIds(w.entries)) && |w.seen| == |seen| + |w.entries|
    decreases Unseen(nodes, seen), |ids|
  {
    if ids != [] {
      var id := ids[0];
      if id in seen {
        PreWalkListsEachOnce(nodes, ids[1..], child, depth, seen);
      } else {
        assert id < |nodes| ==> id in Unseen(nodes, seen);
        assert id >= |nodes| ==> Unseen(nodes, seen + {id}) == Unseen(nodes, seen);
        var up := PreWalk(nodes, Parents(nodes, id), Some(id), depth + 1, seen + {id});
        var rest := PreWalk(nodes, ids[1..], child, depth, up.seen);
        PreWalkListsEachOnce(nodes, Parents(nodes, id), Some(id), depth + 1, seen + {id});
        PreWalkListsEachOnce(nodes, ids[1..], child, depth, up.seen);
        ListedParts(seen, Entry(id, child, depth), up.entries, up.seen, rest.entries, rest.seen);
      }
    }
  }

  // ---- where the preorder puts each entry ----

  /** Entry `i` is listed below entry `j`: a parent of its node, one step further from the root, with nothing but
      deeper or equally deep entries between. */
  ghost predicate HangsFrom(nodes: seq<Node>, es: seq<Entry>, j: nat, i: nat)
    requires j < i < |es|
  {
    && es[i].parent == Some(es[j].summaryId) && es[i].summaryId in Parents(nodes, es[j].summaryId)
    && es[i].depthFromRoot == es[j].depthFromRoot + 1
    && forall m :: j < m < i ==> es[m].depthFromRoot >= es[i].depthFromRoot
  }

  /** Entry `i` is one of the roots, or hangs from an earlier entry. */
  ghost predicate Placed(nodes: seq<Node>, ids: seq<SummaryId>, child: Option<SummaryId>, depth: nat, es: seq<Entry>,
                         i: nat)
    requires i < |es|
  {
    || (es[i].summaryId in ids && es[i].parent == child && es[i].depthFromRoot == depth)
    || exists j :: 0 <= j < i && HangsFrom(nodes, es, j, i)
  }

  ghost predicate AllPlaced(nodes: seq<Node>, ids: seq<SummaryId>, child: Option<SummaryId>, depth: nat,
                            es: seq<Entry>)
  {
    forall i :: 0 <= i < |es| ==> Placed(nodes, ids, child, depth, es, i)
  }

  ghost predicate AsDeepAs(es: seq<Entry>, depth: nat) {
    forall i :: 0 <= i < |es| ==> es[i].depthFromRoot >= depth
  }

  lemma {:induction false} HangsShifted(nodes: seq<Node>, front: seq<Entry>, es: seq<Entry>, back: seq<Entry>, j: nat,
                                        i: nat)
    requires j < i < |es|
    ensures HangsFrom(nodes, front + es + back, |front| + j, |front| + i) <==> HangsFrom(nodes, es, j, i)
  {
    var all := front + es + back;
    assert forall m :: 0 <= m < |es| ==> all[|front| + m] == es[m];
    if HangsFrom(nodes, es, j, i) {
      assert forall m :: |front| + j < m < |front| + i ==> all[m] == es[m - |front|];
    }
    if HangsFrom(nodes, all, |front| + j, |front| + i) {
      forall m | j < m < i
        ensures es[m].depthFromRoot >= es[i].depthFromRoot
      {
        assert all[|front| + m] == es[m];
      }
    }
  }

  lemma {:induction false} PlacedShifted(nodes: seq<Node>, ids: seq<SummaryId>, child: Option<SummaryId>, depth: nat,
                                         front: seq<Entry>, es: seq<Entry>, back: seq<Entry>, i: nat,
                                         more: seq<SummaryId>)
    requires i < |es| && Placed(nodes, ids, child, depth, es, i) && forall x :: x in ids ==> x in more
    ensures Placed(nodes, more, child, depth, front + es + back, |front| + i)
  {
    assert (front + es + back)[|front| + i] == es[i];
    if !(es[i].summaryId in ids && es[i].parent == child && es[i].depthFromRoot == depth) {
      var j :| 0 <= j < i && HangsFrom(nodes, es, j, i);
      HangsShifted(nodes, front, es, back, j, i);
    }
  }

  /** The roots of the walk of a node's parents hang from that node's own entry. */
  lemma {:induction false} PlacedBelow(nodes: seq<Node>, entry: Entry, up: seq<Entry>, rest: seq<Entry>, i: nat,
                                       ids: seq<SummaryId>)
    requires i < |up| && entry.summaryId in ids && AsDeepAs(up, entry.depthFromRoot + 1)
    requires Placed(nodes, Parents(nodes, entry.summaryId), Some(entry.summaryId), entry.depthFromRoot + 1, up, i)
    ensures Placed(nodes, ids, entry.parent, entry.depthFromRoot, [entry] + up + rest, 1 + i)
  {
    var all := [entry] + up + rest;
    assert all[1 + i] == up[i];
    if exists j :: 0 <= j < i && HangsFrom(nodes, up, j, i) {
      var j :| 0 <= j < i && HangsFrom(nodes, up, j, i);
      HangsShifted(nodes, [entry], up, rest, j, i);
    } else {
      assert forall m :: 0 < m < 1 + i ==> all[m] == up[m - 1];
      assert HangsFrom(nodes, all, 0, 1 + i);
    }
  }

  /** In the preorder every entry is a root or hangs from the entry of its child, the last earlier one that is less
      deep: the parents and depths listed are those of the tree walked. */
  lemma {:induction false} PreWalkPlacesEach(nodes: seq<Node>, ids: seq<SummaryId>, child: Option<SummaryId>,
                                             depth: nat, seen: set<SummaryId>)
    ensures var es := PreWalk(nodes, ids, child, depth, seen).entries;
      AsDeepAs(es, depth) && AllPlaced(nodes, ids, child, depth, es)
    decreases Unseen(nodes, seen), |ids|
  {
    if ids != [] {
      var id := ids[0];
      if id in seen {
        PreWalkPlacesEach(nodes, ids[1..], child, depth, seen);
        PlacedAmongMore(nodes, ids, child, depth, PreWalk(nodes, ids[1..], child, depth, seen).entries);
      } else {
        assert id < |nodes| ==> id in Unseen(nodes, seen);
        assert id >= |nodes| ==> Unseen(nodes, seen + {id}) == Unseen(nodes, seen);
        var up := PreWalk(nodes, Parents(nodes, id), Some(id), depth + 1, seen + {id});
        var rest := PreWalk(nodes, ids[1..], child, depth, up.seen);
        PreWalkPlacesEach(nodes, Parents(nodes, id), Some(id), depth + 1, seen + {id});
        PreWalkPlacesEach(nodes, ids[1..], child, depth, up.seen);
        PlacedTogether(nodes, ids, Entry(id, child, depth), up.entries, rest.entries);
      }
    }
  }

  lemma {:induction false} PlacedAmongMore(nodes: seq<Node>, ids: seq<SummaryId>, child: Option<SummaryId>,
                                           depth: nat, es: seq<Entry>)
    requires ids != [] && AllPlaced(nodes, ids[1..], child, depth, es)
    ensures AllPlaced(nodes, ids, child, depth, es)
  {
    assert [] + es + [] == es;
    forall i | 0 <= i < |es|
      ensures Placed(nodes, ids, child, depth, es, i)
    {
      PlacedShifted(nodes, ids[1..], child, depth, [], es, [], i, ids);
    }
  }

  lemma {:induction false} PlacedTogether(nodes: seq<Node>, ids: seq<SummaryId>, entry: Entry, up: seq<Entry>,
                                          rest: seq<Entry>)
    requires ids != [] && entry.summaryId == ids[0] && AsDeepAs(up, entry.depthFromRoot + 1)
    requires AsDeepAs(rest, entry.depthFromRoot)
    requires AllPlaced(nodes, Parents(nodes, ids[0]), Some(ids[0]), entry.depthFromRoot + 1, up)
    requires AllPlaced(nodes, ids[1..], entry.parent, entry.depthFromRoot, rest)
    ensures var es := [entry] + up + rest;
      AsDeepAs(es, entry.depthFromRoot) && AllPlaced(nodes, ids, entry.parent, entry.depthFromRoot, es)
  {
    var es := [entry] + up + rest;
    forall i | 0 <= i < |es|
      ensures es[i].depthFromRoot >= entry.depthFromRoot
      ensures Placed(nodes, ids, entry.parent, entry.depthFromRoot, es, i)
    {
      if 0 < i <= |up| {
        PlacedBelow(nodes, entry, up, rest, i - 1, ids);
        assert es[i] == up[i - 1];
      } else if i > |up| {
        assert ([entry] + up) + rest + [] == es && es[i] == rest[i - 1 - |up|];
        PlacedShifted(nodes, ids[1..], entry.parent, entry.depthFromRoot, [entry] + up, rest, [], i - 1 - |up|, ids);
      }
    }
  }

  // ---- siblings in order ----

  /** `x` stands before `y` in the list. */
  ghost predicate StandsBefore(ids: seq<SummaryId>, x: SummaryId, y: SummaryId) {
    exists a, b :: 0 <= a < b < |ids| && ids[a] == x && ids[b] == y
  }

  lemma {:induction false} StandsBeforeInRest(ids: seq<SummaryId>, x: SummaryId, y: SummaryId)
    requires ids != [] && (StandsBefore(ids[1..], x, y) || (x == ids[0] && y in ids[1..]))
    ensures StandsBefore(ids, x, y)
  {
    if StandsBefore(ids[1..], x, y) {
      var a, b :| 0 <= a < b < |ids[1..]| && ids[1..][a] == x && ids[1..][b] == y;
      assert ids[a + 1] == x && ids[b + 1] == y;
    } else {
      var b :| 0 <= b < |ids[1..]| && ids[1..][b] == y;
      assert ids[b + 1] == y;
    }
  }

  /** Only roots are at the depth of the walk. */
  lemma {:induction false} RootDepth(nodes: seq<Node>, ids: seq<SummaryId>, child: Option<SummaryId>, depth: nat,
                                     es: seq<Entry>, i: nat)
    requires i < |es| && AsDeepAs(es, depth) && Placed(nodes, ids, child, depth, es, i)
    ensures es[i].depthFromRoot == depth ==> es[i].summaryId in ids && es[i].parent == child
  {
  }

  lemma {:induction false} RootsInOrder(nodes: seq<Node>, ids: seq<SummaryId>, child: Option<SummaryId>, depth: nat,
                                        seen: set<SummaryId>, i: nat, k: nat)
    requires var es := PreWalk(nodes, ids, child, depth, seen).entries;
      i < k < |es| && es[i].depthFromRoot == es[k].depthFromRoot == depth
    ensures var es := PreWalk(nodes, ids, child, depth, seen).entries;
      StandsBefore(ids, es[i].summaryId, es[k].summaryId)
    decreases Unseen(nodes, seen), |ids|
  {
    var es, id := PreWalk(nodes, ids, child, depth, seen).entries, ids[0];
    if id in seen {
      RootsInOrder(nodes, ids[1..], child, depth, seen, i, k);
    } else {
      assert id < |nodes| ==> id in Unseen(nodes, seen);
      assert id >= |nodes| ==> Unseen(nodes, seen + {id}) == Unseen(nodes, seen);
      var up := PreWalk(nodes, Parents(nodes, id), Some(id), depth + 1, seen + {id});
      var rest := PreWalk(nodes, ids[1..], child, depth, up.seen);
      PreWalkPlacesEach(nodes, Parents(nodes, id), Some(id), depth + 1, seen + {id});
      PreWalkPlacesEach(nodes, ids[1..], child, depth, up.seen);
      OnlyRoots(Entry(id, child, depth), up.entries, rest.entries, k);
      RootDepth(nodes, ids[1..], child, depth, rest.entries, k - 1 - |up.entries|);
      if i > 0 {
        OnlyRoots(Entry(id, child, depth), up.entries, rest.entries, i);
        RootsInOrder(nodes, ids[1..], child, depth, up.seen, i - 1 - |up.entries|, k - 1 - |up.entries|);
      }
    }
    StandsBeforeInRest(ids, es[i].summaryId, es[k].summaryId);
  }

  lemma {:induction false} OnlyRoots(entry: Entry, up: seq<Entry>, rest: seq<Entry>, i: nat)
    requires AsDeepAs(up, entry.depthFromRoot + 1) && 0 < i < |[entry] + up + rest|
    requires ([entry] + up + rest)[i].depthFromRoot == entry.depthFromRoot
    ensures i > |up| && ([entry] + up + rest)[i] == rest[i - 1 - |up|]
  {
  }

  lemma {:induction false} StaysInSubtree(nodes: seq<Node>, entry: Entry, up: seq<Entry>, rest: seq<Entry>, j: nat,
                                          i: nat)
    requires AsDeepAs(up, entry.depthFromRoot + 1) && (rest != [] ==> rest[0].depthFromRoot == entry.depthFromRoot)
    requires j <= |up| && j < i < |[entry] + up + rest| && HangsFrom(nodes, [entry] + up + rest, j, i)
    ensures i <= |up|
  {
    if rest != [] {
      assert ([entry] + up + rest)[1 + |up|] == rest[0];
    }
  }

  /** Entries that hang from one entry stand in the order of that node's parent list. */
  ghost predicate SiblingsOrdered(nodes: seq<Node>, es: seq<Entry>) {
    forall j: nat, i: nat, k: nat :: Siblings(nodes, es, j, i, k) ==> InOrder(nodes, es, j, i, k)
  }

  ghost predicate RootsOrdered(ids: seq<SummaryId>, depth: nat, es: seq<Entry>) {
    forall i, k :: 0 <= i < k < |es| && es[i].depthFromRoot == es[k].depthFromRoot == depth
      ==> StandsBefore(ids, es[i].summaryId, es[k].summaryId)
  }

  ghost predicate Siblings(nodes: seq<Node>, es: seq<Entry>, j: nat, i: nat, k: nat) {
    j < i < k < |es| && HangsFrom(nodes, es, j, i) && HangsFrom(nodes, es, j, k)
  }

  ghost predicate InOrder(nodes: seq<Node>, es: seq<Entry>, j: nat, i: nat, k: nat)
    requires j < |es| && i < |es| && k < |es|
  {
    StandsBefore(Parents(nodes, es[j].summaryId), es[i].summaryId, es[k].summaryId)
  }

  /** The order of the siblings of a part is that of the whole. */
  lemma {:induction false} OrderedInPart(nodes: seq<Node>, front: seq<Entry>, part: seq<Entry>, back: seq<Entry>,
                                         j: nat, i: nat, k: nat)
    requires Siblings(nodes, part, j, i, k) ==> InOrder(nodes, part, j, i, k)
    requires j < i < k < |part| && Siblings(nodes, front + part + back, |front| + j, |front| + i, |front| + k)
    ensures InOrder(nodes, front + part + back, |front| + j, |front| + i, |front| + k)
  {
    HangsShifted(nodes, front, part, back, j, i);
    HangsShifted(nodes, front, part, back, j, k);
    assert (front + part + back)[|front| + j] == part[j] && (front + part + back)[|front| + i] == part[i]
        && (front + part + back)[|front| + k] == part[k];
  }

  lemma {:induction false} OrderedBelow(nodes: seq<Node>, entry: Entry, up: seq<Entry>, rest: seq<Entry>, i: nat,
                                        k: nat)
    requires RootsOrdered(Parents(nodes, entry.summaryId), entry.depthFromRoot + 1, up)
    requires 0 < i < k <= |up| && Siblings(nodes, [entry] + up + rest, 0, i, k)
    ensures InOrder(nodes, [entry] + up + rest, 0, i, k)
  {
    var es := [entry] + up + rest;
    assert es[0] == entry && es[i] == up[i - 1] && es[k] == up[k - 1];
  }

  lemma {:induction false} OrderedTogether(nodes: seq<Node>, entry: Entry, up: seq<Entry>, rest: seq<Entry>, j: nat,
                                           i: nat, k: nat)
    requires AsDeepAs(up, entry.depthFromRoot + 1) && (rest != [] ==> rest[0].depthFromRoot == entry.depthFromRoot)
    requires RootsOrdered(Parents(nodes, entry.summaryId), entry.depthFromRoot + 1, up)
    requires Siblings(nodes, [entry] + up + rest, j, i, k)
    requires SiblingsOrdered(nodes, up) && SiblingsOrdered(nodes, rest)
    ensures InOrder(nodes, [entry] + up + rest, j, i, k)
  {
    var n := 1 + |up|;
    if j < n {
      StaysInSubtree(nodes, entry, up, rest, j, i);
      StaysInSubtree(nodes, entry, up, rest, j, k);
      if j > 0 {
        OrderedInPart(nodes, [entry], up, rest, j - 1, i - 1, k - 1);
      } else {
        OrderedBelow(nodes, entry, up, rest, i, k);
      }
    } else {
      assert ([entry] + up) + rest + [] == [entry] + up + rest;
      OrderedInPart(nodes, [entry] + up, rest, [], j - n, i - n, k - n);
    }
  }

  /** The preorder lists the parents of each node in their own order. */
  lemma {:induction false} PreWalkOrdersSiblings(nodes: seq<Node>, ids: seq<SummaryId>, child: Option<SummaryId>,
                                                 depth: nat, seen: set<SummaryId>)
    ensures var es := PreWalk(nodes, ids, child, depth, seen).entries;
      SiblingsOrdered(nodes, es) && RootsOrdered(ids, depth, es)
    decreases Unseen(nodes, seen), |ids|
  {
    var es := PreWalk(nodes, ids, child, depth, seen).entries;
    forall i, k | 0 <= i < k < |es| && es[i].depthFromRoot == es[k].depthFromRoot == depth
      ensures StandsBefore(ids, es[i].summaryId, es[k].summaryId)
    {
      RootsInOrder(nodes, ids, child, depth, seen, i, k);
    }
    if ids != [] {
      var id := ids[0];
      if id in seen {
        PreWalkOrdersSiblings(nodes, ids[1..], child, depth, seen);
      } else {
        assert id < |nodes| ==> id in Unseen(nodes, seen);
        assert id >= |nodes| ==> Unseen(nodes, seen + {id}) == Unseen(nodes, seen);
        var up := PreWalk(nodes, Parents(nodes, id), Some(id), depth + 1, seen + {id});
        var rest := PreWalk(nodes, ids[1..], child, depth, up.seen).entries;
        PreWalkOrdersSiblings(nodes, Parents(nodes, id), Some(id), depth + 1, seen + {id});
        PreWalkOrdersSiblings(nodes, ids[1..], child, depth, up.seen);
        PreWalkPlacesEach(nodes, Parents(nodes, id), Some(id), depth + 1, seen + {id});
        PreWalkPlacesEach(nodes, ids[1..], child, depth, up.seen);
        assert rest != [] ==> Placed(nodes, ids[1..], child, depth, rest, 0);
        AllOrderedTogether(nodes, Entry(id, child, depth), up.entries, rest);
      }
    }
  }

  lemma {:induction false} AllOrderedTogether(nodes: seq<Node>, entry: Entry, up: seq<Entry>, rest: seq<Entry>)
    requires AsDeepAs(up, entry.depthFromRoot + 1) && (rest != [] ==> rest[0].depthFromRoot == entry.depthFromRoot)
    requires SiblingsOrdered(nodes, up) && SiblingsOrdered(nodes, rest)
    requires RootsOrdered(Parents(nodes, entry.summaryId), entry.depthFromRoot + 1, up)
    ensures SiblingsOrdered(nodes, [entry] + up + rest)
  {
    var es := [entry] + up + rest;
    forall j: nat, i: nat, k: nat | Siblings(nodes, es, j, i, k)
      ensures InOrder(nodes, es, j, i, k)
    {
      OrderedTogether(nodes, entry, up, rest, j, i, k);
    }
  }

  /** A listing of the nodes behind `id` as a tree: the root first, every other entry hung from an earlier one, and
      the parents of each node in their own order. */
  ghost predicate IsTreeListing(nodes: seq<Node>, id: SummaryId, es: seq<Entry>) {
    AllPlaced(nodes, [id], None, 0, es) && SiblingsOrdered(nodes, es)
  }

  lemma {:induction false} HangsInPrefix(nodes: seq<Node>, es: seq<Entry>, n: nat, j: nat, i: nat)
    requires j < i < n <= |es|
    ensures HangsFrom(nodes, es[..n], j, i) <==> HangsFrom(nodes, es, j, i)
  {
    assert [] + es[..n] + es[n..] == es;
    HangsShifted(nodes, [], es[..n], es[n..], j, i);
  }

  lemma {:induction false} PlacedInPrefix(nodes: seq<Node>, ids: seq<SummaryId>, child: Option<SummaryId>, depth: nat,
                                          es: seq<Entry>, n: nat, i: nat)
    requires i < n <= |es| && Placed(nodes, ids, child, depth, es, i)
    ensures Placed(nodes, ids, child, depth, es[..n], i)
  {
    if exists j :: 0 <= j < i && HangsFrom(nodes, es, j, i) {
      var j :| 0 <= j < i && HangsFrom(nodes, es, j, i);
      HangsInPrefix(nodes, es, n, j, i);
    }
  }

  /** A beginning of such a listing is one. */
  lemma {:induction false} PrefixIsTreeListing(nodes: seq<Node>, id: SummaryId, es: seq<Entry>, n: nat)
    requires n <= |es| && IsTreeListing(nodes, id, es)
    ensures IsTreeListing(nodes, id, es[..n])
  {
    forall i | 0 <= i < n
      ensures Placed(nodes, [id], None, 0, es[..n], i)
    {
      PlacedInPrefix(nodes, [id], None, 0, es, n, i);
    }
    forall j: nat, i: nat, k: nat | Siblings(nodes, es[..n], j, i, k)
      ensures InOrder(nodes, es[..n], j, i, k)
    {
      HangsInPrefix(nodes, es, n, j, i);
      HangsInPrefix(nodes, es, n, j, k);
      assert Siblings(nodes, es, j, i, k) && InOrder(nodes, es, j, i, k);
    }
  }

  /** The preorder behind a summary is such a listing, and so is each of its beginnings. */
  lemma {:induction false} PreWalkIsTree(nodes: seq<Node>, id: SummaryId, n: nat)
    requires n <= |PreWalk(nodes, [id], None, 0, {}).entries|
    ensures IsTreeListing(nodes, id, PreWalk(nodes, [id], None, 0, {}).entries[..n])
  {
    PreWalkPlacesEach(nodes, [id], None, 0, {});
    PreWalkOrdersSiblings(nodes, [id], None, 0, {});
    PrefixIsTreeListing(nodes, id, PreWalk(nodes, [id], None, 0, {}).entries, n);
  }

  ghost predicate Referential(nodes: seq<Node>) {
    forall i, p :: 0 <= i < |nodes| && p in nodes[i].parents ==> p < |nodes|
  }

  /** Cutting two stretches one after the other at a common limit is cutting their concatenation. */
  lemma {:induction false} CutParts(room: nat, entry: Entry, up: seq<Entry>, fullUp: seq<Entry>, rest: seq<Entry>,
                                    fullRest: seq<Entry>)
    requires room > 0 && up == fullUp[..Min(|fullUp|, room - 1)]
    requires |up| < room - 1 ==> rest == fullRest[..Min(|fullRest|, room - 1 - |up|)]
    requires |up| == room - 1 ==> rest == []
    ensures [entry] + up + rest
         == ([entry] + fullUp + fullRest)[..Min(|[entry] + fullUp + fullRest|, room)]
  {
  }

  lemma {:induction false} ParentsInRange(nodes: seq<Node>, id: SummaryId)
    requires Referential(nodes) && id < |nodes|
    ensures forall i :: 0 <= i < |Parents(nodes, id)| ==> Parents(nodes, id)[i] < |nodes|
  {
    forall i | 0 <= i < |Parents(nodes, id)|
      ensures Parents(nodes, id)[i] < |nodes|
    {
      assert Parents(nodes, id)[i] in nodes[id].parents;
    }
  }

  /** Capping cuts the preorder short and changes nothing else. */
  lemma {:induction false} ManifestIsPreorderPrefix(nodes: seq<Node>, ids: seq<SummaryId>, child: Option<SummaryId>,
                                                    depth: nat, seen: set<SummaryId>)
    requires Referential(nodes) && |seen| <= MAX_MANIFEST_NODES
    requires forall i :: 0 <= i < |ids| ==> ids[i] < |nodes|
    ensures var full, cut := PreWalk(nodes, ids, child, depth, seen), ManifestWalk(nodes, ids, child, depth, seen);
      && cut.entries == full.entries[..Min(|full.entries|, MAX_MANIFEST_NODES - |seen|)]
      && |cut.seen| == |seen| + |cut.entries|
      && (|cut.seen| < MAX_MANIFEST_NODES ==> cut.seen == full.seen)
    decreases Unseen(nodes, seen), |ids|
  {
    if ids != [] {
      var id := ids[0];
      if id in seen || |seen| >= MAX_MANIFEST_NODES {
        ManifestIsPreorderPrefix(nodes, ids[1..], child, depth, seen);
      } else {
        assert id in Unseen(nodes, seen);
        ParentsInRange(nodes, id);
        var up := ManifestWalk(nodes, Parents(nodes, id), Some(id), depth + 1, seen + {id});
        var fullUp := PreWalk(nodes, Parents(nodes, id), Some(id), depth + 1, seen + {id});
        var rest, fullRest := ManifestWalk(nodes, ids[1..], child, depth, up.seen),
                              PreWalk(nodes, ids[1..], child, depth, fullUp.seen);
        ManifestIsPreorderPrefix(nodes, Parents(nodes, id), Some(id), depth + 1, seen + {id});
        ManifestIsPreorderPrefix(nodes, ids[1..], child, depth, up.seen);
        if |up.seen| == MAX_MANIFEST_NODES {
          ManifestStopsWhenFull(nodes, ids[1..], child, depth, up.seen);
        }
        CutParts(MAX_MANIFEST_NODES - |seen|, Entry(id, child, depth), up.entries, fullUp.entries, rest.entries,
                 fullRest.entries);
      }
    }
  }

  lemma {:induction false} ManifestStopsWhenFull(nodes: seq<Node>, ids: seq<SummaryId>, child: Option<SummaryId>,
                                                 depth: nat, seen: set<SummaryId>)
    requires |seen| >= MAX_MANIFEST_NODES
    ensures ManifestWalk(nodes, ids, child, depth, seen) == Listing([], seen)
    decreases |ids|
  {
    if ids != [] {
      ManifestStopsWhenFull(nodes, ids[1..], child, depth, seen);
    }
  }

  /** The described manifest is the first min(16, n) nodes of the preorder of the n-node closure, and
      it is reported truncated exactly when n exceeds sixteen. */
  lemma {:induction false} ManifestOfSummary(nodes: seq<Node>, id: SummaryId)
    requires Referential(nodes) && id < |nodes|
    ensures var full, manifest := PreWalk(nodes, [id], None, 0, {}).entries,
         ManifestWalk(nodes, [id], None, 0, {}).entries;
      var closure := PostWalk(nodes, [id], {}).seen;
      && IsClosure(nodes, id, closure) && |closure| == |full| && Elements(EntryIds(full)) == closure
      && manifest == full[..Min(|closure|, MAX_MANIFEST_NODES)]
      && (|closure| > |manifest| <==> |closure| > MAX_MANIFEST_NODES)
  {
    PostWalkIsClosure(nodes, id);
    PreWalkSeesWhatPostWalkSees(nodes, [id], None, 0, {});
    PreWalkListsEachOnce(nodes, [id], None, 0, {});
    ManifestIsPreorderPrefix(nodes, [id], None, 0, {});
  }

  // ---- depth ----

  /** Stored depth with the path-local `seen` set of ids below. */
  function StoredDepth(nodes: seq<Node>, id: SummaryId, seen: set<SummaryId>): nat
    decreases Unseen(nodes, seen), 1, 0
  {
    if id in seen || Parents(nodes, id) == [] then 0
    else
      assert id in Unseen(nodes, seen);
      1 + MaxDepth(nodes, Parents(nodes, id), seen + {id})
  }

  function MaxDepth(nodes: seq<Node>, ids: seq<SummaryId>, seen: set<SummaryId>): nat
    requires ids != []
    decreases Unseen(nodes, seen), 2, |ids|
  {
    var d := StoredDepth(nodes, ids[0], seen);
    if |ids| == 1 then d else Max(d, MaxDepth(nodes, ids[1..], seen))
  }

  /** Length of a longest parent path, by recursion on row order. */
  lemma {:induction false} MaxDepthBounds(nodes: seq<Node>, ids: seq<SummaryId>, seen: set<SummaryId>)
    requires ids != []
    ensures forall p :: p in ids ==> StoredDepth(nodes, p, seen) <= MaxDepth(nodes, ids, seen)
    ensures exists p :: p in ids && StoredDepth(nodes, p, seen) == MaxDepth(nodes, ids, seen)
  {
    if |ids| == 1 {
      assert ids[0] in ids;
    } else {
      MaxDepthBounds(nodes, ids[1..], seen);
      assert forall p :: p in ids ==> p == ids[0] || p in ids[1..];
      assert ids[0] in ids;
    }
  }

  lemma {:induction false} NoPathIsLonger(nodes: seq<Node>, id: SummaryId, seen: set<SummaryId>, path: seq<SummaryId>)
    requires Acyclic(nodes) && forall x :: x in seen ==> x > id
    requires IsPath(nodes, path) && path[0] == id
    ensures |path| - 1 <= StoredDepth(nodes, id, seen)
    decreases id
  {
    if |path| > 1 {
      StepIsParent(nodes, path);
      MaxDepthBounds(nodes, Parents(nodes, id), seen + {id});
      NoPathIsLonger(nodes, path[1], seen + {id}, path[1..]);
    }
  }

  lemma {:induction false} SomePathIsAsLong(nodes: seq<Node>, id: SummaryId, seen: set<SummaryId>)
    returns (path: seq<SummaryId>)
    requires Acyclic(nodes) && forall x :: x in seen ==> x > id
    ensures IsPath(nodes, path) && path[0] == id && |path| - 1 == StoredDepth(nodes, id, seen)
    decreases id
  {
    var ps := Parents(nodes, id);
    path := [id];
    if ps != [] {
      MaxDepthBounds(nodes, ps, seen + {id});
      var p :| p in ps && StoredDepth(nodes, p, seen + {id}) == MaxDepth(nodes, ps, seen + {id});
      var rest := SomePathIsAsLong(nodes, p, seen + {id});
      path := [id] + rest;
    }
  }

  /** In an acyclic archive the stored depth is the number of edges of the longest parent path. */
  lemma {:induction false} StoredDepthIsLongestPath(nodes: seq<Node>, id: SummaryId, seen: set<SummaryId>)
    requires Acyclic(nodes) && forall x :: x in seen ==> x > id
    ensures forall path :: IsPath(nodes, path) && path[0] == id ==> |path| - 1 <= StoredDepth(nodes, id, seen)
    ensures exists path :: IsPath(nodes, path) && path[0] == id && |path| - 1 == StoredDepth(nodes, id, seen)
  {
    forall path | IsPath(nodes, path) && path[0] == id
      ensures |path| - 1 <= StoredDepth(nodes, id, seen)
    {
      NoPathIsLonger(nodes, id, seen, path);
    }
    var longest := SomePathIsAsLong(nodes, id, seen);
    assert IsPath(nodes, longest) && longest[0] == id;
  }

  lemma {:induction false} StepIsParent(nodes: seq<Node>, path: seq<SummaryId>)
    requires IsPath(nodes, path) && |path| > 1
    ensures path[1] in Parents(nodes, path[0])
  {
    assert path[0 + 1] in Parents(nodes, path[0]);
  }
}
