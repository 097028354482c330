/** How provenance walks compose when summaries are recorded over one another. */
module Provenance {
  import opened Wrappers
  import opened Messages
  import opened ArchiveWalks
  import opened ContextArchive

  function Beneath(nodes: seq<Node>, id: SummaryId): set<SummaryId> {
    PostWalk(nodes, [id], {}).seen
  }

  /** No two of the ids share an ancestor, and all are recorded. */
  ghost predicate Disjoint(nodes: seq<Node>, ids: seq<SummaryId>) {
    && (forall i :: 0 <= i < |ids| ==> ids[i] < |nodes|)
    && forall i, j :: 0 <= i < j < |ids| ==> Beneath(nodes, ids[i]) !! Beneath(nodes, ids[j])
  }

  /** A walk is not affected by ids it would never meet. */
  lemma {:induction false} WalkFrame(nodes: seq<Node>, ids: seq<SummaryId>, seen: set<SummaryId>, extra: set<SummaryId>)
    requires (PostWalk(nodes, ids, seen).seen - seen) !! extra
    ensures PostWalk(nodes, ids, seen + extra)
         == Walk(PostWalk(nodes, ids, seen).order, PostWalk(nodes, ids, seen).seen + extra)
    decreases Unseen(nodes, seen), |ids|
  {
    if ids != [] {
      var id := ids[0];
      if id in seen {
        WalkFrame(nodes, ids[1..], seen, extra);
      } else {
        assert id < |nodes| ==> id in Unseen(nodes, seen);
        assert id >= |nodes| ==> Unseen(nodes, seen + {id}) == Unseen(nodes, seen);
        var up := PostWalk(nodes, Parents(nodes, id), seen + {id});
        WalkFrame(nodes, Parents(nodes, id), seen + {id}, extra);
        WalkFrame(nodes, ids[1..], up.seen, extra);
        assert seen + extra + {id} == seen + {id} + extra;
      }
    }
  }

  /** Recording a later row changes no walk over earlier rows. */
  lemma {:induction false} WalkIgnoresLaterRow(nodes: seq<Node>, later: Node, ids: seq<SummaryId>, seen: set<SummaryId>)
    requires Acyclic(nodes) && forall i :: 0 <= i < |ids| ==> ids[i] < |nodes|
    ensures PostWalk(nodes + [later], ids, seen) == PostWalk(nodes, ids, seen)
    decreases Unseen(nodes, seen), |ids|
  {
    if ids != [] {
      var id := ids[0];
      if id in seen {
        WalkIgnoresLaterRow(nodes, later, ids[1..], seen);
      } else {
        assert id in Unseen(nodes, seen);
        var parents := Parents(nodes, id);
        assert Parents(nodes + [later], id) == parents;
        forall i | 0 <= i < |parents| ensures parents[i] < |nodes| {
          assert parents[i] in nodes[id].parents;
        }
        WalkIgnoresLaterRow(nodes, later, parents, seen + {id});
        WalkIgnoresLaterRow(nodes, later, ids[1..], PostWalk(nodes, parents, seen + {id}).seen);
      }
    }
  }

  /** Everything beneath an id was recorded no later than it. */
  lemma {:induction false} BeneathIsEarlier(nodes: seq<Node>, ids: seq<SummaryId>, seen: set<SummaryId>, bound: nat)
    requires Acyclic(nodes) && forall i :: 0 <= i < |ids| ==> ids[i] < bound
    ensures forall x :: x in PostWalk(nodes, ids, seen).seen ==> x in seen || x < bound
    decreases Unseen(nodes, seen), |ids|
  {
    if ids != [] {
      var id := ids[0];
      if id in seen {
        BeneathIsEarlier(nodes, ids[1..], seen, bound);
      } else {
        assert id < |nodes| ==> id in Unseen(nodes, seen);
        assert id >= |nodes| ==> Unseen(nodes, seen + {id}) == Unseen(nodes, seen);
        var parents := Parents(nodes, id);
        forall i | 0 <= i < |parents| ensures parents[i] < bound {
          assert parents[i] in nodes[id].parents;
        }
        BeneathIsEarlier(nodes, parents, seen + {id}, bound);
        BeneathIsEarlier(nodes, ids[1..], PostWalk(nodes, parents, seen + {id}).seen, bound);
      }
    }
  }

  function JoinOrders(nodes: seq<Node>, ids: seq<SummaryId>): seq<SummaryId> {
    if ids == [] then [] else PostWalk(nodes, [ids[0]], {}).order + JoinOrders(nodes, ids[1..])
  }

  function JoinBeneath(nodes: seq<Node>, ids: seq<SummaryId>): set<SummaryId> {
    if ids == [] then {} else Beneath(nodes, ids[0]) + JoinBeneath(nodes, ids[1..])
  }

  lemma {:induction false} JoinBeneathMembers(nodes: seq<Node>, ids: seq<SummaryId>)
    ensures forall x :: x in JoinBeneath(nodes, ids) <==> exists i :: 0 <= i < |ids| && x in Beneath(nodes, ids[i])
  {
    if ids != [] {
      JoinBeneathMembers(nodes, ids[1..]);
      forall x | x in JoinBeneath(nodes, ids[1..])
        ensures exists i :: 0 <= i < |ids| && x in Beneath(nodes, ids[i])
      {
        var i :| 0 <= i < |ids[1..]| && x in Beneath(nodes, ids[1..][i]);
        assert ids[i + 1] == ids[1..][i];
      }
      forall x, i | 0 <= i < |ids| && x in Beneath(nodes, ids[i])
        ensures x in JoinBeneath(nodes, ids)
      {
        if i > 0 {
          assert ids[1..][i - 1] == ids[i];
        }
      }
    }
  }

  /** Walking disjoint roots one after the other, past ids none of them meets, is walking each alone. */
  lemma {:induction false} DisjointWalk(nodes: seq<Node>, ids: seq<SummaryId>, seen: set<SummaryId>)
    requires Disjoint(nodes, ids)
    requires forall i :: 0 <= i < |ids| ==> Beneath(nodes, ids[i]) !! seen
    ensures PostWalk(nodes, ids, seen) == Walk(JoinOrders(nodes, ids), seen + JoinBeneath(nodes, ids))
    decreases |ids|
  {
    if ids != [] {
      UnfoldWalk(nodes, ids, seen);
      WalkFrame(nodes, [ids[0]], {}, seen);
      assert {} + seen == seen;
      var seen1 := PostWalk(nodes, [ids[0]], seen).seen;
      forall i | 0 <= i < |ids[1..]|
        ensures Beneath(nodes, ids[1..][i]) !! seen1
      {
        assert ids[1..][i] == ids[i + 1];
      }
      DisjointWalk(nodes, ids[1..], seen1);
    }
  }

  lemma {:induction false} DisjointSlice(nodes: seq<Node>, ids: seq<SummaryId>, from: nat, to: nat)
    requires Disjoint(nodes, ids) && from <= to <= |ids|
    ensures Disjoint(nodes, ids[from..to])
  {
    var part := ids[from..to];
    forall i | 0 <= i < |part| ensures part[i] == ids[from + i] { }
  }

  lemma {:induction false} BeneathIsStable(nodes: seq<Node>, node: Node, id: SummaryId)
    requires Acyclic(nodes) && id < |nodes|
    ensures Beneath(nodes + [node], id) == Beneath(nodes, id) && |nodes| !in Beneath(nodes, id)
  {
    WalkIgnoresLaterRow(nodes, node, [id], {});
    BeneathIsEarlier(nodes, [id], {}, |nodes|);
  }

  lemma {:induction false} ParentsWalk(nodes: seq<Node>, node: Node)
    requires Acyclic(nodes) && Disjoint(nodes, node.parents)
    ensures PostWalk(nodes + [node], node.parents, {|nodes|}) ==
            Walk(JoinOrders(nodes, node.parents), {|nodes|} + JoinBeneath(nodes, node.parents))
  {
    WalkIgnoresLaterRow(nodes, node, node.parents, {|nodes|});
    forall i | 0 <= i < |node.parents|
      ensures Beneath(nodes, node.parents[i]) !! {|nodes|}
    {
      BeneathIsStable(nodes, node, node.parents[i]);
    }
    DisjointWalk(nodes, node.parents, {|nodes|});
  }

  /** The nodes beneath a newly recorded summary: those beneath its parents, then itself. */
  lemma {:induction false} RecordedWalk(nodes: seq<Node>, node: Node)
    requires Acyclic(nodes) && Disjoint(nodes, node.parents)
    ensures PostWalk(nodes + [node], [|nodes|], {}) ==
            Walk(JoinOrders(nodes, node.parents) + [|nodes|], {|nodes|} + JoinBeneath(nodes, node.parents))
  {
    ParentsWalk(nodes, node);
    UnfoldWalk(nodes + [node], [|nodes|], {});
    assert {} + {|nodes|} == {|nodes|};
  }

  lemma {:induction false} OutsideRunIsDisjoint(nodes: seq<Node>, ids: seq<SummaryId>, from: nat, to: nat, k: nat)
    requires Disjoint(nodes, ids) && from <= to <= |ids| && k < |ids| && !(from <= k < to)
    ensures Beneath(nodes, ids[k]) !! JoinBeneath(nodes, ids[from..to])
  {
    JoinBeneathMembers(nodes, ids[from..to]);
    forall i | 0 <= i < to - from
      ensures Beneath(nodes, ids[k]) !! Beneath(nodes, ids[from..to][i])
    {
      assert ids[from..to][i] == ids[from + i];
    }
  }

  lemma {:induction false} StayDisjoint(nodes: seq<Node>, node: Node, ids: seq<SummaryId>)
    requires Acyclic(nodes) && Disjoint(nodes, ids)
    ensures Disjoint(nodes + [node], ids)
  {
    forall i | 0 <= i < |ids|
      ensures Beneath(nodes + [node], ids[i]) == Beneath(nodes, ids[i])
    {
      BeneathIsStable(nodes, node, ids[i]);
    }
  }

  lemma {:induction false} ReplacedIsDisjoint(nodes: seq<Node>, ids: seq<SummaryId>, id: SummaryId, from: nat, to: nat)
    requires Disjoint(nodes, ids) && from <= to <= |ids| && id < |nodes|
    requires forall k :: 0 <= k < |ids| && !(from <= k < to) ==> Beneath(nodes, ids[k]) !! Beneath(nodes, id)
    ensures Disjoint(nodes, ids[..from] + [id] + ids[to..])
  {
    var merged := ids[..from] + [id] + ids[to..];
    forall i, j | 0 <= i < j < |merged|
      ensures Beneath(nodes, merged[i]) !! Beneath(nodes, merged[j])
    {
      if i < from {
        assert merged[i] == ids[i];
      } else if i > from {
        assert merged[i] == ids[to + (i - from - 1)];
      }
      if j < from {
        assert merged[j] == ids[j];
      } else if j > from {
        assert merged[j] == ids[to + (j - from - 1)];
      }
    }
  }

  /** A run of disjoint summaries may be replaced by one summary recorded over the run. */
  lemma {:induction false} MergeKeepsDisjoint(nodes: seq<Node>, node: Node, ids: seq<SummaryId>, from: nat, to: nat)
    requires Acyclic(nodes) && Disjoint(nodes, ids) && from <= to <= |ids| && node.parents == ids[from..to]
    ensures Disjoint(nodes + [node], ids[..from] + [|nodes|] + ids[to..])
  {
    DisjointSlice(nodes, ids, from, to);
    RecordedWalk(nodes, node);
    StayDisjoint(nodes, node, ids);
    forall k | 0 <= k < |ids| && !(from <= k < to)
      ensures Beneath(nodes + [node], ids[k]) !! Beneath(nodes + [node], |nodes|)
    {
      OutsideRunIsDisjoint(nodes, ids, from, to, k);
      BeneathIsStable(nodes, node, ids[k]);
    }
    ReplacedIsDisjoint(nodes + [node], ids, |nodes|, from, to);
  }

  // ---- the history behind a summary, with recollection testimony left out ----

  /** Own sources of a node without the last `trim[x]` of them. */
  function Own(nodes: seq<Node>, trim: map<SummaryId, nat>, x: SummaryId): seq<MessageId> {
    var sources := Sources(nodes, x);
    if x in trim && trim[x] <= |sources| then sources[..|sources| - trim[x]] else sources
  }

  function OwnIds(nodes: seq<Node>, trim: map<SummaryId, nat>, order: seq<SummaryId>): seq<MessageId> {
    if order == [] then [] else Own(nodes, trim, order[0]) + OwnIds(nodes, trim, order[1..])
  }

  lemma {:induction false} OwnIdsConcat(nodes: seq<Node>, trim: map<SummaryId, nat>, a: seq<SummaryId>,
                                        b: seq<SummaryId>)
    ensures OwnIds(nodes, trim, a + b) == OwnIds(nodes, trim, a) + OwnIds(nodes, trim, b)
  {
    if a == [] {
      assert a + b == b;
    } else {
      assert (a + b)[1..] == a[1..] + b && (a + b)[0] == a[0];
      OwnIdsConcat(nodes, trim, a[1..], b);
      Assoc(Own(nodes, trim, a[0]), OwnIds(nodes, trim, a[1..]), OwnIds(nodes, trim, b));
    }
  }

  lemma {:induction false} OwnIdsIgnoreLaterRow(nodes: seq<Node>, node: Node, trim: map<SummaryId, nat>, n: nat,
                                                order: seq<SummaryId>)
    requires forall x :: x in order ==> x < |nodes|
    ensures OwnIds(nodes + [node], trim[|nodes| := n], order) == OwnIds(nodes, trim, order)
  {
    if order != [] {
      assert order[0] in order && forall x :: x in order[1..] ==> x in order;
      OwnIdsIgnoreLaterRow(nodes, node, trim, n, order[1..]);
    }
  }

  /** The conversation messages a summary stands for, in order. */
  function Behind(nodes: seq<Node>, trim: map<SummaryId, nat>, id: SummaryId): seq<MessageId> {
    OwnIds(nodes, trim, PostWalk(nodes, [id], {}).order)
  }

  function JoinBehind(nodes: seq<Node>, trim: map<SummaryId, nat>, ids: seq<SummaryId>): seq<MessageId> {
    if ids == [] then [] else Behind(nodes, trim, ids[0]) + JoinBehind(nodes, trim, ids[1..])
  }

  lemma {:induction false} JoinBehindConcat(nodes: seq<Node>, trim: map<SummaryId, nat>, a: seq<SummaryId>,
                                            b: seq<SummaryId>)
    ensures JoinBehind(nodes, trim, a + b) == JoinBehind(nodes, trim, a) + JoinBehind(nodes, trim, b)
  {
    if a == [] {
      assert a + b == b;
    } else {
      assert (a + b)[1..] == a[1..] + b && (a + b)[0] == a[0];
      JoinBehindConcat(nodes, trim, a[1..], b);
      Assoc(Behind(nodes, trim, a[0]), JoinBehind(nodes, trim, a[1..]), JoinBehind(nodes, trim, b));
    }
  }

  lemma {:induction false} JoinOrdersBehind(nodes: seq<Node>, trim: map<SummaryId, nat>, ids: seq<SummaryId>)
    ensures OwnIds(nodes, trim, JoinOrders(nodes, ids)) == JoinBehind(nodes, trim, ids)
  {
    if ids != [] {
      OwnIdsConcat(nodes, trim, PostWalk(nodes, [ids[0]], {}).order, JoinOrders(nodes, ids[1..]));
      JoinOrdersBehind(nodes, trim, ids[1..]);
    }
  }

  lemma {:induction false} BehindIgnoresLaterRow(nodes: seq<Node>, node: Node, trim: map<SummaryId, nat>, n: nat,
                                                 ids: seq<SummaryId>)
    requires Acyclic(nodes) && forall i :: 0 <= i < |ids| ==> ids[i] < |nodes|
    ensures JoinBehind(nodes + [node], trim[|nodes| := n], ids) == JoinBehind(nodes, trim, ids)
  {
    if ids != [] {
      var id := ids[0];
      WalkIgnoresLaterRow(nodes, node, [id], {});
      BeneathIsEarlier(nodes, [id], {}, |nodes|);
      PostWalkFacts(nodes, [id], {});
      OwnIdsIgnoreLaterRow(nodes, node, trim, n, PostWalk(nodes, [id], {}).order);
      BehindIgnoresLaterRow(nodes, node, trim, n, ids[1..]);
    }
  }

  /** A summary recorded over disjoint parents stands for what its parents stood for, in order,
      followed by its own sources up to the last `n`. */
  lemma {:induction false} RecordedBehind(nodes: seq<Node>, node: Node, trim: map<SummaryId, nat>, n: nat)
    requires Acyclic(nodes) && Disjoint(nodes, node.parents) && n <= |node.sources|
    ensures Behind(nodes + [node], trim[|nodes| := n], |nodes|) ==
            JoinBehind(nodes, trim, node.parents) + node.sources[..|node.sources| - n]
  {
    var nodes', trim', id := nodes + [node], trim[|nodes| := n], |nodes|;
    RecordedWalk(nodes, node);
    OwnIdsConcat(nodes', trim', JoinOrders(nodes, node.parents), [id]);
    assert OwnIds(nodes', trim', [id]) == node.sources[..|node.sources| - n];
    forall x | x in JoinOrders(nodes, node.parents) ensures x < |nodes| {
      JoinOrdersEarlier(nodes, node.parents);
    }
    OwnIdsIgnoreLaterRow(nodes, node, trim, n, JoinOrders(nodes, node.parents));
    JoinOrdersBehind(nodes, trim, node.parents);
  }

  lemma {:induction false} JoinOrdersEarlier(nodes: seq<Node>, ids: seq<SummaryId>)
    requires Acyclic(nodes) && forall i :: 0 <= i < |ids| ==> ids[i] < |nodes|
    ensures forall x :: x in JoinOrders(nodes, ids) ==> x < |nodes|
  {
    if ids != [] {
      BeneathIsEarlier(nodes, [ids[0]], {}, |nodes|);
      PostWalkFacts(nodes, [ids[0]], {});
      JoinOrdersEarlier(nodes, ids[1..]);
    }
  }

  // ---- stored depth of a merge ----

  lemma {:induction false} DepthIgnoresLaterRow(nodes: seq<Node>, node: Node, id: SummaryId, seen: set<SummaryId>)
    requires Acyclic(nodes) && id < |nodes|
    ensures StoredDepth(nodes + [node], id, seen) == StoredDepth(nodes, id, seen)
    decreases id, 1, 0
  {
    var ps := Parents(nodes, id);
    assert Parents(nodes + [node], id) == ps;
    if id !in seen && ps != [] {
      assert forall p :: p in ps ==> p < id;
      MaxDepthIgnoresLaterRow(nodes, node, id, ps, seen + {id});
    }
  }

  lemma {:induction false} MaxDepthIgnoresLaterRow(nodes: seq<Node>, node: Node, id: SummaryId, ids: seq<SummaryId>,
                                                   seen: set<SummaryId>)
    requires Acyclic(nodes) && id < |nodes| && ids != [] && forall p :: p in ids ==> p < id
    ensures MaxDepth(nodes + [node], ids, seen) == MaxDepth(nodes, ids, seen)
    decreases id, 0, |ids|
  {
    assert ids[0] in ids;
    DepthIgnoresLaterRow(nodes, node, ids[0], seen);
    if |ids| > 1 {
      assert forall p :: p in ids[1..] ==> p in ids;
      MaxDepthIgnoresLaterRow(nodes, node, id, ids[1..], seen);
    }
  }

  lemma {:induction false} DepthIgnoresLaterSeen(nodes: seq<Node>, id: SummaryId, seen: set<SummaryId>)
    requires Acyclic(nodes) && forall x :: x in seen ==> x > id
    ensures StoredDepth(nodes, id, seen) == StoredDepth(nodes, id, {})
  {
    StoredDepthIsLongestPath(nodes, id, seen);
    StoredDepthIsLongestPath(nodes, id, {});
    var a :| IsPath(nodes, a) && a[0] == id && |a| - 1 == StoredDepth(nodes, id, seen);
    var b :| IsPath(nodes, b) && b[0] == id && |b| - 1 == StoredDepth(nodes, id, {});
  }

  lemma {:induction false} DepthBelowNewRow(nodes: seq<Node>, node: Node, p: SummaryId)
    requires Acyclic(nodes) && Acyclic(nodes + [node]) && p < |nodes|
    ensures StoredDepth(nodes + [node], p, {|nodes|}) == StoredDepth(nodes, p, {})
  {
    DepthIgnoresLaterSeen(nodes + [node], p, {|nodes|});
    DepthIgnoresLaterRow(nodes, node, p, {});
  }

  /** A summary recorded over rows that all have depth d has depth d + 1; one without parents has 0. */
  lemma {:induction false} RecordedDepth(nodes: seq<Node>, node: Node, d: nat)
    requires Acyclic(nodes) && Acyclic(nodes + [node])
    requires forall p :: p in node.parents ==> p < |nodes| && StoredDepth(nodes, p, {}) == d
    ensures StoredDepth(nodes + [node], |nodes|, {}) == if node.parents == [] then 0 else d + 1
  {
    var nodes', id := nodes + [node], |nodes|;
    assert Parents(nodes', id) == node.parents;
    if node.parents != [] {
      forall p | p in node.parents
        ensures StoredDepth(nodes', p, {id}) == d
      {
        DepthBelowNewRow(nodes, node, p);
      }
      UniformMaxDepth(nodes', node.parents, {id}, d);
      assert {} + {id} == {id};
    }
  }

  lemma {:induction false} UniformMaxDepth(nodes: seq<Node>, ids: seq<SummaryId>, seen: set<SummaryId>, d: nat)
    requires ids != [] && forall p :: p in ids ==> StoredDepth(nodes, p, seen) == d
    ensures MaxDepth(nodes, ids, seen) == d
  {
    MaxDepthBounds(nodes, ids, seen);
  }
}
