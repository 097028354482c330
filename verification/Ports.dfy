/** Stable port allocation for local agents. */
module Ports {
  import opened Wrappers

  const MAX_PORT := 65535

  datatype Allocation = Allocation(worker: nat, tunnel: Option<nat>)

  type Allocations = map<string, Allocation>

  /** What resolving needs of a configuration: its id, a pinned port, and whether it wants a tunnel. */
  datatype AgentConfig = AgentConfig(id: string, port: Option<nat>, iroh: bool)

  datatype PortError = NoWorkerPort | NoTunnelPort

  // ---- searching ----

  function AtOrAbove(occupied: set<nat>, start: nat): set<nat> {
    set p | p in occupied && p >= start
  }

  function LeastFree(occupied: set<nat>, start: nat): (port: nat)
    ensures port >= start && port !in occupied
    ensures forall p :: start <= p < port ==> p in occupied
    decreases AtOrAbove(occupied, start)
  {
    if start !in occupied then start
    else
      assert start in AtOrAbove(occupied, start) && start !in AtOrAbove(occupied, start + 1);
      LeastFree(occupied, start + 1)
  }

  /** `while (occupied.has(port)) port++` ends at the least free port. */
  method FindFree(occupied: set<nat>, start: nat) returns (port: nat)
    ensures port == LeastFree(occupied, start)
  {
    port := start;
    while port in occupied
      invariant port >= start && LeastFree(occupied, start) == LeastFree(occupied, port)
      decreases AtOrAbove(occupied, port)
    {
      assert port in AtOrAbove(occupied, port) && port !in AtOrAbove(occupied, port + 1);
      port := port + 1;
    }
  }

  // ---- resolving ----

  function PortsOf(a: Allocation): (ports: set<nat>)
    ensures forall p: nat :: p in ports <==> p == a.worker || (p != 0 && a.tunnel == Some(p))
  {
    {a.worker} + if a.tunnel.Some? && a.tunnel.value != 0 then {a.tunnel.value} else {}
  }

  /** The control port and everything allocated to other agents. */
  function Occupied(control: nat, allocations: Allocations, id: string): set<nat> {
    {control} + set other, p | other in allocations && other != id && p in PortsOf(allocations[other]) :: p
  }

  function WorkerFor(control: nat, allocations: Allocations, c: AgentConfig): nat {
    if c.port.Some? then c.port.value
    else LeastFree(Occupied(control, allocations, c.id),
                   if c.id in allocations then allocations[c.id].worker else control + 1)
  }

  /** The allocations after one resolve, and its error; a missing tunnel port is only noticed once the
      worker port is stored. */
  function ResolveWith(control: nat, allocations: Allocations, c: AgentConfig): (Allocations, Option<PortError>) {
    var worker := WorkerFor(control, allocations, c);
    if worker > MAX_PORT then (allocations, Some(NoWorkerPort))
    else
      var prior := if c.id in allocations then allocations[c.id].tunnel else None;
      var stored := allocations[c.id := Allocation(worker, prior)];
      if !c.iroh || prior.Some? then (stored, None)
      else
        var tunnel := LeastFree(Occupied(control, allocations, c.id) + {worker}, control + 1);
        if tunnel > MAX_PORT then (stored, Some(NoTunnelPort))
        else (allocations[c.id := Allocation(worker, Some(tunnel))], None)
  }

  lemma {:induction false} Overwritten(allocations: Allocations, id: string, first: Allocation, second: Allocation)
    ensures allocations[id := first][id := second] == allocations[id := second]
  {
  }

  class PortAllocator {
    const controlPort: nat
    var allocations: Allocations

    constructor (controlPort: nat)
      ensures this.controlPort == controlPort && allocations == map[]
    {
      this.controlPort := controlPort;
      allocations := map[];
    }

    method ResolveWorker(c: AgentConfig) returns (worker: nat)
      ensures worker == WorkerFor(controlPort, allocations, c)
    {
      if c.port.Some? {
        return c.port.value;
      }
      var start := if c.id in allocations then allocations[c.id].worker else controlPort + 1;
      worker := FindFree(Occupied(controlPort, allocations, c.id), start);
    }

    method Resolve(c: AgentConfig) returns (error: Option<PortError>)
      modifies this
      ensures (allocations, error) == ResolveWith(controlPort, old(allocations), c)
    {
      var occupied := Occupied(controlPort, allocations, c.id);
      var priorTunnel := if c.id in allocations then allocations[c.id].tunnel else None;
      var worker := ResolveWorker(c);
      if worker > MAX_PORT {
        return Some(NoWorkerPort);
      }
      allocations := allocations[c.id := Allocation(worker, priorTunnel)];
      if c.iroh && priorTunnel.None? {
        var tunnel := FindFree(occupied + {worker}, controlPort + 1);
        if tunnel > MAX_PORT {
          return Some(NoTunnelPort);
        }
        Overwritten(old(allocations), c.id, Allocation(worker, priorTunnel), Allocation(worker, Some(tunnel)));
        allocations := allocations[c.id := Allocation(worker, Some(tunnel))];
      }
      return None;
    }

    /** Imports the legacy layout once: only when nothing is allocated yet. */
    method ReserveLegacy(agents: seq<LegacyAgent>)
      modifies this
      ensures allocations == if old(allocations) != map[] then old(allocations) else Imported(agents)
    {
      if allocations != map[] {
        return;
      }
      for i := 0 to |agents|
        invariant allocations == Imported(agents[..i])
      {
        assert agents[..i + 1][..i] == agents[..i];
        allocations := allocations[agents[i].id := Allocation(agents[i].port, agents[i].tunnel)];
      }
      assert agents[..|agents|] == agents;
    }
  }

  // ---- what every run keeps ----

  /** The control port and all worker and tunnel ports are pairwise distinct. */
  ghost predicate AllDistinct(control: nat, allocations: Allocations) {
    && (forall id :: id in allocations ==> control !in PortsOf(allocations[id]))
    && (forall id :: id in allocations && allocations[id].tunnel.Some? ==>
          allocations[id].tunnel.value != 0 && allocations[id].tunnel.value != allocations[id].worker)
    && forall a, b :: a in allocations && b in allocations && a != b
        ==> PortsOf(allocations[a]) !! PortsOf(allocations[b])
  }

  /** Ports once reserved stay as they are. */
  ghost predicate Keeps(before: Allocations, after: Allocations) {
    forall id :: id in before ==>
      && id in after && after[id].worker == before[id].worker
      && (before[id].tunnel.Some? ==> after[id].tunnel == before[id].tunnel)
  }

  lemma {:induction false} OccupiedMembers(control: nat, allocations: Allocations, id: string)
    ensures forall p: nat :: p in Occupied(control, allocations, id) <==>
      p == control || exists other :: other in allocations && other != id && p in PortsOf(allocations[other])
  {
  }

  lemma {:induction false} UpdateKeepsDistinct(control: nat, allocations: Allocations, id: string, a: Allocation)
    requires AllDistinct(control, allocations) && PortsOf(a) !! Occupied(control, allocations, id)
    requires a.tunnel.Some? ==> a.tunnel.value != 0 && a.tunnel.value != a.worker
    ensures AllDistinct(control, allocations[id := a])
  {
    var updated := allocations[id := a];
    OccupiedMembers(control, allocations, id);
    assert control !in PortsOf(a);
    forall x, y | x in updated && y in updated && x != y
      ensures PortsOf(updated[x]) !! PortsOf(updated[y])
    {
      if x == id || y == id {
        var other := if x == id then y else x;
        forall p | p in PortsOf(allocations[other]) ensures p !in PortsOf(a) {
          assert p in Occupied(control, allocations, id);
        }
      }
    }
  }

  /** The ports first stored for an agent without a pin are its own: reserved before, or free. */
  lemma {:induction false} StoredIsOwn(control: nat, allocations: Allocations, c: AgentConfig, stored: Allocation)
    requires AllDistinct(control, allocations) && c.port.None?
    requires stored.worker == WorkerFor(control, allocations, c)
    requires stored.tunnel == if c.id in allocations then allocations[c.id].tunnel else None
    ensures PortsOf(stored) !! Occupied(control, allocations, c.id)
    ensures stored.tunnel.Some? ==> stored.tunnel.value != 0 && stored.tunnel.value != stored.worker
    ensures c.id in allocations ==> stored == allocations[c.id]
  {
    OccupiedMembers(control, allocations, c.id);
    if c.id in allocations {
      assert allocations[c.id].worker in PortsOf(allocations[c.id]);
    }
  }

  lemma {:induction false} StepKeeps(control: nat, allocations: Allocations, c: AgentConfig)
    requires AllDistinct(control, allocations) && c.port.None?
    ensures var r := ResolveWith(control, allocations, c); AllDistinct(control, r.0) && Keeps(allocations, r.0)
  {
    var worker := WorkerFor(control, allocations, c);
    if worker <= MAX_PORT {
      var stored := Allocation(worker, if c.id in allocations then allocations[c.id].tunnel else None);
      StoredIsOwn(control, allocations, c, stored);
      UpdateKeepsDistinct(control, allocations, c.id, stored);
      if c.iroh && stored.tunnel.None? {
        var tunnel := LeastFree(Occupied(control, allocations, c.id) + {worker}, control + 1);
        if tunnel <= MAX_PORT {
          UpdateKeepsDistinct(control, allocations, c.id, Allocation(worker, Some(tunnel)));
        }
      }
    }
  }

  /** A pinned port is stored unsearched: ports stay distinct exactly when it is free and not the agent's tunnel. */
  lemma {:induction false} PinKeepsDistinctIff(control: nat, allocations: Allocations, c: AgentConfig)
    requires AllDistinct(control, allocations) && c.port.Some? && c.port.value <= MAX_PORT
    ensures AllDistinct(control, ResolveWith(control, allocations, c).0)
            <==> c.port.value !in Occupied(control, allocations, c.id)
                 && (c.id in allocations ==> allocations[c.id].tunnel != c.port)
  {
    var worker := c.port.value;
    var occupied := Occupied(control, allocations, c.id);
    var after := ResolveWith(control, allocations, c).0;
    var prior := if c.id in allocations then allocations[c.id].tunnel else None;
    OccupiedMembers(control, allocations, c.id);
    assert worker in PortsOf(after[c.id]);
    if worker in occupied {
      if worker != control {
        var other :| other in allocations && other != c.id && worker in PortsOf(allocations[other]);
        assert after[other] == allocations[other];
      }
    } else if prior != c.port {
      assert prior.Some? ==> prior.value in PortsOf(allocations[c.id]);
      UpdateKeepsDistinct(control, allocations, c.id, after[c.id]);
    }
  }

  function ResolveAll(control: nat, allocations: Allocations, configs: seq<AgentConfig>): Allocations
    decreases |configs|
  {
    if configs == [] then allocations
    else ResolveAll(control, ResolveWith(control, allocations, configs[0]).0, configs[1..])
  }

  /** A pin onto another agent's port is stored. */
  lemma {:induction false} PinsCanClash()
    ensures var taken: Allocations := map["x" := Allocation(5001, None)];
      && AllDistinct(5000, taken)
      && !AllDistinct(5000, ResolveWith(5000, taken, AgentConfig("y", Some(5001), false)).0)
  {
    var taken: Allocations := map["x" := Allocation(5001, None)];
    var pinned := AgentConfig("y", Some(5001), false);
    assert 5001 in PortsOf(taken["x"]) && "x" in taken && "x" != pinned.id;
    PinKeepsDistinctIff(5000, taken, pinned);
  }

  /** Over any sequence of resolves that pin no port, all ports stay distinct and reserved ports never change. */
  lemma {:induction false} PortsStayDistinctAndStable(control: nat, allocations: Allocations, configs: seq<AgentConfig>)
    requires AllDistinct(control, allocations) && forall i :: 0 <= i < |configs| ==> configs[i].port.None?
    ensures AllDistinct(control, ResolveAll(control, allocations, configs))
    ensures Keeps(allocations, ResolveAll(control, allocations, configs))
    decreases |configs|
  {
    if configs != [] {
      StepKeeps(control, allocations, configs[0]);
      PortsStayDistinctAndStable(control, ResolveWith(control, allocations, configs[0]).0, configs[1..]);
    }
  }

  /** A search fails only when every port from its start to the last one is taken. */
  lemma {:induction false} FailsOnlyWhenFull(control: nat, allocations: Allocations, c: AgentConfig)
    requires AllDistinct(control, allocations) && c.port.None? && c.id !in allocations
    ensures var (after, error) := ResolveWith(control, allocations, c);
      && (error == Some(NoWorkerPort) <==>
            forall p :: control < p <= MAX_PORT ==> p in Occupied(control, allocations, c.id))
      && (error == Some(NoWorkerPort) ==> after == allocations)
      && (error.None? ==> c.id in after && after[c.id].worker <= MAX_PORT && (c.iroh ==> after[c.id].tunnel.Some?))
  {
    var worker := WorkerFor(control, allocations, c);
    assert worker > MAX_PORT || (control < worker <= MAX_PORT && worker !in Occupied(control, allocations, c.id));
  }

  ghost predicate IsLeastFree(occupied: set<nat>, start: nat, port: nat) {
    port >= start && port !in occupied && forall p :: start <= p < port ==> p in occupied
  }

  /** One resolve, for any allocations and configuration. The worker port is the pinned one, or the least free port from
      the reserved one on, above the control port for a new agent; it fails exactly when that is beyond the last port,
      and then stores nothing. A tunnel is kept; a missing one is given the least port free besides, or fails. */
  lemma {:induction false} ResolveIs(control: nat, allocations: Allocations, c: AgentConfig)
    ensures var (after, error) := ResolveWith(control, allocations, c);
      var occupied := Occupied(control, allocations, c.id);
      var start := if c.id in allocations then allocations[c.id].worker else control + 1;
      var prior := if c.id in allocations then allocations[c.id].tunnel else None;
      && (error == Some(NoWorkerPort) <==>
            if c.port.Some? then c.port.value > 65535 else forall p :: start <= p <= 65535 ==> p in occupied)
      && (error == Some(NoWorkerPort) ==> after == allocations)
      && (error != Some(NoWorkerPort) ==>
            && c.id in after && after.Keys == allocations.Keys + {c.id}
            && (forall id :: id in allocations && id != c.id ==> after[id] == allocations[id])
            && (if c.port.Some? then after[c.id].worker == c.port.value
                else IsLeastFree(occupied, start, after[c.id].worker))
            && (error == Some(NoTunnelPort) <==>
                  c.iroh && prior.None?
                  && forall p :: control < p <= 65535 ==> p in occupied + {after[c.id].worker})
            && (prior.Some? || !c.iroh || error.Some? ==> after[c.id].tunnel == prior)
            && (prior.None? && c.iroh && error.None? ==>
                  && after[c.id].tunnel.Some?
                  && IsLeastFree(occupied + {after[c.id].worker}, control + 1, after[c.id].tunnel.value)))
  {
    var occupied := Occupied(control, allocations, c.id);
    var start := if c.id in allocations then allocations[c.id].worker else control + 1;
    var worker := WorkerFor(control, allocations, c);
    LeastFreeIs(occupied, start);
    LeastFreeIs(occupied + {worker}, control + 1);
  }

  lemma {:induction false} LeastFreeIs(occupied: set<nat>, start: nat)
    ensures IsLeastFree(occupied, start, LeastFree(occupied, start))
    ensures LeastFree(occupied, start) > 65535 <==> forall p :: start <= p <= 65535 ==> p in occupied
  {
  }

  // ---- the legacy layout ----

  datatype LegacyAgent = LegacyAgent(id: string, port: nat, tunnel: Option<nat>)

  /** The worker range directly above the control port, the tunnel range above that. */
  function Layout(control: nat, ids: seq<string>, ports: seq<Option<nat>>, iroh: seq<bool>): (r: seq<LegacyAgent>)
    requires |ids| == |ports| == |iroh|
    ensures |r| == |ids|
    ensures forall i :: 0 <= i < |r| ==>
      r[i] == LegacyAgent(ids[i], if ports[i].Some? then ports[i].value else control + i + 1,
                          if iroh[i] then Some(control + |ids| + i + 1) else None)
  {
    seq(|ids|, i requires 0 <= i < |ids| =>
      LegacyAgent(ids[i], if ports[i].Some? then ports[i].value else control + i + 1,
                  if iroh[i] then Some(control + |ids| + i + 1) else None))
  }

  /** The checks a layout must pass: valid ports, unique ids, ports and tunnels, no tunnel on a worker port. */
  ghost predicate Accepted(control: nat, agents: seq<LegacyAgent>) {
    && (forall i :: 0 <= i < |agents| ==> 1 <= agents[i].port <= MAX_PORT && agents[i].port != control)
    && (forall i, j :: 0 <= i < j < |agents| ==>
          && agents[i].id != agents[j].id && agents[i].port != agents[j].port
          && (agents[i].tunnel.Some? ==> agents[i].tunnel != agents[j].tunnel))
    && forall i, j :: 0 <= i < |agents| && 0 <= j < |agents| ==> agents[i].tunnel != Some(agents[j].port)
  }

  function Imported(agents: seq<LegacyAgent>): Allocations {
    if agents == [] then map[]
    else
      var last := agents[|agents| - 1];
      Imported(agents[..|agents| - 1])[last.id := Allocation(last.port, last.tunnel)]
  }

  ghost predicate SeededBy(agents: seq<LegacyAgent>, i: nat, id: string, a: Allocation) {
    i < |agents| && agents[i].id == id && a == Allocation(agents[i].port, agents[i].tunnel)
  }

  lemma {:induction false} ImportedEntries(agents: seq<LegacyAgent>, id: string) returns (i: nat)
    requires id in Imported(agents)
    ensures SeededBy(agents, i, id, Imported(agents)[id])
  {
    var last := |agents| - 1;
    i := last;
    if id != agents[last].id {
      i := ImportedEntries(agents[..last], id);
    }
  }

  /** Every agent of the layout is imported, with the ports of the last entry of its id. */
  lemma {:induction false} ImportedIs(agents: seq<LegacyAgent>, i: nat)
    requires i < |agents| && forall j :: i < j < |agents| ==> agents[j].id != agents[i].id
    ensures agents[i].id in Imported(agents)
    ensures Imported(agents)[agents[i].id] == Allocation(agents[i].port, agents[i].tunnel)
    decreases |agents|
  {
    if i < |agents| - 1 {
      ImportedIs(agents[..|agents| - 1], i);
    }
  }

  /** The default layout passes its own checks whenever it fits, with unique ids. */
  lemma {:induction false} DefaultLayoutIsAccepted(control: nat, ids: seq<string>, ports: seq<Option<nat>>,
                                                   iroh: seq<bool>)
    requires |ids| == |ports| == |iroh| && Distinct(ids) && forall i :: 0 <= i < |ports| ==> ports[i].None?
    ensures Accepted(control, Layout(control, ids, ports, iroh)) <==> ids == [] || control + |ids| <= MAX_PORT
  {
    var agents := Layout(control, ids, ports, iroh);
    if ids != [] && control + |ids| > MAX_PORT {
      assert agents[|ids| - 1].port > MAX_PORT;
    }
  }

  /** An accepted layout seeds the allocator with distinct ports (a tunnel is above the control port). */
  lemma {:induction false} LegacySeedsDistinct(control: nat, ids: seq<string>, ports: seq<Option<nat>>, iroh: seq<bool>)
    requires |ids| == |ports| == |iroh| && Accepted(control, Layout(control, ids, ports, iroh))
    ensures AllDistinct(control, Imported(Layout(control, ids, ports, iroh)))
  {
    var agents := Layout(control, ids, ports, iroh);
    var seeded := Imported(agents);
    forall a | a in seeded
      ensures control !in PortsOf(seeded[a])
      ensures seeded[a].tunnel.Some? ==> seeded[a].tunnel.value != 0 && seeded[a].tunnel.value != seeded[a].worker
    {
      var i := ImportedEntries(agents, a);
    }
    forall a, b | a in seeded && b in seeded && a != b
      ensures PortsOf(seeded[a]) !! PortsOf(seeded[b])
    {
      var i := ImportedEntries(agents, a);
      var j := ImportedEntries(agents, b);
    }
  }
}
