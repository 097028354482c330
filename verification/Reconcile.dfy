/** Latest-wins reconciliation of one agent, as the atomic steps between its awaits. */
module Reconcile {
  import opened Wrappers

  /** The stored configuration; its revision only ever grows. */
  datatype View = View(enabled: bool, revision: nat, remote: bool)

  /** An installed worker supervisor and the request it was installed for. */
  datatype Supervisor = Supervisor(revision: nat, generation: nat)

  /** Where a drain is suspended. Every phase but the last is an await inside one reconcile. */
  datatype Phase =
    | Stopping                            // disabled: the live worker is being stopped
    | StoppingRemote                      // remote worker: a former local worker is being stopped
    | Waiting(revision: nat, live: bool)  // until the running worker may be reconfigured
    | Applying(revision: nat)             // settings posted to the running worker
    | StoppingOld(revision: nat)          // replacement: the old process is being stopped
    | Tunnelling(revision: nat)           // replacement: the client tunnel is being opened or closed
    | Returned                            // the reconcile is over, its drain not yet resumed

  /** A drain loop: the generation it is reconciling and where it is. */
  datatype Drain = Drain(seen: nat, phase: Phase)

  datatype State = State(
    closed: bool, requested: nat, queued: nat, running: bool, drains: seq<Drain>,
    view: Option<View>, attempted: Option<nat>, supervisor: Option<Supervisor>, timers: nat,
    reconciled: nat,      // the last generation a reconcile was started for
    applied: seq<nat>)    // revisions applied since the mark was last cleared

  /** How an awaited operation ends, or which way a branch we do not model goes. */
  datatype Outcome = Done | Declined | NotReady | Fault | Crash

  datatype Event =
    | Schedule
    | RunQueued(outcome: Outcome)
    | Resume(drain: nat, outcome: Outcome)
    | Create(view: View)
    | Edit(remote: bool)
    | Start
    | Stop
    | Restart
    | TimerFires
    | Close

  const INITIAL := State(false, 0, 0, false, [], None, None, None, 0, 0, [])

  function Request(s: State): State {
    if s.closed then s
    else
      var counted := s.(requested := s.requested + 1);
      if s.running then counted else counted.(queued := s.queued + 1)
  }

  /** `current`: the reconcile still serves the latest request for the enabled, unchanged revision. */
  predicate Current(s: State, generation: nat, revision: nat) {
    !s.closed && s.requested == generation && s.view.Some? && s.view.value.enabled && s.view.value.revision == revision
  }

  /** The first stretch of a reconcile, up to its first await; it also counts as the last one started. */
  function Begin(s: State, generation: nat, outcome: Outcome): (State, Drain) {
    var t := s.(reconciled := generation);
    if s.view.None? || s.closed || outcome.Fault? then (t, Drain(generation, Returned))
    else
      var view := s.view.value;
      if !view.enabled then (t.(supervisor := None), Drain(generation, Stopping))
      else if view.remote then (t.(supervisor := None), Drain(generation, StoppingRemote))
      else if s.attempted == Some(view.revision) then (t, Drain(generation, Returned))
      else (t, Drain(generation, Waiting(view.revision, s.supervisor.Some?)))
  }

  /** The catch block: a busy worker is retried by timer, unless the request was superseded meanwhile. */
  function Recover(s: State, d: Drain, outcome: Outcome): (State, Drain) {
    var stale := s.view.None? || !s.view.value.enabled || s.closed || s.requested != d.seen;
    (if outcome.NotReady? && !stale then s.(timers := s.timers + 1) else s, d.(phase := Returned))
  }

  function Install(s: State, d: Drain, revision: nat): (State, Drain) {
    (if Current(s, d.seen, revision) then s.(supervisor := Some(Supervisor(revision, d.seen))) else s,
     d.(phase := Returned))
  }

  function Replace(s: State, d: Drain, revision: nat): (State, Drain) {
    (s.(supervisor := None), d.(phase := StoppingOld(revision)))
  }

  /** One resumption inside a reconcile. */
  function Continue(s: State, d: Drain, outcome: Outcome): (State, Drain) {
    if outcome.Fault? || outcome.NotReady? then Recover(s, d, outcome)
    else match d.phase
      case Stopping => (s, d.(phase := Returned))
      case StoppingRemote => (s, d.(phase := Returned))
      case Waiting(revision, live) =>
        if !Current(s, d.seen, revision) then (s, d.(phase := Returned))
        else
          var marked := s.(attempted := Some(revision), applied := s.applied + [revision]);
          if live && outcome.Done? then (marked, d.(phase := Applying(revision))) else Replace(marked, d, revision)
      case Applying(revision) => if outcome.Done? then (s, d.(phase := Returned)) else Replace(s, d, revision)
      case StoppingOld(revision) => if outcome.Done? then Install(s, d, revision)
          else (s, d.(phase := Tunnelling(revision)))
      case Tunnelling(revision) => Install(s, d, revision)
      case Returned => (s, d)
  }

  /** The end of a drain: it asks for another one when a request came in after the last it saw. */
  function EndDrain(s: State, k: nat): State
    requires k < |s.drains|
  {
    var t := s.(running := false, drains := s.drains[..k] + s.drains[k + 1..]);
    if !s.closed && s.requested != s.drains[k].seen then t.(queued := s.queued + 1) else t
  }

  function Next(s: State, e: Event): State {
    match e
    case Schedule => Request(s)
    case RunQueued(outcome) =>
      if s.queued == 0 then s
      else
        var t := s.(queued := s.queued - 1);
        if s.closed || s.running then t
        else
          var (u, d) := Begin(t.(running := true), s.requested, outcome);
          u.(drains := u.drains + [d])
    case Resume(k, outcome) =>
      if k >= |s.drains| then s
      else if outcome.Crash? then EndDrain(s, k)
      else
        var d := s.drains[k];
        if !d.phase.Returned? then
          var (u, d') := Continue(s, d, outcome);
          u.(drains := u.drains[k := d'])
        else if s.closed || s.requested == d.seen then EndDrain(s, k)
        else
          var (u, d') := Begin(s, s.requested, outcome);
          u.(drains := u.drains[k := d'])
    case Create(view) => if s.view.None? then s.(view := Some(view)) else s
    case Edit(remote) =>
      if s.view.None? then s
      else s.(view := Some(s.view.value.(revision := s.view.value.revision + 1, remote := remote)))
    case Start => if s.view.None? then s else Request(Cleared(s, true))
    case Restart => if s.view.None? then s else Request(Cleared(s, true))
    case Stop => if s.view.None? then s else Request(Cleared(s, false).(supervisor := None))
    case TimerFires => if s.timers == 0 || s.closed then s else Request(s.(timers := s.timers - 1))
    case Close => s.(closed := true, timers := 0, supervisor := None)
  }

  /** start, stop and restart set `enabled` and forget the attempted revision. */
  function Cleared(s: State, enabled: bool): State
    requires s.view.Some?
  {
    s.(view := Some(s.view.value.(enabled := enabled)), attempted := None, applied := [])
  }

  function Run(s: State, events: seq<Event>): State
    decreases |events|
  {
    if events == [] then s else Run(Next(s, events[0]), events[1..])
  }

  // ---- what every run keeps ----

  /** At most one drain exists, the running mark says so, and the generation it reconciles is the last one. */
  ghost predicate Serialized(s: State) {
    && |s.drains| <= 1
    && (s.running <==> |s.drains| == 1)
    && (s.running ==> s.drains[0].seen == s.reconciled)
    && s.reconciled <= s.requested
  }

  /** A request not yet reconciled has a drain queued or running that will see it. */
  ghost predicate NothingLost(s: State) {
    !s.closed && s.requested != s.reconciled ==> s.queued > 0 || s.running
  }

  ghost predicate Ascending(a: seq<nat>) {
    forall i, j :: 0 <= i < j < |a| ==> a[i] < a[j]
  }

  /** Applied revisions ascend, end in the mark, and never exceed the stored revision; a reconcile past the
      mark check works on a revision that is not the marked one. */
  ghost predicate AppliedOnce(s: State) {
    && Ascending(s.applied)
    && (s.applied != [] ==> s.attempted == Some(s.applied[|s.applied| - 1]) && s.view.Some?
                            && s.applied[|s.applied| - 1] <= s.view.value.revision)
    && (s.attempted.Some? ==> s.applied != [])
    && forall k :: 0 <= k < |s.drains| && s.drains[k].phase.Waiting? ==> s.attempted != Some(s.drains[k].phase.revision)
  }

  /** A worker is only ever up for an agent that is enabled, from a request and a revision that were made. */
  ghost predicate WorkerIsWanted(s: State) {
    s.supervisor.Some? ==>
      && !s.closed && s.view.Some? && s.view.value.enabled
      && s.supervisor.value.revision <= s.view.value.revision
      && s.supervisor.value.generation <= s.reconciled
  }

  ghost predicate Invariant(s: State) {
    Serialized(s) && NothingLost(s) && AppliedOnce(s) && WorkerIsWanted(s)
  }

  /** The state with its one drain after a part of a reconcile. */
  function With(r: (State, Drain)): State {
    r.0.(drains := [r.1])
  }

  lemma {:induction false} RecoverKeeps(s: State, d: Drain, outcome: Outcome)
    requires Invariant(s) && s.drains == [d]
    ensures Invariant(With(Recover(s, d, outcome)))
  {
  }

  lemma {:induction false} InstallKeeps(s: State, d: Drain, revision: nat)
    requires Invariant(s) && s.drains == [d]
    ensures Invariant(With(Install(s, d, revision)))
  {
  }

  lemma {:induction false} ReplaceKeeps(s: State, d: Drain, revision: nat)
    requires Invariant(s) && s.drains == [d]
    ensures Invariant(With(Replace(s, d, revision)))
  {
  }

  lemma {:induction false} PhaseKeeps(s: State, d: Drain, phase: Phase)
    requires Invariant(s) && s.drains == [d] && !phase.Waiting?
    ensures Invariant(With((s, d.(phase := phase))))
  {
  }

  /** Marking the revision a current reconcile works on. */
  lemma {:induction false} MarkKeeps(s: State, d: Drain, revision: nat, phase: Phase)
    requires Invariant(s) && s.drains == [d] && d.phase.Waiting? && d.phase.revision == revision && !phase.Waiting?
    requires Current(s, d.seen, revision)
    ensures Invariant(s.(attempted := Some(revision), applied := s.applied + [revision],
                         drains := [d.(phase := phase)]))
  {
  }

  lemma {:induction false} ContinueKeeps(s: State, outcome: Outcome)
    requires Invariant(s) && |s.drains| == 1 && !s.drains[0].phase.Returned?
    ensures Invariant(With(Continue(s, s.drains[0], outcome)))
  {
    var d := s.drains[0];
    assert s.drains == [d];
    if outcome.Fault? || outcome.NotReady? {
      RecoverKeeps(s, d, outcome);
    } else {
      match d.phase {
        case Waiting(revision, live) =>
          PhaseKeeps(s, d, Returned);
          if Current(s, d.seen, revision) {
            MarkKeeps(s, d, revision, Applying(revision));
            MarkKeeps(s, d, revision, StoppingOld(revision));
          }
        case Applying(revision) =>
          PhaseKeeps(s, d, Returned);
          ReplaceKeeps(s, d, revision);
        case StoppingOld(revision) =>
          InstallKeeps(s, d, revision);
          PhaseKeeps(s, d, Tunnelling(revision));
        case Tunnelling(revision) => InstallKeeps(s, d, revision);
        case _ => PhaseKeeps(s, d, Returned);
      }
    }
  }

  /** A reconcile that begins takes over the latest request. */
  lemma {:induction false} BeginKeeps(s: State, outcome: Outcome)
    requires Serialized(s.(drains := [], running := false)) && AppliedOnce(s.(drains := [])) && WorkerIsWanted(s)
    requires s.running
    ensures Invariant(With(Begin(s, s.requested, outcome)))
  {
  }

  lemma {:induction false} Replaced(s: State, r: (State, Drain))
    requires |s.drains| == 1 && r.0.drains == s.drains
    ensures r.0.(drains := r.0.drains[0 := r.1]) == With(r)
  {
  }

  lemma {:induction false} DrainsUntouched(s: State, d: Drain, outcome: Outcome)
    ensures Continue(s, d, outcome).0.drains == s.drains
  {
  }

  lemma {:induction false} BeginLeavesDrains(s: State, outcome: Outcome)
    ensures Begin(s, s.requested, outcome).0.drains == s.drains
  {
  }

  lemma {:induction false} ResumeKeeps(s: State, outcome: Outcome)
    requires Invariant(s) && |s.drains| == 1
    ensures Invariant(Next(s, Resume(0, outcome)))
  {
    var d := s.drains[0];
    DrainsUntouched(s, d, outcome);
    BeginLeavesDrains(s, outcome);
    if outcome.Crash? || (d.phase.Returned? && (s.closed || s.requested == d.seen)) {
    } else if !d.phase.Returned? {
      ContinueKeeps(s, outcome);
      Replaced(s, Continue(s, d, outcome));
    } else {
      BeginKeeps(s, outcome);
      Replaced(s, Begin(s, s.requested, outcome));
    }
  }

  lemma {:induction false} FirstDrain(r: (State, Drain))
    requires r.0.drains == []
    ensures r.0.(drains := r.0.drains + [r.1]) == With(r)
  {
  }

  lemma {:induction false} StartsDrain(s: State, outcome: Outcome)
    requires s.queued > 0 && !s.closed && !s.running && s.drains == []
    ensures var t := s.(queued := s.queued - 1, running := true);
      Next(s, RunQueued(outcome)) == With(Begin(t, t.requested, outcome))
  {
    var t := s.(queued := s.queued - 1, running := true);
    BeginLeavesDrains(t, outcome);
    FirstDrain(Begin(t, t.requested, outcome));
  }

  lemma {:induction false} StartDrainKeeps(s: State, outcome: Outcome)
    requires Invariant(s) && s.queued > 0 && !s.closed && !s.running
    ensures Invariant(Next(s, RunQueued(outcome)))
  {
    BeginKeeps(s.(queued := s.queued - 1, running := true), outcome);
    StartsDrain(s, outcome);
  }

  lemma {:induction false} RunQueuedKeeps(s: State, outcome: Outcome)
    requires Invariant(s)
    ensures Invariant(Next(s, RunQueued(outcome)))
  {
    if s.queued > 0 && !s.closed && !s.running {
      StartDrainKeeps(s, outcome);
    }
  }

  lemma {:induction false} RequestKeeps(s: State)
    requires Invariant(s)
    ensures Invariant(Request(s))
  {
  }

  lemma {:induction false} LifecycleKeeps(s: State, e: Event)
    requires Invariant(s) && !e.RunQueued? && !e.Resume?
    ensures Invariant(Next(s, e))
  {
    match e {
      case Schedule => RequestKeeps(s);
      case TimerFires =>
        if s.timers > 0 && !s.closed {
          RequestKeeps(s.(timers := s.timers - 1));
        }
      case Stop =>
        if s.view.Some? {
          RequestKeeps(Cleared(s, false).(supervisor := None));
        }
      case Start => RestartKeeps(s);
      case Restart => RestartKeeps(s);
      case _ =>
    }
  }

  lemma {:induction false} RestartKeeps(s: State)
    requires Invariant(s)
    ensures Invariant(Next(s, Start)) && Next(s, Restart) == Next(s, Start)
  {
    if s.view.Some? {
      RequestKeeps(Cleared(s, true));
    }
  }

  lemma {:induction false} StepKeeps(s: State, e: Event)
    requires Invariant(s)
    ensures Invariant(Next(s, e))
  {
    match e {
      case RunQueued(outcome) => RunQueuedKeeps(s, outcome);
      case Resume(k, outcome) =>
        if k < |s.drains| {
          ResumeKeeps(s, outcome);
        }
      case _ => LifecycleKeeps(s, e);
    }
  }

  /** Every interleaving of requests, queued drains, resumptions, faults, edits and lifecycle calls. */
  lemma {:induction false} RunKeeps(s: State, events: seq<Event>)
    requires Invariant(s)
    ensures Invariant(Run(s, events))
    decreases |events|
  {
    if events != [] {
      StepKeeps(s, events[0]);
      RunKeeps(Next(s, events[0]), events[1..]);
    }
  }

  /** While the manager is open, whenever no drain is queued or running the last generation reconciled is the
      last one requested; and there is never more than one reconcile in progress. */
  lemma {:induction false} NoRequestIsLost(events: seq<Event>)
    ensures var s := Run(INITIAL, events);
      && |s.drains| <= 1
      && (!s.closed && s.queued == 0 && s.drains == [] ==> s.reconciled == s.requested)
  {
    RunKeeps(INITIAL, events);
  }

  /** Between two clearings of its mark, no revision is applied twice. */
  lemma {:induction false} RevisionIsAppliedOnce(events: seq<Event>)
    ensures Distinct(Run(INITIAL, events).applied)
  {
    RunKeeps(INITIAL, events);
    var a := Run(INITIAL, events).applied;
    forall i, j | 0 <= i < j < |a| ensures a[i] != a[j] { }
  }

  /** A step that installs a supervisor does so for the enabled, current revision of the latest request. */
  lemma {:induction false} InstallsOnlyCurrent(s: State, e: Event)
    ensures var t := Next(s, e);
      t.supervisor.Some? && t.supervisor != s.supervisor ==>
        && !t.closed
        && t.view.Some? && t.view.value.enabled
        && t.supervisor.value == Supervisor(t.view.value.revision, t.requested)
  {
  }

  /** No interleaving brings up, or leaves up, a worker of a stopped agent or of a closed manager; the worker
      that is up serves a revision no newer than the stored one, for a request already reconciled. */
  lemma {:induction false} StoppedMeansNoWorker(events: seq<Event>)
    ensures var s := Run(INITIAL, events);
      && (s.closed || s.view.None? || !s.view.value.enabled ==> s.supervisor.None?)
      && WorkerIsWanted(s)
  {
    RunKeeps(INITIAL, events);
  }

  // ---- what a request achieves ----

  /** A step of a drain that meets no fault, no busy worker and no crash. */
  predicate Steady(e: Event) {
    (e.RunQueued? || e.Resume?) && (e.outcome.Done? || e.outcome.Declined?)
  }

  /** The stored revision needs a local worker. */
  predicate NeedsWorker(s: State) {
    !s.closed && s.view.Some? && s.view.value.enabled && !s.view.value.remote
  }

  /** The last request is still to be reconciled, or its reconcile waits to apply the stored revision, or did. */
  ghost predicate Served(s: State) {
    NeedsWorker(s) && s.requested == s.reconciled ==>
      || s.attempted == Some(s.view.value.revision)
      || (|s.drains| == 1 && s.drains[0].seen == s.requested && s.drains[0].phase.Waiting?
          && s.drains[0].phase.revision == s.view.value.revision)
  }

  lemma {:induction false} ResumeServes(s: State, outcome: Outcome)
    requires Invariant(s) && Served(s) && |s.drains| == 1 && (outcome.Done? || outcome.Declined?)
    ensures Served(Next(s, Resume(0, outcome)))
  {
    var d := s.drains[0];
    DrainsUntouched(s, d, outcome);
    BeginLeavesDrains(s, outcome);
    if !d.phase.Returned? {
      Replaced(s, Continue(s, d, outcome));
    } else if !s.closed && s.requested != d.seen {
      Replaced(s, Begin(s, s.requested, outcome));
    }
  }

  lemma {:induction false} QueuedServes(s: State, outcome: Outcome)
    requires Invariant(s) && Served(s) && !outcome.Fault?
    ensures Served(Next(s, RunQueued(outcome)))
  {
    if s.queued > 0 && !s.closed && !s.running {
      StartsDrain(s, outcome);
    }
  }

  lemma {:induction false} SteadyRunServes(s: State, events: seq<Event>)
    requires Invariant(s) && Served(s) && forall e :: e in events ==> Steady(e)
    ensures Served(Run(s, events)) && Invariant(Run(s, events))
    decreases |events|
  {
    if events != [] {
      assert Steady(events[0]) by {
        assert events[0] in events;
      }
      match events[0] {
        case RunQueued(outcome) => QueuedServes(s, outcome);
        case Resume(k, outcome) =>
          if k < |s.drains| {
            ResumeServes(s, outcome);
          }
      }
      StepKeeps(s, events[0]);
      SteadyRunServes(Next(s, events[0]), events[1..]);
    }
  }

  /** The event asks for a reconcile. */
  predicate Requests(s: State, e: Event) {
    e.Schedule? || e.Start? || e.Restart? || e.Stop? || (e.TimerFires? && s.timers > 0)
  }

  /** After any run, let a request come in and then only drain steps without fault, busy worker or crash: once
      nothing is queued or running, the revision stored for an enabled local agent has been attempted. */
  lemma {:induction false} LatestRevisionIsAttempted(before: seq<Event>, request: Event, after: seq<Event>)
    requires Requests(Run(INITIAL, before), request) && forall e :: e in after ==> Steady(e)
    ensures var t := Run(Next(Run(INITIAL, before), request), after);
      NeedsWorker(t) && t.queued == 0 && t.drains == [] ==> t.attempted == Some(t.view.value.revision)
  {
    var s := Run(INITIAL, before);
    RunKeeps(INITIAL, before);
    StepKeeps(s, request);
    RequestIsPending(s, request);
    SteadyRunServes(Next(s, request), after);
  }

  lemma {:induction false} RequestIsPending(s: State, e: Event)
    requires Invariant(s) && Requests(s, e)
    ensures var t := Next(s, e);
      && (t.closed || t.view.None? || t.requested != t.reconciled)
      && ((e.Start? || e.Restart?) && t.view.Some? ==> t.attempted.None?)
  {
  }

  /** The stored revision needs a worker elsewhere. */
  predicate IsRemote(s: State) {
    !s.closed && s.view.Some? && s.view.value.enabled && s.view.value.remote
  }

  /** A drain that is bringing up the stored revision, for the last request. */
  ghost predicate BringsUp(s: State) {
    && |s.drains| == 1 && s.drains[0].seen == s.requested && s.view.Some?
    && var revision := s.view.value.revision;
       match s.drains[0].phase
       case Waiting(r, live) => r == revision && (live ==> s.supervisor.Some?)
       case Applying(r) => r == revision && s.supervisor.Some?
       case StoppingOld(r) => r == revision
       case Tunnelling(r) => r == revision
       case _ => false
  }

  ghost predicate IsUp(s: State) {
    s.supervisor.Some? && forall k :: 0 <= k < |s.drains| ==> s.drains[k].phase.Returned?
  }

  /** After a start: the last request is still to be reconciled, and not taken for done; or the worker is up, or a
      drain is bringing it up. */
  ghost predicate ComingUp(s: State) {
    NeedsWorker(s) ==>
      if s.requested == s.reconciled then BringsUp(s) || IsUp(s)
      else s.attempted != Some(s.view.value.revision)
  }

  lemma {:induction false} ResumeBringsUp(s: State, outcome: Outcome)
    requires Invariant(s) && ComingUp(s) && |s.drains| == 1 && (outcome.Done? || outcome.Declined?)
    ensures ComingUp(Next(s, Resume(0, outcome)))
  {
    var d := s.drains[0];
    DrainsUntouched(s, d, outcome);
    BeginLeavesDrains(s, outcome);
    if !d.phase.Returned? {
      Replaced(s, Continue(s, d, outcome));
    } else if !s.closed && s.requested != d.seen {
      Replaced(s, Begin(s, s.requested, outcome));
    }
  }

  lemma {:induction false} BeginBringsUp(s: State, outcome: Outcome)
    requires ComingUp(s) && !outcome.Fault? && (NeedsWorker(s) && s.requested == s.reconciled ==> s.supervisor.Some?)
    ensures ComingUp(With(Begin(s, s.requested, outcome)))
  {
  }

  lemma {:induction false} QueuedBringsUp(s: State, outcome: Outcome)
    requires Invariant(s) && ComingUp(s) && !outcome.Fault?
    ensures ComingUp(Next(s, RunQueued(outcome)))
  {
    if s.queued > 0 && !s.closed && !s.running {
      StartsDrain(s, outcome);
      BeginBringsUp(s.(queued := s.queued - 1, running := true), outcome);
    }
  }

  lemma {:induction false} SteadyRunBringsUp(s: State, events: seq<Event>)
    requires Invariant(s) && ComingUp(s) && forall e :: e in events ==> Steady(e)
    ensures ComingUp(Run(s, events)) && Invariant(Run(s, events))
    decreases |events|
  {
    if events != [] {
      assert Steady(events[0]) by {
        assert events[0] in events;
      }
      match events[0] {
        case RunQueued(outcome) => QueuedBringsUp(s, outcome);
        case Resume(k, outcome) =>
          if k < |s.drains| {
            ResumeBringsUp(s, outcome);
          }
      }
      StepKeeps(s, events[0]);
      SteadyRunBringsUp(Next(s, events[0]), events[1..]);
    }
  }

  /** After any run, start or restart an enabled local agent and let only drain steps follow, without fault, busy worker
      or crash: once nothing is queued or running its worker is up. */
  lemma {:induction false} WorkerComesUp(before: seq<Event>, request: Event, after: seq<Event>)
    requires (request.Start? || request.Restart?) && forall e :: e in after ==> Steady(e)
    ensures var t := Run(Next(Run(INITIAL, before), request), after);
      NeedsWorker(t) && t.queued == 0 && t.drains == [] ==> t.supervisor.Some?
  {
    var s := Run(INITIAL, before);
    RunKeeps(INITIAL, before);
    StepKeeps(s, request);
    RequestIsPending(s, request);
    SteadyRunBringsUp(Next(s, request), after);
  }

  /** Once reconciled, an agent served elsewhere has no worker here and nothing that would bring one up. */
  ghost predicate StayingAway(s: State) {
    IsRemote(s) && s.requested == s.reconciled ==>
      s.supervisor.None? && forall k :: 0 <= k < |s.drains| ==> s.drains[k].phase in {StoppingRemote, Returned}
  }

  lemma {:induction false} ResumeStaysAway(s: State, outcome: Outcome)
    requires Invariant(s) && StayingAway(s) && |s.drains| == 1 && (outcome.Done? || outcome.Declined?)
    ensures StayingAway(Next(s, Resume(0, outcome)))
  {
    var d := s.drains[0];
    DrainsUntouched(s, d, outcome);
    BeginLeavesDrains(s, outcome);
    if !d.phase.Returned? {
      Replaced(s, Continue(s, d, outcome));
    } else if !s.closed && s.requested != d.seen {
      Replaced(s, Begin(s, s.requested, outcome));
    }
  }

  lemma {:induction false} BeginStaysAway(s: State, outcome: Outcome)
    requires !outcome.Fault?
    ensures StayingAway(With(Begin(s, s.requested, outcome)))
  {
  }

  lemma {:induction false} QueuedStaysAway(s: State, outcome: Outcome)
    requires Invariant(s) && StayingAway(s) && !outcome.Fault?
    ensures StayingAway(Next(s, RunQueued(outcome)))
  {
    if s.queued > 0 && !s.closed && !s.running {
      StartsDrain(s, outcome);
      BeginStaysAway(s.(queued := s.queued - 1, running := true), outcome);
    }
  }

  lemma {:induction false} SteadyRunStaysAway(s: State, events: seq<Event>)
    requires Invariant(s) && StayingAway(s) && forall e :: e in events ==> Steady(e)
    ensures StayingAway(Run(s, events)) && Invariant(Run(s, events))
    decreases |events|
  {
    if events != [] {
      assert Steady(events[0]) by {
        assert events[0] in events;
      }
      match events[0] {
        case RunQueued(outcome) => QueuedStaysAway(s, outcome);
        case Resume(k, outcome) =>
          if k < |s.drains| {
            ResumeStaysAway(s, outcome);
          }
      }
      StepKeeps(s, events[0]);
      SteadyRunStaysAway(Next(s, events[0]), events[1..]);
    }
  }

  /** And after any request and such steps, an agent served elsewhere has no worker here. */
  lemma {:induction false} RemoteHasNoWorker(before: seq<Event>, request: Event, after: seq<Event>)
    requires Requests(Run(INITIAL, before), request) && forall e :: e in after ==> Steady(e)
    ensures var t := Run(Next(Run(INITIAL, before), request), after);
      IsRemote(t) && t.queued == 0 && t.drains == [] ==> t.supervisor.None?
  {
    var s := Run(INITIAL, before);
    RunKeeps(INITIAL, before);
    StepKeeps(s, request);
    RequestIsPending(s, request);
    SteadyRunStaysAway(Next(s, request), after);
  }

  /** A busy worker is asked again later exactly when the reconcile still serves the last request of an enabled
      agent. */
  lemma {:induction false} BusyIsRetriedIff(s: State)
    requires |s.drains| == 1 && !s.drains[0].phase.Returned?
    ensures var t := Next(s, Resume(0, NotReady));
      t.timers == s.timers
      + if !s.closed && s.view.Some? && s.view.value.enabled && s.requested == s.drains[0].seen then 1 else 0
  {
  }

  /** What the calls of the outside store: the first view created, every edit under a higher revision, whether the agent
      is enabled; a start forgets the attempted revision, a stop and a close drop the worker at once. */
  lemma {:induction false} StoresAre(s: State)
    ensures forall view :: Next(s, Create(view)).view == if s.view.None? then Some(view) else s.view
    ensures s.view.Some? ==> forall remote ::
      Next(s, Edit(remote)).view == Some(View(s.view.value.enabled, s.view.value.revision + 1, remote))
    ensures s.view.Some? ==>
      var started, stopped, revision := Next(s, Start), Next(s, Stop), s.view.value.revision;
      && started.view == Some(View(true, revision, s.view.value.remote)) && started.attempted.None?
      && started == Next(s, Restart)
      && stopped.view == Some(View(false, revision, s.view.value.remote)) && stopped.supervisor.None?
    ensures Next(s, Close).closed && Next(s, Close).supervisor.None? && Next(s, Close).timers == 0
  {
  }

  /** What a request does: it counts, uses up the timer it came from, and queues a drain unless one is running. */
  lemma {:induction false} RequestIs(s: State, e: Event)
    requires Requests(s, e) && !s.closed && s.view.Some?
    ensures var t := Next(s, e);
      && t.requested == s.requested + 1 && t.queued == s.queued + (if s.running then 0 else 1)
      && t.timers == s.timers - (if e.TimerFires? then 1 else 0)
  {
  }

  // ---- drains come to an end ----

  /** How many awaits are at most left in a reconcile, and one for the end of its drain. */
  ghost function StepsLeft(phase: Phase): nat {
    match phase
    case Waiting(_, _) => 5
    case Applying(_) => 4
    case StoppingOld(_) => 3
    case Tunnelling(_) => 2
    case Stopping => 2
    case StoppingRemote => 2
    case Returned => 1
  }

  ghost function DrainWork(s: State, d: Drain): nat {
    StepsLeft(d.phase) + if d.seen != s.requested then 6 else 0
  }

  /** The steps that queued and running drains can still take, with a reconcile more for one that was superseded. */
  ghost function Work(s: State): nat {
    7 * s.queued + if s.drains == [] then 0 else DrainWork(s, s.drains[0])
  }

  /** The event is a step of a drain that is there. */
  ghost predicate Takes(s: State, e: Event) {
    Steady(e) && if e.RunQueued? then s.queued > 0 else e.drain < |s.drains|
  }

  lemma {:induction false} ResumeWorks(s: State, outcome: Outcome)
    requires Invariant(s) && |s.drains| == 1 && (outcome.Done? || outcome.Declined?)
    ensures Work(Next(s, Resume(0, outcome))) < Work(s)
  {
    var d := s.drains[0];
    DrainsUntouched(s, d, outcome);
    BeginLeavesDrains(s, outcome);
    if !d.phase.Returned? {
      Replaced(s, Continue(s, d, outcome));
    } else if !s.closed && s.requested != d.seen {
      Replaced(s, Begin(s, s.requested, outcome));
    } else {
      assert s.drains[..0] + s.drains[1..] == [];
    }
  }

  lemma {:induction false} RunQueuedWorks(s: State, outcome: Outcome)
    requires Invariant(s) && s.queued > 0 && (outcome.Done? || outcome.Declined?)
    ensures Work(Next(s, RunQueued(outcome))) < Work(s)
  {
    if !s.closed && !s.running {
      StartsDrain(s, outcome);
    }
  }

  lemma {:induction false} StepsMakeNoRequest(s: State, e: Event)
    requires Steady(e)
    ensures Next(s, e).requested == s.requested
  {
  }

  /** Every step a drain takes brings the end of all drains nearer, as long as no request comes in; so after finitely
      many nothing is queued or running. */
  lemma {:induction false} DrainsEnd(s: State, e: Event)
    requires Invariant(s) && Takes(s, e)
    ensures Work(Next(s, e)) < Work(s) && Invariant(Next(s, e))
  {
    StepKeeps(s, e);
    if e.RunQueued? {
      RunQueuedWorks(s, e.outcome);
    } else {
      ResumeWorks(s, e.outcome);
    }
  }

  /** While anything is queued or running there is such a step. */
  lemma {:induction false} DrainsCanStep(s: State)
    ensures s.queued > 0 || s.drains != [] <==> exists e :: Takes(s, e)
  {
    assert s.queued > 0 ==> Takes(s, RunQueued(Done));
    assert s.drains != [] ==> Takes(s, Resume(0, Done));
  }

  /** So from every reachable state some steps, no more than its work, end all drains. */
  lemma {:induction false} DrainsCanEnd(s: State) returns (steps: seq<Event>)
    requires Invariant(s)
    ensures |steps| <= Work(s) && forall e :: e in steps ==> Steady(e)
    ensures Run(s, steps).queued == 0 && Run(s, steps).drains == []
    decreases Work(s)
  {
    steps := [];
    if s.queued > 0 || s.drains != [] {
      var e := if s.queued > 0 then RunQueued(Done) else Resume(0, Done);
      DrainsEnd(s, e);
      var rest := DrainsCanEnd(Next(s, e));
      steps := [e] + rest;
    }
  }

  /** A worker that takes new settings stays up; one that does not is replaced. */
  lemma {:induction false} AppliedStaysUp(s: State, outcome: Outcome)
    requires |s.drains| == 1 && s.drains[0].phase.Applying? && (outcome.Done? || outcome.Declined?)
    ensures var t := Next(s, Resume(0, outcome));
      && (outcome.Done? ==> t.supervisor == s.supervisor && t.drains[0].phase.Returned?)
      && (outcome.Declined? ==>
            t.supervisor.None? && t.drains[0].phase == StoppingOld(s.drains[0].phase.revision))
  {
  }
}
