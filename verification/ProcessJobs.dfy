/** The durable lifecycle of one process job: guarded row updates under every interleaving of replies. */
module ProcessJobs {
  import opened Wrappers

  const OUTPUT_LIMIT_BYTES := 512 * 1024

  datatype Status = Starting | Running | Cancelling | Completed | Failed | Cancelled | Lost | Interrupted

  predicate Active(s: Status) {
    s.Starting? || s.Running? || s.Cancelling?
  }

  /** starting, running, cancelling, terminal. */
  function Rank(s: Status): nat {
    match s
    case Starting => 0
    case Running => 1
    case Cancelling => 2
    case _ => 3
  }

  datatype Row = Row(
    status: Status, session: bool, terminationRequested: bool,
    output: seq<Byte>, outputBytes: nat, outputTruncated: bool, completionEvent: bool)

  /** The row, the process around it, and what is remembered about the run: every delta that arrived while
      it could be recorded, how often completion was offered, how often the offer was accepted. */
  datatype State = State(row: Row, runtime: bool, startPending: bool, deltas: seq<Byte>, offered: nat, accepted: nat)

  datatype Reply =
    | StillRunning(delta: seq<Byte>, terminationRequested: bool)
    | Exited(delta: seq<Byte>, exitCode: Option<int>, terminated: bool, terminationRequested: bool)
    | Unknown(delta: seq<Byte>, terminationRequested: bool)
    | Error(message: seq<Byte>)

  /** `accept` is the runner's answer should the step offer a completion event. */
  datatype Event =
    | StartReply(reply: Reply, accept: bool)
    | PollReply(reply: Reply, accept: bool)
    | Cancel
    | Stop
    | ProcessLost
    | Init(sameWorkspace: bool, accept: bool)

  const INITIAL := State(Row(Starting, false, false, [], 0, false, false), true, true, [], 0, 0)

  // ---- output ----

  /** The last `limit` bytes, or all there are. */
  function Tail(value: seq<Byte>, limit: nat): seq<Byte> {
    if |value| <= limit then value else value[|value| - limit..]
  }

  function MergeOutput(row: Row, delta: seq<Byte>): Row {
    var combined := row.output + delta;
    row.(output := Tail(combined, OUTPUT_LIMIT_BYTES),
         outputBytes := row.outputBytes + |delta|,
         outputTruncated := row.outputTruncated || |combined| > OUTPUT_LIMIT_BYTES)
  }

  /** The recorded output is the last 512 KiB of all of it, its size the total, flagged when some was cut. */
  ghost predicate Records(row: Row, deltas: seq<Byte>) {
    && row.output == Tail(deltas, OUTPUT_LIMIT_BYTES)
    && row.outputBytes == |deltas|
    && (row.outputTruncated <==> |deltas| > OUTPUT_LIMIT_BYTES)
  }

  lemma {:induction false} MergeRecords(row: Row, deltas: seq<Byte>, delta: seq<Byte>)
    requires Records(row, deltas)
    ensures Records(MergeOutput(row, delta), deltas + delta)
    ensures IsEndOf(MergeOutput(row, delta).output, deltas + delta, OUTPUT_LIMIT_BYTES)
  {
    TailIsEnd(deltas + delta, OUTPUT_LIMIT_BYTES);
  }

  /** The bytes are the end of all of them, cut to the limit. */
  ghost predicate IsEndOf(bytes: seq<Byte>, all: seq<Byte>, limit: nat) {
    |bytes| == Min(|all|, limit) && bytes == all[|all| - |bytes|..]
  }

  lemma {:induction false} TailIsEnd(value: seq<Byte>, limit: nat)
    ensures IsEndOf(Tail(value, limit), value, limit)
  {
  }

  // ---- steps ----

  function ShellTerminal(terminated: bool, exitCode: Option<int>): Status {
    if terminated then Cancelled else if exitCode == Some(0) then Completed else Failed
  }

  /** Offers the completion event once the runtime is up and until an offer has been accepted. */
  function Dispatch(s: State, accept: bool): State {
    if !s.runtime || s.row.completionEvent then s
    else if accept then s.(row := s.row.(completionEvent := true), offered := s.offered + 1, accepted := s.accepted + 1)
    else s.(offered := s.offered + 1)
  }

  /** `finalize`: nothing for a job that is already terminal. */
  function Finalize(s: State, status: Status, delta: seq<Byte>, terminationRequested: bool, accept: bool): State {
    if !Active(s.row.status) then s
    else
      var merged := MergeOutput(s.row, delta).(status := status, terminationRequested := terminationRequested);
      Dispatch(s.(row := merged, deltas := s.deltas + delta), accept)
  }

  /** The update of `startProcessJob` for a session still running: unguarded except for the status. */
  function Started(s: State, delta: seq<Byte>, terminationRequested: bool): State {
    var status :=
      if !s.row.status.Starting? then s.row.status
      else if s.row.terminationRequested then Cancelling
      else Running;
    s.(row := MergeOutput(s.row, delta).(status := status, session := true,
                                         terminationRequested := s.row.terminationRequested || terminationRequested),
       deltas := s.deltas + delta)
  }

  function StartFailed(s: State, message: seq<Byte>, accept: bool): State {
    if !s.row.status.Starting? then s
    else Dispatch(s.(row := MergeOutput(s.row, message).(status := Failed), deltas := s.deltas + message), accept)
  }

  function Polled(s: State, delta: seq<Byte>, terminationRequested: bool): State {
    if !s.row.status.Running? && !s.row.status.Cancelling? then s
    else
      var merged := MergeOutput(s.row, delta);
      s.(row := merged.(terminationRequested := s.row.terminationRequested || terminationRequested),
         deltas := s.deltas + delta)
  }

  function Next(s: State, e: Event): State {
    match e
    case StartReply(reply, accept) =>
      if !s.startPending then s
      else
        var t := s.(startPending := false);
        (match reply
         case StillRunning(delta, requested) => Started(t, delta, requested)
         case Exited(delta, exitCode, terminated, requested) =>
           Finalize(t.(row := t.row.(session := true)), ShellTerminal(terminated, exitCode), delta, requested, accept)
         case Unknown(delta, requested) =>
           Finalize(t.(row := t.row.(session := true)), ShellTerminal(false, None), delta, requested, accept)
         case Error(message) => StartFailed(t, message, accept))
    case PollReply(reply, accept) =>
      if !s.row.session then s
      else
        (match reply
         case StillRunning(delta, requested) => Polled(s, delta, requested)
         case Exited(delta, exitCode, terminated, requested) =>
           Finalize(s, ShellTerminal(terminated, exitCode), delta, requested, accept)
         case Unknown(delta, requested) => Finalize(s, Lost, delta, requested, accept)
         case Error(_) => s)
    case Cancel =>
      if s.row.status.Starting? || s.row.status.Running?
      then s.(row := s.row.(status := Cancelling, terminationRequested := true)) else s
    case Stop =>
      (if Active(s.row.status) then s.(row := s.row.(status := Interrupted)) else s).(runtime := false)
    case ProcessLost => s.(runtime := false, startPending := false)
    case Init(sameWorkspace, accept) =>
      var t := s.(runtime := true);
      if !Active(s.row.status) then Dispatch(t, accept)
      else if !sameWorkspace || !s.row.session then Dispatch(t.(row := t.row.(status := Lost)), accept)
      else t
  }

  function Run(s: State, events: seq<Event>): State
    decreases |events|
  {
    if events == [] then s else Run(Next(s, events[0]), events[1..])
  }

  // ---- what every run keeps ----

  ghost predicate Invariant(s: State) {
    && Records(s.row, s.deltas)
    && s.accepted == (if s.row.completionEvent then 1 else 0)
    && (s.row.completionEvent ==> !Active(s.row.status))
    && (s.row.status.Starting? ==> !s.row.session)
  }

  /** The status only moves forward, and a terminal status never changes. */
  ghost predicate MovesForward(before: Status, after: Status) {
    Rank(before) <= Rank(after) && (!Active(before) ==> after == before)
  }

  lemma {:induction false} DispatchKeeps(s: State, accept: bool)
    requires Invariant(s) && !Active(s.row.status)
    ensures Invariant(Dispatch(s, accept)) && Dispatch(s, accept).row.status == s.row.status
  {
  }

  lemma {:induction false} FinalizeKeeps(s: State, status: Status, delta: seq<Byte>, requested: bool, accept: bool)
    requires Records(s.row, s.deltas) && s.accepted == (if s.row.completionEvent then 1 else 0)
    requires s.row.completionEvent ==> !Active(s.row.status)
    requires !Active(status)
    ensures var t := Finalize(s, status, delta, requested, accept);
      Invariant(t) && MovesForward(s.row.status, t.row.status)
  {
    if Active(s.row.status) {
      MergeRecords(s.row, s.deltas, delta);
      DispatchKeeps(s.(row := MergeOutput(s.row, delta).(status := status, terminationRequested := requested),
                       deltas := s.deltas + delta), accept);
    }
  }

  lemma {:induction false} StartFailedKeeps(s: State, message: seq<Byte>, accept: bool)
    requires Invariant(s) && s.row.status.Starting?
    ensures var t := StartFailed(s, message, accept); Invariant(t) && !Active(t.row.status)
  {
    MergeRecords(s.row, s.deltas, message);
    DispatchKeeps(s.(row := MergeOutput(s.row, message).(status := Failed), deltas := s.deltas + message), accept);
  }

  lemma {:induction false} StartedKeeps(s: State, delta: seq<Byte>, requested: bool)
    requires Invariant(s)
    ensures var t := Started(s, delta, requested);
      Invariant(t) && MovesForward(s.row.status, t.row.status)
  {
    MergeRecords(s.row, s.deltas, delta);
  }

  lemma {:induction false} StartReplyKeeps(s: State, reply: Reply, accept: bool)
    requires Invariant(s)
    ensures var t := Next(s, StartReply(reply, accept));
      Invariant(t) && MovesForward(s.row.status, t.row.status)
  {
    if s.startPending {
      var t := s.(startPending := false);
      match reply {
        case StillRunning(delta, requested) => StartedKeeps(t, delta, requested);
        case Exited(delta, exitCode, terminated, requested) =>
          FinalizeKeeps(t.(row := t.row.(session := true)), ShellTerminal(terminated, exitCode), delta, requested,
                        accept);
        case Unknown(delta, requested) =>
          FinalizeKeeps(t.(row := t.row.(session := true)), ShellTerminal(false, None), delta, requested, accept);
        case Error(message) =>
          if t.row.status.Starting? {
            StartFailedKeeps(t, message, accept);
          }
      }
    }
  }

  lemma {:induction false} PollReplyKeeps(s: State, reply: Reply, accept: bool)
    requires Invariant(s)
    ensures var t := Next(s, PollReply(reply, accept));
      Invariant(t) && MovesForward(s.row.status, t.row.status)
  {
    if s.row.session {
      match reply {
        case StillRunning(delta, _) => MergeRecords(s.row, s.deltas, delta);
        case Exited(delta, exitCode, terminated, requested) =>
          FinalizeKeeps(s, ShellTerminal(terminated, exitCode), delta, requested, accept);
        case Unknown(delta, requested) => FinalizeKeeps(s, Lost, delta, requested, accept);
        case Error(_) =>
      }
    }
  }

  lemma {:induction false} InitKeeps(s: State, sameWorkspace: bool, accept: bool)
    requires Invariant(s)
    ensures var t := Next(s, Init(sameWorkspace, accept));
      Invariant(t) && MovesForward(s.row.status, t.row.status)
  {
  }

  lemma {:induction false} StepKeeps(s: State, e: Event)
    requires Invariant(s)
    ensures Invariant(Next(s, e)) && MovesForward(s.row.status, Next(s, e).row.status)
  {
    match e {
      case StartReply(reply, accept) => StartReplyKeeps(s, reply, accept);
      case PollReply(reply, accept) => PollReplyKeeps(s, reply, accept);
      case Init(sameWorkspace, accept) => InitKeeps(s, sameWorkspace, accept);
      case _ =>
    }
  }

  /** Over every interleaving of start, poll, cancel, stop, crash and re-initialization: the recorded output is
      the bounded tail of everything that arrived, at most one completion is accepted and only of a terminal
      job, and the status only moves forward. */
  lemma {:induction false} RunKeeps(s: State, events: seq<Event>)
    requires Invariant(s)
    ensures Invariant(Run(s, events)) && MovesForward(s.row.status, Run(s, events).row.status)
    ensures Run(s, events).accepted <= 1
    ensures IsEndOf(Run(s, events).row.output, Run(s, events).deltas, OUTPUT_LIMIT_BYTES)
    decreases |events|
  {
    if events != [] {
      StepKeeps(s, events[0]);
      RunKeeps(Next(s, events[0]), events[1..]);
    } else {
      TailIsEnd(s.deltas, OUTPUT_LIMIT_BYTES);
    }
  }

  lemma {:induction false} InitialInvariant()
    ensures Invariant(INITIAL)
  {
  }

  /** After an initialization no completion is left unoffered: a terminal job whose event was not accepted is
      offered again, and stays to be offered until it is. */
  lemma {:induction false} InitOffersAgain(events: seq<Event>, sameWorkspace: bool, accept: bool)
    ensures var s := Run(INITIAL, events);
      var t := Next(s, Init(sameWorkspace, accept));
      && (!Active(s.row.status) && !s.row.completionEvent
          ==> t.offered == s.offered + 1 && t.row.completionEvent == accept)
      && (s.row.completionEvent ==> t.offered == s.offered)
      && (!Active(t.row.status) && accept ==> t.accepted == 1)
  {
    InitialInvariant();
    RunKeeps(INITIAL, events);
  }

  /** No delta that reaches an active job is lost. */
  lemma {:induction false} ActiveDeltasAreRecorded(events: seq<Event>, delta: seq<Byte>, requested: bool, accept: bool)
    ensures var s := Run(INITIAL, events);
      s.row.session && Active(s.row.status) ==>
        && Next(s, PollReply(StillRunning(delta, requested), accept)).row.outputBytes == s.row.outputBytes + |delta|
        && Next(s, PollReply(Unknown(delta, requested), accept)).row.outputBytes == s.row.outputBytes + |delta|
  {
    InitialInvariant();
    RunKeeps(INITIAL, events);
  }

  /** A reply to the start call always takes the job out of `starting`. */
  lemma {:induction false} StartReplyDecides(events: seq<Event>, reply: Reply, accept: bool)
    ensures var s := Run(INITIAL, events);
      s.startPending ==> !Next(s, StartReply(reply, accept)).row.status.Starting?
  {
  }

  /** The reply that gets through to the job: one to its pending start call, or to a poll of its session. */
  ghost function Heard(s: State, e: Event): Option<Reply> {
    if e.StartReply? && s.startPending then Some(e.reply)
    else if e.PollReply? && s.row.session then Some(e.reply)
    else None
  }

  /** What a step adds to the recorded output: the bytes of a reply heard while the job is active, and whatever comes
      with a start reply of a process that still runs; an error counts only while the job is starting. */
  lemma {:induction false} RecordedIs(s: State, e: Event)
    requires s.row.status.Starting? ==> !s.row.session
    ensures var heard, status := Heard(s, e), s.row.status;
      Next(s, e).deltas == s.deltas
      + (if heard.None? then []
         else if heard.value.Error? then (if e.StartReply? && status.Starting? then heard.value.message else [])
         else if Active(status) || (e.StartReply? && heard.value.StillRunning?) then heard.value.delta
         else [])
  {
    assert s.deltas + [] == s.deltas;
  }

  lemma {:induction false} StatusAfterStart(s: State, reply: Reply, accept: bool)
    requires s.startPending && Active(s.row.status)
    ensures var t := Next(s, StartReply(reply, accept)).row.status;
      match reply
      case StillRunning(_, _) =>
        t == (if !s.row.status.Starting? then s.row.status
              else if s.row.terminationRequested then Cancelling else Running)
      case Exited(_, exitCode, terminated, _) =>
        t == (if terminated then Cancelled else if exitCode == Some(0) then Completed else Failed)
      case Unknown(_, _) => t == Failed
      case Error(_) => t == if s.row.status.Starting? then Failed else s.row.status
  {
  }

  lemma {:induction false} StatusAfterPoll(s: State, reply: Reply, accept: bool)
    requires s.row.session && Active(s.row.status)
    ensures var t := Next(s, PollReply(reply, accept)).row.status;
      match reply
      case Exited(_, exitCode, terminated, _) =>
        t == (if terminated then Cancelled else if exitCode == Some(0) then Completed else Failed)
      case Unknown(_, _) => t == Lost
      case _ => t == s.row.status
  {
  }

  lemma {:induction false} StatusAfterOther(s: State, e: Event)
    requires Active(s.row.status) && Heard(s, e).None?
    ensures Next(s, e).row.status
         == if e.Stop? then Interrupted
            else if e.Cancel? then Cancelling
            else if e.Init? && (!e.sameWorkspace || !s.row.session) then Lost
            else s.row.status
  {
  }

  lemma {:induction false} StatusAfter(s: State, e: Event, t: Status)
    requires Active(s.row.status) && t == Next(s, e).row.status
    ensures Heard(s, e).None? ==>
      t == if e.Stop? then Interrupted
           else if e.Cancel? then Cancelling
           else if e.Init? && (!e.sameWorkspace || !s.row.session) then Lost
           else s.row.status
    ensures Heard(s, e).Some? ==>
      match Heard(s, e).value
      case StillRunning(_, _) =>
        t == (if e.PollReply? || !s.row.status.Starting? then s.row.status
              else if s.row.terminationRequested then Cancelling else Running)
      case Exited(_, exitCode, terminated, _) =>
        t == (if terminated then Cancelled else if exitCode == Some(0) then Completed else Failed)
      case Unknown(_, _) => t == if e.PollReply? then Lost else Failed
      case Error(_) => t == if e.StartReply? && s.row.status.Starting? then Failed else s.row.status
  {
    if Heard(s, e).None? {
      StatusAfterOther(s, e);
    } else if e.StartReply? {
      StatusAfterStart(s, e.reply, e.accept);
    } else {
      StatusAfterPoll(s, e.reply, e.accept);
    }
  }

  /** How an active job ends: by its exit, by a lost session, by a failed start, or by its runtime's end. */
  lemma {:induction false} EndsAs(s: State, e: Event, t: Status)
    requires Active(s.row.status) && t == Next(s, e).row.status
    ensures var heard := Heard(s, e);
      var exited := heard.Some? && heard.value.Exited?;
      && (t.Completed? <==> exited && !heard.value.terminated && heard.value.exitCode == Some(0))
      && (t.Cancelled? <==> exited && heard.value.terminated)
      && (t.Failed? <==>
            || (exited && !heard.value.terminated && heard.value.exitCode != Some(0))
            || (e.StartReply? && heard.Some?
                && (heard.value.Unknown? || (heard.value.Error? && s.row.status.Starting?))))
      && (t.Lost? <==>
            || (e.PollReply? && heard.Some? && heard.value.Unknown?)
            || (e.Init? && (!e.sameWorkspace || !s.row.session)))
      && (t.Interrupted? <==> e.Stop?)
  {
    StatusAfter(s, e, t);
  }

  /** What an active job that stays active turns to: cancelling when asked to, or when its start reply finds that it was
      asked to; running once its start call found it running. */
  lemma {:induction false} GoesOnAs(s: State, e: Event, t: Status)
    requires Active(s.row.status) && t == Next(s, e).row.status && Active(t)
    ensures var started := e.StartReply? && Heard(s, e).Some? && Heard(s, e).value.StillRunning?
        && s.row.status.Starting?;
      && (t.Cancelling? <==> s.row.status.Cancelling? || e.Cancel? || (started && s.row.terminationRequested))
      && (t.Running? <==> !e.Cancel? && (s.row.status.Running? || (started && !s.row.terminationRequested)))
  {
    StatusAfter(s, e, t);
  }

  lemma {:induction false} RequestedByStart(s: State, reply: Reply, accept: bool)
    requires s.startPending
    ensures var before := s.row.terminationRequested;
      Next(s, StartReply(reply, accept)).row.terminationRequested
      == match reply
         case StillRunning(_, requested) => before || requested
         case Exited(_, _, _, requested) => if Active(s.row.status) then requested else before
         case Unknown(_, requested) => if Active(s.row.status) then requested else before
         case Error(_) => before
  {
  }

  lemma {:induction false} RequestedByPoll(s: State, reply: Reply, accept: bool)
    requires s.row.session
    ensures var before := s.row.terminationRequested;
      Next(s, PollReply(reply, accept)).row.terminationRequested
      == match reply
         case StillRunning(_, requested) =>
           before || (requested && (s.row.status.Running? || s.row.status.Cancelling?))
         case Exited(_, _, _, requested) => if Active(s.row.status) then requested else before
         case Unknown(_, requested) => if Active(s.row.status) then requested else before
         case Error(_) => before
  {
  }

  lemma {:induction false} RequestedOtherwise(s: State, e: Event)
    requires Heard(s, e).None?
    ensures Next(s, e).row.terminationRequested
         == (s.row.terminationRequested || (e.Cancel? && (s.row.status.Starting? || s.row.status.Running?)))
  {
  }

  /** Whether a job is known to have been asked to end: once told so by a cancel or a reply of a process that still
      runs; by the last word of one that is over. */
  lemma {:induction false} RequestedIs(s: State, e: Event)
    ensures var heard, before := Heard(s, e), s.row.terminationRequested;
      Next(s, e).row.terminationRequested
      == if e.Cancel? then before || s.row.status.Starting? || s.row.status.Running?
         else if heard.None? || heard.value.Error? then before
         else if heard.value.StillRunning? then
           before || (heard.value.terminationRequested
                      && (e.StartReply? || s.row.status.Running? || s.row.status.Cancelling?))
         else if Active(s.row.status) then heard.value.terminationRequested
         else before
  {
    if Heard(s, e).None? {
      RequestedOtherwise(s, e);
    } else if e.StartReply? {
      RequestedByStart(s, e.reply, e.accept);
    } else {
      RequestedByPoll(s, e.reply, e.accept);
    }
  }

  /** An end is offered when the runtime is up, and taken when the offer is accepted. */
  ghost predicate OffersEnd(s: State, t: State, runtime: bool, accept: bool) {
    if runtime then t.offered == s.offered + 1 && t.row.completionEvent == accept
    else t.offered == s.offered && !t.row.completionEvent
  }

  lemma {:induction false} StartReplyOffers(s: State, reply: Reply, accept: bool)
    requires s.startPending && Active(s.row.status) && !s.row.completionEvent
    requires reply.Exited? || reply.Unknown? || (reply.Error? && s.row.status.Starting?)
    ensures OffersEnd(s, Next(s, StartReply(reply, accept)), s.runtime, accept)
  {
  }

  lemma {:induction false} PollReplyOffers(s: State, reply: Reply, accept: bool)
    requires s.row.session && Active(s.row.status) && !s.row.completionEvent && (reply.Exited? || reply.Unknown?)
    ensures OffersEnd(s, Next(s, PollReply(reply, accept)), s.runtime, accept)
  {
  }

  lemma {:induction false} InitOffers(s: State, sameWorkspace: bool, accept: bool)
    requires Active(s.row.status) && !s.row.completionEvent && (!sameWorkspace || !s.row.session)
    ensures OffersEnd(s, Next(s, Init(sameWorkspace, accept)), true, accept)
  {
  }

  /** A job that ends while its runtime is up, or as it comes up, is offered at once. */
  lemma {:induction false} EndIsOffered(s: State, e: Event)
    requires Active(s.row.status) && !Active(Next(s, e).row.status) && !s.row.completionEvent && !e.Stop?
    ensures e.StartReply? || e.PollReply? || e.Init?
    ensures OffersEnd(s, Next(s, e), s.runtime || e.Init?, e.accept)
  {
    StatusAfter(s, e, Next(s, e).row.status);
    if e.StartReply? {
      StartReplyOffers(s, e.reply, e.accept);
    } else if e.PollReply? {
      PollReplyOffers(s, e.reply, e.accept);
    } else {
      InitOffers(s, e.sameWorkspace, e.accept);
    }
  }

  /** "Output is frozen once terminal" does not hold in general: a start reply still writes to an interrupted row. */
  lemma {:induction false} LateStartWritesToTerminalRow()
    ensures var s := Run(INITIAL, [Stop]);
      var t := Next(s, StartReply(StillRunning([104, 105], false), true));
      !Active(s.row.status) && s.row.output == [] && t.row.status == s.row.status && t.row.output == [104, 105]
  {
    assert Run(Next(INITIAL, Stop), []) == Next(INITIAL, Stop);
    assert [Stop][1..] == [];
    var none: seq<Byte>, late: seq<Byte> := [], [104, 105];
    assert none + late == late;
  }

  /** The output of a terminal job changes exactly when its start call was still running and brings output. */
  lemma {:induction false} TerminalOutputChangesIff(s: State, e: Event)
    requires Invariant(s) && !Active(s.row.status)
    ensures Next(s, e).row.outputBytes != s.row.outputBytes
            <==> e.StartReply? && s.startPending && e.reply.StillRunning? && e.reply.delta != []
  {
  }
}
