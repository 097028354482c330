/** Failure-tolerant completion: routing between two endpoints, bounded recovery, quota failover. */
module Resilience {
  import opened Wrappers

  /** An error as the classifiers see it: its HTTP status if any, and which text patterns it matches. */
  datatype Failure = Failure(
    api: bool, status: nat, quotaText: bool, tooLargeText: bool, imageText: bool, filterText: bool, transportText: bool)

  datatype Kind =
    | QuotaExhausted | PromptTooLarge | ImageParse | ContentFilter | TransientTransport | RateLimited | Unknown

  datatype Slot = Primary | Fallback

  datatype Config = Config(maxPromptTooLargeAttempts: nat, maxRetries: nat)

  datatype Endpoints = Endpoints(primary: bool, fallback: bool, quotaRetryMs: nat)

  const MAX_CONTENT_RECOVERIES: nat := 2

  // ---- classification ----

  predicate IsQuotaExhausted(e: Failure) {
    e.api && 400 <= e.status < 500 && e.quotaText
  }

  predicate IsPromptTooLarge(e: Failure) {
    e.api && (e.status == 400 || e.status == 413) && e.tooLargeText
  }

  predicate ShouldRetryProvider(e: Failure) {
    if e.api then e.status == 0 || e.status == 429 || e.status >= 500 else e.transportText
  }

  predicate ShouldFallback(e: Failure) {
    ShouldRetryProvider(e) || IsQuotaExhausted(e)
  }

  function Classify(e: Failure): Kind {
    if IsQuotaExhausted(e) then QuotaExhausted
    else if IsPromptTooLarge(e) then PromptTooLarge
    else if e.api && e.status == 400 && e.imageText then ImageParse
    else if e.api && e.status == 400 && e.filterText then ContentFilter
    else if e.transportText then TransientTransport
    else if e.api && e.status == 429 then RateLimited
    else Unknown
  }

  // ---- the endpoints and their failover window ----

  /** The endpoint serving a call: the primary unless it is missing or its failover window is still open. */
  function Resolve(p: Endpoints, window: nat, nowMs: nat): Option<Slot> {
    if !p.primary || window > nowMs then (if p.fallback then Some(Fallback) else None) else Some(Primary)
  }

  class ProviderSet {
    const endpoints: Endpoints
    const persisted: Option<nat>
    var failoverLoaded: bool
    var failoverRetryAtMs: nat

    constructor (endpoints: Endpoints, persisted: Option<nat>)
      ensures this.endpoints == endpoints && Window() == (if persisted.Some? then persisted.value else 0)
    {
      this.endpoints, this.persisted := endpoints, persisted;
      failoverLoaded, failoverRetryAtMs := false, 0;
    }

    /** The end of the failover window in force, whether or not it has been loaded yet. */
    ghost function Window(): nat
      reads this
    {
      if failoverLoaded || persisted.None? then failoverRetryAtMs else persisted.value
    }

    method EnsureLoaded()
      modifies this
      ensures failoverLoaded && Window() == old(Window())
    {
      if failoverLoaded {
        return;
      }
      failoverLoaded := true;
      if persisted.Some? {
        failoverRetryAtMs := persisted.value;
      }
    }

    method ResolvePrimary(nowMs: nat) returns (slot: Option<Slot>)
      modifies this
      ensures Window() == old(Window()) && slot == Resolve(endpoints, Window(), nowMs)
    {
      EnsureLoaded();
      var active := failoverRetryAtMs > nowMs;
      if !endpoints.primary || active {
        return if endpoints.fallback then Some(Fallback) else None;
      }
      return Some(Primary);
    }

    method RecordQuotaFailover(e: Failure, nowMs: nat)
      modifies this
      ensures Window() == if IsQuotaExhausted(e) then nowMs + endpoints.quotaRetryMs else old(Window())
    {
      EnsureLoaded();
      if !IsQuotaExhausted(e) {
        return;
      }
      failoverRetryAtMs := nowMs + endpoints.quotaRetryMs;
    }
  }

  // ---- the loop ----

  datatype Answer = Completed | Failed(error: Failure)

  /** What the outside answers during one turn of the loop: the clock, the provider, the recovery hook, and
      whether the caller aborted before the call, during it, or while waiting to retry. */
  datatype Turn = Turn(
    abortedBefore: bool, nowMs: nat, answer: Answer, aborted: bool, hook: bool, recordedAtMs: nat, abortedInSleep: bool)

  /** `setUntil`: the failover window this call's quota failure set. */
  datatype Call = Call(slot: Slot, atMs: nat, setUntil: Option<nat>)

  /** `OutOfTurns` is not an answer of the loop: it says that the loop is still going. */
  datatype Outcome = Returned | Threw(error: Failure) | Aborted | NoProvider | OutOfTurns

  datatype State = State(tooLarge: nat, content: nat, retries: nat, window: nat, calls: seq<Call>)

  function Start(window: nat): State {
    State(0, 0, 0, window, [])
  }

  /** The decision after a failed call, in the order the loop takes it. */
  function Respond(c: Config, p: Endpoints, s: State, slot: Slot, e: Failure, t: Turn): (State, Option<Outcome>) {
    var called := s.(calls := s.calls + [Call(slot, t.nowMs, None)]);
    if t.aborted then (called, Some(Aborted))
    else if IsPromptTooLarge(e) then
      if s.tooLarge >= c.maxPromptTooLargeAttempts then (called, Some(Threw(e)))
      else (called.(tooLarge := s.tooLarge + 1), if t.hook then None else Some(Threw(e)))
    else if Classify(e).ContentFilter? || Classify(e).ImageParse? then
      if s.content >= MAX_CONTENT_RECOVERIES then (called, Some(Threw(e)))
      else (called.(content := s.content + 1), if t.hook then None else Some(Threw(e)))
    else if Classify(e).QuotaExhausted? && slot.Primary? then
      var until := t.recordedAtMs + p.quotaRetryMs;
      (s.(window := until, calls := s.calls + [Call(slot, t.nowMs, Some(until))]),
       if p.fallback then None else Some(Threw(e)))
    else if !ShouldFallback(e) || s.retries >= c.maxRetries then (called, Some(Threw(e)))
    else (called.(retries := s.retries + 1), if t.abortedInSleep then Some(Aborted) else None)
  }

  function Step(c: Config, p: Endpoints, s: State, t: Turn): (State, Option<Outcome>) {
    if t.abortedBefore then (s, Some(Aborted))
    else
      var slot := Resolve(p, s.window, t.nowMs);
      if slot.None? then (s, Some(NoProvider))
      else if t.answer.Completed? then (s.(calls := s.calls + [Call(slot.value, t.nowMs, None)]), Some(Returned))
      else Respond(c, p, s, slot.value, t.answer.error, t)
  }

  function Run(c: Config, p: Endpoints, s: State, turns: seq<Turn>): (State, Outcome)
    decreases |turns|
  {
    if turns == [] then (s, OutOfTurns)
    else
      var (next, done) := Step(c, p, s, turns[0]);
      if done.Some? then (next, done.value) else Run(c, p, next, turns[1..])
  }

  /** The catch block: the counters after it, the window it set, and the outcome when the loop is over. */
  method Recover(providers: ProviderSet, c: Config, promptTooLargeAttempts: nat, contentRecoveryAttempts: nat,
                 retries: nat, slot: Slot, e: Failure, t: Turn, ghost calls: seq<Call>)
    returns (tooLarge: nat, content: nat, retried: nat, setUntil: Option<nat>, done: Option<Outcome>)
    modifies providers
    ensures Respond(c, providers.endpoints,
                    State(promptTooLargeAttempts, contentRecoveryAttempts, retries, old(providers.Window()), calls),
                        slot, e, t)
         == (State(tooLarge, content, retried, providers.Window(), calls + [Call(slot, t.nowMs, setUntil)]), done)
  {
    tooLarge, content, retried, setUntil := promptTooLargeAttempts, contentRecoveryAttempts, retries, None;
    var kind := Classify(e);
    if t.aborted {
      done := Some(Aborted);
    } else if IsPromptTooLarge(e) {
      if promptTooLargeAttempts >= c.maxPromptTooLargeAttempts {
        done := Some(Threw(e));
        return;
      }
      tooLarge := tooLarge + 1;
      done := if t.hook then None else Some(Threw(e));
    } else if kind.ContentFilter? || kind.ImageParse? {
      if contentRecoveryAttempts >= MAX_CONTENT_RECOVERIES {
        done := Some(Threw(e));
        return;
      }
      content := content + 1;
      done := if t.hook then None else Some(Threw(e));
    } else if kind.QuotaExhausted? && slot.Primary? {
      providers.RecordQuotaFailover(e, t.recordedAtMs);
      setUntil := Some(t.recordedAtMs + providers.endpoints.quotaRetryMs);
      done := if providers.endpoints.fallback then None else Some(Threw(e));
    } else {
      var retryable := ShouldRetryProvider(e) || ShouldFallback(e);
      if !retryable || retries >= c.maxRetries {
        done := Some(Threw(e));
        return;
      }
      retried := retried + 1;
      done := if t.abortedInSleep then Some(Aborted) else None;
    }
  }

  method CompleteWithResilience(providers: ProviderSet, c: Config, turns: seq<Turn>)
    returns (outcome: Outcome, calls: seq<Call>)
    modifies providers
    ensures var (last, expected) := Run(c, providers.endpoints, Start(old(providers.Window())), turns);
      outcome == expected && calls == last.calls && providers.Window() == last.window
  {
    var promptTooLargeAttempts, contentRecoveryAttempts, retries := 0, 0, 0;
    calls := [];
    var i := 0;
    ghost var start := Start(providers.Window());
    while i < |turns|
      invariant 0 <= i <= |turns|
      invariant Run(c, providers.endpoints, start, turns)
             == Run(c, providers.endpoints,
                    State(promptTooLargeAttempts, contentRecoveryAttempts, retries, providers.Window(), calls),
                        turns[i..])
    {
      var t := turns[i];
      i := i + 1;
      if t.abortedBefore {
        return Aborted, calls;
      }
      var resolved := providers.ResolvePrimary(t.nowMs);
      if resolved.None? {
        return NoProvider, calls;
      }
      var slot := resolved.value;
      if t.answer.Completed? {
        return Returned, calls + [Call(slot, t.nowMs, None)];
      }
      var setUntil, done;
      promptTooLargeAttempts, contentRecoveryAttempts, retries, setUntil, done :=
        Recover(providers, c, promptTooLargeAttempts, contentRecoveryAttempts, retries, slot, t.answer.error, t, calls);
      calls := calls + [Call(slot, t.nowMs, setUntil)];
      if done.Some? {
        return done.value, calls;
      }
    }
    assert turns[i..] == [];
    outcome := OutOfTurns;
  }

  // ---- one turn, by what goes wrong in it ----

  /** The endpoint that serves a call: the primary unless it is missing or its window is still open. */
  ghost predicate Serves(p: Endpoints, window: nat, nowMs: nat, slot: Slot) {
    match slot
    case Primary => p.primary && window <= nowMs
    case Fallback => p.fallback && !(p.primary && window <= nowMs)
  }

  lemma {:induction false} ResolveIff(p: Endpoints, window: nat, nowMs: nat)
    ensures forall slot :: Resolve(p, window, nowMs) == Some(slot) <==> Serves(p, window, nowMs, slot)
  {
  }

  /** How the loop treats an error: the prompt is too large, the content is rejected, the quota is used up, it may pass,
      or none of these. */
  datatype Trouble = TooLarge | Rejected | OutOfQuota | Passing | Final

  ghost function TroubleOf(e: Failure, slot: Slot): Trouble {
    if e.api && e.status in {400, 413} && e.tooLargeText then TooLarge
    else if e.api && 400 <= e.status < 500 && e.quotaText then if slot.Primary? then OutOfQuota else Passing
    else if e.api && e.status == 400 && (e.imageText || e.filterText) then Rejected
    else if if e.api then e.status in {0, 429} || e.status >= 500 else e.transportText then Passing
    else Final
  }

  /** The failed call is followed by another: the hook shrank or cleaned the prompt and may be asked once more, the
      fallback takes over, or a passing error may be retried. */
  ghost predicate TriesAgain(c: Config, p: Endpoints, s: State, slot: Slot, e: Failure, t: Turn) {
    && !t.aborted
    && match TroubleOf(e, slot)
       case TooLarge => s.tooLarge < c.maxPromptTooLargeAttempts && t.hook
       case Rejected => s.content < 2 && t.hook
       case OutOfQuota => p.fallback
       case Passing => s.retries < c.maxRetries && !t.abortedInSleep
       case Final => false
  }

  /** A failed call, for every error and state: whether the loop goes on, how it ends, and what it has counted. */
  lemma {:induction false} RespondIs(c: Config, p: Endpoints, s: State, slot: Slot, e: Failure, t: Turn)
    ensures var (next, done) := Respond(c, p, s, slot, e, t);
      var trouble := TroubleOf(e, slot);
      && (done.None? <==> TriesAgain(c, p, s, slot, e, t))
      && (done.Some? ==>
            done.value == if t.aborted || (trouble.Passing? && s.retries < c.maxRetries) then Aborted else Threw(e))
      && (done.None? ==>
            && next.tooLarge == s.tooLarge + (if trouble.TooLarge? then 1 else 0)
            && next.content == s.content + (if trouble.Rejected? then 1 else 0)
            && next.retries == s.retries + (if trouble.Passing? then 1 else 0))
      && var until := if !t.aborted && trouble.OutOfQuota? then Some(t.recordedAtMs + p.quotaRetryMs) else None;
         && next.window == (if until.Some? then until.value else s.window)
         && next.calls == s.calls + [Call(slot, t.nowMs, until)]
  {
  }

  /** The kind an error is reported as. */
  lemma {:induction false} KindIs(e: Failure)
    ensures var quota := e.api && 400 <= e.status < 500 && e.quotaText;
      var size := !quota && e.api && e.status in {400, 413} && e.tooLargeText;
      var bad := !quota && !size && e.api && e.status == 400;
      var other := !quota && !size && !(bad && (e.imageText || e.filterText));
      && (Classify(e).QuotaExhausted? <==> quota)
      && (Classify(e).PromptTooLarge? <==> size)
      && (Classify(e).ImageParse? <==> bad && e.imageText)
      && (Classify(e).ContentFilter? <==> bad && !e.imageText && e.filterText)
      && (Classify(e).TransientTransport? <==> other && e.transportText)
      && (Classify(e).RateLimited? <==> other && !e.transportText && e.api && e.status == 429)
  {
  }

  /** A turn without a failed call: aborted before it, without an endpoint, or answered. */
  lemma {:induction false} StepIs(c: Config, p: Endpoints, s: State, t: Turn)
    ensures t.abortedBefore ==> Step(c, p, s, t) == (s, Some(Aborted))
    ensures !t.abortedBefore && (forall slot :: !Serves(p, s.window, t.nowMs, slot)) ==>
      Step(c, p, s, t) == (s, Some(NoProvider))
    ensures forall slot :: !t.abortedBefore && Serves(p, s.window, t.nowMs, slot) ==>
      Step(c, p, s, t)
      == if t.answer.Completed? then (s.(calls := s.calls + [Call(slot, t.nowMs, None)]), Some(Returned))
         else Respond(c, p, s, slot, t.answer.error, t)
  {
    ResolveIff(p, s.window, t.nowMs);
  }

  // ---- the bound ----

  /** Calls whose quota failure set a window. */
  function Quotas(calls: seq<Call>): nat
    decreases |calls|
  {
    if calls == [] then 0
    else Quotas(calls[..|calls| - 1]) + if calls[|calls| - 1].setUntil.Some? then 1 else 0
  }

  /** Primary calls made after a window was set during this run: that window had expired. */
  function Reopenings(calls: seq<Call>): nat
    decreases |calls|
  {
    if calls == [] then 0
    else
      var earlier := calls[..|calls| - 1];
      Reopenings(earlier) + if calls[|calls| - 1].slot.Primary? && Quotas(earlier) > 0 then 1 else 0
  }

  /** No window set during the run ends before a later call of it. */
  ghost predicate Unexpired(calls: seq<Call>) {
    forall i, j :: 0 <= i < j < |calls| && calls[i].setUntil.Some? ==> calls[j].atMs < calls[i].setUntil.value
  }

  /** Every turn so far is accounted for by the counter that let the loop go on. */
  ghost predicate Counted(c: Config, s: State) {
    && |s.calls| == s.tooLarge + s.content + s.retries + Quotas(s.calls)
    && s.tooLarge <= c.maxPromptTooLargeAttempts && s.content <= MAX_CONTENT_RECOVERIES && s.retries <= c.maxRetries
    && Quotas(s.calls) <= 1 + Reopenings(s.calls)
  }

  lemma {:induction false} Snoc(calls: seq<Call>, call: Call)
    ensures Quotas(calls + [call]) == Quotas(calls) + if call.setUntil.Some? then 1 else 0
    ensures Reopenings(calls + [call]) == Reopenings(calls) + if call.slot.Primary? && Quotas(calls) > 0 then 1 else 0
  {
    assert (calls + [call])[..|calls|] == calls;
  }

  lemma {:induction false} CallCounts(c: Config, s: State, next: State, call: Call)
    requires Counted(c, s) && next.calls == s.calls + [call] && (call.setUntil.Some? ==> call.slot.Primary?)
    requires next.tooLarge <= c.maxPromptTooLargeAttempts && next.content <= MAX_CONTENT_RECOVERIES
    requires next.retries <= c.maxRetries
    requires next.tooLarge + next.content + next.retries + (if call.setUntil.Some? then 1 else 0)
          == s.tooLarge + s.content + s.retries + 1
    ensures Counted(c, next)
  {
    Snoc(s.calls, call);
  }

  lemma {:induction false} RespondCounts(c: Config, p: Endpoints, s: State, slot: Slot, e: Failure, t: Turn)
    requires Counted(c, s)
    ensures var (next, done) := Respond(c, p, s, slot, e, t);
      && (next.calls == s.calls + [Call(slot, t.nowMs, None)]
          || next.calls == s.calls + [Call(slot, t.nowMs, Some(t.recordedAtMs + p.quotaRetryMs))])
      && (done.None? ==> Counted(c, next))
  {
    var (next, done) := Respond(c, p, s, slot, e, t);
    if done.None? {
      CallCounts(c, s, next, next.calls[|next.calls| - 1]);
    }
  }

  lemma {:induction false} StepCounts(c: Config, p: Endpoints, s: State, t: Turn)
    requires Counted(c, s)
    ensures var (next, done) := Step(c, p, s, t);
      && (done.None? ==> Counted(c, next) && |next.calls| == |s.calls| + 1)
      && s.calls <= next.calls && |next.calls| <= |s.calls| + 1
      && Reopenings(s.calls) <= Reopenings(next.calls)
  {
    var slot := Resolve(p, s.window, t.nowMs);
    if !t.abortedBefore && slot.Some? {
      Snoc(s.calls, Call(slot.value, t.nowMs, None));
      Snoc(s.calls, Call(slot.value, t.nowMs, Some(t.recordedAtMs + p.quotaRetryMs)));
      if t.answer.Failed? {
        RespondCounts(c, p, s, slot.value, t.answer.error, t);
      }
    }
  }

  function Bound(c: Config): nat {
    c.maxPromptTooLargeAttempts + 2 + c.maxRetries + 2
  }

  lemma {:induction false} StepIsBounded(c: Config, p: Endpoints, s: State, t: Turn)
    requires Counted(c, s)
    ensures var next := Step(c, p, s, t).0; |next.calls| <= Bound(c) + Reopenings(next.calls)
  {
    StepCounts(c, p, s, t);
  }

  /** For any errors and hook answers, the number of calls is bounded by the recovery limits plus one for each
      time a failover window set during the run expired in it; a loop still going has used every turn given. */
  lemma {:induction false} CallsAreBounded(c: Config, p: Endpoints, s: State, turns: seq<Turn>)
    requires Counted(c, s)
    ensures var (last, outcome) := Run(c, p, s, turns);
      && |last.calls| <= Bound(c) + Reopenings(last.calls)
      && (outcome.OutOfTurns? ==> |last.calls| == |s.calls| + |turns| && Counted(c, last))
    decreases |turns|
  {
    if turns != [] {
      var (next, done) := Step(c, p, s, turns[0]);
      if done.None? {
        StepCounts(c, p, s, turns[0]);
        CallsAreBounded(c, p, next, turns[1..]);
      } else {
        StepIsBounded(c, p, s, turns[0]);
      }
    }
  }

  // ---- the primary is left alone while the window is open ----

  /** The call a turn adds, if it makes one: what it says about the endpoint asked and the window set. */
  lemma {:induction false} StepCall(c: Config, p: Endpoints, s: State, t: Turn) returns (call: Call)
    ensures var (next, done) := Step(c, p, s, t);
      && (next.calls == s.calls || next.calls == s.calls + [call])
      && (next.calls == s.calls ==> done.Some? && next.window == s.window)
      && next.window == (if next.calls != s.calls && call.setUntil.Some? then call.setUntil.value else s.window)
      && call.atMs == t.nowMs
      && (call.setUntil.Some? ==> call.slot.Primary? && call.setUntil.value == t.recordedAtMs + p.quotaRetryMs)
      && (next.calls != s.calls && call.slot.Primary? ==> p.primary && s.window <= t.nowMs)
      && (next.calls != s.calls && call.setUntil.Some? && !p.fallback ==> done.Some?)
  {
    var next := Step(c, p, s, t).0;
    if next.calls == s.calls {
      call := Call(Fallback, t.nowMs, None);
    } else {
      call := next.calls[|next.calls| - 1];
    }
  }

  /** The window covers every window set in these calls. */
  ghost predicate Covered(calls: seq<Call>, window: nat) {
    forall i :: 0 <= i < |calls| && calls[i].setUntil.Some? ==> calls[i].setUntil.value <= window
  }

  /** No primary call was made inside a window set before it. */
  ghost predicate LeftAlone(calls: seq<Call>) {
    forall i, j :: 0 <= i < j < |calls| && calls[i].setUntil.Some? && calls[j].atMs < calls[i].setUntil.value
      ==> calls[j].slot.Fallback?
  }

  lemma {:induction false} StepRespects(c: Config, p: Endpoints, s: State, t: Turn)
    requires Covered(s.calls, s.window) && LeftAlone(s.calls) && t.nowMs <= t.recordedAtMs
    ensures var next := Step(c, p, s, t).0; Covered(next.calls, next.window) && LeftAlone(next.calls)
  {
  }

  /** Once a quota failure of the primary is recorded, no call goes to the primary until its window is over. */
  lemma {:induction false} NoPrimaryCallInsideWindow(c: Config, p: Endpoints, s: State, turns: seq<Turn>)
    requires Covered(s.calls, s.window) && LeftAlone(s.calls) && forall t :: t in turns ==> t.nowMs <= t.recordedAtMs
    ensures LeftAlone(Run(c, p, s, turns).0.calls)
    decreases |turns|
  {
    if turns != [] {
      StepRespects(c, p, s, turns[0]);
      var (next, done) := Step(c, p, s, turns[0]);
      if done.None? {
        NoPrimaryCallInsideWindow(c, p, next, turns[1..]);
      }
    }
  }

  lemma {:induction false} SomeQuota(calls: seq<Call>)
    requires Quotas(calls) > 0
    ensures exists i :: 0 <= i < |calls| && calls[i].setUntil.Some?
    decreases |calls|
  {
    if calls[|calls| - 1].setUntil.None? {
      SomeQuota(calls[..|calls| - 1]);
    }
  }

  lemma {:induction false} NoReopenings(calls: seq<Call>)
    requires Unexpired(calls) && LeftAlone(calls)
    ensures Reopenings(calls) == 0
    decreases |calls|
  {
    if calls != [] {
      var earlier := calls[..|calls| - 1];
      NoReopenings(earlier);
      if Quotas(earlier) > 0 {
        SomeQuota(earlier);
        var i :| 0 <= i < |earlier| && earlier[i].setUntil.Some?;
        assert calls[i].setUntil.Some? && calls[|calls| - 1].atMs < calls[i].setUntil.value;
      }
    }
  }

  // ---- when the loop is bounded ----

  /** The clock of the answers: every call happens less than `periodMs` after any earlier failure was recorded. */
  ghost predicate Within(turns: seq<Turn>, periodMs: nat) {
    && (forall t :: t in turns ==> t.nowMs <= t.recordedAtMs)
    && forall i, j :: 0 <= i < j < |turns| ==> turns[j].nowMs < turns[i].recordedAtMs + periodMs
  }

  /** The turns still to come happen inside every window set so far. */
  ghost predicate Ahead(calls: seq<Call>, turns: seq<Turn>) {
    forall i, t :: 0 <= i < |calls| && calls[i].setUntil.Some? && t in turns ==> t.nowMs < calls[i].setUntil.value
  }

  lemma {:induction false} CallStaysAhead(calls: seq<Call>, call: Call, turns: seq<Turn>, periodMs: nat)
    requires turns != [] && Unexpired(calls) && Ahead(calls, turns) && Within(turns, periodMs)
    requires call.atMs == turns[0].nowMs
    requires call.setUntil.Some? ==> call.setUntil.value == turns[0].recordedAtMs + periodMs
    ensures Unexpired(calls + [call]) && Ahead(calls + [call], turns[1..])
  {
    var all := calls + [call];
    assert turns[0] in turns;
    assert forall i :: 0 <= i < |calls| ==> all[i] == calls[i];
    forall i, t | 0 <= i < |all| && all[i].setUntil.Some? && t in turns[1..]
      ensures t.nowMs < all[i].setUntil.value
    {
      var j :| 0 <= j < |turns[1..]| && turns[1..][j] == t;
      assert turns[j + 1] == t && t in turns;
    }
  }

  lemma {:induction false} WithinRest(turns: seq<Turn>, periodMs: nat)
    requires turns != [] && Within(turns, periodMs)
    ensures Within(turns[1..], periodMs)
  {
    assert forall i :: 0 <= i < |turns[1..]| ==> turns[1..][i] == turns[i + 1];
  }

  lemma {:induction false} NothingExpires(c: Config, p: Endpoints, s: State, turns: seq<Turn>)
    requires Unexpired(s.calls) && Ahead(s.calls, turns) && Within(turns, p.quotaRetryMs)
    ensures Unexpired(Run(c, p, s, turns).0.calls)
    decreases |turns|
  {
    if turns != [] {
      var call := StepCall(c, p, s, turns[0]);
      var (next, done) := Step(c, p, s, turns[0]);
      if next.calls != s.calls {
        CallStaysAhead(s.calls, call, turns, p.quotaRetryMs);
        if done.None? {
          WithinRest(turns, p.quotaRetryMs);
          NothingExpires(c, p, next, turns[1..]);
        }
      }
    }
  }

  /** The loop ends: when every call happens less than quotaRetryMs after any earlier recorded failure, at most
      maxPromptTooLargeAttempts + 2 + maxRetries + 2 calls are made, and given that many turns it has an answer. */
  lemma {:induction false} LoopTerminates(c: Config, p: Endpoints, window: nat, turns: seq<Turn>)
    requires Within(turns, p.quotaRetryMs)
    ensures var (last, outcome) := Run(c, p, Start(window), turns);
      && |last.calls| <= Bound(c)
      && (|turns| >= Bound(c) ==> !outcome.OutOfTurns?)
  {
    CallsAreBounded(c, p, Start(window), turns);
    NoPrimaryCallInsideWindow(c, p, Start(window), turns);
    NothingExpires(c, p, Start(window), turns);
    NoReopenings(Run(c, p, Start(window), turns).0.calls);
  }

  /** With one endpoint only, no call reopens anything: a quota failure ends the loop, or there is no primary. */
  lemma {:induction false} OneEndpointNeverReopens(c: Config, p: Endpoints, s: State, turns: seq<Turn>)
    requires !(p.primary && p.fallback) && Quotas(s.calls) == 0 && Reopenings(s.calls) == 0
    ensures Reopenings(Run(c, p, s, turns).0.calls) == 0
    decreases |turns|
  {
    if turns != [] {
      var call := StepCall(c, p, s, turns[0]);
      var (next, done) := Step(c, p, s, turns[0]);
      Snoc(s.calls, call);
      if done.None? {
        OneEndpointNeverReopens(c, p, next, turns[1..]);
      }
    }
  }

  // ---- the exact conditions ----

  const QUOTA := Failure(true, 429, true, false, false, false, false)
  const TOO_LARGE := Failure(true, 413, false, true, false, false, false)
  const FILTERED := Failure(true, 400, false, false, false, true, false)
  const OVERLOADED := Failure(true, 500, false, false, false, false, false)

  function Failing(e: Failure, nowMs: nat): Turn {
    Turn(false, nowMs, Failed(e), false, true, nowMs, false)
  }

  /** Every turn happens as the window of the one before ends. */
  function ExpiringTurns(n: nat, startMs: nat, periodMs: nat): seq<Turn> {
    if n == 0 then [] else [Failing(QUOTA, startMs)] + ExpiringTurns(n - 1, startMs + periodMs, periodMs)
  }

  /** Without the condition there is no bound: windows that expire keep the loop going for any number of turns. */
  lemma {:induction false} ExpiringWindowsNeverEnd(c: Config, p: Endpoints, s: State, n: nat, startMs: nat)
    requires p.primary && p.fallback && s.window <= startMs
    ensures var (last, outcome) := Run(c, p, s, ExpiringTurns(n, startMs, p.quotaRetryMs));
      outcome == OutOfTurns && |last.calls| == |s.calls| + n
    decreases n
  {
    if n > 0 {
      var turns := ExpiringTurns(n, startMs, p.quotaRetryMs);
      assert turns[0] == Failing(QUOTA, startMs)
          && turns[1..] == ExpiringTurns(n - 1, startMs + p.quotaRetryMs, p.quotaRetryMs);
      ExpiringWindowsNeverEnd(c, p, Step(c, p, s, turns[0]).0, n - 1, startMs + p.quotaRetryMs);
    }
  }

  function Repeat(t: Turn, n: nat): seq<Turn> {
    if n == 0 then [] else [t] + Repeat(t, n - 1)
  }

  function Recovered(s: State, e: Failure): State {
    var called := s.(calls := s.calls + [Call(Primary, 0, None)]);
    if e == TOO_LARGE then called.(tooLarge := s.tooLarge + 1)
    else if e == FILTERED then called.(content := s.content + 1)
    else called.(retries := s.retries + 1)
  }

  predicate Allows(c: Config, s: State, e: Failure, n: nat) {
    && (e == TOO_LARGE ==> s.tooLarge + n <= c.maxPromptTooLargeAttempts)
    && (e == FILTERED ==> s.content + n <= MAX_CONTENT_RECOVERIES)
    && (e == OVERLOADED ==> s.retries + n <= c.maxRetries)
  }

  /** A block of equal turns that the loop gets through. */
  lemma {:induction false} RunsThrough(c: Config, p: Endpoints, s: State, e: Failure, n: nat, rest: seq<Turn>)
      returns (t: State)
    requires p.primary && s.window == 0 && Allows(c, s, e, n)
    requires e == TOO_LARGE || e == FILTERED || e == OVERLOADED
    ensures Run(c, p, s, Repeat(Failing(e, 0), n) + rest) == Run(c, p, t, rest)
    ensures |t.calls| == |s.calls| + n && t.window == 0
    ensures e != TOO_LARGE ==> t.tooLarge == s.tooLarge
    ensures e != FILTERED ==> t.content == s.content
    ensures e != OVERLOADED ==> t.retries == s.retries
    decreases n
  {
    var turns := Repeat(Failing(e, 0), n) + rest;
    if n == 0 {
      assert turns == rest;
      t := s;
    } else {
      assert turns[0] == Failing(e, 0) && turns[1..] == Repeat(Failing(e, 0), n - 1) + rest;
      t := RunsThrough(c, p, Recovered(s, e), e, n - 1, rest);
    }
  }

  /** Every recovery the limits allow, then the given ending. */
  function RecoveriesThen(c: Config, ending: seq<Turn>): seq<Turn> {
    Repeat(Failing(TOO_LARGE, 0), c.maxPromptTooLargeAttempts)
    + (Repeat(Failing(FILTERED, 0), MAX_CONTENT_RECOVERIES) + (Repeat(Failing(OVERLOADED, 0), c.maxRetries) + ending))
  }

  lemma {:induction false} RecoveriesRunThrough(c: Config, p: Endpoints, ending: seq<Turn>) returns (s: State)
    requires p.primary
    ensures Run(c, p, Start(0), RecoveriesThen(c, ending)) == Run(c, p, s, ending)
    ensures s.window == 0 && |s.calls| == c.maxPromptTooLargeAttempts + MAX_CONTENT_RECOVERIES + c.maxRetries
  {
    var retrying := Repeat(Failing(OVERLOADED, 0), c.maxRetries) + ending;
    var filtered := Repeat(Failing(FILTERED, 0), MAX_CONTENT_RECOVERIES) + retrying;
    var a := RunsThrough(c, p, Start(0), TOO_LARGE, c.maxPromptTooLargeAttempts, filtered);
    var b := RunsThrough(c, p, a, FILTERED, MAX_CONTENT_RECOVERIES, retrying);
    s := RunsThrough(c, p, b, OVERLOADED, c.maxRetries, ending);
  }

  function Succeeding(nowMs: nat): Turn {
    Turn(false, nowMs, Completed, false, false, nowMs, false)
  }

  /** The bound is exact: some answers reach it, with every recovery and the one failover used, and succeed. */
  lemma {:induction false} BoundIsReached(c: Config, p: Endpoints)
    requires p.primary && p.fallback && p.quotaRetryMs > 0
    ensures var (last, outcome) := Run(c, p, Start(0), RecoveriesThen(c, [Failing(QUOTA, 0), Succeeding(0)]));
      outcome == Returned && |last.calls| == Bound(c)
  {
    var s := RecoveriesRunThrough(c, p, [Failing(QUOTA, 0), Succeeding(0)]);
    FailoverThenSuccess(c, p, s, 0);
  }

  lemma {:induction false} FailoverThenSuccess(c: Config, p: Endpoints, s: State, nowMs: nat)
    requires p.primary && p.fallback && s.window <= nowMs
    ensures var (last, outcome) := Run(c, p, s, [Failing(QUOTA, nowMs), Succeeding(nowMs)]);
      outcome == Returned && |last.calls| == |s.calls| + 2
  {
    var success := Succeeding(nowMs);
    assert [Failing(QUOTA, nowMs), success][1..] == [success];
    var next := Step(c, p, s, Failing(QUOTA, nowMs)).0;
    assert Run(c, p, next, [success]).1 == Returned;
  }

  /** The window ends once, a second failover follows: one call more than the bound, in quotaRetryMs. */
  function SlowTurns(c: Config, p: Endpoints): seq<Turn> {
    RecoveriesThen(c, [Failing(QUOTA, 0), Failing(QUOTA, p.quotaRetryMs), Succeeding(p.quotaRetryMs)])
  }

  lemma {:induction false} SlowTurnsPassBound(c: Config, p: Endpoints)
    requires p.primary && p.fallback
    ensures |Run(c, p, Start(0), SlowTurns(c, p)).0.calls| == Bound(c) + 1
  {
    var q := p.quotaRetryMs;
    var ending := [Failing(QUOTA, 0), Failing(QUOTA, q), Succeeding(q)];
    var s := RecoveriesRunThrough(c, p, ending);
    assert ending[1..] == [Failing(QUOTA, q), Succeeding(q)];
    FailoverThenSuccess(c, p, Step(c, p, s, Failing(QUOTA, 0)).0, q);
  }

  lemma {:induction false} RepeatIsWithin(t: Turn, n: nat)
    ensures forall x :: x in Repeat(t, n) ==> x == t
  {
    if n > 0 {
      RepeatIsWithin(t, n - 1);
    }
  }

  lemma {:induction false} SlowTurnsAreWithin(c: Config, p: Endpoints, periodMs: nat)
    requires periodMs > p.quotaRetryMs
    ensures Within(SlowTurns(c, p), periodMs)
  {
    RepeatIsWithin(Failing(TOO_LARGE, 0), c.maxPromptTooLargeAttempts);
    RepeatIsWithin(Failing(FILTERED, 0), MAX_CONTENT_RECOVERIES);
    RepeatIsWithin(Failing(OVERLOADED, 0), c.maxRetries);
    var turns := SlowTurns(c, p);
    forall t | t in turns
      ensures t.recordedAtMs == t.nowMs <= p.quotaRetryMs
    {
    }
    forall i, j | 0 <= i < j < |turns|
      ensures turns[j].nowMs < turns[i].recordedAtMs + periodMs
    {
      assert turns[i] in turns && turns[j] in turns;
    }
  }

  /** For any errors, hook answers and times, the number of calls stays within the bound exactly when the provider set
      does not have both endpoints. */
  lemma {:induction false} BoundHoldsIff(c: Config, p: Endpoints)
    ensures (forall window: nat, turns: seq<Turn> :: |Run(c, p, Start(window), turns).0.calls| <= Bound(c))
       <==> !(p.primary && p.fallback)
  {
    if p.primary && p.fallback {
      SlowTurnsPassBound(c, p);
    } else {
      forall window: nat, turns: seq<Turn>
        ensures |Run(c, p, Start(window), turns).0.calls| <= Bound(c)
      {
        CallsAreBounded(c, p, Start(window), turns);
        OneEndpointNeverReopens(c, p, Start(window), turns);
      }
    }
  }

  /** And for calls that last less than a given time, exactly when there is one endpoint or that time is no longer
      than a failover window. */
  lemma {:induction false} BoundHoldsWithinIff(c: Config, p: Endpoints, periodMs: nat)
    ensures (forall window: nat, turns: seq<Turn> ::
               Within(turns, periodMs) ==> |Run(c, p, Start(window), turns).0.calls| <= Bound(c))
       <==> !(p.primary && p.fallback) || periodMs <= p.quotaRetryMs
  {
    if p.primary && p.fallback && periodMs > p.quotaRetryMs {
      SlowTurnsPassBound(c, p);
      SlowTurnsAreWithin(c, p, periodMs);
      assert !(Within(SlowTurns(c, p), periodMs) ==> |Run(c, p, Start(0), SlowTurns(c, p)).0.calls| <= Bound(c));
    } else {
      forall window: nat, turns: seq<Turn> | Within(turns, periodMs)
        ensures |Run(c, p, Start(window), turns).0.calls| <= Bound(c)
      {
        if p.primary && p.fallback {
          assert Within(turns, p.quotaRetryMs);
          LoopTerminates(c, p, window, turns);
        } else {
          CallsAreBounded(c, p, Start(window), turns);
          OneEndpointNeverReopens(c, p, Start(window), turns);
        }
      }
    }
  }
}
