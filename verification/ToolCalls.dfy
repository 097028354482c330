/** Executing the tool calls of one assistant message: every call the model made is answered once. */
module ToolCalls {
  import opened Wrappers

  datatype Message =
    | Assistant(content: string, calls: seq<Call>)
    | ToolResult(callId: string, content: string)
    | Event(source: string)
    | Other(content: string)

  datatype Call = Call(isFunction: bool, id: string, name: string, arguments: Arguments)

  /** Raw arguments as the model may send them. */
  datatype Arguments = Missing | ObjectValue | Text(text: string) | OtherType(typeName: string)

  /** What a JSON reader makes of a text. */
  datatype Json = JsonObject | JsonOther | Malformed(reason: string)

  datatype Input = Input(source: string)

  datatype Ending = Returned(shouldRest: bool) | Threw(error: string)

  /** What the outside does while one call is handled: the messages its handler appends and how it ends, the
      inputs that arrive meanwhile, and the deferred ones released afterwards. */
  datatype Handling = Handling(appended: seq<Message>, ending: Ending, arrived: seq<Input>, flushed: seq<Input>)

  /** The tools of this turn, and the JSON reader. */
  datatype Tools = Tools(allowed: set<string>, handlers: set<string>, parse: string -> Json)

  datatype State = State(conversation: seq<Message>, pending: seq<Input>)

  predicate IsWaitTool(name: string) {
    name == "wait" || name == "wait_then_continue"
  }

  /** The error of unusable arguments, if any. */
  function ParseToolArguments(a: Arguments, parse: string -> Json): Option<string> {
    match a
    case Missing => None
    case ObjectValue => None
    case OtherType(typeName) => Some("expected an object or JSON string, got " + typeName)
    case Text(text) =>
      if Blank(text) then None
      else
        match parse(text)
        case JsonObject => None
        case JsonOther => Some("tool arguments must be a JSON object")
        case Malformed(reason) => Some(reason)
  }

  // ---- results in the conversation ----

  /** The ids of the calls answered in a conversation, in order. */
  function Answered(ms: seq<Message>): seq<string>
    decreases |ms|
  {
    if ms == [] then [] else (if ms[0].ToolResult? then [ms[0].callId] else []) + Answered(ms[1..])
  }

  function Ids(calls: seq<Call>): (ids: seq<string>)
    ensures |ids| == |calls| && forall i :: 0 <= i < |calls| ==> ids[i] == calls[i].id
  {
    seq(|calls|, i requires 0 <= i < |calls| => calls[i].id)
  }

  lemma {:induction false} AnsweredConcat(a: seq<Message>, b: seq<Message>)
    ensures Answered(a + b) == Answered(a) + Answered(b)
    decreases |a|
  {
    if a == [] {
      assert a + b == b;
    } else {
      assert (a + b)[1..] == a[1..] + b && (a + b)[0] == a[0];
      AnsweredConcat(a[1..], b);
      Assoc(if a[0].ToolResult? then [a[0].callId] else [], Answered(a[1..]), Answered(b));
    }
  }

  lemma {:induction false} AnsweredOne(m: Message)
    ensures Answered([m]) == if m.ToolResult? then [m.callId] else []
  {
    assert [m][1..] == [];
  }

  // ---- one call ----

  function Push(s: State, call: Call, content: string): State {
    s.(conversation := s.conversation + [ToolResult(call.id, content)])
  }

  function Execute(s: State, t: Tools, call: Call, h: Handling): (State, bool) {
    var parsed := ParseToolArguments(call.arguments, t.parse);
    if parsed.Some? then
      (Push(s, call, "error: invalid arguments for " + call.name + ": " + parsed.value), false)
    else
      var flushed := if IsWaitTool(call.name) then [] else h.flushed;
      if call.name !in t.handlers then
        var told := Push(s, call, "error: unknown tool " + call.name);
        (told.(pending := told.pending + flushed), false)
      else
        var ran := State(s.conversation + h.appended, s.pending + h.arrived);
        var told := if h.ending.Threw? && call.id !in Answered(ran.conversation)
            then Push(ran, call, "error: " + h.ending.error) else ran;
        (told.(pending := told.pending + flushed), h.ending.Returned? && h.ending.shouldRest)
  }

  function Unavailable(call: Call): string {
    "error: " + call.name + " is not available for this agent right now"
  }

  function Skip(ms: seq<Message>, calls: seq<Call>, source: string): seq<Message>
    decreases |calls|
  {
    if calls == [] then ms
    else Skip(ms + [ToolResult(calls[0].id, "skipped: interrupted by incoming " + source + " event.")], calls[1..],
        source)
  }

  /** The batch, and whether it ends in rest. */
  function Process(s: State, t: Tools, calls: seq<Call>, hs: seq<Handling>): (State, bool)
    requires |hs| == |calls|
    decreases |calls|
  {
    if calls == [] then (s, false)
    else if calls[0].name !in t.allowed then
      Process(Push(s, calls[0], Unavailable(calls[0])), t, calls[1..], hs[1..])
    else
      var (next, rest) := Execute(s, t, calls[0], hs[0]);
      if rest then (next, true)
      else if next.pending != [] then
        var incoming := next.pending[0];
        (State(Skip(next.conversation + [Event(incoming.source)], calls[1..], incoming.source), next.pending[1..]),
         false)
      else Process(next, t, calls[1..], hs[1..])
  }

  function FunctionCalls(calls: seq<Call>): seq<Call>
    decreases |calls|
  {
    if calls == [] then [] else (if calls[0].isFunction then [calls[0]] else []) + FunctionCalls(calls[1..])
  }

  datatype CycleOutcome = NoTools | ToolsDone | Rest

  class LoopState {
    var conversation: seq<Message>
    var pendingInputs: seq<Input>
    var toolInFlight: bool

    constructor (pendingInputs: seq<Input>)
      ensures Now() == State([], pendingInputs) && !toolInFlight
    {
      conversation, toolInFlight := [], false;
      this.pendingInputs := pendingInputs;
    }

    function Now(): State
      reads this
    {
      State(conversation, pendingInputs)
    }

    method PushToolMessage(call: Call, content: string)
      modifies this`conversation
      ensures Now() == Push(old(Now()), call, content)
    {
      conversation := conversation + [ToolResult(call.id, content)];
    }

    method HasToolResponse(call: Call) returns (found: bool)
      ensures found <==> call.id in Answered(conversation)
    {
      for i := 0 to |conversation|
        invariant call.id !in Answered(conversation[..i])
      {
        var m := conversation[i];
        assert conversation[..i + 1] == conversation[..i] + [m]
            && conversation == conversation[..i + 1] + conversation[i + 1..];
        AnsweredConcat(conversation[..i], [m]);
        AnsweredOne(m);
        AnsweredConcat(conversation[..i + 1], conversation[i + 1..]);
        if m.ToolResult? && m.callId == call.id {
          return true;
        }
      }
      assert conversation[..|conversation|] == conversation;
      return false;
    }

    method ExecuteToolCall(t: Tools, call: Call, h: Handling) returns (rest: bool)
      modifies this
      ensures (Now(), rest) == Execute(old(Now()), t, call, h)
      ensures !old(toolInFlight) ==> !toolInFlight
    {
      var parsed := ParseToolArguments(call.arguments, t.parse);
      if parsed.Some? {
        PushToolMessage(call, "error: invalid arguments for " + call.name + ": " + parsed.value);
        return false;
      }
      var waiting := IsWaitTool(call.name);
      if !waiting {
        toolInFlight := true;
      }
      rest := false;
      if call.name !in t.handlers {
        PushToolMessage(call, "error: unknown tool " + call.name);
      } else {
        conversation := conversation + h.appended;
        pendingInputs := pendingInputs + h.arrived;
        match h.ending {
          case Returned(shouldRest) => rest := shouldRest;
          case Threw(error) =>
            var recorded := HasToolResponse(call);
            if !recorded {
              PushToolMessage(call, "error: " + error);
            }
        }
      }
      if !waiting {
        toolInFlight := false;
        pendingInputs := pendingInputs + h.flushed;
      } else {
        assert pendingInputs + [] == pendingInputs;
      }
    }

    method SkipRemaining(calls: seq<Call>, source: string)
      modifies this`conversation
      ensures conversation == Skip(old(conversation), calls, source)
    {
      for i := 0 to |calls|
        invariant Skip(conversation, calls[i..], source) == Skip(old(conversation), calls, source)
      {
        assert calls[i..][1..] == calls[i + 1..];
        PushToolMessage(calls[i], "skipped: interrupted by incoming " + source + " event.");
      }
    }

    method ProcessToolCalls(t: Tools, calls: seq<Call>, hs: seq<Handling>) returns (rest: bool)
      requires |hs| == |calls|
      modifies this
      ensures (Now(), rest) == Process(old(Now()), t, calls, hs)
      ensures !old(toolInFlight) ==> !toolInFlight
    {
      for i := 0 to |calls|
        invariant Process(old(Now()), t, calls, hs) == Process(Now(), t, calls[i..], hs[i..])
        invariant !old(toolInFlight) ==> !toolInFlight
      {
        var call := calls[i];
        assert calls[i..][1..] == calls[i + 1..] && hs[i..][1..] == hs[i + 1..];
        if call.name !in t.allowed {
          PushToolMessage(call, Unavailable(call));
          continue;
        }
        rest := ExecuteToolCall(t, call, hs[i]);
        if rest {
          return;
        }
        if |pendingInputs| > 0 {
          var incoming := pendingInputs[0];
          pendingInputs := pendingInputs[1..];
          conversation := conversation + [Event(incoming.source)];
          SkipRemaining(calls[i + 1..], incoming.source);
          return false;
        }
      }
      return false;
    }

    /** One assistant message: recorded, then its function calls are processed. */
    method ProcessAssistantTurn(t: Tools, message: Message, hs: seq<Handling>) returns (outcome: CycleOutcome)
      requires message.Assistant? && |hs| == |FunctionCalls(message.calls)|
      modifies this
      ensures var spoken := State(old(conversation) + [message], old(pendingInputs));
        var (last, rest) := Process(spoken, t, FunctionCalls(message.calls), hs);
        && Now() == last
        && outcome == (if FunctionCalls(message.calls) == [] then NoTools else if rest then Rest else ToolsDone)
      ensures !old(toolInFlight) ==> !toolInFlight
    {
      conversation := conversation + [message];
      var functionCalls := FunctionCalls(message.calls);
      if |functionCalls| == 0 {
        return NoTools;
      }
      var rest := ProcessToolCalls(t, functionCalls, hs);
      return if rest then Rest else ToolsDone;
    }
  }

  // ---- every call is answered exactly once ----

  /** A handler records one result when it returns, at most one when it throws, and none for other calls. */
  ghost predicate Disciplined(call: Call, h: Handling) {
    || Answered(h.appended) == [call.id]
    || (h.ending.Threw? && Answered(h.appended) == [])
  }

  lemma {:induction false} PushAnswers(s: State, call: Call, content: string)
    ensures Answered(Push(s, call, content).conversation) == Answered(s.conversation) + [call.id]
  {
    AnsweredConcat(s.conversation, [ToolResult(call.id, content)]);
    AnsweredOne(ToolResult(call.id, content));
  }

  /** Bad arguments, an unknown tool, a handler that returns or one that throws: one result each. */
  lemma {:induction false} ExecuteAnswers(s: State, t: Tools, call: Call, h: Handling)
    requires call.id !in Answered(s.conversation) && Disciplined(call, h)
    ensures Answered(Execute(s, t, call, h).0.conversation) == Answered(s.conversation) + [call.id]
  {
    var parsed := ParseToolArguments(call.arguments, t.parse);
    if parsed.Some? {
      PushAnswers(s, call, "error: invalid arguments for " + call.name + ": " + parsed.value);
    } else if call.name !in t.handlers {
      PushAnswers(s, call, "error: unknown tool " + call.name);
    } else {
      var ran := State(s.conversation + h.appended, s.pending + h.arrived);
      AnsweredConcat(s.conversation, h.appended);
      if h.ending.Threw? {
        PushAnswers(ran, call, "error: " + h.ending.error);
      }
    }
  }

  lemma {:induction false} SkipAnswers(ms: seq<Message>, calls: seq<Call>, source: string)
    ensures Answered(Skip(ms, calls, source)) == Answered(ms) + Ids(calls)
    decreases |calls|
  {
    if calls != [] {
      var skipped := ToolResult(calls[0].id, "skipped: interrupted by incoming " + source + " event.");
      AnsweredConcat(ms, [skipped]);
      AnsweredOne(skipped);
      SkipAnswers(ms + [skipped], calls[1..], source);
      assert [calls[0].id] + Ids(calls[1..]) == Ids(calls);
    }
  }

  /** How many calls the batch gets to: all of them, unless one before ends in rest. */
  function Reached(s: State, t: Tools, calls: seq<Call>, hs: seq<Handling>): (n: nat)
    requires |hs| == |calls|
    ensures n <= |calls|
    decreases |calls|
  {
    if calls == [] then 0
    else if calls[0].name !in t.allowed then
      1 + Reached(Push(s, calls[0], Unavailable(calls[0])), t, calls[1..], hs[1..])
    else
      var (next, rest) := Execute(s, t, calls[0], hs[0]);
      if rest then 1
      else if next.pending != [] then |calls|
      else 1 + Reached(next, t, calls[1..], hs[1..])
  }

  ghost predicate FreshCalls(s: State, calls: seq<Call>) {
    Distinct(Ids(calls)) && forall c :: c in calls ==> c.id !in Answered(s.conversation)
  }

  lemma {:induction false} IdsCons(calls: seq<Call>, before: seq<string>, after: seq<string>, n: nat)
    requires calls != [] && n < |calls| && after == before + [calls[0].id]
    ensures after + Ids(calls[1..])[..n] == before + Ids(calls)[..n + 1]
  {
  }

  /** For fresh distinct call ids and any arguments, tools, handlers and arriving events, the batch adds exactly
      one result for each call it reaches, in call order, and none for any other. */
  lemma {:induction false} EachCallIsAnsweredOnce(s: State, t: Tools, calls: seq<Call>, hs: seq<Handling>)
    requires |hs| == |calls| && FreshCalls(s, calls)
    requires forall i :: 0 <= i < |calls| ==> Disciplined(calls[i], hs[i])
    ensures Answered(Process(s, t, calls, hs).0.conversation)
         == Answered(s.conversation) + Ids(calls)[..Reached(s, t, calls, hs)]
    decreases |calls|, 2
  {
    if calls != [] {
      if calls[0].name in t.allowed {
        ExecutedIsAnsweredOnce(s, t, calls, hs);
      } else {
        PushAnswers(s, calls[0], Unavailable(calls[0]));
        RestIsAnsweredOnce(s, Push(s, calls[0], Unavailable(calls[0])), t, calls, hs);
      }
    }
  }

  lemma {:induction false} ExecutedIsAnsweredOnce(s: State, t: Tools, calls: seq<Call>, hs: seq<Handling>)
    requires |hs| == |calls| && calls != [] && FreshCalls(s, calls) && calls[0].name in t.allowed
    requires forall i :: 0 <= i < |calls| ==> Disciplined(calls[i], hs[i])
    ensures Answered(Process(s, t, calls, hs).0.conversation)
         == Answered(s.conversation) + Ids(calls)[..Reached(s, t, calls, hs)]
    decreases |calls|, 1
  {
    var (next, rest) := Execute(s, t, calls[0], hs[0]);
    assert calls[0] in calls;
    ExecuteAnswers(s, t, calls[0], hs[0]);
    if rest {
      IdsCons(calls, Answered(s.conversation), Answered(next.conversation), 0);
    } else if next.pending != [] {
      InterruptionAnswersRest(s, next, calls);
    } else {
      RestIsAnsweredOnce(s, next, t, calls, hs);
    }
  }

  lemma {:induction false} RestIsAnsweredOnce(s: State, next: State, t: Tools, calls: seq<Call>, hs: seq<Handling>)
    requires |hs| == |calls| && calls != [] && FreshCalls(s, calls)
    requires forall i :: 0 <= i < |calls| ==> Disciplined(calls[i], hs[i])
    requires Answered(next.conversation) == Answered(s.conversation) + [calls[0].id]
    ensures Answered(Process(next, t, calls[1..], hs[1..]).0.conversation)
         == Answered(s.conversation) + Ids(calls)[..1 + Reached(next, t, calls[1..], hs[1..])]
    decreases |calls|, 0
  {
    EachCallIsAnsweredOnce(next, t, calls[1..], hs[1..]);
    IdsCons(calls, Answered(s.conversation), Answered(next.conversation), Reached(next, t, calls[1..], hs[1..]));
  }

  lemma {:induction false} InterruptionAnswersRest(s: State, next: State, calls: seq<Call>)
    requires calls != [] && next.pending != []
    requires Answered(next.conversation) == Answered(s.conversation) + [calls[0].id]
    ensures var source := next.pending[0].source;
      Answered(Skip(next.conversation + [Event(source)], calls[1..], source)) == Answered(s.conversation) + Ids(calls)
  {
    var source := next.pending[0].source;
    AnsweredConcat(next.conversation, [Event(source)]);
    AnsweredOne(Event(source));
    SkipAnswers(next.conversation + [Event(source)], calls[1..], source);
    assert Answered(next.conversation + [Event(source)]) == Answered(next.conversation);
  }

  /** Rest is the only thing that leaves calls unanswered: a batch that does not end in rest reaches every call,
      and one that does leaves exactly the calls after the resting one. */
  lemma {:induction false} OnlyRestStopsShort(s: State, t: Tools, calls: seq<Call>, hs: seq<Handling>)
    requires |hs| == |calls|
    ensures var n := Reached(s, t, calls, hs);
      && (!Process(s, t, calls, hs).1 ==> n == |calls|)
      && (Process(s, t, calls, hs).1 ==> n > 0 && hs[n - 1].ending == Returned(true))
    decreases |calls|
  {
    if calls != [] {
      if calls[0].name !in t.allowed {
        OnlyRestStopsShort(Push(s, calls[0], Unavailable(calls[0])), t, calls[1..], hs[1..]);
      } else {
        var (next, rest) := Execute(s, t, calls[0], hs[0]);
        if !rest && next.pending == [] {
          OnlyRestStopsShort(next, t, calls[1..], hs[1..]);
        }
      }
    }
  }

  // ---- when every call is answered ----

  /** The call gets as far as its handler. */
  predicate Handled(t: Tools, call: Call) {
    call.name in t.allowed && ParseToolArguments(call.arguments, t.parse).None? && call.name in t.handlers
  }

  /** The call ends the batch in rest. */
  predicate Rests(t: Tools, call: Call, h: Handling) {
    Handled(t, call) && h.ending == Returned(true)
  }

  /** The inputs that are pending because of the call: arrived during its handler, or released after it. */
  function Queued(t: Tools, call: Call, h: Handling): seq<Input> {
    if call.name !in t.allowed || ParseToolArguments(call.arguments, t.parse).Some? then []
    else
      (if call.name in t.handlers then h.arrived else [])
      + (if call.name in {"wait", "wait_then_continue"} then [] else h.flushed)
  }

  /** Something is pending when call `k`, an available one, is over. */
  ghost predicate Interrupts(pending: seq<Input>, t: Tools, calls: seq<Call>, hs: seq<Handling>, k: nat)
    requires |hs| == |calls| && k < |calls|
  {
    calls[k].name in t.allowed && (pending != [] || exists q :: 0 <= q <= k && Queued(t, calls[q], hs[q]) != [])
  }

  /** No call before the last ends the batch in rest, unless an input interrupts the batch earlier. */
  ghost predicate NoEarlyRest(pending: seq<Input>, t: Tools, calls: seq<Call>, hs: seq<Handling>)
    requires |hs| == |calls|
  {
    forall r :: 0 <= r < |calls| - 1 && Rests(t, calls[r], hs[r])
        ==> exists q :: 0 <= q < r && Interrupts(pending, t, calls, hs, q)
  }

  lemma {:induction false} ExecuteQueues(s: State, t: Tools, call: Call, h: Handling)
    requires call.name in t.allowed
    ensures var (next, rest) := Execute(s, t, call, h);
      && next.pending == s.pending + Queued(t, call, h)
      && (rest <==> Rests(t, call, h))
  {
    if ParseToolArguments(call.arguments, t.parse).Some? {
      assert s.pending + [] == s.pending;
    } else {
      Assoc(s.pending, if call.name in t.handlers then h.arrived else [],
            if IsWaitTool(call.name) then [] else h.flushed);
      assert s.pending + [] == s.pending;
    }
  }

  lemma {:induction false} InterruptsShift(pending: seq<Input>, t: Tools, calls: seq<Call>, hs: seq<Handling>, k: nat)
    requires |hs| == |calls| && k + 1 < |calls|
    ensures Interrupts(pending, t, calls, hs, k + 1)
       <==> Interrupts(pending + Queued(t, calls[0], hs[0]), t, calls[1..], hs[1..], k)
  {
    if exists q :: 0 <= q <= k + 1 && Queued(t, calls[q], hs[q]) != [] {
      var q :| 0 <= q <= k + 1 && Queued(t, calls[q], hs[q]) != [];
      if q > 0 {
        assert Queued(t, calls[1..][q - 1], hs[1..][q - 1]) != [];
      }
    }
    if exists q :: 0 <= q <= k && Queued(t, calls[1..][q], hs[1..][q]) != [] {
      var q :| 0 <= q <= k && Queued(t, calls[1..][q], hs[1..][q]) != [];
      assert Queued(t, calls[q + 1], hs[q + 1]) != [];
    }
  }

  /** When the first call neither rests early nor interrupts, the condition is about the others. */
  lemma {:induction false} NoEarlyRestShift(pending: seq<Input>, t: Tools, calls: seq<Call>, hs: seq<Handling>)
    requires |hs| == |calls| > 1 && !Rests(t, calls[0], hs[0]) && !Interrupts(pending, t, calls, hs, 0)
    ensures NoEarlyRest(pending, t, calls, hs)
       <==> NoEarlyRest(pending + Queued(t, calls[0], hs[0]), t, calls[1..], hs[1..])
  {
    var later := pending + Queued(t, calls[0], hs[0]);
    if NoEarlyRest(pending, t, calls, hs) {
      forall r | 0 <= r < |calls[1..]| - 1 && Rests(t, calls[1..][r], hs[1..][r])
        ensures exists q :: 0 <= q < r && Interrupts(later, t, calls[1..], hs[1..], q)
      {
        assert Rests(t, calls[r + 1], hs[r + 1]);
        var q :| 0 <= q < r + 1 && Interrupts(pending, t, calls, hs, q);
        InterruptsShift(pending, t, calls, hs, q - 1);
      }
    }
    if NoEarlyRest(later, t, calls[1..], hs[1..]) {
      forall r | 0 <= r < |calls| - 1 && Rests(t, calls[r], hs[r])
        ensures exists q :: 0 <= q < r && Interrupts(pending, t, calls, hs, q)
      {
        assert Rests(t, calls[1..][r - 1], hs[1..][r - 1]);
        var q :| 0 <= q < r - 1 && Interrupts(later, t, calls[1..], hs[1..], q);
        InterruptsShift(pending, t, calls, hs, q);
      }
    }
  }

  /** The batch reaches every call exactly when no call before the last rests without an earlier interruption. */
  lemma {:induction false} ReachesAllIff(s: State, t: Tools, calls: seq<Call>, hs: seq<Handling>)
    requires |hs| == |calls|
    ensures Reached(s, t, calls, hs) == |calls| <==> NoEarlyRest(s.pending, t, calls, hs)
    decreases |calls|
  {
    if |calls| > 0 {
      var next := if calls[0].name in t.allowed then Execute(s, t, calls[0], hs[0]).0
          else Push(s, calls[0], Unavailable(calls[0]));
      if calls[0].name in t.allowed {
        ExecuteQueues(s, t, calls[0], hs[0]);
      } else {
        assert s.pending + [] == s.pending;
      }
      if |calls| > 1 && !Rests(t, calls[0], hs[0]) {
        if Interrupts(s.pending, t, calls, hs, 0) {
          assert NoEarlyRest(s.pending, t, calls, hs);
        } else {
          NoEarlyRestShift(s.pending, t, calls, hs);
          ReachesAllIff(next, t, calls[1..], hs[1..]);
        }
      }
    }
  }

  /** For fresh distinct ids and disciplined handlers, every call of the batch is answered exactly when no call before
      the last one rests without an earlier interruption; then each is answered once, in order. */
  lemma {:induction false} AllAnsweredIff(s: State, t: Tools, calls: seq<Call>, hs: seq<Handling>)
    requires |hs| == |calls| && FreshCalls(s, calls)
    requires forall i :: 0 <= i < |calls| ==> Disciplined(calls[i], hs[i])
    ensures var answered := Answered(Process(s, t, calls, hs).0.conversation);
      && ((forall c :: c in calls ==> c.id in answered) <==> NoEarlyRest(s.pending, t, calls, hs))
      && (NoEarlyRest(s.pending, t, calls, hs) <==> answered == Answered(s.conversation) + Ids(calls))
  {
    EachCallIsAnsweredOnce(s, t, calls, hs);
    ReachesAllIff(s, t, calls, hs);
    AnsweredPrefix(Answered(s.conversation), calls, Reached(s, t, calls, hs));
  }

  lemma {:induction false} AnsweredPrefix(before: seq<string>, calls: seq<Call>, n: nat)
    requires n <= |calls| && Distinct(Ids(calls)) && forall c :: c in calls ==> c.id !in before
    ensures (forall c :: c in calls ==> c.id in before + Ids(calls)[..n]) <==> n == |calls|
    ensures before + Ids(calls)[..n] == before + Ids(calls) <==> n == |calls|
  {
    var ids := Ids(calls);
    if n < |calls| {
      assert calls[n] in calls && ids[n] == calls[n].id;
      assert calls[n].id !in before + ids[..n];
      assert |before + ids[..n]| < |before + ids|;
    } else {
      assert ids[..n] == ids;
      forall c | c in calls
        ensures c.id in before + ids
      {
        var i :| 0 <= i < |calls| && calls[i] == c;
        assert ids[i] in ids;
      }
    }
  }

  /** A batch of two calls whose first one rests: the second stays unanswered. */
  lemma {:induction false} RestLeavesCallUnanswered(parse: string -> Json)
    ensures var t := Tools({"rest"}, {"rest"}, parse);
      var calls := [Call(true, "a", "rest", Missing), Call(true, "b", "rest", Missing)];
      var hs := [Handling([ToolResult("a", "resting")], Returned(true), [], []), Handling([], Threw(""), [], [])];
      Answered(Process(State([], []), t, calls, hs).0.conversation) == ["a"]
  {
    var t := Tools({"rest"}, {"rest"}, parse);
    var calls := [Call(true, "a", "rest", Missing), Call(true, "b", "rest", Missing)];
    var hs := [Handling([ToolResult("a", "resting")], Returned(true), [], []), Handling([], Threw(""), [], [])];
    AnsweredOne(ToolResult("a", "resting"));
    var none: seq<Message>, quiet: seq<Input> := [], [];
    assert none + hs[0].appended == hs[0].appended && quiet + quiet + quiet == quiet;
    assert !IsWaitTool(calls[0].name);
    assert Execute(State(none, quiet), t, calls[0], hs[0]) == (State(hs[0].appended, quiet), true);
  }

  // ---- what a batch leaves behind ----

  /** Arguments are refused when they are neither text nor an object, or a text that is not blank and not an object. */
  lemma {:induction false} RefusedIff(a: Arguments, parse: string -> Json)
    ensures ParseToolArguments(a, parse).Some? <==>
      a.OtherType? || (a.Text? && !Blank(a.text) && !parse(a.text).JsonObject?)
    ensures a.OtherType? ==>
      ParseToolArguments(a, parse) == Some("expected an object or JSON string, got " + a.typeName)
    ensures a.Text? && !Blank(a.text) && !parse(a.text).JsonObject? ==>
      ParseToolArguments(a, parse)
      == Some(if parse(a.text).JsonOther? then "tool arguments must be a JSON object" else parse(a.text).reason)
  {
  }

  /** What one call adds to the conversation: the reason it is refused, or what its handler appends; and the error of
      a handler that failed before it answered. */
  ghost function Said(t: Tools, call: Call, h: Handling): seq<Message> {
    if call.name !in t.allowed
    then [ToolResult(call.id, "error: " + call.name + " is not available for this agent right now")]
    else if ParseToolArguments(call.arguments, t.parse).Some?
    then [ToolResult(call.id, "error: invalid arguments for " + call.name + ": "
                              + ParseToolArguments(call.arguments, t.parse).value)]
    else if call.name !in t.handlers
    then [ToolResult(call.id, "error: unknown tool " + call.name)]
    else h.appended + if h.ending.Threw? && call.id !in Answered(h.appended)
                      then [ToolResult(call.id, "error: " + h.ending.error)] else []
  }

  ghost function Skipped(calls: seq<Call>, source: string): seq<Message> {
    seq(|calls|, k requires 0 <= k < |calls| =>
      ToolResult(calls[k].id, "skipped: interrupted by incoming " + source + " event."))
  }

  lemma {:induction false} SkipIs(ms: seq<Message>, calls: seq<Call>, source: string)
    ensures Skip(ms, calls, source) == ms + Skipped(calls, source)
    decreases |calls|
  {
    if calls != [] {
      SkipIs(ms + [Skipped(calls, source)[0]], calls[1..], source);
      assert Skipped(calls, source) == [Skipped(calls, source)[0]] + Skipped(calls[1..], source);
    } else {
      assert ms + [] == ms;
    }
  }

  /** The state after one call of the batch that has not been answered yet. */
  ghost function AfterCall(s: State, t: Tools, call: Call, h: Handling): State {
    State(s.conversation + Said(t, call, h), s.pending + Queued(t, call, h))
  }

  lemma {:induction false} ExecuteIs(s: State, t: Tools, call: Call, h: Handling)
    requires call.name in t.allowed && call.id !in Answered(s.conversation)
    ensures Execute(s, t, call, h) == (AfterCall(s, t, call, h), Rests(t, call, h))
  {
    ExecuteQueues(s, t, call, h);
    if ParseToolArguments(call.arguments, t.parse).None? && call.name in t.handlers {
      AnsweredConcat(s.conversation, h.appended);
      assert s.conversation + h.appended + [] == s.conversation + h.appended;
      Assoc(s.conversation, h.appended,
            if h.ending.Threw? && call.id !in Answered(h.appended)
            then [ToolResult(call.id, "error: " + h.ending.error)] else []);
    }
  }

  lemma {:induction false} SaidAnswers(t: Tools, call: Call, h: Handling)
    requires Disciplined(call, h)
    ensures Answered(Said(t, call, h)) == [call.id]
  {
    forall text
      ensures Answered([ToolResult(call.id, text)]) == [call.id]
    {
      AnsweredOne(ToolResult(call.id, text));
    }
    if h.ending.Threw? {
      AnsweredConcat(h.appended, [ToolResult(call.id, "error: " + h.ending.error)]);
      assert h.appended + [] == h.appended;
    } else {
      assert h.appended + [] == h.appended;
    }
  }

  /** What the first `n` calls add, one after the other, and the inputs they make pending. */
  ghost function SaidBy(t: Tools, calls: seq<Call>, hs: seq<Handling>, n: nat): seq<Message>
    requires |hs| == |calls| && n <= |calls|
  {
    Flatten(seq(n, k requires 0 <= k < n => Said(t, calls[k], hs[k])))
  }

  ghost function QueuedBy(t: Tools, calls: seq<Call>, hs: seq<Handling>, n: nat): seq<Input>
    requires |hs| == |calls| && n <= |calls|
  {
    Flatten(seq(n, k requires 0 <= k < n => Queued(t, calls[k], hs[k])))
  }

  lemma {:induction false} SaidFirst(t: Tools, calls: seq<Call>, hs: seq<Handling>, n: nat)
    requires |hs| == |calls| && 0 < n <= |calls|
    ensures SaidBy(t, calls, hs, n) == Said(t, calls[0], hs[0]) + SaidBy(t, calls[1..], hs[1..], n - 1)
  {
    var parts := seq(n, k requires 0 <= k < n => Said(t, calls[k], hs[k]));
    assert parts[1..] == seq(n - 1, k requires 0 <= k < n - 1 => Said(t, calls[1..][k], hs[1..][k]));
  }

  lemma {:induction false} QueuedFirst(t: Tools, calls: seq<Call>, hs: seq<Handling>, n: nat)
    requires |hs| == |calls| && 0 < n <= |calls|
    ensures QueuedBy(t, calls, hs, n) == Queued(t, calls[0], hs[0]) + QueuedBy(t, calls[1..], hs[1..], n - 1)
  {
    var parts := seq(n, k requires 0 <= k < n => Queued(t, calls[k], hs[k]));
    assert parts[1..] == seq(n - 1, k requires 0 <= k < n - 1 => Queued(t, calls[1..][k], hs[1..][k]));
  }

  /** The batch is over with call `k`: it rests, or an input is pending when it is over. */
  ghost predicate Stops(pending: seq<Input>, t: Tools, calls: seq<Call>, hs: seq<Handling>, k: nat)
    requires |hs| == |calls| && k < |calls|
  {
    Rests(t, calls[k], hs[k]) || Interrupts(pending, t, calls, hs, k)
  }

  /** What a batch that stops with call `n` leaves: everything said up to there; after an interruption also the input
      that caused it, taken off the queue, and a result for each call skipped. */
  ghost function Left(s: State, t: Tools, calls: seq<Call>, hs: seq<Handling>, n: nat): (State, bool)
    requires |hs| == |calls| && n <= |calls|
  {
    var m := Min(n + 1, |calls|);
    var said, queued := s.conversation + SaidBy(t, calls, hs, m), s.pending + QueuedBy(t, calls, hs, m);
    if n == |calls| then (State(said, queued), false)
    else if Rests(t, calls[n], hs[n]) then (State(said, queued), true)
    else if queued == [] then (State(said, queued), false)
    else
      (State(said + [Event(queued[0].source)] + Skipped(calls[m..], queued[0].source), queued[1..]), false)
  }

  lemma {:induction false} LeftAfterFirst(s: State, t: Tools, calls: seq<Call>, hs: seq<Handling>, n: nat)
    requires |hs| == |calls| && 0 < n <= |calls|
    ensures Left(AfterCall(s, t, calls[0], hs[0]), t, calls[1..], hs[1..], n - 1) == Left(s, t, calls, hs, n)
  {
    var m := Min(n + 1, |calls|);
    SaidFirst(t, calls, hs, m);
    QueuedFirst(t, calls, hs, m);
    Assoc(s.conversation, Said(t, calls[0], hs[0]), SaidBy(t, calls[1..], hs[1..], m - 1));
    Assoc(s.pending, Queued(t, calls[0], hs[0]), QueuedBy(t, calls[1..], hs[1..], m - 1));
    assert calls[1..][m - 1..] == calls[m..];
  }

  lemma {:induction false} LeftAtOnce(s: State, t: Tools, calls: seq<Call>, hs: seq<Handling>)
    requires |hs| == |calls| && calls != [] && FreshCalls(s, calls) && Stops(s.pending, t, calls, hs, 0)
    ensures Process(s, t, calls, hs) == Left(s, t, calls, hs, 0)
  {
    var next := AfterCall(s, t, calls[0], hs[0]);
    assert calls[0] in calls;
    ExecuteIs(s, t, calls[0], hs[0]);
    SaidFirst(t, calls, hs, 1);
    QueuedFirst(t, calls, hs, 1);
    assert SaidBy(t, calls, hs, 1) == Said(t, calls[0], hs[0]) + [] == Said(t, calls[0], hs[0]);
    assert QueuedBy(t, calls, hs, 1) == Queued(t, calls[0], hs[0]) + [] == Queued(t, calls[0], hs[0]);
    if !Rests(t, calls[0], hs[0]) {
      SkipIs(next.conversation + [Event(next.pending[0].source)], calls[1..], next.pending[0].source);
    }
  }

  lemma {:induction false} FreshAfterFirst(s: State, t: Tools, calls: seq<Call>, hs: seq<Handling>)
    requires |hs| == |calls| && calls != [] && FreshCalls(s, calls) && Disciplined(calls[0], hs[0])
    ensures FreshCalls(AfterCall(s, t, calls[0], hs[0]), calls[1..])
  {
    AnsweredConcat(s.conversation, Said(t, calls[0], hs[0]));
    if calls[0].name in t.allowed {
      SaidAnswers(t, calls[0], hs[0]);
    } else {
      AnsweredOne(ToolResult(calls[0].id, Unavailable(calls[0])));
    }
    assert Ids(calls[1..]) == Ids(calls)[1..];
    forall c | c in calls[1..]
      ensures c.id !in Answered(AfterCall(s, t, calls[0], hs[0]).conversation)
    {
      var k :| 0 <= k < |calls[1..]| && calls[1..][k] == c;
      assert Ids(calls)[k + 1] == c.id && Ids(calls)[0] == calls[0].id;
    }
  }

  lemma {:induction false} GoesOn(s: State, t: Tools, calls: seq<Call>, hs: seq<Handling>)
    requires |hs| == |calls| && calls != [] && FreshCalls(s, calls) && !Stops(s.pending, t, calls, hs, 0)
    ensures Process(s, t, calls, hs) == Process(AfterCall(s, t, calls[0], hs[0]), t, calls[1..], hs[1..])
  {
    assert calls[0] in calls;
    if calls[0].name in t.allowed {
      ExecuteIs(s, t, calls[0], hs[0]);
    } else {
      assert s.pending + [] == s.pending;
    }
  }

  /** For fresh distinct ids and disciplined handlers, the whole outcome of a batch: the first call that rests or is
      interrupted is its last one, and what it leaves is what the calls up to there said and queued. */
  lemma {:induction false} BatchIs(s: State, t: Tools, calls: seq<Call>, hs: seq<Handling>, n: nat)
    requires |hs| == |calls| && FreshCalls(s, calls)
    requires forall i :: 0 <= i < |calls| ==> Disciplined(calls[i], hs[i])
    requires n <= |calls| && forall k :: 0 <= k < n ==> !Stops(s.pending, t, calls, hs, k)
    requires n < |calls| ==> Stops(s.pending, t, calls, hs, n)
    ensures Process(s, t, calls, hs) == Left(s, t, calls, hs, n)
    decreases n
  {
    if n > 0 {
      var next := AfterCall(s, t, calls[0], hs[0]);
      FreshAfterFirst(s, t, calls, hs);
      GoesOn(s, t, calls, hs);
      forall k | 0 <= k < |calls| - 1
        ensures Stops(next.pending, t, calls[1..], hs[1..], k) <==> Stops(s.pending, t, calls, hs, k + 1)
      {
        InterruptsShift(s.pending, t, calls, hs, k);
      }
      BatchIs(next, t, calls[1..], hs[1..], n - 1);
      LeftAfterFirst(s, t, calls, hs, n);
    } else if calls != [] {
      LeftAtOnce(s, t, calls, hs);
    } else {
      assert s.conversation + [] == s.conversation && s.pending + [] == s.pending;
    }
  }

  /** The calls of a message that are function calls, in order. */
  lemma {:induction false} FunctionCallsAre(calls: seq<Call>)
    ensures FunctionCalls(calls)
         == Flatten(seq(|calls|, k requires 0 <= k < |calls| => if calls[k].isFunction then [calls[k]] else []))
    decreases |calls|
  {
    if calls != [] {
      var parts := seq(|calls|, k requires 0 <= k < |calls| => if calls[k].isFunction then [calls[k]] else []);
      FunctionCallsAre(calls[1..]);
      assert parts[1..] == seq(|calls[1..]|, k requires 0 <= k < |calls[1..]| =>
        if calls[1..][k].isFunction then [calls[1..][k]] else []);
    }
  }

  /** Without the handler's discipline: a call that reaches its handler is answered exactly once if and only if
      the handler recorded one result for it, or threw having recorded none. */
  lemma {:induction false} AnsweredOnceIff(s: State, t: Tools, call: Call, h: Handling)
    requires call.id !in Answered(s.conversation)
    requires ParseToolArguments(call.arguments, t.parse).None? && call.name in t.handlers
    ensures multiset(Answered(Execute(s, t, call, h).0.conversation))[call.id] == 1
       <==> var recorded := multiset(Answered(h.appended))[call.id];
            recorded == 1 || (recorded == 0 && h.ending.Threw?)
  {
    var ran := State(s.conversation + h.appended, s.pending + h.arrived);
    AnsweredConcat(s.conversation, h.appended);
    if h.ending.Threw? {
      PushAnswers(ran, call, "error: " + h.ending.error);
    }
  }
}
