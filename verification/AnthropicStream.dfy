/** Streaming reassembly: provider events become completion chunks, and chunks become one turn. */
module AnthropicStream {
  import opened Wrappers
  import opened Decimal

  datatype RawUsage = RawUsage(input: Option<nat>, cacheRead: Option<nat>, cacheWrite: Option<nat>)

  datatype Event =
    | MessageStart(rawUsage: Option<RawUsage>)
    | ToolStart(index: nat, id: string, name: string)
    | OtherStart(index: nat)
    | TextDelta(index: nat, text: string)
    | ThinkingDelta(index: nat, thinking: string)
    | JsonDelta(index: nat, json: string)
    | MessageDelta(outputTokens: Option<nat>)
    | OtherEvent

  datatype Usage = Usage(promptTokens: nat, completionTokens: nat, cachedTokens: nat, cacheWriteTokens: nat)

  /** One tool-call entry of a chunk; an absent name or argument text is empty. */
  datatype Partial = Partial(index: nat, id: Option<string>, name: string, arguments: string)

  datatype Chunk =
    | Delta(content: string, reasoning: string, toolCalls: seq<Partial>)
    | UsageChunk(usage: Usage)

  datatype ToolCall = ToolCall(id: string, name: string, arguments: string)

  datatype Turn = Turn(content: Option<string>, reasoning: string, toolCalls: seq<ToolCall>, usage: Option<Usage>)

  // ---- first stage: events to chunks ----

  function OrZero(n: Option<nat>): nat {
    if n.Some? then n.value else 0
  }

  /** The indexes whose block started as a tool use. */
  function Started(es: seq<Event>): set<nat> {
    set e | e in es && e.ToolStart? :: e.index
  }

  function ChunksFor(started: set<nat>, e: Event): seq<Chunk> {
    match e
    case MessageStart(_) => [Delta("", "", [])]
    case ToolStart(index, id, name) => [Delta("", "", [Partial(index, Some(id), name, "")])]
    case TextDelta(_, text) => [Delta(text, "", [])]
    case ThinkingDelta(_, thinking) => [Delta("", thinking, [])]
    case JsonDelta(index, json) => if index in started then [Delta("", "", [Partial(index, None, "", json)])] else []
    case _ => []
  }

  function Converted(es: seq<Event>): seq<Chunk>
    decreases |es|
  {
    if es == [] then []
    else
      var earlier := es[..|es| - 1];
      Converted(earlier) + ChunksFor(Started(earlier), es[|es| - 1])
  }

  function CountEvent(usage: Option<Usage>, e: Event): Option<Usage> {
    match e
    case MessageStart(Some(u)) =>
      var (cached, written) := (OrZero(u.cacheRead), OrZero(u.cacheWrite));
      Some(Usage(OrZero(u.input) + cached + written, 0, cached, written))
    case MessageDelta(Some(n)) => if usage.Some? then Some(usage.value.(completionTokens := n)) else None
    case _ => usage
  }

  function UsageOf(es: seq<Event>): Option<Usage>
    decreases |es|
  {
    if es == [] then None else CountEvent(UsageOf(es[..|es| - 1]), es[|es| - 1])
  }

  function Stream(es: seq<Event>): seq<Chunk> {
    Converted(es) + if UsageOf(es).Some? then [UsageChunk(UsageOf(es).value)] else []
  }

  lemma {:induction false} Prefix(es: seq<Event>, i: nat)
    requires i < |es|
    ensures es[..i + 1][..i] == es[..i] && es[..i + 1] == es[..i] + [es[i]]
    ensures Started(es[..i + 1]) == Started(es[..i]) + if es[i].ToolStart? then {es[i].index} else {}
    ensures Converted(es[..i + 1]) == Converted(es[..i]) + ChunksFor(Started(es[..i]), es[i])
    ensures UsageOf(es[..i + 1]) == CountEvent(UsageOf(es[..i]), es[i])
  {
    assert es[..i + 1][..i] == es[..i];
  }

  /** One event: what it yields, and the buffers and usage after it. */
  method ConvertEvent(e: Event, buffers: map<nat, ToolCall>, counted: Option<Usage>)
    returns (yielded: seq<Chunk>, toolBuffers: map<nat, ToolCall>, usage: Option<Usage>)
    ensures yielded == ChunksFor(buffers.Keys, e) && usage == CountEvent(counted, e)
    ensures toolBuffers.Keys == buffers.Keys + if e.ToolStart? then {e.index} else {}
  {
    yielded, toolBuffers, usage := [], buffers, counted;
    match e {
      case MessageStart(raw) =>
        if raw.Some? {
          var uncached, cached, cacheWrite := OrZero(raw.value.input), OrZero(raw.value.cacheRead),
                                                     OrZero(raw.value.cacheWrite);
          usage := Some(Usage(uncached + cached + cacheWrite, 0, cached, cacheWrite));
        }
        yielded := [Delta("", "", [])];
      case ToolStart(index, id, name) =>
        toolBuffers := toolBuffers[index := ToolCall(id, name, "")];
        yielded := [Delta("", "", [Partial(index, Some(id), name, "")])];
      case TextDelta(_, text) =>
        yielded := [Delta(text, "", [])];
      case ThinkingDelta(_, thinking) =>
        yielded := [Delta("", thinking, [])];
      case JsonDelta(index, json) =>
        if index in toolBuffers {
          var tool := toolBuffers[index];
          toolBuffers := toolBuffers[index := tool.(arguments := tool.arguments + json)];
          yielded := [Delta("", "", [Partial(index, None, "", json)])];
        }
      case MessageDelta(outputTokens) =>
        if outputTokens.Some? && usage.Some? {
          usage := Some(usage.value.(completionTokens := outputTokens.value));
        }
      case _ =>
    }
  }

  method AnthropicStreamToOpenAI(es: seq<Event>) returns (chunks: seq<Chunk>)
    ensures chunks == Stream(es)
  {
    var toolBuffers: map<nat, ToolCall> := map[];
    var usage: Option<Usage> := None;
    chunks := [];
    for i := 0 to |es|
      invariant chunks == Converted(es[..i]) && toolBuffers.Keys == Started(es[..i]) && usage == UsageOf(es[..i])
    {
      Prefix(es, i);
      var yielded: seq<Chunk>;
      yielded, toolBuffers, usage := ConvertEvent(es[i], toolBuffers, usage);
      chunks := chunks + yielded;
    }
    assert es[..|es|] == es;
    if usage.Some? {
      chunks := chunks + [UsageChunk(usage.value)];
    }
  }

  // ---- second stage: chunks to a turn ----

  datatype Assembly = Assembly(text: string, reasoning: string, calls: map<nat, ToolCall>, usage: Option<Usage>)

  const EMPTY := Assembly("", "", map[], None)

  function Existing(calls: map<nat, ToolCall>, partial: Partial): ToolCall {
    if partial.index in calls then calls[partial.index]
    else ToolCall(if partial.id.Some? then partial.id.value else "call_" + Digits(partial.index), "", "")
  }

  function AddPartial(calls: map<nat, ToolCall>, partial: Partial): map<nat, ToolCall> {
    var existing := Existing(calls, partial);
    calls[partial.index := ToolCall(
      if partial.id.Some? && partial.id.value != "" then partial.id.value else existing.id,
      existing.name + partial.name, existing.arguments + partial.arguments)]
  }

  function AddPartials(calls: map<nat, ToolCall>, partials: seq<Partial>): map<nat, ToolCall>
    decreases |partials|
  {
    if partials == [] then calls else AddPartials(AddPartial(calls, partials[0]), partials[1..])
  }

  function AddChunk(a: Assembly, chunk: Chunk): Assembly {
    match chunk
    case UsageChunk(usage) => a.(usage := Some(usage))
    case Delta(content, reasoning, partials) =>
      Assembly(a.text + content, a.reasoning + reasoning, AddPartials(a.calls, partials), a.usage)
  }

  function AddChunks(a: Assembly, chunks: seq<Chunk>): Assembly
    decreases |chunks|
  {
    if chunks == [] then a else AddChunks(AddChunk(a, chunks[0]), chunks[1..])
  }

  lemma {:induction false} FindLeast(keys: set<nat>) returns (least: nat)
    requires keys != {}
    ensures least in keys && forall j :: j in keys ==> least <= j
    decreases keys
  {
    var k :| k in keys;
    var rest := keys - {k};
    least := k;
    if rest != {} {
      var other := FindLeast(rest);
      least := Min(k, other);
    }
    forall j | j in keys
      ensures least <= j
    {
      if j != k {
        assert j in rest;
      }
    }
  }

  lemma {:induction false} LeastExists(keys: set<nat>)
    requires keys != {}
    ensures exists k :: k in keys && forall j :: j in keys ==> k <= j
  {
    var least := FindLeast(keys);
  }

  function Least(keys: set<nat>): (k: nat)
    requires keys != {}
    ensures k in keys && forall j :: j in keys ==> k <= j
  {
    LeastExists(keys);
    var k :| k in keys && forall j :: j in keys ==> k <= j;
    k
  }

  function Ascending(keys: set<nat>): (ks: seq<nat>)
    ensures forall k :: k in ks <==> k in keys
    decreases |keys|
  {
    if keys == {} then [] else [Least(keys)] + Ascending(keys - {Least(keys)})
  }

  ghost predicate Increasing(ks: seq<nat>) {
    forall i, j :: 0 <= i < j < |ks| ==> ks[i] < ks[j]
  }

  lemma {:induction false} IncreasingCons(least: nat, ks: seq<nat>)
    requires Increasing(ks) && forall k :: k in ks ==> least < k
    ensures Increasing([least] + ks)
  {
    var all := [least] + ks;
    forall i, j | 0 <= i < j < |all|
      ensures all[i] < all[j]
    {
      assert all[j] == ks[j - 1] && ks[j - 1] in ks;
      if i > 0 {
        assert all[i] == ks[i - 1];
      }
    }
  }

  lemma {:induction false} AscendingIsSorted(keys: set<nat>)
    ensures Increasing(Ascending(keys))
    decreases |keys|
  {
    if keys != {} {
      AscendingIsSorted(keys - {Least(keys)});
      IncreasingCons(Least(keys), Ascending(keys - {Least(keys)}));
    }
  }

  function Select(calls: map<nat, ToolCall>, keys: seq<nat>): (selected: seq<ToolCall>)
    requires forall k :: k in keys ==> k in calls
    ensures |selected| == |keys| && forall i :: 0 <= i < |keys| ==> selected[i] == calls[keys[i]]
    decreases |keys|
  {
    if keys == [] then [] else [calls[keys[0]]] + Select(calls, keys[1..])
  }

  function Finish(a: Assembly): Turn {
    Turn(if a.text == "" then None else Some(a.text), a.reasoning, Select(a.calls, Ascending(a.calls.Keys)), a.usage)
  }

  /** `shown` is what the sink is given as it arrives. */
  method ConsumeAnthropicStream(chunks: seq<Chunk>) returns (turn: Turn, shown: seq<string>)
    ensures turn == Finish(AddChunks(EMPTY, chunks))
    ensures Flatten(shown) == AddChunks(EMPTY, chunks).text && "" !in shown
  {
    var contentParts: seq<string>, reasoningParts: seq<string> := [], [];
    var streamedToolCalls: map<nat, ToolCall> := map[];
    var usage: Option<Usage> := None;
    shown := [];
    for i := 0 to |chunks|
      invariant AddChunks(EMPTY, chunks)
             == AddChunks(Assembly(Flatten(contentParts), Flatten(reasoningParts), streamedToolCalls, usage),
                 chunks[i..])
      invariant shown == contentParts && "" !in shown
    {
      assert chunks[i..][1..] == chunks[i + 1..];
      match chunks[i] {
        case UsageChunk(u) => usage := Some(u);
        case Delta(content, reasoning, partials) =>
          FlattenSnoc(contentParts, content);
          FlattenSnoc(reasoningParts, reasoning);
          assert Flatten(contentParts) + "" == Flatten(contentParts)
              && Flatten(reasoningParts) + "" == Flatten(reasoningParts);
          if |reasoning| > 0 {
            reasoningParts := reasoningParts + [reasoning];
          }
          if |content| > 0 {
            contentParts := contentParts + [content];
            shown := shown + [content];
          }
          streamedToolCalls := ConsumePartials(streamedToolCalls, partials);
      }
    }
    assert chunks[|chunks|..] == [];
    EmptyJoin(contentParts);
    turn := Turn(
      if |contentParts| > 0 then Some(Flatten(contentParts)) else None,
      Flatten(reasoningParts), Select(streamedToolCalls, Ascending(streamedToolCalls.Keys)), usage);
  }

  lemma {:induction false} EmptyJoin(parts: seq<string>)
    requires "" !in parts
    ensures Flatten(parts) == "" <==> parts == []
  {
    if parts != [] {
      assert parts[0] in parts;
      assert |Flatten(parts)| == |parts[0]| + |Flatten(parts[1..])|;
    }
  }

  method ConsumePartials(calls: map<nat, ToolCall>, partials: seq<Partial>) returns (updated: map<nat, ToolCall>)
    ensures updated == AddPartials(calls, partials)
  {
    updated := calls;
    for i := 0 to |partials|
      invariant AddPartials(calls, partials) == AddPartials(updated, partials[i..])
    {
      assert partials[i..][1..] == partials[i + 1..];
      var partial := partials[i];
      var existing := Existing(updated, partial);
      if partial.id.Some? && partial.id.value != "" {
        existing := existing.(id := partial.id.value);
      }
      if partial.name != "" {
        existing := existing.(name := existing.name + partial.name);
      }
      if partial.arguments != "" {
        existing := existing.(arguments := existing.arguments + partial.arguments);
      }
      assert existing == AddPartial(updated, partial)[partial.index];
      updated := updated[partial.index := existing];
    }
    assert partials[|partials|..] == [];
  }

  // ---- what a stream means ----

  function TextOf(es: seq<Event>): string
    decreases |es|
  {
    if es == [] then ""
    else TextOf(es[..|es| - 1]) + if es[|es| - 1].TextDelta? then es[|es| - 1].text else ""
  }

  function ReasoningOf(es: seq<Event>): string
    decreases |es|
  {
    if es == [] then ""
    else ReasoningOf(es[..|es| - 1]) + if es[|es| - 1].ThinkingDelta? then es[|es| - 1].thinking else ""
  }

  predicate Starts(e: Event, k: nat) {
    e.ToolStart? && e.index == k
  }

  /** The last non-empty id given to block `k`. */
  function IdOf(es: seq<Event>, k: nat): string
    decreases |es|
  {
    if es == [] then ""
    else if Starts(es[|es| - 1], k) && es[|es| - 1].id != "" then es[|es| - 1].id
    else IdOf(es[..|es| - 1], k)
  }

  /** All names given to block `k`, joined. */
  function NameOf(es: seq<Event>, k: nat): string
    decreases |es|
  {
    if es == [] then ""
    else NameOf(es[..|es| - 1], k) + if Starts(es[|es| - 1], k) then es[|es| - 1].name else ""
  }

  predicate Extends(e: Event, k: nat) {
    e.JsonDelta? && e.index == k
  }

  /** The argument deltas of block `k` from its start on, joined. */
  function ArgumentsOf(es: seq<Event>, k: nat): string
    decreases |es|
  {
    if es == [] then ""
    else
      var earlier := es[..|es| - 1];
      ArgumentsOf(earlier, k) + if Extends(es[|es| - 1], k) && k in Started(earlier) then es[|es| - 1].json else ""
  }

  function CallOf(es: seq<Event>, k: nat): ToolCall {
    ToolCall(IdOf(es, k), NameOf(es, k), ArgumentsOf(es, k))
  }

  function CallsOf(es: seq<Event>): map<nat, ToolCall> {
    map k | k in Started(es) :: CallOf(es, k)
  }

  function Meant(es: seq<Event>): Assembly {
    Assembly(TextOf(es), ReasoningOf(es), CallsOf(es), None)
  }

  lemma {:induction false} NotStarted(es: seq<Event>, k: nat)
    requires k !in Started(es)
    ensures CallOf(es, k) == ToolCall("", "", "")
    decreases |es|
  {
    if es != [] {
      Prefix(es, |es| - 1);
      assert es[..|es|] == es;
      NotStarted(es[..|es| - 1], k);
      assert !Starts(es[|es| - 1], k) by {
        assert es[|es| - 1] in es;
      }
    }
  }

  lemma {:induction false} AddChunksConcat(a: Assembly, xs: seq<Chunk>, ys: seq<Chunk>)
    ensures AddChunks(a, xs + ys) == AddChunks(AddChunks(a, xs), ys)
    decreases |xs|
  {
    if xs == [] {
      assert xs + ys == ys;
    } else {
      assert (xs + ys)[1..] == xs[1..] + ys;
      AddChunksConcat(AddChunk(a, xs[0]), xs[1..], ys);
    }
  }

  lemma {:induction false} AddOne(a: Assembly, chunk: Chunk)
    ensures AddChunks(a, [chunk]) == AddChunk(a, chunk)
  {
    assert [chunk][1..] == [];
  }

  lemma {:induction false} AddOnePartial(calls: map<nat, ToolCall>, partial: Partial)
    ensures AddPartials(calls, [partial]) == AddPartial(calls, partial)
  {
    assert [partial][1..] == [];
  }

  function CallsAfter(es: seq<Event>, e: Event): map<nat, ToolCall> {
    match e
    case ToolStart(index, id, name) => AddPartial(CallsOf(es), Partial(index, Some(id), name, ""))
    case JsonDelta(index, json) =>
      if index in Started(es) then AddPartial(CallsOf(es), Partial(index, None, "", json)) else CallsOf(es)
    case _ => CallsOf(es)
  }

  lemma {:induction false} CallStep(es: seq<Event>, e: Event, k: nat)
    requires k in Started(es + [e])
    ensures k in CallsAfter(es, e) && CallOf(es + [e], k) == CallsAfter(es, e)[k]
  {
    var all := es + [e];
    assert all[..|all| - 1] == es && all[|all| - 1] == e;
    if k !in Started(es) {
      NotStarted(es, k);
    }
    assert NameOf(es, k) + "" == NameOf(es, k) && ArgumentsOf(es, k) + "" == ArgumentsOf(es, k);
  }

  lemma {:induction false} KeysStep(es: seq<Event>, e: Event)
    ensures CallsAfter(es, e).Keys == Started(es + [e])
  {
    Prefix(es + [e], |es|);
    assert (es + [e])[..|es| + 1] == es + [e] && (es + [e])[..|es|] == es;
    assert CallsOf(es).Keys == Started(es);
  }

  /** One event changes the call of its own block only. */
  lemma {:induction false} CallsStep(es: seq<Event>, e: Event)
    ensures CallsOf(es + [e]) == CallsAfter(es, e)
  {
    KeysStep(es, e);
    forall k | k in Started(es + [e])
      ensures k in CallsAfter(es, e) && CallOf(es + [e], k) == CallsAfter(es, e)[k]
    {
      CallStep(es, e, k);
    }
  }

  lemma {:induction false} EventStep(es: seq<Event>, e: Event, all: seq<Event>)
    requires all == es + [e]
    ensures AddChunks(Meant(es), ChunksFor(Started(es), e)) == Meant(all)
  {
    assert all[..|all| - 1] == es && all[|all| - 1] == e;
    CallsStep(es, e);
    match e {
      case ToolStart(index, id, name) =>
        AddOne(Meant(es), Delta("", "", [Partial(index, Some(id), name, "")]));
        AddOnePartial(CallsOf(es), Partial(index, Some(id), name, ""));
      case JsonDelta(index, json) =>
        AddOne(Meant(es), Delta("", "", [Partial(index, None, "", json)]));
        AddOnePartial(CallsOf(es), Partial(index, None, "", json));
      case TextDelta(_, text) => AddOne(Meant(es), Delta(text, "", []));
      case ThinkingDelta(_, thinking) => AddOne(Meant(es), Delta("", thinking, []));
      case MessageStart(_) => AddOne(Meant(es), Delta("", "", []));
      case _ =>
    }
  }

  lemma {:induction false} Reassembles(es: seq<Event>)
    ensures AddChunks(EMPTY, Converted(es)) == Meant(es)
    decreases |es|
  {
    if es != [] {
      var earlier, e := es[..|es| - 1], es[|es| - 1];
      assert earlier + [e] == es;
      Reassembles(earlier);
      AddChunksConcat(EMPTY, Converted(earlier), ChunksFor(Started(earlier), e));
      EventStep(earlier, e, es);
    }
  }

  /** For every event stream, however its deltas interleave: converting and then consuming gives the joined
      text and reasoning, one call for each tool-use block in increasing index order, and the usage. */
  lemma {:induction false} StreamingKeepsMeaning(es: seq<Event>)
    ensures Finish(AddChunks(EMPTY, Stream(es)))
         == Turn(if TextOf(es) == "" then None else Some(TextOf(es)), ReasoningOf(es),
                 Select(CallsOf(es), Ascending(Started(es))), UsageOf(es))
  {
    Reassembles(es);
    assert CallsOf(es).Keys == Started(es);
    if UsageOf(es).Some? {
      AddChunksConcat(EMPTY, Converted(es), [UsageChunk(UsageOf(es).value)]);
      AddOne(Meant(es), UsageChunk(UsageOf(es).value));
    } else {
      assert Stream(es) == Converted(es);
    }
  }

  /** Those calls are one for each index that started a tool use, in increasing index order. */
  lemma {:induction false} CallsByIndex(es: seq<Event>)
    ensures var calls, ks := Select(CallsOf(es), Ascending(Started(es))), Ascending(Started(es));
      && |calls| == |ks| && Increasing(ks)
      && (forall i :: 0 <= i < |ks| ==> calls[i] == CallOf(es, ks[i]))
      && forall k :: k in ks <==> exists e :: e in es && e.ToolStart? && e.index == k
  {
    AscendingIsSorted(Started(es));
  }

  // ---- well-formed streams ----

  /** Block indexes are not reused, and a block's deltas come after its start. */
  ghost predicate WellFormed(es: seq<Event>) {
    && (forall i, j :: 0 <= i < j < |es| && es[i].ToolStart? && es[j].ToolStart? ==> es[i].index != es[j].index)
    && (forall i, j :: 0 <= i <= j < |es| && es[i].JsonDelta? && es[j].ToolStart? ==> es[i].index != es[j].index)
  }

  function JsonOf(es: seq<Event>, k: nat): string
    decreases |es|
  {
    if es == [] then "" else JsonOf(es[..|es| - 1], k) + if Extends(es[|es| - 1], k) then es[|es| - 1].json else ""
  }

  lemma {:induction false} NoJson(es: seq<Event>, k: nat)
    requires forall i :: 0 <= i < |es| ==> !Extends(es[i], k)
    ensures JsonOf(es, k) == ""
    decreases |es|
  {
    if es != [] {
      NoJson(es[..|es| - 1], k);
    }
  }

  /** In a well-formed stream every tool-use block gives a call with its own id, its own name and all of its
      argument deltas. */
  lemma {:induction false} EachBlockIsItsCall(es: seq<Event>, p: nat)
    requires WellFormed(es) && p < |es| && es[p].ToolStart?
    ensures es[p].index in Started(es)
    ensures CallOf(es, es[p].index) == ToolCall(es[p].id, es[p].name, JsonOf(es, es[p].index))
    decreases |es|
  {
    var k := es[p].index;
    var earlier, last := es[..|es| - 1], es[|es| - 1];
    assert es[p] in es;
    if p == |es| - 1 {
      assert k !in Started(earlier);
      NotStarted(earlier, k);
      NoJson(earlier, k);
    } else {
      assert earlier[p] == es[p];
      EachBlockIsItsCall(earlier, p);
      assert !Starts(last, k);
    }
  }

  /** A call carries the name of a given start of its block exactly when that block's other starts have no name. */
  lemma {:induction false} NameIsOwnIff(es: seq<Event>, p: nat)
    requires p < |es| && es[p].ToolStart?
    ensures NameOf(es, es[p].index) == es[p].name
       <==> forall q :: 0 <= q < |es| && q != p && Starts(es[q], es[p].index) ==> es[q].name == ""
    decreases |es|
  {
    var k := es[p].index;
    var earlier, last := es[..|es| - 1], es[|es| - 1];
    if p == |es| - 1 {
      NamelessIff(earlier, k);
      assert NameOf(es, k) == NameOf(earlier, k) + last.name;
      assert forall q :: 0 <= q < |earlier| ==> earlier[q] == es[q];
    } else {
      NameIsOwnIff(earlier, p);
      NameCovers(earlier, p);
      assert forall q :: 0 <= q < |earlier| ==> earlier[q] == es[q];
    }
  }

  /** One index started twice: the call has neither block's name. */
  lemma {:induction false} ReusedIndexJoinsNames()
    ensures NameOf([ToolStart(0, "a", "read"), ToolStart(0, "b", "write")], 0) == "readwrite"
  {
    var first, second := ToolStart(0, "a", "read"), ToolStart(0, "b", "write");
    assert [first, second][..1] == [first] && [first][..0] == [];
    assert NameOf([first], 0) == "read";
  }

  lemma {:induction false} NamelessIff(es: seq<Event>, k: nat)
    ensures NameOf(es, k) == "" <==> forall q :: 0 <= q < |es| && Starts(es[q], k) ==> es[q].name == ""
    decreases |es|
  {
    if es != [] {
      var earlier := es[..|es| - 1];
      NamelessIff(earlier, k);
      assert forall q :: 0 <= q < |earlier| ==> earlier[q] == es[q];
    }
  }

  lemma {:induction false} NameCovers(es: seq<Event>, p: nat)
    requires p < |es| && es[p].ToolStart?
    ensures |NameOf(es, es[p].index)| >= |es[p].name|
    decreases |es|
  {
    if p < |es| - 1 {
      NameCovers(es[..|es| - 1], p);
    }
  }

  ghost predicate Counts(e: Event) {
    e.MessageStart? && e.rawUsage.Some?
  }

  /** Reported usage belongs to the latest start that carried any: its prompt tokens are the uncached, the cache-read
      and the cache-write tokens together; its completion tokens are the latest count since, or none yet. */
  lemma {:induction false} UsageIsLatest(es: seq<Event>, p: nat)
    requires p < |es| && Counts(es[p]) && forall q :: p < q < |es| ==> !Counts(es[q])
    ensures UsageOf(es).Some?
    ensures var counted, u := es[p].rawUsage.value, UsageOf(es).value;
      && u.promptTokens == OrZero(counted.input) + u.cachedTokens + u.cacheWriteTokens
      && u.cachedTokens == OrZero(counted.cacheRead) && u.cacheWriteTokens == OrZero(counted.cacheWrite)
    ensures forall q :: p < q < |es| && LatestCount(es, q) ==>
      UsageOf(es).value.completionTokens == es[q].outputTokens.value
    ensures (forall q :: p < q < |es| ==> !LatestCount(es, q)) ==> UsageOf(es).value.completionTokens == 0
    decreases |es|
  {
    if p < |es| - 1 {
      var earlier, last := es[..|es| - 1], es[|es| - 1];
      UsageIsLatest(earlier, p);
      if last.MessageDelta? && last.outputTokens.Some? {
        assert LatestCount(es, |es| - 1);
      } else {
        forall q | p < q < |es|
          ensures LatestCount(es, q) <==> q < |earlier| && LatestCount(earlier, q)
        {
        }
      }
    }
  }

  /** The last event that reports completion tokens. */
  ghost predicate LatestCount(es: seq<Event>, q: nat) {
    && q < |es| && es[q].MessageDelta? && es[q].outputTokens.Some?
    && forall r :: q < r < |es| ==> !(es[r].MessageDelta? && es[r].outputTokens.Some?)
  }

  /** Without a start that carries usage, none is reported. */
  lemma {:induction false} NoUsageWithoutStart(es: seq<Event>)
    requires forall q :: 0 <= q < |es| ==> !Counts(es[q])
    ensures UsageOf(es).None?
    decreases |es|
  {
    if es != [] {
      NoUsageWithoutStart(es[..|es| - 1]);
    }
  }
}
