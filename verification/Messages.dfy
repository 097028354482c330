/** Conversation messages, as the archive, the frontier and the compactor see them. */
module Messages {
  import opened Decimal
  import opened Wrappers

  /** The archive's insertion number of a summary row. */
  type SummaryId = nat

  datatype ToolCall = ToolCall(id: string, name: string)

  /** A chat message. `Summary` is a user message whose content starts with the context-summary
      header; its id and depth are the optional marker lines inside that content. */
  datatype Message =
    | System(text: string)
    | User(text: string)
    | Assistant(text: string, calls: seq<ToolCall>)
    | Tool(callId: string, text: string)
    | Summary(id: Option<SummaryId>, depth: Option<nat>, body: string)

  /** Length of the header, note and segments lines in front of a summary's marker lines. */
  const ENVELOPE_CHARS := 637

  /** Length of a message's text content; a summary's includes its envelope and marker lines. */
  function Width(m: Message): nat {
    match m
    case Summary(id, depth, body) =>
      ENVELOPE_CHARS
      + (if id.Some? then |"[context-summary-id sum_]"| + 1 + |Digits(id.value)| else 0)
      + (if depth.Some? then |"[context-summary-depth ]"| + 1 + |Digits(depth.value)| else 0)
      + |body|
    case _ => |m.text|
  }

  /** A summary's content: its envelope, a line for each marker it has, and its body. */
  lemma {:induction false} SummaryWidthIs(id: Option<SummaryId>, depth: Option<nat>, body: string)
    ensures var idLine := if id == None then "" else "[context-summary-id sum_" + Digits(id.value) + "]\n";
      var depthLine := if depth == None then "" else "[context-summary-depth " + Digits(depth.value) + "]\n";
      Width(Summary(id, depth, body)) == ENVELOPE_CHARS + |idLine + depthLine + body|
  {
  }

  /** Total content length of a stretch of messages. */
  function Chars(ms: seq<Message>): nat {
    if ms == [] then 0 else Width(ms[0]) + Chars(ms[1..])
  }

  /** For raw messages that is the length of their texts. */
  lemma {:induction false} CharsIsLength(ms: seq<Message>)
    requires forall i :: 0 <= i < |ms| ==> !ms[i].Summary?
    ensures Chars(ms)
         == |Flatten(seq(|ms|, i requires 0 <= i < |ms| => if ms[i].Summary? then "" else ms[i].text))|
  {
    if ms != [] {
      var texts := seq(|ms|, i requires 0 <= i < |ms| => if ms[i].Summary? then "" else ms[i].text);
      CharsIsLength(ms[1..]);
      assert texts[1..]
          == seq(|ms[1..]|, i requires 0 <= i < |ms[1..]| => if ms[1..][i].Summary? then "" else ms[1..][i].text);
    }
  }

  /** The messages of `ms` that are not summaries, in order. */
  function Raw(ms: seq<Message>): seq<Message> {
    if ms == [] then [] else (if ms[0].Summary? then [] else [ms[0]]) + Raw(ms[1..])
  }

  /** The summary messages of `ms`, in order. */
  function Segments(ms: seq<Message>): seq<Message> {
    if ms == [] then [] else (if ms[0].Summary? then [ms[0]] else []) + Segments(ms[1..])
  }

  /** Both keep the order of the messages and lose none. */
  lemma {:induction false} RawAndSegmentsAre(ms: seq<Message>)
    ensures Raw(ms) == Flatten(seq(|ms|, i requires 0 <= i < |ms| => if ms[i].Summary? then [] else [ms[i]]))
    ensures Segments(ms) == Flatten(seq(|ms|, i requires 0 <= i < |ms| => if ms[i].Summary? then [ms[i]] else []))
  {
    if ms != [] {
      var raw := seq(|ms|, i requires 0 <= i < |ms| => if ms[i].Summary? then [] else [ms[i]]);
      var segments := seq(|ms|, i requires 0 <= i < |ms| => if ms[i].Summary? then [ms[i]] else []);
      RawAndSegmentsAre(ms[1..]);
      assert raw[1..] == seq(|ms[1..]|, i requires 0 <= i < |ms[1..]| =>
        if ms[1..][i].Summary? then [] else [ms[1..][i]]);
      assert segments[1..] == seq(|ms[1..]|, i requires 0 <= i < |ms[1..]| =>
        if ms[1..][i].Summary? then [ms[1..][i]] else []);
    }
  }

  lemma {:induction false} RawIsRaw(ms: seq<Message>)
    ensures forall i :: 0 <= i < |Raw(ms)| ==> !Raw(ms)[i].Summary?
  {
    if ms != [] {
      RawIsRaw(ms[1..]);
    }
  }

  lemma {:induction false} RawConcat(a: seq<Message>, b: seq<Message>)
    ensures Raw(a + b) == Raw(a) + Raw(b)
  {
    if a == [] {
      assert a + b == b;
    } else {
      assert (a + b)[1..] == a[1..] + b;
      RawConcat(a[1..], b);
    }
  }

  lemma {:induction false} SegmentsConcat(a: seq<Message>, b: seq<Message>)
    ensures Segments(a + b) == Segments(a) + Segments(b)
  {
    if a == [] {
      assert a + b == b;
    } else {
      assert (a + b)[1..] == a[1..] + b;
      SegmentsConcat(a[1..], b);
    }
  }

  lemma {:induction false} RawOfRaw(ms: seq<Message>)
    requires forall i :: 0 <= i < |ms| ==> !ms[i].Summary?
    ensures Raw(ms) == ms && Segments(ms) == []
  {
    if ms != [] {
      RawOfRaw(ms[1..]);
    }
  }

  lemma {:induction false} RawOfSegments(ms: seq<Message>)
    requires forall i :: 0 <= i < |ms| ==> ms[i].Summary?
    ensures Raw(ms) == [] && Segments(ms) == ms
  {
    if ms != [] {
      RawOfSegments(ms[1..]);
    }
  }

  function LeadingSystems(ms: seq<Message>): (n: nat)
    ensures n <= |ms|
    ensures forall i :: 0 <= i < n ==> ms[i].System?
    ensures n < |ms| ==> !ms[n].System?
  {
    if ms == [] || !ms[0].System? then 0 else 1 + LeadingSystems(ms[1..])
  }
}
