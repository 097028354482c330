/** Translating a conversation to the alternating user/assistant form. */
module MessageTranslation {
  import opened Wrappers

  /** An image part carries what its URL converts to: nothing when the URL is not a supported data URL. */
  datatype Part = TextPart(text: string) | ImagePart(image: Option<string>) | OtherPart

  datatype Content = Text(text: string) | Parts(parts: seq<Part>) | Null

  datatype Call = Call(isFunction: bool, id: string, name: string, arguments: string)

  datatype ChatMessage =
    | System(content: Content)
    | User(content: Content)
    | Assistant(content: Content, reasoning: Option<string>, calls: seq<Call>)
    | Tool(callId: string, content: Content)

  datatype Block =
    | TextBlock(text: string)
    | ImageBlock(image: string)
    | ThinkingBlock(thinking: string)
    | ToolUseBlock(id: string, name: string, input: string)
    | ToolResultBlock(toolUseId: string, result: string)

  datatype Role = UserRole | AssistantRole

  datatype Turn = Turn(role: Role, blocks: seq<Block>)

  /** JSON reading and writing: `parse` gives nothing for text that is not JSON. */
  datatype Json = Json(parse: string -> Option<string>, write: Content -> string)

  // ---- blocks of one message ----

  function UserBlocks(parts: seq<Part>): seq<Block>
    decreases |parts|
  {
    if parts == [] then []
    else
      (match parts[0]
       case TextPart(text) => [TextBlock(text)]
       case ImagePart(image) => if image.Some? then [ImageBlock(image.value)] else []
       case OtherPart => []) + UserBlocks(parts[1..])
  }

  function TextBlocks(parts: seq<Part>): seq<Block>
    decreases |parts|
  {
    if parts == [] then []
    else (if parts[0].TextPart? then [TextBlock(parts[0].text)] else []) + TextBlocks(parts[1..])
  }

  function CallBlocks(calls: seq<Call>, json: Json): seq<Block>
    decreases |calls|
  {
    if calls == [] then []
    else
      var input := json.parse(calls[0].arguments);
      (if calls[0].isFunction
       then [ToolUseBlock(calls[0].id, calls[0].name, if input.Some? then input.value else "{}")]
       else []) + CallBlocks(calls[1..], json)
  }

  function AssistantBlocks(m: ChatMessage, enableThinking: bool, json: Json): seq<Block>
    requires m.Assistant?
  {
    (if !enableThinking then []
     else [ThinkingBlock(if m.reasoning.Some? && !Blank(m.reasoning.value) then m.reasoning.value else "Thinking...")])
    + (match m.content
       case Text(text) => if text != "" then [TextBlock(text)] else []
       case Parts(parts) => TextBlocks(parts)
       case Null => [])
    + CallBlocks(m.calls, json)
  }

  function RoleOf(m: ChatMessage): Role
    requires !m.System?
  {
    if m.Assistant? then AssistantRole else UserRole
  }

  function BlocksOf(m: ChatMessage, enableThinking: bool, json: Json): seq<Block>
    requires !m.System?
  {
    match m
    case User(content) =>
      (match content
       case Text(text) => [TextBlock(text)]
       case Parts(parts) => UserBlocks(parts)
       case Null => [TextBlock(json.write(content))])
    case Assistant(_, _, _) => AssistantBlocks(m, enableThinking, json)
    case Tool(callId, content) => [ToolResultBlock(callId, if content.Text? then content.text else json.write(content))]
  }

  // ---- what each message becomes ----

  ghost function PartBlocks(p: Part): seq<Block> {
    if p.TextPart? then [TextBlock(p.text)]
    else if p.ImagePart? && p.image.Some? then [ImageBlock(p.image.value)]
    else []
  }

  ghost function TextOfPart(p: Part): seq<string> {
    if p.TextPart? then [p.text] else []
  }

  ghost function CallBlock(c: Call, json: Json): seq<Block> {
    if !c.isFunction then []
    else [ToolUseBlock(c.id, c.name,
                       if json.parse(c.arguments) == None then "{}" else json.parse(c.arguments).value)]
  }

  ghost function EachPart(parts: seq<Part>): seq<seq<Block>> {
    seq(|parts|, i requires 0 <= i < |parts| => PartBlocks(parts[i]))
  }

  ghost function EachText(parts: seq<Part>): seq<seq<string>> {
    seq(|parts|, i requires 0 <= i < |parts| => TextOfPart(parts[i]))
  }

  ghost function EachCall(calls: seq<Call>, json: Json): seq<seq<Block>> {
    seq(|calls|, i requires 0 <= i < |calls| => CallBlock(calls[i], json))
  }

  lemma {:induction false} UserBlocksAre(parts: seq<Part>)
    ensures UserBlocks(parts) == Flatten(EachPart(parts))
    decreases |parts|
  {
    if parts != [] {
      UserBlocksAre(parts[1..]);
      assert EachPart(parts)[1..] == EachPart(parts[1..]);
    }
  }

  lemma {:induction false} TextsAre(parts: seq<Part>)
    ensures Texts(parts) == Flatten(EachText(parts))
    decreases |parts|
  {
    if parts != [] {
      TextsAre(parts[1..]);
      assert EachText(parts)[1..] == EachText(parts[1..]);
    }
  }

  lemma {:induction false} TextBlocksAre(parts: seq<Part>)
    ensures |TextBlocks(parts)| == |Texts(parts)|
    ensures forall i :: 0 <= i < |Texts(parts)| ==> TextBlocks(parts)[i] == TextBlock(Texts(parts)[i])
    decreases |parts|
  {
    if parts != [] {
      TextBlocksAre(parts[1..]);
    }
  }

  lemma {:induction false} CallBlocksAre(calls: seq<Call>, json: Json)
    ensures CallBlocks(calls, json) == Flatten(EachCall(calls, json))
    decreases |calls|
  {
    if calls != [] {
      CallBlocksAre(calls[1..], json);
      assert EachCall(calls, json)[1..] == EachCall(calls[1..], json);
    }
  }

  /** A user message becomes its text, or its text and image parts in order; a tool message one result. */
  lemma {:induction false} UserSideIs(m: ChatMessage, enableThinking: bool, json: Json)
    requires m.User? || m.Tool?
    ensures RoleOf(m) == UserRole
    ensures BlocksOf(m, enableThinking, json)
         == if m.Tool?
            then [ToolResultBlock(m.callId, if m.content.Text? then m.content.text else json.write(m.content))]
            else if m.content.Text? then [TextBlock(m.content.text)]
            else if m.content.Parts? then Flatten(EachPart(m.content.parts))
            else [TextBlock(json.write(m.content))]
  {
    if m.content.Parts? {
      UserBlocksAre(m.content.parts);
    }
  }

  /** The texts of a content, an empty text aside. */
  ghost function TextsIn(content: Content): seq<string> {
    if content.Parts? then Flatten(EachText(content.parts))
    else if content.Text? && content.text != "" then [content.text]
    else []
  }

  /** An assistant message becomes a thinking block when thinking is on, then its texts, then its function calls. */
  lemma {:induction false} AssistantSideIs(m: ChatMessage, enableThinking: bool, json: Json, thought: seq<Block>,
                                           said: seq<Block>)
    requires m.Assistant? && |said| == |TextsIn(m.content)|
    requires forall i :: 0 <= i < |said| ==> said[i] == TextBlock(TextsIn(m.content)[i])
    requires thought == if !enableThinking then []
      else if m.reasoning == None || Blank(m.reasoning.value) then [ThinkingBlock("Thinking...")]
      else [ThinkingBlock(m.reasoning.value)]
    ensures RoleOf(m) == AssistantRole
    ensures BlocksOf(m, enableThinking, json) == thought + said + Flatten(EachCall(m.calls, json))
  {
    CallBlocksAre(m.calls, json);
    match m.content {
      case Parts(parts) =>
        TextsAre(parts);
        TextBlocksAre(parts);
        assert said == TextBlocks(parts);
      case Text(text) => assert said == if text != "" then [TextBlock(text)] else [];
      case Null => assert said == [];
    }
  }

  // ---- the whole list ----

  /** Adds blocks to the last turn when it has the same role, and as a new turn otherwise. */
  function Append(out: seq<Turn>, role: Role, blocks: seq<Block>): seq<Turn> {
    if out != [] && out[|out| - 1].role == role
    then out[..|out| - 1] + [Turn(role, out[|out| - 1].blocks + blocks)]
    else out + [Turn(role, blocks)]
  }

  function Translated(ms: seq<ChatMessage>, enableThinking: bool, json: Json): seq<Turn>
    decreases |ms|
  {
    if ms == [] then []
    else
      var earlier, m := Translated(ms[..|ms| - 1], enableThinking, json), ms[|ms| - 1];
      if m.System? then earlier else Append(earlier, RoleOf(m), BlocksOf(m, enableThinking, json))
  }

  function SystemTexts(content: Content): seq<string>
    decreases content
  {
    match content
    case Text(text) => [text]
    case Parts(parts) => Texts(parts)
    case Null => []
  }

  function Texts(parts: seq<Part>): seq<string>
    decreases |parts|
  {
    if parts == [] then [] else (if parts[0].TextPart? then [parts[0].text] else []) + Texts(parts[1..])
  }

  function SystemParts(ms: seq<ChatMessage>): seq<string>
    decreases |ms|
  {
    if ms == [] then []
    else SystemParts(ms[..|ms| - 1]) + if ms[|ms| - 1].System? then SystemTexts(ms[|ms| - 1].content) else []
  }

  function Join(parts: seq<string>): string
    decreases |parts|
  {
    if parts == [] then "" else if |parts| == 1 then parts[0] else parts[0] + "\n\n" + Join(parts[1..])
  }

  lemma {:induction false} JoinSnoc(parts: seq<string>, part: string)
    ensures Join(parts + [part]) == if parts == [] then part else Join(parts) + "\n\n" + part
    decreases |parts|
  {
    if |parts| == 1 {
      assert (parts + [part])[1..] == [part];
    } else if parts != [] {
      assert (parts + [part])[1..] == parts[1..] + [part];
      JoinSnoc(parts[1..], part);
    }
  }

  ghost function SystemTextsOf(m: ChatMessage): seq<string> {
    if !m.System? then []
    else if m.content.Text? then [m.content.text]
    else if m.content.Parts? then Flatten(EachText(m.content.parts))
    else []
  }

  ghost function EachSystem(ms: seq<ChatMessage>): seq<seq<string>> {
    seq(|ms|, i requires 0 <= i < |ms| => SystemTextsOf(ms[i]))
  }

  lemma {:induction false} SystemTextsAre(m: ChatMessage)
    requires m.System?
    ensures SystemTexts(m.content) == SystemTextsOf(m)
  {
    if m.content.Parts? {
      TextsAre(m.content.parts);
    }
  }

  /** The system text is made of the texts of the system messages and their text parts, in order. */
  lemma {:induction false} SystemPartsAre(ms: seq<ChatMessage>)
    ensures SystemParts(ms) == Flatten(EachSystem(ms))
    decreases |ms|
  {
    if ms != [] {
      var earlier, m := ms[..|ms| - 1], ms[|ms| - 1];
      SystemPartsAre(earlier);
      if m.System? {
        SystemTextsAre(m);
      }
      FlattenSnoc(EachSystem(earlier), SystemTextsOf(m));
      assert EachSystem(ms) == EachSystem(earlier) + [SystemTextsOf(m)];
    }
  }

  method ToAnthropicMessages(ms: seq<ChatMessage>, enableThinking: bool, json: Json)
    returns (system: Option<string>, out: seq<Turn>)
    ensures out == Translated(ms, enableThinking, json)
    ensures system == if Join(SystemParts(ms)) == "" then None else Some(Join(SystemParts(ms)))
  {
    var systemParts: seq<string> := [];
    out := [];
    for i := 0 to |ms|
      invariant out == Translated(ms[..i], enableThinking, json) && systemParts == SystemParts(ms[..i])
    {
      assert ms[..i + 1][..i] == ms[..i];
      var m := ms[i];
      if m.System? {
        match m.content {
          case Text(text) => systemParts := systemParts + [text];
          case Parts(parts) =>
            var texts := CollectTexts(parts);
            systemParts := systemParts + texts;
          case Null =>
        }
        continue;
      }
      var blocks, role := BlocksOf(m, enableThinking, json), RoleOf(m);
      if |out| > 0 && out[|out| - 1].role == role {
        var last := out[|out| - 1];
        out := out[|out| - 1 := last.(blocks := last.blocks + blocks)];
      } else {
        out := out + [Turn(role, blocks)];
      }
    }
    assert ms[..|ms|] == ms;
    var joined := Join(systemParts);
    system := if joined != "" then Some(joined) else None;
  }

  method CollectTexts(parts: seq<Part>) returns (texts: seq<string>)
    ensures texts == Texts(parts)
  {
    texts := [];
    for i := 0 to |parts|
      invariant texts + Texts(parts[i..]) == Texts(parts)
    {
      assert parts[i..][1..] == parts[i + 1..];
      if parts[i].TextPart? {
        texts := texts + [parts[i].text];
      }
    }
  }

  // ---- what translation preserves ----

  /** A list of turns read as its blocks, each with its role. */
  function Pairs(role: Role, blocks: seq<Block>): (ps: seq<(Role, Block)>)
    ensures |ps| == |blocks| && forall i :: 0 <= i < |ps| ==> ps[i] == (role, blocks[i])
  {
    seq(|blocks|, i requires 0 <= i < |blocks| => (role, blocks[i]))
  }

  function Flat(turns: seq<Turn>): seq<(Role, Block)>
    decreases |turns|
  {
    if turns == [] then [] else Flat(turns[..|turns| - 1]) + Pairs(turns[|turns| - 1].role, turns[|turns| - 1].blocks)
  }

  /** Each message on its own, translated in order. */
  function OneByOne(ms: seq<ChatMessage>, enableThinking: bool, json: Json): seq<(Role, Block)>
    decreases |ms|
  {
    if ms == [] then []
    else
      (if ms[0].System? then [] else Pairs(RoleOf(ms[0]), BlocksOf(ms[0], enableThinking, json)))
      + OneByOne(ms[1..], enableThinking, json)
  }

  /** The roles of the messages that are not system messages. */
  function Roles(ms: seq<ChatMessage>): seq<Role>
    decreases |ms|
  {
    if ms == [] then [] else (if ms[0].System? then [] else [RoleOf(ms[0])]) + Roles(ms[1..])
  }

  function WithoutRepeats(roles: seq<Role>): seq<Role>
    decreases |roles|
  {
    if |roles| <= 1 then roles
    else if roles[0] == roles[1] then WithoutRepeats(roles[1..])
    else [roles[0]] + WithoutRepeats(roles[1..])
  }

  function TurnRoles(turns: seq<Turn>): (rs: seq<Role>)
    ensures |rs| == |turns|
  {
    seq(|turns|, i requires 0 <= i < |turns| => turns[i].role)
  }

  lemma {:induction false} OneByOneSnoc(ms: seq<ChatMessage>, m: ChatMessage, enableThinking: bool, json: Json)
    ensures OneByOne(ms + [m], enableThinking, json)
         == OneByOne(ms, enableThinking, json)
            + if m.System? then [] else Pairs(RoleOf(m), BlocksOf(m, enableThinking, json))
    decreases |ms|
  {
    if ms == [] {
      assert ms + [m] == [m] && [m][1..] == [];
    } else {
      assert (ms + [m])[1..] == ms[1..] + [m];
      OneByOneSnoc(ms[1..], m, enableThinking, json);
    }
  }

  lemma {:induction false} RolesSnoc(ms: seq<ChatMessage>, m: ChatMessage)
    ensures Roles(ms + [m]) == Roles(ms) + if m.System? then [] else [RoleOf(m)]
    decreases |ms|
  {
    if ms == [] {
      assert ms + [m] == [m] && [m][1..] == [];
    } else {
      assert (ms + [m])[1..] == ms[1..] + [m] && (ms + [m])[0] == ms[0];
      RolesSnoc(ms[1..], m);
      Assoc(if ms[0].System? then [] else [RoleOf(ms[0])], Roles(ms[1..]), if m.System? then [] else [RoleOf(m)]);
    }
  }

  lemma {:induction false} LastIsKept(roles: seq<Role>)
    requires roles != []
    ensures WithoutRepeats(roles) != [] && WithoutRepeats(roles)[|WithoutRepeats(roles)| - 1] == roles[|roles| - 1]
    decreases |roles|
  {
    if |roles| > 1 {
      LastIsKept(roles[1..]);
    }
  }

  lemma {:induction false} WithoutRepeatsSnoc(roles: seq<Role>, r: Role)
    ensures WithoutRepeats(roles + [r])
         == if roles != [] && roles[|roles| - 1] == r then WithoutRepeats(roles) else WithoutRepeats(roles) + [r]
    decreases |roles|
  {
    var all := roles + [r];
    if |roles| == 1 {
      assert all[1..] == [r];
    } else if |roles| > 1 {
      assert all[1..] == roles[1..] + [r] && all[0] == roles[0] && all[1] == roles[1];
      WithoutRepeatsSnoc(roles[1..], r);
    }
  }

  lemma {:induction false} FlatAppend(out: seq<Turn>, role: Role, blocks: seq<Block>)
    ensures Flat(Append(out, role, blocks)) == Flat(out) + Pairs(role, blocks)
  {
    var appended := Append(out, role, blocks);
    if out != [] && out[|out| - 1].role == role {
      assert appended[..|appended| - 1] == out[..|out| - 1];
      assert Pairs(role, out[|out| - 1].blocks + blocks) == Pairs(role, out[|out| - 1].blocks) + Pairs(role, blocks);
    } else {
      assert appended[..|appended| - 1] == out;
    }
  }

  lemma {:induction false} RolesAppend(out: seq<Turn>, role: Role, blocks: seq<Block>)
    ensures TurnRoles(Append(out, role, blocks))
         == if out != [] && TurnRoles(out)[|out| - 1] == role then TurnRoles(out) else TurnRoles(out) + [role]
  {
  }

  lemma {:induction false} RepeatsRemoved(roles: seq<Role>)
    ensures var rs := WithoutRepeats(roles); forall i :: 0 < i < |rs| ==> rs[i] != rs[i - 1]
    ensures roles != [] ==> WithoutRepeats(roles) != [] && WithoutRepeats(roles)[0] == roles[0]
    decreases |roles|
  {
    if |roles| > 1 {
      RepeatsRemoved(roles[1..]);
    }
  }

  lemma {:induction false} TurnsAreRuns(ms: seq<ChatMessage>, enableThinking: bool, json: Json)
    ensures TurnRoles(Translated(ms, enableThinking, json)) == WithoutRepeats(Roles(ms))
    decreases |ms|
  {
    if ms != [] {
      var before, m := ms[..|ms| - 1], ms[|ms| - 1];
      assert before + [m] == ms;
      TurnsAreRuns(before, enableThinking, json);
      RolesSnoc(before, m);
      if m.System? {
        assert Roles(before) + [] == Roles(before);
      } else {
        var out, roles := Translated(before, enableThinking, json), Roles(before);
        RolesAppend(out, RoleOf(m), BlocksOf(m, enableThinking, json));
        WithoutRepeatsSnoc(roles, RoleOf(m));
        if roles != [] {
          LastIsKept(roles);
        }
      }
    }
  }

  lemma {:induction false} BlocksAreKept(ms: seq<ChatMessage>, enableThinking: bool, json: Json)
    ensures Flat(Translated(ms, enableThinking, json)) == OneByOne(ms, enableThinking, json)
    decreases |ms|
  {
    if ms != [] {
      var before, m := ms[..|ms| - 1], ms[|ms| - 1];
      assert before + [m] == ms;
      BlocksAreKept(before, enableThinking, json);
      OneByOneSnoc(before, m, enableThinking, json);
      if !m.System? {
        FlatAppend(Translated(before, enableThinking, json), RoleOf(m), BlocksOf(m, enableThinking, json));
      }
    }
  }

  /** Reading the translated turns block by block gives exactly the blocks of each message in order, tool results
      on the user side; the turns are the runs of equal roles, so no two neighbouring turns have the same role. */
  lemma {:induction false} TranslationKeepsMeaning(ms: seq<ChatMessage>, enableThinking: bool, json: Json)
    ensures var out := Translated(ms, enableThinking, json);
      && Flat(out) == OneByOne(ms, enableThinking, json)
      && TurnRoles(out) == WithoutRepeats(Roles(ms))
      && forall i :: 0 < i < |out| ==> out[i].role != out[i - 1].role
  {
    BlocksAreKept(ms, enableThinking, json);
    TurnsAreRuns(ms, enableThinking, json);
    RepeatsRemoved(Roles(ms));
    var out := Translated(ms, enableThinking, json);
    assert forall i :: 0 <= i < |out| ==> out[i].role == TurnRoles(out)[i];
  }
}
