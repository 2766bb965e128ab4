/**
 * The reasoning backend's side of a turn (llm_handling.go, and the older
 * encoder in craig.go): the JSON shape of a reason-action answer and its
 * conversion to and from a tool-calls message, and `BuildInputMessages`,
 * which turns a history into the role+text list sent to the model.
 *
 * Rendering the system template and indenting JSON are library text
 * processing; they are the two functions of a `TextLibrary`.
 */
module Backend {
  import opened Wrappers
  import opened Prompts
  import opened Messages

  /** `toolArg`, `toolCall`, `reasonResponse`: the JSON answer of reason-action mode. */
  datatype ToolArg = ToolArg(argName: string, argValue: ArgValue)
  datatype ToolCallRequest = ToolCallRequest(toolName: string, toolArgs: seq<ToolArg>)
  datatype ReasonResponse = ReasonResponse(reasoning: string, toolCalls: seq<ToolCallRequest>)

  /**
   * `renderSystem(template, personality, skills)` is `executeSystemPrompt`;
   * `marshalIndent` is the indented JSON text of a reason response.
   */
  datatype TextLibrary = TextLibrary(
    renderSystem: (string, string, seq<InsertedSkill>) -> string,
    marshalIndent: ReasonResponse -> string)

  // ---------------------------------------------------------------------------
  // Reason responses and tool-calls messages

  function CallOfRequest(t: ToolCallRequest): ToolCall
  {
    ToolCall(t.toolName, seq(|t.toolArgs|, i requires 0 <= i < |t.toolArgs| =>
                               ToolCallArg(t.toolArgs[i].argName, t.toolArgs[i].argValue)))
  }

  function RequestOfCall(c: ToolCall): ToolCallRequest
  {
    ToolCallRequest(c.toolName, seq(|c.toolArgs|, i requires 0 <= i < |c.toolArgs| =>
                                      ToolArg(c.toolArgs[i].argName, c.toolArgs[i].argValue)))
  }

  /** The tool-calls message of a reason response. */
  function MessageOfResponse(r: ReasonResponse): Message
  {
    ToolCallsMessage(r.reasoning, seq(|r.toolCalls|, i requires 0 <= i < |r.toolCalls| => CallOfRequest(r.toolCalls[i])))
  }

  /** The reason response of a tool-calls message's reasoning and calls. */
  function ResponseOfCalls(reasoning: string, calls: seq<ToolCall>): ReasonResponse
  {
    ReasonResponse(reasoning, seq(|calls|, i requires 0 <= i < |calls| => RequestOfCall(calls[i])))
  }

  /** Converting a response to a message and back gives the same response. */
  lemma ResponseRoundTrip(r: ReasonResponse)
    ensures var m := MessageOfResponse(r); ResponseOfCalls(m.reasoning, m.toolCalls) == r
  {
    var m := MessageOfResponse(r);
    forall i | 0 <= i < |r.toolCalls|
      ensures RequestOfCall(m.toolCalls[i]) == r.toolCalls[i]
    {
      assert RequestOfCall(CallOfRequest(r.toolCalls[i])).toolArgs == r.toolCalls[i].toolArgs;
    }
  }

  /** Converting a message to a response and back gives the same message. */
  lemma MessageRoundTrip(reasoning: string, calls: seq<ToolCall>)
    ensures MessageOfResponse(ResponseOfCalls(reasoning, calls)) == ToolCallsMessage(reasoning, calls)
  {
    var r := ResponseOfCalls(reasoning, calls);
    forall i | 0 <= i < |calls|
      ensures CallOfRequest(r.toolCalls[i]) == calls[i]
    {
      assert CallOfRequest(RequestOfCall(calls[i])).toolArgs == calls[i].toolArgs;
    }
  }

  /** `toolCallsMessageFromResponse`: copy the reasoning, then each call with its arguments, in order. */
  method ToolCallsMessageFromResponse(resp: ReasonResponse) returns (m: Message)
    ensures m == MessageOfResponse(resp)
    ensures m.ToolCallsMessage? && m.reasoning == resp.reasoning && |m.toolCalls| == |resp.toolCalls|
    ensures forall i :: 0 <= i < |resp.toolCalls| ==>
              m.toolCalls[i].toolName == resp.toolCalls[i].toolName
              && |m.toolCalls[i].toolArgs| == |resp.toolCalls[i].toolArgs|
  {
    var calls: seq<ToolCall> := [];
    for i := 0 to |resp.toolCalls|
      invariant |calls| == i
      invariant forall j :: 0 <= j < i ==> calls[j] == CallOfRequest(resp.toolCalls[j])
    {
      var tc := resp.toolCalls[i];
      var args: seq<ToolCallArg> := [];
      for k := 0 to |tc.toolArgs|
        invariant |args| == k
        invariant forall j :: 0 <= j < k ==> args[j] == ToolCallArg(tc.toolArgs[j].argName, tc.toolArgs[j].argValue)
      {
        args := args + [ToolCallArg(tc.toolArgs[k].argName, tc.toolArgs[k].argValue)];
      }
      calls := calls + [ToolCall(tc.toolName, args)];
    }
    m := ToolCallsMessage(resp.reasoning, calls);
  }

  /** `responseFromToolCallsMessage`: the inverse conversion, loop for loop. */
  method ResponseFromToolCallsMessage(reasoning: string, toolCalls: seq<ToolCall>) returns (resp: ReasonResponse)
    ensures resp == ResponseOfCalls(reasoning, toolCalls)
    ensures resp.reasoning == reasoning && |resp.toolCalls| == |toolCalls|
    ensures forall i :: 0 <= i < |toolCalls| ==>
              resp.toolCalls[i].toolName == toolCalls[i].toolName
              && |resp.toolCalls[i].toolArgs| == |toolCalls[i].toolArgs|
  {
    var calls: seq<ToolCallRequest> := [];
    for i := 0 to |toolCalls|
      invariant |calls| == i
      invariant forall j :: 0 <= j < i ==> calls[j] == RequestOfCall(toolCalls[j])
    {
      var tc := toolCalls[i];
      var args: seq<ToolArg> := [];
      for k := 0 to |tc.toolArgs|
        invariant |args| == k
        invariant forall j :: 0 <= j < k ==> args[j] == ToolArg(tc.toolArgs[j].argName, tc.toolArgs[j].argValue)
      {
        args := args + [ToolArg(tc.toolArgs[k].argName, tc.toolArgs[k].argValue)];
      }
      calls := calls + [ToolCallRequest(tc.toolName, args)];
    }
    resp := ReasonResponse(reasoning, calls);
  }

  // ---------------------------------------------------------------------------
  // Fixed texts

  const ToolSeparator := "\n==========\n"
  const ReasonActText := "**Mode Change**\nYou are now in reason-action mode. Use the reason-action json format when answering questions here. The user will not see the followin responses."
  const AnswerUserText := "**Mode Change**\nYou are now in final answer mode. Your full response will be show to the user. You can respond in any format."
  const NoToolsText := "The available tools have changed, there are now no tools available."
  const ToolsHeader := "The available tools have changed, here are the current available tools:\n"
  const FragmentsHeader := "Below is some potentially useful information (some of this may not be relevant):"
  const FragmentSeparator := "\n\n"

  function ResponseTexts(rs: seq<ToolResponse>): seq<string>
  {
    seq(|rs|, i requires 0 <= i < |rs| => rs[i].response)
  }

  /** The text of a tool-response message. */
  function ToolResponsesText(rs: seq<ToolResponse>): string
  {
    "Tool Responses:" + ToolSeparator + Join(ResponseTexts(rs), ToolSeparator)
  }

  /** One `"\n  - "` line per description entry. */
  function DescriptionLines(ds: seq<string>): string
  {
    if ds == [] then "" else DescriptionLines(ds[..|ds| - 1]) + "\n  - " + ds[|ds| - 1]
  }

  function ToolLine(d: AvailableToolDefinition): string
  {
    "- Tool `" + d.name + "`" + DescriptionLines(d.description)
  }

  function ToolLines(defs: seq<AvailableToolDefinition>): seq<string>
  {
    seq(|defs|, i requires 0 <= i < |defs| => ToolLine(defs[i]))
  }

  /** The text announcing a tool set. */
  function ToolsText(defs: seq<AvailableToolDefinition>): string
  {
    if |defs| == 0 then NoToolsText else ToolsHeader + Join(ToolLines(defs), "\n")
  }

  function NotificationText(kind: string, content: string): string
  {
    "**Notification of type '" + kind + "'**\n" + content
  }

  /** The text of a fragment message in the older encoder: a header, then the contents. */
  function FragmentsText(skills: seq<InsertedSkill>): string
  {
    FragmentsHeader + FragmentSeparator
    + Join(seq(|skills|, i requires 0 <= i < |skills| => skills[i].skill.content), FragmentSeparator)
  }

  // ---------------------------------------------------------------------------
  // Encoding a history

  /** The role each kind of message is sent with, when it is sent. */
  function RoleOf(m: Message): Role
  {
    if m.UserMessage? then UserRole
    else if m.AgentMessage? || m.ToolCallsMessage? then AssistantRole
    else SystemRole
  }

  /** A mode switch the model is told about: only reason-action and final answer. */
  predicate AnnouncedMode(mode: AgentMode)
  {
    mode == ModeReasonAct || mode == ModeAnswerUser
  }

  /**
   * The entry of a message of the kinds both encoders treat alike (all but
   * system, skill and personality messages); no entry for the other kinds.
   */
  function CommonEntry(lib: TextLibrary, m: Message): (r: Option<PromptMessage>)
    ensures r.Some? <==> !(m.SystemMessage? || m.SkillMessage? || m.PersonalityMessage?)
                         && !(m.ModeSwitchMessage? && !AnnouncedMode(m.mode))
    ensures r.Some? ==> r.value.role == RoleOf(m)
    ensures m.UserMessage? || m.AgentMessage? ==> r == Some(PromptMessage(RoleOf(m), m.content))
  {
    match m
    case UserMessage(c) => Some(PromptMessage(UserRole, c))
    case AgentMessage(c) => Some(PromptMessage(AssistantRole, c))
    case ToolCallsMessage(r, calls) => Some(PromptMessage(AssistantRole, lib.marshalIndent(ResponseOfCalls(r, calls))))
    case ToolResponseMessage(rs) => Some(PromptMessage(SystemRole, ToolResponsesText(rs)))
    case ModeSwitchMessage(mode) =>
      if mode == ModeReasonAct then Some(PromptMessage(SystemRole, ReasonActText))
      else if mode == ModeAnswerUser then Some(PromptMessage(SystemRole, AnswerUserText))
      else None
    case NotificationMessage(k, c) => Some(PromptMessage(SystemRole, NotificationText(k, c)))
    case ToolsMessage(defs) => Some(PromptMessage(SystemRole, ToolsText(defs)))
    case _ => None
  }

  /** A message `BuildInputMessages` makes an entry for. */
  predicate Emitted(m: Message)
  {
    !m.SkillMessage? && !m.PersonalityMessage? && !(m.ModeSwitchMessage? && !AnnouncedMode(m.mode))
  }

  /**
   * The entry of one message of the history `all`.  The system template is
   * rendered with the last personality and the last inserted skills of the
   * whole history, wherever the system message itself sits.
   */
  function Entry(lib: TextLibrary, all: seq<Message>, m: Message): (r: Option<PromptMessage>)
    ensures r.Some? <==> Emitted(m)
    ensures r.Some? ==> r.value.role == RoleOf(m)
  {
    match m
    case SystemMessage(t) => Some(PromptMessage(SystemRole, lib.renderSystem(t, LastPersonality(all), LastInsertedSkills(all))))
    case _ => CommonEntry(lib, m)
  }

  function EntrySeq(e: Option<PromptMessage>): seq<PromptMessage>
  {
    if e.Some? then [e.value] else []
  }

  /** The entries of the messages `msgs` of the history `all`, in order. */
  function EncodeWithin(lib: TextLibrary, all: seq<Message>, msgs: seq<Message>): seq<PromptMessage>
  {
    if msgs == [] then []
    else EncodeWithin(lib, all, msgs[..|msgs| - 1]) + EntrySeq(Entry(lib, all, msgs[|msgs| - 1]))
  }

  /** What `BuildInputMessages` sends for a history. */
  function EncodeHistory(lib: TextLibrary, h: seq<Message>): seq<PromptMessage>
  {
    EncodeWithin(lib, h, h)
  }

  /** Encoding `a + b` is encoding `a`, then `b`. */
  lemma {:induction false} EncodeWithinAppend(lib: TextLibrary, all: seq<Message>, a: seq<Message>, b: seq<Message>)
    ensures EncodeWithin(lib, all, a + b) == EncodeWithin(lib, all, a) + EncodeWithin(lib, all, b)
  {
    if b == [] {
      assert a + b == a;
    } else {
      assert (a + b)[..|a + b| - 1] == a + b[..|b| - 1];
      EncodeWithinAppend(lib, all, a, b[..|b| - 1]);
    }
  }

  /**
   * With the rendering context `all` fixed, a skill, personality or
   * unannounced mode-switch message adds no entry of its own.  (Skill and
   * personality messages still reach the prompt through the system entry,
   * which is rendered from the whole history.)
   */
  lemma SkippedMessageLeavesNoEntry(lib: TextLibrary, all: seq<Message>, a: seq<Message>, m: Message, b: seq<Message>)
    requires !Emitted(m)
    ensures EncodeWithin(lib, all, a + [m] + b) == EncodeWithin(lib, all, a + b)
  {
    EncodeWithinAppend(lib, all, a + [m], b);
    EncodeWithinAppend(lib, all, a, [m]);
    EncodeWithinAppend(lib, all, a, b);
    EncodeWithinOne(lib, all, m);
    var ea := EncodeWithin(lib, all, a);
    assert EncodeWithin(lib, all, a + [m]) == ea + [] == ea;
  }

  lemma EncodeWithinOne(lib: TextLibrary, all: seq<Message>, m: Message)
    ensures EncodeWithin(lib, all, [m]) == EntrySeq(Entry(lib, all, m))
  {
    assert [m][..0] == [];
  }

  /** Entries depend on the history only through its last personality and its last inserted skills. */
  lemma {:induction false} EncodeWithinSameContext(lib: TextLibrary, all1: seq<Message>, all2: seq<Message>, msgs: seq<Message>)
    requires LastPersonality(all1) == LastPersonality(all2)
    requires LastInsertedSkills(all1) == LastInsertedSkills(all2)
    ensures EncodeWithin(lib, all1, msgs) == EncodeWithin(lib, all2, msgs)
  {
    if msgs != [] {
      EncodeWithinSameContext(lib, all1, all2, msgs[..|msgs| - 1]);
    }
  }

  /** A mode switch the model is not told about, inserted anywhere in a history, leaves its prompt unchanged. */
  lemma UnannouncedSwitchLeavesPromptUnchanged(lib: TextLibrary, a: seq<Message>, mode: AgentMode, b: seq<Message>)
    requires !AnnouncedMode(mode)
    ensures EncodeHistory(lib, a + [ModeSwitchMessage(mode)] + b) == EncodeHistory(lib, a + b)
  {
    var m := ModeSwitchMessage(mode);
    LastPersonalityInsert(a, m, b);
    LastInsertedSkillsInsert(a, m, b);
    SkippedMessageLeavesNoEntry(lib, a + [m] + b, a, m, b);
    EncodeWithinSameContext(lib, a + [m] + b, a + b, a + b);
  }

  /** When every message is emitted, entry i is the entry of message i. */
  lemma {:induction false} OneEntryPerMessage(lib: TextLibrary, all: seq<Message>, msgs: seq<Message>)
    requires forall m :: m in msgs ==> Emitted(m)
    ensures |EncodeWithin(lib, all, msgs)| == |msgs|
    ensures forall i :: 0 <= i < |msgs| ==> Some(EncodeWithin(lib, all, msgs)[i]) == Entry(lib, all, msgs[i])
  {
    if msgs != [] {
      var prefix := msgs[..|msgs| - 1];
      assert forall m :: m in prefix ==> m in msgs;
      OneEntryPerMessage(lib, all, prefix);
      assert msgs[|msgs| - 1] in msgs;
    }
  }

  /** Every entry has the role of some message's kind: no other role is ever produced. */
  lemma {:induction false} EntriesHaveKindRoles(lib: TextLibrary, all: seq<Message>, msgs: seq<Message>)
    ensures |EncodeWithin(lib, all, msgs)| <= |msgs|
    ensures forall e :: e in EncodeWithin(lib, all, msgs) ==> exists m :: m in msgs && Emitted(m) && e.role == RoleOf(m)
  {
    if msgs != [] {
      var prefix := msgs[..|msgs| - 1];
      EntriesHaveKindRoles(lib, all, prefix);
      assert forall m :: m in prefix ==> m in msgs;
      assert msgs[|msgs| - 1] in msgs;
    }
  }

  /** A history that opens with its system message is sent with the rendered template first. */
  lemma SystemPromptFirst(lib: TextLibrary, t: string, rest: seq<Message>)
    ensures var h := [SystemMessage(t)] + rest;
            |EncodeHistory(lib, h)| > 0
            && EncodeHistory(lib, h)[0] == PromptMessage(SystemRole, lib.renderSystem(t, LastPersonality(h), LastInsertedSkills(h)))
  {
    var h := [SystemMessage(t)] + rest;
    EncodeWithinAppend(lib, h, [SystemMessage(t)], rest);
    assert [SystemMessage(t)][..0] == [];
  }

  /** Two tool responses are sent as the header and both texts, separated by the rule line. */
  lemma TwoToolResponsesText(a: string, b: string)
    ensures ToolResponsesText([ToolResponse(a), ToolResponse(b)])
         == "Tool Responses:\n==========\n" + a + "\n==========\n" + b
  {
    assert ResponseTexts([ToolResponse(a), ToolResponse(b)]) == [a] + [b];
    JoinSnoc([a], ToolSeparator, b);
  }

  /** Each description entry contributes its own indented line: the lines of `a + b` are those of `a`, then of `b`. */
  lemma {:induction false} DescriptionLinesAppend(a: seq<string>, b: seq<string>)
    ensures DescriptionLines(a + b) == DescriptionLines(a) + DescriptionLines(b)
  {
    if b == [] {
      assert a + b == a;
    } else {
      var p := b[..|b| - 1];
      assert (a + b)[..|a + b| - 1] == a + p;
      DescriptionLinesAppend(a, p);
      var x, y, z := DescriptionLines(a), DescriptionLines(p), "\n  - " + b[|b| - 1];
      assert (x + y) + z == x + (y + z);
    }
  }

  /** One description entry is one line: a newline, two spaces of indent, a dash and the entry. */
  lemma DescriptionLineOne(entry: string)
    ensures DescriptionLines([entry]) == "\n  - " + entry
  {
    assert [entry][..0] == [];
  }

  /** A single tool is announced as the header, then its name line with its description lines. */
  lemma OneToolText(d: AvailableToolDefinition)
    ensures ToolsText([d]) == ToolsHeader + ("- Tool `" + d.name + "`" + DescriptionLines(d.description))
  {
    assert ToolLines([d]) == [ToolLine(d)];
  }

  /** Announcing one more tool appends a newline and that tool's lines to the announcement. */
  lemma ToolsTextSnoc(defs: seq<AvailableToolDefinition>, d: AvailableToolDefinition)
    requires |defs| > 0
    ensures ToolsText(defs + [d]) == ToolsText(defs) + "\n" + ToolLine(d)
  {
    assert ToolLines(defs + [d]) == ToolLines(defs) + [ToolLine(d)];
    JoinSnoc(ToolLines(defs), "\n", ToolLine(d));
  }

  /** `BuildInputMessages` of llm_handling.go: one entry or none per message, in order. */
  method BuildInputMessages(lib: TextLibrary, msgs: seq<Message>) returns (r: Result<seq<PromptMessage>, string>)
    ensures r == Success(EncodeHistory(lib, msgs))
  {
    var result: seq<PromptMessage> := [];
    for i := 0 to |msgs|
      invariant result == EncodeWithin(lib, msgs, msgs[..i])
    {
      assert msgs[..i + 1][..i] == msgs[..i];
      var entry := EncodeOne(lib, msgs, msgs[i]);
      if entry.Some? {
        result := result + [entry.value];
      }
    }
    assert msgs[..|msgs|] == msgs;
    return Success(result);
  }

  /** The body of the encoding loop for one message. */
  method EncodeOne(lib: TextLibrary, all: seq<Message>, m: Message) returns (entry: Option<PromptMessage>)
    ensures entry == Entry(lib, all, m)
  {
    match m {
      case SystemMessage(t) =>
        entry := Some(PromptMessage(SystemRole, lib.renderSystem(t, LastPersonality(all), LastInsertedSkills(all))));
      case ToolResponseMessage(rs) =>
        var text := JoinResponses(rs);
        entry := Some(PromptMessage(SystemRole, text));
      case ToolsMessage(defs) =>
        var text := DescribeTools(defs);
        entry := Some(PromptMessage(SystemRole, text));
      case _ =>
        entry := CommonEntry(lib, m);
    }
  }

  /** The tool-response text: collect the responses, then join them. */
  method JoinResponses(rs: seq<ToolResponse>) returns (text: string)
    ensures text == ToolResponsesText(rs)
  {
    var results: seq<string> := [];
    for i := 0 to |rs|
      invariant |results| == i
      invariant forall j :: 0 <= j < i ==> results[j] == rs[j].response
    {
      results := results + [rs[i].response];
    }
    assert results == ResponseTexts(rs);
    text := "Tool Responses:" + ToolSeparator + Join(results, ToolSeparator);
  }

  /** The tool-set text: one line per tool, each followed by its description lines. */
  method DescribeTools(defs: seq<AvailableToolDefinition>) returns (text: string)
    ensures text == ToolsText(defs)
    ensures |defs| == 0 <==> text == NoToolsText
  {
    if |defs| == 0 {
      return NoToolsText;
    }
    var tools: seq<string> := [];
    for i := 0 to |defs|
      invariant |tools| == i
      invariant forall j :: 0 <= j < i ==> tools[j] == ToolLine(defs[j])
    {
      var s := "- Tool `" + defs[i].name + "`";
      ghost var prefix := s;
      for k := 0 to |defs[i].description|
        invariant s == prefix + DescriptionLines(defs[i].description[..k])
      {
        assert defs[i].description[..k + 1][..k] == defs[i].description[..k];
        s := s + "\n  - " + defs[i].description[k];
      }
      assert defs[i].description[..|defs[i].description|] == defs[i].description;
      tools := tools + [s];
    }
    assert tools == ToolLines(defs);
    text := ToolsHeader + Join(tools, "\n");
    assert text[..|NoToolsText|] != NoToolsText || |text| != |NoToolsText|;
  }

  // ---------------------------------------------------------------------------
  // The older encoder (craig.go)

  /**
   * The entry of one message in craig.go's encoder: the system text is sent
   * as stored, a fragment message becomes a header and the fragment contents,
   * and a personality message has no case there, so it is an error.
   */
  function CraigEntry(lib: TextLibrary, m: Message): (r: Result<Option<PromptMessage>, string>)
    ensures r.Failure? <==> m.PersonalityMessage?
    ensures r.Success? && r.value.Some? ==> r.value.value.role == RoleOf(m)
    ensures r.Success? ==> (r.value.None? <==> m.ModeSwitchMessage? && !AnnouncedMode(m.mode))
  {
    match m
    case SystemMessage(c) => Success(Some(PromptMessage(SystemRole, c)))
    case SkillMessage(s) => Success(Some(PromptMessage(SystemRole, FragmentsText(s))))
    case PersonalityMessage(_) => Failure("unknown message type")
    case _ => Success(CommonEntry(lib, m))
  }

  /** craig.go's encoding of a history; the first message it cannot encode aborts it. */
  function CraigEncode(lib: TextLibrary, msgs: seq<Message>): (r: Result<seq<PromptMessage>, string>)
    ensures r.Failure? <==> exists i :: 0 <= i < |msgs| && msgs[i].PersonalityMessage?
    ensures r.Failure? ==> r.error == "unknown message type"
  {
    if msgs == [] then Success([])
    else
      match CraigEncode(lib, msgs[..|msgs| - 1])
      case Failure(e) => Failure(e)
      case Success(prefix) =>
        match CraigEntry(lib, msgs[|msgs| - 1])
        case Failure(e) => Failure(e)
        case Success(e) => Success(prefix + EntrySeq(e))
  }

  /** Encoding one more message that the older encoder accepts appends its entry, if any. */
  lemma CraigEncodeSnoc(lib: TextLibrary, msgs: seq<Message>, m: Message, prefix: seq<PromptMessage>, e: Option<PromptMessage>)
    requires CraigEncode(lib, msgs) == Success(prefix)
    requires CraigEntry(lib, m) == Success(e)
    ensures CraigEncode(lib, msgs + [m]) == Success(prefix + EntrySeq(e))
  {
    assert (msgs + [m])[..|msgs|] == msgs;
  }

  /** Where both encoders emit an entry for a message of a shared kind, it is the same entry. */
  lemma EncodersAgreeOnSharedKinds(lib: TextLibrary, all: seq<Message>, m: Message)
    requires !m.SystemMessage? && !m.SkillMessage? && !m.PersonalityMessage?
    ensures CraigEntry(lib, m) == Success(Entry(lib, all, m))
  {
  }

  /** `BuildInputMessages` of craig.go. */
  method CraigBuildInputMessages(lib: TextLibrary, msgs: seq<Message>) returns (r: Result<seq<PromptMessage>, string>)
    ensures r == CraigEncode(lib, msgs)
  {
    var result: seq<PromptMessage> := [];
    for i := 0 to |msgs|
      invariant CraigEncode(lib, msgs[..i]) == Success(result)
    {
      assert msgs[..i + 1][..i] == msgs[..i];
      var entry: Option<PromptMessage>;
      match msgs[i] {
        case SystemMessage(c) =>
          entry := Some(PromptMessage(SystemRole, c));
        case SkillMessage(skills) =>
          var frags: seq<string> := [];
          for k := 0 to |skills|
            invariant |frags| == k
            invariant forall j :: 0 <= j < k ==> frags[j] == skills[j].skill.content
          {
            frags := frags + [skills[k].skill.content];
          }
          assert frags == seq(|skills|, j requires 0 <= j < |skills| => skills[j].skill.content);
          entry := Some(PromptMessage(SystemRole, FragmentsHeader + FragmentSeparator + Join(frags, FragmentSeparator)));
        case PersonalityMessage(_) =>
          return Failure("unknown message type");
        case _ =>
          entry := EncodeOne(lib, msgs, msgs[i]);
          EncodersAgreeOnSharedKinds(lib, msgs, msgs[i]);
      }
      CraigEncodeSnoc(lib, msgs[..i], msgs[i], result, entry);
      assert msgs[..i + 1] == msgs[..i] + [msgs[i]];
      if entry.Some? {
        result := result + [entry.value];
      } else {
        assert result + EntrySeq(entry) == result;
      }
    }
    assert msgs[..|msgs|] == msgs;
    return Success(result);
  }
}
