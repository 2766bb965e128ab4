/**
 * Persistence of a history (saveload.go): every message becomes a tagged
 * record that carries its kind and only that kind's fields, and a record is
 * turned back into a message by its tag.  The JSON text itself is not
 * modelled; a record is the value JSON encoding would write and read back.
 */
module SaveLoad {
  import opened Wrappers
  import opened Messages

  const KindSystem := "system"
  const KindUser := "user"
  const KindAgent := "agent"
  const KindToolCalls := "tool_calls"
  const KindToolResponse := "tool_response"
  const KindNotification := "notification"
  const KindSkills := "skills"
  const KindAvailableTools := "available_tools"
  const KindModeSwitch := "mode_switch"
  const KindPersonality := "personality"

  /** The ten kind tags. */
  const AllKinds: seq<string> := [KindSystem, KindUser, KindAgent, KindToolCalls, KindToolResponse,
                                  KindNotification, KindSkills, KindAvailableTools, KindModeSwitch,
                                  KindPersonality]

  /** The ten kind tags are pairwise distinct, so a tag names one kind. */
  lemma KindTagsDistinct()
    ensures forall i, j :: 0 <= i < j < |AllKinds| ==> AllKinds[i] != AllKinds[j]
  {
  }

  /** The persisted record of one message (Go `messageDTO`). */
  datatype MessageDto = MessageDto(
    kind: string,
    content: string,
    reasoning: string,
    notificationKind: string,
    toolCalls: seq<ToolCall>,
    responses: seq<ToolResponse>,
    skills: seq<InsertedSkill>,
    availableTools: seq<AvailableToolDefinition>,
    mode: AgentMode,
    personality: string)

  /** The record with every field at its zero value (what an omitted field reads back as). */
  const ZeroDto := MessageDto("", "", "", "", [], [], [], [], 0, "")

  /** The record holds its tag and, besides it, only the fields of that kind. */
  predicate CarriesOnlyKindFields(d: MessageDto)
  {
    if d.kind in {KindSystem, KindUser, KindAgent} then
      d == ZeroDto.(kind := d.kind, content := d.content)
    else if d.kind == KindToolCalls then
      d == ZeroDto.(kind := d.kind, reasoning := d.reasoning, toolCalls := d.toolCalls)
    else if d.kind == KindToolResponse then
      d == ZeroDto.(kind := d.kind, responses := d.responses)
    else if d.kind == KindNotification then
      d == ZeroDto.(kind := d.kind, content := d.content, notificationKind := d.notificationKind)
    else if d.kind == KindSkills then
      d == ZeroDto.(kind := d.kind, skills := d.skills)
    else if d.kind == KindAvailableTools then
      d == ZeroDto.(kind := d.kind, availableTools := d.availableTools)
    else if d.kind == KindModeSwitch then
      d == ZeroDto.(kind := d.kind, mode := d.mode)
    else if d.kind == KindPersonality then
      d == ZeroDto.(kind := d.kind, personality := d.personality)
    else
      false
  }

  /** The tag a message kind is meant to be stored under. */
  function KindOf(m: Message): string
  {
    match m
    case SystemMessage(_) => KindSystem
    case UserMessage(_) => KindUser
    case AgentMessage(_) => KindAgent
    case ToolCallsMessage(_, _) => KindToolCalls
    case ToolResponseMessage(_) => KindToolResponse
    case ModeSwitchMessage(_) => KindModeSwitch
    case NotificationMessage(_, _) => KindNotification
    case PersonalityMessage(_) => KindPersonality
    case SkillMessage(_) => KindSkills
    case ToolsMessage(_) => KindAvailableTools
  }

  /**
   * `messageToDTO` as the code has it: a tools message is tagged with the
   * skills tag, not with the available-tools tag.
   */
  function MessageToDtoAsWritten(m: Message): (d: MessageDto)
    ensures !m.ToolsMessage? ==> d.kind == KindOf(m) && CarriesOnlyKindFields(d)
    ensures m.ToolsMessage? ==> d == ZeroDto.(kind := KindSkills, availableTools := m.tools)
  {
    match m
    case ToolsMessage(defs) => ZeroDto.(kind := KindSkills, availableTools := defs)
    case _ => MessageToDto(m)
  }

  /**
   * `messageToDTO` with each kind under its own tag (the tools message under
   * the available-tools tag, which is the tag `dtoToMessage` reads tools from).
   */
  function MessageToDto(m: Message): (d: MessageDto)
    ensures d.kind == KindOf(m)
    ensures CarriesOnlyKindFields(d)
  {
    match m
    case SystemMessage(t) => ZeroDto.(kind := KindSystem, content := t)
    case UserMessage(c) => ZeroDto.(kind := KindUser, content := c)
    case AgentMessage(c) => ZeroDto.(kind := KindAgent, content := c)
    case ToolCallsMessage(r, calls) => ZeroDto.(kind := KindToolCalls, reasoning := r, toolCalls := calls)
    case ToolResponseMessage(rs) => ZeroDto.(kind := KindToolResponse, responses := rs)
    case NotificationMessage(k, c) => ZeroDto.(kind := KindNotification, content := c, notificationKind := k)
    case SkillMessage(s) => ZeroDto.(kind := KindSkills, skills := s)
    case ToolsMessage(defs) => ZeroDto.(kind := KindAvailableTools, availableTools := defs)
    case ModeSwitchMessage(mode) => ZeroDto.(kind := KindModeSwitch, mode := mode)
    case PersonalityMessage(p) => ZeroDto.(kind := KindPersonality, personality := p)
  }

  /** `dtoToMessage`: the message a record stands for; an unknown tag is fatal. */
  function DtoToMessage(d: MessageDto): (r: Result<Message, string>)
    ensures r.Failure? <==> d.kind !in AllKinds
    ensures r.Success? ==> KindOf(r.value) == d.kind
  {
    if d.kind !in AllKinds then Failure("unknown message kind")
    else if d.kind == KindSystem then Success(SystemMessage(d.content))
    else if d.kind == KindUser then Success(UserMessage(d.content))
    else if d.kind == KindAgent then Success(AgentMessage(d.content))
    else if d.kind == KindToolCalls then Success(ToolCallsMessage(d.reasoning, d.toolCalls))
    else if d.kind == KindToolResponse then Success(ToolResponseMessage(d.responses))
    else if d.kind == KindNotification then Success(NotificationMessage(d.notificationKind, d.content))
    else if d.kind == KindSkills then Success(SkillMessage(d.skills))
    else if d.kind == KindAvailableTools then Success(ToolsMessage(d.availableTools))
    else if d.kind == KindModeSwitch then Success(ModeSwitchMessage(d.mode))
    else Success(PersonalityMessage(d.personality))
  }

  /** Every message, of every kind, reads back as itself. */
  lemma DecodeEncodeMessage(m: Message)
    ensures DtoToMessage(MessageToDto(m)) == Success(m)
  {
  }

  /** With the code as written, every kind except the tools message reads back as itself. */
  lemma DecodeEncodeAsWritten(m: Message)
    ensures !m.ToolsMessage? ==> DtoToMessage(MessageToDtoAsWritten(m)) == Success(m)
    ensures m.ToolsMessage? ==> DtoToMessage(MessageToDtoAsWritten(m)) == Success(SkillMessage([]))
  {
  }

  /** A saved list of tool definitions comes back as an empty skill message. */
  lemma ToolsMessageRoundTripFails(defs: seq<AvailableToolDefinition>)
    ensures DtoToMessage(MessageToDtoAsWritten(ToolsMessage(defs))) != Success(ToolsMessage(defs))
  {
    DecodeEncodeAsWritten(ToolsMessage(defs));
  }

  /** The index-wise loop of `EncodeMessages`: record i is message i's record. */
  function EncodeMessages(messages: seq<Message>): (dtos: seq<MessageDto>)
    ensures |dtos| == |messages|
    ensures forall i :: 0 <= i < |messages| ==> dtos[i] == MessageToDto(messages[i])
  {
    if messages == [] then []
    else EncodeMessages(messages[..|messages| - 1]) + [MessageToDto(messages[|messages| - 1])]
  }

  /** The index-wise loop of `DecodeMessages`; the first unknown tag aborts. */
  function DecodeMessages(dtos: seq<MessageDto>): (r: Result<seq<Message>, string>)
    ensures r.Success? ==> |r.value| == |dtos|
    ensures r.Success? ==> forall i :: 0 <= i < |dtos| ==> DtoToMessage(dtos[i]) == Success(r.value[i])
    ensures r.Failure? <==> exists i :: 0 <= i < |dtos| && dtos[i].kind !in AllKinds
  {
    if dtos == [] then Success([])
    else
      match DecodeMessages(dtos[..|dtos| - 1])
      case Failure(e) => Failure(e)
      case Success(prefix) =>
        match DtoToMessage(dtos[|dtos| - 1])
        case Failure(e) => Failure(e)
        case Success(m) => Success(prefix + [m])
  }

  /**
   * `EncodeMessages` as the code has it: record i is the record
   * `messageToDTO` writes for message i.
   */
  function EncodeMessagesAsWritten(messages: seq<Message>): (dtos: seq<MessageDto>)
    ensures |dtos| == |messages|
    ensures forall i :: 0 <= i < |messages| ==> dtos[i] == MessageToDtoAsWritten(messages[i])
  {
    seq(|messages|, i requires 0 <= i < |messages| => MessageToDtoAsWritten(messages[i]))
  }

  /** What a message reads back as after saving with the code as written: tools become an empty skill message. */
  function AsReloaded(m: Message): Message
  {
    if m.ToolsMessage? then SkillMessage([]) else m
  }

  /** A history with every tools message replaced by what it reads back as. */
  function ToolsForgotten(h: seq<Message>): (r: seq<Message>)
    ensures |r| == |h|
  {
    seq(|h|, i requires 0 <= i < |h| => AsReloaded(h[i]))
  }

  /** With the code as written, each message reads back as `AsReloaded` of it. */
  lemma ReloadAsWritten(m: Message)
    ensures DtoToMessage(MessageToDtoAsWritten(m)) == Success(AsReloaded(m))
  {
    DecodeEncodeAsWritten(m);
  }

  /** Encoding one more message with the code as written appends its record. */
  lemma EncodeAsWrittenSnoc(h: seq<Message>, m: Message)
    ensures EncodeMessagesAsWritten(h + [m]) == EncodeMessagesAsWritten(h) + [MessageToDtoAsWritten(m)]
  {
  }

  lemma ToolsForgottenSnoc(h: seq<Message>, m: Message)
    ensures ToolsForgotten(h + [m]) == ToolsForgotten(h) + [AsReloaded(m)]
  {
  }

  /**
   * Saving and loading with the code as written: the history comes back with
   * the same length and order, every message but a tools message unchanged,
   * and each tools message turned into an empty skill message.
   */
  lemma {:induction false} DecodeEncodeHistoryAsWritten(h: seq<Message>)
    ensures DecodeMessages(EncodeMessagesAsWritten(h)) == Success(ToolsForgotten(h))
  {
    if h != [] {
      var prefix, last := h[..|h| - 1], h[|h| - 1];
      assert h == prefix + [last];
      DecodeEncodeHistoryAsWritten(prefix);
      ReloadAsWritten(last);
      EncodeAsWrittenSnoc(prefix, last);
      ToolsForgottenSnoc(prefix, last);
      DecodeSnoc(EncodeMessagesAsWritten(prefix), MessageToDtoAsWritten(last), ToolsForgotten(prefix), AsReloaded(last));
    }
  }

  /** Decoding one more record that is known extends the decoded list by its message. */
  lemma DecodeSnoc(dtos: seq<MessageDto>, d: MessageDto, prefix: seq<Message>, m: Message)
    requires DecodeMessages(dtos) == Success(prefix)
    requires DtoToMessage(d) == Success(m)
    ensures DecodeMessages(dtos + [d]) == Success(prefix + [m])
  {
    assert (dtos + [d])[..|dtos|] == dtos;
  }

  /** Encoding one more message appends its record. */
  lemma EncodeSnoc(h: seq<Message>, m: Message)
    ensures EncodeMessages(h + [m]) == EncodeMessages(h) + [MessageToDto(m)]
  {
    assert (h + [m])[..|h|] == h;
  }

  /** With the corrected encoder, saving a whole history and loading it back gives the same history, in order. */
  lemma {:induction false} DecodeEncodeHistory(h: seq<Message>)
    ensures DecodeMessages(EncodeMessages(h)) == Success(h)
  {
    if h != [] {
      var prefix, last := h[..|h| - 1], h[|h| - 1];
      assert h == prefix + [last];
      EncodeSnoc(prefix, last);
      DecodeEncodeHistory(prefix);
      DecodeEncodeMessage(last);
      DecodeSnoc(EncodeMessages(prefix), MessageToDto(last), prefix, last);
    }
  }
}
