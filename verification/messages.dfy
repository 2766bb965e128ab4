/**
 * The message model of messages.go: the closed set of ten message kinds that
 * make up an agent's history, the records they carry, and `ConvertMessages`,
 * the in-order traversal that hands every message to the converter method of
 * its kind.
 *
 * A Go `MessageConverter` is an object with one method per kind.  Here a
 * converter invocation is the value `ConverterCall` (which method, with which
 * arguments), `ConvertMessages` returns the calls a converter receives, and a
 * converter that keeps state is a step function folded over those calls by
 * `RunConverter`.
 */
module Messages {

  /** A tool argument value: whatever the backend's JSON decoded to (Go `any`). */
  type ArgValue(==)

  /** Serialisable view of a tool: its name and description lines. */
  datatype AvailableToolDefinition = AvailableToolDefinition(name: string, description: seq<string>)

  /**
   * A unit of knowledge that can be put in front of the reasoning backend.
   * `when` is its applicability condition (empty: always applicable) and
   * `remainFor` the number of later turns it stays resident once inserted.
   */
  datatype Skill = Skill(key: string, when: string, content: string, remainFor: int)

  /** A skill as it sits in history, with its remaining number of turns. */
  datatype InsertedSkill = InsertedSkill(skill: Skill, nowRemainFor: int)

  datatype ToolCallArg = ToolCallArg(argName: string, argValue: ArgValue)

  datatype ToolCall = ToolCall(toolName: string, toolArgs: seq<ToolCallArg>)

  datatype ToolResponse = ToolResponse(response: string)

  /** An out-of-band notification queued for the next turn. */
  datatype Notification = Notification(kind: string, content: string)

  /** `AgentMode` is a `uint8`; three of its values are named. */
  newtype AgentMode = x: int | 0 <= x < 256

  const ModeCollectContext: AgentMode := 0
  const ModeReasonAct: AgentMode := 1
  const ModeAnswerUser: AgentMode := 2

  /** The ten kinds of message that can live in agent history. */
  datatype Message =
    | SystemMessage(template: string)
    | UserMessage(content: string)
    | AgentMessage(content: string)
    | ToolCallsMessage(reasoning: string, toolCalls: seq<ToolCall>)
    | ToolResponseMessage(responses: seq<ToolResponse>)
    | ModeSwitchMessage(mode: AgentMode)
    | NotificationMessage(kind: string, content: string)
    | PersonalityMessage(personality: string)
    | SkillMessage(skills: seq<InsertedSkill>)
    | ToolsMessage(tools: seq<AvailableToolDefinition>)

  /** A skill is conditional when it has an applicability condition. */
  predicate IsConditional(f: Skill)
  {
    f.when != ""
  }

  /** One invocation of a `MessageConverter` method, with its arguments. */
  datatype ConverterCall =
    | AddSystem(template: string)
    | AddUser(content: string)
    | AddAgent(content: string)
    | AddToolCalls(reasoning: string, toolCalls: seq<ToolCall>)
    | AddToolResponse(responses: seq<ToolResponse>)
    | AddModeSwitch(mode: AgentMode)
    | AddNotification(kind: string, content: string)
    | AddPersonality(personality: string)
    | AddSkills(skills: seq<InsertedSkill>)
    | AddToolDefs(defs: seq<AvailableToolDefinition>)

  /** `m.convert(c)`: the converter method a message calls, with its fields. */
  function Convert(m: Message): ConverterCall
  {
    match m
    case SystemMessage(t) => AddSystem(t)
    case UserMessage(c) => AddUser(c)
    case AgentMessage(c) => AddAgent(c)
    case ToolCallsMessage(r, calls) => AddToolCalls(r, calls)
    case ToolResponseMessage(rs) => AddToolResponse(rs)
    case ModeSwitchMessage(mode) => AddModeSwitch(mode)
    case NotificationMessage(k, c) => AddNotification(k, c)
    case PersonalityMessage(p) => AddPersonality(p)
    case SkillMessage(s) => AddSkills(s)
    case ToolsMessage(d) => AddToolDefs(d)
  }

  /** The message whose conversion is `c`: the other direction of `Convert`. */
  function MessageOf(c: ConverterCall): Message
  {
    match c
    case AddSystem(t) => SystemMessage(t)
    case AddUser(s) => UserMessage(s)
    case AddAgent(s) => AgentMessage(s)
    case AddToolCalls(r, calls) => ToolCallsMessage(r, calls)
    case AddToolResponse(rs) => ToolResponseMessage(rs)
    case AddModeSwitch(mode) => ModeSwitchMessage(mode)
    case AddNotification(k, s) => NotificationMessage(k, s)
    case AddPersonality(p) => PersonalityMessage(p)
    case AddSkills(s) => SkillMessage(s)
    case AddToolDefs(d) => ToolsMessage(d)
  }

  /**
   * Each kind dispatches to a method of its own and passes its fields
   * unchanged: the converter call determines the message and vice versa.
   */
  lemma ConvertIsBijective(m: Message, c: ConverterCall)
    ensures MessageOf(Convert(m)) == m
    ensures Convert(MessageOf(c)) == c
    ensures Convert(m) == c <==> m == MessageOf(c)
  {
  }

  /** The calls a converter receives from `ConvertMessages(converter, messages)`. */
  function ConvertMessages(messages: seq<Message>): (calls: seq<ConverterCall>)
    ensures |calls| == |messages|
    ensures forall i :: 0 <= i < |messages| ==> calls[i] == Convert(messages[i])
  {
    if messages == [] then []
    else ConvertMessages(messages[..|messages| - 1]) + [Convert(messages[|messages| - 1])]
  }

  /** Converting a concatenated history is converting its parts one after the other. */
  lemma {:induction false} ConvertMessagesAppend(h1: seq<Message>, h2: seq<Message>)
    ensures ConvertMessages(h1 + h2) == ConvertMessages(h1) + ConvertMessages(h2)
  {
    if h2 != [] {
      assert (h1 + h2)[..|h1 + h2| - 1] == h1 + h2[..|h2| - 1];
      ConvertMessagesAppend(h1, h2[..|h2| - 1]);
    } else {
      assert h1 + h2 == h1;
    }
  }

  /** The state a converter whose methods update state with `step` ends in. */
  function RunConverter<S>(step: (S, ConverterCall) -> S, start: S, calls: seq<ConverterCall>): S
  {
    if calls == [] then start
    else step(RunConverter(step, start, calls[..|calls| - 1]), calls[|calls| - 1])
  }

  /** Running over `a + b` is running over `b` from the state reached after `a`. */
  lemma {:induction false} RunConverterAppend<S>(step: (S, ConverterCall) -> S, start: S, a: seq<ConverterCall>, b: seq<ConverterCall>)
    ensures RunConverter(step, start, a + b) == RunConverter(step, RunConverter(step, start, a), b)
  {
    if b == [] {
      assert a + b == a;
    } else {
      assert (a + b)[..|a + b| - 1] == a + b[..|b| - 1];
      RunConverterAppend(step, start, a, b[..|b| - 1]);
    }
  }

  /**
   * A stateful converter run over a history `h1 + h2` ends where running it
   * over `h2` from its state after `h1` ends.
   */
  lemma ConvertHistoryAppend<S>(step: (S, ConverterCall) -> S, start: S, h1: seq<Message>, h2: seq<Message>)
    ensures RunConverter(step, start, ConvertMessages(h1 + h2))
         == RunConverter(step, RunConverter(step, start, ConvertMessages(h1)), ConvertMessages(h2))
  {
    ConvertMessagesAppend(h1, h2);
    RunConverterAppend(step, start, ConvertMessages(h1), ConvertMessages(h2));
  }

  /**
   * The skills of the most recent skill message, or none (the Go helper
   * `getLastInsertedSkills`).
   */
  function LastInsertedSkills(h: seq<Message>): (r: seq<InsertedSkill>)
    ensures r == [] || SkillMessage(r) in h
  {
    if h == [] then []
    else if h[|h| - 1].SkillMessage? then h[|h| - 1].skills
    else LastInsertedSkills(h[..|h| - 1])
  }

  /** The text of the most recent personality message, or "" (Go `getLastPersonality`). */
  function LastPersonality(h: seq<Message>): (r: string)
    ensures r == "" || PersonalityMessage(r) in h
  {
    if h == [] then ""
    else if h[|h| - 1].PersonalityMessage? then h[|h| - 1].personality
    else LastPersonality(h[..|h| - 1])
  }

  /** A message other than a skill message, inserted anywhere, does not change the last inserted skills. */
  lemma {:induction false} LastInsertedSkillsInsert(a: seq<Message>, m: Message, b: seq<Message>)
    requires !m.SkillMessage?
    ensures LastInsertedSkills(a + [m] + b) == LastInsertedSkills(a + b)
  {
    if b == [] {
      assert a + [m] + b == a + [m];
      assert (a + [m])[..|a|] == a;
      assert a + b == a;
    } else {
      var p := b[..|b| - 1];
      assert (a + [m] + b)[..|a + [m] + b| - 1] == a + [m] + p;
      assert (a + b)[..|a + b| - 1] == a + p;
      assert (a + [m] + b)[|a + [m] + b| - 1] == (a + b)[|a + b| - 1];
      LastInsertedSkillsInsert(a, m, p);
    }
  }

  /** A message other than a personality message, inserted anywhere, does not change the last personality. */
  lemma {:induction false} LastPersonalityInsert(a: seq<Message>, m: Message, b: seq<Message>)
    requires !m.PersonalityMessage?
    ensures LastPersonality(a + [m] + b) == LastPersonality(a + b)
  {
    if b == [] {
      assert a + [m] + b == a + [m];
      assert (a + [m])[..|a|] == a;
      assert a + b == a;
    } else {
      var p := b[..|b| - 1];
      assert (a + [m] + b)[..|a + [m] + b| - 1] == a + [m] + p;
      assert (a + b)[..|a + b| - 1] == a + p;
      assert (a + [m] + b)[|a + [m] + b| - 1] == (a + b)[|a + b| - 1];
      LastPersonalityInsert(a, m, p);
    }
  }
}
