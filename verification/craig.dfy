/**
 * The older agent of craig.go.  Its turn differs from the agent of agent.go
 * in three ways: it first announces the tool set when the tool names have
 * changed since the last announcement; it appends the selected fragments
 * only when the selection is non-empty; and its encoder fails on a history
 * holding a message kind it does not know.  Fragments are skills that are
 * inserted fresh each turn and never carried over.
 */
module CraigAgent {
  import opened Wrappers
  import opened Messages
  import opened Skills
  import opened Tools
  import opened Dispatch
  import opened Backend
  import opened ReAct
  import opened Agents
  import opened Construction

  /** The history after the announcement check: the current tool set is announced when it changed. */
  function Announced(h: seq<Message>, tools: seq<Tool>): seq<Message>
  {
    if ToolsChanged(h, tools) then h + [ToolsMessage(ToolDefs(tools))] else h
  }

  /**
   * The part of a turn after the user message: with fragments, a
   * context-collection switch and, when the selection is non-empty, the
   * selected fragments; then reasoning and answering.
   */
  function CraigReact(mb: ModelBuilder, encode: Encoder, tools: seq<Tool>, select: Selection,
                      fragments: seq<Skill>, h1: seq<Message>, fuel: nat): Turn
  {
    if |fragments| > 0 then
      var h2 := h1 + [ModeSwitchMessage(ModeCollectContext)];
      match select(h2)
      case Failure(e) => Turn(Failure(e), h2)
      case Success(selected) =>
        var h3 := if |selected| > 0 then h2 + [SkillMessage(Inserted(selected))] else h2;
        ReasonAndAnswer(encode, mb, tools, h3, fuel)
    else ReasonAndAnswer(encode, mb, tools, h1, fuel)
  }

  /** What `Send` of craig.go does to a history `h`: the answer or error, and the new history. */
  function CraigTurn(mb: ModelBuilder, encode: Encoder, tools: seq<Tool>, select: Selection,
                     fragments: seq<Skill>, h: seq<Message>, notifications: seq<Notification>, msg: string,
                     fuel: nat): Turn
  {
    CraigReact(mb, encode, tools, select, fragments, Announced(h, tools) + Opening(notifications, msg), fuel)
  }

  /** Reasoning and answering after messages that announce no tools keeps the history before them and announces none. */
  lemma ReasonAndAnswerAfter(encode: Encoder, mb: ModelBuilder, tools: seq<Tool>, h1: seq<Message>, added: seq<Message>, fuel: nat)
    requires AnnouncesNoTools(added)
    ensures var t := ReasonAndAnswer(encode, mb, tools, h1 + added, fuel);
            |h1| < |t.history| && t.history[..|h1|] == h1 && AnnouncesNoTools(t.history[|h1|..])
  {
    var h3 := h1 + added;
    var t := ReasonAndAnswer(encode, mb, tools, h3, fuel);
    ReasonAndAnswerAnnouncesNoTools(encode, mb, tools, h3, fuel);
    AnnouncesNoToolsConcat(added, t.history[|h3|..]);
    assert t.history[|h1|..] == added + t.history[|h3|..];
    assert t.history[..|h1|] == h3[..|h1|];
  }

  /** After the user message a turn keeps the history and never announces tools. */
  lemma CraigReactAnnouncesNoTools(mb: ModelBuilder, encode: Encoder, tools: seq<Tool>, select: Selection,
                                   fragments: seq<Skill>, h1: seq<Message>, fuel: nat)
    ensures var t := CraigReact(mb, encode, tools, select, fragments, h1, fuel);
            |h1| < |t.history| && t.history[..|h1|] == h1 && AnnouncesNoTools(t.history[|h1|..])
  {
    var h2 := h1 + [ModeSwitchMessage(ModeCollectContext)];
    var r := select(h2);
    if |fragments| == 0 {
      ReasonAndAnswerAfter(encode, mb, tools, h1, [], fuel);
      assert h1 + [] == h1;
    } else if r.Failure? {
      assert h2[|h1|..] == [ModeSwitchMessage(ModeCollectContext)];
    } else if |r.value| > 0 {
      var added := [ModeSwitchMessage(ModeCollectContext), SkillMessage(Inserted(r.value))];
      ReasonAndAnswerAfter(encode, mb, tools, h1, added, fuel);
      assert h2 + [SkillMessage(Inserted(r.value))] == h1 + added;
    } else {
      ReasonAndAnswerAfter(encode, mb, tools, h1, [ModeSwitchMessage(ModeCollectContext)], fuel);
    }
  }

  /**
   * The tool set is announced first exactly when its names changed, and the
   * announcement lists every current tool with its description.
   */
  lemma CraigTurnAnnouncesChangedTools(mb: ModelBuilder, encode: Encoder, tools: seq<Tool>, select: Selection,
                                      fragments: seq<Skill>, h: seq<Message>, notifications: seq<Notification>,
                                      msg: string, fuel: nat)
    ensures var t := CraigTurn(mb, encode, tools, select, fragments, h, notifications, msg, fuel);
            |t.history| > |h| && t.history[..|h|] == h
            && (t.history[|h|].ToolsMessage? <==> ToolsChanged(h, tools))
            && (ToolsChanged(h, tools) ==> t.history[|h|] == ToolsMessage(ToolDefs(tools)))
  {
    var h1 := Announced(h, tools) + Opening(notifications, msg);
    var t := CraigTurn(mb, encode, tools, select, fragments, h, notifications, msg, fuel);
    CraigReactAnnouncesNoTools(mb, encode, tools, select, fragments, h1, fuel);
    assert t.history[|h|] == h1[|h|];
    assert t.history[..|h|] == h1[..|h|];
  }

  /**
   * The context-collection switch is appended exactly when there are
   * fragments, and the fragment message only when the selection is
   * non-empty; it holds the selection, each fragment at its own residency.
   */
  lemma CraigTurnFragments(mb: ModelBuilder, encode: Encoder, tools: seq<Tool>, select: Selection,
                           fragments: seq<Skill>, h: seq<Message>, notifications: seq<Notification>,
                           msg: string, fuel: nat)
    ensures var h1 := Announced(h, tools) + Opening(notifications, msg);
            var t := CraigTurn(mb, encode, tools, select, fragments, h, notifications, msg, fuel);
            |t.history| > |h1| && t.history[..|h1|] == h1
            && t.history[|h1|] == (if |fragments| > 0 then ModeSwitchMessage(ModeCollectContext) else ModeSwitchMessage(ModeReasonAct))
    ensures var h2 := Announced(h, tools) + Opening(notifications, msg) + [ModeSwitchMessage(ModeCollectContext)];
            var t := CraigTurn(mb, encode, tools, select, fragments, h, notifications, msg, fuel);
            var r := select(h2);
            |fragments| > 0 && r.Success? ==>
              |t.history| > |h2|
              && t.history[|h2|] == (if |r.value| > 0 then SkillMessage(Inserted(r.value)) else ModeSwitchMessage(ModeReasonAct))
  {
    var h1 := Announced(h, tools) + Opening(notifications, msg);
    var t := CraigTurn(mb, encode, tools, select, fragments, h, notifications, msg, fuel);
    if |fragments| > 0 {
      var h2 := h1 + [ModeSwitchMessage(ModeCollectContext)];
      var r := select(h2);
      if r.Success? {
        var h3 := if |r.value| > 0 then h2 + [SkillMessage(Inserted(r.value))] else h2;
        ReasonAndAnswerShape(encode, mb, tools, h3, fuel);
        assert t.history[..|h3| + 1] == h3 + [ModeSwitchMessage(ModeReasonAct)];
        assert t.history[|h1|] == (h3 + [ModeSwitchMessage(ModeReasonAct)])[|h1|];
        assert t.history[|h2|] == (h3 + [ModeSwitchMessage(ModeReasonAct)])[|h2|];
        assert t.history[..|h1|] == (h3 + [ModeSwitchMessage(ModeReasonAct)])[..|h1|];
      }
    } else {
      ReasonAndAnswerShape(encode, mb, tools, h1, fuel);
      assert t.history[..|h1| + 1] == h1 + [ModeSwitchMessage(ModeReasonAct)];
    }
  }

  lemma OpeningAnnouncesNoTools(notifications: seq<Notification>, msg: string)
    ensures AnnouncesNoTools(Opening(notifications, msg))
  {
    var opening := Opening(notifications, msg);
    forall m | m in opening ensures !m.ToolsMessage? {
      var i :| 0 <= i < |opening| && opening[i] == m;
    }
  }

  /**
   * After a turn the current tools never count as changed: the next turn
   * does not announce them again.
   */
  lemma CraigTurnLeavesToolsAnnounced(mb: ModelBuilder, encode: Encoder, tools: seq<Tool>, select: Selection,
                                      fragments: seq<Skill>, h: seq<Message>, notifications: seq<Notification>,
                                      msg: string, fuel: nat)
    ensures !ToolsChanged(CraigTurn(mb, encode, tools, select, fragments, h, notifications, msg, fuel).history, tools)
  {
    var a := Announced(h, tools);
    if ToolsChanged(h, tools) {
      AnnouncedToolsUnchanged(h, tools, ToolDefs(tools));
    }
    var opening := Opening(notifications, msg);
    OpeningAnnouncesNoTools(notifications, msg);
    var h1 := a + opening;
    var t := CraigReact(mb, encode, tools, select, fragments, h1, fuel);
    CraigReactAnnouncesNoTools(mb, encode, tools, select, fragments, h1, fuel);
    var rest := t.history[|h1|..];
    AnnouncesNoToolsConcat(opening, rest);
    ConcatSplit(t.history, |h1|);
    ConcatAssoc(a, opening, rest);
    LastToolDefsSkips(a, opening + rest);
  }

  /** An agent of craig.go: its history, and what it was built with. */
  class Craig {
    var messages: seq<Message>
    const modelBuilder: ModelBuilder
    /** The encoder of craig.go's pipelines (`getEncoder`), fixed at construction. */
    const encoder: Encoder
    const tools: seq<Tool>
    const fragmentSelector: SkillSelector
    const allFragments: seq<Skill>

    constructor (messages: seq<Message>, modelBuilder: ModelBuilder, library: TextLibrary, tools: seq<Tool>,
                 fragmentSelector: SkillSelector, allFragments: seq<Skill>)
      ensures this.messages == messages && this.modelBuilder == modelBuilder
      ensures this.encoder == CraigEncoder(library)
      ensures this.tools == tools && this.fragmentSelector == fragmentSelector && this.allFragments == allFragments
    {
      this.messages := messages;
      this.modelBuilder := modelBuilder;
      this.encoder := CraigEncoder(library);
      this.tools := tools;
      this.fragmentSelector := fragmentSelector;
      this.allFragments := allFragments;
    }

    /** `addMessages`: append to the history (streamers are not modelled). */
    method AddMessages(msgs: seq<Message>)
      modifies this
      ensures messages == old(messages) + msgs
    {
      messages := messages + msgs;
    }

    /** `getToolCalls`: encode the history and ask the reasoner for tool calls; encoding may fail. */
    method GetToolCalls() returns (r: Result<Message, string>)
      ensures match encoder(messages)
              case Failure(e) => r == Failure(e)
              case Success(prompt) =>
                match modelBuilder.reasoner(prompt)
                case Failure(e) => r == Failure(e)
                case Success(resp) => r == Success(MessageOfResponse(resp))
    {
      var prompt := encoder(messages);
      if prompt.Failure? {
        return Failure(prompt.error);
      }
      var result := modelBuilder.reasoner(prompt.value);
      if result.Failure? {
        return Failure(result.error);
      }
      var calls := ToolCallsMessageFromResponse(result.value);
      return Success(calls);
    }

    /** `getFinalResponse`: encode the history and ask for the final answer. */
    method GetFinalResponse() returns (r: Result<string, string>)
      ensures match encoder(messages)
              case Failure(e) => r == Failure(e)
              case Success(prompt) => r == modelBuilder.answerer(prompt)
    {
      var prompt := encoder(messages);
      if prompt.Failure? {
        return Failure(prompt.error);
      }
      r := modelBuilder.answerer(prompt.value);
    }

    /** One round of the ReAct loop of craig.go. */
    method ReactRound() returns (r: Result<bool, string>)
      modifies this
      ensures RoundTaken(encoder, modelBuilder.reasoner, tools, old(messages), r, messages)
    {
      var toolCalls := GetToolCalls();
      if toolCalls.Failure? {
        return Failure(toolCalls.error);
      }
      AddMessages([toolCalls.value]);
      if |toolCalls.value.toolCalls| == 0 {
        return Success(true);
      }
      var toolResults := ExecuteToolCalls(tools, toolCalls.value.toolCalls);
      assert toolResults == ResponsesFor(tools, toolCalls.value.toolCalls);
      AddMessages([ToolResponseMessage(toolResults)]);
      return Success(false);
    }

    /** The ReAct loop of `Send`, on the current history. */
    method RunReactLoop(fuel: nat) returns (r: Result<(), string>)
      modifies this
      ensures var o := ReactLoop(encoder, modelBuilder.reasoner, tools, old(messages), fuel);
              r == o.result && messages == old(messages) + o.appended
    {
      ghost var enc := encoder;
      ghost var start := messages;
      ghost var done: seq<Message> := [];
      var f := fuel;
      LoopViewStart(enc, modelBuilder.reasoner, tools, start, fuel);
      while true
        invariant messages == start + done
        invariant LoopView(enc, modelBuilder.reasoner, tools, start, fuel, done, messages, f)
        decreases f
      {
        if f == 0 {
          ReactLoopOutOfFuel(enc, modelBuilder.reasoner, tools, start, fuel, done, messages);
          return Failure(FuelExhausted);
        }
        ghost var before := messages;
        var finished := ReactRound();
        ReactLoopStep(enc, modelBuilder.reasoner, tools, start, fuel, done, before, f, finished, messages);
        if finished.Failure? {
          return Failure(finished.error);
        }
        assert messages == (start + done) + messages[|before|..];
        done := done + messages[|before|..];
        if finished.value {
          break;
        }
        f := f - 1;
      }
      return Success(());
    }

    /**
     * `Send`: announce the tools if they changed, then run one turn for the
     * user message `msg` with the queued notifications; the loop runs at most
     * `fuel` rounds that ask for tools.
     */
    method Send(msg: string, notifications: seq<Notification>, fuel: nat) returns (r: Result<string, string>)
      modifies this
      ensures var t := CraigTurn(modelBuilder, encoder, tools, Selecting(fragmentSelector, allFragments), allFragments, old(messages),
                                 notifications, msg, fuel);
              r == t.result && messages == t.history
    {
      AnnounceTools();
      AddOpening(notifications, msg);
      r := CollectAndAnswer(fuel);
    }

    /** The first step of `Send`: announce the current tools when they changed. */
    method AnnounceTools()
      modifies this
      ensures messages == Announced(old(messages), tools)
    {
      var changed := ToolsHaveChanged(messages, tools);
      if changed {
        var defs := GetToolDefs(tools);
        AddMessages([ToolsMessage(defs)]);
      }
    }

    /** The next step of `Send`: append the queued notifications in order, then the user message. */
    method AddOpening(notifications: seq<Notification>, msg: string)
      modifies this
      ensures messages == old(messages) + Opening(notifications, msg)
    {
      ghost var h0 := messages;
      for i := 0 to |notifications|
        invariant messages == h0 + Opening(notifications[..i], msg)[..i]
      {
        assert Opening(notifications[..i + 1], msg)[..i + 1]
            == Opening(notifications[..i], msg)[..i] + [NotificationMessage(notifications[i].kind, notifications[i].content)];
        AddMessages([NotificationMessage(notifications[i].kind, notifications[i].content)]);
      }
      assert notifications[..|notifications|] == notifications;
      AddMessages([UserMessage(msg)]);
    }

    /** The part of `Send` after the user message. */
    method CollectAndAnswer(fuel: nat) returns (r: Result<string, string>)
      modifies this
      ensures var t := CraigReact(modelBuilder, encoder, tools, Selecting(fragmentSelector, allFragments), allFragments, old(messages), fuel);
              r == t.result && messages == t.history
    {
      if |allFragments| > 0 {
        AddMessages([ModeSwitchMessage(ModeCollectContext)]);
        var fragments := SelectSkills(fragmentSelector, allFragments, messages);
        if fragments.Failure? {
          return Failure(fragments.error);
        }
        if |fragments.value| > 0 {
          AddMessages([SkillMessage(Inserted(fragments.value))]);
        }
      }
      AddMessages([ModeSwitchMessage(ModeReasonAct)]);
      var loop := RunReactLoop(fuel);
      if loop.Failure? {
        return Failure(loop.error);
      }
      AddMessages([ModeSwitchMessage(ModeAnswerUser)]);
      var finalResp := GetFinalResponse();
      if finalResp.Failure? {
        return Failure(finalResp.error);
      }
      AddMessages([AgentMessage(finalResp.value)]);
      return Success(finalResp.value);
    }
  }

  /** The fragment selector of craig.go: model-backed, not repeating fragments shown in the last 10 messages. */
  function CraigSelector(mb: ModelBuilder): (s: SkillSelector)
    ensures s == DontRepeatInNSelector(10, ConversationLlmSkillSelector(mb.selectorModel))
  {
    NewSkillSelector(Some(mb.selectorModel), 10)
  }

  /** `newCraigHelper`: all the fragments are offered to the selector; nothing is inserted up front. */
  method NewCraigHelper(mb: ModelBuilder, lib: TextLibrary, messages: seq<Message>, kw: Kwargs) returns (ag: Craig)
    ensures fresh(ag)
    ensures ag.messages == messages && ag.modelBuilder == mb && ag.encoder == CraigEncoder(lib)
    ensures ag.tools == kw.tools && ag.allFragments == kw.skills && ag.fragmentSelector == CraigSelector(mb)
  {
    ag := new Craig(messages, mb, lib, kw.tools, NewSkillSelector(Some(mb.selectorModel), 10), kw.skills);
  }

  /**
   * `NewCraig`: a fresh agent whose history is the system prompt rendered
   * with the personality (`render` stands for the template).
   */
  method NewCraig(mb: ModelBuilder, lib: TextLibrary, render: string -> string, opts: seq<Opt>) returns (ag: Craig)
    ensures fresh(ag)
    ensures ag.messages == [SystemMessage(render(ApplyAll(Kwargs([], [], DefaultPersonality), opts).personality))]
    ensures ag.tools == ApplyAll(Kwargs([], [], DefaultPersonality), opts).tools
    ensures ag.allFragments == ApplyAll(Kwargs([], [], DefaultPersonality), opts).skills
    ensures ag.modelBuilder == mb && ag.encoder == CraigEncoder(lib) && ag.fragmentSelector == CraigSelector(mb)
  {
    var kw := GetKwargs(opts);
    ag := NewCraigHelper(mb, lib, [SystemMessage(render(kw.personality))], kw);
  }

  /** `NewCraigFromSaved`: the restored history, unchanged. */
  method NewCraigFromSaved(mb: ModelBuilder, lib: TextLibrary, saved: seq<Message>, opts: seq<Opt>) returns (ag: Craig)
    ensures fresh(ag)
    ensures ag.messages == saved
    ensures ag.tools == ApplyAll(Kwargs([], [], DefaultPersonality), opts).tools
    ensures ag.allFragments == ApplyAll(Kwargs([], [], DefaultPersonality), opts).skills
    ensures ag.modelBuilder == mb && ag.encoder == CraigEncoder(lib) && ag.fragmentSelector == CraigSelector(mb)
  {
    var kw := GetKwargs(opts);
    ag := NewCraigHelper(mb, lib, saved, kw);
  }
}
