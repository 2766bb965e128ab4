/**
 * The agent of agent.go: a history that only grows, and `Send`, which runs
 * one turn.  A turn appends the queued notifications and the user message,
 * then (when there are dynamic skills) a context-collection switch and the
 * skills for this turn, then the ReAct rounds and the final answer.
 *
 * Skills stay resident by decay: the skills of the last skill message whose
 * counter is positive are carried into the next one with the counter one
 * lower, and newly selected skills start at their own `remainFor`.
 */
module Agents {
  import opened Wrappers
  import opened Messages
  import opened Skills
  import opened Tools
  import opened Dispatch
  import opened Backend
  import opened ReAct

  // ---------------------------------------------------------------------------
  // Skill residency

  /** The carried skills: those still resident, one turn older, in order. */
  function Carried(prev: seq<InsertedSkill>): seq<InsertedSkill>
  {
    if prev == [] then []
    else Carried(prev[..|prev| - 1])
         + (if prev[|prev| - 1].nowRemainFor > 0
            then [InsertedSkill(prev[|prev| - 1].skill, prev[|prev| - 1].nowRemainFor - 1)]
            else [])
  }

  /** Newly selected skills, each with its own residency. */
  function Inserted(selected: seq<Skill>): seq<InsertedSkill>
  {
    seq(|selected|, i requires 0 <= i < |selected| => InsertedSkill(selected[i], selected[i].remainFor))
  }

  /** A skill is carried iff it was resident with a positive counter, and it is carried one lower. */
  lemma {:induction false} CarriedSpec(prev: seq<InsertedSkill>)
    ensures |Carried(prev)| <= |prev|
    ensures forall x :: x in Carried(prev) <==>
              exists f :: f in prev && f.nowRemainFor > 0 && x == InsertedSkill(f.skill, f.nowRemainFor - 1)
  {
    if prev != [] {
      var prefix, last := prev[..|prev| - 1], prev[|prev| - 1];
      CarriedSpec(prefix);
      assert forall f :: f in prev <==> f in prefix || f == last;
    }
  }

  /** Carrying `a + b` carries `a`'s skills, then `b`'s: the order is kept. */
  lemma {:induction false} CarriedAppend(a: seq<InsertedSkill>, b: seq<InsertedSkill>)
    ensures Carried(a + b) == Carried(a) + Carried(b)
  {
    if b == [] {
      assert a + b == a;
    } else {
      assert (a + b)[..|a + b| - 1] == a + b[..|b| - 1];
      CarriedAppend(a, b[..|b| - 1]);
    }
  }

  /** The skills resident after `turns` decays. */
  function DecayTimes(prev: seq<InsertedSkill>, turns: nat): seq<InsertedSkill>
  {
    if turns == 0 then prev else Carried(DecayTimes(prev, turns - 1))
  }

  /**
   * A skill inserted with counter `n` stays resident for exactly `n` further
   * turns, with its counter falling by one each turn, and is then dropped.
   */
  lemma {:induction false} Residency(s: Skill, n: nat, turns: nat)
    ensures DecayTimes([InsertedSkill(s, n)], turns)
         == if turns <= n then [InsertedSkill(s, n - turns)] else []
  {
    if turns > 0 {
      Residency(s, n, turns - 1);
      var before := DecayTimes([InsertedSkill(s, n)], turns - 1);
      if turns - 1 <= n {
        assert before[..0] == [];
        if turns <= n {
          assert Carried(before) == [] + [InsertedSkill(s, n - turns)];
        } else {
          assert Carried(before) == [] + [];
        }
      }
    }
  }

  /** What `getNextSelectedSkills` answers: carried skills first, then the new selection. */
  function NextSkills(select: Selection, h: seq<Message>): Result<seq<InsertedSkill>, string>
  {
    match select(h)
    case Failure(e) => Failure(e)
    case Success(selected) => Success(Carried(LastInsertedSkills(h)) + Inserted(selected))
  }

  /**
   * The next skill message repeats every still-resident skill of the last one
   * (one turn older), then holds the new selection, drawn from the dynamic
   * skills, each at its own residency.
   */
  lemma NextSkillsSpec(selector: SkillSelector, dynamic: seq<Skill>, h: seq<Message>)
    ensures var r := NextSkills(Selecting(selector, dynamic), h);
            r.Success? ==>
              var carried := Carried(LastInsertedSkills(h));
              |r.value| >= |carried| && r.value[..|carried|] == carried
              && forall i :: |carried| <= i < |r.value| ==>
                   r.value[i].skill in dynamic && r.value[i].nowRemainFor == r.value[i].skill.remainFor
    ensures NextSkills(Selecting(selector, dynamic), h).Failure? <==> Select(selector, dynamic, h).Failure?
  {
    var r := NextSkills(Selecting(selector, dynamic), h);
    if r.Success? {
      SelectedFromCatalog(selector, dynamic, h);
      var carried := Carried(LastInsertedSkills(h));
      var selected := Select(selector, dynamic, h).value;
      forall i | |carried| <= i < |r.value|
        ensures r.value[i].skill in dynamic && r.value[i].nowRemainFor == r.value[i].skill.remainFor
      {
        assert r.value[i] == Inserted(selected)[i - |carried|];
        assert selected[i - |carried|] in selected;
      }
    }
  }

  // ---------------------------------------------------------------------------
  // The agent

  /** The messages of the queued notifications, then the user message. */
  function Opening(notifications: seq<Notification>, msg: string): seq<Message>
  {
    seq(|notifications|, i requires 0 <= i < |notifications| =>
          NotificationMessage(notifications[i].kind, notifications[i].content))
    + [UserMessage(msg)]
  }

  /** What `Send` does to a history `h`: the answer or error, and the new history. */
  function AgentTurn(mb: ModelBuilder, encode: Encoder, tools: seq<Tool>, select: Selection,
                     dynamic: seq<Skill>, h: seq<Message>, notifications: seq<Notification>, msg: string,
                     fuel: nat): Turn
  {
    var h1 := h + Opening(notifications, msg);
    if |dynamic| > 0 then
      var h2 := h1 + [ModeSwitchMessage(ModeCollectContext)];
      match NextSkills(select, h2)
      case Failure(e) => Turn(Failure(e), h2)
      case Success(next) => ReasonAndAnswer(encode, mb, tools, h2 + [SkillMessage(next)], fuel)
    else ReasonAndAnswer(encode, mb, tools, h1, fuel)
  }

  /**
   * A turn keeps the old history and appends the notifications in order and
   * the user message first.  With dynamic skills a context-collection switch
   * follows, and (unless selection fails) a skill message, even an empty one;
   * without them the reason-action switch follows directly.
   */
  lemma AgentTurnOpening(mb: ModelBuilder, encode: Encoder, tools: seq<Tool>, select: Selection,
                         dynamic: seq<Skill>, h: seq<Message>, notifications: seq<Notification>, msg: string,
                         fuel: nat)
    ensures var t := AgentTurn(mb, encode, tools, select, dynamic, h, notifications, msg, fuel);
            Extends(t.history, h + Opening(notifications, msg)
                               + [if |dynamic| > 0 then ModeSwitchMessage(ModeCollectContext) else ModeSwitchMessage(ModeReasonAct)])
    ensures var t := AgentTurn(mb, encode, tools, select, dynamic, h, notifications, msg, fuel);
            var h2 := h + Opening(notifications, msg) + [ModeSwitchMessage(ModeCollectContext)];
            |dynamic| > 0 && NextSkills(select, h2).Success?
            ==> Extends(t.history, h2 + [SkillMessage(NextSkills(select, h2).value)])
  {
    var h1 := h + Opening(notifications, msg);
    var t := AgentTurn(mb, encode, tools, select, dynamic, h, notifications, msg, fuel);
    if |dynamic| > 0 {
      var h2 := h1 + [ModeSwitchMessage(ModeCollectContext)];
      var r := NextSkills(select, h2);
      if r.Success? {
        var h3 := h2 + [SkillMessage(r.value)];
        ReasonAndAnswerShape(encode, mb, tools, h3, fuel);
        assert Extends(h3, h2);
        ExtendsTrans(t.history, h3 + [ModeSwitchMessage(ModeReasonAct)], h3);
        ExtendsTrans(t.history, h3, h2);
      } else {
        assert t.history == h2;
      }
    } else {
      ReasonAndAnswerShape(encode, mb, tools, h1, fuel);
    }
  }

  /**
   * On success the turn ends with the final-answer switch and the answer it
   * returns, after ReAct rounds of which only the last asks for no tool; on
   * failure the messages appended so far stay in history.
   */
  lemma AgentTurnEnding(mb: ModelBuilder, encode: Encoder, tools: seq<Tool>, select: Selection,
                        dynamic: seq<Skill>, h: seq<Message>, notifications: seq<Notification>, msg: string,
                        fuel: nat)
    ensures var t := AgentTurn(mb, encode, tools, select, dynamic, h, notifications, msg, fuel);
            |t.history| > |h| && t.history[..|h|] == h
    ensures var t := AgentTurn(mb, encode, tools, select, dynamic, h, notifications, msg, fuel);
            t.result.Success? ==>
              |t.history| >= |h| + 4
              && t.history[|t.history| - 2..] == [ModeSwitchMessage(ModeAnswerUser), AgentMessage(t.result.value)]
  {
    var h1 := h + Opening(notifications, msg);
    var t := AgentTurn(mb, encode, tools, select, dynamic, h, notifications, msg, fuel);
    if |dynamic| > 0 {
      var h2 := h1 + [ModeSwitchMessage(ModeCollectContext)];
      var r := NextSkills(select, h2);
      if r.Success? {
        var h3 := h2 + [SkillMessage(r.value)];
        ReasonAndAnswerShape(encode, mb, tools, h3, fuel);
        assert t.history[..|h|] == t.history[..|h3| + 1][..|h|];
      } else {
        assert t.history[..|h|] == h;
      }
    } else {
      ReasonAndAnswerShape(encode, mb, tools, h1, fuel);
      assert t.history[..|h|] == t.history[..|h1| + 1][..|h|];
    }
  }

  /** An agent: its history, and what it was built with. */
  class Agent {
    var messages: seq<Message>
    const modelBuilder: ModelBuilder
    /** The encoder of the agent's pipelines (`getAgentEncoder`), fixed at construction. */
    const encoder: Encoder
    const tools: seq<Tool>
    const skillSelector: SkillSelector
    const dynamicFragments: seq<Skill>

    constructor (messages: seq<Message>, modelBuilder: ModelBuilder, library: TextLibrary, tools: seq<Tool>,
                 skillSelector: SkillSelector, dynamicFragments: seq<Skill>)
      ensures this.messages == messages && this.modelBuilder == modelBuilder
      ensures this.encoder == LatestEncoder(library)
      ensures this.tools == tools && this.skillSelector == skillSelector && this.dynamicFragments == dynamicFragments
    {
      this.messages := messages;
      this.modelBuilder := modelBuilder;
      this.encoder := LatestEncoder(library);
      this.tools := tools;
      this.skillSelector := skillSelector;
      this.dynamicFragments := dynamicFragments;
    }

    /** `addMessages`: append to the history (listeners are not modelled). */
    method AddMessages(msgs: seq<Message>)
      modifies this
      ensures messages == old(messages) + msgs
    {
      messages := messages + msgs;
    }

    /** `getNextSelectedSkills`: decay the last skills, then select new ones. */
    method GetNextSelectedSkills() returns (r: Result<seq<InsertedSkill>, string>)
      ensures r == NextSkills(Selecting(skillSelector, dynamicFragments), messages)
    {
      var prevSkills := LastInsertedSkills(messages);
      var skillsToPersist: seq<InsertedSkill> := [];
      for i := 0 to |prevSkills|
        invariant skillsToPersist == Carried(prevSkills[..i])
      {
        assert prevSkills[..i + 1][..i] == prevSkills[..i];
        var f := prevSkills[i];
        if f.nowRemainFor > 0 {
          skillsToPersist := skillsToPersist + [InsertedSkill(f.skill, f.nowRemainFor - 1)];
        }
      }
      assert prevSkills[..|prevSkills|] == prevSkills;
      var newSkills := SelectSkills(skillSelector, dynamicFragments, messages);
      if newSkills.Failure? {
        return Failure(newSkills.error);
      }
      var skillsToInsert: seq<InsertedSkill> := [];
      for i := 0 to |newSkills.value|
        invariant |skillsToInsert| == i
        invariant forall j :: 0 <= j < i ==> skillsToInsert[j] == InsertedSkill(newSkills.value[j], newSkills.value[j].remainFor)
      {
        skillsToInsert := skillsToInsert + [InsertedSkill(newSkills.value[i], newSkills.value[i].remainFor)];
      }
      assert skillsToInsert == Inserted(newSkills.value);
      return Success(skillsToPersist + skillsToInsert);
    }

    /** `answerReAct`: encode the history and ask the reasoner for tool calls. */
    method AnswerReAct() returns (r: Result<Message, string>)
      ensures match encoder(messages)
              case Failure(e) => r == Failure(e)
              case Success(prompt) =>
                match modelBuilder.reasoner(prompt)
                case Failure(e) => r == Failure(e)
                case Success(resp) => r == Success(MessageOfResponse(resp))
    {
      var prompt := encoder(messages);
      if prompt.Failure? {
        return Failure(prompt.error);
      }
      var result := modelBuilder.reasoner(prompt.value);
      if result.Failure? {
        return Failure(result.error);
      }
      var calls := ToolCallsMessageFromResponse(result.value);
      return Success(calls);
    }

    /** One round of the ReAct loop: ask for tool calls, and answer them when there are any. */
    method ReactRound() returns (r: Result<bool, string>)
      modifies this
      ensures RoundTaken(encoder, modelBuilder.reasoner, tools, old(messages), r, messages)
    {
      var toolCalls := AnswerReAct();
      if toolCalls.Failure? {
        return Failure(toolCalls.error);
      }
      AddMessages([toolCalls.value]);
      if |toolCalls.value.toolCalls| == 0 {
        return Success(true);
      }
      var toolResults := ExecuteToolCalls(tools, toolCalls.value.toolCalls);
      assert toolResults == ResponsesFor(tools, toolCalls.value.toolCalls);
      AddMessages([ToolResponseMessage(toolResults)]);
      return Success(false);
    }

    /** The ReAct loop of `Send`, on the current history. */
    method RunReactLoop(fuel: nat) returns (r: Result<(), string>)
      modifies this
      ensures var o := ReactLoop(encoder, modelBuilder.reasoner, tools, old(messages), fuel);
              r == o.result && messages == old(messages) + o.appended
    {
      ghost var enc := encoder;
      ghost var start := messages;
      ghost var done: seq<Message> := [];
      var f := fuel;
      LoopViewStart(enc, modelBuilder.reasoner, tools, start, fuel);
      while true
        invariant messages == start + done
        invariant LoopView(enc, modelBuilder.reasoner, tools, start, fuel, done, messages, f)
        decreases f
      {
        if f == 0 {
          ReactLoopOutOfFuel(enc, modelBuilder.reasoner, tools, start, fuel, done, messages);
          return Failure(FuelExhausted);
        }
        ghost var before := messages;
        var finished := ReactRound();
        ReactLoopStep(enc, modelBuilder.reasoner, tools, start, fuel, done, before, f, finished, messages);
        if finished.Failure? {
          return Failure(finished.error);
        }
        assert messages == (start + done) + messages[|before|..];
        done := done + messages[|before|..];
        if finished.value {
          break;
        }
        f := f - 1;
      }
      return Success(());
    }

    /** `answerFinalResponse`: encode the history and ask for the final answer. */
    method AnswerFinalResponse() returns (r: Result<string, string>)
      ensures match encoder(messages)
              case Failure(e) => r == Failure(e)
              case Success(prompt) => r == modelBuilder.answerer(prompt)
    {
      var prompt := encoder(messages);
      if prompt.Failure? {
        return Failure(prompt.error);
      }
      r := modelBuilder.answerer(prompt.value);
    }

    /**
     * `Send`: run one turn for the user message `msg`, with the queued
     * notifications; the loop runs at most `fuel` rounds that ask for tools.
     */
    method Send(msg: string, notifications: seq<Notification>, fuel: nat) returns (r: Result<string, string>)
      modifies this
      ensures var t := AgentTurn(modelBuilder, encoder, tools, Selecting(skillSelector, dynamicFragments), dynamicFragments, old(messages),
                                 notifications, msg, fuel);
              r == t.result && messages == t.history
    {
      ghost var h0 := messages;
      for i := 0 to |notifications|
        invariant messages == h0 + Opening(notifications[..i], msg)[..i]
      {
        assert Opening(notifications[..i + 1], msg)[..i + 1]
            == Opening(notifications[..i], msg)[..i] + [NotificationMessage(notifications[i].kind, notifications[i].content)];
        AddMessages([NotificationMessage(notifications[i].kind, notifications[i].content)]);
      }
      assert notifications[..|notifications|] == notifications;
      AddMessages([UserMessage(msg)]);
      assert messages == h0 + Opening(notifications, msg);
      if |dynamicFragments| > 0 {
        AddMessages([ModeSwitchMessage(ModeCollectContext)]);
        var nextSkills := GetNextSelectedSkills();
        if nextSkills.Failure? {
          return Failure(nextSkills.error);
        }
        AddMessages([SkillMessage(nextSkills.value)]);
      }
      ghost var h1 := messages;
      AddMessages([ModeSwitchMessage(ModeReasonAct)]);
      ghost var h2 := messages;
      var loop := RunReactLoop(fuel);
      if loop.Failure? {
        return Failure(loop.error);
      }
      AddMessages([ModeSwitchMessage(ModeAnswerUser)]);
      var finalResp := AnswerFinalResponse();
      if finalResp.Failure? {
        return Failure(finalResp.error);
      }
      AddMessages([AgentMessage(finalResp.value)]);
      return Success(finalResp.value);
    }
  }
}
