/**
 * What one turn of the ReAct loop does to a history, shared by the agent of
 * agent.go and the older agent of craig.go: switch to reason-action mode,
 * ask the reasoner for tool calls until it asks for none (each batch of calls
 * is answered by one tool-response message), then switch to final-answer mode
 * and append the final answer.
 *
 * The models are oracles on the encoded history.  The source loops until the
 * reasoner stops asking for tools; here the number of rounds is bounded by
 * `fuel`, and running out of fuel ends the turn with `FuelExhausted`.
 */
module ReAct {
  import opened Wrappers
  import opened Prompts
  import opened Messages
  import opened Skills
  import opened Tools
  import opened Dispatch
  import opened Backend

  /** The reason-action model: the encoded history in, a parsed reason response or an error out. */
  type Reasoner = seq<PromptMessage> -> Result<ReasonResponse, string>

  /** The final-answer model: the encoded history in, the answer text or an error out. */
  type Answerer = seq<PromptMessage> -> Result<string, string>

  /** The models a `ModelBuilder` builds. */
  datatype ModelBuilder = ModelBuilder(reasoner: Reasoner, answerer: Answerer, selectorModel: SelectorModel)

  /**
   * A history encoder (`BuildInputMessages` of a `jpf.MessageEncoder`): the
   * prompt for a history, or the error that aborts the call.
   */
  type Encoder = seq<Message> -> Result<seq<PromptMessage>, string>

  /** The encoder of the agent of agent.go, which never fails. */
  function LatestEncoder(lib: TextLibrary): Encoder
  {
    h => Success(EncodeHistory(lib, h))
  }

  /** The encoder of craig.go. */
  function CraigEncoder(lib: TextLibrary): Encoder
  {
    h => CraigEncode(lib, h)
  }

  const FuelExhausted := "react loop fuel exhausted"

  /** The outcome of the ReAct loop: success or the error, and the messages it appended. */
  datatype Outcome = Outcome(result: Result<(), string>, appended: seq<Message>)

  /** The outcome of a turn: the answer or the error, and the whole history afterwards. */
  datatype Turn = Turn(result: Result<string, string>, history: seq<Message>)

  /** What one round appends, and whether it was the last: no tool was asked for. */
  datatype Step = Step(appended: seq<Message>, finished: bool)

  /**
   * One round on history `h`: encode it, ask the reasoner, and append its
   * tool calls and, when it asked for tools, the answers to them.
   */
  function Round(encode: Encoder, reasoner: Reasoner, tools: seq<Tool>, h: seq<Message>): Result<Step, string>
  {
    match encode(h)
    case Failure(e) => Failure(e)
    case Success(prompt) =>
      match reasoner(prompt)
      case Failure(e) => Failure(e)
      case Success(resp) =>
        var calls := MessageOfResponse(resp);
        if |calls.toolCalls| == 0 then Success(Step([calls], true))
        else Success(Step([calls, ToolResponseMessage(ResponsesFor(tools, calls.toolCalls))], false))
  }

  /** The ReAct loop, started on history `h`. */
  function ReactLoop(encode: Encoder, reasoner: Reasoner, tools: seq<Tool>, h: seq<Message>, fuel: nat): Outcome
    decreases fuel
  {
    if fuel == 0 then Outcome(Failure(FuelExhausted), [])
    else
      match Round(encode, reasoner, tools, h)
      case Failure(e) => Outcome(Failure(e), [])
      case Success(step) =>
        if step.finished then Outcome(Success(()), step.appended)
        else
          var rest := ReactLoop(encode, reasoner, tools, h + step.appended, fuel - 1);
          Outcome(rest.result, step.appended + rest.appended)
  }

  /**
   * A run of rounds: each is a tool-calls message followed, when it asks for
   * tools, by the tool-response message answering its calls one for one.
   * Only a tool-calls message with no calls ends the run, and `done` says
   * whether the run ended that way.
   */
  predicate Rounds(tools: seq<Tool>, a: seq<Message>, done: bool)
    decreases |a|
  {
    if a == [] then !done
    else
      a[0].ToolCallsMessage?
      && if |a[0].toolCalls| == 0 then done && |a| == 1
         else |a| >= 2 && a[1] == ToolResponseMessage(ResponsesFor(tools, a[0].toolCalls))
              && Rounds(tools, a[2..], done)
  }

  /**
   * The loop appends whole rounds; it succeeds exactly when its last
   * tool-calls message asks for no tool.
   */
  lemma {:induction false} ReactLoopRounds(encode: Encoder, reasoner: Reasoner, tools: seq<Tool>, h: seq<Message>, fuel: nat)
    ensures var o := ReactLoop(encode, reasoner, tools, h, fuel);
            Rounds(tools, o.appended, o.result.Success?)
    decreases fuel
  {
    var o := ReactLoop(encode, reasoner, tools, h, fuel);
    var r := Round(encode, reasoner, tools, h);
    if fuel > 0 && r.Success? && !r.value.finished {
      var step := r.value.appended;
      ReactLoopRounds(encode, reasoner, tools, h + step, fuel - 1);
      assert o.appended[2..] == ReactLoop(encode, reasoner, tools, h + step, fuel - 1).appended;
    }
  }

  /** A successful run ends with the tool-calls message that asks for nothing. */
  lemma {:induction false} RoundsEndWithEmptyCalls(tools: seq<Tool>, a: seq<Message>)
    requires Rounds(tools, a, true)
    ensures |a| > 0 && a[|a| - 1].ToolCallsMessage? && |a[|a| - 1].toolCalls| == 0
    ensures forall i :: 0 <= i < |a| - 1 && a[i].ToolCallsMessage? ==> |a[i].toolCalls| > 0
    decreases |a|
  {
    if |a[0].toolCalls| != 0 {
      RoundsEndWithEmptyCalls(tools, a[2..]);
      forall i | 0 <= i < |a| - 1 && a[i].ToolCallsMessage?
        ensures |a[i].toolCalls| > 0
      {
        if i >= 2 {
          assert a[i] == a[2..][i - 2];
        }
      }
    }
  }

  /** The rounds hold only tool-calls and tool-response messages. */
  lemma {:induction false} RoundsHoldOnlyCallsAndResponses(tools: seq<Tool>, a: seq<Message>, done: bool)
    requires Rounds(tools, a, done)
    ensures forall m :: m in a ==> m.ToolCallsMessage? || m.ToolResponseMessage?
    decreases |a|
  {
    if a != [] && |a[0].toolCalls| != 0 {
      RoundsHoldOnlyCallsAndResponses(tools, a[2..], done);
      assert a == [a[0], a[1]] + a[2..];
    }
  }

  /** With a reasoner that never asks for tools, the loop takes one round. */
  lemma NoToolsOneRound(lib: TextLibrary, reasoner: Reasoner, tools: seq<Tool>, h: seq<Message>, fuel: nat, reasoning: string)
    requires fuel > 0
    requires forall p :: reasoner(p) == Success(ReasonResponse(reasoning, []))
    ensures ReactLoop(LatestEncoder(lib), reasoner, tools, h, fuel) == Outcome(Success(()), [ToolCallsMessage(reasoning, [])])
  {
  }

  /** An outcome with `a` appended in front of what it appended. */
  function Prepended(a: seq<Message>, o: Outcome): Outcome
  {
    Outcome(o.result, a + o.appended)
  }

  // The two lemmas below are sequence facts about `Prepended`, kept as lemmas so the
  // loop proofs call them instead of unfolding sequence equalities in a costly context.

  lemma PrependedNothing(o: Outcome)
    ensures Prepended([], o) == o
  {
    assert [] + o.appended == o.appended;
  }

  lemma PrependedTwice(a: seq<Message>, b: seq<Message>, o: Outcome)
    ensures Prepended(a, Prepended(b, o)) == Prepended(a + b, o)
  {
    assert a + (b + o.appended) == (a + b) + o.appended;
  }

  /**
   * The loop run from `start` with `fuel`, seen after it has appended `done`
   * and reached history `h` with `f > 0` rounds left: a failed round ends the
   * run with that error, a last round ends it successfully, and any other
   * round leaves the same view one round further on.
   */
  lemma ReactLoopAdvance(encode: Encoder, reasoner: Reasoner, tools: seq<Tool>,
                         start: seq<Message>, fuel: nat, done: seq<Message>, h: seq<Message>, f: nat)
    requires f > 0
    requires Prepended(done, ReactLoop(encode, reasoner, tools, h, f)) == ReactLoop(encode, reasoner, tools, start, fuel)
    ensures var r := Round(encode, reasoner, tools, h);
            r.Failure? ==> ReactLoop(encode, reasoner, tools, start, fuel) == Outcome(Failure(r.error), done)
    ensures var r := Round(encode, reasoner, tools, h);
            r.Success? && r.value.finished ==>
              ReactLoop(encode, reasoner, tools, start, fuel) == Outcome(Success(()), done + r.value.appended)
    ensures var r := Round(encode, reasoner, tools, h);
            r.Success? && !r.value.finished ==>
              Prepended(done + r.value.appended, ReactLoop(encode, reasoner, tools, h + r.value.appended, f - 1))
              == ReactLoop(encode, reasoner, tools, start, fuel)
  {
    var r := Round(encode, reasoner, tools, h);
    if r.Failure? {
      assert done + [] == done;
    } else if !r.value.finished {
      PrependedTwice(done, r.value.appended, ReactLoop(encode, reasoner, tools, h + r.value.appended, f - 1));
    }
  }

  /**
   * `r` and `h2` are what one round on `h` leaves: the error with `h`
   * unchanged, or whether the run is finished with the round's messages
   * appended to `h`.
   */
  predicate RoundTaken(encode: Encoder, reasoner: Reasoner, tools: seq<Tool>,
                       h: seq<Message>, r: Result<bool, string>, h2: seq<Message>)
  {
    match Round(encode, reasoner, tools, h)
    case Failure(e) => r == Failure(e) && h2 == h
    case Success(step) => r == Success(step.finished) && h2 == h + step.appended
  }

  /**
   * The view a loop keeps of the run from `start` with `fuel`: after it has
   * appended `done` and reached `h` with `f` rounds left, the rest of the run
   * from `h`, preceded by `done`, is the whole run.
   */
  predicate LoopView(encode: Encoder, reasoner: Reasoner, tools: seq<Tool>, start: seq<Message>, fuel: nat,
                     done: seq<Message>, h: seq<Message>, f: nat)
  {
    Prepended(done, ReactLoop(encode, reasoner, tools, h, f)) == ReactLoop(encode, reasoner, tools, start, fuel)
  }

  lemma LoopViewStart(encode: Encoder, reasoner: Reasoner, tools: seq<Tool>, start: seq<Message>, fuel: nat)
    ensures LoopView(encode, reasoner, tools, start, fuel, [], start, fuel)
  {
    PrependedNothing(ReactLoop(encode, reasoner, tools, start, fuel));
  }

  /** `ReactLoopAdvance`, stated for the round actually taken from `h` to `h2`. */
  lemma ReactLoopStep(encode: Encoder, reasoner: Reasoner, tools: seq<Tool>, start: seq<Message>, fuel: nat,
                      done: seq<Message>, h: seq<Message>, f: nat, r: Result<bool, string>, h2: seq<Message>)
    requires f > 0
    requires LoopView(encode, reasoner, tools, start, fuel, done, h, f)
    requires RoundTaken(encode, reasoner, tools, h, r, h2)
    ensures r.Failure? ==> ReactLoop(encode, reasoner, tools, start, fuel) == Outcome(Failure(r.error), done)
    ensures r.Success? ==> |h| <= |h2| && h2 == h + h2[|h|..]
    ensures r == Success(true) ==>
              ReactLoop(encode, reasoner, tools, start, fuel) == Outcome(Success(()), done + h2[|h|..])
    ensures r == Success(false) ==> LoopView(encode, reasoner, tools, start, fuel, done + h2[|h|..], h2, f - 1)
  {
    ReactLoopAdvance(encode, reasoner, tools, start, fuel, done, h, f);
    var s := Round(encode, reasoner, tools, h);
    if s.Success? {
      assert h2 == h + s.value.appended;
      assert h2[|h|..] == s.value.appended;
    }
  }

  /** With no rounds left the run ends with `FuelExhausted` after appending `done`. */
  lemma ReactLoopOutOfFuel(encode: Encoder, reasoner: Reasoner, tools: seq<Tool>,
                           start: seq<Message>, fuel: nat, done: seq<Message>, h: seq<Message>)
    requires LoopView(encode, reasoner, tools, start, fuel, done, h, 0)
    ensures ReactLoop(encode, reasoner, tools, start, fuel) == Outcome(Failure(FuelExhausted), done)
  {
    assert done + [] == done;
  }

  /** No message of `a` is a tool-definitions message. */
  predicate AnnouncesNoTools(a: seq<Message>)
  {
    forall m :: m in a ==> !m.ToolsMessage?
  }

  lemma AnnouncesNoToolsConcat(a: seq<Message>, b: seq<Message>)
    requires AnnouncesNoTools(a) && AnnouncesNoTools(b)
    ensures AnnouncesNoTools(a + b)
  {
    assert forall m :: m in a + b ==> m in a || m in b;
  }

  /**
   * Reasoning and answering keeps `h` and appends only mode switches, rounds
   * and the answer: never a tool-definitions message.
   */
  lemma ReasonAndAnswerAnnouncesNoTools(encode: Encoder, mb: ModelBuilder, tools: seq<Tool>, h: seq<Message>, fuel: nat)
    ensures var t := ReasonAndAnswer(encode, mb, tools, h, fuel);
            |h| <= |t.history| && t.history[..|h|] == h && AnnouncesNoTools(t.history[|h|..])
  {
    var h1 := h + [ModeSwitchMessage(ModeReasonAct)];
    var loop := ReactLoop(encode, mb.reasoner, tools, h1, fuel);
    ReactLoopRounds(encode, mb.reasoner, tools, h1, fuel);
    RoundsHoldOnlyCallsAndResponses(tools, loop.appended, loop.result.Success?);
    var t := ReasonAndAnswer(encode, mb, tools, h, fuel);
    var h2 := h1 + loop.appended;
    var h3 := h2 + [ModeSwitchMessage(ModeAnswerUser)];
    var rest: seq<Message>;
    if loop.result.Failure? {
      rest := [];
    } else if encode(h3).Failure? || mb.answerer(encode(h3).value).Failure? {
      rest := [ModeSwitchMessage(ModeAnswerUser)];
    } else {
      rest := [ModeSwitchMessage(ModeAnswerUser), AgentMessage(t.result.value)];
    }
    assert t.history == h2 + rest;
    assert AnnouncesNoTools(rest);
    AnnouncesNoToolsConcat([ModeSwitchMessage(ModeReasonAct)], loop.appended);
    AnnouncesNoToolsConcat([ModeSwitchMessage(ModeReasonAct)] + loop.appended, rest);
    var ra := [ModeSwitchMessage(ModeReasonAct)] + loop.appended;
    ConcatAssoc(h, [ModeSwitchMessage(ModeReasonAct)], loop.appended);
    ConcatAssoc(h, ra, rest);
    ConcatParts(h, ra + rest);
  }

  // Plain sequence facts, stated once as lemmas so that the longer proofs about turns
  // call them instead of asserting the equalities inline, which is far costlier there.

  lemma ConcatAssoc(a: seq<Message>, b: seq<Message>, c: seq<Message>)
    ensures (a + b) + c == a + (b + c)
  {
  }

  lemma ConcatSplit(s: seq<Message>, n: nat)
    requires n <= |s|
    ensures s == s[..n] + s[n..]
  {
  }

  lemma ConcatParts(a: seq<Message>, b: seq<Message>)
    ensures (a + b)[..|a|] == a && (a + b)[|a|..] == b
  {
  }

  /** `h` starts with `prefix`. */
  predicate Extends(h: seq<Message>, prefix: seq<Message>)
  {
    |prefix| <= |h| && h[..|prefix|] == prefix
  }

  lemma ExtendsTrans(c: seq<Message>, b: seq<Message>, a: seq<Message>)
    requires Extends(c, b) && Extends(b, a)
    ensures Extends(c, a)
  {
    assert c[..|a|] == c[..|b|][..|a|];
  }

  /**
   * The part of a turn after the skills: switch to reason-action mode, run
   * the loop, switch to final-answer mode and append the answer.
   */
  function ReasonAndAnswer(encode: Encoder, mb: ModelBuilder, tools: seq<Tool>, h: seq<Message>, fuel: nat): Turn
  {
    var h1 := h + [ModeSwitchMessage(ModeReasonAct)];
    var loop := ReactLoop(encode, mb.reasoner, tools, h1, fuel);
    var h2 := h1 + loop.appended;
    if loop.result.Failure? then Turn(Failure(loop.result.error), h2)
    else
      var h3 := h2 + [ModeSwitchMessage(ModeAnswerUser)];
      match encode(h3)
      case Failure(e) => Turn(Failure(e), h3)
      case Success(prompt) =>
        match mb.answerer(prompt)
        case Failure(e) => Turn(Failure(e), h3)
        case Success(answer) => Turn(Success(answer), h3 + [AgentMessage(answer)])
  }

  /**
   * The history only grows: it keeps `h`, then the reason-action switch and
   * whole rounds.  On success it ends with the final-answer switch and the
   * answer that is returned, after a round that asked for no tool.
   */
  lemma ReasonAndAnswerShape(encode: Encoder, mb: ModelBuilder, tools: seq<Tool>, h: seq<Message>, fuel: nat)
    ensures var t := ReasonAndAnswer(encode, mb, tools, h, fuel);
            |t.history| > |h| && Extends(t.history, h + [ModeSwitchMessage(ModeReasonAct)])
    ensures var t := ReasonAndAnswer(encode, mb, tools, h, fuel);
            t.result.Success? ==>
              |t.history| >= |h| + 4
              && t.history[|t.history| - 2..] == [ModeSwitchMessage(ModeAnswerUser), AgentMessage(t.result.value)]
              && Rounds(tools, t.history[|h| + 1..|t.history| - 2], true)
  {
    var h1 := h + [ModeSwitchMessage(ModeReasonAct)];
    var loop := ReactLoop(encode, mb.reasoner, tools, h1, fuel);
    ReactLoopRounds(encode, mb.reasoner, tools, h1, fuel);
    var t := ReasonAndAnswer(encode, mb, tools, h, fuel);
    assert t.history[..|h| + 1] == h1;
    if t.result.Success? {
      var h3 := h1 + loop.appended + [ModeSwitchMessage(ModeAnswerUser)];
      assert t.history == h3 + [AgentMessage(t.result.value)];
      assert t.history[|h| + 1..|t.history| - 2] == loop.appended;
    }
  }
}
