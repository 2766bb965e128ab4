# A verified model of the ReAct agent core

This project models the deterministic core of a Go library for ReAct agents. A ReAct agent is one that alternates
"reason and act" rounds of tool calls with a final answer. The Go library's two agent implementations are both modelled:

- `Agent`, in agent.go and agent_construction.go.
- The older `craig` agent, in craig.go.

Besides the agents, the model covers everything they need:

- **Messages.** The ten kinds of history message, and `ConvertMessages`, the traversal that passes each message to a
  converter (messages.go).
- **Prompt encoders.** `BuildInputMessages`, which turns a history into the role+text prompt sent to a language
  model (llm_handling.go and craig.go). Also the conversion between a model's JSON reason response and a
  tool-calls message.
- **Skill selection.** The no-op selector; the selector backed by a relevance model, with its prompt and its lookup
  of returned keys; and the anti-repeat decorator, which hides skills shown in the last n messages (skills.go).
- **Tools.** Tool definitions and the "have the tools changed" check (utils.go). Tool dispatch: first tool with a
  matching name, argument map, error and not-found texts (`executeToolCalls`, `findToolByName`).
- **Construction.** Options, default personality, and the split of skills into dynamic and persistent ones. New
  agents pin their persistent skills (agent_construction.go, craig.go).
- **Save and load.** The `messageDTO` encoding of histories (saveload.go).

Language models and text rendering are oracles:

- A `ModelBuilder` holds the reason-action model, the final-answer model and the relevance model. Each is a
  function from the encoded prompt to a result or an error.
- A `TextLibrary` holds system-template rendering and JSON indentation.
- A tool is its name, its description lines and its call function.

Each agent is a class:

- Its history is a `seq<Message>` field that its methods extend.
- Its encoder (`getAgentEncoder` / `getEncoder`) is a constant fixed at construction.
- Each method's `ensures` ties the new history and the result to a specification function of the old history:
  `Round`, `ReactLoop`, `AgentTurn`, `CraigTurn`.
- Lemmas then prove what a turn does to the history. It opens with the notifications and the user message. It
  carries still-resident skills forward. It runs whole ReAct rounds, of which only the last asks for no tool. It
  ends with the final-answer switch and the answer. craig announces the tools exactly when they changed, and never
  needs to announce them again after a turn.

## Model

| member | source | states |
|---|---|---|
| Messages.ConvertIsBijective | messages.go:29-113 | every message kind calls exactly one converter method, with all of its own fields, and the call determines the message (both directions of the correspondence) |
| Messages.ConvertMessages | messages.go:18-22 | the converter receives one call per message, in history order, the i-th being the call of the i-th message |
| Messages.ConvertMessagesAppend | messages.go:18-22 | converting a concatenated history is converting its parts one after the other |
| Messages.RunConverterAppend | messages.go:18-22 | a stateful converter fed a+b ends in the state reached by feeding b after a |
| Messages.ConvertHistoryAppend | messages.go:18-22 | a stateful converter run over h1+h2 ends where running it over h2 from the state after h1 ends |
| Messages.LastInsertedSkills | llm_handling.go:65 | the skills handed to the system template are empty or those of a skill message in the history |
| Messages.LastPersonality | llm_handling.go:64 | the personality handed to the system template is empty or that of a personality message in the history |
| Messages.LastInsertedSkillsInsert | llm_handling.go:65 | inserting any message other than a skill message, anywhere in a history, does not change the skills handed to the system template |
| Messages.LastPersonalityInsert | llm_handling.go:64 | inserting any message other than a personality message, anywhere in a history, does not change the personality handed to the system template |
| Prompts.Join | llm_handling.go:99 | joining no parts gives the empty string, joining one part gives that part |
| Prompts.JoinSnoc | llm_handling.go:99 | joining one more part appends the separator and that part |
| SaveLoad.KindTagsDistinct | saveload.go:10-21 | the ten kind tags are pairwise distinct |
| SaveLoad.MessageToDtoAsWritten | saveload.go:62-125 | as written, every kind except a tools message gets its own tag and only its own fields, and a tools message becomes a record tagged "skills" that carries only its tool definitions |
| SaveLoad.MessageToDto | saveload.go:62-125 | each DTO is tagged with its message's own kind and carries only that kind's fields |
| SaveLoad.DtoToMessage | saveload.go:127-157 | decoding fails exactly on a kind tag outside the ten (where the source panics); otherwise the message has the DTO's kind |
| SaveLoad.DecodeEncodeMessage | saveload.go:62-157 | decoding the DTO of any message gives that message back |
| SaveLoad.DecodeEncodeAsWritten | saveload.go:62-157 | with the encoder as written, every kind except a tools message survives the round trip, and a tools message comes back as an empty skill message |
| SaveLoad.ToolsMessageRoundTripFails | saveload.go:106-110 | with the encoder as written, no tools message survives saving and loading |
| SaveLoad.EncodeMessagesAsWritten | saveload.go:24-30 | as written, one DTO per message, in order, each the record `messageToDTO` writes for its message |
| SaveLoad.DecodeEncodeHistoryAsWritten | saveload.go:24-44 | as written, loading a saved history gives back a history of the same length and order, every message unchanged except each tools message, which comes back as an empty skill message |
| SaveLoad.EncodeMessages | saveload.go:24-30 | after the fix in "Findings", one DTO per message, in order, each the corrected DTO of its message |
| SaveLoad.DecodeMessages | saveload.go:33-44 | decoding fails exactly when some DTO has an unknown kind; otherwise it gives one message per DTO, each the decoding of its DTO |
| SaveLoad.DecodeEncodeHistory | saveload.go:24-44 | after the fix in "Findings", loading a saved history gives back the same history |
| Tools.GetToolDefs | utils.go:5-14 | one definition per tool, in order, with the tool's name and description |
| Tools.LastToolDefs | utils.go:17-24 | there is no last definition list exactly when the history has no tools message; otherwise it is the list of a tools message in the history |
| Tools.ToolsHaveChanged | utils.go:16-41 | the loop computes exactly `ToolsChanged`: no tools message, a different count, or a recorded name missing from the current tools |
| Tools.NoDefinitionsMeansChanged | utils.go:25-27 | a history without a tools message always reports the tools as changed |
| Tools.LastToolDefsSkips | utils.go:17-24 | messages after the last tools message that are not tools messages do not change which definitions are compared |
| Tools.OnlyLastDefinitionsCount | utils.go:17-39 | only the last tools message decides, and the tools count as changed exactly when its names differ from the current ones |
| Tools.AnnouncedToolsUnchanged | utils.go:5-41 | right after announcing the definitions of the current tools, they no longer count as changed |
| Tools.DuplicateNamesHideChange | utils.go:32-39 | only names are compared, by membership: definitions [a, a] against tools [a, b] count as unchanged although the name sets differ |
| Tools.NamesDifferIsSetInequalityWhenDistinct | utils.go:32-39 | when names are distinct on both sides, the tools count as unchanged exactly when the name sets are equal |
| Dispatch.FirstToolNamed | agent.go:145-152 | there is no tool index exactly when no tool has the name; otherwise it is the index of the first tool with that name |
| Dispatch.FindToolByName | agent.go:145-152 | the first tool with the requested name, or none when no tool has it |
| Dispatch.ArgsOfSpec | agent.go:131-134 | the argument map has a key exactly when some argument has that name, and it holds the last such argument's value |
| Dispatch.BuildArgs | agent.go:131-134 | the loop builds that map; its keys are exactly the argument names |
| Dispatch.ExecuteToolCalls | agent.go:123-143 | one response per call, in call order, each the response to that call |
| Dispatch.UnknownToolAnswer | agent.go:127-129 | a call to a tool that does not exist is answered with the "Could not find tool" text naming it |
| Dispatch.FirstMatchHandlesCall | agent.go:135-140 | a call is handled by the first tool with its name, and the answer is that tool's result or the error text with the tool's error |
| Dispatch.ResponsesForAppend | agent.go:123-143 | the responses to a+b are the responses to a followed by those to b |
| Backend.ResponseRoundTrip | llm_handling.go:157-189 | turning a reason response into a tool-calls message and back gives the same response |
| Backend.MessageRoundTrip | llm_handling.go:157-189 | turning a tool-calls message into a reason response and back gives the same message |
| Backend.ToolCallsMessageFromResponse | llm_handling.go:157-172 | the loop gives the tool-calls message of the response, with the same reasoning and the same calls: names, and argument counts, in order |
| Backend.ResponseFromToolCallsMessage | llm_handling.go:174-189 | the loop gives the reason response of the message, with the same reasoning and the same calls in order |
| Backend.CommonEntry | llm_handling.go:74-145 | a prompt entry exists exactly for user, agent, tool-calls, tool-response, notification and tools messages and for mode switches to reason-act or final answer; its role is the kind's role, and user and agent text is passed verbatim |
| Backend.Entry | llm_handling.go:59-153 | a message contributes an entry exactly when it is emitted, and the entry has the role of the message's kind |
| Backend.EncodeWithinAppend | llm_handling.go:59-153 | encoding is message by message: the prompt of a+b is the prompt of a followed by that of b |
| Backend.SkippedMessageLeavesNoEntry | llm_handling.go:113-125 | with the rendering context fixed, a skill, personality or unannounced mode-switch message adds no entry of its own (skill and personality messages still reach the system entry) |
| Backend.EncodeWithinSameContext | llm_handling.go:63-73 | entries depend on the whole history only through its last personality and last inserted skills |
| Backend.UnannouncedSwitchLeavesPromptUnchanged | llm_handling.go:113-116 | a mode switch other than reason-act or final answer, inserted anywhere in a history, leaves the whole prompt unchanged |
| Backend.OneEntryPerMessage | llm_handling.go:150-152 | when every message is emitted, the prompt has exactly one entry per message, in order |
| Backend.EntriesHaveKindRoles | llm_handling.go:57-155 | the prompt is never longer than the history, and every entry has the role of an emitted message |
| Backend.SystemPromptFirst | llm_handling.go:63-73 | a leading system message becomes a system entry rendered with the last personality and last inserted skills of the whole history |
| Backend.TwoToolResponsesText | llm_handling.go:91-100 | two tool responses are shown as the header, then each response, with the separator line between them |
| Backend.DescriptionLinesAppend | llm_handling.go:136-138 | each description entry contributes its own line: the lines of a+b are those of a followed by those of b |
| Backend.DescriptionLineOne | llm_handling.go:137 | one description entry is a newline, a two-space indent, a dash and the entry |
| Backend.OneToolText | llm_handling.go:133-143 | a single tool is announced as the header, then its name line followed by its description lines |
| Backend.ToolsTextSnoc | llm_handling.go:133-143 | announcing one more tool appends a newline and that tool's lines |
| Backend.BuildInputMessages | llm_handling.go:57-155 | the loop never fails and produces the encoded history |
| Backend.EncodeOne | llm_handling.go:62-149 | the switch on the message kind produces the message's entry |
| Backend.JoinResponses | llm_handling.go:91-100 | the loop produces the tool-responses text |
| Backend.DescribeTools | llm_handling.go:126-145 | the loop produces the tools text, which is the "no tools available" sentence exactly when there are no definitions |
| Backend.CraigEntry | craig.go:236-324 | craig's encoder fails exactly on a personality message, omits exactly unannounced mode switches, and gives every entry the role of its kind |
| Backend.CraigEncode | craig.go:232-330 | encoding a history fails exactly when it contains a personality message, with the "unknown message type" error |
| Backend.EncodersAgreeOnSharedKinds | craig.go:243-321 | apart from system, skill and personality messages, both encoders give a message the same entry; this holds by the shared definition `CommonEntry`, as the Go cases are textually identical |
| Backend.CraigBuildInputMessages | craig.go:232-330 | the loop computes craig's encoding of the history, and fails on a personality message |
| Skills.NewSkillSelector | skills.go:18-27 | no model gives the no-op selector; a model gives the model-backed selector, wrapped in the anti-repeat decorator exactly when n > 0 |
| Skills.BuildSelectorPrompt | skills.go:72-112 | the loops build the selector prompt: a system message followed by a user message |
| Skills.Dialogue | skills.go:74-81 | the dialogue holds only user and agent messages |
| Skills.DialogueLinesAppend | skills.go:74-81 | the dialogue lines of a+b are those of a followed by those of b |
| Skills.DialogueLinesOfDialogue | skills.go:74-81 | only user and agent messages give dialogue lines, one each |
| Skills.SelectorPromptSeesOnlyDialogue | skills.go:72-112 | the selector's prompt depends on the history only through its user and agent messages |
| Skills.SelectorPromptWindow | skills.go:82-84 | once the recent part holds ten dialogue messages, older history does not affect the prompt, which shows exactly ten lines |
| Skills.LastTenWindow | skills.go:82-84 | the last ten dialogue lines of older+recent are those of recent whenever recent has at least ten |
| Skills.SelectorPromptHidesContent | skills.go:85-88 | a candidate's content and residency are not shown to the selector; only its key and condition are |
| Skills.LookupMapSpec | skills.go:57-60 | a key is in the lookup exactly when some candidate has it, and it maps to the last candidate with that key |
| Skills.KnownSkillsFromCatalog | skills.go:61-68 | the selected skills are candidates whose keys the model returned, and there are no more of them than returned keys |
| Skills.KnownSkillsAllKnown | skills.go:61-68 | when every returned key is known, the result has one skill per key, in the model's order, each with that key |
| Skills.KnownSkillsAppend | skills.go:61-68 | keys are looked up one by one: the skills kept for a+b are those kept for a followed by those kept for b |
| Skills.KnownSkillsOfUnknown | skills.go:63-66 | keys that no candidate has keep nothing |
| Skills.KnownSkillsDropsUnknown | skills.go:63-66 | returned keys that no candidate has are ignored wherever they appear among the returned keys |
| Skills.RepeatedKeyRepeatsSkill | skills.go:61-68 | a key returned twice selects its skill twice |
| Skills.KeepKnownSkills | skills.go:57-68 | the two loops compute the known skills for the returned keys |
| Skills.WithoutSpec | skills.go:126-128 | a skill survives deletion exactly when it was allowed and not shown; deletion never lengthens the list and changes nothing when nothing was shown |
| Skills.WithoutAppend | skills.go:126-128 | deletion acts element by element: deleting from a+b is deleting from a and from b |
| Skills.WithoutTwice | skills.go:126-128 | deleting one skill message's skills after another's is deleting their union |
| Skills.DeleteShown | skills.go:126-128 | the loop removes every skill of one skill message from the allowed list |
| Skills.AllowedCandidates | skills.go:120-129 | the loop over the last n messages leaves exactly the candidates not shown in them |
| Skills.RecentlyShownWindow | skills.go:121 | the skills recently shown are those of skill messages among the last n messages |
| Skills.OnlyLastNMessagesCount | skills.go:121 | messages older than the last n do not affect which skills are excluded |
| Skills.NoSelectorSelectsNothing | skills.go:29-33 | the no-op selector selects nothing |
| Skills.SelectedFromCatalog | skills.go:48-131 | whatever the selector, every selected skill is one of the candidates |
| Skills.AntiRepeatExcludesRecent | skills.go:119-131 | the anti-repeat decorator never selects a skill shown in the last n messages |
| Skills.SelectSkills | skills.go:29-131 | the selector call is the selection, and it draws only from the candidates |
| ReAct.ReactLoopRounds | agent.go:44-57 | the loop appends whole rounds, each a tool-calls message followed by the responses to its calls, and succeeds exactly when the last one asked for no tool |
| ReAct.RoundsEndWithEmptyCalls | agent.go:51-53 | a successful run ends with a tool-calls message with no calls, and every earlier tool-calls message asked for tools |
| ReAct.RoundsHoldOnlyCallsAndResponses | agent.go:44-57 | the loop appends only tool-calls and tool-response messages |
| ReAct.NoToolsOneRound | agent.go:50-53 | a reasoner that never asks for tools ends the loop after one round |
| ReAct.ReactLoopAdvance | agent.go:44-57 | the loop is one round followed by the loop on the extended history: it stops on an error or on a round without calls |
| ReAct.ReasonAndAnswerAnnouncesNoTools | agent.go:41-66 | reasoning and answering keep the history and append no tools message |
| ReAct.ReasonAndAnswerShape | agent.go:41-66 | reasoning first switches to reason-act mode, and on success ends with the final-answer switch and the answer |
| Agents.CarriedSpec | agent.go:75-81 | the carried skills are exactly the previous ones with turns left, each with one turn fewer |
| Agents.CarriedAppend | agent.go:77-81 | carrying forward acts skill by skill |
| Agents.Residency | agent.go:75-81 | a skill inserted for n turns stays through n later selections, one turn fewer each time, and then drops out |
| Agents.NextSkillsSpec | agent.go:73-92 | the next skill message holds the carried skills first, then new skills from the dynamic ones at their full residency; it fails exactly when selection fails |
| Agents.AgentTurnOpening | agent.go:19-41 | a turn appends the notifications and the user message, and the skill message of the next selection when there are dynamic skills |
| Agents.AgentTurnEnding | agent.go:44-66 | a turn keeps the old history, and on success ends with the final-answer switch and the returned answer |
| Agents.Agent.constructor | agent_construction.go:39-45 | the agent holds the given history, model builder, tools, selector and dynamic skills, and the agent encoder |
| Agents.Agent.AddMessages | agent.go:114-121 | the messages are appended to the history |
| Agents.Agent.GetNextSelectedSkills | agent.go:73-92 | the result is the next skills for the current history |
| Agents.Agent.AnswerReAct | agent.go:94-102 | an encoder error or reasoner error is returned; otherwise the result is the tool-calls message of the response |
| Agents.Agent.ReactRound | agent.go:46-56 | one loop iteration appends the round's messages and says whether it was the last, or returns the error and appends nothing |
| Agents.Agent.RunReactLoop | agent.go:44-57 | the loop's result and appended messages are those of `ReactLoop` on the old history |
| Agents.Agent.AnswerFinalResponse | agent.go:104-112 | an encoder error is returned; otherwise the answer model's result on the prompt |
| Agents.Agent.Send | agent.go:19-67 | the result and the new history are those of `AgentTurn` on the old history |
| Construction.GetKwargs | agent_construction.go:22-30 | the options are applied in order to the defaults |
| Construction.OptionsAppendInOrder | agent_construction.go:51-57 | skill and tool options append their items in option order |
| Construction.LastPersonalityOptionWins | agent_construction.go:59-61 | the last personality option decides the personality |
| Construction.NoPersonalityOptionKeepsPersonality | agent_construction.go:22-30 | without a personality option the personality is unchanged |
| Construction.DefaultSettings | agent_construction.go:23-25 | the default personality is "Your name is CRAIG, a helpful assistant." |
| Construction.DynamicAndPersistentPartition | agent_construction.go:33 | the skills split into dynamic (conditional) and persistent (unconditional) ones, with nothing lost or added |
| Construction.PinPersistent | agent_construction.go:34-37 | every persistent skill is inserted, in order, with the 999999999999999999 residency |
| Construction.PinnedStaysResident | agent_construction.go:36 | a pinned skill stays resident through any number of turns below that residency |
| Construction.NewHelper | agent_construction.go:32-47 | the agent gets the history followed by the pinned persistent skills, the tools, the dynamic skills and the selector built from the model builder |
| Construction.New | agent_construction.go:5-16 | a new agent starts from the personality message, the system template and the pinned skills, with the option-given tools and dynamic skills |
| Construction.NewFromSaved | agent_construction.go:18-20 | a restored agent keeps the saved history and appends the pinned persistent skills |
| Construction.NewHistoryRenders | agent_construction.go:5-16 | a new history has three messages, and the system template sees the chosen personality and exactly the pinned persistent skills |
| Construction.RestoreResetsResidentSkills | agent_construction.go:32-38 | restoring keeps the saved history as a prefix, makes the pinned skills the resident ones, and keeps the saved personality |
| CraigAgent.CraigReactAnnouncesNoTools | craig.go:118-155 | after the user message, a craig turn keeps the history and appends no tools message |
| CraigAgent.CraigTurnAnnouncesChangedTools | craig.go:103-108 | a turn first appends the current tool definitions exactly when the tools changed |
| CraigAgent.CraigTurnFragments | craig.go:118-130 | with fragments a context-collection switch follows the user message, and the selected fragments follow it only when the selection is not empty |
| CraigAgent.CraigTurnLeavesToolsAnnounced | craig.go:100-156 | after any turn the tools no longer count as changed |
| CraigAgent.Craig.constructor | craig.go:50-56 | the agent holds the given history, model builder, tools, selector and fragments, and craig's encoder |
| CraigAgent.Craig.AddMessages | craig.go:162-169 | the messages are appended to the history |
| CraigAgent.Craig.GetToolCalls | craig.go:202-212 | an encoder error or reasoner error is returned; otherwise the tool-calls message of the response |
| CraigAgent.Craig.GetFinalResponse | craig.go:214-224 | an encoder error is returned; otherwise the answer model's result on the prompt |
| CraigAgent.Craig.ReactRound | craig.go:133-146 | one loop iteration appends the round's messages and says whether it was the last, or returns the error and appends nothing |
| CraigAgent.Craig.RunReactLoop | craig.go:132-146 | the loop's result and appended messages are those of `ReactLoop` on the old history |
| CraigAgent.Craig.Send | craig.go:100-156 | the result and the new history are those of `CraigTurn` on the old history |
| CraigAgent.Craig.AnnounceTools | craig.go:103-108 | the tool definitions are appended exactly when the tools changed |
| CraigAgent.Craig.AddOpening | craig.go:110-116 | the notifications, then the user message, are appended |
| CraigAgent.Craig.CollectAndAnswer | craig.go:118-155 | the rest of the turn is `CraigReact` on the history so far |
| CraigAgent.CraigSelector | craig.go:55 | craig selects fragments with the model-backed selector wrapped in a 10-message anti-repeat decorator |
| CraigAgent.NewCraigHelper | craig.go:48-58 | the agent keeps the history as given, with the option-given tools and fragments |
| CraigAgent.NewCraig | craig.go:22-30 | a new craig agent starts from one system message rendered with the chosen personality |
| CraigAgent.NewCraigFromSaved | craig.go:34-36 | a restored craig agent keeps the saved history unchanged |

## Left out

- Language models, JSON parsing and template rendering are oracles: `ModelBuilder` functions and the `TextLibrary`
  functions `renderSystem` (`executeSystemPrompt`, `createCraigSystemMessage`) and `marshalIndent`. Their text is
  not modelled.
- Message and response streamers (`addMessages`' listener, `TrySendTextChunk`) are I/O and are left out; `addMessages`
  only appends.
- Send options are modelled only through their notifications, passed to `Send` directly; `getKwargs` and the
  streamer options of send_opts.go are left out. craig.go's `getStreamers(opts)` and `streamers.notifications` are
  not part of this model: craig's notifications are taken to be the same notification messages as the agent's.
- fragments.go's `PromptFragment` and `FragmentSelector` are modelled as `Skill` and the skill selector. craig's
  `PromptFragmentMessage` and `AvailableToolDefinitionsMessage` are the skill and tools messages. Its
  `SystemMessage{Content}` is the system message.
- The `Messages()` iterator is left out; the history field is the value it would yield.
- ReAct.ReactLoop: the source loops until the reasoner asks for no tool; the model bounds the rounds by `fuel` and
  reports `FuelExhausted` when it runs out. Non-termination is not modelled.
- Agents.Agent.Send: inherits the fuel bound of the loop.
- CraigAgent.Craig.Send: inherits the fuel bound of the loop.
- A nil model builder is not modelled; agents always have one, and `NewSkillSelector` takes an `Option` for the
  no-model case.
- The difference between a nil and an empty slice, which JSON and `omitempty` expose, is not modelled: both are the
  empty sequence.
- agent_construction.go:44 calls `NewSkillSelector(mb)` with one argument, where the function takes two; the model
  passes the anti-repeat window `dontRepeatN` as a parameter of construction.
- The embedded `system.tpl` template is a parameter (`template`, or `render` for craig).
- skills.go:127 compares a `Skill` with an `InsertedSkill`; the model compares the candidate with the inserted
  skill's `Skill`.
- `getLastInsertedSkills`, `getLastPersonality` and `getDynamicAndPersistent` are not part of this model's sources.
  They are modelled as the skills of the last skill message, the text of the last personality message, and the
  split of skills by `IsConditional`.
- Messages.LastInsertedSkills: states only that the skills come from some skill message; "last" is its definition.
- Messages.LastPersonality: states only that the personality comes from some personality message; "last" is its definition.
- Tool-call argument values are opaque (`ArgValue`), as are the JSON values a tool receives.
- `jpf` pipeline plumbing (`NewOneShotPipeline`, retries, contexts) is left out: a model call is one oracle call.

## Findings

| source | as written | input that shows it | evidently intended | confidence | as-written member | corrected member |
|---|---|---|---|---|---|---|
| saveload.go:106-110 | `messageToDTO` tags a tools message with the "skills" kind, so `dtoToMessage` reads it back as a skill message | a history holding `ToolsMessage{Tools: [t]}`, saved and loaded, comes back holding `SkillMessage{}` and loses the definitions | tag it "available_tools" so the history survives saving and loading | high (not executed) | SaveLoad.DecodeEncodeHistoryAsWritten | SaveLoad.DecodeEncodeHistory |
