/**
 * Building an agent (agent_construction.go, and `getCraigKwargs` of
 * craig.go): options applied in order to default settings, skills split
 * into dynamic ones (offered to the selector each turn) and persistent ones
 * (inserted once with a counter so large it never runs out), and the
 * initial history.
 */
module Construction {
  import opened Wrappers
  import opened Messages
  import opened Skills
  import opened Tools
  import opened Backend
  import opened ReAct
  import opened Agents

  const DefaultPersonality := "Your name is CRAIG, a helpful assistant."

  /** The counter persistent skills are inserted with. */
  const Forever := 999999999999999999

  /** An option of `New` (`WithSkills`, `WithTools`, `WithPersonality`). */
  datatype Opt =
    | WithSkills(skills: seq<Skill>)
    | WithTools(tools: seq<Tool>)
    | WithPersonality(personality: string)

  /** The settings the options build up. */
  datatype Kwargs = Kwargs(skills: seq<Skill>, tools: seq<Tool>, personality: string)

  /** What one option does to the settings. */
  function Apply(kw: Kwargs, o: Opt): Kwargs
  {
    match o
    case WithSkills(skills) => kw.(skills := kw.skills + skills)
    case WithTools(tools) => kw.(tools := kw.tools + tools)
    case WithPersonality(p) => kw.(personality := p)
  }

  /** The options applied one after the other. */
  function ApplyAll(kw: Kwargs, opts: seq<Opt>): Kwargs
  {
    if opts == [] then kw else Apply(ApplyAll(kw, opts[..|opts| - 1]), opts[|opts| - 1])
  }

  /** `getNewKwargs`: start from the default personality and apply the options in order. */
  method GetKwargs(opts: seq<Opt>) returns (kw: Kwargs)
    ensures kw == ApplyAll(Kwargs([], [], DefaultPersonality), opts)
  {
    kw := Kwargs([], [], DefaultPersonality);
    for i := 0 to |opts|
      invariant kw == ApplyAll(Kwargs([], [], DefaultPersonality), opts[..i])
    {
      assert opts[..i + 1][..i] == opts[..i];
      match opts[i] {
        case WithSkills(skills) => kw := kw.(skills := kw.skills + skills);
        case WithTools(tools) => kw := kw.(tools := kw.tools + tools);
        case WithPersonality(p) => kw := kw.(personality := p);
      }
    }
    assert opts[..|opts|] == opts;
  }

  /** The skills the options name, in option order. */
  function SkillsOf(opts: seq<Opt>): seq<Skill>
  {
    if opts == [] then []
    else (if opts[0].WithSkills? then opts[0].skills else []) + SkillsOf(opts[1..])
  }

  /** The tools the options name, in option order. */
  function ToolsOf(opts: seq<Opt>): seq<Tool>
  {
    if opts == [] then []
    else (if opts[0].WithTools? then opts[0].tools else []) + ToolsOf(opts[1..])
  }

  lemma {:induction false} SkillsOfSnoc(opts: seq<Opt>, o: Opt)
    ensures SkillsOf(opts + [o]) == SkillsOf(opts) + (if o.WithSkills? then o.skills else [])
  {
    if opts == [] {
      assert [] + [o] == [o];
      assert [o][1..] == [];
    } else {
      assert (opts + [o])[1..] == opts[1..] + [o];
      SkillsOfSnoc(opts[1..], o);
      var head := if opts[0].WithSkills? then opts[0].skills else [];
      var tail := if o.WithSkills? then o.skills else [];
      assert head + (SkillsOf(opts[1..]) + tail) == (head + SkillsOf(opts[1..])) + tail;
    }
  }

  lemma {:induction false} ToolsOfSnoc(opts: seq<Opt>, o: Opt)
    ensures ToolsOf(opts + [o]) == ToolsOf(opts) + (if o.WithTools? then o.tools else [])
  {
    if opts == [] {
      assert [] + [o] == [o];
      assert [o][1..] == [];
    } else {
      assert (opts + [o])[1..] == opts[1..] + [o];
      ToolsOfSnoc(opts[1..], o);
      var head := if opts[0].WithTools? then opts[0].tools else [];
      var tail := if o.WithTools? then o.tools else [];
      assert head + (ToolsOf(opts[1..]) + tail) == (head + ToolsOf(opts[1..])) + tail;
    }
  }

  /** Skills and tools accumulate: every option's list is appended, in option order. */
  lemma {:induction false} OptionsAppendInOrder(kw: Kwargs, opts: seq<Opt>)
    ensures ApplyAll(kw, opts).skills == kw.skills + SkillsOf(opts)
    ensures ApplyAll(kw, opts).tools == kw.tools + ToolsOf(opts)
  {
    if opts == [] {
    } else {
      var prefix, last := opts[..|opts| - 1], opts[|opts| - 1];
      OptionsAppendInOrder(kw, prefix);
      SkillsOfSnoc(prefix, last);
      ToolsOfSnoc(prefix, last);
      assert prefix + [last] == opts;
    }
  }

  /** The personality is the one of the last `WithPersonality` option. */
  lemma {:induction false} LastPersonalityOptionWins(kw: Kwargs, opts: seq<Opt>)
    ensures forall i :: 0 <= i < |opts| && opts[i].WithPersonality?
                        && (forall j :: i < j < |opts| ==> !opts[j].WithPersonality?)
                        ==> ApplyAll(kw, opts).personality == opts[i].personality
  {
    if opts != [] {
      var prefix := opts[..|opts| - 1];
      LastPersonalityOptionWins(kw, prefix);
      forall i | 0 <= i < |opts| && opts[i].WithPersonality? && (forall j :: i < j < |opts| ==> !opts[j].WithPersonality?)
        ensures ApplyAll(kw, opts).personality == opts[i].personality
      {
        if i < |opts| - 1 {
          assert prefix[i] == opts[i];
          assert forall j :: i < j < |prefix| ==> prefix[j] == opts[j];
        }
      }
    }
  }

  /** Without a personality option the starting personality is kept. */
  lemma {:induction false} NoPersonalityOptionKeepsPersonality(kw: Kwargs, opts: seq<Opt>)
    requires forall i :: 0 <= i < |opts| ==> !opts[i].WithPersonality?
    ensures ApplyAll(kw, opts).personality == kw.personality
  {
    if opts != [] {
      var prefix := opts[..|opts| - 1];
      assert forall i :: 0 <= i < |prefix| ==> prefix[i] == opts[i];
      NoPersonalityOptionKeepsPersonality(kw, prefix);
      assert !opts[|opts| - 1].WithPersonality?;
    }
  }

  /** Without options, the settings are empty and the personality is CRAIG's. */
  lemma DefaultSettings(opts: seq<Opt>)
    requires forall i :: 0 <= i < |opts| ==> !opts[i].WithPersonality?
    ensures ApplyAll(Kwargs([], [], DefaultPersonality), opts).personality == "Your name is CRAIG, a helpful assistant."
  {
    NoPersonalityOptionKeepsPersonality(Kwargs([], [], DefaultPersonality), opts);
  }

  // ---------------------------------------------------------------------------
  // Dynamic and persistent skills

  /** The dynamic skills: those with a condition, in order. */
  function Dynamic(skills: seq<Skill>): seq<Skill>
  {
    if skills == [] then []
    else Dynamic(skills[..|skills| - 1]) + (if IsConditional(skills[|skills| - 1]) then [skills[|skills| - 1]] else [])
  }

  /** The persistent skills: those without a condition, in order. */
  function Persistent(skills: seq<Skill>): seq<Skill>
  {
    if skills == [] then []
    else Persistent(skills[..|skills| - 1]) + (if IsConditional(skills[|skills| - 1]) then [] else [skills[|skills| - 1]])
  }

  /**
   * `getDynamicAndPersistent` splits the skills: every skill lands in exactly
   * one part, the conditional ones in the dynamic part.
   */
  lemma {:induction false} DynamicAndPersistentPartition(skills: seq<Skill>)
    ensures multiset(Dynamic(skills)) + multiset(Persistent(skills)) == multiset(skills)
    ensures forall s :: s in Dynamic(skills) <==> s in skills && IsConditional(s)
    ensures forall s :: s in Persistent(skills) <==> s in skills && !IsConditional(s)
  {
    if skills != [] {
      var prefix, last := skills[..|skills| - 1], skills[|skills| - 1];
      DynamicAndPersistentPartition(prefix);
      assert skills == prefix + [last];
      PartitionStep(prefix, last);
    }
  }

  lemma PartitionStep(prefix: seq<Skill>, last: Skill)
    requires multiset(Dynamic(prefix)) + multiset(Persistent(prefix)) == multiset(prefix)
    requires forall s :: s in Dynamic(prefix) <==> s in prefix && IsConditional(s)
    requires forall s :: s in Persistent(prefix) <==> s in prefix && !IsConditional(s)
    ensures multiset(Dynamic(prefix + [last])) + multiset(Persistent(prefix + [last])) == multiset(prefix + [last])
    ensures forall s :: s in Dynamic(prefix + [last]) <==> s in prefix + [last] && IsConditional(s)
    ensures forall s :: s in Persistent(prefix + [last]) <==> s in prefix + [last] && !IsConditional(s)
  {
    var skills := prefix + [last];
    assert skills[..|skills| - 1] == prefix;
    assert forall s :: s in skills <==> s in prefix || s == last;
  }

  /** The skill message of the persistent skills: each one with the `Forever` counter. */
  function Pinned(pers: seq<Skill>): seq<InsertedSkill>
  {
    seq(|pers|, i requires 0 <= i < |pers| => InsertedSkill(pers[i], Forever))
  }

  /** The insertion loop of `newHelper`. */
  method PinPersistent(pers: seq<Skill>) returns (ins: seq<InsertedSkill>)
    ensures ins == Pinned(pers)
    ensures |ins| == |pers| && forall i :: 0 <= i < |pers| ==> ins[i].skill == pers[i] && ins[i].nowRemainFor == Forever
  {
    var arr := new InsertedSkill[|pers|](i => InsertedSkill(Skill("", "", "", 0), 0));
    for i := 0 to |pers|
      invariant forall j :: 0 <= j < i ==> arr[j] == InsertedSkill(pers[j], Forever)
    {
      arr[i] := InsertedSkill(pers[i], Forever);
    }
    ins := arr[..];
  }

  /**
   * A persistent skill stays resident, its counter falling by one per turn,
   * for `Forever` turns: in practice, for good.
   */
  lemma PinnedStaysResident(s: Skill, turns: nat)
    requires turns <= Forever
    ensures DecayTimes([InsertedSkill(s, Forever)], turns) == [InsertedSkill(s, Forever - turns)]
  {
    Residency(s, Forever, turns);
  }

  /** The history `newHelper` produces from the given one: the persistent skills appended. */
  function StartHistory(messages: seq<Message>, kw: Kwargs): seq<Message>
  {
    messages + [SkillMessage(Pinned(Persistent(kw.skills)))]
  }

  /** `newHelper`: insert the persistent skills and build the agent around the dynamic ones. */
  method NewHelper(mb: ModelBuilder, lib: TextLibrary, messages: seq<Message>, kw: Kwargs, dontRepeatN: int)
    returns (ag: Agent)
    ensures fresh(ag)
    ensures ag.messages == StartHistory(messages, kw)
    ensures ag.modelBuilder == mb && ag.encoder == LatestEncoder(lib) && ag.tools == kw.tools
    ensures ag.dynamicFragments == Dynamic(kw.skills)
    ensures ag.skillSelector == NewSkillSelector(Some(mb.selectorModel), dontRepeatN)
  {
    var dyn, pers := Dynamic(kw.skills), Persistent(kw.skills);
    var insertPersistent := PinPersistent(pers);
    var msgs := messages + [SkillMessage(insertPersistent)];
    ag := new Agent(msgs, mb, lib, kw.tools, NewSkillSelector(Some(mb.selectorModel), dontRepeatN), dyn);
  }

  /** The history `New` starts with: the personality, the system template, the persistent skills. */
  function NewHistory(kw: Kwargs, template: string): seq<Message>
  {
    StartHistory([PersonalityMessage(kw.personality), SystemMessage(template)], kw)
  }

  /** `New`: a fresh agent with the personality, the system template and the persistent skills. */
  method New(mb: ModelBuilder, lib: TextLibrary, template: string, opts: seq<Opt>, dontRepeatN: int) returns (ag: Agent)
    ensures fresh(ag)
    ensures ag.messages == NewHistory(ApplyAll(Kwargs([], [], DefaultPersonality), opts), template)
    ensures ag.tools == ApplyAll(Kwargs([], [], DefaultPersonality), opts).tools
    ensures ag.dynamicFragments == Dynamic(ApplyAll(Kwargs([], [], DefaultPersonality), opts).skills)
    ensures ag.modelBuilder == mb && ag.encoder == LatestEncoder(lib)
    ensures ag.skillSelector == NewSkillSelector(Some(mb.selectorModel), dontRepeatN)
  {
    var kw := GetKwargs(opts);
    ag := NewHelper(mb, lib, [PersonalityMessage(kw.personality), SystemMessage(template)], kw, dontRepeatN);
  }

  /** `NewFromSaved`: the restored history, with the persistent skills appended once more. */
  method NewFromSaved(mb: ModelBuilder, lib: TextLibrary, saved: seq<Message>, opts: seq<Opt>, dontRepeatN: int)
    returns (ag: Agent)
    ensures fresh(ag)
    ensures ag.messages == StartHistory(saved, ApplyAll(Kwargs([], [], DefaultPersonality), opts))
    ensures ag.tools == ApplyAll(Kwargs([], [], DefaultPersonality), opts).tools
    ensures ag.dynamicFragments == Dynamic(ApplyAll(Kwargs([], [], DefaultPersonality), opts).skills)
    ensures ag.modelBuilder == mb && ag.encoder == LatestEncoder(lib)
    ensures ag.skillSelector == NewSkillSelector(Some(mb.selectorModel), dontRepeatN)
  {
    var kw := GetKwargs(opts);
    ag := NewHelper(mb, lib, saved, kw, dontRepeatN);
  }

  /**
   * A new agent's history has three messages; the system prompt renders
   * with the configured personality and exactly the persistent skills, and
   * the system entry comes first.
   */
  lemma NewHistoryRenders(kw: Kwargs, template: string)
    ensures |NewHistory(kw, template)| == 3
    ensures LastPersonality(NewHistory(kw, template)) == kw.personality
    ensures LastInsertedSkills(NewHistory(kw, template)) == Pinned(Persistent(kw.skills))
    ensures forall s :: s in Persistent(kw.skills) ==> InsertedSkill(s, Forever) in LastInsertedSkills(NewHistory(kw, template))
  {
    var h := NewHistory(kw, template);
    var p := PersonalityMessage(kw.personality);
    assert h[..|h| - 1] == [p, SystemMessage(template)];
    assert [p, SystemMessage(template)][..1] == [p];
    assert LastPersonality([p]) == kw.personality;
    assert LastPersonality([p, SystemMessage(template)]) == kw.personality;
    forall s | s in Persistent(kw.skills)
      ensures InsertedSkill(s, Forever) in Pinned(Persistent(kw.skills))
    {
      var i :| 0 <= i < |Persistent(kw.skills)| && Persistent(kw.skills)[i] == s;
      assert Pinned(Persistent(kw.skills))[i] == InsertedSkill(s, Forever);
    }
  }

  /**
   * Restoring grows the history by one message, and afterwards the resident
   * skills are exactly the persistent ones: dynamic skills still resident in
   * the saved history are no longer carried.
   */
  lemma RestoreResetsResidentSkills(saved: seq<Message>, kw: Kwargs)
    ensures |StartHistory(saved, kw)| == |saved| + 1 && StartHistory(saved, kw)[..|saved|] == saved
    ensures LastInsertedSkills(StartHistory(saved, kw)) == Pinned(Persistent(kw.skills))
    ensures LastPersonality(StartHistory(saved, kw)) == LastPersonality(saved)
  {
    var h := StartHistory(saved, kw);
    assert h[..|h| - 1] == saved;
  }
}
