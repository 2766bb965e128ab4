/**
 * Skill selection (skills.go): the no-op selector, the selector backed by a
 * relevance model (which sees the recent dialogue and each candidate's key and
 * condition, and answers with skill keys), and the anti-repeat decorator that
 * hides skills shown in the last n messages from the selector it wraps.
 */
module Skills {
  import opened Wrappers
  import opened Prompts
  import opened Messages

  /**
   * The relevance model pipeline: it takes the prompt and returns the keys
   * it found relevant, or an error.
   */
  type SelectorModel = seq<PromptMessage> -> Result<seq<string>, string>

  /** The three selector strategies; the decorator wraps another selector. */
  datatype SkillSelector =
    | NoSkillSelector
    | ConversationLlmSkillSelector(model: SelectorModel)
    | DontRepeatInNSelector(n: int, inner: SkillSelector)

  /**
   * `NewSkillSelector`: no model gives the no-op selector; otherwise the
   * model-backed selector, wrapped in the anti-repeat decorator when
   * `dontRepeatN > 0`.
   */
  function NewSkillSelector(modelBuilder: Option<SelectorModel>, dontRepeatN: int): (s: SkillSelector)
    ensures modelBuilder.None? <==> s.NoSkillSelector?
    ensures s.DontRepeatInNSelector? <==> modelBuilder.Some? && dontRepeatN > 0
    ensures s.DontRepeatInNSelector? ==> s.n == dontRepeatN && s.inner.ConversationLlmSkillSelector?
  {
    if modelBuilder.None? then NoSkillSelector
    else if dontRepeatN > 0 then DontRepeatInNSelector(dontRepeatN, ConversationLlmSkillSelector(modelBuilder.value))
    else ConversationLlmSkillSelector(modelBuilder.value)
  }

  // ---------------------------------------------------------------------------
  // The prompt of the model-backed selector

  const SelectorSystemPrompt :=
    "You are a fast AI who decides if any \"fragments\" are relevant to an agent's conversation.\n"
    + "\t- You will list all fragment IDs in your response that you think might be relevant to the current turn in the conversation (the last message).\n"
    + "\t- This means any fragments that may help an agent continue the conversation should be included.\n"
    + "\t- Prefer recall over precision.\n"
    + "\t- It may be the case that none are relevant, in that case respond with an empty list.\n"
    + "\t- You will respond with a json object with a key \"relevant_fragment_ids\", which is a list of string IDs that exactly match the IDs of the provided fragments."

  /** The dialogue line of a message: user and agent messages have one, the rest none. */
  function DialogueLine(m: Message): seq<string>
  {
    match m
    case UserMessage(c) => ["<user-message>" + c + "</user-message>"]
    case AgentMessage(c) => ["<agent-message>" + c + "</agent-message>"]
    case _ => []
  }

  /** The dialogue lines of a history, in history order. */
  function DialogueLines(h: seq<Message>): seq<string>
  {
    if h == [] then [] else DialogueLines(h[..|h| - 1]) + DialogueLine(h[|h| - 1])
  }

  /** At most the last ten lines. */
  function LastTen(lines: seq<string>): seq<string>
  {
    if |lines| > 10 then lines[|lines| - 10..] else lines
  }

  /** A candidate as the model sees it: key and condition, never the content. */
  function CandidateLine(f: Skill): string
  {
    "<fragment id=\"" + f.key + "\">" + f.when + "</fragment>"
  }

  function CandidateLines(frags: seq<Skill>): seq<string>
  {
    seq(|frags|, i requires 0 <= i < |frags| => CandidateLine(frags[i]))
  }

  /** The two messages the model-backed selector sends (its `BuildInputMessages`). */
  function SelectorPrompt(frags: seq<Skill>, h: seq<Message>): seq<PromptMessage>
  {
    [ PromptMessage(SystemRole, SelectorSystemPrompt),
      PromptMessage(UserRole, "Here is the conversation and messages:\n\n"
                              + Join(LastTen(DialogueLines(h)), "\n") + "\n\n"
                              + Join(CandidateLines(frags), "\n")) ]
  }

  /** `BuildInputMessages` of the model-backed selector: collect, truncate, list candidates. */
  method BuildSelectorPrompt(frags: seq<Skill>, h: seq<Message>) returns (prompt: seq<PromptMessage>)
    ensures prompt == SelectorPrompt(frags, h)
    ensures |prompt| == 2 && prompt[0].role == SystemRole && prompt[1].role == UserRole
  {
    var conv: seq<string> := [];
    for i := 0 to |h|
      invariant conv == DialogueLines(h[..i])
    {
      assert h[..i + 1][..i] == h[..i];
      match h[i]
      case UserMessage(c) => conv := conv + ["<user-message>" + c + "</user-message>"];
      case AgentMessage(c) => conv := conv + ["<agent-message>" + c + "</agent-message>"];
      case _ =>
    }
    assert h[..|h|] == h;
    if |conv| > 10 {
      conv := conv[|conv| - 10..];
    }
    var lines: seq<string> := [];
    for i := 0 to |frags|
      invariant |lines| == i
      invariant forall j :: 0 <= j < i ==> lines[j] == CandidateLine(frags[j])
    {
      lines := lines + ["<fragment id=\"" + frags[i].key + "\">" + frags[i].when + "</fragment>"];
    }
    assert lines == CandidateLines(frags);
    assert conv == LastTen(DialogueLines(h));
    prompt := [ PromptMessage(SystemRole, SelectorSystemPrompt),
                PromptMessage(UserRole, "Here is the conversation and messages:\n\n"
                                        + Join(conv, "\n") + "\n\n" + Join(lines, "\n")) ];
  }

  /** Only user and agent messages are shown to the selector model. */
  function Dialogue(h: seq<Message>): (d: seq<Message>)
    ensures forall m :: m in d ==> m.UserMessage? || m.AgentMessage?
  {
    if h == [] then []
    else Dialogue(h[..|h| - 1]) + (if h[|h| - 1].UserMessage? || h[|h| - 1].AgentMessage? then [h[|h| - 1]] else [])
  }

  lemma {:induction false} DialogueLinesAppend(a: seq<Message>, b: seq<Message>)
    ensures DialogueLines(a + b) == DialogueLines(a) + DialogueLines(b)
  {
    if b == [] {
      assert a + b == a;
    } else {
      var init, last := b[..|b| - 1], b[|b| - 1];
      assert (a + b)[..|a + b| - 1] == a + init;
      assert (a + b)[|a + b| - 1] == last;
      DialogueLinesAppend(a, init);
      var x, y, z := DialogueLines(a), DialogueLines(init), DialogueLine(last);
      assert (x + y) + z == x + (y + z);
    }
  }

  /** One dialogue line per user or agent message, and nothing from the others. */
  lemma {:induction false} DialogueLinesOfDialogue(h: seq<Message>)
    ensures DialogueLines(h) == DialogueLines(Dialogue(h))
    ensures |DialogueLines(h)| == |Dialogue(h)|
  {
    if h != [] {
      var prefix, last := h[..|h| - 1], h[|h| - 1];
      DialogueLinesOfDialogue(prefix);
      var tail := if last.UserMessage? || last.AgentMessage? then [last] else [];
      DialogueLinesAppend(Dialogue(prefix), tail);
      if tail == [] {
        assert Dialogue(h) == Dialogue(prefix);
      } else {
        assert DialogueLines(tail) == DialogueLines([]) + DialogueLine(last);
      }
    }
  }

  /** The selector prompt does not depend on any message other than user and agent ones. */
  lemma SelectorPromptSeesOnlyDialogue(frags: seq<Skill>, h: seq<Message>)
    ensures SelectorPrompt(frags, h) == SelectorPrompt(frags, Dialogue(h))
  {
    DialogueLinesOfDialogue(h);
  }

  /**
   * The selector prompt shows at most the last ten dialogue messages: once
   * the recent part `recent` holds ten of them, older history does not matter.
   */
  lemma SelectorPromptWindow(frags: seq<Skill>, older: seq<Message>, recent: seq<Message>)
    requires |Dialogue(recent)| >= 10
    ensures SelectorPrompt(frags, older + recent) == SelectorPrompt(frags, recent)
    ensures |LastTen(DialogueLines(older + recent))| == 10
  {
    LastTenWindow(older, recent);
  }

  lemma LastTenWindow(older: seq<Message>, recent: seq<Message>)
    requires |Dialogue(recent)| >= 10
    ensures LastTen(DialogueLines(older + recent)) == LastTen(DialogueLines(recent))
    ensures |LastTen(DialogueLines(recent))| == 10
  {
    DialogueLinesAppend(older, recent);
    DialogueLinesOfDialogue(recent);
    LastTenOfLonger(DialogueLines(older), DialogueLines(recent));
  }

  lemma LastTenOfLonger(a: seq<string>, b: seq<string>)
    requires |b| >= 10
    ensures LastTen(a + b) == LastTen(b) && |LastTen(b)| == 10
  {
    assert (a + b)[|a + b| - 10..] == b[|b| - 10..];
    if |b| == 10 {
      assert b[0..] == b;
    }
  }

  /** The candidates' content and residency are never shown: only key and condition are. */
  lemma SelectorPromptHidesContent(frags: seq<Skill>, other: seq<Skill>, h: seq<Message>)
    requires |frags| == |other|
    requires forall i :: 0 <= i < |frags| ==> frags[i].key == other[i].key && frags[i].when == other[i].when
    ensures SelectorPrompt(frags, h) == SelectorPrompt(other, h)
  {
    assert CandidateLines(frags) == CandidateLines(other);
  }

  // ---------------------------------------------------------------------------
  // Keeping the returned keys that name a candidate

  /** `fragLookup`: key to skill; a later skill with the same key overwrites an earlier one. */
  function LookupMap(frags: seq<Skill>): map<string, Skill>
  {
    if frags == [] then map[]
    else LookupMap(frags[..|frags| - 1])[frags[|frags| - 1].key := frags[|frags| - 1]]
  }

  /** A key is in the lookup iff some candidate has it, and it maps to the last such candidate. */
  lemma {:induction false} LookupMapSpec(frags: seq<Skill>, k: string)
    ensures k in LookupMap(frags) <==> exists i :: 0 <= i < |frags| && frags[i].key == k
    ensures k in LookupMap(frags) ==> LookupMap(frags)[k].key == k
    ensures k in LookupMap(frags) ==>
              exists i :: 0 <= i < |frags| && frags[i] == LookupMap(frags)[k]
                          && forall j :: i < j < |frags| ==> frags[j].key != k
  {
    if frags != [] {
      var prefix := frags[..|frags| - 1];
      LookupMapSpec(prefix, k);
      if frags[|frags| - 1].key != k && k in LookupMap(frags) {
        var i :| 0 <= i < |prefix| && prefix[i] == LookupMap(prefix)[k]
                 && forall j :: i < j < |prefix| ==> prefix[j].key != k;
        assert frags[i] == LookupMap(frags)[k];
      }
    }
  }

  /** The skills of the returned keys that are in the lookup, in returned order. */
  function KnownSkills(lookup: map<string, Skill>, ids: seq<string>): seq<Skill>
  {
    if ids == [] then []
    else KnownSkills(lookup, ids[..|ids| - 1])
         + (if ids[|ids| - 1] in lookup then [lookup[ids[|ids| - 1]]] else [])
  }

  /** Each skill the model-backed selector keeps is a candidate with a returned key, at most one per key. */
  lemma {:induction false} KnownSkillsFromCatalog(frags: seq<Skill>, ids: seq<string>)
    ensures |KnownSkills(LookupMap(frags), ids)| <= |ids|
    ensures forall s :: s in KnownSkills(LookupMap(frags), ids) ==> s in frags && s.key in ids
  {
    if ids != [] {
      var prefix, last := ids[..|ids| - 1], ids[|ids| - 1];
      KnownSkillsFromCatalog(frags, prefix);
      LookupMapSpec(frags, last);
      assert forall id :: id in prefix ==> id in ids;
      if last in LookupMap(frags) {
        var i :| 0 <= i < |frags| && frags[i] == LookupMap(frags)[last]
                 && forall j :: i < j < |frags| ==> frags[j].key != last;
        assert KnownSkills(LookupMap(frags), ids) == KnownSkills(LookupMap(frags), prefix) + [frags[i]];
      }
    }
  }

  /** When every returned key names a candidate, the result has one skill per key, in returned order. */
  lemma {:induction false} KnownSkillsAllKnown(frags: seq<Skill>, ids: seq<string>)
    requires forall id :: id in ids ==> exists f :: f in frags && f.key == id
    ensures |KnownSkills(LookupMap(frags), ids)| == |ids|
    ensures forall i :: 0 <= i < |ids| ==> KnownSkills(LookupMap(frags), ids)[i].key == ids[i]
  {
    if ids != [] {
      var prefix, last := ids[..|ids| - 1], ids[|ids| - 1];
      assert forall id :: id in prefix ==> id in ids;
      KnownSkillsAllKnown(frags, prefix);
      LookupMapSpec(frags, last);
      assert last in ids;
      var f :| f in frags && f.key == last;
      var k :| 0 <= k < |frags| && frags[k] == f;
      assert last in LookupMap(frags);
    }
  }

  /** Keys are looked up one by one: the skills kept for `a + b` are those kept for `a`, then for `b`. */
  lemma {:induction false} KnownSkillsAppend(lookup: map<string, Skill>, a: seq<string>, b: seq<string>)
    ensures KnownSkills(lookup, a + b) == KnownSkills(lookup, a) + KnownSkills(lookup, b)
  {
    if b == [] {
      assert a + b == a;
    } else {
      assert (a + b)[..|a + b| - 1] == a + b[..|b| - 1];
      KnownSkillsAppend(lookup, a, b[..|b| - 1]);
    }
  }

  /** Keys that name no candidate keep nothing. */
  lemma {:induction false} KnownSkillsOfUnknown(frags: seq<Skill>, unknown: seq<string>)
    requires forall id, f :: id in unknown && f in frags ==> f.key != id
    ensures KnownSkills(LookupMap(frags), unknown) == []
  {
    if unknown != [] {
      var prefix, last := unknown[..|unknown| - 1], unknown[|unknown| - 1];
      assert forall id :: id in prefix ==> id in unknown;
      KnownSkillsOfUnknown(frags, prefix);
      LookupMapSpec(frags, last);
      assert last in unknown;
    }
  }

  /** Keys that name no candidate are dropped silently, wherever the model returns them. */
  lemma KnownSkillsDropsUnknown(frags: seq<Skill>, a: seq<string>, unknown: seq<string>, b: seq<string>)
    requires forall id, f :: id in unknown && f in frags ==> f.key != id
    ensures KnownSkills(LookupMap(frags), a + unknown + b) == KnownSkills(LookupMap(frags), a + b)
  {
    var lookup := LookupMap(frags);
    KnownSkillsAppend(lookup, a + unknown, b);
    KnownSkillsAppend(lookup, a, unknown);
    KnownSkillsAppend(lookup, a, b);
    KnownSkillsOfUnknown(frags, unknown);
    assert KnownSkills(lookup, a) + [] == KnownSkills(lookup, a);
  }

  /** A key returned twice yields the skill twice: the output is not always a sub-multiset. */
  lemma RepeatedKeyRepeatsSkill(f: Skill)
    ensures KnownSkills(LookupMap([f]), [f.key, f.key]) == [f, f]
  {
    var lookup := LookupMap([f]);
    assert lookup == map[f.key := f];
    assert [f.key, f.key][..1] == [f.key];
    assert [f.key][..0] == [];
    assert KnownSkills(lookup, [f.key]) == [f];
  }

  /** The filtering loops of the model-backed `SelectSkills`. */
  method KeepKnownSkills(frags: seq<Skill>, ids: seq<string>) returns (relevant: seq<Skill>)
    ensures relevant == KnownSkills(LookupMap(frags), ids)
  {
    var lookup: map<string, Skill> := map[];
    for i := 0 to |frags|
      invariant lookup == LookupMap(frags[..i])
    {
      assert frags[..i + 1][..i] == frags[..i];
      lookup := lookup[frags[i].key := frags[i]];
    }
    assert frags[..|frags|] == frags;
    relevant := [];
    for j := 0 to |ids|
      invariant relevant == KnownSkills(lookup, ids[..j])
    {
      assert ids[..j + 1][..j] == ids[..j];
      if ids[j] in lookup {
        relevant := relevant + [lookup[ids[j]]];
      }
    }
    assert ids[..|ids|] == ids;
  }

  // ---------------------------------------------------------------------------
  // The anti-repeat decorator

  /** The skills of a list of inserted skills. */
  function SkillSet(skills: seq<InsertedSkill>): set<Skill>
  {
    if skills == [] then {} else SkillSet(skills[..|skills| - 1]) + {skills[|skills| - 1].skill}
  }

  /** The skills a message shows: those of a skill message, none otherwise. */
  function ShownBy(m: Message): set<Skill>
  {
    if m.SkillMessage? then SkillSet(m.skills) else {}
  }

  function ShownIn(h: seq<Message>): set<Skill>
  {
    if h == [] then {} else ShownBy(h[0]) + ShownIn(h[1..])
  }

  /** The skills shown in the last `n` messages (messages of any kind count towards `n`). */
  function RecentlyShown(h: seq<Message>, n: int): set<Skill>
  {
    if n <= 0 then {} else if n >= |h| then ShownIn(h) else ShownIn(h[|h| - n..])
  }

  /** The candidates that are not in `x`, in their order (`slices.DeleteFunc` with equality). */
  function Without(s: seq<Skill>, x: set<Skill>): seq<Skill>
  {
    if s == [] then [] else (if s[0] in x then [] else [s[0]]) + Without(s[1..], x)
  }

  /** `Without` keeps exactly the elements outside `x`, and keeps their order. */
  lemma {:induction false} WithoutSpec(s: seq<Skill>, x: set<Skill>)
    ensures forall y :: y in Without(s, x) <==> y in s && y !in x
    ensures |Without(s, x)| <= |s|
    ensures (forall y :: y in s ==> y !in x) ==> Without(s, x) == s
  {
    if s != [] {
      WithoutSpec(s[1..], x);
      assert s == [s[0]] + s[1..];
    }
  }

  lemma {:induction false} WithoutAppend(a: seq<Skill>, b: seq<Skill>, x: set<Skill>)
    ensures Without(a + b, x) == Without(a, x) + Without(b, x)
  {
    if a != [] {
      assert (a + b)[1..] == a[1..] + b;
      WithoutAppend(a[1..], b, x);
    } else {
      assert a + b == b;
    }
  }

  lemma {:induction false} WithoutTwice(s: seq<Skill>, x: set<Skill>, y: set<Skill>)
    ensures Without(Without(s, x), y) == Without(s, x + y)
  {
    if s != [] {
      WithoutTwice(s[1..], x, y);
      var head := if s[0] in x then [] else [s[0]];
      WithoutAppend(head, Without(s[1..], x), y);
      if s[0] !in x {
        assert Without(head, y) == (if s[0] in y then [] else [s[0]]) + Without([], y);
      }
    }
  }

  /** The inner loop of the decorator: delete every skill of one skill message. */
  method DeleteShown(allowed: seq<Skill>, skills: seq<InsertedSkill>) returns (r: seq<Skill>)
    ensures r == Without(allowed, SkillSet(skills))
  {
    r := allowed;
    WithoutSpec(allowed, {});
    for k := 0 to |skills|
      invariant r == Without(allowed, SkillSet(skills[..k]))
    {
      assert skills[..k + 1][..k] == skills[..k];
      WithoutTwice(allowed, SkillSet(skills[..k]), {skills[k].skill});
      r := Without(r, {skills[k].skill});
    }
    assert skills[..|skills|] == skills;
  }

  /**
   * The anti-repeat decorator's loop: walk back over the last `n` messages
   * and delete from a copy of the catalog every skill of a skill message.
   */
  method AllowedCandidates(n: int, frags: seq<Skill>, h: seq<Message>) returns (allowed: seq<Skill>)
    ensures allowed == Without(frags, RecentlyShown(h, n))
  {
    ghost var lo := WindowStart(h, n);
    RecentlyShownWindow(h, n);
    allowed := frags;
    var i := |h| - 1;
    ghost var shown: set<Skill> := {};
    assert h[i + 1..] == [];
    WithoutSpec(frags, {});
    while i >= 0 && |h| - 1 - i < n
      invariant lo - 1 <= i < |h|
      invariant shown == ShownIn(h[i + 1..])
      invariant allowed == Without(frags, shown)
    {
      ShownInStep(h, i);
      if h[i].SkillMessage? {
        WithoutTwice(frags, shown, ShownBy(h[i]));
        allowed := DeleteShown(allowed, h[i].skills);
      } else {
        assert shown + ShownBy(h[i]) == shown;
      }
      shown := shown + ShownBy(h[i]);
      i := i - 1;
    }
    assert i + 1 == lo;
  }

  /** Where the window of the last `n` messages starts. */
  function WindowStart(h: seq<Message>, n: int): (lo: nat)
    ensures lo <= |h|
  {
    if n <= 0 then |h| else if n >= |h| then 0 else |h| - n
  }

  lemma RecentlyShownWindow(h: seq<Message>, n: int)
    ensures RecentlyShown(h, n) == ShownIn(h[WindowStart(h, n)..])
  {
    if n <= 0 {
      assert h[|h|..] == [];
    } else if n >= |h| {
      assert h[0..] == h;
    }
  }

  lemma ShownInStep(h: seq<Message>, i: int)
    requires 0 <= i < |h|
    ensures ShownIn(h[i..]) == ShownIn(h[i + 1..]) + ShownBy(h[i])
  {
    assert h[i..][1..] == h[i + 1..];
  }

  /** A skill message further back than `n` messages never excludes anything. */
  lemma OnlyLastNMessagesCount(older: seq<Message>, recent: seq<Message>, n: int)
    requires |recent| >= n
    ensures RecentlyShown(older + recent, n) == RecentlyShown(recent, n)
  {
    if 0 < n {
      assert (older + recent)[|older + recent| - n..] == recent[|recent| - n..];
      if n == |recent| {
        assert recent[|recent| - n..] == recent;
      }
    }
  }

  // ---------------------------------------------------------------------------
  // Selection

  /** What `SelectSkills` of each strategy returns for a catalog and a history. */
  function Select(sel: SkillSelector, frags: seq<Skill>, h: seq<Message>): Result<seq<Skill>, string>
    decreases sel
  {
    match sel
    case NoSkillSelector => Success([])
    case ConversationLlmSkillSelector(model) =>
      (match model(SelectorPrompt(frags, h))
       case Failure(e) => Failure(e)
       case Success(ids) => Success(KnownSkills(LookupMap(frags), ids)))
    case DontRepeatInNSelector(n, inner) => Select(inner, Without(frags, RecentlyShown(h, n)), h)
  }

  /** A selector over a fixed catalog, as a function of the history. */
  type Selection = seq<Message> -> Result<seq<Skill>, string>

  function Selecting(sel: SkillSelector, frags: seq<Skill>): Selection
  {
    h => Select(sel, frags, h)
  }

  /** The no-op selector always returns nothing and never fails. */
  lemma NoSelectorSelectsNothing(frags: seq<Skill>, h: seq<Message>)
    ensures Select(NewSkillSelector(None, 0), frags, h) == Success([])
  {
  }

  /** Whatever any selector returns is drawn from the catalog it was given. */
  lemma {:induction false} SelectedFromCatalog(sel: SkillSelector, frags: seq<Skill>, h: seq<Message>)
    ensures Select(sel, frags, h).Success? ==> forall s :: s in Select(sel, frags, h).value ==> s in frags
    decreases sel
  {
    match sel
    case NoSkillSelector =>
    case ConversationLlmSkillSelector(model) =>
      if model(SelectorPrompt(frags, h)).Success? {
        KnownSkillsFromCatalog(frags, model(SelectorPrompt(frags, h)).value);
      }
    case DontRepeatInNSelector(n, inner) =>
      SelectedFromCatalog(inner, Without(frags, RecentlyShown(h, n)), h);
      WithoutSpec(frags, RecentlyShown(h, n));
  }

  /** The decorator never lets through a skill shown in the last `n` messages. */
  lemma AntiRepeatExcludesRecent(n: int, inner: SkillSelector, frags: seq<Skill>, h: seq<Message>)
    ensures var r := Select(DontRepeatInNSelector(n, inner), frags, h);
            r.Success? ==> forall s :: s in r.value ==> s in frags && s !in RecentlyShown(h, n)
  {
    SelectedFromCatalog(inner, Without(frags, RecentlyShown(h, n)), h);
    WithoutSpec(frags, RecentlyShown(h, n));
  }

  /** `SelectSkills`, dispatched on the strategy. */
  method SelectSkills(sel: SkillSelector, frags: seq<Skill>, h: seq<Message>) returns (r: Result<seq<Skill>, string>)
    ensures r == Select(sel, frags, h)
    ensures r.Success? ==> forall s :: s in r.value ==> s in frags
    decreases sel
  {
    match sel {
      case NoSkillSelector =>
        r := Success([]);
      case ConversationLlmSkillSelector(model) =>
        var prompt := BuildSelectorPrompt(frags, h);
        match model(prompt) {
          case Failure(e) =>
            r := Failure(e);
          case Success(ids) =>
            var relevant := KeepKnownSkills(frags, ids);
            r := Success(relevant);
        }
      case DontRepeatInNSelector(n, inner) =>
        var allowed := AllowedCandidates(n, frags, h);
        r := SelectSkills(inner, allowed, h);
    }
    SelectedFromCatalog(sel, frags, h);
  }
}
