/**
 * Tools (tool.go, utils.go): a tool is a name, description lines and a call
 * that answers with text or fails; `GetToolDefs` lists the serialisable view
 * of the tool set, and `ToolsHaveChanged` compares the tool names recorded by
 * the last tool-definitions message of a history with the current ones.
 */
module Tools {
  import opened Wrappers
  import opened Messages

  /** The error a tool call fails with; `message` is its `%v` text. */
  datatype ToolError = ToolError(message: string)

  /**
   * A tool.  Its body is outside the model: `call` maps the decoded
   * arguments to the tool's answer or error.
   */
  datatype Tool = Tool(name: string, description: seq<string>, call: map<string, ArgValue> -> Result<string, ToolError>)

  /** The names of the tools, in order. */
  function ToolNames(tools: seq<Tool>): seq<string>
  {
    seq(|tools|, i requires 0 <= i < |tools| => tools[i].name)
  }

  /** The definitions announcing a tool set. */
  function ToolDefs(tools: seq<Tool>): seq<AvailableToolDefinition>
  {
    seq(|tools|, i requires 0 <= i < |tools| => AvailableToolDefinition(tools[i].name, tools[i].description))
  }

  /** `getToolDefs`: one definition per tool, in order, copying name and description. */
  method GetToolDefs(tools: seq<Tool>) returns (defs: seq<AvailableToolDefinition>)
    ensures defs == ToolDefs(tools)
    ensures |defs| == |tools|
    ensures forall i :: 0 <= i < |tools| ==> defs[i].name == tools[i].name && defs[i].description == tools[i].description
  {
    defs := [];
    for i := 0 to |tools|
      invariant |defs| == i
      invariant forall j :: 0 <= j < i ==> defs[j] == AvailableToolDefinition(tools[j].name, tools[j].description)
    {
      defs := defs + [AvailableToolDefinition(tools[i].name, tools[i].description)];
    }
  }

  /** The tool list of the last tool-definitions message, if there is one. */
  function LastToolDefs(h: seq<Message>): (r: Option<seq<AvailableToolDefinition>>)
    ensures r.None? <==> forall m :: m in h ==> !m.ToolsMessage?
    ensures r.Some? ==> ToolsMessage(r.value) in h
  {
    if h == [] then None
    else if h[|h| - 1].ToolsMessage? then Some(h[|h| - 1].tools)
    else (assert forall m :: m in h ==> m in h[..|h| - 1] || m == h[|h| - 1];
          LastToolDefs(h[..|h| - 1]))
  }

  /**
   * The recorded definitions differ from the current names: the counts
   * differ, or a recorded name is not among the current names.
   * Descriptions play no part.
   */
  predicate NamesDiffer(recorded: seq<AvailableToolDefinition>, names: seq<string>)
  {
    |names| != |recorded| || exists i :: 0 <= i < |recorded| && recorded[i].name !in names
  }

  /** What `toolsHaveChanged` answers for a history and the current tools. */
  predicate ToolsChanged(h: seq<Message>, tools: seq<Tool>)
  {
    LastToolDefs(h).None? || NamesDiffer(LastToolDefs(h).value, ToolNames(tools))
  }

  /** `toolsHaveChanged`: find the last definitions message, then compare names. */
  method ToolsHaveChanged(h: seq<Message>, tools: seq<Tool>) returns (changed: bool)
    ensures changed == ToolsChanged(h, tools)
  {
    var last: Option<seq<AvailableToolDefinition>> := None;
    for i := 0 to |h|
      invariant last == LastToolDefs(h[..i])
    {
      assert h[..i + 1][..i] == h[..i];
      if h[i].ToolsMessage? {
        last := Some(h[i].tools);
      }
    }
    assert h[..|h|] == h;
    if last.None? {
      return true;
    }
    var names: seq<string> := [];
    for i := 0 to |tools|
      invariant |names| == i
      invariant forall j :: 0 <= j < i ==> names[j] == tools[j].name
    {
      names := names + [tools[i].name];
    }
    assert names == ToolNames(tools);
    if |names| != |last.value| {
      return true;
    }
    for i := 0 to |last.value|
      invariant forall j :: 0 <= j < i ==> last.value[j].name in names
    {
      if last.value[i].name !in names {
        return true;
      }
    }
    return false;
  }

  /** With no tool-definitions message in history, the tools always count as changed. */
  lemma NoDefinitionsMeansChanged(h: seq<Message>, tools: seq<Tool>)
    requires forall m :: m in h ==> !m.ToolsMessage?
    ensures ToolsChanged(h, tools)
  {
  }

  /** Messages that are not tool-definitions messages do not change the last definitions. */
  lemma {:induction false} LastToolDefsSkips(h: seq<Message>, later: seq<Message>)
    requires forall m :: m in later ==> !m.ToolsMessage?
    ensures LastToolDefs(h + later) == LastToolDefs(h)
  {
    if later == [] {
      assert h + later == h;
    } else {
      var prefix := later[..|later| - 1];
      assert forall m :: m in prefix ==> m in later;
      assert later[|later| - 1] in later;
      assert (h + later)[..|h + later| - 1] == h + prefix;
      LastToolDefsSkips(h, prefix);
    }
  }

  /** Only the last tool-definitions message is compared; earlier ones are ignored. */
  lemma OnlyLastDefinitionsCount(h: seq<Message>, defs: seq<AvailableToolDefinition>, later: seq<Message>, tools: seq<Tool>)
    requires forall m :: m in later ==> !m.ToolsMessage?
    ensures LastToolDefs(h + [ToolsMessage(defs)] + later) == Some(defs)
    ensures ToolsChanged(h + [ToolsMessage(defs)] + later, tools) == NamesDiffer(defs, ToolNames(tools))
  {
    LastToolDefsSkips(h + [ToolsMessage(defs)], later);
  }

  /** Once the definitions of the current tools are announced, the tools no longer count as changed. */
  lemma AnnouncedToolsUnchanged(h: seq<Message>, tools: seq<Tool>, defs: seq<AvailableToolDefinition>)
    requires |defs| == |tools|
    requires forall i :: 0 <= i < |tools| ==> defs[i].name == tools[i].name && defs[i].description == tools[i].description
    ensures !ToolsChanged(h + [ToolsMessage(defs)], tools)
  {
    OnlyLastDefinitionsCount(h, defs, [], tools);
    assert h + [ToolsMessage(defs)] + [] == h + [ToolsMessage(defs)];
    forall i | 0 <= i < |defs|
      ensures defs[i].name in ToolNames(tools)
    {
      assert ToolNames(tools)[i] == defs[i].name;
    }
  }

  /** With duplicate names the comparison is not set equality: recorded [a, a] matches current [a, b]. */
  lemma DuplicateNamesHideChange(a: string, b: string, da: seq<string>, db: seq<string>)
    requires a != b
    ensures !NamesDiffer([AvailableToolDefinition(a, da), AvailableToolDefinition(a, da)], [a, b])
    ensures {a, b} != {a}
  {
    assert b in {a, b};
  }

  /** The set of names of a list. */
  function NameSet(names: seq<string>): set<string>
  {
    set i | 0 <= i < |names| :: names[i]
  }

  /** The names of a list with no repeated entry. */
  predicate Distinct(names: seq<string>)
  {
    forall i, j :: 0 <= i < j < |names| ==> names[i] != names[j]
  }

  lemma {:induction false} DistinctNameSetSize(names: seq<string>)
    requires Distinct(names)
    ensures |NameSet(names)| == |names|
  {
    if names != [] {
      var prefix := names[..|names| - 1];
      DistinctNameSetSize(prefix);
      assert NameSet(names) == NameSet(prefix) + {names[|names| - 1]};
      assert names[|names| - 1] !in NameSet(prefix);
    }
  }

  /** The names of a list of definitions, in order. */
  function DefinitionNames(defs: seq<AvailableToolDefinition>): seq<string>
  {
    seq(|defs|, i requires 0 <= i < |defs| => defs[i].name)
  }

  lemma SubsetOfSameSize(a: set<string>, b: set<string>)
    requires a <= b && |a| == |b|
    ensures a == b
  {
    var d := b - a;
    assert a * d == {};
    assert b == a + d;
    assert |d| == 0;
  }

  /**
   * When neither list repeats a name, the comparison is set equality:
   * unchanged exactly when the recorded names and the current ones are the same set.
   */
  lemma NamesDifferIsSetInequalityWhenDistinct(recorded: seq<AvailableToolDefinition>, names: seq<string>)
    requires Distinct(names) && Distinct(DefinitionNames(recorded))
    ensures !NamesDiffer(recorded, names) <==> NameSet(DefinitionNames(recorded)) == NameSet(names)
  {
    var rnames := DefinitionNames(recorded);
    DistinctNameSetSize(names);
    DistinctNameSetSize(rnames);
    if !NamesDiffer(recorded, names) {
      assert NameSet(rnames) <= NameSet(names) by {
        forall x | x in NameSet(rnames) ensures x in NameSet(names) {
          var i :| 0 <= i < |rnames| && rnames[i] == x;
          assert recorded[i].name in names;
          var j :| 0 <= j < |names| && names[j] == x;
        }
      }
      SubsetOfSameSize(NameSet(rnames), NameSet(names));
    } else if |names| != |recorded| {
      assert |NameSet(rnames)| != |NameSet(names)|;
    } else {
      var i :| 0 <= i < |recorded| && recorded[i].name !in names;
      assert rnames[i] in NameSet(rnames);
      assert rnames[i] !in NameSet(names);
    }
  }
}
