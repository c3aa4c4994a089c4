/** The Tool Resolver: tool descriptors, the name-to-tool registry built from
    them, lookup, and resolution of wrapped callables. */
module ToolRegistry {
  import opened Values

  /** A value that can stand in the `tools` list or in a `tool_map`:
      - `NoneTool`: Python `None`;
      - `DictTool`: a mapping descriptor such as `{"function": {"name": ...}}`;
        a dict is never callable;
      - `ObjTool`: any other object, identified by `id`, which may be callable,
        may carry `name` and `__name__` attributes (`funcName`), and may carry
        a `__wrapped__` attribute. */
  datatype ToolValue =
    | NoneTool
    | DictTool(fields: Dict)
    | ObjTool(id: nat, callable: bool, name: Option<string>, funcName: Option<string>,
              wrapped: Option<ToolValue>)

  /** Python `callable(v)`. */
  predicate IsCallable(v: ToolValue) {
    v.ObjTool? && v.callable
  }

  /** The `name` key of a descriptor's `function` mapping, when it is a string. */
  function DescriptorName(fields: Dict): (n: Option<string>)
    ensures n.Some? ==> "function" in fields && fields["function"].JObj? && "name" in fields["function"].fields
                        && fields["function"].fields["name"] == JStr(n.value)
    ensures "function" in fields && fields["function"].JObj? && "name" in fields["function"].fields
            && fields["function"].fields["name"].JStr?
            ==> n == Some(fields["function"].fields["name"].s)
  {
    var fn := if "function" in fields && Truthy(fields["function"]) then fields["function"] else JObj(map[]);
    if fn.JObj? && "name" in fn.fields && fn.fields["name"].JStr? then Some(fn.fields["name"].s) else None
  }

  /** `_infer_tool_name`: a mapping descriptor is named by `function.name`;
      any other object by its `name` attribute, or else its `__name__`. */
  function InferToolName(t: ToolValue): (n: Option<string>)
    ensures t.NoneTool? ==> n.None?
    ensures t.DictTool? ==> n == DescriptorName(t.fields)
    ensures t.ObjTool? && IsName(t.name) ==> n == t.name
    ensures t.ObjTool? && !IsName(t.name) ==> n == t.funcName
  {
    match t
    case NoneTool => None
    case DictTool(fields) => DescriptorName(fields)
    case ObjTool(_, _, name, funcName, _) => if IsName(name) then name else funcName
  }

  /** The descriptor `t` is registered under `n`: its inferred name is `n`
      and `n` is truthy. */
  predicate Registers(t: ToolValue, n: string) {
    InferToolName(t) == Some(n) && n != ""
  }

  /** The registry the loop of the driver builds from a descriptor list:
      each descriptor with a truthy inferred name is inserted in list order,
      so a later duplicate overwrites an earlier one. */
  function RegistryOf(tools: seq<ToolValue>): map<string, ToolValue>
  {
    if tools == [] then map[]
    else
      var reg := RegistryOf(tools[..|tools| - 1]);
      var t := tools[|tools| - 1];
      var name := InferToolName(t);
      if IsName(name) then reg[name.value := t] else reg
  }

  /** The registry-building loop. */
  method BuildRegistry(tools: seq<ToolValue>) returns (reg: map<string, ToolValue>)
    ensures reg == RegistryOf(tools)
  {
    reg := map[];
    for i := 0 to |tools|
      invariant reg == RegistryOf(tools[..i])
    {
      assert tools[..i + 1][..i] == tools[..i];
      var name := InferToolName(tools[i]);
      if IsName(name) {
        reg := reg[name.value := tools[i]];
      }
    }
    assert tools[..|tools|] == tools;
  }

  /** The registry the turn loop consults: an explicit `tool_map` as given;
      otherwise one built from a non-empty `tools` list; otherwise none. */
  function InitialRegistry(tools: Option<seq<ToolValue>>, toolMap: Option<map<string, ToolValue>>)
    : (reg: Option<map<string, ToolValue>>)
    ensures toolMap.Some? ==> reg == toolMap
    ensures toolMap.None? && (tools.None? || tools.value == []) ==> reg.None?
    ensures toolMap.None? && tools.Some? && tools.value != [] ==> reg == Some(RegistryOf(tools.value))
  {
    if toolMap.None? && tools.Some? && tools.value != [] then Some(RegistryOf(tools.value)) else toolMap
  }

  /** `tool_map.get(tool_name) if tool_map else None`. */
  function Lookup(reg: Option<map<string, ToolValue>>, name: Option<string>): (v: ToolValue)
    ensures v != NoneTool ==> reg.Some? && name.Some? && name.value in reg.value && v == reg.value[name.value]
    ensures reg.Some? && name.Some? && name.value in reg.value ==> v == reg.value[name.value]
  {
    if reg.None? || reg.value == map[] then NoneTool
    else
      match name
      case None => NoneTool
      case Some(n) => if n in reg.value then reg.value[n] else NoneTool
  }

  /** `_resolve_callable`: the `__wrapped__` original when it is callable,
      otherwise the entry itself. A callable entry resolves to a callable. */
  function ResolveCallable(fn: ToolValue): (r: ToolValue)
    ensures IsCallable(fn) ==> IsCallable(r)
    ensures r == fn || (fn.ObjTool? && fn.wrapped == Some(r) && IsCallable(r))
    ensures fn.ObjTool? && fn.wrapped.Some? && IsCallable(fn.wrapped.value) ==> r == fn.wrapped.value
  {
    match fn
    case ObjTool(_, _, _, _, Some(w)) => if IsCallable(w) then w else fn
    case _ => fn
  }

  /** Every key of the registry is the truthy inferred name of some
      descriptor, and every such name is a key. */
  lemma {:induction false} RegistryKeys(tools: seq<ToolValue>, n: string)
    ensures n in RegistryOf(tools) <==> exists i :: 0 <= i < |tools| && Registers(tools[i], n)
  {
    if tools != [] {
      var init := tools[..|tools| - 1];
      RegistryKeys(init, n);
      if exists i :: 0 <= i < |init| && Registers(init[i], n) {
        var i :| 0 <= i < |init| && Registers(init[i], n);
        assert Registers(tools[i], n);
      }
      if exists i :: 0 <= i < |tools| && Registers(tools[i], n) {
        var i :| 0 <= i < |tools| && Registers(tools[i], n);
        if i < |init| {
          assert Registers(init[i], n);
        }
      }
    }
  }

  /** A registered name maps to the LAST descriptor that registers it. */
  lemma {:induction false} RegistryLastWins(tools: seq<ToolValue>, n: string)
    requires n in RegistryOf(tools)
    ensures exists i :: 0 <= i < |tools| && Registers(tools[i], n) && RegistryOf(tools)[n] == tools[i]
                        && forall j :: i < j < |tools| ==> !Registers(tools[j], n)
  {
    var init := tools[..|tools| - 1];
    var last := |tools| - 1;
    if Registers(tools[last], n) {
      assert RegistryOf(tools)[n] == tools[last];
    } else {
      assert n in RegistryOf(init);
      RegistryLastWins(init, n);
      var i :| 0 <= i < |init| && Registers(init[i], n) && RegistryOf(init)[n] == init[i]
                && forall j :: i < j < |init| ==> !Registers(init[j], n);
      assert tools[i] == init[i];
      forall j | i < j < |tools|
        ensures !Registers(tools[j], n)
      {
        if j < |init| {
          assert tools[j] == init[j];
        }
      }
    }
  }

  /** With neither a non-empty `tools` list nor a `tool_map`, every lookup misses. */
  lemma NoRegistryEveryLookupMisses(tools: Option<seq<ToolValue>>, name: Option<string>)
    requires tools.None? || tools.value == []
    ensures Lookup(InitialRegistry(tools, None), name) == NoneTool
  {
  }

  /** A registry inferred from mapping descriptors alone holds no callable,
      so every call through it is reported as not found. */
  lemma SchemaDescriptorsAreNeverCallable(tools: seq<ToolValue>, name: Option<string>)
    requires forall i :: 0 <= i < |tools| ==> tools[i].DictTool?
    ensures !IsCallable(Lookup(InitialRegistry(Some(tools), None), name))
  {
    var reg := InitialRegistry(Some(tools), None);
    var v := Lookup(reg, name);
    if v != NoneTool {
      RegistryLastWins(tools, name.value);
    }
  }

  /** A mapping descriptor that is the last in the list to register a name
      is what the registry holds for it, whatever callable registered that
      name earlier, so calls to that name find no callable. */
  lemma LaterSchemaShadowsCallable(tools: seq<ToolValue>, j: nat, name: string)
    requires j < |tools| && tools[j].DictTool? && Registers(tools[j], name)
    requires forall k :: j < k < |tools| ==> !Registers(tools[k], name)
    ensures var fn := Lookup(InitialRegistry(Some(tools), None), Some(name));
            fn == tools[j] && !IsCallable(fn)
  {
    RegistryKeys(tools, name);
    RegistryLastWins(tools, name);
    var i :| 0 <= i < |tools| && Registers(tools[i], name) && RegistryOf(tools)[name] == tools[i]
              && forall k :: i < k < |tools| ==> !Registers(tools[k], name);
    assert Registers(tools[j], name) && Registers(tools[i], name);
  }

  /** Registering tools by inferred names gives the same registry as an
      explicit map from those names, when the names are truthy and distinct. */
  lemma ExplicitMapMatchesInferredNames(tools: seq<ToolValue>, names: seq<string>, m: map<string, ToolValue>)
    requires |names| == |tools|
    requires forall i :: 0 <= i < |tools| ==> Registers(tools[i], names[i])
    requires forall i, j :: 0 <= i < j < |names| ==> names[i] != names[j]
    requires forall n :: n in m <==> n in names
    requires forall i :: 0 <= i < |tools| ==> names[i] in m && m[names[i]] == tools[i]
    ensures RegistryOf(tools) == m
  {
    SameKeys(tools, names, m);
    SameValues(tools, names, m);
  }

  /** The keys of `ExplicitMapMatchesInferredNames`. */
  lemma SameKeys(tools: seq<ToolValue>, names: seq<string>, m: map<string, ToolValue>)
    requires |names| == |tools|
    requires forall i :: 0 <= i < |tools| ==> Registers(tools[i], names[i])
    requires forall n :: n in m <==> n in names
    ensures RegistryOf(tools).Keys == m.Keys
  {
    forall n
      ensures n in RegistryOf(tools) <==> n in m
    {
      RegistryKeys(tools, n);
      if n in m {
        var i :| 0 <= i < |names| && names[i] == n;
        assert Registers(tools[i], n);
      }
      if n in RegistryOf(tools) {
        var i :| 0 <= i < |tools| && Registers(tools[i], n);
        assert Registers(tools[i], names[i]);
      }
    }
  }

  /** The values of `ExplicitMapMatchesInferredNames`. */
  lemma SameValues(tools: seq<ToolValue>, names: seq<string>, m: map<string, ToolValue>)
    requires |names| == |tools|
    requires forall i :: 0 <= i < |tools| ==> Registers(tools[i], names[i])
    requires forall i :: 0 <= i < |tools| ==> names[i] in m && m[names[i]] == tools[i]
    requires RegistryOf(tools).Keys == m.Keys
    ensures forall n :: n in m ==> RegistryOf(tools)[n] == m[n]
  {
    forall n | n in m
      ensures RegistryOf(tools)[n] == m[n]
    {
      RegistryLastWins(tools, n);
      var i :| 0 <= i < |tools| && Registers(tools[i], n) && RegistryOf(tools)[n] == tools[i];
      assert Registers(tools[i], names[i]);
    }
  }
}
