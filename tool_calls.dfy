/** One requested tool call: lookup, argument decoding, invocation, and the
    `role: tool` transcript entry that records the outcome. */
module ToolCalls {
  import opened Values
  import opened Messages
  import opened ToolRegistry

  /** What invoking a tool produced: `str(result)` when it returned, or the
      text of the exception it raised. */
  datatype ToolOutcome = Returned(text: string) | Raised(message: string)

  /** The parts of the Python runtime the loop relies on but does not
      define: `json.loads` (`None` when it raises) and calling a tool object
      with keyword arguments. */
  datatype Runtime = Runtime(decode: string -> Option<Json>, invoke: (ToolValue, Dict) -> ToolOutcome)

  /** A `role: tool` transcript entry. */
  function ToolDict(content: string, toolName: string): Dict
  {
    map["role" := JStr("tool"), "content" := JStr(content), "tool_name" := JStr(toolName)]
  }

  /** Every entry the loop writes for a tool call has exactly these keys. */
  predicate IsToolEntry(d: Dict) {
    d.Keys == {"role", "content", "tool_name"} && d["role"] == JStr("tool")
    && d["content"].JStr? && d["tool_name"].JStr?
  }

  /** The entry for a name that has no callable in the registry. */
  function NotFoundEntry(name: Option<string>): Dict
  {
    ToolDict("Tool '" + PyStr(name) + "' not found.", if IsName(name) then name.value else "unknown_tool")
  }

  /** The not-found entry quotes the name as `str` renders it (`None` for a
      missing name) but records a falsy name as `unknown_tool`. */
  lemma NotFoundEntryText(name: Option<string>)
    ensures var d := NotFoundEntry(name);
            IsToolEntry(d) && d["content"] == JStr("Tool '" + PyStr(name) + "' not found.")
            && (IsName(name) ==> d["tool_name"] == JStr(name.value))
            && (!IsName(name) ==> d["tool_name"] == JStr("unknown_tool"))
  {
  }

  /** The content recorded when a tool raised. */
  function ExecutionFailed(name: Option<string>, error: string): string {
    "Tool '" + PyStr(name) + "' execution failed: " + error
  }

  /** Textual arguments are decoded; text that does not decode becomes the
      empty mapping. Other arguments pass through unchanged. */
  function DecodeArguments(args: Json, decode: string -> Option<Json>): (r: Json)
    ensures !args.JStr? ==> r == args
    ensures args.JStr? && decode(args.s).None? ==> r == JObj(map[])
    ensures args.JStr? && decode(args.s).Some? ==> r == decode(args.s).value
  {
    if args.JStr? then decode(args.s).GetOr(JObj(map[])) else args
  }

  /** Python's message for `f(**v)` when `v` is not a mapping. */
  function NotMappingMessage(v: Json): string {
    "argument after ** must be a mapping, not "
    + match v
      case JNull => "NoneType"
      case JBool(_) => "bool"
      case JNum(_) => "int"
      case JStr(_) => "str"
      case JArr(_) => "list"
      case JObj(_) => "dict"
  }

  /** `fn(**(args or {}))`: a falsy value calls the tool with no arguments, a
      mapping with its entries; anything else raises before the tool runs. */
  function CallTool(fn: ToolValue, args: Json, rt: Runtime): (o: ToolOutcome)
    ensures !Truthy(args) ==> o == rt.invoke(fn, map[])
    ensures args.JObj? ==> o == rt.invoke(fn, args.fields)
    ensures Truthy(args) && !args.JObj? ==> o == Raised(NotMappingMessage(args))
  {
    var kwargs := if Truthy(args) then args else JObj(map[]);
    if kwargs.JObj? then rt.invoke(fn, kwargs.fields) else Raised(NotMappingMessage(kwargs))
  }

  /** The transcript entry for one requested tool call. */
  function ToolEntry(registry: Option<map<string, ToolValue>>, call: ToolCall, rt: Runtime): Dict
  {
    var (name, args) := ExtractToolCallParts(call);
    var fn := Lookup(registry, name);
    if !IsCallable(fn) then NotFoundEntry(name)
    else
      match CallTool(ResolveCallable(fn), DecodeArguments(args, rt.decode), rt)
      case Returned(text) => ToolDict(text, PyStr(name))
      case Raised(e) => ToolDict(ExecutionFailed(name, e), PyStr(name))
  }

  /** The entries for a turn's tool calls: one per call, in the order the
      backend listed them. */
  function ToolEntries(registry: Option<map<string, ToolValue>>, calls: seq<ToolCall>, rt: Runtime)
    : seq<Dict>
  {
    seq(|calls|, i requires 0 <= i < |calls| => ToolEntry(registry, calls[i], rt))
  }

  /** Whatever a call does (missing tool, undecodable arguments, a raising
      tool) its result is a tool entry: nothing propagates. */
  lemma ToolEntryIsToolEntry(registry: Option<map<string, ToolValue>>, call: ToolCall, rt: Runtime)
    ensures IsToolEntry(ToolEntry(registry, call, rt))
  {
  }

  /** Exactly one tool entry per requested call, the i-th for the i-th call. */
  lemma ToolEntriesOnePerCall(registry: Option<map<string, ToolValue>>, calls: seq<ToolCall>, rt: Runtime)
    ensures |ToolEntries(registry, calls, rt)| == |calls|
    ensures forall i :: 0 <= i < |calls| ==>
              ToolEntries(registry, calls, rt)[i] == ToolEntry(registry, calls[i], rt)
              && IsToolEntry(ToolEntries(registry, calls, rt)[i])
  {
    forall i | 0 <= i < |calls|
      ensures IsToolEntry(ToolEntry(registry, calls[i], rt))
    {
      ToolEntryIsToolEntry(registry, calls[i], rt);
    }
  }

  /** One more call adds its entry at the end. */
  lemma ToolEntriesAppend(registry: Option<map<string, ToolValue>>, calls: seq<ToolCall>, call: ToolCall,
                          rt: Runtime)
    ensures ToolEntries(registry, calls + [call], rt)
            == ToolEntries(registry, calls, rt) + [ToolEntry(registry, call, rt)]
  {
    var l, r := ToolEntries(registry, calls + [call], rt), ToolEntries(registry, calls, rt) + [ToolEntry(registry, call, rt)];
    assert |l| == |r|;
    forall i | 0 <= i < |l|
      ensures l[i] == r[i]
    {
      if i < |calls| {
        assert (calls + [call])[i] == calls[i];
      }
    }
  }

  /** A name with no callable in the registry (absent, `None`, or bound to a
      non-callable) is reported as not found. */
  lemma ToolEntryNotFound(registry: Option<map<string, ToolValue>>, call: ToolCall, rt: Runtime)
    requires !IsCallable(Lookup(registry, ExtractToolCallParts(call).0))
    ensures ToolEntry(registry, call, rt) == NotFoundEntry(ExtractToolCallParts(call).0)
  {
  }

  /** A found tool is invoked on its resolved callable; a return is recorded
      as its text and a raise as an "execution failed" message, both under
      the requested name. */
  lemma ToolEntryFound(registry: Option<map<string, ToolValue>>, call: ToolCall, rt: Runtime)
    requires IsCallable(Lookup(registry, ExtractToolCallParts(call).0))
    ensures var (name, args) := ExtractToolCallParts(call);
            var o := CallTool(ResolveCallable(Lookup(registry, name)), DecodeArguments(args, rt.decode), rt);
            name.Some? && name.value in registry.value
            && ToolEntry(registry, call, rt)["tool_name"] == JStr(name.value)
            && (o.Returned? ==> ToolEntry(registry, call, rt)["content"] == JStr(o.text))
            && (o.Raised? ==> ToolEntry(registry, call, rt)["content"] == JStr(ExecutionFailed(name, o.message)))
  {
  }

  /** Textual arguments that do not decode reach the tool as no arguments. */
  lemma UndecodableArgumentsBecomeEmpty(fn: ToolValue, text: string, rt: Runtime)
    requires rt.decode(text).None?
    ensures CallTool(fn, DecodeArguments(JStr(text), rt.decode), rt) == rt.invoke(fn, map[])
  {
  }

  /** A failure entry names the tool and ends with the exception's text. */
  lemma FailureNamesToolAndError(name: string, error: string)
    ensures var c := ExecutionFailed(Some(name), error);
            c[6..6 + |name|] == name && c[|c| - |error|..] == error
  {
  }
}
