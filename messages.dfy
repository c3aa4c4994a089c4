/** The Message Normalizer: the shapes an assistant message and a tool-call
    request can take, and how the loop reads them. */
module Messages {
  import opened Values

  /** The `function` part of a requested tool call. A mapping and an object
      with attributes are read the same way (`name`, `arguments`), so one
      record covers both; a missing `arguments` is `JNull`. */
  datatype FunctionPart = FunctionPart(name: Option<string>, arguments: Json)

  /** A requested tool call. `fn` (its `function`) is `None` when the request has no
      `function` attribute or key, or when it is `None`. */
  datatype ToolCall = ToolCall(fn: Option<FunctionPart>)

  /** The assistant message of a backend response, as a closed set of shapes:
      - `Structured`: an object with a `model_dump` operation; `dump` is what
        `model_dump(exclude_none=True)` produces;
      - `Mapping`: a plain dict (which has no `tool_calls` attribute);
      - `Plain`: any other object, with its `role`, `content` and `tool_calls`
        attributes each present (`Some`) or missing (`None`). */
  datatype AssistantMessage =
    | Structured(dump: Dict, toolCalls: Option<seq<ToolCall>>)
    | Mapping(fields: Dict)
    | Plain(role: Option<Json>, content: Option<Json>, toolCalls: Option<seq<ToolCall>>)

  /** A backend response; only its assistant message is read. */
  datatype ChatResponse = ChatResponse(message: AssistantMessage)

  /** `_to_msg_dict`: the transcript entry for an assistant message. It never
      fails; an unknown shape gets the default role and content. */
  function ToMsgDict(msg: AssistantMessage): (d: Dict)
    ensures msg.Structured? ==> d == msg.dump
    ensures msg.Mapping? ==> d == msg.fields
    ensures msg.Plain? ==> d.Keys == {"role", "content"}
    ensures msg.Plain? && msg.role.None? ==> d["role"] == JStr("assistant")
    ensures msg.Plain? && msg.content.None? ==> d["content"] == JStr("")
    ensures msg.Plain? && msg.role.Some? ==> d["role"] == msg.role.value
    ensures msg.Plain? && msg.content.Some? ==> d["content"] == msg.content.value
  {
    match msg
    case Structured(dump, _) => dump
    case Mapping(fields) => fields
    case Plain(role, content, _) =>
      map["role" := role.GetOr(JStr("assistant")), "content" := content.GetOr(JStr(""))]
  }

  /** `getattr(assistant_msg, "tool_calls", None) or []`. A dict has no
      `tool_calls` attribute, so a `Mapping` message never requests tools. */
  function ToolCallsOf(msg: AssistantMessage): (calls: seq<ToolCall>)
    ensures msg.Mapping? ==> calls == []
    ensures !msg.Mapping? && msg.toolCalls.None? ==> calls == []
    ensures !msg.Mapping? && msg.toolCalls.Some? ==> calls == msg.toolCalls.value
  {
    match msg
    case Mapping(_) => []
    case Structured(_, toolCalls) => toolCalls.GetOr([])
    case Plain(_, _, toolCalls) => toolCalls.GetOr([])
  }

  /** True when the message requests at least one tool call. */
  predicate HasToolCalls(msg: AssistantMessage) {
    ToolCallsOf(msg) != []
  }

  /** `_extract_tool_call_parts`: the requested name and arguments; absent or
      falsy arguments become the empty mapping. */
  function ExtractToolCallParts(call: ToolCall): (parts: (Option<string>, Json))
    ensures call.fn.None? ==> parts == (None, JObj(map[]))
    ensures call.fn.Some? ==> parts.0 == call.fn.value.name
    ensures call.fn.Some? && Truthy(call.fn.value.arguments) ==>
              parts.1 == call.fn.value.arguments
    ensures call.fn.Some? && !Truthy(call.fn.value.arguments) ==> parts.1 == JObj(map[])
    ensures !Truthy(parts.1) ==> parts.1 == JObj(map[])
  {
    match call.fn
    case None => (None, JObj(map[]))
    case Some(f) => (f.name, if Truthy(f.arguments) then f.arguments else JObj(map[]))
  }
}
