/** The Turn Loop Driver: configuration checks, keyword-argument handling,
    and the loop that alternates backend calls with tool execution. The pure
    functions `Loop` and `Run` specify what the imperative
    `AutomaticFunctionCalling` does. */
module TurnLoop {
  import opened Values
  import opened Messages
  import opened ToolRegistry
  import opened ToolCalls

  /** A keyword argument's value: plain data (a model name, a turn budget,
      `think="low"`, Python `None` as `JNull`, ...), a tool list, or a tool
      map. */
  datatype KwValue =
    | KwJson(json: Json)
    | KwTools(tools: seq<ToolValue>)
    | KwToolMap(toolMap: map<string, ToolValue>)

  /** Python `v is None`: `None` has exactly one encoding, `KwJson(JNull)`. */
  predicate IsNone(v: KwValue) {
    v.KwJson? && v.json.JNull?
  }

  /** The configuration errors raised before any backend call. */
  datatype ConfigError = ModelMissing | ClientNotCallable {
    function Message(): string {
      match this
      case ModelMissing => "model must be specified"
      case ClientNotCallable => "client_fn must be a callable"
    }
  }

  /** One call to the backend, with its named parameters. */
  datatype ChatRequest = ChatRequest(
    model: KwValue,
    tools: Option<seq<ToolValue>>,
    messages: seq<Dict>,
    options: Option<Dict>,
    extra: map<string, KwValue>)

  /** The chat backend; its first argument is the number of earlier calls,
      so it may answer each call differently. */
  type Backend = (nat, ChatRequest) -> ChatResponse

  /** `client_fn`: a callable backend or a non-callable value. */
  datatype Client = ChatClient(backend: Backend) | NotCallable

  /** The keyword names the driver consumes and never forwards. */
  const Reserved: set<string> := {"model", "tools", "messages", "options", "max_turns", "tool_map"}

  /** The documented types of the reserved keyword arguments. */
  predicate WellTypedKwargs(kwargs: map<string, KwValue>) {
    && ("max_turns" in kwargs ==> kwargs["max_turns"].KwJson? && kwargs["max_turns"].json.JNum?)
    && ("tools" in kwargs ==> IsNone(kwargs["tools"]) || kwargs["tools"].KwTools?)
    && ("tool_map" in kwargs ==> IsNone(kwargs["tool_map"]) || kwargs["tool_map"].KwToolMap?)
  }

  /** `kwargs.get(key)`. */
  function KwGet(kwargs: map<string, KwValue>, key: string): (v: KwValue)
    ensures key !in kwargs ==> IsNone(v)
    ensures key in kwargs ==> v == kwargs[key]
  {
    if key in kwargs then kwargs[key] else KwJson(JNull)
  }

  /** `kwargs.get("max_turns", 20)`. */
  function MaxTurns(kwargs: map<string, KwValue>): (n: int)
    requires WellTypedKwargs(kwargs)
    ensures "max_turns" !in kwargs ==> n == 20
    ensures "max_turns" in kwargs ==> n == kwargs["max_turns"].json.n
  {
    if "max_turns" in kwargs then kwargs["max_turns"].json.n else 20
  }

  /** The number of iterations of `range(max_turns)`. */
  function TurnBudget(kwargs: map<string, KwValue>): (n: nat)
    requires WellTypedKwargs(kwargs)
    ensures MaxTurns(kwargs) <= 0 ==> n == 0
    ensures MaxTurns(kwargs) > 0 ==> n == MaxTurns(kwargs)
  {
    if MaxTurns(kwargs) <= 0 then 0 else MaxTurns(kwargs)
  }

  /** `kwargs.get("tools")`. */
  function ToolsArg(kwargs: map<string, KwValue>): (tools: Option<seq<ToolValue>>)
    requires WellTypedKwargs(kwargs)
    ensures tools.Some? <==> "tools" in kwargs && kwargs["tools"].KwTools?
    ensures tools.Some? ==> tools.value == kwargs["tools"].tools
  {
    match KwGet(kwargs, "tools")
    case KwTools(ts) => Some(ts)
    case _ => None
  }

  /** `kwargs.get("tool_map")`. */
  function ToolMapArg(kwargs: map<string, KwValue>): (toolMap: Option<map<string, ToolValue>>)
    requires WellTypedKwargs(kwargs)
    ensures toolMap.Some? <==> "tool_map" in kwargs && kwargs["tool_map"].KwToolMap?
    ensures toolMap.Some? ==> toolMap.value == kwargs["tool_map"].toolMap
  {
    match KwGet(kwargs, "tool_map")
    case KwToolMap(m) => Some(m)
    case _ => None
  }

  /** The keyword arguments forwarded to the backend: the caller's, minus
      the reserved names, with values unchanged. */
  function FilterKwargs(kwargs: map<string, KwValue>): (extra: map<string, KwValue>)
    ensures extra.Keys == kwargs.Keys - Reserved
    ensures forall k :: k in extra ==> extra[k] == kwargs[k]
  {
    map k | k in kwargs && k !in Reserved :: kwargs[k]
  }

  /** Everything a turn depends on, fixed for the whole loop. */
  datatype Env = Env(
    model: KwValue,
    tools: Option<seq<ToolValue>>,
    options: Option<Dict>,
    chatKwargs: map<string, KwValue>,
    registry: Option<map<string, ToolValue>>,
    backend: Backend,
    rt: Runtime)

  /** The request a turn sends, given the transcript so far. */
  function RequestFor(env: Env, transcript: seq<Dict>): (req: ChatRequest)
    ensures req.messages == transcript && req.extra == env.chatKwargs
  {
    ChatRequest(env.model, env.tools, transcript, env.options, env.chatKwargs)
  }

  /** What a turn appends for a response: the normalised assistant message,
      then one tool entry per requested call. */
  function TurnBlock(env: Env, resp: ChatResponse): seq<Dict>
  {
    [ToMsgDict(resp.message)] + ToolEntries(env.registry, ToolCallsOf(resp.message), env.rt)
  }

  /** The blocks of a sequence of turns, in order. */
  function Blocks(env: Env, resps: seq<ChatResponse>): seq<Dict>
  {
    if resps == [] then [] else TurnBlock(env, resps[0]) + Blocks(env, resps[1..])
  }

  /** What the loop returns, with the requests it sent and the responses
      it received. */
  datatype LoopOutcome = LoopOutcome(
    last: Option<ChatResponse>,
    transcript: seq<Dict>,
    requests: seq<ChatRequest>,
    responses: seq<ChatResponse>)

  /** The loop from turn `turn` on, with `left` turns of budget remaining,
      transcript `t` and last response `last`. */
  function Loop(env: Env, turn: nat, left: nat, t: seq<Dict>, last: Option<ChatResponse>): LoopOutcome
    decreases left
  {
    if left == 0 then LoopOutcome(last, t, [], [])
    else
      var req := RequestFor(env, t);
      var resp := env.backend(turn, req);
      var t' := t + TurnBlock(env, resp);
      if !HasToolCalls(resp.message) then LoopOutcome(Some(resp), t', [req], [resp])
      else
        var rest := Loop(env, turn + 1, left - 1, t', Some(resp));
        LoopOutcome(rest.last, rest.transcript, [req] + rest.requests, [resp] + rest.responses)
  }

  /** The environment of a run, once the configuration checks pass. */
  function EnvOf(backend: Backend, options: Option<Dict>, kwargs: map<string, KwValue>, rt: Runtime): (env: Env)
    requires WellTypedKwargs(kwargs)
    ensures env.chatKwargs == FilterKwargs(kwargs)
    ensures env.registry == InitialRegistry(ToolsArg(kwargs), ToolMapArg(kwargs))
  {
    Env(KwGet(kwargs, "model"), ToolsArg(kwargs), options, FilterKwargs(kwargs),
        InitialRegistry(ToolsArg(kwargs), ToolMapArg(kwargs)), backend, rt)
  }

  /** A whole invocation: the configuration checks, then the loop from an
      empty last response. Only a configuration error is an error. */
  function Run(client: Client, messages: seq<Dict>, options: Option<Dict>,
               kwargs: map<string, KwValue>, rt: Runtime): (r: Result<LoopOutcome, ConfigError>)
    requires WellTypedKwargs(kwargs)
    ensures r.Err? <==> IsNone(KwGet(kwargs, "model")) || client.NotCallable?
    ensures IsNone(KwGet(kwargs, "model")) ==> r == Err(ModelMissing)
    ensures !IsNone(KwGet(kwargs, "model")) && client.NotCallable? ==> r == Err(ClientNotCallable)
  {
    if IsNone(KwGet(kwargs, "model")) then Err(ModelMissing)
    else if client.NotCallable? then Err(ClientNotCallable)
    else Ok(Loop(EnvOf(client.backend, options, kwargs, rt), 0, TurnBudget(kwargs), messages, None))
  }

  /** The caller's message list, appended to in place. */
  class Transcript {
    var entries: seq<Dict>

    method Append(d: Dict)
      modifies this
      ensures entries == old(entries) + [d]
    {
      entries := entries + [d];
    }
  }

  /** The body of the inner loop: the entry for one requested tool call. A
      missing tool, undecodable arguments and a raising tool all end in an
      appended entry rather than an error. */
  method AppendToolResult(messages: Transcript, registry: Option<map<string, ToolValue>>,
                          toolCall: ToolCall, rt: Runtime)
    modifies messages
    ensures messages.entries == old(messages.entries) + [ToolEntry(registry, toolCall, rt)]
  {
    var (toolName, toolArgs) := ExtractToolCallParts(toolCall);
    var toolFn := Lookup(registry, toolName);
    if !IsCallable(toolFn) {
      messages.Append(NotFoundEntry(toolName));
      return;
    }
    if toolArgs.JStr? {
      toolArgs := rt.decode(toolArgs.s).GetOr(JObj(map[]));
    }
    var content: string;
    match CallTool(ResolveCallable(toolFn), toolArgs, rt) {
      case Returned(text) => content := text;
      case Raised(e) => content := ExecutionFailed(toolName, e);
    }
    messages.Append(ToolDict(content, PyStr(toolName)));
  }

  /** The inner loop of a turn: one tool entry per requested call, in order.
      No outcome of a call stops the remaining calls. */
  method AppendToolResults(messages: Transcript, registry: Option<map<string, ToolValue>>,
                           toolCalls: seq<ToolCall>, rt: Runtime)
    modifies messages
    ensures messages.entries == old(messages.entries) + ToolEntries(registry, toolCalls, rt)
  {
    for j := 0 to |toolCalls|
      invariant messages.entries == old(messages.entries) + ToolEntries(registry, toolCalls[..j], rt)
    {
      assert toolCalls[..j + 1] == toolCalls[..j] + [toolCalls[j]];
      ToolEntriesAppend(registry, toolCalls[..j], toolCalls[j], rt);
      AppendToolResult(messages, registry, toolCalls[j], rt);
    }
    assert toolCalls[..|toolCalls|] == toolCalls;
  }

  /** The backend call and the appends of one turn. */
  method TakeTurn(env: Env, turn: nat, messages: Transcript)
    returns (response: ChatResponse, ghost request: ChatRequest)
    modifies messages
    ensures request == RequestFor(env, old(messages.entries))
    ensures response == env.backend(turn, request)
    ensures messages.entries == old(messages.entries) + TurnBlock(env, response)
  {
    var req := RequestFor(env, messages.entries);
    request := req;
    response := env.backend(turn, req);
    messages.Append(ToMsgDict(response.message));
    var toolCalls := ToolCallsOf(response.message);
    if toolCalls != [] {
      AppendToolResults(messages, env.registry, toolCalls, env.rt);
    }
  }

  /** After the requests `done`, the loop from turn `turn` with `left` turns
      remaining, transcript `t` and last response `last` ends as `spec` does. */
  ghost predicate Resumes(spec: LoopOutcome, env: Env, done: seq<ChatRequest>, turn: nat, left: nat,
                          t: seq<Dict>, last: Option<ChatResponse>)
  {
    var rest := Loop(env, turn, left, t, last);
    rest.last == spec.last && rest.transcript == spec.transcript && done + rest.requests == spec.requests
  }

  /** One turn moves the loop forward: the state after the turn resumes to
      the same outcome, or the turn was the last one. */
  lemma ResumesAfterTurn(spec: LoopOutcome, env: Env, done: seq<ChatRequest>, turn: nat, left: nat,
                         t: seq<Dict>, last: Option<ChatResponse>)
    requires left > 0
    requires Resumes(spec, env, done, turn, left, t, last)
    ensures var req := RequestFor(env, t);
            var resp := env.backend(turn, req);
            && (HasToolCalls(resp.message) ==>
                  Resumes(spec, env, done + [req], turn + 1, left - 1, t + TurnBlock(env, resp), Some(resp)))
            && (!HasToolCalls(resp.message) ==>
                  spec.last == Some(resp) && spec.transcript == t + TurnBlock(env, resp) && spec.requests == done + [req])
  {
  }

  /** `for _ in range(max_turns)`, with `budget` iterations at most. */
  method RunTurns(env: Env, budget: nat, messages: Transcript)
    returns (lastResponse: Option<ChatResponse>, ghost requests: seq<ChatRequest>)
    modifies messages
    ensures var o := Loop(env, 0, budget, old(messages.entries), None);
            lastResponse == o.last && messages.entries == o.transcript && requests == o.requests
  {
    ghost var spec := Loop(env, 0, budget, messages.entries, None);
    lastResponse := None;
    requests := [];
    var turn := 0;
    while turn < budget
      invariant 0 <= turn <= budget
      invariant Resumes(spec, env, requests, turn, budget - turn, messages.entries, lastResponse)
    {
      ResumesAfterTurn(spec, env, requests, turn, budget - turn, messages.entries, lastResponse);
      var response, request := TakeTurn(env, turn, messages);
      requests := requests + [request];
      lastResponse := Some(response);
      if !HasToolCalls(response.message) {
        return;
      }
      turn := turn + 1;
    }
  }

  /** The driver. On success it returns the last response and the same
      transcript object it was given, now extended; `requests` records the
      backend calls made. */
  method AutomaticFunctionCalling(client: Client, messages: Transcript, options: Option<Dict>,
                                  kwargs: map<string, KwValue>, rt: Runtime)
    returns (r: Result<(Option<ChatResponse>, Transcript), ConfigError>, ghost requests: seq<ChatRequest>)
    requires WellTypedKwargs(kwargs)
    modifies messages
    ensures var spec := Run(client, old(messages.entries), options, kwargs, rt);
            match spec
            case Err(e) => r == Err(e) && messages.entries == old(messages.entries) && requests == []
            case Ok(o) => r == Ok((o.last, messages)) && messages.entries == o.transcript && requests == o.requests
  {
    var model := KwGet(kwargs, "model");
    if IsNone(model) {
      return Err(ModelMissing), [];
    }
    var maxTurns := MaxTurns(kwargs);
    var tools := ToolsArg(kwargs);
    var toolMap := ToolMapArg(kwargs);

    var registry := toolMap;
    if toolMap.None? && tools.Some? && tools.value != [] {
      var built := BuildRegistry(tools.value);
      registry := Some(built);
    }

    if client.NotCallable? {
      return Err(ClientNotCallable), [];
    }

    var chatKwargs := FilterKwargs(kwargs);
    var budget := if maxTurns <= 0 then 0 else maxTurns;
    var env := Env(model, tools, options, chatKwargs, registry, client.backend, rt);
    var lastResponse;
    lastResponse, requests := RunTurns(env, budget, messages);
    return Ok((lastResponse, messages)), requests;
  }
}
