# Automatic function calling over a chat backend

This project models `ollama_automatic_function_calling`, a conversation-turn
driver. It calls a chat backend and appends the assistant's reply to the
caller's message list. It then runs every tool the reply requests and appends
one `role: tool` entry per request. It repeats until a reply requests no
tools or `max_turns` turns have been used.

The model follows the source's structure:

- `Values`: optional values, results, and JSON-like data. Transcript entries
  are `Dict = map<string, Json>`. `Truthy` is Python truthiness and `PyStr`
  is how an f-string renders an optional name.
- `Messages`: the message normaliser `_to_msg_dict` and the tool-call reader
  `_extract_tool_call_parts`. The duck-typed message shapes are a closed
  datatype: an object with `model_dump`, a plain dict, or any other object
  whose attributes may be missing.
- `ToolRegistry`: the tool resolver. It has `_infer_tool_name`, the
  registry-building loop (an imperative `BuildRegistry` proved against the
  function `RegistryOf`), the `tool_map` lookup and `_resolve_callable`.
- `ToolCalls`: what one requested call appends. This covers a missing tool,
  argument decoding, calling with `**arguments` and capturing an exception.
  `json.loads` and invoking a tool are parameters of type `Runtime`.
- `TurnLoop`: the configuration checks, keyword filtering and the turn loop.
  - The pure functions `Loop` and `Run` specify the whole run.
  - The imperative driver `AutomaticFunctionCalling` appends to a `Transcript`
    object in place, as the source appends to its list. It is proved to end
    exactly as `Run` says.
  - The backend is a function of the call number and the request, so it may
    answer each turn differently.
- `TurnLoopProperties`: what the loop promises, proved about `Loop` and `Run`:
  - the turn budget;
  - append-only transcripts and the shape of each turn;
  - early exit;
  - what every backend call receives.

Four behaviours of the code are easy to misread; the model follows the code:

- Only a missing or `None` model is rejected. An empty model name passes.
  `None` has one encoding, `KwJson(JNull)`, and `KwGet` returns it for a
  missing keyword, so an explicit `model=None` is rejected like a missing one.
- The not-found message quotes the name as `str` renders it, so a missing
  name reads `Tool 'None' not found.` The `tool_name` of that entry is still
  `unknown_tool`.
- A reply that is a plain dict never requests tools, because a dict has no
  `tool_calls` attribute. Such a reply always ends the loop.
- Dict descriptors in `tools` are registered under their `function.name`.
  A dict is not callable, though, so a call to such a name is always
  reported as not found. A dict listed after a callable of the same name
  replaces it, and that name then becomes "not found" too.

## Model

| member | source | states |
|---|---|---|
| Values.PyStr | examples/ollama_chat_automatic_function_calling.py:111 | a present name renders as itself and a missing one as `None` |
| Messages.ToMsgDict | examples/ollama_chat_automatic_function_calling.py:36-44 | an object with `model_dump` gives its dump and a dict gives itself; any other object gives exactly the keys `role` and `content`, each defaulting to `assistant` / `""` when the attribute is missing |
| Messages.ToolCallsOf | examples/ollama_chat_automatic_function_calling.py:99 | a dict reply has no tool calls; otherwise the calls are the `tool_calls` attribute, or none when it is missing |
| Messages.ExtractToolCallParts | examples/ollama_chat_automatic_function_calling.py:46-58 | a call without a function yields no name and `{}`; otherwise it yields the function's name, and its arguments when they are truthy or `{}` when they are falsy or missing; the arguments returned are never falsy except as `{}` |
| ToolRegistry.DescriptorName | examples/ollama_chat_automatic_function_calling.py:63-67 | a mapping descriptor has a name exactly when its `function` entry is a mapping holding a string `name`, and that string is the name; a descriptor without one yields no name and is never registered |
| ToolRegistry.InferToolName | examples/ollama_chat_automatic_function_calling.py:60-68 | `None` has no name; a mapping descriptor is named as `DescriptorName` says; an object is named by a truthy `name` attribute, or else by `__name__` |
| ToolRegistry.RegistryOf | examples/ollama_chat_automatic_function_calling.py:74-79 | the registry built from a descriptor list, inserting each truthy inferred name in list order; its keys and values are characterised by `RegistryKeys` and `RegistryLastWins` |
| ToolRegistry.BuildRegistry | examples/ollama_chat_automatic_function_calling.py:74-79 | the registry loop produces exactly `RegistryOf(tools)` |
| ToolRegistry.RegistryKeys | examples/ollama_chat_automatic_function_calling.py:76-79 | a name is registered if and only if some descriptor has it as its truthy inferred name |
| ToolRegistry.RegistryLastWins | examples/ollama_chat_automatic_function_calling.py:76-79 | a registered name maps to the last descriptor that infers it; no later descriptor infers it |
| ToolRegistry.InitialRegistry | examples/ollama_chat_automatic_function_calling.py:74-79 | an explicit `tool_map` is used as is; with no `tool_map` and no (or an empty) `tools` there is no registry; otherwise the registry is built from `tools` |
| ToolRegistry.Lookup | examples/ollama_chat_automatic_function_calling.py:105 | a hit is the registry's entry for the name, and a present name in a non-empty registry is always found |
| ToolRegistry.ResolveCallable | examples/ollama_chat_automatic_function_calling.py:70-72 | the result is the entry itself or its callable `__wrapped__`, the latter whenever it exists; a callable entry resolves to a callable |
| ToolRegistry.NoRegistryEveryLookupMisses | examples/ollama_chat_automatic_function_calling.py:105 | with neither a non-empty `tools` nor a `tool_map`, every lookup misses |
| ToolRegistry.SchemaDescriptorsAreNeverCallable | examples/ollama_chat_automatic_function_calling.py:105-107 | a registry built from mapping descriptors alone never yields a callable |
| ToolRegistry.LaterSchemaShadowsCallable | examples/ollama_chat_automatic_function_calling.py:63-79 | for any descriptor list, a mapping descriptor that is the last to register a name is what the lookup of that name yields, replacing any callable listed earlier, so that name finds no callable |
| ToolRegistry.ExplicitMapMatchesInferredNames | examples/ollama_chat_automatic_function_calling.py:74-79 | with distinct truthy names, the inferred registry equals the explicit map from those names |
| ToolCalls.NotFoundEntry | examples/ollama_chat_automatic_function_calling.py:108-114 | the not-found entry for a name; its content and `tool_name` are stated by `NotFoundEntryText` |
| ToolCalls.ExecutionFailed | examples/ollama_chat_automatic_function_calling.py:129 | the content recorded when a tool raised; `FailureNamesToolAndError` states that it names the tool and ends with the error |
| ToolCalls.NotMappingMessage | examples/ollama_chat_automatic_function_calling.py:126 | the error text of `f(**v)` for a non-mapping `v`, naming the type of `v` |
| ToolCalls.NotFoundEntryText | examples/ollama_chat_automatic_function_calling.py:107-114 | the not-found entry is a tool entry whose content quotes the name as `str` renders it and whose `tool_name` is the name, or `unknown_tool` when the name is falsy |
| ToolCalls.DecodeArguments | examples/ollama_chat_automatic_function_calling.py:117-123 | text that decodes becomes its value, text that does not becomes `{}`, and anything else passes through |
| ToolCalls.CallTool | examples/ollama_chat_automatic_function_calling.py:126 | falsy arguments call the tool with no keywords and a mapping with its entries; any other truthy value yields the `**` TypeError text `NotMappingMessage` of that value, without calling the tool |
| ToolCalls.ToolEntry | examples/ollama_chat_automatic_function_calling.py:104-137 | the entry for one requested call; `ToolEntryNotFound`, `ToolEntryFound` and `ToolEntryIsToolEntry` state what it is in each case |
| ToolCalls.ToolEntries | examples/ollama_chat_automatic_function_calling.py:103-137 | the entries for a turn's calls, one per call in order, as `ToolEntriesOnePerCall` states |
| ToolCalls.ToolEntryIsToolEntry | examples/ollama_chat_automatic_function_calling.py:103-137 | whatever a call does, its entry has exactly `role: tool`, a text `content` and a text `tool_name` |
| ToolCalls.ToolEntriesOnePerCall | examples/ollama_chat_automatic_function_calling.py:103-137 | one tool entry per requested call, the i-th for the i-th call |
| ToolCalls.ToolEntriesAppend | examples/ollama_chat_automatic_function_calling.py:103-137 | one more requested call adds exactly its entry at the end, as each iteration of the inner loop does |
| ToolCalls.ToolEntryNotFound | examples/ollama_chat_automatic_function_calling.py:105-115 | a name without a callable in the registry gives the not-found entry |
| ToolCalls.ToolEntryFound | examples/ollama_chat_automatic_function_calling.py:117-137 | a found tool's entry is named by the requested name; its content is the returned text, or the execution-failed message when the call raised |
| ToolCalls.UndecodableArgumentsBecomeEmpty | examples/ollama_chat_automatic_function_calling.py:117-126 | text that does not decode reaches the tool as no arguments |
| ToolCalls.FailureNamesToolAndError | examples/ollama_chat_automatic_function_calling.py:129 | the failure text carries the tool name after `Tool '` and ends with the exception's text |
| TurnLoop.KwGet | examples/ollama_chat_automatic_function_calling.py:27-33 | a missing keyword reads as `None` and a present one as its value |
| TurnLoop.MaxTurns | examples/ollama_chat_automatic_function_calling.py:31 | the turn budget is the caller's `max_turns`, and 20 when it is not given |
| TurnLoop.TurnBudget | examples/ollama_chat_automatic_function_calling.py:87 | `range(max_turns)` runs `max_turns` times, and no times when that is not positive |
| TurnLoop.ToolsArg | examples/ollama_chat_automatic_function_calling.py:32 | the tool list is present exactly when the caller passed one |
| TurnLoop.ToolMapArg | examples/ollama_chat_automatic_function_calling.py:33 | the tool map is present exactly when the caller passed one |
| TurnLoop.FilterKwargs | examples/ollama_chat_automatic_function_calling.py:84-85 | the forwarded keywords are exactly the caller's minus the reserved names, with values unchanged |
| TurnLoop.Run | examples/ollama_chat_automatic_function_calling.py:27-82 | a run fails if and only if the model is missing or `None` or the client is not callable, and a missing model is reported first |
| Messages.HasToolCalls | examples/ollama_chat_automatic_function_calling.py:99-100 | a reply continues the loop exactly when it requests at least one tool call |
| TurnLoop.TurnBlock | examples/ollama_chat_automatic_function_calling.py:96-137 | what one turn appends for a reply, whose shape `TurnBlockShape` states |
| TurnLoop.Loop | examples/ollama_chat_automatic_function_calling.py:87-140 | the turn loop as a function of the budget left; the `LoopBudget`, `LoopTranscript`, `LoopLast`, `LoopStopsOnNoToolCalls` and `LoopRequest` lemmas state what it does |
| TurnLoop.Transcript.Append | examples/ollama_chat_automatic_function_calling.py:97 | appending adds exactly one entry at the end |
| TurnLoop.AppendToolResult | examples/ollama_chat_automatic_function_calling.py:104-137 | the body of the inner loop appends exactly the call's `ToolEntry` |
| TurnLoop.AppendToolResults | examples/ollama_chat_automatic_function_calling.py:103-137 | the inner loop appends exactly the entries for the calls, in order |
| TurnLoop.TakeTurn | examples/ollama_chat_automatic_function_calling.py:88-137 | a turn sends the current transcript and appends the turn's block for the reply |
| TurnLoop.ResumesAfterTurn | examples/ollama_chat_automatic_function_calling.py:87-101 | after a turn the loop either continues toward the same outcome or has ended with that reply |
| TurnLoop.RunTurns | examples/ollama_chat_automatic_function_calling.py:87-140 | the turn loop ends with the last response, transcript and requests that `Loop` specifies |
| TurnLoop.AutomaticFunctionCalling | examples/ollama_chat_automatic_function_calling.py:4-140 | a configuration error leaves the messages untouched and calls no backend; otherwise the result is `Run`'s last response with the same transcript object, extended as `Run` says |
| TurnLoopProperties.TurnBlockShape | examples/ollama_chat_automatic_function_calling.py:96-137 | a turn appends the assistant entry and then one tool entry per requested call, in order |
| TurnLoopProperties.LoopBudget | examples/ollama_chat_automatic_function_calling.py:87-101 | the backend is called at most the budget, once per response, and at least once when the budget is positive |
| TurnLoopProperties.LoopTranscript | examples/ollama_chat_automatic_function_calling.py:97-137 | the final transcript is the initial one followed by each turn's block: append-only |
| TurnLoopProperties.LoopLast | examples/ollama_chat_automatic_function_calling.py:87-101 | the returned response is the last one received, or `None` when no turn ran |
| TurnLoopProperties.LoopStopsOnNoToolCalls | examples/ollama_chat_automatic_function_calling.py:99-101 | every reply but the last requested tools; the loop stops before its budget only on a reply without tool calls |
| TurnLoopProperties.LoopRequest | examples/ollama_chat_automatic_function_calling.py:88-95 | the k-th request carries the transcript after k turns, and the k-th response answers it |
| TurnLoopProperties.RequestShift | examples/ollama_chat_automatic_function_calling.py:88-95 | the k-th request of the whole loop is the (k-1)-th of the loop after the first turn |
| TurnLoopProperties.BlocksOfPrefix | examples/ollama_chat_automatic_function_calling.py:97-137 | the entries of the first k turns are the first turn's block followed by those of the next k-1 turns |
| TurnLoopProperties.LoopFullBudget | examples/ollama_chat_automatic_function_calling.py:87-140 | when every reply requests tools, the loop uses its whole budget |
| TurnLoopProperties.RunWithoutBudget | examples/ollama_chat_automatic_function_calling.py:87-140 | a non-positive `max_turns` makes no backend call and returns `None` with the messages unchanged |
| TurnLoopProperties.RunDefaultBudget | examples/ollama_chat_automatic_function_calling.py:31 | without `max_turns`, at most 20 backend calls |
| TurnLoopProperties.RunForwardsArguments | examples/ollama_chat_automatic_function_calling.py:84-94 | every backend call receives the model, tools and options unchanged, and the caller's keywords minus the reserved ones |
| TurnLoopProperties.RunAppendsBlocks | examples/ollama_chat_automatic_function_calling.py:97-140 | the caller's messages stay a prefix, followed by each turn's block |
| TurnLoopProperties.RunFirstReplyWithoutToolCalls | examples/ollama_chat_automatic_function_calling.py:96-101 | a first reply without tool calls is returned after one call, with only its assistant entry appended |
| TurnLoopProperties.MappingReplyEndsLoop | examples/ollama_chat_automatic_function_calling.py:99-101 | a plain-dict reply is appended as is and ends the loop |
| TurnLoopProperties.NoRegistryEveryCallNotFound | examples/ollama_chat_automatic_function_calling.py:105-115 | with no registry every requested call of a turn is answered "not found" |

## Left out

- The chat transport and the `ChatResponse` type are not modelled. The backend is a parameter: a function from the call number and the request to a reply.
- The arithmetic example tools `add`, `sub`, `mul` and `div`, and the command-line entry point, are not part of the loop. A tool's behaviour is the parameter `Runtime.invoke`.
- `json.loads`, `model_dump(exclude_none=True)` and `str(result)` are given, not computed. `Runtime.decode` and `Runtime.invoke` are taken as deterministic functions.
- Python's `TypeError` text for `f(**v)` is modelled without the leading function name that Python adds.
- Names are strings or missing. A non-string `name` attribute or `function.name` key is not modelled.
- TurnLoop.Run and TurnLoop.AutomaticFunctionCalling require well-typed reserved keywords: an integer `max_turns`, a list or `None` for `tools`, and a mapping or `None` for `tool_map`. Other values are not modelled. In Python they behave as follows:
  - `max_turns=True` runs one turn, as `range(True)` does; a non-integer `max_turns` raises `TypeError` at line 87, after the registry is built.
  - A string, dict or tuple `tools` is iterated by the registry loop without error, and is forwarded to the backend unchanged.
  - A falsy non-mapping `tool_map` such as `[]` only disables lookup. A truthy non-mapping `tool_map` raises `AttributeError` at line 105, and only when a tool call arrives.
- `Json` has no floating-point numbers: `JNum` holds an integer. Float arguments such as those of the arithmetic tools are not modelled, nor the falsiness of `0.0`, nor the `float` type name in the `f(**1.5)` error text.
- `except Exception` at lines 122 and 128 does not catch a `BaseException` such as `KeyboardInterrupt` or `SystemExit`, which would escape a tool and end the loop. `Runtime.invoke` only returns or raises an ordinary exception, so that path is not modelled.
- Aliasing of the message list is not modelled. The backend receives the transcript as a value at the time of the call, while Python passes the same list object that the loop later appends to.
- An exception raised by the backend or by `_to_msg_dict` is not modelled. Both propagate unchanged out of the loop in the source.

