/** What the turn loop promises, stated about the specification functions
    `Loop` and `Run` that the driver is proved to follow. */
module TurnLoopProperties {
  import opened Values
  import opened Messages
  import opened ToolRegistry
  import opened ToolCalls
  import opened TurnLoop

  /** A turn's block is the assistant entry followed by one tool entry per
      requested call, in order. */
  lemma TurnBlockShape(env: Env, resp: ChatResponse)
    ensures var b := TurnBlock(env, resp);
            var calls := ToolCallsOf(resp.message);
            && |b| == 1 + |calls|
            && b[0] == ToMsgDict(resp.message)
            && forall i :: 0 <= i < |calls| ==> b[1 + i] == ToolEntry(env.registry, calls[i], env.rt)
  {
    var calls := ToolCallsOf(resp.message);
    var entries := ToolEntries(env.registry, calls, env.rt);
    forall i | 0 <= i < |calls|
      ensures TurnBlock(env, resp)[1 + i] == entries[i]
    {
    }
  }

  /** The loop sends one request per response, never more than its budget,
      and at least one when it has any budget. */
  lemma {:induction false} LoopBudget(env: Env, turn: nat, left: nat, t: seq<Dict>, last: Option<ChatResponse>)
    decreases left
    ensures var o := Loop(env, turn, left, t, last);
            && |o.requests| == |o.responses| <= left
            && (left > 0 <==> |o.responses| > 0)
  {
    if left > 0 {
      var req := RequestFor(env, t);
      var resp := env.backend(turn, req);
      if HasToolCalls(resp.message) {
        LoopBudget(env, turn + 1, left - 1, t + TurnBlock(env, resp), Some(resp));
      }
    }
  }

  /** The final transcript is the initial one followed by the block of each
      turn, in order: the loop only appends. */
  lemma {:induction false} LoopTranscript(env: Env, turn: nat, left: nat, t: seq<Dict>, last: Option<ChatResponse>)
    decreases left
    ensures var o := Loop(env, turn, left, t, last);
            o.transcript == t + Blocks(env, o.responses)
  {
    if left > 0 {
      var req := RequestFor(env, t);
      var resp := env.backend(turn, req);
      var t' := t + TurnBlock(env, resp);
      if HasToolCalls(resp.message) {
        var rest := Loop(env, turn + 1, left - 1, t', Some(resp));
        LoopTranscript(env, turn + 1, left - 1, t', Some(resp));
        assert ([resp] + rest.responses)[1..] == rest.responses;
      } else {
        assert [resp][1..] == [];
      }
    }
  }

  /** The returned response is the last one received, or the one the loop
      started with when the budget was empty. */
  lemma {:induction false} LoopLast(env: Env, turn: nat, left: nat, t: seq<Dict>, last: Option<ChatResponse>)
    decreases left
    ensures var o := Loop(env, turn, left, t, last);
            && (o.responses == [] ==> o.last == last)
            && (o.responses != [] ==> o.last == Some(o.responses[|o.responses| - 1]))
  {
    if left > 0 {
      var req := RequestFor(env, t);
      var resp := env.backend(turn, req);
      if HasToolCalls(resp.message) {
        var rest := Loop(env, turn + 1, left - 1, t + TurnBlock(env, resp), Some(resp));
        LoopLast(env, turn + 1, left - 1, t + TurnBlock(env, resp), Some(resp));
      }
    }
  }

  /** The loop stops early only on a reply without tool calls: every reply
      but the last requested tools, and the last one did not unless the
      budget ran out. */
  lemma {:induction false} LoopStopsOnNoToolCalls(env: Env, turn: nat, left: nat, t: seq<Dict>,
                                                  last: Option<ChatResponse>)
    decreases left
    ensures var o := Loop(env, turn, left, t, last);
            && (forall k :: 0 <= k < |o.responses| - 1 ==> HasToolCalls(o.responses[k].message))
            && (0 < |o.responses| < left ==> !HasToolCalls(o.responses[|o.responses| - 1].message))
  {
    if left > 0 {
      var req := RequestFor(env, t);
      var resp := env.backend(turn, req);
      if HasToolCalls(resp.message) {
        var rest := Loop(env, turn + 1, left - 1, t + TurnBlock(env, resp), Some(resp));
        LoopStopsOnNoToolCalls(env, turn + 1, left - 1, t + TurnBlock(env, resp), Some(resp));
        var rs := [resp] + rest.responses;
        forall k | 0 <= k < |rs| - 1
          ensures HasToolCalls(rs[k].message)
        {
          if k > 0 {
            assert rs[k] == rest.responses[k - 1];
          }
        }
      }
    }
  }

  /** The k-th request carries the transcript as it stood after k turns, and
      the k-th response is the backend's answer to it on call `turn + k`. */
  lemma {:induction false} LoopRequest(env: Env, turn: nat, left: nat, t: seq<Dict>, last: Option<ChatResponse>,
                                       k: nat)
    requires k < |Loop(env, turn, left, t, last).responses|
    decreases left
    ensures var o := Loop(env, turn, left, t, last);
            && k < |o.requests|
            && o.requests[k] == RequestFor(env, t + Blocks(env, o.responses[..k]))
            && o.responses[k] == env.backend(turn + k, o.requests[k])
  {
    var o := Loop(env, turn, left, t, last);
    var req := RequestFor(env, t);
    var resp := env.backend(turn, req);
    if k == 0 {
      assert o.responses[..0] == [];
      assert t + Blocks(env, o.responses[..0]) == t;
    } else {
      var t' := t + TurnBlock(env, resp);
      var rest := Loop(env, turn + 1, left - 1, t', Some(resp));
      LoopRequest(env, turn + 1, left - 1, t', Some(resp), k - 1);
      RequestShift(env, turn, t, req, resp, rest, o, k);
    }
  }

  /** The step of `LoopRequest` from the rest of the loop to the whole. */
  lemma RequestShift(env: Env, turn: nat, t: seq<Dict>, req: ChatRequest, resp: ChatResponse,
                     rest: LoopOutcome, o: LoopOutcome, k: nat)
    requires o.responses == [resp] + rest.responses && o.requests == [req] + rest.requests
    requires 0 < k < |o.responses| && k - 1 < |rest.requests|
    requires rest.requests[k - 1] == RequestFor(env, (t + TurnBlock(env, resp)) + Blocks(env, rest.responses[..k - 1]))
    requires rest.responses[k - 1] == env.backend(turn + 1 + (k - 1), rest.requests[k - 1])
    ensures k < |o.requests|
    ensures o.requests[k] == RequestFor(env, t + Blocks(env, o.responses[..k]))
    ensures o.responses[k] == env.backend(turn + k, o.requests[k])
  {
    BlocksOfPrefix(env, resp, rest.responses, k);
    var tb, later := TurnBlock(env, resp), Blocks(env, rest.responses[..k - 1]);
    assert t + (tb + later) == (t + tb) + later;
  }

  /** The blocks of the first `k` turns, split after the first turn. */
  lemma BlocksOfPrefix(env: Env, first: ChatResponse, later: seq<ChatResponse>, k: nat)
    requires 0 < k <= 1 + |later|
    ensures Blocks(env, ([first] + later)[..k]) == TurnBlock(env, first) + Blocks(env, later[..k - 1])
  {
    var p := ([first] + later)[..k];
    assert p[0] == first && p[1..] == later[..k - 1];
  }

  /** When every reply requests tools, the loop uses its whole budget. */
  lemma {:induction false} LoopFullBudget(env: Env, turn: nat, left: nat, t: seq<Dict>, last: Option<ChatResponse>)
    requires forall n: nat, req: ChatRequest :: HasToolCalls(env.backend(n, req).message)
    decreases left
    ensures |Loop(env, turn, left, t, last).responses| == left
  {
    if left > 0 {
      var req := RequestFor(env, t);
      var resp := env.backend(turn, req);
      LoopFullBudget(env, turn + 1, left - 1, t + TurnBlock(env, resp), Some(resp));
    }
  }

  /** A non-positive `max_turns` makes no backend call and returns `None`
      with the messages untouched. */
  lemma RunWithoutBudget(client: Client, messages: seq<Dict>, options: Option<Dict>,
                         kwargs: map<string, KwValue>, rt: Runtime)
    requires WellTypedKwargs(kwargs)
    requires !IsNone(KwGet(kwargs, "model")) && client.ChatClient?
    requires "max_turns" in kwargs && kwargs["max_turns"].json.n <= 0
    ensures Run(client, messages, options, kwargs, rt) == Ok(LoopOutcome(None, messages, [], []))
  {
  }

  /** Without `max_turns` the loop makes at most 20 backend calls. */
  lemma RunDefaultBudget(client: Client, messages: seq<Dict>, options: Option<Dict>,
                         kwargs: map<string, KwValue>, rt: Runtime)
    requires WellTypedKwargs(kwargs)
    requires "max_turns" !in kwargs
    ensures var r := Run(client, messages, options, kwargs, rt);
            r.Ok? ==> |r.value.requests| <= 20
  {
    if Run(client, messages, options, kwargs, rt).Ok? {
      LoopBudget(EnvOf(client.backend, options, kwargs, rt), 0, 20, messages, None);
    }
  }

  /** Every backend call receives the model, the tool list and the options
      unchanged, and the caller's keyword arguments minus the reserved ones. */
  lemma RunForwardsArguments(client: Client, messages: seq<Dict>, options: Option<Dict>,
                             kwargs: map<string, KwValue>, rt: Runtime)
    requires WellTypedKwargs(kwargs)
    ensures var r := Run(client, messages, options, kwargs, rt);
            r.Ok? ==> forall k :: 0 <= k < |r.value.requests| ==>
              var q := r.value.requests[k];
              && q.model == kwargs["model"] && q.tools == ToolsArg(kwargs) && q.options == options
              && q.extra.Keys == kwargs.Keys - Reserved
              && forall key :: key in q.extra ==> q.extra[key] == kwargs[key]
  {
    var r := Run(client, messages, options, kwargs, rt);
    if r.Ok? {
      var env := EnvOf(client.backend, options, kwargs, rt);
      var o := Loop(env, 0, TurnBudget(kwargs), messages, None);
      LoopBudget(env, 0, TurnBudget(kwargs), messages, None);
      forall k | 0 <= k < |o.requests|
        ensures o.requests[k] == RequestFor(env, messages + Blocks(env, o.responses[..k]))
      {
        LoopRequest(env, 0, TurnBudget(kwargs), messages, None, k);
      }
    }
  }

  /** A successful run starts from the caller's messages and only appends:
      the block of every turn, in order. */
  lemma RunAppendsBlocks(client: Client, messages: seq<Dict>, options: Option<Dict>,
                         kwargs: map<string, KwValue>, rt: Runtime)
    requires WellTypedKwargs(kwargs)
    ensures var r := Run(client, messages, options, kwargs, rt);
            r.Ok? ==> r.value.transcript == messages + Blocks(EnvOf(client.backend, options, kwargs, rt), r.value.responses)
  {
    if Run(client, messages, options, kwargs, rt).Ok? {
      LoopTranscript(EnvOf(client.backend, options, kwargs, rt), 0, TurnBudget(kwargs), messages, None);
    }
  }

  /** A first reply without tool calls ends the run after one backend call:
      it is returned, and only its assistant entry is appended. */
  lemma RunFirstReplyWithoutToolCalls(client: Client, messages: seq<Dict>, options: Option<Dict>,
                                      kwargs: map<string, KwValue>, rt: Runtime)
    requires WellTypedKwargs(kwargs)
    requires client.ChatClient? && !IsNone(KwGet(kwargs, "model")) && TurnBudget(kwargs) > 0
    requires var env := EnvOf(client.backend, options, kwargs, rt);
             !HasToolCalls(client.backend(0, RequestFor(env, messages)).message)
    ensures var resp := client.backend(0, RequestFor(EnvOf(client.backend, options, kwargs, rt), messages));
            var r := Run(client, messages, options, kwargs, rt);
            && r.Ok? && r.value.last == Some(resp)
            && r.value.transcript == messages + [ToMsgDict(resp.message)]
            && |r.value.requests| == 1
  {
  }

  /** A plain-dict reply carries no tool calls, so it always ends the loop. */
  lemma MappingReplyEndsLoop(env: Env, turn: nat, left: nat, t: seq<Dict>, last: Option<ChatResponse>)
    requires left > 0
    requires env.backend(turn, RequestFor(env, t)).message.Mapping?
    ensures var o := Loop(env, turn, left, t, last);
            var resp := env.backend(turn, RequestFor(env, t));
            o.responses == [resp] && o.transcript == t + [resp.message.fields]
  {
  }

  /** With no registry, every tool call of a turn is answered "not found". */
  lemma NoRegistryEveryCallNotFound(env: Env, resp: ChatResponse)
    requires env.registry.None?
    ensures var calls := ToolCallsOf(resp.message);
            && |TurnBlock(env, resp)| == 1 + |calls|
            && forall i :: 0 <= i < |calls| ==>
              TurnBlock(env, resp)[1 + i] == NotFoundEntry(ExtractToolCallParts(calls[i]).0)
  {
  }
}
