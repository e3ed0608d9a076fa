/**
 * The WebSocket connection manager of the AppGateway: each connection
 * (`WebSocketServer`) queues requests until the socket server assigns
 * it a connection id, keeps at most 10 of them (evicting the oldest with
 * an error response), and then hands every request to the message
 * handler, or answers it with an error.
 *
 * Sending on the socket is recorded as a sequence of outputs; the
 * message, authentication and disconnect handlers are inputs, and the
 * message handler's outcome says whether it returned or threw.
 */
module WsManager {
  import opened Core

  const QUEUE_CAPACITY: nat := 10

  const ERROR_NO_METHOD := "{\"error\": \"Message MUST contain a method field\"}"
  const ERROR_NO_HANDLER := "{\"error\": \"Message handler not set\"}"
  const DEFAULT_PARAMS := "{}"
  const ERROR_UNKNOWN_EXCEPTION := "{\"error\": \"Unknown processing exception\"}"

  /** The response to a handler that threw a `std::exception` whose `what()` is `what`. */
  function ProcessingException(what: string): string
  {
    "{\"error\": \"Processing exception\", \"details\": \"" + what + "\"}"
  }

  /** How a call of the message handler ends. */
  datatype Thrown = Returned | StdException(what: string) | UnknownException

  /** The message handler `(method, params, requestId, connectionId)`, by how each call ends. */
  type Handler = (string, string, int, nat) -> Thrown

  /** A received JSON-RPC message; absent members are None. */
  datatype Message = Message(id: Option<int>, designator: Option<string>, parameters: Option<string>)

  /** What a connection does with a message. */
  datatype Output =
    /** `SendJSONRPCResponse(result, requestId, connectionId)`. */
    | Response(result: string, requestId: int, connectionId: nat)
    /** `_messageHandler(method, params, requestId, connectionId)`. */
    | Handled(method_: string, params: string, requestId: int, connectionId: nat)

  /** Params default to "{}" when absent or empty. */
  function ParamsOf(m: Message): (r: string)
    ensures r != ""
    ensures m.parameters.Some? && m.parameters.value != "" ==> r == m.parameters.value
    ensures !(m.parameters.Some? && m.parameters.value != "") ==> r == DEFAULT_PARAMS
  {
    if m.parameters.Some? && m.parameters.value != "" then m.parameters.value else DEFAULT_PARAMS
  }

  /** The response the `catch` clauses send for a handler that threw, if any. */
  function Caught(t: Thrown, requestId: int, connectionId: nat): (r: seq<Output>)
    ensures t.Returned? <==> r == []
    ensures t.StdException? ==> r == [Response(ProcessingException(t.what), requestId, connectionId)]
    ensures t.UnknownException? ==> r == [Response(ERROR_UNKNOWN_EXCEPTION, requestId, connectionId)]
  {
    match t
    case Returned => []
    case StdException(what) => [Response(ProcessingException(what), requestId, connectionId)]
    case UnknownException => [Response(ERROR_UNKNOWN_EXCEPTION, requestId, connectionId)]
  }

  /**
   * What `ProcessMessage` outputs for a message with an id once the
   * connection has its id `selfId`; `connectionId` is the id the caller
   * passed, used for error responses. A handler that throws has been
   * called, and its exception is then answered.
   */
  function Dispatched(m: Message, connectionId: nat, selfId: nat, handler: Option<Handler>): (r: seq<Output>)
    requires m.id.Some?
    ensures 1 <= |r| <= 2
    ensures m.designator.None? ==> r == [Response(ERROR_NO_METHOD, m.id.value, connectionId)]
    ensures m.designator.Some? && handler.Some? ==>
      var call := Handled(m.designator.value, ParamsOf(m), m.id.value, selfId);
      r == [call] + Caught(handler.value(call.method_, call.params, call.requestId, selfId), m.id.value, connectionId)
    ensures m.designator.Some? && handler.None? ==> r == [Response(ERROR_NO_HANDLER, m.id.value, connectionId)]
  {
    if m.designator.None? then [Response(ERROR_NO_METHOD, m.id.value, connectionId)]
    else if handler.Some? then
      var params := ParamsOf(m);
      [Handled(m.designator.value, params, m.id.value, selfId)]
        + Caught(handler.value(m.designator.value, params, m.id.value, selfId), m.id.value, connectionId)
    else [Response(ERROR_NO_HANDLER, m.id.value, connectionId)]
  }

  /** The queue after `AddToPending(m)`: the oldest entry goes when 10 are waiting. */
  function Pending(queue: seq<Message>, m: Message): (r: seq<Message>)
    ensures |queue| < QUEUE_CAPACITY ==> r == queue + [m]
    ensures |queue| == QUEUE_CAPACITY ==> r == queue[1..] + [m]
  {
    if |queue| == QUEUE_CAPACITY then queue[1..] + [m] else queue + [m]
  }

  /** The response `AddToPending(m)` sends for an evicted entry, if any. */
  function Evicted(queue: seq<Message>, selfId: nat): (r: seq<Output>)
    requires |queue| == QUEUE_CAPACITY ==> queue[0].id.Some?
    ensures |queue| != QUEUE_CAPACITY ==> r == []
    ensures |queue| == QUEUE_CAPACITY ==> r == [Response(ERROR_NO_METHOD, queue[0].id.value, selfId)]
  {
    if |queue| == QUEUE_CAPACITY then [Response(ERROR_NO_METHOD, queue[0].id.value, selfId)] else []
  }

  /** The queue is bounded: it never grows past 10. */
  lemma PendingBounded(queue: seq<Message>, m: Message)
    requires |queue| <= QUEUE_CAPACITY
    ensures |Pending(queue, m)| <= QUEUE_CAPACITY
    ensures |Pending(queue, m)| == if |queue| == QUEUE_CAPACITY then QUEUE_CAPACITY else |queue| + 1
    ensures Pending(queue, m)[|Pending(queue, m)| - 1] == m
  {
  }

  /** Every queued message has an id (messages without one are dropped before queueing). */
  predicate AllHaveIds(q: seq<Message>)
  {
    forall i :: 0 <= i < |q| ==> q[i].id.Some?
  }

  /** What draining `queue` under the new id outputs, message by message. */
  function DrainOutputs(queue: seq<Message>, selfId: nat, handler: Option<Handler>): (r: seq<Output>)
    requires AllHaveIds(queue)
    ensures |queue| <= |r| <= 2 * |queue|
    decreases |queue|
  {
    if queue == [] then []
    else DrainOutputs(queue[..|queue| - 1], selfId, handler) + Dispatched(queue[|queue| - 1], selfId, selfId, handler)
  }

  /** Draining two queues one after the other outputs the two drains one after the other. */
  lemma {:induction false} DrainOutputsConcat(a: seq<Message>, b: seq<Message>, selfId: nat, handler: Option<Handler>)
    requires AllHaveIds(a) && AllHaveIds(b)
    ensures AllHaveIds(a + b)
    ensures DrainOutputs(a + b, selfId, handler) == DrainOutputs(a, selfId, handler) + DrainOutputs(b, selfId, handler)
    decreases |b|
  {
    assert AllHaveIds(a + b) by {
      forall i | 0 <= i < |a + b| ensures (a + b)[i].id.Some? {
        if i >= |a| { assert (a + b)[i] == b[i - |a|]; }
      }
    }
    if b == [] {
      assert a + b == a;
    } else {
      var front := b[..|b| - 1];
      assert (a + b)[..|a + b| - 1] == a + front;
      assert (a + b)[|a + b| - 1] == b[|b| - 1];
      DrainOutputsConcat(a, front, selfId, handler);
      ConcatAssoc(DrainOutputs(a, selfId, handler), DrainOutputs(front, selfId, handler),
                  Dispatched(b[|b| - 1], selfId, selfId, handler));
    }
  }

  /**
   * Drained messages are answered strictly in the order they were
   * queued: the outputs of message `i` come after those of every earlier
   * message and before those of every later one.
   */
  lemma DrainOutputsInOrder(queue: seq<Message>, selfId: nat, handler: Option<Handler>, i: nat)
    requires AllHaveIds(queue) && i < |queue|
    ensures AllHaveIds(queue[..i]) && AllHaveIds(queue[i + 1..])
    ensures DrainOutputs(queue, selfId, handler)
      == DrainOutputs(queue[..i], selfId, handler) + Dispatched(queue[i], selfId, selfId, handler)
         + DrainOutputs(queue[i + 1..], selfId, handler)
  {
    var front, rest := queue[..i + 1], queue[i + 1..];
    assert queue == front + rest;
    assert front[..i] == queue[..i];
    assert AllHaveIds(front) && AllHaveIds(rest);
    DrainOutputsConcat(front, rest, selfId, handler);
  }

  /** Draining one more message of `q`. */
  lemma DrainStep(q: seq<Message>, k: nat, selfId: nat, handler: Option<Handler>)
    requires AllHaveIds(q) && k < |q|
    ensures AllHaveIds(q[..k]) && AllHaveIds(q[..k + 1])
    ensures DrainOutputs(q[..k + 1], selfId, handler) == DrainOutputs(q[..k], selfId, handler) + Dispatched(q[k], selfId, selfId, handler)
  {
    assert q[..k + 1][..k] == q[..k];
  }

  /**
   * One turn of the loop in `Id(0)`: `ProcessMessage` finds `_id == 0`
   * and queues the first message again, then index 0 is removed.
   */
  function IdZeroTurn(queue: seq<Message>): (r: seq<Message>)
    requires 0 < |queue| <= QUEUE_CAPACITY
  {
    Pending(queue, queue[0])[1..]
  }

  /** `n` turns of that loop. */
  function IdZeroTurns(queue: seq<Message>, n: nat): (r: seq<Message>)
    requires 0 < |queue| <= QUEUE_CAPACITY
    ensures 0 < |r| <= QUEUE_CAPACITY
    decreases n
  {
    if n == 0 then queue else IdZeroTurns(IdZeroTurn(queue), n - 1)
  }

  /**
   * `Id(0)` with a message queued never leaves its loop: after any
   * number of turns the queue still holds a message, and a full queue
   * stays at nine.
   */
  lemma {:induction false} IdZeroNeverDrains(queue: seq<Message>, n: nat)
    requires 0 < |queue| <= QUEUE_CAPACITY
    ensures |IdZeroTurns(queue, n)| == if |queue| == QUEUE_CAPACITY && n > 0 then QUEUE_CAPACITY - 1 else |queue|
    decreases n
  {
    if n > 0 {
      IdZeroNeverDrains(IdZeroTurn(queue), n - 1);
    }
  }

  /** What `StateChange` does. */
  datatype StateAction = Proceed | CloseConnection | Disconnected(connectionId: nat) | NoAction

  /**
   * `StateChange`: an open connection whose auth handler rejects the
   * query is closed; a suspended one reports the disconnect.
   */
  function StateChange(isOpen: bool, isSuspended: bool, id: nat, query: string,
                       authHandler: Option<(nat, string) -> bool>, hasDisconnectHandler: bool): (r: StateAction)
    ensures isOpen && authHandler.Some? ==> (r == CloseConnection <==> !authHandler.value(id, query))
    ensures isOpen && authHandler.None? ==> r == Proceed
    ensures !isOpen && isSuspended && hasDisconnectHandler ==> r == Disconnected(id)
    ensures r == CloseConnection ==> isOpen
  {
    if isOpen then
      if authHandler.Some? && !authHandler.value(id, query) then CloseConnection else Proceed
    else if isSuspended then
      if hasDisconnectHandler then Disconnected(id) else NoAction
    else NoAction
  }

  class WebSocketServer {
    /** `_id`: 0 until the socket server assigns the connection id. */
    var id: nat
    var queue: seq<Message>
    /** Responses and handler calls, in order. */
    var outputs: seq<Output>
    /** The manager's message handler, when set. */
    const handler: Option<Handler>

    ghost predicate Valid()
      reads this
    {
      |queue| <= QUEUE_CAPACITY && AllHaveIds(queue)
    }

    constructor(handler: Option<Handler>)
      ensures Valid() && id == 0 && queue == [] && outputs == [] && this.handler == handler
    {
      id, queue, outputs := 0, [], [];
      this.handler := handler;
    }

    method AddToPending(m: Message)
      requires Valid() && m.id.Some?
      modifies this
      ensures Valid()
      ensures queue == Pending(old(queue), m)
      ensures outputs == old(outputs) + Evicted(old(queue), id)
      ensures id == old(id)
    {
      if |queue| == QUEUE_CAPACITY {
        var firstElement := queue[0];
        queue := queue[1..];
        outputs := outputs + [Response(ERROR_NO_METHOD, firstElement.id.value, id)];
      }
      queue := queue + [m];
    }

    /**
     * `ProcessMessage`: drop without an id, queue while unassigned, then
     * answer or hand over, answering an exception the handler throws.
     */
    method ProcessMessage(m: Message, connectionId: nat)
      requires Valid()
      modifies this
      ensures Valid() && id == old(id)
      ensures m.id.None? ==> queue == old(queue) && outputs == old(outputs)
      ensures m.id.Some? && id == 0 ==>
        queue == Pending(old(queue), m) && outputs == old(outputs) + Evicted(old(queue), id)
      ensures m.id.Some? && id != 0 ==>
        queue == old(queue) && outputs == old(outputs) + Dispatched(m, connectionId, id, handler)
    {
      if m.id.None? {
        return;
      }
      var requestId := m.id.value;
      if id == 0 {
        AddToPending(m);
        return;
      }
      if m.designator.None? {
        outputs := outputs + [Response(ERROR_NO_METHOD, requestId, connectionId)];
        return;
      }
      var methodName := m.designator.value;
      if handler.Some? {
        var params := DEFAULT_PARAMS;
        if m.parameters.Some? && m.parameters.value != "" {
          params := m.parameters.value;
        }
        outputs := outputs + [Handled(methodName, params, requestId, id)];
        var thrown := handler.value(methodName, params, requestId, id);
        match thrown {
          case Returned =>
          case StdException(what) =>
            outputs := outputs + [Response(ProcessingException(what), requestId, connectionId)];
          case UnknownException =>
            outputs := outputs + [Response(ERROR_UNKNOWN_EXCEPTION, requestId, connectionId)];
        }
      } else {
        outputs := outputs + [Response(ERROR_NO_HANDLER, requestId, connectionId)];
      }
    }

    /**
     * `Id(newId)`: assign the connection id and process the pending
     * messages in FIFO order under it, leaving the queue empty. Assigning
     * 0 leaves the messages pending (as written, `Id(0)` never returns
     * once a message is queued; see `IdZeroNeverDrains`).
     */
    method AssignId(newId: nat)
      requires Valid()
      modifies this
      ensures Valid() && id == newId
      ensures newId == 0 ==> queue == old(queue) && outputs == old(outputs)
      ensures newId != 0 ==> queue == [] && outputs == old(outputs) + DrainOutputs(old(queue), newId, handler)
    {
      id := newId;
      if newId == 0 {
        return;
      }
      ghost var q := queue;
      ghost var k := 0;
      while |queue| > 0
        invariant Valid() && id == newId
        invariant 0 <= k <= |q| && queue == q[k..]
        invariant outputs == old(outputs) + DrainOutputs(q[..k], newId, handler)
        decreases |queue|
      {
        var message := queue[0];
        ProcessMessage(message, id);
        assert outputs == old(outputs) + DrainOutputs(q[..k + 1], newId, handler) by {
          DrainStep(q, k, newId, handler);
          ConcatAssoc(old(outputs), DrainOutputs(q[..k], newId, handler), Dispatched(q[k], newId, newId, handler));
        }
        queue := queue[1..];
        k := k + 1;
      }
      assert q[..k] == q;
    }
  }

  /** The `Info` members of a response text that parses as a JSON-RPC error. */
  datatype Info = Info(code: Option<int>, text: Option<string>)

  datatype JsonRpcMessage =
    | ErrorResponse(errorId: int, code: int, text: string)
    | ResultResponse(resultId: int, result: string)
    | Notification(designator: string, payload: string)
    | Request(requestId: int, method_: string, params: string)

  class WebSocketConnectionManager {
    /** Messages submitted to the channel: connection id and message. */
    var submitted: seq<(nat, JsonRpcMessage)>

    constructor()
      ensures submitted == []
    {
      submitted := [];
    }

    /**
     * `SendMessageToConnection`: `info` is the parse of `result` as an
     * error `Info` (None when it does not parse); it becomes the error
     * member when both code and text are set, otherwise `result` is sent
     * as the result.
     */
    method SendMessageToConnection(connectionId: nat, result: string, info: Option<Info>, requestId: int)
      returns (ok: bool)
      modifies this
      ensures ok
      ensures info.Some? && info.value.code.Some? && info.value.text.Some? ==>
        submitted == old(submitted) + [(connectionId, ErrorResponse(requestId, info.value.code.value, info.value.text.value))]
      ensures !(info.Some? && info.value.code.Some? && info.value.text.Some?) ==>
        submitted == old(submitted) + [(connectionId, ResultResponse(requestId, result))]
    {
      if info.Some? && info.value.code.Some? && info.value.text.Some? {
        submitted := submitted + [(connectionId, ErrorResponse(requestId, info.value.code.value, info.value.text.value))];
      } else {
        submitted := submitted + [(connectionId, ResultResponse(requestId, result))];
      }
      return true;
    }

    method DispatchNotificationToConnection(connectionId: nat, designator: string, payload: string) returns (ok: bool)
      modifies this
      ensures ok && submitted == old(submitted) + [(connectionId, Notification(designator, payload))]
    {
      submitted := submitted + [(connectionId, Notification(designator, payload))];
      return true;
    }

    method SendRequestToConnection(connectionId: nat, designator: string, requestId: int, params: string)
      returns (ok: bool)
      modifies this
      ensures ok && submitted == old(submitted) + [(connectionId, Request(requestId, designator, params))]
    {
      submitted := submitted + [(connectionId, Request(requestId, designator, params))];
      return true;
    }
  }
}
