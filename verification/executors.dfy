/** The two ways of draining the queue: one batched exchange carrying every
    request object, or one exchange per request object with the results
    gathered in queue order. The HTTP session and the JSON decoder are one
    parameter, the transport, which maps a request body to what the
    exchange yields. */
module Executors {
  import opened JsonValue
  import opened Failures
  import opened Request
  import opened TaskQueue

  /** What posting a body and decoding the reply yields: the decoded reply,
      or the exception the session or the decoder raised. */
  datatype Exchange = Replied(body: Json) | Threw(exn: Exn)

  /** The session's POST plus `response.json()`, as a function of the body. */
  type Transport = Json -> Exchange

  /** The marker `tasklet` adds to every reply it hands back. */
  const SuccessKey := "success"

  /** One entry of the fan-out result list: the decoded reply with
      "success": true added, or the failure record
      {"success": false, "exception": e, "id": id}. */
  datatype Slot = Answered(response: map<string, Json>) | Failed(exception: Exn, id: nat)

  /** The exception CPython raises for `value["success"] = True` when the
      decoded reply is not a dictionary. */
  function ItemAssignmentError(v: Json): (e: Exn)
    requires !v.JObject?
    ensures e.TypeError?
  {
    match v
    case JArray(_) => TypeError("list indices must be integers or slices, not str")
    case JString(_) => TypeError("'str' object does not support item assignment")
    case JInt(_) => TypeError("'int' object does not support item assignment")
    case JBool(_) => TypeError("'bool' object does not support item assignment")
    case JNull => TypeError("'NoneType' object does not support item assignment")
  }

  /** One dispatched call. Any decoded dictionary is handed back with
      "success": true added, whatever else it says; every exception, from
      the exchange or from marking a reply that is not a dictionary, is
      caught and becomes a failure record carrying `id`. */
  function Tasklet(id: nat, p: Payload, send: Transport): (s: Slot)
    ensures s.Answered? <==> send(ToJson(p)).Replied? && send(ToJson(p)).body.JObject?
    ensures s.Answered? ==>
              && s.response.Keys == send(ToJson(p)).body.fields.Keys + {SuccessKey}
              && s.response[SuccessKey] == JBool(true)
              && forall k :: k in s.response && k != SuccessKey ==>
                   s.response[k] == send(ToJson(p)).body.fields[k]
    ensures s.Failed? ==> s.id == id
    ensures send(ToJson(p)).Threw? ==> s == Failed(send(ToJson(p)).exn, id)
    ensures s.Failed? && send(ToJson(p)).Replied? ==> s.exception.TypeError?
  {
    match send(ToJson(p))
    case Threw(e) => Failed(e, id)
    case Replied(v) =>
      if v.JObject? then Answered(v.fields[SuccessKey := JBool(true)])
      else Failed(ItemAssignmentError(v), id)
  }

  /** A reply that reports a JSON-RPC error is still marked as a success:
      only exceptions become failure records. */
  lemma ErrorReplyCountsAsSuccess(id: nat, p: Payload, send: Transport)
    requires send(ToJson(p)).Replied? && send(ToJson(p)).body.JObject?
    requires "error" in send(ToJson(p)).body.fields
    ensures Tasklet(id, p, send).Answered?
    ensures Tasklet(id, p, send).response[SuccessKey] == JBool(true)
    ensures Tasklet(id, p, send).response["error"] == send(ToJson(p)).body.fields["error"]
  {
  }

  /** The batch executor: one exchange carrying the whole queue. On a reply
      the decoded body is returned untouched and the queue is reset; on an
      exception the exception is re-raised and the client is left exactly
      as it was. */
  function ExecBatch(c: Client, send: Transport): (s: Step<Json>)
    ensures s.result.Ok? <==> send(BatchBody(c.tasks)).Replied?
    ensures s.result.Ok? ==> s.result.value == send(BatchBody(c.tasks)).body
    ensures s.result.Ok? ==> s.client.tasks == [] && s.client.currentId == 0
    ensures s.result.Raised? ==> s.result.exn == send(BatchBody(c.tasks)).exn && s.client == c
    ensures s.client.url == c.url && s.client.maxTasks == c.maxTasks
    ensures Valid(c) ==> Valid(s.client)
  {
    match send(BatchBody(c.tasks))
    case Replied(v) => Step(Reset(c), Ok(v))
    case Threw(e) => Step(c, Raised(e))
  }

  /** The single body the batch executor posts is the whole queue, in queue
      order; for a valid client its ids run 0..n-1. */
  lemma BatchSendsWholeQueue(c: Client)
    requires Valid(c)
    ensures DecodeBatch(BatchBody(c.tasks)) == Some(c.tasks)
    ensures forall i :: 0 <= i < |c.tasks| ==>
              FromJson(BatchBody(c.tasks).items[i]).value.id == i
  {
    BatchRoundTrip(c.tasks);
  }

  /** The fan-out executor: every queued request object goes out on its own
      exchange, and the results come back in queue order, one slot per
      entry, never short-circuited by a failure. The call itself never
      raises, and the queue is always reset afterwards. */
  function ExecAsync(c: Client, send: Transport): (s: Step<seq<Slot>>)
    ensures s.result.Ok?
    ensures s.client.tasks == [] && s.client.currentId == 0
    ensures s.client.url == c.url && s.client.maxTasks == c.maxTasks
    ensures |s.result.value| == |c.tasks|
    ensures forall i :: 0 <= i < |c.tasks| ==> s.result.value[i] == Tasklet(i, c.tasks[i], send)
  {
    var outputs := seq(|c.tasks|, i requires 0 <= i < |c.tasks| => Tasklet(i, c.tasks[i], send));
    Step(Reset(c), Ok(outputs))
  }

  /** In a valid client the failure record of slot i carries the
      correlation id of the i-th queued request object, and an answered
      slot is marked as a success. */
  lemma FanOutCorrelates(c: Client, send: Transport, i: nat)
    requires Valid(c) && i < |c.tasks|
    ensures var out := ExecAsync(c, send).result.value;
      && (out[i].Failed? ==> out[i].id == c.tasks[i].id == i)
      && (out[i].Answered? ==> out[i].response[SuccessKey] == JBool(true))
  {
  }

  /** Slot i depends on nothing but what call i's exchange yields: two
      transports that agree on that one body give the same slot i. */
  lemma SlotDependsOnlyOnItsCall(c: Client, send1: Transport, send2: Transport, i: nat)
    requires i < |c.tasks|
    requires send1(ToJson(c.tasks[i])) == send2(ToJson(c.tasks[i]))
    ensures ExecAsync(c, send1).result.value[i] == ExecAsync(c, send2).result.value[i]
  {
  }

  /** A failure forced on call j of a valid client turns slot j into j's
      failure record and leaves every other slot exactly as it would have
      been: the request objects of distinct entries differ in their ids. */
  lemma FailureIsolated(c: Client, send: Transport, j: nat, e: Exn)
    requires Valid(c) && j < |c.tasks|
    ensures var failing := (b: Json) => if b == ToJson(c.tasks[j]) then Threw(e) else send(b);
      var out := ExecAsync(c, failing).result.value;
      && out[j] == Failed(e, j)
      && forall i :: 0 <= i < |c.tasks| && i != j ==> out[i] == ExecAsync(c, send).result.value[i]
  {
    forall i | 0 <= i < |c.tasks| && i != j
      ensures ToJson(c.tasks[i]) != ToJson(c.tasks[j])
    {
      EncodeDecode(c.tasks[i]);
      EncodeDecode(c.tasks[j]);
    }
  }

  /** One call a caller can make on the client. */
  datatype Op =
    | PushOp(task: Task)
    | SetMaxTasksOp(n: int)
    | BatchOp(batchSend: Transport)
    | AsyncOp(asyncSend: Transport)

  /** The client state after one call, whether it returned or raised. */
  function Apply(c: Client, op: Op): Client
  {
    match op
    case PushOp(t) => Push(c, t).client
    case SetMaxTasksOp(n) => SetMaxTasks(c, n)
    case BatchOp(send) => ExecBatch(c, send).client
    case AsyncOp(send) => ExecAsync(c, send).client
  }

  /** The client state after a run of calls, each exception caught by the
      caller before the next call. */
  function Run(c: Client, ops: seq<Op>): Client
    decreases |ops|
  {
    if ops == [] then c else Run(Apply(c, ops[0]), ops[1..])
  }

  /** Dense ids survive any run of calls on a client that has them: after
      every run, the counter equals the queue length and entry i carries
      id i. */
  lemma {:induction false} RunKeepsIdsDense(c: Client, ops: seq<Op>)
    requires Valid(c)
    ensures Valid(Run(c, ops))
    decreases |ops|
  {
    if ops != [] {
      RunKeepsIdsDense(Apply(c, ops[0]), ops[1..]);
    }
  }

  /** Any run of calls from a new client keeps ids dense. */
  lemma NewClientRunsKeepIdsDense(url: string, maxTasks: int, ops: seq<Op>)
    ensures var c := Run(New(url, maxTasks), ops);
      && |c.tasks| == c.currentId
      && forall i :: 0 <= i < |c.tasks| ==> c.tasks[i].id == i
  {
    RunKeepsIdsDense(New(url, maxTasks), ops);
  }
}
