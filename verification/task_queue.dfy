/** The client's task queue: an ordered list of request objects, the next
    correlation id to hand out and a bound on how many ids a queue
    generation may use. */
module TaskQueue {
  import opened JsonValue
  import opened Failures
  import opened Request

  /** The bound a client gets when none is given. */
  const DefaultMaxTasks := 100

  /** The client state: the endpoint, the queued request objects, the
      next correlation id and the bound checked by every push. */
  datatype Client = Client(url: string, tasks: seq<Payload>, currentId: nat, maxTasks: int)

  /** The dictionary a caller hands to `push_task`; only its "method" and
      "params" entries are read. */
  type Task = map<string, Json>

  /** What a call on the client leaves behind: the client state afterwards
      and what the call returned or raised. */
  datatype Step<+T> = Step(client: Client, result: Result<T>)

  /** Ids are dense, 0-based and gapless: the counter equals the queue
      length and entry i carries id i. */
  ghost predicate Valid(c: Client)
  {
    && |c.tasks| == c.currentId
    && forall i :: 0 <= i < |c.tasks| ==> c.tasks[i].id == i
  }

  /** A task `push_task` can read without a KeyError. */
  predicate WellFormed(t: Task)
  {
    "method" in t && "params" in t
  }

  /** The entry a well-formed task becomes when it is given `id`. */
  function Entry(t: Task, id: nat): (p: Payload)
    requires WellFormed(t)
  {
    Payload(t["method"], t["params"], id)
  }

  /** A new client: empty queue, counter 0, the given bound. */
  function New(url: string, maxTasks: int := DefaultMaxTasks): (c: Client)
    ensures Valid(c)
    ensures c.tasks == [] && c.currentId == 0
    ensures c.maxTasks == maxTasks && c.url == url
  {
    Client(url, [], 0, maxTasks)
  }

  /** Queues one call. The capacity guard runs first, then the two key
      lookups; an exception from any of them leaves the client as it was.
      On success exactly one entry is appended, carrying the old counter
      as its id, and the counter moves on by one. */
  function Push(c: Client, task: Task): (s: Step<()>)
    ensures s.result.Ok? <==> c.currentId < c.maxTasks && WellFormed(task)
    ensures c.currentId >= c.maxTasks ==> s.result == Raised(Exception(MaxTasksMessage))
    ensures c.currentId < c.maxTasks && "method" !in task ==> s.result == Raised(KeyError("method"))
    ensures c.currentId < c.maxTasks && "method" in task && "params" !in task ==>
              s.result == Raised(KeyError("params"))
    ensures s.result.Raised? ==> s.client == c
    ensures s.result.Ok? ==>
              && |s.client.tasks| == |c.tasks| + 1
              && s.client.tasks[..|c.tasks|] == c.tasks
              && s.client.tasks[|c.tasks|] == Payload(task["method"], task["params"], c.currentId)
              && s.client.currentId == c.currentId + 1
              && s.client.maxTasks == c.maxTasks && s.client.url == c.url
    ensures Valid(c) ==> Valid(s.client)
  {
    if c.currentId >= c.maxTasks then Step(c, Raised(Exception(MaxTasksMessage)))
    else if "method" !in task then Step(c, Raised(KeyError("method")))
    else if "params" !in task then Step(c, Raised(KeyError("params")))
    else
      var p := Entry(task, c.currentId);
      Step(c.(tasks := c.tasks + [p], currentId := c.currentId + 1), Ok(()))
  }

  /** The request object a successful push queues announces version "2.0",
      the task's method and params, and the old counter as its id. */
  lemma PushedRequest(c: Client, task: Task)
    requires Push(c, task).result.Ok?
    ensures var obj := ToJson(Push(c, task).client.tasks[|c.tasks|]);
      && obj.fields["jsonrpc"] == JString(JsonRpcVersion)
      && obj.fields["method"] == task["method"]
      && obj.fields["params"] == task["params"]
      && obj.fields["id"] == JInt(c.currentId)
  {
  }

  /** Replaces the bound and nothing else. */
  function SetMaxTasks(c: Client, n: int): (r: Client)
    ensures r.maxTasks == n
    ensures r.tasks == c.tasks && r.currentId == c.currentId && r.url == c.url
    ensures Valid(c) ==> Valid(r)
  {
    c.(maxTasks := n)
  }

  /** The new bound is only consulted by the next push, and it is consulted
      even when it is already below the queue length: the queued entries
      stay, and the push fails. */
  lemma BoundGovernsNextPush(c: Client, n: int, task: Task)
    requires Valid(c)
    ensures Push(SetMaxTasks(c, n), task).result.Ok? <==> |c.tasks| < n && WellFormed(task)
    ensures n <= |c.tasks| ==>
              Push(SetMaxTasks(c, n), task) == Step(SetMaxTasks(c, n), Raised(Exception(MaxTasksMessage)))
  {
  }

  /** The terminal step of both executors: empty queue, counter back to 0. */
  function Reset(c: Client): (r: Client)
    ensures Valid(r)
    ensures r.tasks == [] && r.currentId == 0
    ensures r.url == c.url && r.maxTasks == c.maxTasks
  {
    c.(tasks := [], currentId := 0)
  }

  /** Pushes tasks in order, as a caller's loop of `push_task` calls does:
      the first exception stops the loop, and the pushes before it stay. */
  function PushAll(c: Client, ts: seq<Task>): (s: Step<()>)
    decreases |ts|
  {
    if ts == [] then Step(c, Ok(()))
    else
      var first := Push(c, ts[0]);
      if first.result.Raised? then first else PushAll(first.client, ts[1..])
  }

  /** How many more pushes the bound admits. */
  function Room(c: Client): nat
  {
    if c.maxTasks > c.currentId then c.maxTasks - c.currentId else 0
  }

  /** The entries a run of well-formed tasks becomes, ids counting up from
      `from`. */
  function Entries(ts: seq<Task>, from: nat): (ps: seq<Payload>)
    requires forall i :: 0 <= i < |ts| ==> WellFormed(ts[i])
  {
    seq(|ts|, i requires 0 <= i < |ts| => Entry(ts[i], from + i))
  }

  /** When the bound has room for all of them, pushing well-formed tasks
      succeeds and appends one entry per task, in push order, with ids
      counting on from the old counter. */
  lemma {:induction false} PushAllFits(c: Client, ts: seq<Task>)
    requires forall i :: 0 <= i < |ts| ==> WellFormed(ts[i])
    requires |ts| <= Room(c)
    ensures PushAll(c, ts).result.Ok?
    ensures PushAll(c, ts).client == c.(tasks := c.tasks + Entries(ts, c.currentId),
                                        currentId := c.currentId + |ts|)
    decreases |ts|
  {
    if ts != [] {
      var c1 := Push(c, ts[0]).client;
      assert c1 == c.(tasks := c.tasks + [Entry(ts[0], c.currentId)], currentId := c.currentId + 1);
      PushAllFits(c1, ts[1..]);
      assert Entries(ts, c.currentId) == [Entry(ts[0], c.currentId)] + Entries(ts[1..], c1.currentId);
    }
  }

  /** When the bound has no room for all of them, pushing well-formed tasks
      raises the capacity exception after exactly as many pushes as the
      bound had room for, and those pushes stay queued. */
  lemma {:induction false} PushAllOverflows(c: Client, ts: seq<Task>)
    requires forall i :: 0 <= i < |ts| ==> WellFormed(ts[i])
    requires |ts| > Room(c)
    ensures PushAll(c, ts).result == Raised(Exception(MaxTasksMessage))
    ensures PushAll(c, ts).client == c.(tasks := c.tasks + Entries(ts[..Room(c)], c.currentId),
                                        currentId := c.currentId + Room(c))
    decreases |ts|
  {
    if Room(c) == 0 {
      assert Entries(ts[..0], c.currentId) == [];
      assert c.tasks + [] == c.tasks;
    } else {
      var c1 := Push(c, ts[0]).client;
      assert c1 == c.(tasks := c.tasks + [Entry(ts[0], c.currentId)], currentId := c.currentId + 1);
      assert Room(c1) == Room(c) - 1;
      PushAllOverflows(c1, ts[1..]);
      assert ts[1..][..Room(c1)] == ts[1..Room(c)];
      assert Entries(ts[..Room(c)], c.currentId)
          == [Entry(ts[0], c.currentId)] + Entries(ts[1..Room(c)], c1.currentId);
    }
  }

  /** n well-formed pushes on a new client with room for them queue
      exactly ids 0..n-1, entry i built from the i-th task. */
  lemma FreshIdsAreDense(url: string, maxTasks: int, ts: seq<Task>)
    requires forall i :: 0 <= i < |ts| ==> WellFormed(ts[i])
    requires |ts| <= maxTasks
    ensures var s := PushAll(New(url, maxTasks), ts);
      && s.result.Ok?
      && |s.client.tasks| == |ts| == s.client.currentId
      && forall i :: 0 <= i < |ts| ==> s.client.tasks[i].id == i && s.client.tasks[i] == Entry(ts[i], i)
  {
    PushAllFits(New(url, maxTasks), ts);
  }
}
