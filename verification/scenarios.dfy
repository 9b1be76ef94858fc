/** Concrete scenarios, proved as lemmas: a fan-out with one forced failure, a
    bound reached mid-loop, and a failed batch. */
module Scenarios {
  import opened JsonValue
  import opened Failures
  import opened Request
  import opened TaskQueue
  import opened Executors

  /** The task {"method": name, "params": []}. */
  function CallTask(name: string): (t: Task)
    ensures WellFormed(t)
  {
    map["method" := JString(name), "params" := JArray([])]
  }

  /** A node that answers every request object with a result echoing its
      id, except the one with id `bad`, whose exchange raises `e`. */
  function NodeFailingAt(bad: int, e: Exn): Transport
  {
    (b: Json) =>
      if b.JObject? && "id" in b.fields && b.fields["id"] == JInt(bad) then Threw(e)
      else Replied(JObject(map[
        "jsonrpc" := JString(JsonRpcVersion),
        "result" := JNull,
        "id" := if b.JObject? && "id" in b.fields then b.fields["id"] else JNull]))
  }

  /** What the node above makes of the request object with id i. */
  lemma NodeSlot(p: Payload, i: nat, bad: int, e: Exn)
    requires p.id == i
    ensures i == bad ==> Tasklet(i, p, NodeFailingAt(bad, e)) == Failed(e, i)
    ensures i != bad ==>
              && Tasklet(i, p, NodeFailingAt(bad, e)).Answered?
              && Tasklet(i, p, NodeFailingAt(bad, e)).response["id"] == JInt(i)
              && Tasklet(i, p, NodeFailingAt(bad, e)).response[SuccessKey] == JBool(true)
  {
    var b := ToJson(p);
    assert b.fields["id"] == JInt(i);
    if i != bad {
      var reply := NodeFailingAt(bad, e)(b);
      assert reply.body.fields["id"] == JInt(i);
    }
  }

  /** On any valid client, the fan-out against a node that fails call
      `bad` gives the failure record for `bad` in slot `bad`, answered
      replies echoing their own ids in every other slot, and an empty
      queue. */
  lemma FanOutAgainstNodeFailingAt(q: Client, bad: nat, e: Exn)
    requires Valid(q) && bad < |q.tasks|
    ensures var s := ExecAsync(q, NodeFailingAt(bad, e));
      var out := s.result.value;
      && |out| == |q.tasks|
      && out[bad] == Failed(e, bad)
      && (forall i :: 0 <= i < |q.tasks| && i != bad ==>
            out[i].Answered? && out[i].response["id"] == JInt(i)
            && out[i].response[SuccessKey] == JBool(true))
      && |s.client.tasks| == 0
  {
    var out := ExecAsync(q, NodeFailingAt(bad, e)).result.value;
    forall i | 0 <= i < |q.tasks|
      ensures i == bad ==> out[i] == Failed(e, bad)
      ensures i != bad ==> out[i].Answered? && out[i].response["id"] == JInt(i)
                           && out[i].response[SuccessKey] == JBool(true)
    {
      NodeSlot(q.tasks[i], i, bad, e);
    }
  }

  /** Five calls m0..m4 with call 2 forced to fail with "boom": slot 2 is
      the failure record for id 2, the other four are answered replies
      tagged with their own ids, and the queue ends up empty. */
  lemma FanOutWithOneFailure(url: string)
    ensures var ts := [CallTask("m0"), CallTask("m1"), CallTask("m2"), CallTask("m3"), CallTask("m4")];
      var pushed := PushAll(New(url), ts);
      var boom := Foreign("Exception", "boom");
      var s := ExecAsync(pushed.client, NodeFailingAt(2, boom));
      var out := s.result.value;
      && pushed.result.Ok?
      && |out| == 5
      && out[2] == Failed(boom, 2)
      && (forall i :: 0 <= i < 5 && i != 2 ==>
            out[i].Answered? && out[i].response["id"] == JInt(i)
            && out[i].response[SuccessKey] == JBool(true))
      && |s.client.tasks| == 0
  {
    var ts := [CallTask("m0"), CallTask("m1"), CallTask("m2"), CallTask("m3"), CallTask("m4")];
    FreshIdsAreDense(url, DefaultMaxTasks, ts);
    var q := PushAll(New(url), ts).client;
    assert Valid(q);
    FanOutAgainstNodeFailingAt(q, 2, Foreign("Exception", "boom"));
  }

  /** With the bound set to 2, a loop of three pushes raises the capacity
      exception on the third and leaves the first two queued. */
  lemma ThirdPushOverBound(url: string)
    ensures var c := SetMaxTasks(New(url), 2);
      var s := PushAll(c, [CallTask("a"), CallTask("b"), CallTask("c")]);
      && s.result == Raised(Exception(MaxTasksMessage))
      && |s.client.tasks| == 2
      && s.client.currentId == 2
  {
    var c := SetMaxTasks(New(url), 2);
    PushAllOverflows(c, [CallTask("a"), CallTask("b"), CallTask("c")]);
  }

  /** A batch whose exchange raises re-raises that exception and keeps the
      whole queue, ids included. */
  lemma FailedBatchKeepsQueue(url: string, e: Exn)
    ensures var pushed := PushAll(New(url), [CallTask("a"), CallTask("b")]).client;
      var s := ExecBatch(pushed, (b: Json) => Threw(e));
      && s.result == Raised(e)
      && s.client == pushed
      && |s.client.tasks| == 2 && s.client.currentId == 2
  {
    PushAllFits(New(url), [CallTask("a"), CallTask("b")]);
  }
}
