# aio-eth task queue, modelled in Dafny

`aio_eth` is a small asyncio client for JSON-RPC nodes (Ethereum-style
`eth_*` calls). A caller queues calls with `push_task`, then drains the
queue in one of two ways: `exec_tasks_batch` posts every queued request
object as one JSON-RPC 2.0 batch (section 6 of the JSON-RPC 2.0
Specification), and `exec_tasks_async` posts each request object (section 4
of the same specification) on its own, gathers the replies in queue order
and turns each per-call exception into a failure record.

The model is functional. The client is an immutable value
`Client(url, tasks, currentId, maxTasks)`. Every operation is a pure function. Each
call that can return a value or raise returns a `Step`: the client state
afterwards, and what the Python call returned or raised. `New`,
`SetMaxTasks` and `Reset` return the new `Client` directly. The HTTP session with its `response.json()` is one
parameter, a `Transport` mapping a request body to `Replied(decoded body)`
or `Threw(exception)`. Both executors are therefore functions of the client
and the transport. `asyncio.gather` becomes a sequence built index by index.

Files:
- `json_value.dfy` (`JsonValue`): decoded JSON values.
- `failures.dfy` (`Failures`): `Option`, the Python exceptions involved (`Exn`), `Result`.
- `request.dfy` (`Request`): the request object, the batch body, and their decoders.
- `task_queue.dfy` (`TaskQueue`): client state, the dense-id invariant `Valid`, the constructor, `push_task`, `set_max_tasks`.
- `executors.dfy` (`Executors`): `tasklet`, both executors, and the invariant over any run of calls.
- `scenarios.dfy` (`Scenarios`): three concrete scenarios, proved as lemmas.

Some of the code's behaviour differs from what a reader might expect. The
model follows the code:
- A reader might expect a failed batch to reset the queue. A failed batch
  exchange does not reset it. The `except` branch only
  re-raises (aio_eth/__init__.py:70-71). The reset happens only after a
  decoded reply (aio_eth/__init__.py:65-66).
- `tasklet` marks every decoded dictionary with `"success": True`, including
  a JSON-RPC error reply (aio_eth/__init__.py:34-37). Only an exception becomes
  a failure record (aio_eth/__init__.py:39-40).
- The failure record's `id` is always the enumerate index
  (aio_eth/__init__.py:75-77). It is never "unknown".
- A decoded reply that is not a dictionary (a list, a string, a number,
  `null`) makes `json_resp['success'] = True` raise `TypeError`. That
  exception is caught like any other, so the slot becomes a failure record.
- A task dictionary without `"method"` or `"params"` makes `push_task` raise
  `KeyError`. This happens after the capacity guard and before anything is
  appended, so the client is unchanged.

## Model

| member | source | states |
|---|---|---|
| TaskQueue.New | aio_eth/__init__.py:7-11 | a new client has an empty queue, counter 0, the given bound (default 100) and satisfies the dense-id invariant |
| TaskQueue.Push | aio_eth/__init__.py:42-55 | push succeeds iff the counter is below the bound and the task has "method" and "params"; the guard's exception comes first, then KeyError("method"), then KeyError("params"); any exception leaves the client unchanged; success appends exactly one entry with the old counter as id, keeps all earlier entries, increments the counter and preserves the invariant |
| TaskQueue.Reset | aio_eth/__init__.py:82-83 | the terminal step of both executors (also lines 65-66 for the batch) leaves an empty queue, counter 0, the same url and bound, and a client satisfying the dense-id invariant |
| TaskQueue.PushedRequest | aio_eth/__init__.py:47-52 | the object a successful push queues carries jsonrpc "2.0", the task's method and params, and the old counter as id |
| TaskQueue.SetMaxTasks | aio_eth/__init__.py:86-87 | only the bound changes; queue, counter and url are kept and the invariant is preserved |
| TaskQueue.BoundGovernsNextPush | aio_eth/__init__.py:44-45 | after setting the bound to n the next push succeeds iff the queue length is below n and the task is well-formed; a bound at or below the queue length makes the next push raise and keeps the queued entries |
| TaskQueue.PushAllFits | aio_eth/__init__.py:42-55 | pushing well-formed tasks within the bound succeeds and appends one entry per task in push order, ids counting on from the old counter |
| TaskQueue.PushAllOverflows | aio_eth/__init__.py:44-55 | pushing more well-formed tasks than the bound has room for raises the capacity exception after exactly the admitted pushes, which stay queued |
| TaskQueue.FreshIdsAreDense | aio_eth/__init__.py:47-55 | n well-formed pushes on a new client with bound at least n queue exactly ids 0..n-1, entry i built from the i-th task |
| Request.ToJson | aio_eth/__init__.py:47-52 | the request object has exactly the members jsonrpc, method, params and id, with version "2.0", the entry's method and params, and its correlation id |
| Request.EncodeAll | aio_eth/__init__.py:60 | the posted list has one request object per queued entry, entry i's object at position i |
| Request.FromJson | aio_eth/__init__.py:47-52 | a decoded request object has version "2.0" and is exactly the encoding of the payload it yields |
| Request.EncodeDecode | aio_eth/__init__.py:47-52 | every request object has exactly the four members and decodes back to its payload |
| Request.BatchBody | aio_eth/__init__.py:59-61 | the batch body is an array with one request object per queued entry, in queue order |
| Request.DecodeAll | aio_eth/__init__.py:59-61 | any array of request objects that decodes is exactly the encoding of the decoded queue |
| Request.DecodeEncodeAll | aio_eth/__init__.py:59-61 | encoding a queue and decoding it gives the queue back |
| Request.DecodeBatch | aio_eth/__init__.py:59-61 | any body that decodes as a batch is exactly the batch body of the decoded queue |
| Request.BatchRoundTrip | aio_eth/__init__.py:59-61 | the batch body decodes back to the whole queue |
| Executors.ItemAssignmentError | aio_eth/__init__.py:35 | marking a decoded reply that is not a dictionary raises TypeError |
| Executors.Tasklet | aio_eth/__init__.py:21-40 | a slot is answered iff the exchange yields a decoded dictionary; the answer is that dictionary with "success": true added and nothing else changed; an exchange exception becomes a failure record with that exception and the call's id; a non-dictionary reply becomes a TypeError failure record |
| Executors.ErrorReplyCountsAsSuccess | aio_eth/__init__.py:34-37 | a reply holding a JSON-RPC "error" member is still answered and marked success true, with the error kept |
| Executors.ExecBatch | aio_eth/__init__.py:57-71 | the batch returns the decoded reply unmodified iff the single exchange replies, then the queue is empty and the counter 0; an exchange exception is re-raised and the client is unchanged; the invariant is preserved |
| Executors.BatchSendsWholeQueue | aio_eth/__init__.py:59-61 | the one body posted decodes to the entire queue in order, with ids 0..n-1 |
| Executors.ExecAsync | aio_eth/__init__.py:73-84 | the fan-out never raises, returns one slot per queued entry with slot i the outcome of dispatching entry i, and always leaves the queue empty and the counter 0 |
| Executors.FanOutCorrelates | aio_eth/__init__.py:73-80 | in a valid client a failed slot i carries id i, the correlation id of entry i, and an answered slot is marked success true |
| Executors.SlotDependsOnlyOnItsCall | aio_eth/__init__.py:74-80 | two transports that agree on call i's body give the same slot i |
| Executors.FailureIsolated | aio_eth/__init__.py:28-40 | forcing call j to fail makes slot j its failure record and leaves every other slot unchanged |
| Executors.RunKeepsIdsDense | aio_eth/__init__.py:42-87 | any run of push, set-bound, batch and fan-out calls, exceptions caught between calls, preserves the dense-id invariant |
| Executors.NewClientRunsKeepIdsDense | aio_eth/__init__.py:7-11 | after any run of calls from a new client the counter equals the queue length and entry i has id i |
| Scenarios.FanOutAgainstNodeFailingAt | aio_eth/__init__.py:73-84 | on any valid client, against a node that fails call j, slot j is the failure record for id j, every other slot is answered with its own id and marked success, and the queue ends empty |
| Scenarios.FanOutWithOneFailure | aio_eth/__init__.py:73-84 | five calls with call 2 forced to fail give a failure record for id 2, answered slots echoing ids 0, 1, 3, 4 and an empty queue |
| Scenarios.ThirdPushOverBound | aio_eth/__init__.py:44-45 | with the bound 2 the third push raises and two entries stay queued |
| Scenarios.FailedBatchKeepsQueue | aio_eth/__init__.py:57-71 | a batch whose exchange raises re-raises and keeps both queued entries and the counter |

## Left out

- The aiohttp session lifecycle (`__aenter__`/`__aexit__`, aio_eth/__init__.py:13-19), the HTTP POST and its `Content-Type` header. These are external I/O, folded into the `Transport` parameter. One consequence is not modelled: if `exec_tasks_async` is called before `__aenter__` on a non-empty queue, it raises `AttributeError` outside any `try`, before the reset.
- `asyncio.gather` scheduling and completion order. Only its result is modelled: wait for all, in input order. `BaseException`s such as cancellation, which `return_exceptions=True` would place in the list unwrapped, are not modelled.
- JSON encoding and decoding, and the contents of the exceptions the session or decoder raise. Foreign exceptions are opaque values. Replies are decoded JSON with objects modelled as maps, so key order and duplicate keys are not represented. In particular the model does not record that `json_resp['success'] = True` (aio_eth/__init__.py:35) puts "success" last, or keeps its position when the key already exists. Floating-point JSON numbers are not represented.
- Queued entries are modelled as values. The source keeps references to the caller's method and params objects (aio_eth/__init__.py:49-50, 54) and serialises them only when posting (lines 30 and 60). Mutating those objects between push and execution therefore changes what is posted, which the model does not represent.
- Calls on one client are assumed not to overlap: each call is one atomic step. The source has no lock around its awaits (aio_eth/__init__.py:59-64 and 80). A push made while an executor awaits is discarded by the reset without being sent (lines 82-83 always, lines 65-66 on a successful batch). Two overlapping executor calls would send the same entries twice. `Executors.RunKeepsIdsDense` covers sequential runs only.
- The transport is a function of the request body. Two exchanges with the same body therefore yield the same outcome. Within one fan-out on a valid client all bodies differ, because their ids differ.
- get_data.py is a copy of the same class without `set_max_tasks`, plus a network call at import time. It is not modelled separately. setup.py and examples/async.py are packaging and a timing demo.
