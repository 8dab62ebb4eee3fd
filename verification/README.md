# Webcam pipeline core: buffer registry and node scheduling, in Dafny

This project models the two pieces of sequential logic inside the threaded webcam
pipeline of mmpose's `tools/webcam` API.

- **The buffer registry** (`BufferManager`). It maps each unique name to a FIFO queue
  with a `maxsize`; a `maxsize` of 0 or less means unbounded. Every name-based operation
  is guarded. Registering a name twice fails with "already registered". Using an
  unknown name fails with "not registered".
- **The sequential state of a `Node`**, with its threads removed:
  - the ordered input and output bindings;
  - the one-shot binding to a runner;
  - the construction rule that a node with an `enable_key` must override `bypass`;
  - the enable flag and the listeners that toggle it;
  - one iteration of the `run` loop: gather the inputs, call `bypass` or `process`,
    stamp the route, and dispatch the output.

Files:

- `wrappers.dfy`: `Option`, `Result` and `Outcome`.
- `buffer.dfy` (module `Buffers`):
  - the queue value `Buf`, with the registry as `map<string, Buf<T>>`;
  - the registration guard and the `BufferManager` class;
  - the FIFO and capacity lemmas.
- `node_spec.dfy` (module `NodeSpec`):
  - messages, route records and input bindings;
  - one loop iteration as functions on the registry: `Gather`, `Transform`,
    `DispatchTo` and `Step`;
  - the lemmas about them.
- `node.dfy` (module `Nodes`):
  - the `Node` class, with fields for the runner, the enable flag, the bindings and
    the listeners;
  - its methods, each proved to do what the `NodeSpec` functions say.

Modelling choices:

- `process` is an uninterpreted function held by the node.
- `bypass` is an `Option` of such a function. `None` means "not overridden", which is
  the capability the constructor checks.
- A `Message` is an opaque payload plus its list of route records. The output of a
  transform is `Option<Message>`.
- The runner is an `Option` holding a reference to the `BufferManager`.
- A blocking `put` requires that the queue is not full. A blocking `get` requires
  that it is not empty.
- In a node's input fetch, a blocking get on an empty queue is the `Blocked` outcome:
  the iteration is suspended there.
- A non-blocking `put` raises `QueueFull` and a non-blocking `get` raises `QueueEmpty`,
  as `multiprocessing.Queue` does.
- An exception that ends a node's loop is a `Crashed` outcome.

**Inessential inputs.** The documentation comments promise that an inessential input
whose buffer is empty yields `None` without blocking (`nodes/node.py:82-85`,
`nodes/node.py:176-178`). The code instead calls the blocking `get`
(`nodes/node.py:202`, `utils/buffer.py:55-57`). Its `except (IndexError, KeyError)`
(`nodes/node.py:203-206`) catches neither `queue.Empty` nor the `ValueError` raised
for an unknown name, so neither of its branches is ever taken.

The model keeps the written behaviour for essential inputs and the documented one for
inessential inputs:

- An essential input whose queue is empty at its get blocks there, as the written
  blocking `get` does.
  - This can happen after the readiness check (`nodes/node.py:189-192`) has passed,
    when earlier bindings on the same buffer took its items.
  - Gathering then ends as `Blocked`, holding the inputs already fetched, and the
    iteration as `Stalled`.
  - No item is lost, and the iteration never reports "not ready" there.
- An inessential input whose queue is empty gets `None` without blocking.
- An unknown buffer name is not caught and ends the iteration as a failure.
- The written fetch, which also blocks on an inessential input, is kept as
  `NodeSpec.FetchAsWritten`. It is listed under Findings.

"Not ready", which in the loop means sleep and retry, comes only from the readiness
check. That check consumes nothing (`nodes/node.py:189-192`).

## Model

| member | source | states |
|---|---|---|
| `Buffers.GuardDistinguishes` | tools/webcam/webcam_apis/utils/buffer.py:8-28 | the guard passes exactly one of "must exist" / "must not exist"; an unknown name fails with NotRegistered, a duplicate with AlreadyRegistered, so the two errors differ |
| `Buffers.FullIffAtCapacity` | tools/webcam/webcam_apis/utils/buffer.py:40-41 | a queue within its capacity is full exactly when `maxsize > 0` and it holds `maxsize` items; a queue with `maxsize <= 0` is never full |
| `Buffers.PutAllAppends` | tools/webcam/webcam_apis/utils/buffer.py:44-45 | successive puts, each into a non-full queue, append the items at the tail in order |
| `Buffers.TakeAllTakesPrefix` | tools/webcam/webcam_apis/utils/buffer.py:56-57 | n successive gets return the first n items in order and leave the rest |
| `Buffers.FifoRoundTrip` | tools/webcam/webcam_apis/utils/buffer.py:44-57 | putting v1..vn and then getting everything returns the old contents followed by v1..vn, and leaves the queue empty |
| `Buffers.SizesAfterPush` | tools/webcam/webcam_apis/utils/buffer.py:71-76 | after a put, the size snapshot shows one more item in that queue and is unchanged for every other name |
| `Buffers.SizesAfterPop` | tools/webcam/webcam_apis/utils/buffer.py:71-76 | after a get, the size snapshot shows one fewer item in that queue and is unchanged for every other name |
| `Buffers.BufferManager.constructor` | tools/webcam/webcam_apis/utils/buffer.py:33-34 | a new registry has no buffers |
| `Buffers.BufferManager.Contains` | tools/webcam/webcam_apis/utils/buffer.py:36-37 | `name in manager` holds exactly when the name is registered, which is when the "must exist" guard passes |
| `Buffers.BufferManager.RegisterBuffer` | tools/webcam/webcam_apis/utils/buffer.py:39-41 | a registered name fails with AlreadyRegistered and changes nothing; otherwise the name is added with an empty queue of the given maxsize; every queue stays within capacity |
| `Buffers.BufferManager.Put` | tools/webcam/webcam_apis/utils/buffer.py:43-45 | an unknown name fails with NotRegistered and changes nothing; a blocking put needs a non-full queue; a non-blocking put on a full queue fails with QueueFull and changes nothing; otherwise the item is appended at the tail and every other buffer and name is unchanged |
| `Buffers.BufferManager.TryPut` | tools/webcam/webcam_apis/utils/buffer.py:47-53 | an unknown name fails with NotRegistered; a full queue gives false with contents unchanged; a non-full queue gives true with the item appended; other buffers unchanged |
| `Buffers.BufferManager.Get` | tools/webcam/webcam_apis/utils/buffer.py:55-57 | an unknown name fails with NotRegistered; a blocking get needs a non-empty queue; a non-blocking get on an empty queue fails with QueueEmpty; otherwise it returns the head and removes it, other buffers unchanged |
| `Buffers.BufferManager.IsEmpty` | tools/webcam/webcam_apis/utils/buffer.py:59-61 | read-only: fails with NotRegistered exactly for an unknown name; otherwise true exactly when the queue has no items |
| `Buffers.BufferManager.IsFull` | tools/webcam/webcam_apis/utils/buffer.py:63-65 | read-only: fails with NotRegistered exactly for an unknown name; otherwise true exactly when `maxsize > 0` and the queue holds `maxsize` items; never true for `maxsize <= 0` |
| `Buffers.BufferManager.GetInfo` | tools/webcam/webcam_apis/utils/buffer.py:71-76 | the snapshot's keys are exactly the registered names, each mapped to its queue's current length |
| `NodeSpec.CheckEssentialsIff` | tools/webcam/webcam_apis/nodes/node.py:188-192 | the readiness check passes exactly when every essential binding's buffer is registered and non-empty |
| `NodeSpec.CheckEssentialsEmpty` | tools/webcam/webcam_apis/nodes/node.py:189-192 | with the essential buffers registered, one empty essential buffer makes the check report not ready |
| `NodeSpec.UnreadyTouchesNothing` | tools/webcam/webcam_apis/nodes/node.py:186-192 | when an essential buffer is empty, gathering reports not ready and every buffer is left exactly as it was |
| `NodeSpec.FetchKeys` | tools/webcam/webcam_apis/nodes/node.py:200-210 | a fetch that ends ready has as keys the starting keys plus every binding's input name |
| `NodeSpec.FetchKeepsOthers` | tools/webcam/webcam_apis/nodes/node.py:200-208 | a fetch writes only the bindings' input names; every other key keeps its starting value |
| `NodeSpec.FetchConsumes` | tools/webcam/webcam_apis/nodes/node.py:200-210 | a fetch that ends ready had every buffer registered, keeps the set of names, and removes from each buffer exactly one item per binding reading it (all of them if fewer) |
| `NodeSpec.FetchValues` | tools/webcam/webcam_apis/nodes/node.py:200-210 | in a fetch that ends ready, the value under an input name is set by its last binding: the item of that buffer at the position given by the earlier bindings on the same buffer, or None past the end |
| `NodeSpec.FetchReadyWhenDistinct` | tools/webcam/webcam_apis/nodes/node.py:82-85 | with one binding per buffer, all registered and every essential one non-empty, the fetch never reports not ready or fails |
| `NodeSpec.FetchNeverNotReady` | tools/webcam/webcam_apis/nodes/node.py:200-210 | the fetch phase never returns "not ready": its stops are a blocked get or an error |
| `NodeSpec.FetchBlockedAfterPrefix` | tools/webcam/webcam_apis/nodes/node.py:200-202 | a fetch that blocks does so at an essential binding j whose buffer is empty; what it holds and the buffers it leaves are exactly the ready outcome of fetching the bindings before j |
| `NodeSpec.FetchFailsOnlyOnBuffers` | tools/webcam/webcam_apis/nodes/node.py:200-206 | the only failure the fetch raises is a buffer error (the unknown-name error that the except clause does not catch) |
| `NodeSpec.GatherKeys` | tools/webcam/webcam_apis/nodes/node.py:194-198 | when ready, the packed inputs' keys are exactly the registered input names |
| `NodeSpec.GatherReady` | tools/webcam/webcam_apis/nodes/node.py:186-210 | when ready: all bindings registered, all essential buffers were non-empty, each buffer lost one item per binding in binding order, and each input name holds the item its last binding took, or None |
| `NodeSpec.GatherDistinct` | tools/webcam/webcam_apis/nodes/node.py:172-210 | with one binding per buffer and the essential buffers non-empty, gathering is ready; each input gets its buffer's head, or None for an empty inessential buffer; each bound buffer loses its head; unbound buffers are unchanged |
| `NodeSpec.GatherBlocked` | tools/webcam/webcam_apis/nodes/node.py:186-210 | gathering blocks only on an essential buffer that was non-empty at the readiness check and that the earlier bindings on it used up; it then holds exactly what fetching those earlier bindings gives |
| `NodeSpec.SharedEssentialBlocks` | tools/webcam/webcam_apis/nodes/node.py:189-206 | an inessential and then an essential binding on one buffer holding one item: the first takes the item and the second blocks holding it, with the buffer empty; the written fetch blocks too |
| `NodeSpec.InessentialEmptyBlocksAsWritten` | tools/webcam/webcam_apis/nodes/node.py:200-206 | for one inessential binding on an empty buffer, the written blocking fetch never returns, while the documented fetch is ready with that input None and no buffer changed |
| `NodeSpec.DispatchDelivers` | tools/webcam/webcam_apis/nodes/node.py:283-287 | with all output buffers registered and room for every put, dispatch succeeds and appends the message to each buffer once per binding naming it; names and other buffers are unchanged |
| `NodeSpec.DispatchStopsAtUnknown` | tools/webcam/webcam_apis/nodes/node.py:284-287 | puts follow binding order: if binding j is the first unknown buffer, dispatch fails naming it after delivering to exactly the bindings before j |
| `NodeSpec.DispatchKeepsCapacity` | tools/webcam/webcam_apis/nodes/node.py:284-287 | a dispatch whose puts all find room keeps every queue within its capacity |
| `NodeSpec.StepWaitsUntouched` | tools/webcam/webcam_apis/nodes/node.py:262-266 | the iteration waits exactly when the readiness check finds an empty essential buffer, and whenever it waits no buffer has changed |
| `NodeSpec.StepDisabled` | tools/webcam/webcam_apis/nodes/node.py:268-271 | disabled and ready, with room in the output buffers: the output is `bypass(inputs)` unchanged, with no route record, and a non-empty output is appended to each output buffer once per binding |
| `NodeSpec.StepEnabled` | tools/webcam/webcam_apis/nodes/node.py:272-287 | enabled and ready, with room in the output buffers: an empty `process` output changes nothing more; a non-empty one keeps its payload, gains exactly one route record for this node, and is appended to each output buffer once per binding |
| `NodeSpec.StepRouteGrowth` | tools/webcam/webcam_apis/nodes/node.py:268-282 | an emitted message's route extends the transform's route by one record when enabled and by none when disabled |
| `NodeSpec.StepNeedsBypassOnlyWhenDisabled` | tools/webcam/webcam_apis/nodes/node.py:230-246 | an iteration fails for lack of `bypass` only when the node is disabled and does not override `bypass` |
| `Nodes.Node.constructor` | tools/webcam/webcam_apis/nodes/node.py:35-47 | a new node is enabled, unbound, with no bindings and no listeners |
| `Nodes.Node.Create` | tools/webcam/webcam_apis/nodes/node.py:57-62 | construction fails with ToggleWithoutBypass exactly when the enable key is set (truthy) and `bypass` is not overridden; otherwise it yields a fresh initial node |
| `Nodes.Node.RegisterInputBuffer` | tools/webcam/webcam_apis/nodes/node.py:64-92 | appends exactly one binding (buffer name, input name, essential) at the end; nothing else changes |
| `Nodes.Node.RegisterOutputBuffer` | tools/webcam/webcam_apis/nodes/node.py:94-110 | a single name appends one entry; a list appends one entry per element in list order; nothing else changes |
| `Nodes.Node.RegisterEventHandler` | tools/webcam/webcam_apis/nodes/node.py:112-127 | before a runner is set it fails with NotBoundToRunner and changes nothing; otherwise one event listener is appended |
| `Nodes.Node.RegisterHotkeyHandler` | tools/webcam/webcam_apis/nodes/node.py:129-144 | before a runner is set it fails with NotBoundToRunner and changes nothing; otherwise one hot-key listener is appended |
| `Nodes.Node.SetRunner` | tools/webcam/webcam_apis/nodes/node.py:155-170 | the first call binds the runner, and with a set enable key adds the toggle listener for that key; a second call fails with AlreadyBound and leaves runner and listeners unchanged |
| `Nodes.Node.Toggle` | tools/webcam/webcam_apis/nodes/node.py:166-167 | negates the enable flag, so two toggles restore it |
| `Nodes.Node.HandleTrigger` | tools/webcam/webcam_apis/nodes/node.py:136-140 | one round of a listener: a toggle listener negates the enable flag, an outside handler leaves it alone |
| `Nodes.Node.GetInputFromBuffer` | tools/webcam/webcam_apis/nodes/node.py:172-210 | without a runner it fails; otherwise its result and the new buffers are exactly `Gather` of the old buffers and the bindings: "not ready" only from the check, with nothing consumed; a blocked essential get holds what was fetched |
| `Nodes.Node.RunOnce` | tools/webcam/webcam_apis/nodes/node.py:253-287 | without a runner it fails; otherwise its outcome and the new buffers are exactly `Step` of the old buffers (`Waiting` with nothing consumed, `Stalled` in a blocking get); a valid node never fails for lack of `bypass` |

## Left out

- Threads are not modelled: the `Thread` base class, the daemon listener threads and
  their endless wait/handle/clear loops, and the `time.sleep` polling. Instead,
  `Node.RunOnce` is one loop iteration, where `Waiting` stands for "sleep and retry",
  and `Node.HandleTrigger` is one round of a listener. The trigger registry's `wait` and
  `clear` are outside the model.
- `limit_max_fps`, the `StopWatch` timer and `_get_node_info` involve wall-clock time and
  floating-point rates. They are not modelled. The route metrics are an opaque
  `RouteInfo` that `RunOnce` receives as a parameter. `max_fps` and
  `input_check_interval` are stored or dropped but have no effect.
- `weakref`, `warnings.warn` and the reflective `is_method_overridden` are replaced by
  plain state. The runner is an `Option`, and the override is `bypass` being `Some`.
- The `runner` property is the `runner` field itself.
- `_event2listener` only keeps thread handles, so it is not modelled. The running
  listeners are the `listeners` sequence, because a listener thread never stops even
  when its dictionary entry is overwritten.
- The effect of handlers supplied from outside the node is not modelled (`External`).
  `Node.Valid` therefore assumes that only the toggle listener changes the enable flag.
- `Nodes.Node.RegisterHotkeyHandler`: the source also accepts a `None` key. The model
  takes a `Key`.
- `get_sub_manager` is not modelled. It calls `BufferManager(buffers)`, but the
  constructor takes no arguments, so it cannot run. It would also raise `KeyError`
  rather than the guard's error for an unknown name.
- `multiprocessing.Queue` internals are not modelled, nor the `timeout` of put and get.
  Blocking is modelled only as the precondition "not full" or "not empty". A queue with
  `maxsize <= 0` is unbounded; the platform limit `SEM_VALUE_MAX` is not modelled.
- `Nodes.Node.RunOnce`: a `Stalled` iteration is suspended in a blocking get. The model
  does not resume it when another node later puts into that buffer, because that takes a
  second thread.
- `Nodes.Node.RunOnce` requires room in the output buffers for its blocking puts
  (`StepCanDispatch`). In the source, a full output buffer would stall the node until
  a consumer makes room.
- The bodies of `process` and `bypass` and the internals of `Message` are not modelled.
  "Non-empty output" is `Some`; the truthiness of a `Message` object is not modelled.
- A message is a value. Putting the same object into several output buffers, and the
  in-place `update_route_info`, are not shared references in the model.
- A route record names its node by the node's name, not by the object.

## Findings

| source | as written | input that shows it | evidently intended | confidence | as-written member | corrected member |
|---|---|---|---|---|---|---|
| tools/webcam/webcam_apis/nodes/node.py:200-206 | the fetch calls the blocking `buffer_manager.get`, and `except (IndexError, KeyError)` never sees `queue.Empty`, so an empty inessential buffer blocks the node | one inessential binding whose registered buffer is empty | the documented non-blocking fallback (node.py:82-85): that input is `None` and the iteration goes on | not executed | `NodeSpec.FetchAsWritten`, exhibited by `NodeSpec.InessentialEmptyBlocksAsWritten` | `NodeSpec.FetchFrom`, with the intended behaviour proved in `NodeSpec.GatherDistinct` |
