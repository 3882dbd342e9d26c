# ml-webview training server, toast queue and progress callback in Dafny

This project models the stateful parts of ml-webview, a web front end for
watching a neural-network training run:

- **The training server** (`backend/app.py`). The module-level training thread
  and `training_history` list become the class `TrainingServer.Server`. Its
  methods are:
  - `/start`: refuses a second run while one is alive.
  - The progress callback: appends each event to the history and broadcasts it as `update`.
  - The connect handler: replays the whole history to a new client, but only when the history is not empty.
- **The training function** (`backend/mnistSimple.py`) appears only as an
  event source, `WorkUnit.TrainCallbacks`. It makes one callback per epoch,
  for epochs 1 to 50 in order, and makes none when no callback is given.
  Losses come from an oracle function and are never computed on.
- **The callback object** (`backend/interface.py`). `Interface.SocketCallback`
  holds references to a shared history list, a socket and a stop event.
  `Update` appends to the shared list, so the owner of the list sees the
  appends. `Finished` and `Stop` only emit `status` `{training: false}`.
- **The toast queue** (`frontend/src/lib/toast.js`). The two store updaters
  are the pure functions `Toasts.Appended` and `Toasts.WithoutId`.
  `Toasts.ToastStore` is the writable store. Its `ShowToast` and `Expire`
  methods replace the list.

Socket.IO emission is modelled as appending to an `outbox` sequence.
`Progress.Message` has three constructors, one each for `update`, `history`
and `status`.

A run controller of this kind is commonly expected to behave in three ways
that this code does not. The model follows the code in each case:

- One might expect the replay buffer to be cleared when a new run starts.
  The code never clears `training_history` (backend/app.py:14, 40-43), so the
  history accumulates across runs. `TrainingServer.TwoRuns` and
  `TrainingServer.AccumulatedHistoryNotAscending` state the consequence.
- One might expect a late joiner never to receive an event twice. The
  connect handler's `history` message is a broadcast to every connected
  client (backend/app.py:28). Each later connect therefore sends the whole
  history again to the clients already connected.
  `TrainingServer.LateJoiner` holds only while no other client connects
  afterwards; `TrainingServer.SecondJoinerResendsHistory` shows the
  duplicate.
- One might expect a stop operation, a status query, end timestamps and a
  store of finished runs. The modelled code has none of these.
  `SocketCallback.stop` only emits a status message, and nothing reads
  `stop_event`.

## Model

| member | source | states |
|---|---|---|
| TrainingServer.Server.constructor | backend/app.py:13-14 | At process start no thread exists, the history is empty and nothing has been emitted. |
| TrainingServer.Server.Start | backend/app.py:38-46 | When no run is alive, launches exactly one run and replies "Training started!". When a run is alive, replies "Training already in progress!" and launches nothing. Either way the history and the emitted messages stay as they were. |
| TrainingServer.Server.OnProgress | backend/app.py:17-19 | Appends the event at the end of the history, leaving earlier entries alone. Emits one `update` carrying that same event. |
| TrainingServer.Server.ThreadExits | backend/app.py:16-21 | Once `train_model` returns or raises, the thread is no longer alive. The history keeps whatever was appended before. |
| TrainingServer.Server.ReportEpochs | backend/app.py:17-21 | During a run, the callback reports epochs `from + 1` to `to`. They are appended after the existing history, in ascending order, and each is emitted once as an `update`, in the same order. |
| TrainingServer.Server.RunToCompletion | backend/app.py:16-21 | A launched run appends the work unit's 50 epoch events, in order, after the existing history. It emits exactly one `update` per event, in the same order, and the thread is then no longer alive. |
| TrainingServer.Server.Connect | backend/app.py:23-28 | A non-empty history is sent whole, once, as one `history` message. An empty history sends nothing. History and running state are unchanged. |
| TrainingServer.Server.Disconnect | backend/app.py:30-32 | Changes nothing. |
| TrainingServer.TwoRuns | backend/app.py:40-43 | Two consecutive runs are both accepted. The history afterwards is the first run's events followed by the second run's events. |
| TrainingServer.StartDuringRun | backend/app.py:41-46 | After any number k of the 50 epochs, a start is refused and does not launch a second run. The run goes on to report all 50 epochs, and a client connecting afterwards is replayed exactly those events. |
| TrainingServer.LateJoiner | backend/app.py:17-28 | Take a client that connects mid-run while no other client connects after it. It is sent the earlier events as one `history` message, or nothing if there are none yet, and then every later event as an `update`. No event is missed and none is sent twice. |
| TrainingServer.SecondJoinerResendsHistory | backend/app.py:17-28 | The `history` message of a second connect also reaches the client that connected first, so that client receives the earlier events twice. |
| TrainingServer.AccumulatedHistoryNotAscending | backend/app.py:14-18 | Because start never clears the history, the history after two runs is not in strictly ascending epoch order. |
| WorkUnit.TrainCallbacks | backend/mnistSimple.py:35-58 | With a callback, the events are exactly epochs 1 to 50, each with its own loss, in strictly ascending order. Without a callback there are no events. |
| Interface.SocketCallback.constructor | backend/interface.py:2-5 | Keeps the given socket, history list and stop event by reference, without copying them. |
| Interface.SocketCallback.Update | backend/interface.py:6-8 | Appends exactly `data` at the end of the shared list, so the length grows by one and earlier entries stay. Emits one `update` with the same `data`. The stop event is untouched. |
| Interface.SocketCallback.Finished | backend/interface.py:9-10 | Emits only `status` `{training: false}`. History and stop event are unchanged. |
| Interface.SocketCallback.Stop | backend/interface.py:11-12 | Emits only `status` `{training: false}`. History and stop event are unchanged. |
| Interface.OwnerSeesUpdates | backend/interface.py:2-8 | After updates through the callback, the creator's own list holds its earlier entries followed by every reported event. Each event was emitted once, in order. |
| Interface.FinishedMatchesStop | backend/interface.py:9-12 | On callbacks in equal states, `finished` and `stop` produce the same messages, history and stop event. |
| Toasts.Appended | frontend/src/lib/toast.js:8 | Adds exactly one toast, with the given id, message and type, at the end. The existing toasts are unchanged. |
| Toasts.WithoutId | frontend/src/lib/toast.js:11 | A toast is kept if and only if it was present and its id differs from the given id. Afterwards no toast has that id. |
| Toasts.WithoutIdAppend | frontend/src/lib/toast.js:11 | Removal commutes with concatenation, so the kept toasts stay in their original relative order. |
| Toasts.WithoutIdCounts | frontend/src/lib/toast.js:11 | Every toast with another id keeps its number of occurrences. Toasts with the given id occur zero times. |
| Toasts.WithoutIdAbsent | frontend/src/lib/toast.js:11 | Removing an id that no toast carries leaves the list unchanged. |
| Toasts.WithoutIdIdempotent | frontend/src/lib/toast.js:11 | Removing the same id twice gives the same list as removing it once. |
| Toasts.AppendThenRemove | frontend/src/lib/toast.js:8-11 | With a fresh id and nothing in between, adding a toast and then removing its id restores the original list. |
| Toasts.ToastStore.constructor | frontend/src/lib/toast.js:3 | The store starts empty. |
| Toasts.ToastStore.ShowToast | frontend/src/lib/toast.js:5-12 | Replaces the list with the list plus the new toast. Returns the removal timer for that id with the given duration. The type defaults to "info" and the duration to 3000. |
| Toasts.ToastStore.Expire | frontend/src/lib/toast.js:10-12 | When the timer fires, every toast with the timer's id is removed. |
| Toasts.ShowWithDefaults | frontend/src/lib/toast.js:5-12 | `showToast(message)` shows an "info" toast whose removal is due after 3000 ms. Duration is not a field of the toast. When the timer fires, the store is empty again. |
| Toasts.OverlappingToasts | frontend/src/lib/toast.js:5-12 | With two toasts under different ids, the first one's timer removes only the first; the second remains. |

## Left out

- Threads and their interleavings. `Start` is atomic, although the source has no lock around the check and the start at backend/app.py:41-43. `RunToCompletion` runs a whole run as one step, while `OnProgress`, `Connect` and `ThreadExits` can be called individually to express interleavings.
- Thread liveness is reduced to the boolean `running`. `ThreadExits` ends the thread, and it stands for both ways the thread can end. One is `train_model` returning. The other is `train_model` raising, for example when the dataset download at backend/mnistSimple.py:12 fails. In that second case, `ThreadExits` comes after however many `OnProgress` calls happened before the failure, and the history keeps that partial run.
- The training itself in backend/mnistSimple.py (PyTorch, the MNIST download, floating-point loss arithmetic) is left out. Only its callback order is modelled, and losses come from the `lossAt` oracle.
- backend/db.py is not part of this model. It is a thin wrapper over MongoDB, whose id allocation and sorting happen in the database.
- Flask routing, `send_from_directory`, the Socket.IO transport and console prints are left out. Every emitted message goes to one `outbox`; which clients receive it is not modelled.
- `setTimeout` timing and `Math.random` ids are left out. The id is a parameter of `ShowToast`, and the timer is a value that a later `Expire` call consumes.
- Svelte store subscriptions are left out; only the list the store holds is modelled.
- `stop_event` is stored but never read. No cancellation semantics are modelled because the code has none.
