# Chekhov actor drivers and handles, in Dafny

Chekhov is a small actor runtime for Rust. An actor is a script, a plain
function, run on its own thread by a driver that the `actor!`, `actor_mut!`
and `actor_loop!` macros build. Producers reach the actor through an `Actor`
handle. The handle wraps the sending end of the actor's mailbox, a standard
multi-producer, single-consumer channel.

This project models and proves:

- `Mailbox`: the channel. It is a FIFO queue plus two flags. `closed` means the
  receiver is gone, so sends fail. `hungUp` means every sender is gone, so a
  receive on the drained queue fails.
- `Actors`: the control messages and their `Into<Option<M>>` conversion,
  `ActorResult`, `curtain_call`, and the handle with `cue`, `cue_all`, `cut`
  and `duplicate`.
- `Delivery`: the `for data in messages` loop that hands buffered payloads to
  the script and stops at the first one it rejects. It is read against `Fold`,
  the state the payloads lead to, and `FailsAt`, which says where the script
  rejects one.
- `Drivers`: the mailbox-backed drivers of `actor` and `actor_mut`.
  - `Step` is the `match (msg, active)` table.
  - `Feed` is the `while let Ok(msg) = rx.recv()` loop over the waiting messages.
  - `Consistent` is the invariant linking the driver's state to the messages
    it has received.
  - `ScriptDriver` is the thread as a class. Its `Run`, `Receive` and `Flush`
    are proved against `Feed`, `Step` and `Deliver`.
- `Loops`: the `actor_loop` driver.
  - `LoopFeed` is the outer receive loop.
  - `Spin` is the endless inner loop, cut off by fuel.
  - `LoopDriver` is the thread as a class.
- `Scenarios`: the test `actors_can_be_cued_all` and the loop and `sum`
  stages of the test `actors_work` in `src/actors/mod.rs`, as statements
  about the model, plus the general facts they are instances of.

A script is a function value. It works on `Captured(values, sent)`: the
arguments the macro captured, and what the script has cued so far through
the handles among them. Each call takes one payload and returns the new
`Captured` and a verdict.
- `actor` borrows its arguments (`&$bound`). `Borrowing` lifts its script:
  the values never change, and the cues the script emits are appended to
  `sent`.
- `actor_mut` borrows them mutably (`&mut $bound`). `Mutating` lifts its
  script: the values are replaced, and the cues are appended to `sent`.

`SpawnActor` and `SpawnActorMut` create the mailbox, move its receiving end
into the driver (the driver's `rx`, which its `Run` receives from), and pair
the driver with the handle its macro arm returns on the sending end: an
`Actor` handle for `actor` (`src/macros.rs:69`) and an `ActorMut` handle for
`actor_mut` (`src/macros.rs:101`). The `actor_loop` driver likewise owns its
`rx`.

### The loop driver and `Cut`

- The loop driver never leaves its loop on `Cut` (`src/macros.rs:108-124`).
  - While idle it receives `Cut` and drops it; only `Start` or a disconnected
    mailbox changes anything.
  - While running it takes any message other than `Pause` with `try_recv`,
    `Cut` included. It then enters the inner `loop`, which calls the script
    until the script fails and never looks at the mailbox again.
  - The model does what the code does: see `Loops.IdleIgnoresAllButStart`,
    `Loops.PollingSpins` and `Loops.SpinningNeverPolls`.

### Start and Pause

- The `Message` enum in `src/actors/mod.rs:72-74` has only `Cue` and `Cut`.
  The drivers in `src/macros.rs` also consume `Start` and `Pause`. The model's
  `Message` has all four cases. `Into` maps `Start` and `Pause` to `None`, as it
  maps `Cut`.

## Model

| member | source | states |
|---|---|---|
| Actors.Message.Into | src/actors/mod.rs:76-83 | a message yields a payload exactly when it is a cue, and the payload is the cue's data |
| Actors.CurtainCall | src/actors/mod.rs:96-98 | always the error `ActorFinished` |
| Actors.PayloadsOfCueMessages | src/actors/mod.rs:46-49 | wrapping items in cues and reading the payloads back gives the items, in order |
| Actors.PayloadsAppend | src/actors/mod.rs:76-83 | the payloads of two message sequences in a row are the payloads of each, concatenated |
| Actors.Actor.Cue | src/actors/mod.rs:37-44 | fails (unreachable) exactly when the target mailbox is closed; otherwise appends exactly one item, `Cue(msg)` for a driver and the raw `msg` for an understudy; nothing else changes |
| Actors.Actor.CueAll | src/actors/mod.rs:46-49 | succeeds exactly when there is nothing to send or the mailbox is open; on success the items are appended in order as cues (raw for an understudy); on failure nothing is appended |
| Actors.Actor.Cut | src/actors/mod.rs:51-58 | a driver handle appends `Cut` and fails exactly when the mailbox is closed; an understudy handle returns Ok and leaves its mailbox unchanged |
| Actors.Actor.Duplicate | src/actors/mod.rs:60-66 | `None` exactly for a mutable actor; otherwise a handle of the same kind on the same mailbox |
| Delivery.Deliver | src/macros.rs:52-54 | hands over at most every payload; all of them when it succeeds, at least one when it fails |
| Delivery.FoldAppend | src/macros.rs:52-54 | handing over two runs of payloads leads to the state of handing over the first and then the second |
| Delivery.FailsAtTail | src/macros.rs:52-54 | a rejection after the first payload is a rejection by the script started from the state the first payload led to |
| Delivery.DeliverSpec | src/macros.rs:52-54 | the state reached is the fold of the payloads handed over; it succeeds exactly when the script rejects none; on failure the last payload handed over is the first one rejected |
| Delivery.DeliverStopsAtFirstFailure | src/macros.rs:52-54 | if the first rejected payload is the k-th, exactly k+1 payloads are handed over and the loop fails |
| Delivery.DeliverAll | src/macros.rs:52-54 | a script that rejects none is handed every payload and reaches their fold |
| Drivers.Flushed | src/macros.rs:59-62 | the buffer flush keeps the flag and the buffer, hands the script a prefix of the buffer, and all of it when the driver survives |
| Drivers.Step | src/macros.rs:46-66 | only `Start` activates a driver; only `Pause` deactivates a running one; `Cut` always stops it; payloads reach the script only through an active driver's cue, `Start` or `Cut` |
| Drivers.StartFlushes | src/macros.rs:51-57 | `Start` to an inactive driver whose script accepts the buffer hands over the buffer in order, empties it and activates the driver |
| Drivers.PauseAndIgnored | src/macros.rs:58-65 | `Pause` to a running driver only clears the flag, keeping the buffer, the handed payloads and the state; `Start` while active and `Pause` while inactive change nothing |
| Drivers.StartFlushStopsAt | src/macros.rs:83-89 | if the script first rejects the k-th buffered payload during `Start`, the driver stops inactive, having handed over exactly the first k+1 payloads |
| Drivers.Feed | src/macros.rs:77-99 | receives at most the waiting messages, and all of them if the driver is still running afterwards |
| Drivers.FailsAtAppend | src/macros.rs:84-86 | rejections along two runs of payloads are the rejections along the first, then along the second from where the first led |
| Drivers.FailsAtPrefix | src/macros.rs:84-86 | a rejection along a prefix is a rejection along the whole |
| Drivers.FlushedConsistent | src/macros.rs:59-62 | flushing a consistent driver hands over a prefix of its buffer and keeps the state and rejection facts |
| Drivers.StepConsistent | src/macros.rs:46-66 | each arm of the message table keeps the driver invariant: an active driver buffers nothing, the state is the fold of the payloads handed over, these are the first cued ones in cue order, and while running they plus the buffer are all the cued ones |
| Drivers.FeedConsistent | src/macros.rs:45-67 | the receive loop keeps that invariant over any messages received |
| Drivers.Delivers | src/macros.rs:45-67 | from spawning on, the script is handed the cued payloads in cue order across any pauses and starts; while running all cued payloads are handed over or buffered; an active driver buffers nothing; nothing follows a rejected payload |
| Drivers.FeedAppend | src/macros.rs:77 | receiving two batches is receiving both, while the driver runs |
| Drivers.CutDrains | src/macros.rs:59-64 | after messages that leave a fresh driver running and whose payloads its script accepts, a `Cut` hands every cued payload to the script in order, buffered or not, and stops it; messages behind the `Cut` stay in the mailbox |
| Drivers.RejectionStops | src/macros.rs:48-50 | an active driver whose script rejects a cue stops at once, even with messages waiting |
| Drivers.OnlyCutStops | src/macros.rs:91-96 | with a script that rejects nothing, a driver stops only on a `Cut`, having handed over every payload cued before it |
| Drivers.FirstStop | src/macros.rs:77-99 | the message a driver stops on exists and everything before it leaves the driver running |
| Drivers.StopIsCut | src/macros.rs:91-96 | with a script that rejects nothing, the message a driver stops on is a `Cut` |
| Drivers.BorrowingCall | src/macros.rs:49 | one call of an `actor` script keeps the captured values and appends what the script cues |
| Drivers.MutatingCall | src/macros.rs:81 | one call of an `actor_mut` script replaces the captured values and appends what the script cues |
| Drivers.FoldBorrowing | src/macros.rs:52-54 | handing payloads to an `actor` script keeps the captured values and appends, in order, what it cues for each |
| Drivers.ActorKeepsBound | src/macros.rs:40-70 | whatever an `actor` driver receives, its captured values stay as spawned and it has cued exactly what its script emits for each handed payload, in order |
| Drivers.ScriptDriver.Actor | src/macros.rs:40-44 | the thread starts inactive, empty and consistent, with the borrowing lift of the script, owning the receiving end it is given |
| Drivers.ScriptDriver.ActorMut | src/macros.rs:71-76 | the thread starts inactive, empty and consistent, with the mutating lift of the script, owning the receiving end it is given |
| Drivers.SpawnActor | src/macros.rs:40-70 | a fresh open empty mailbox, a fresh consistent `actor` driver that owns its receiving end (`driver.rx == mailbox`), and an `Actor` handle on its sending end |
| Drivers.SpawnActorMut | src/macros.rs:71-102 | a fresh open empty mailbox, a fresh consistent `actor_mut` driver that owns its receiving end (`driver.rx == mailbox`), and an `ActorMut` handle on its sending end that cannot be duplicated |
| Drivers.ScriptDriver.Flush | src/macros.rs:84-86 | the buffer loop leaves exactly the state `Deliver` describes |
| Drivers.ScriptDriver.Receive | src/macros.rs:78-98 | one message moves the driver exactly as the table `Step` does and keeps the invariant |
| Drivers.ScriptDriver.Run | src/macros.rs:77-99 | the thread receives the messages waiting in its own mailbox `rx` exactly as `Feed` does; on a drained mailbox with no sender it stops and drops its buffer; once stopped, its mailbox is closed |
| Loops.Poll | src/macros.rs:109-122 | one look at the mailbox exits exactly on disconnection; starts polling exactly from idle on `Start`; enters the inner loop exactly from polling on anything but disconnection or `Pause` |
| Loops.LoopFeed | src/macros.rs:108-124 | never leaves the driver polling; an idle driver that blocks has received every waiting message and still has senders; the outer loop exits only on a drained mailbox with no sender left |
| Loops.IdleIgnoresAllButStart | src/macros.rs:117-122 | an idle driver receives and drops every message but `Start`, `Cut` included, and exits only when all senders are gone |
| Loops.StartWakes | src/macros.rs:119 | `Start` moves an idle driver to polling |
| Loops.PendingPauseHonoured | src/macros.rs:111 | a `Pause` waiting when a running driver polls makes it idle |
| Loops.PollingSpins | src/macros.rs:112 | any other message, or an empty mailbox with senders, sends a running driver into the inner loop |
| Loops.SpinningNeverPolls | src/macros.rs:112-114 | once in the inner loop the driver receives nothing more |
| Loops.Spin | src/macros.rs:112-114 | makes at most the fuel in calls, all of it unless the script failed, and at least one call when it failed |
| Loops.IterateShift | src/macros.rs:112-114 | calling the script k times after one call is calling it k+1 times |
| Loops.SpinSpec | src/macros.rs:112-114 | the inner loop calls the script on the state each call left, every call but the last succeeded, and it exits exactly when the last call failed |
| Loops.SpinResumes | src/macros.rs:112-114 | running the inner loop for a+b calls is running it for a and then for b |
| Loops.LoopDriver.constructor | src/macros.rs:104-107 | spawns idle with the given arguments, owning the receiving end it is given |
| Loops.LoopDriver.Listen | src/macros.rs:108-122 | the outer loop receives exactly as `LoopFeed` says and calls nothing |
| Loops.LoopDriver.SpinFor | src/macros.rs:112-114 | the inner loop calls the script exactly as `Spin` says |
| Loops.LoopDriver.Run | src/macros.rs:106-125 | the thread receives as `LoopFeed` says and then spins as `Spin` says; once it exits its mailbox is closed |
| Scenarios.CuesBuffered | src/macros.rs:47 | cues to a driver that was never started are buffered in order and none reaches the script |
| Scenarios.CuesRun | src/macros.rs:48-50 | cues to an active driver go to the script at once, in order, and none is buffered |
| Scenarios.NeverStartedCutDelivers | src/macros.rs:59-64 | a driver cued with payloads its script accepts and then cut, without being started, hands every cue to the script in order and stops |
| Scenarios.Double | src/actors/mod.rs:112-115 | `double` cues exactly one value, twice the payload, and returns `Ok` whenever its cue succeeds |
| Scenarios.Sum | src/actors/mod.rs:105-110 | `sum` adds the payload to its counter, cues the new total, and asks to stop exactly when the total is 5 |
| Scenarios.CuedAllThenCut | src/actors/mod.rs:125-132 | `double` cued 0 to 4 and then cut passes on `[0, 2, 4, 6, 8]` |
| Scenarios.SumStopsAtFive | src/actors/mod.rs:105-110 | `sum`, started and cued 1 repeatedly, passes on `[1, 2, 3, 4, 5]` and stops on the fifth cue, leaving later cues unreceived |
| Scenarios.CuedAllThenCutThroughHandle | src/actors/mod.rs:125-132 | `double` spawned as an `actor` with its `Actor` handle: `cue_all(0..5)` and `cut` through the handle both succeed and make it pass on `[0, 2, 4, 6, 8]`, and a later cue fails as unreachable |
| Scenarios.CueValue | src/actors/mod.rs:120 | the loop stage of `actors_work` cues its captured value once per call and returns `Ok` whenever its cue succeeds |
| Scenarios.LoopActorDroppedAtOnce | src/actors/mod.rs:120-121 | the loop actor of `actors_work`, whose handle is dropped at once and which is never started, exits without passing anything on |

## Left out

- Threads and interleaving: a driver's thread is modelled as one consumer that
  `Run` advances over the messages already in its mailbox. Producers sending
  while it runs, and `thread::spawn` itself, are not modelled.
- The standard channel is modelled by `Mailbox.Channel`. A blocking `recv` on
  an empty mailbox that still has senders is modelled by `Run` returning with
  the driver still running.
- The recursive argument binding of `actor_expand!` (`src/macros.rs:36-39`)
  and the public macro wrappers (`src/macros.rs:17-32`) are syntax only. The
  bound arguments are the `values` of `Captured`.
- Loops.LoopDriver.Run: the inner loop of `actor_loop` never ends while the
  script succeeds. The model runs it for at most `fuel` calls.
  `Loops.SpinResumes` shows that splitting the fuel does not change the run.
- Loops.LoopDriver.Run: it is generic in the payload type: `Actor::new_loop`
  and `Null` are not part of this snapshot of `src/actors/mod.rs`.
- Actors.Actor.CueAll: it sends to one mailbox in sequence. The receiver being
  dropped partway through is not modelled. So on failure the model's first
  send fails, and none of the items are appended.
- Scenarios.Double, Scenarios.Sum, Scenarios.CueValue: a script's cues through
  its borrowed handles are recorded in `sent` and assumed to succeed; they are
  not sent to another modelled mailbox. So a failed cue inside `sum` or
  `double` (an error through `try!`) is not modelled, nor is the error the
  loop closure of `actors_work` returns from `next.cue(*x)`
  (`src/actors/mod.rs:120`), which would end that loop actor.
- `sum` and `double` work on `u8`. The model uses unbounded integers. The
  values in both tests stay below 11, so no wrap-around happens.
- The `actors_work` test (`src/actors/mod.rs:117-123`) is not modelled as a
  whole. Its loop actor is never sent `Start`, and this snapshot has no
  `Start` in `Message` and no `new_loop`.
  `Scenarios.LoopActorDroppedAtOnce` states what that loop actor does as
  written. `Scenarios.SumStopsAtFive` states what the `sum` stage does once
  started.
- `src/actors/understudy.rs`, `src/types/testing.rs`, `src/types.rs` and
  `src/actors/scene.rs` are not part of this model. They are test sinks and
  older trait plumbing from other snapshots of the repository.
- `src/lib.rs` is not part of this model. It only wires up the `macros` and
  `actors` modules and holds a documentation example that does console I/O.
- The `Display` and `Error` impls of `ActorFinished` are formatting only. The
  error is the constructor `ActorFinished`, and a failed send is
  `Unreachable`. The boxed error's dynamic type is not modelled.
