# TinyHUD in Dafny

TinyHUD is a small iOS toast library. A HUD (`TinyHUD`) is an `Operation`. Its
content view comes from a process-wide table of factories, keyed by
`TinyHUDKey.rawValue`. Chain setters configure it. `show()` adds it to a
process-wide serial `OperationQueue` (one operation at a time).

When the queue starts a HUD, the HUD goes through these steps:
1. It mounts a background view on the host view, or else on the key window.
2. It places a container view holding the content.
3. It lets the content size itself.
4. After `delay` seconds it shows the container.
5. After `duration` more seconds it finishes and fades out.
6. When the fade completes, it removes itself.

`isQueueEnabled` chooses how `show()` treats the queue. When it is true, HUDs
wait in line. When it is false, `show()` first cancels everything still queued.
Any call to `delay(_:)` sets it to false.

The modules follow the two source files:

- `Common`: `Option`, and the CoreGraphics and UIKit values used here: points,
  sizes, edge insets and colours.
- `Content` (`ContentView/TinyHUDContentView.swift`):
  - the keys and the JSON payload;
  - the two bundled content views and their factories;
  - the sizing done by the icon+text view's `updateConstraints(hud:)`.
- `Factories`: the factory table (`hudFactories`) as the class `Registry`, with
  the two `register` calls and the lookup that `init(_:_:)` performs.
- `Layout`: the container constraints made in `main()` for each `Position` and
  width policy, and the geometry those constraints denote once solved.
- `Lifecycle`: one operation as a value `Job`:
  - its `cancelled`, `executing` and `finished` flags;
  - what its views look like;
  - which of its main-queue callbacks are armed.

  `start()`, `cancel()`, `finish()`, the body of `main()` and the three timer
  callbacks are step functions on `Job`.
- `Scheduling`: the serial queue as the class `Scheduler`, with these fields:
  - `jobs`, the operations in the order they were added;
  - `dispatched`, how many of them the queue has handed to `start()`;
  - `isQueueEnabled`.

  It also holds `currentHUD` and `cancelAll()`. The invariant `SingleSlot`
  states the queue's one-at-a-time discipline.
- `TinyHud`: the class `Hud` with the configuration fields:
  - its constructor;
  - `show()`;
  - every chain setter;
  - the two queueing scenarios of the demo app.

Timers and the fade-out animation are modelled as events (`Callback`), because
no clock is modelled. A job reacts only to a callback it has armed. Cancelling a
job does not disarm its callbacks, as in the source.

The queue, the event runs and the demo scenarios use `start()` as written
(`StartAsWritten`), which never raises `isExecuting`. The corrected `StartJob`
appears only in the finding below.

Some consequences of the code, each stated by a lemma:

- A HUD built for an unregistered key is still enqueued and becomes
  `currentHUD`. When started, it attaches its background and requests its
  container's placement, but it has no content
  (`UnregisteredKeyMountsEmptyContainer`).
- `delay(_:)` disables queueing whatever its value, `delay(0)` included
  (`Hud.Delay`).
- `cancelAll()` cancels only operations that have not finished. A HUD whose
  duration has elapsed has already finished. It stays attached until its
  fade-out completes, and the next HUD can mount beside it
  (`SlotFreedWhileFading`).
- `cancel()` on a HUD that has already finished, during its fade-out, leaves
  `isCancelled` unchanged, because `Operation.cancel()` has no effect on a
  finished operation. `finish()` still runs again, and the background is
  detached at once (`CancelJob`).
- `finish()` makes the background catch touches. During the fade-out it
  therefore blocks touches even without a mask (`FinishedWhileFading`).
- `keyWindow` is a file-scope global: the first window of the application,
  force-unwrapped. It is evaluated once, on first use, when a HUD without a
  host view mounts or an icon+text view sizes itself. The model assumes the
  application has a window.

## Model

| member | source | states |
|---|---|---|
| Factories.Registry.Register | TinyHUD/TinyHUD/TinyHUD.swift:74-76 | the table maps the key to the new factory and keeps every other entry: last registration wins |
| Factories.RegisterOverwrites | TinyHUD/TinyHUD/TinyHUD.swift:74-76 | after registering, a lookup of that key uses the new factory and a lookup of any other key is unchanged |
| Factories.Registry.RegisterKind | TinyHUD/ContentView/TinyHUDContentView.swift:24-37 | `registered(hud:)` of one bundled view class binds exactly its keys (`plainText`, or `success`/`failure`/`info`) to its factories |
| Factories.Registry.RegisterKinds | TinyHUD/TinyHUD/TinyHUD.swift:68-72 | registering a list of view classes is the same as registering each one in list order |
| Factories.StandardBindings | TinyHUD/ContentView/TinyHUDContentView.swift:126-141 | after registering both bundled views, from any starting table: `plainText` gives a text view with the payload's string; `success` and `failure` give vertical icon+text views with the `check`/`wrong` images; `info` gives a horizontal one with `information`; every other key is looked up as before |
| Content.PlainTextFactory | TinyHUD/ContentView/TinyHUDContentView.swift:25-36 | the `plainText` factory; what it builds once registered is stated by `StandardBindings` |
| Content.SuccessFactory | TinyHUD/ContentView/TinyHUDContentView.swift:127-130 | the `success` factory; stated by `StandardBindings` |
| Content.FailureFactory | TinyHUD/ContentView/TinyHUDContentView.swift:132-135 | the `failure` factory; stated by `StandardBindings` |
| Content.InfoFactory | TinyHUD/ContentView/TinyHUDContentView.swift:137-140 | the `info` factory; stated by `StandardBindings` |
| Factories.Lookup | TinyHUD/TinyHUD/TinyHUD.swift:80 | the optional-chained table lookup of `init(_:_:)`; stated by `RegisterOverwrites`, `UnregisteredKeyYieldsNothing` and `StandardBindings` |
| Factories.UnregisteredKeyYieldsNothing | TinyHUD/TinyHUD/TinyHUD.swift:80-84 | a key with no factory yields no content view |
| TinyHud.Hud.constructor | TinyHUD/TinyHUD/TinyHUD.swift:40-87 | the content view is what the registered factory makes of the payload, or none; every setting has its declared default (duration 1, delay 0, no mask, `.mid`, insets 10, max width ratio 0.8, no fixed ratio, black, radius 10) |
| TinyHud.UnregisteredKeyMountsEmptyContainer | TinyHUD/TinyHUD/TinyHUD.swift:80-84 | a HUD for an unregistered key has no content; once started it is attached, and its container's placement is requested with no content edges and no content sizing |
| TinyHud.Hud.Show | TinyHUD/TinyHUD/TinyHUD.swift:89-94 | the queue becomes the old queue, with every unfinished job cancelled when queueing is disabled, followed by a new job that has this HUD's configuration and content; the queue invariant is kept |
| Scheduling.ShowJobs | TinyHUD/TinyHUD/TinyHUD.swift:89-94 | the queue after `show()`; stated by `ShowWaitsInLine`, `ShowPreempts` and `ShowKeepsSingleSlot` |
| Scheduling.ShowWaitsInLine | TinyHUD/TinyHUD/TinyHUD.swift:89-94 | with queueing enabled, `show()` only appends; `currentHUD` stays the same job, or becomes the new one when there was none |
| Scheduling.ShowPreempts | TinyHUD/TinyHUD/TinyHUD.swift:89-98 | with queueing disabled, every unfinished job ahead of the new one is cancelled and detached; `start()` does nothing to any of them; the new job is `currentHUD` |
| Scheduling.ShowKeepsSingleSlot | TinyHUD/TinyHUD/TinyHUD.swift:89-94 | `show()` keeps the serial queue's invariant |
| Scheduling.Scheduler.CancelAll | TinyHUD/TinyHUD/TinyHUD.swift:96-98 | the queue becomes every job cancelled unless it had finished; the queue invariant is kept |
| Scheduling.CancelEvery | TinyHUD/TinyHUD/TinyHUD.swift:96-98 | `cancelAllOperations()` on the queue's jobs; stated by `CancelAllStopsEverything` |
| Scheduling.CancelAllStopsEverything | TinyHUD/TinyHUD/TinyHUD.swift:96-98 | after `cancelAll()` every job is finished; each job that was unfinished is cancelled and detached; finished jobs are untouched; there is no `currentHUD` |
| Scheduling.CurrentHud | TinyHUD/TinyHUD/TinyHUD.swift:62-64 | the result is the first job in queue order that is neither cancelled nor finished; it is none exactly when no such job exists |
| Scheduling.Scheduler.Enqueue | TinyHUD/TinyHUD/TinyHUD.swift:93 | `addOperation` appends a job that has not been started and keeps the queue invariant |
| Scheduling.Scheduler.Cancel | TinyHUD/TinyHUD/TinyHUD.swift:210-214 | calling `cancel()` on one operation replaces it by the state `cancel()` leaves, and keeps the queue invariant |
| Scheduling.Scheduler.Dispatch | TinyHUD/TinyHUD/TinyHUD.swift:198-208 | when the last started job has finished, the queue calls `start()` as written on the next one; otherwise nothing changes; the queue invariant is kept |
| Scheduling.Scheduler.Fire | TinyHUD/TinyHUD/TinyHUD.swift:266-280 | an armed callback of one job runs on that job alone, and the queue invariant is kept |
| Scheduling.OneAtATime | TinyHUD/TinyHUD/TinyHUD.swift:56-60 | at most one started job is unfinished at a time, and it is the last one started |
| Scheduling.ShownInOrder | TinyHUD/TinyHUD/TinyHUD.swift:56-60 | an attached, unfinished job was the last one started, and every job added before it has finished |
| Scheduling.SlotFreedWhileFading | TinyHUD/TinyHUD/TinyHUD.swift:268-278 | the duration timer frees the queue's slot while the job is still attached and fading |
| TinyHud.Hud.OnViewController | TinyHUD/TinyHUD/TinyHUD.swift:111-114 | only the host view changes, to the controller's view; the same HUD is returned |
| TinyHud.Hud.OnView | TinyHUD/TinyHUD/TinyHUD.swift:116-119 | only the host view changes; the same HUD is returned |
| TinyHud.Hud.Duration | TinyHUD/TinyHUD/TinyHUD.swift:121-124 | only the duration changes |
| TinyHud.Hud.Delay | TinyHUD/TinyHUD/TinyHUD.swift:126-130 | only the delay changes, and queueing is disabled whatever the delay |
| TinyHud.Hud.Mask | TinyHUD/TinyHUD/TinyHUD.swift:132-135 | only the mask colour changes, by default to black at alpha 0.2 |
| TinyHud.Hud.SetPosition | TinyHUD/TinyHUD/TinyHUD.swift:142-145 | only the position changes |
| TinyHud.Hud.ContainerViewColor | TinyHUD/TinyHUD/TinyHUD.swift:147-150 | only the container colour changes |
| TinyHud.Hud.CornerRadius | TinyHUD/TinyHUD/TinyHUD.swift:152-155 | only the corner radius changes |
| TinyHud.Hud.SetInsets | TinyHUD/TinyHUD/TinyHUD.swift:157-160 | only the content insets change |
| TinyHud.Hud.MaxWidthRatio | TinyHUD/TinyHUD/TinyHUD.swift:162-165 | only the maximum width ratio changes |
| TinyHud.Hud.FixedWidthRatio | TinyHUD/TinyHUD/TinyHUD.swift:167-170 | only the fixed width ratio changes, and it becomes set |
| Lifecycle.FinishJob | TinyHUD/TinyHUD/TinyHUD.swift:100-106 | the job is finished, no longer executing and no longer live; its background goes clear and catches touches; it stays attached, its timers stay armed, and its cancelled flag is unchanged |
| Lifecycle.CancelJob | TinyHUD/TinyHUD/TinyHUD.swift:210-214 | the job ends finished, not executing and detached, and its armed timers stay armed. An unfinished job also becomes cancelled. A finished job keeps its cancelled flag, because `Operation.cancel()` has no effect on a finished operation |
| Lifecycle.StartAsWritten | TinyHUD/TinyHUD/TinyHUD.swift:198-208 | `start()` as written never changes the job's executing, finished or cancelled flags; what it mounts is stated by `StartMounts` and `StartGuard` |
| Lifecycle.StartJob | TinyHUD/TinyHUD/TinyHUD.swift:198-208 | the corrected `start()` is the as-written one, plus `isExecuting` raised when the guard passes |
| Lifecycle.MountJob | TinyHUD/TinyHUD/TinyHUD.swift:216-266 | the body of `main()` attaches the background, requests constraints, hides the container, and arms the delay timer on top of whatever was armed; it never touches the Operation flags (details in `StartMounts` and `MountSizesContent`) |
| Lifecycle.OnTimer | TinyHUD/TinyHUD/TinyHUD.swift:266-280 | only the duration timer finishes the job and clears `executing`. No callback changes the cancelled flag. The delay timer disarms itself and arms the duration timer; the duration timer disarms itself and arms the fade completion; both leave the job attached. The fade completion disarms itself and detaches the job |
| Lifecycle.Step | TinyHUD/TinyHUD/TinyHUD.swift:198-280 | no event unfinishes a job, and none takes a cancelled, finished, detached job out of that state. A cancel event always leaves the job finished and detached, and also cancelled when it had not finished |
| Lifecycle.CancelIdempotent | TinyHUD/TinyHUD/TinyHUD.swift:210-214 | `cancel()` leaves an unfinished job cancelled, finished, not executing and detached. Cancelling again changes nothing. Cancelling after `finish()` gives the same state, except that the cancelled flag keeps its earlier value |
| Lifecycle.DismissedIsFinal | TinyHUD/TinyHUD/TinyHUD.swift:266-280 | a cancelled job stays cancelled, finished and detached under any later events, including its still-armed timers |
| Lifecycle.FinishedIsFinal | TinyHUD/TinyHUD/TinyHUD.swift:100-106 | a finished job stays finished, and never again counts for `currentHUD`, under any later events |
| Lifecycle.StartGuard | TinyHUD/TinyHUD/TinyHUD.swift:198-200 | `start()` leaves a finished, cancelled or executing job untouched |
| Lifecycle.StartMounts | TinyHUD/TinyHUD/TinyHUD.swift:216-266 | starting a runnable job attaches the background to the host view, or else the key window; the mask sets its colour and interactivity; the container is hidden; the container's placement is always requested, and the content edges exactly when there is content; the delay timer is armed; as written the job is still not executing |
| Lifecycle.MountSizesContent | TinyHUD/ContentView/TinyHUDContentView.swift:97-112 | an icon+text label is measured against the host view's width, or the key window's, scaled by the maximum width ratio; the fixed width ratio has no effect on content sizing |
| Lifecycle.HiddenUntilDelay | TinyHUD/TinyHUD/TinyHUD.swift:266-267 | a hidden container, which is how mounting leaves it, stays hidden through any run of events in which the delay timer does not fire |
| Lifecycle.DelayShows | TinyHUD/TinyHUD/TinyHUD.swift:266-268 | the delay timer makes the container opaque and arms the duration timer |
| Lifecycle.FinishedWhileFading | TinyHUD/TinyHUD/TinyHUD.swift:268-278 | the duration timer finishes the job while it is still attached; the background goes clear and catches touches; the fade completion then detaches it |
| Lifecycle.StartAsWrittenRestarts | TinyHUD/TinyHUD/TinyHUD.swift:176-208 | as written, a started job is still not executing, so a second `start()` passes the guard and arms a second delay timer |
| Lifecycle.StartIsOnce | TinyHUD/TinyHUD/TinyHUD.swift:198-208 | with `isExecuting` raised on start, a second `start()` changes nothing |
| Layout.Placement | TinyHUD/TinyHUD/TinyHUD.swift:239-258 | the container constraints requested for a position and width policy; what they mean once solved is stated by `PositionMeaning` and `WidthPolicy` |
| Layout.PositionMeaning | TinyHUD/TinyHUD/TinyHUD.swift:239-251 | once solved: `.mid` centres the container; `.top` puts its top edge 100 below the host's top; `.bottom` puts its bottom edge 50 above the host's bottom; `.custom(p)` puts its centre at the host's centre plus p; all of them centre it horizontally, offset by p for `.custom` |
| Layout.WidthPolicy | TinyHUD/TinyHUD/TinyHUD.swift:253-257 | a fixed width ratio sets the width to that fraction of the host and ignores the maximum; without one the width is at most `maxWidthRatio` of the host and equals the preferred width when that fits |
| Layout.FixedHalfOf400 | TinyHUD/TinyHUD/TinyHUD.swift:253-254 | a fixed ratio of 0.5 in a 400-point host gives a width of 200 |
| Content.NaturalImageSize | TinyHUD/ContentView/TinyHUDContentView.swift:53-56 | the icon's natural size times the screen scale is the image's pixel size; without a CGImage the size is zero |
| Content.LabelBudget | TinyHUD/ContentView/TinyHUDContentView.swift:99-111 | the width offered to the label; stated by `HorizontalBudgetIsNarrower` and used by `UpdateConstraints` and `MountSizesContent` |
| Content.HorizontalBudgetIsNarrower | TinyHUD/ContentView/TinyHUDContentView.swift:99-111 | the horizontal label budget is the vertical one less the stack spacing (5) and the image view's width, so it is strictly smaller when that width is non-negative |
| Content.IconSize | TinyHUD/ContentView/TinyHUDContentView.swift:104-118 | the icon is never larger than its natural size and keeps its aspect ratio; when it overflows the label it is scaled to the label's height (horizontal) or width (vertical); otherwise it keeps its natural size |
| Content.UpdateConstraints | TinyHUD/ContentView/TinyHUDContentView.swift:97-124 | only icon+text views write constraints. The label gets exactly the size it measured within its budget. The icon is constrained exactly when the image has a CGImage, to `IconSize` of its natural size against the measured label, so it is never larger than natural and keeps its aspect ratio |
| TinyHud.ShowTwoTexts | TinyHUD/Demo/TinyHUDDemo.swift:111-112 | showing two plain-text HUDs on a fresh queue leaves both waiting, in order, with their texts |
| TinyHud.PlayFirst | TinyHUD/TinyHUD/TinyHUD.swift:198-270 | the queue starts the first of two jobs and not the second, even when dispatched twice; the first job's delay and duration callbacks then run |
| TinyHud.ShowFirstThenSecond | TinyHUD/Demo/TinyHUDDemo.swift:111-112 | with queueing enabled, the second HUD is started only after the first has finished. The first is then not cancelled, still attached, transparent and waiting for its fade to complete. The second, with text "second", is live, attached to the key window, hidden, has its delay timer armed, and is `currentHUD` |
| TinyHud.ShowDelayedThenSecond | TinyHUD/Demo/TinyHUDDemo.swift:114-115 | both HUDs are shown in one handler, before the queue mounts either. Because `delay(1)` turned queueing off, the second `show()` cancels the first, which is never mounted and has no timer armed. The queue then moves on to the second, which is attached, live and `currentHUD` |

## Left out

- Main-thread hopping in `start()` and the asynchronous dispatch in `main()`: each start, and each callback, is one atomic step, and the order of events is chosen by the caller. In the source, `main()` defers the mount to a main-queue block that does not check `isCancelled` again. A `cancel()` that lands between `start()` and that block is therefore followed by mounting, showing and timing out a cancelled HUD. The model cannot express that interleaving.
- Lifecycle.DismissedIsFinal: holds because the model takes the guard of `start()` and the mount in `main()` as one step; under the interleaving above, the source still mounts and shows a cancelled HUD.
- Time itself: `delay`, `duration` and the 0.5-second fade are carried in the configuration, but the callbacks they schedule are events, with no clock and no fairness.
- The KVO notifications around `isExecuting` and `isFinished`, and Foundation's own bookkeeping in the queue: the slot is free exactly when the last started operation reports finished.
- `Operation`'s refusal to enqueue the same object twice: every `show()` adds a fresh job.
- The configuration is captured when `show()` runs, so a chain setter called on a HUD after `show()` is not seen by its queued job.
- SnapKit's constraint solver is replaced by `SolvedCenter` and `SolvedWidth`. SnapKit is not part of this model.
- TinyHud.UnregisteredKeyMountsEmptyContainer: records that `main()` requests the container's placement and width relative to its superview. Without a content view the container was never added to the background, so it has no superview. What SnapKit does with that request is not modelled; the source's outcome there is unknown to the model.
- The stack view's fill-proportionally layout, rendering, the animation curve, colours, corner radius and clipping: they carry values but have no behaviour.
- `label.sizeThatFits`, image pixel sizes, the image view's current bounds and the screen scale are inputs (`Measurements`). A positive scale and non-negative fitted sizes are assumed, as platform guarantees.
- Floating point: `CGFloat` arithmetic is modelled on exact reals, with no rounding, infinity or NaN.
- The JSON payload is reduced to its optional `stringValue`.
- `UIImage(named:)!` crashes on a missing asset. The model reads the image as present, with or without a CGImage.
- Content views and factories from the application (such as `CustomHUDView`) are `CustomView` values. An application view may override `updateConstraints(hud:)` (TinyHUD.swift:16), but the model gives a `CustomView` no sizing, so `UpdateConstraints` yields nothing for it. The demo app's table view is not part of this model.
- `Layout.FixedHalfOf400` is one worked instance of `Layout.WidthPolicy`, not a separate promise.

## Findings

| source | as written | input that shows it | evidently intended | confidence | as-written member | corrected member |
|---|---|---|---|---|---|---|
| TinyHUD/TinyHUD/TinyHUD.swift:176-208 | `start()` guards on `isExecuting`, but `_executing` is never set to true, so that part of the guard never applies | a runnable HUD on which `start()` is called twice: the second `start()` passes the guard, mounts again and arms a second delay timer | `start()` raises `isExecuting` once it runs on the main thread, so a second `start()` does nothing | medium, not executed | Lifecycle.StartAsWrittenRestarts | Lifecycle.StartIsOnce |
