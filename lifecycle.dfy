/** The lifecycle of one TinyHUD operation: its Operation flags, the state of
    its background and container views, and the timer callbacks it has armed.
    Each of `start()`, `cancel()`, `finish()` and the three callbacks that
    follow mounting is a function from the job's state to its next state. */
module Lifecycle {
  import opened Common
  import opened Content
  import opened Layout

  /** A host view, with its bounds width at the time the HUD mounts. */
  datatype View = View(id: nat, width: real)

  /** A UIViewController, for `onViewController(_:)`. */
  datatype ViewController = ViewController(view: View)

  /** What the background view is attached to. */
  datatype Surface = HostSurface(view: View) | KeyWindow

  /** The configuration fields of a TinyHUD. */
  datatype Config = Config(
    hostView: Option<View>,
    duration: real,
    delay: real,
    maskColor: Option<Color>,
    position: Position,
    contentViewInsets: Insets,
    maxWidthRatio: real,
    fixedWidthRatio: Option<real>,
    containerColor: Color,
    cornerRadius: real)

  const DefaultInsets := Insets(10.0, 10.0, 10.0, 10.0)

  /** The field initialisers of TinyHUD. */
  const DefaultConfig := Config(None, 1.0, 0.0, None, Mid, DefaultInsets, 0.8, None, Black, 10.0)

  /** The callbacks a mounted HUD schedules on the main queue: the delay
      timer, the duration timer, and the completion of the fade-out animation. */
  datatype Callback = DelayElapsed | DurationElapsed | FadeCompleted

  /** The constraints requested when the HUD mounts: the container's
      placement and width (requested whether or not there is content), the
      content's edges inset in the container, and what the content view's
      `updateConstraints(hud:)` wrote; the last two only with a content view. */
  datatype Mounted = Mounted(container: ContainerConstraints, contentEdges: Option<Insets>, content: Option<ContentSizing>)

  /** The measurements available when the HUD mounts. */
  datatype Screen = Screen(keyWindowWidth: real, measure: Measurements)
  {
    ghost predicate Valid() {
      measure.Valid()
    }
  }

  /** One TinyHUD operation. `cancelled`, `executing` and `finished` are the
      Operation flags; the container view sits in the background view exactly
      when there is a content view. */
  datatype Job = Job(
    config: Config,
    content: Option<ContentView>,
    cancelled: bool,
    executing: bool,
    finished: bool,
    superview: Option<Surface>,
    containerAlpha: real,
    backgroundColor: Color,
    backgroundInteractive: bool,
    constraints: Option<Mounted>,
    pending: multiset<Callback>)

  /** A freshly constructed operation: no flag raised, nothing attached, no
      timer armed; views carry UIKit's defaults. */
  function NewJob(config: Config, content: Option<ContentView>): Job {
    Job(config, content, false, false, false, None, 1.0, Clear, true, None, multiset{})
  }

  /** A job that has not been started: nothing attached, mounted or armed. */
  predicate Pristine(j: Job) {
    j.superview.None? && j.constraints.None? && j.pending == multiset{} && !j.executing
  }

  /** The filter of `currentHUD`: neither cancelled nor finished. */
  predicate Live(j: Job) {
    !j.cancelled && !j.finished
  }

  /** The guard of `start()`. */
  predicate Runnable(j: Job) {
    !j.finished && !j.cancelled && !j.executing
  }

  /** `finish()`: the operation is done, and the background goes clear and
      catches touches. */
  function FinishJob(j: Job): (r: Job)
    ensures r.finished && !r.executing && !Live(r)
    ensures r.backgroundColor == Clear && r.backgroundInteractive
    ensures r.cancelled == j.cancelled && r.superview == j.superview && r.pending == j.pending
  {
    j.(executing := false, finished := true, backgroundColor := Clear, backgroundInteractive := true)
  }

  /** `cancel()`: Operation's cancel, which raises the cancelled flag only on
      an operation that has not finished, then `finish()`, then the background
      view leaves its superview. Armed timers stay armed. */
  function CancelJob(j: Job): (r: Job)
    ensures r.finished && !r.executing && r.superview.None?
    ensures !j.finished ==> Dismissed(r)
    ensures j.finished ==> r.cancelled == j.cancelled
    ensures r.pending == j.pending
  {
    FinishJob(j.(cancelled := j.cancelled || !j.finished)).(superview := None)
  }

  /** The width the content sizes itself against: the host view's, or the key
      window's when there is no host view. */
  function HostWidth(hostView: Option<View>, keyWindowWidth: real): real {
    match hostView
    case Some(v) => v.width
    case None => keyWindowWidth
  }

  /** The surface `main()` attaches the background view to. */
  function TargetSurface(hostView: Option<View>): Surface {
    match hostView
    case Some(v) => HostSurface(v)
    case None => KeyWindow
  }

  /** The body `main()` runs on the main queue: hide the container, apply the
      mask, attach the background, make the constraints, let the content size
      itself, and arm the delay timer. */
  function MountJob(j: Job, screen: Screen): (r: Job)
    requires screen.Valid()
    ensures r.superview.Some? && r.constraints.Some? && r.containerAlpha == 0.0
    ensures r.pending == j.pending + multiset{DelayElapsed}
    ensures r.executing == j.executing && r.finished == j.finished && r.cancelled == j.cancelled
  {
    var c := j.config;
    var placement := Placement(c.position, c.maxWidthRatio, c.fixedWidthRatio);
    var constraints := match j.content
      case None => Mounted(placement, None, None)
      case Some(view) =>
        var sizing := UpdateConstraints(view, HostWidth(c.hostView, screen.keyWindowWidth),
                                        c.maxWidthRatio, c.contentViewInsets, screen.measure);
        Mounted(placement, Some(c.contentViewInsets), sizing);
    j.(containerAlpha := 0.0,
       backgroundColor := if c.maskColor.Some? then c.maskColor.value else j.backgroundColor,
       backgroundInteractive := c.maskColor.Some?,
       superview := Some(TargetSurface(c.hostView)),
       constraints := Some(constraints),
       pending := j.pending + multiset{DelayElapsed})
  }

  /** `start()` as written: `_executing` is never raised, so the guard's
      `isExecuting` test never holds. */
  function StartAsWritten(j: Job, screen: Screen): (r: Job)
    requires screen.Valid()
    ensures r.executing == j.executing
    ensures r.finished == j.finished && r.cancelled == j.cancelled
  {
    if !Runnable(j) then j else MountJob(j, screen)
  }

  /** `start()` with `isExecuting` raised when the operation begins, as the
      guard evidently intends. */
  function StartJob(j: Job, screen: Screen): (r: Job)
    requires screen.Valid()
    ensures Runnable(j) ==> r == StartAsWritten(j, screen).(executing := true)
    ensures !Runnable(j) ==> r == StartAsWritten(j, screen)
  {
    if !Runnable(j) then j else MountJob(j.(executing := true), screen)
  }

  /** An armed callback fires. The delay timer shows the container and arms
      the duration timer; the duration timer finishes the operation, starts
      the fade-out and arms its completion; the completion detaches the
      background view. None of them looks at the flags. */
  function OnTimer(j: Job, callback: Callback): (r: Job)
    requires callback in j.pending
    ensures r.cancelled == j.cancelled && r.executing == (j.executing && callback != DurationElapsed)
    ensures r.finished == (j.finished || callback == DurationElapsed)
    ensures callback == DelayElapsed ==> r.pending == j.pending - multiset{DelayElapsed} + multiset{DurationElapsed}
    ensures callback == DurationElapsed ==> r.pending == j.pending - multiset{DurationElapsed} + multiset{FadeCompleted}
    ensures callback == FadeCompleted ==> r.pending == j.pending - multiset{FadeCompleted}
    ensures callback != FadeCompleted ==> r.superview == j.superview
    ensures callback == FadeCompleted ==> r.superview.None?
  {
    var rest := j.pending - multiset{callback};
    match callback
    case DelayElapsed => j.(containerAlpha := 1.0, pending := rest + multiset{DurationElapsed})
    case DurationElapsed => FinishJob(j).(containerAlpha := 0.0, pending := rest + multiset{FadeCompleted})
    case FadeCompleted => j.(superview := None, pending := rest)
  }

  /** What can happen to a job: the queue starts it, someone cancels it, or
      one of its timers fires. */
  datatype Event = Start(screen: Screen) | Cancel | Fire(callback: Callback)

  ghost predicate Admissible(e: Event) {
    e.Start? ==> e.screen.Valid()
  }

  /** One event applied to a job. A callback that is not armed cannot fire. */
  function Step(j: Job, e: Event): (r: Job)
    requires Admissible(e)
    ensures j.finished ==> r.finished
    ensures Dismissed(j) ==> Dismissed(r)
    ensures e.Cancel? ==> r.finished && r.superview.None?
    ensures e.Cancel? && !j.finished ==> Dismissed(r)
  {
    match e
    case Start(screen) => StartAsWritten(j, screen)
    case Cancel => CancelJob(j)
    case Fire(callback) => if callback in j.pending then OnTimer(j, callback) else j
  }

  /** A run of events applied in order. */
  function Run(j: Job, events: seq<Event>): Job
    requires forall k :: 0 <= k < |events| ==> Admissible(events[k])
    decreases |events|
  {
    if events == [] then j else Run(Step(j, events[0]), events[1..])
  }

  /** A cancelled job: cancelled, finished, not executing, detached. */
  predicate Dismissed(j: Job) {
    j.cancelled && j.finished && !j.executing && j.superview.None?
  }

  // ---------------------------------------------------------------------------
  // Properties
  // ---------------------------------------------------------------------------

  /** `cancel()` leaves an unfinished job cancelled, finished, not executing
      and detached; cancelling twice changes nothing more; cancelling after
      `finish()` ends in the same state except that the cancelled flag is
      left as it was. */
  lemma CancelIdempotent(j: Job)
    ensures !j.finished ==> Dismissed(CancelJob(j))
    ensures CancelJob(CancelJob(j)) == CancelJob(j)
    ensures CancelJob(FinishJob(j)) == CancelJob(j).(cancelled := j.cancelled)
    ensures !CancelJob(FinishJob(j)).cancelled <==> !j.cancelled
  {
  }

  /** `start()` leaves a finished, cancelled or executing job untouched. */
  lemma StartGuard(j: Job, screen: Screen)
    requires screen.Valid()
    requires !Runnable(j)
    ensures StartJob(j, screen) == j
    ensures StartAsWritten(j, screen) == j
  {
  }

  /** Starting a runnable job mounts it: the background goes to the host view
      or else the key window; with a mask colour it takes that colour and
      catches touches, without one it lets touches through; the container is
      transparent; the container's placement is requested in every case, and
      the content's edges and sizing exactly when there is content; the delay
      timer is armed. As written, the job is still not executing. */
  lemma StartMounts(j: Job, screen: Screen)
    requires screen.Valid()
    requires Runnable(j)
    ensures var m := StartAsWritten(j, screen);
      && !m.executing && !m.finished && !m.cancelled
      && m.superview == Some(if j.config.hostView.Some? then HostSurface(j.config.hostView.value) else KeyWindow)
      && m.containerAlpha == 0.0
      && m.backgroundInteractive == j.config.maskColor.Some?
      && (j.config.maskColor.Some? ==> m.backgroundColor == j.config.maskColor.value)
      && (j.config.maskColor.None? ==> m.backgroundColor == j.backgroundColor)
      && m.constraints.Some?
      && m.constraints.value.container == Placement(j.config.position, j.config.maxWidthRatio, j.config.fixedWidthRatio)
      && (m.constraints.value.contentEdges.Some? <==> j.content.Some?)
      && (j.content.Some? ==> m.constraints.value.contentEdges == Some(j.config.contentViewInsets))
      && m.pending == j.pending + multiset{DelayElapsed}
  {
  }

  /** When an icon+text job mounts, its label is measured against the host
      view's width, or the key window's when there is no host view, scaled
      by the maximum width ratio; a fixed width ratio changes nothing in the
      content's sizing. */
  lemma MountSizesContent(j: Job, screen: Screen, fixed: Option<real>)
    requires screen.Valid()
    requires Runnable(j) && j.content.Some? && j.content.value.ImageTextView?
    ensures var m := StartAsWritten(j, screen);
      var width := if j.config.hostView.Some? then j.config.hostView.value.width else screen.keyWindowWidth;
      && m.constraints.Some? && m.constraints.value.content.Some?
      && m.constraints.value.content.value.labelSize
         == screen.measure.labelFits(LabelBudget(j.content.value.axis, width, j.config.maxWidthRatio,
                                                 j.config.contentViewInsets, screen.measure.imageBoundsWidth))
    ensures var other := j.(config := j.config.(fixedWidthRatio := fixed));
      StartAsWritten(other, screen).constraints.value.content == StartAsWritten(j, screen).constraints.value.content
  {
  }

  /** A hidden container stays hidden through any run of events in which the
      delay timer does not fire: starting hides it again, cancelling leaves
      it, and the duration timer and the fade completion keep it transparent. */
  lemma {:induction false} HiddenUntilDelay(j: Job, events: seq<Event>)
    requires forall k :: 0 <= k < |events| ==> Admissible(events[k])
    requires forall k :: 0 <= k < |events| ==> events[k] != Fire(DelayElapsed)
    requires j.containerAlpha == 0.0
    ensures Run(j, events).containerAlpha == 0.0
    decreases |events|
  {
    if events != [] {
      HiddenUntilDelay(Step(j, events[0]), events[1..]);
    }
  }

  /** The delay timer makes the container opaque and arms the duration timer. */
  lemma DelayShows(j: Job)
    requires DelayElapsed in j.pending
    ensures OnTimer(j, DelayElapsed).containerAlpha == 1.0
    ensures DurationElapsed in OnTimer(j, DelayElapsed).pending
  {
  }

  /** The duration timer finishes the operation before the fade-out
      completes: the job is finished while its background view is still
      attached, and during the fade that background catches touches whether
      or not a mask was set. */
  lemma FinishedWhileFading(j: Job)
    requires DurationElapsed in j.pending && j.superview.Some?
    ensures var f := OnTimer(j, DurationElapsed);
      && f.finished && !f.executing && !Live(f)
      && f.superview == j.superview
      && f.backgroundInteractive && f.backgroundColor == Clear
      && FadeCompleted in f.pending
    ensures OnTimer(OnTimer(j, DurationElapsed), FadeCompleted).superview.None?
  {
  }

  /** A finished job stays finished whatever happens to it afterwards. */
  lemma {:induction false} FinishedIsFinal(j: Job, events: seq<Event>)
    requires forall k :: 0 <= k < |events| ==> Admissible(events[k])
    requires j.finished
    ensures Run(j, events).finished && !Live(Run(j, events))
    decreases |events|
  {
    if events != [] {
      FinishedIsFinal(Step(j, events[0]), events[1..]);
    }
  }

  /** A cancelled job stays cancelled, finished, not executing and detached,
      even though its timers stay armed and may still fire `finish()`. */
  lemma {:induction false} DismissedIsFinal(j: Job, events: seq<Event>)
    requires forall k :: 0 <= k < |events| ==> Admissible(events[k])
    requires Dismissed(j)
    ensures Dismissed(Run(j, events))
    decreases |events|
  {
    if events != [] {
      var next := Step(j, events[0]);
      assert Dismissed(next);
      DismissedIsFinal(next, events[1..]);
    }
  }

  /** As written, a second `start()` on a job that is mounted and running
      passes the guard again: it re-mounts the job and arms a second delay
      timer. */
  lemma StartAsWrittenRestarts(j: Job, screen: Screen)
    requires screen.Valid()
    requires Runnable(j)
    ensures var once := StartAsWritten(j, screen);
      && once.superview.Some? && !once.executing && Runnable(once)
      && StartAsWritten(once, screen).pending[DelayElapsed] == j.pending[DelayElapsed] + 2
  {
  }

  /** With `isExecuting` raised, starting a job a second time does nothing. */
  lemma StartIsOnce(j: Job, screen: Screen, again: Screen)
    requires screen.Valid() && again.Valid()
    ensures StartJob(StartJob(j, screen), again) == StartJob(j, screen)
  {
  }
}
