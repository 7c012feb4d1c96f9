/** A TinyHUD as its caller builds it: the constructor takes its content from
    the factory table, the chain setters fill in its configuration, and
    `show()` hands it to the serial queue. */
module TinyHud {
  import opened Common
  import opened Content
  import opened Factories
  import opened Layout
  import opened Lifecycle
  import opened Scheduling

  class Hud {
    var contentView: Option<ContentView>
    var hostView: Option<View>
    var duration: real
    var delay: real
    var maskColor: Option<Color>
    var position: Position
    var contentViewInsets: Insets
    var maxWidthRatio: real
    var fixedWidthRatio: Option<real>
    var containerColor: Color
    var cornerRadius: real

    /** The configuration fields, together. */
    function Configuration(): Config
      reads this
    {
      Lifecycle.Config(hostView, duration, delay, maskColor, position, contentViewInsets,
                       maxWidthRatio, fixedWidthRatio, containerColor, cornerRadius)
    }

    /** `init(_:_:)`: the content view is what the factory registered under
      the key makes of the payload, or nothing; every field takes its default. */
    constructor (registry: Registry, key: HudKey, content: Option<Json>)
      ensures contentView == Lookup(registry.factories, key.rawValue, content)
      ensures Configuration() == DefaultConfig
    {
      contentView := Lookup(registry.factories, key.rawValue, content);
      hostView := None;
      duration := 1.0;
      delay := 0.0;
      maskColor := None;
      position := Mid;
      contentViewInsets := DefaultInsets;
      maxWidthRatio := 0.8;
      fixedWidthRatio := None;
      containerColor := Black;
      cornerRadius := 10.0;
    }

    /** `show()`: with queueing disabled, cancel every queued job first; then
      add this HUD to the queue. */
    method Show(scheduler: Scheduler)
      requires scheduler.Valid()
      modifies scheduler`jobs
      ensures scheduler.Valid()
      ensures scheduler.jobs == ShowJobs(old(scheduler.jobs), scheduler.isQueueEnabled, NewJob(Configuration(), contentView))
    {
      if !scheduler.isQueueEnabled {
        scheduler.CancelAll();
      }
      scheduler.Enqueue(NewJob(Configuration(), contentView));
    }

    method OnViewController(viewController: ViewController) returns (r: Hud)
      modifies this`hostView
      ensures r == this
      ensures Configuration() == old(Configuration()).(hostView := Some(viewController.view))
    {
      hostView := Some(viewController.view);
      r := this;
    }

    method OnView(view: View) returns (r: Hud)
      modifies this`hostView
      ensures r == this
      ensures Configuration() == old(Configuration()).(hostView := Some(view))
    {
      hostView := Some(view);
      r := this;
    }

    method Duration(seconds: real) returns (r: Hud)
      modifies this`duration
      ensures r == this
      ensures Configuration() == old(Configuration()).(duration := seconds)
    {
      duration := seconds;
      r := this;
    }

    /** `delay(_:)` also turns queueing off for every later `show()`, whatever
      the delay. */
    method Delay(seconds: real, scheduler: Scheduler) returns (r: Hud)
      modifies this`delay, scheduler`isQueueEnabled
      ensures r == this
      ensures Configuration() == old(Configuration()).(delay := seconds)
      ensures !scheduler.isQueueEnabled
    {
      delay := seconds;
      scheduler.isQueueEnabled := false;
      r := this;
    }

    method Mask(color: Color := DefaultMaskColor) returns (r: Hud)
      modifies this`maskColor
      ensures r == this
      ensures Configuration() == old(Configuration()).(maskColor := Some(color))
    {
      maskColor := Some(color);
      r := this;
    }

    method SetPosition(p: Position) returns (r: Hud)
      modifies this`position
      ensures r == this
      ensures Configuration() == old(Configuration()).(position := p)
    {
      position := p;
      r := this;
    }

    method ContainerViewColor(color: Color) returns (r: Hud)
      modifies this`containerColor
      ensures r == this
      ensures Configuration() == old(Configuration()).(containerColor := color)
    {
      containerColor := color;
      r := this;
    }

    method CornerRadius(radius: real) returns (r: Hud)
      modifies this`cornerRadius
      ensures r == this
      ensures Configuration() == old(Configuration()).(cornerRadius := radius)
    {
      cornerRadius := radius;
      r := this;
    }

    method SetInsets(insets: Insets) returns (r: Hud)
      modifies this`contentViewInsets
      ensures r == this
      ensures Configuration() == old(Configuration()).(contentViewInsets := insets)
    {
      contentViewInsets := insets;
      r := this;
    }

    method MaxWidthRatio(ratio: real) returns (r: Hud)
      modifies this`maxWidthRatio
      ensures r == this
      ensures Configuration() == old(Configuration()).(maxWidthRatio := ratio)
    {
      maxWidthRatio := ratio;
      r := this;
    }

    method FixedWidthRatio(ratio: real) returns (r: Hud)
      modifies this`fixedWidthRatio
      ensures r == this
      ensures Configuration() == old(Configuration()).(fixedWidthRatio := Some(ratio))
    {
      fixedWidthRatio := Some(ratio);
      r := this;
    }
  }

  /** A HUD built for a key nobody registered has no content. Once started it
      still attaches its background and requests its container's placement,
      but no content edges and no content sizing. */
  lemma UnregisteredKeyMountsEmptyContainer(factories: map<string, Factory>, key: HudKey,
                                            content: Option<Json>, config: Config, screen: Screen)
    requires key.rawValue !in factories && screen.Valid()
    ensures var j := StartAsWritten(NewJob(config, Lookup(factories, key.rawValue, content)), screen);
      && j.content.None? && j.superview.Some?
      && j.constraints == Some(Mounted(Placement(config.position, config.maxWidthRatio, config.fixedWidthRatio), None, None))
  {
  }

  /** `TinyHUD(.plainText, "first").show()` then `TinyHUD(.plainText, "second").show()`
      on a fresh queue, with the text view registered. */
  method ShowTwoTexts() returns (scheduler: Scheduler)
    ensures fresh(scheduler) && scheduler.Valid() && scheduler.dispatched == 0
    ensures scheduler.jobs == [NewJob(DefaultConfig, Some(TextView(Some("first")))),
                               NewJob(DefaultConfig, Some(TextView(Some("second"))))]
  {
    var registry := new Registry();
    registry.RegisterKind(TextKind);
    scheduler := new Scheduler();
    var one := new Hud(registry, PlainText, Some(Json(Some("first"))));
    one.Show(scheduler);
    var two := new Hud(registry, PlainText, Some(Json(Some("second"))));
    two.Show(scheduler);
  }

  /** The queue starts the first of two waiting jobs; a second dispatch
      waits, because the slot is taken; the first job's delay and duration
      timers then fire. */
  method PlayFirst(scheduler: Scheduler, screen: Screen)
    requires scheduler.Valid() && screen.Valid()
    requires |scheduler.jobs| == 2 && scheduler.dispatched == 0 && Runnable(scheduler.jobs[0])
    modifies scheduler`jobs, scheduler`dispatched
    ensures scheduler.Valid() && scheduler.dispatched == 1
    ensures scheduler.jobs == [OnTimer(OnTimer(StartAsWritten(old(scheduler.jobs[0]), screen), DelayElapsed), DurationElapsed),
                               old(scheduler.jobs[1])]
  {
    ghost var j1, j2 := scheduler.jobs[0], scheduler.jobs[1];
    scheduler.Dispatch(screen);
    ghost var s1 := StartAsWritten(j1, screen);
    StartMounts(j1, screen);
    assert scheduler.jobs == [s1, j2] && scheduler.dispatched == 1;
    scheduler.Dispatch(screen);
    scheduler.Fire(0, DelayElapsed);
    ghost var d1 := OnTimer(s1, DelayElapsed);
    assert scheduler.jobs == [d1, j2];
    scheduler.Fire(0, DurationElapsed);
  }

  /** Two HUDs shown one after the other with queueing enabled: the first is
      started, and the second waits until the first's duration timer has
      finished it; the second is then mounted, hidden and with its delay
      timer armed, while the first is still attached and fading out. */
  method ShowFirstThenSecond(screen: Screen) returns (first: Job, second: Job, current: Option<nat>)
    requires screen.Valid()
    ensures first.finished && !first.cancelled && first.superview == Some(KeyWindow)
    ensures first.containerAlpha == 0.0 && FadeCompleted in first.pending
    ensures second.content == Some(TextView(Some("second")))
    ensures Live(second) && second.superview == Some(KeyWindow)
    ensures second.containerAlpha == 0.0 && DelayElapsed in second.pending
    ensures current == Some(1)
  {
    var scheduler := ShowTwoTexts();
    ghost var j1, j2 := scheduler.jobs[0], scheduler.jobs[1];
    PlayFirst(scheduler, screen);
    ghost var f1 := scheduler.jobs[0];
    assert f1.finished && f1.superview == Some(KeyWindow);
    scheduler.Dispatch(screen);
    StartMounts(j2, screen);
    assert scheduler.jobs == [f1, StartAsWritten(j2, screen)];
    first, second := scheduler.jobs[0], scheduler.jobs[1];
    current := CurrentHud(scheduler.jobs);
    assert !Live(first) && Live(second);
  }

  /** A HUD with a delay, then a second HUD, both shown before the queue
      mounts either: `delay(_:)` turned queueing off, so the second `show()`
      cancels the first, whose `start()` then does nothing; the queue moves on
      to the second, which mounts and becomes `currentHUD`. */
  method ShowDelayedThenSecond(screen: Screen) returns (first: Job, second: Job, current: Option<nat>)
    requires screen.Valid()
    ensures Dismissed(first) && first.constraints.None? && first.pending == multiset{}
    ensures Live(second) && second.superview == Some(KeyWindow)
    ensures current == Some(1)
  {
    var registry := new Registry();
    registry.RegisterKind(TextKind);
    var scheduler := new Scheduler();
    var one := new Hud(registry, PlainText, Some(Json(Some("first"))));
    one := one.Delay(1.0, scheduler);
    one.Show(scheduler);
    ghost var j1 := NewJob(DefaultConfig.(delay := 1.0), one.contentView);
    assert scheduler.jobs == CancelEvery([]) + [j1];
    assert scheduler.jobs == [j1];
    var two := new Hud(registry, PlainText, Some(Json(Some("second"))));
    ghost var j2 := NewJob(DefaultConfig, two.contentView);
    two.Show(scheduler);
    ShowPreempts([j1], j2, screen);
    assert scheduler.jobs == [CancelJob(j1), j2];
    scheduler.Dispatch(screen);
    assert scheduler.jobs == [CancelJob(j1), j2] && scheduler.dispatched == 1;
    scheduler.Dispatch(screen);
    StartMounts(j2, screen);
    assert scheduler.jobs == [CancelJob(j1), StartAsWritten(j2, screen)];
    first, second := scheduler.jobs[0], scheduler.jobs[1];
    current := CurrentHud(scheduler.jobs);
    assert !Live(first) && Live(second);
  }
}
