/**
 * The coordinate-capture floating window.  A small floating ball offers two
 * capture modes; choosing one covers the screen with a transparent overlay
 * whose touch handler records either one point or the two ends of a swipe
 * and hands them to a callback the settings screen installed.
 *
 * `Capture` is the service's state as a value and the functions below are
 * its handlers; the class `FloatingWindowService` keeps the same state in
 * fields and each of its methods is proved to agree with the function of
 * the same name.  The views added to the window manager are counted per
 * kind, so "at most one overlay on screen" is a statement about a count.
 */
module CoordinateCapture {
  import opened Wrappers
  import opened Decimal

  datatype CaptureMode = Idle | SinglePoint | Swipe

  datatype MotionAction = Down | Move | Up | OtherAction

  /** A touch on the overlay, its raw coordinates already truncated to pixels. */
  datatype TouchEvent = TouchEvent(action: MotionAction, x: int, y: int)

  /** One invocation of a capture callback. */
  datatype Delivery =
    | PointSelected(x: int, y: int)
    | SwipeSelected(startX: int, startY: int, endX: int, endY: int)

  const START_SINGLE: string := "START_SINGLE"
  const START_SWIPE: string := "START_SWIPE"
  const STOP: string := "STOP"
  /** Android's `Service.START_STICKY`. */
  const START_STICKY: int := 1

  const HINT_SINGLE: string := "\U{1F4CD} 点击屏幕采集坐标"
  const HINT_SWIPE: string := "\U{1F4CD} 点击屏幕设置起点"

  datatype Capture = Capture(
    mode: CaptureMode,
    /** `captureOverlay != null` */
    overlay: bool,
    /** `floatingBall != null` */
    ball: bool,
    ballVisible: bool,
    /** how many balls and overlays are currently added to the window manager */
    ballsAttached: int,
    overlaysAttached: int,
    swipeStartX: int,
    swipeStartY: int,
    isSwipeStartSet: bool,
    lastCapturedCoord: string,
    /** the overlay's hint line */
    hint: string,
    /** the ball's last-coordinate line ("" while the layout default shows) */
    ballLabel: string,
    /** whether `onCoordinateSelected` is set */
    pointCallback: bool,
    /** whether `onSwipeSelected` is set */
    swipeCallback: bool,
    /** every callback invocation so far, oldest first */
    delivered: seq<Delivery>,
    /** `instance != null` */
    running: bool,
    /** `stopSelf` has been called */
    stopRequested: bool)

  function HintFor(mode: CaptureMode): string
  {
    match mode
    case SinglePoint => HINT_SINGLE
    case Swipe => HINT_SWIPE
    case Idle => ""
  }

  /** `"($x, $y)"` */
  function PointText(x: int, y: int): string
  {
    "(" + IntToString(x) + ", " + IntToString(y) + ")"
  }

  /** `"($sx,$sy)→($x,$y)"` */
  function SwipeText(sx: int, sy: int, x: int, y: int): string
  {
    "(" + IntToString(sx) + "," + IntToString(sy) + ")→(" + IntToString(x) + "," + IntToString(y) + ")"
  }

  function StartPointHint(x: int, y: int): string
  {
    "已设置起点: " + PointText(x, y) + "\n\n点击屏幕设置终点"
  }

  /** `onCreate` followed by `showFloatingBall`; the callbacks are whatever the caller installed. */
  function Created(pointCallback: bool, swipeCallback: bool): Capture
  {
    Capture(Idle, false, true, true, 1, 0, 0, 0, false, "", "", "",
            pointCallback, swipeCallback, [], true, false)
  }

  /** `showCaptureOverlay`: nothing happens while an overlay exists. */
  function ShowOverlay(s: Capture): Capture
  {
    if s.overlay then s
    else s.(ballVisible := if s.ball then false else s.ballVisible,
            overlay := true,
            overlaysAttached := s.overlaysAttached + 1,
            hint := HintFor(s.mode))
  }

  /** `hideCaptureOverlay`, also the overlay's cancel button. */
  function Hide(s: Capture): Capture
  {
    s.(overlaysAttached := if s.overlay then s.overlaysAttached - 1 else s.overlaysAttached,
       overlay := false,
       isSwipeStartSet := false,
       mode := Idle,
       ballVisible := if s.ball then true else s.ballVisible,
       ballLabel := if s.ball && s.lastCapturedCoord != "" then s.lastCapturedCoord else s.ballLabel)
  }

  /** The ball's single-point button and the `START_SINGLE` command. */
  function StartSingle(s: Capture): Capture
  {
    ShowOverlay(s.(mode := SinglePoint))
  }

  /** The ball's swipe button and the `START_SWIPE` command. */
  function StartSwipe(s: Capture): Capture
  {
    ShowOverlay(s.(mode := Swipe, isSwipeStartSet := false))
  }

  /** The intent actions `onStartCommand` tells apart; any other is `OtherIntent`. */
  datatype IntentAction = StartSingleAction | StartSwipeAction | StopAction | OtherIntent

  /** The `when` over `intent?.action`; `None` is an intent without an action. */
  function ActionOf(action: Option<string>): (r: IntentAction)
    ensures r == StartSingleAction <==> action == Some(START_SINGLE)
    ensures r == StartSwipeAction <==> action == Some(START_SWIPE)
    ensures r == StopAction <==> action == Some(STOP)
  {
    if action == Some(START_SINGLE) then StartSingleAction
    else if action == Some(START_SWIPE) then StartSwipeAction
    else if action == Some(STOP) then StopAction
    else OtherIntent
  }

  /** `onStartCommand`, on the decoded action. */
  function StartCommand(s: Capture, action: IntentAction): Capture
  {
    match action
    case StartSingleAction => StartSingle(s)
    case StartSwipeAction => StartSwipe(s)
    case StopAction => s.(stopRequested := true)
    case OtherIntent => s
  }

  /**
   * The overlay's touch listener.  Without an overlay there is no listener,
   * so the touch reaches nothing.
   */
  function Touch(s: Capture, ev: TouchEvent): Capture
  {
    if !s.overlay || ev.action != Down then s
    else match s.mode
      case SinglePoint =>
        Hide(s.(lastCapturedCoord := PointText(ev.x, ev.y),
                delivered := s.delivered + (if s.pointCallback then [PointSelected(ev.x, ev.y)] else [])))
      case Swipe =>
        if !s.isSwipeStartSet then
          s.(swipeStartX := ev.x, swipeStartY := ev.y, isSwipeStartSet := true,
             hint := StartPointHint(ev.x, ev.y))
        else
          Hide(s.(lastCapturedCoord := SwipeText(s.swipeStartX, s.swipeStartY, ev.x, ev.y),
                  delivered := s.delivered +
                    (if s.swipeCallback then [SwipeSelected(s.swipeStartX, s.swipeStartY, ev.x, ev.y)] else [])))
      case Idle => s
  }

  /** `onDestroy`: both views go, and so do the instance and both callbacks. */
  function Destroy(s: Capture): Capture
  {
    s.(overlaysAttached := if s.overlay then s.overlaysAttached - 1 else s.overlaysAttached,
       ballsAttached := if s.ball then s.ballsAttached - 1 else s.ballsAttached,
       overlay := false, ball := false, running := false,
       pointCallback := false, swipeCallback := false)
  }

  /** The service's consistency: one ball while alive, at most one overlay, and the mode agrees with the overlay. */
  predicate Valid(s: Capture)
  {
    && s.overlaysAttached == (if s.overlay then 1 else 0)
    && s.ballsAttached == (if s.ball then 1 else 0)
    && (s.overlay ==> s.running && s.mode != Idle)
    && (s.running ==> s.ball && (s.ballVisible <==> !s.overlay))
    && (s.running && !s.overlay ==> s.mode == Idle && !s.isSwipeStartSet)
    && (!s.running ==> !s.ball)
  }

  /**
   * `startService` on a stopped service: `onCreate` runs first, with the
   * callbacks the settings screen has already installed.
   */
  function Launch(s: Capture): Capture
  {
    Created(s.pointCallback, s.swipeCallback).(delivered := s.delivered)
  }

  /**
   * What can happen to the service.  The settings screen installs a
   * callback and then starts the service with a command, whether or not it
   * is running; the ball's buttons reach only a live service.
   */
  datatype Event =
    | InstallPointCallback
    | InstallSwipeCallback
    | Command(action: IntentAction)
    | SingleButton
    | SwipeButton
    | CloseButton
    | CancelButton
    | OverlayTouch(ev: TouchEvent)
    | Destroyed

  predicate Deliverable(s: Capture, e: Event)
  {
    match e
    case SingleButton => s.running
    case SwipeButton => s.running
    case CloseButton => s.running
    case _ => true
  }

  function Apply(s: Capture, e: Event): Capture
  {
    match e
    case InstallPointCallback => s.(pointCallback := true)
    case InstallSwipeCallback => s.(swipeCallback := true)
    case Command(a) => StartCommand(if s.running then s else Launch(s), a)
    case SingleButton => StartSingle(s)
    case SwipeButton => StartSwipe(s)
    case CloseButton => s.(stopRequested := true)
    case CancelButton => Hide(s)
    case OverlayTouch(ev) => Touch(s, ev)
    case Destroyed => Destroy(s)
  }

  /** Touches delivered one after the other. */
  function Touches(s: Capture, evs: seq<TouchEvent>): Capture
    decreases |evs|
  {
    if evs == [] then s else Touches(Touch(s, evs[0]), evs[1..])
  }

  lemma CreatedIsValid(pointCallback: bool, swipeCallback: bool)
    ensures Valid(Created(pointCallback, swipeCallback))
    ensures Created(pointCallback, swipeCallback).running
    ensures Created(pointCallback, swipeCallback).mode == Idle
  {
  }

  /** Every handler keeps `Valid`; in particular the overlay guard means the overlay is never added twice. */
  lemma ApplyKeepsValid(s: Capture, e: Event)
    requires Valid(s) && Deliverable(s, e)
    ensures Valid(Apply(s, e))
    ensures Apply(s, e).overlaysAttached <= 1
  {
    match e
    case Command(a) =>
      var s0 := if s.running then s else Launch(s);
      assert Valid(s0) && s0.running;
      StartCommandEffect(s0, a);
    case OverlayTouch(ev) =>
      TouchKeepsValid(s, ev);
    case _ =>
  }

  /**
   * An installed callback stays installed until `onDestroy`, and installing
   * is the only way to set one.
   */
  lemma CallbacksPersist(s: Capture, e: Event)
    ensures Apply(s, e).pointCallback <==> (s.pointCallback && e != Destroyed) || e == InstallPointCallback
    ensures Apply(s, e).swipeCallback <==> (s.swipeCallback && e != Destroyed) || e == InstallSwipeCallback
  {
    match e
    case OverlayTouch(ev) =>
      TouchKeepsCallbacks(s, ev);
    case Command(a) =>
      if s.running {
        StartCommandKeepsCallbacks(s, a);
      } else {
        StartCommandKeepsCallbacks(Launch(s), a);
      }
    case _ =>
  }

  lemma StartCommandKeepsCallbacks(s: Capture, a: IntentAction)
    ensures StartCommand(s, a).pointCallback == s.pointCallback
    ensures StartCommand(s, a).swipeCallback == s.swipeCallback
  {
    match a
    case StartSingleAction =>
      ShowOverlayKeepsCallbacks(s.(mode := SinglePoint));
    case StartSwipeAction =>
      ShowOverlayKeepsCallbacks(s.(mode := Swipe, isSwipeStartSet := false));
    case _ =>
  }

  lemma TouchKeepsCallbacks(s: Capture, ev: TouchEvent)
    ensures Touch(s, ev).pointCallback == s.pointCallback
    ensures Touch(s, ev).swipeCallback == s.swipeCallback
  {
  }

  lemma ShowOverlayKeepsCallbacks(s: Capture)
    ensures ShowOverlay(s).pointCallback == s.pointCallback
    ensures ShowOverlay(s).swipeCallback == s.swipeCallback
  {
  }

  /**
   * Installing the point callback and sending `START_SINGLE`, on a running
   * or a stopped service, makes the next touch deliver that point.
   */
  lemma PointCaptureAfterInstall(s: Capture, x: int, y: int)
    requires Valid(s)
    ensures var r := Apply(Apply(Apply(s, InstallPointCallback), Command(StartSingleAction)),
                           OverlayTouch(TouchEvent(Down, x, y)));
      && r.delivered == s.delivered + [PointSelected(x, y)]
      && r.running && !r.overlay && r.mode == Idle && Valid(r)
  {
    var s1 := Apply(s, InstallPointCallback);
    var s2 := Apply(s1, Command(StartSingleAction));
    assert s2.overlay && s2.mode == SinglePoint && s2.pointCallback && s2.delivered == s.delivered;
    ApplyKeepsValid(s, InstallPointCallback);
    ApplyKeepsValid(s1, Command(StartSingleAction));
    TouchKeepsValid(s2, TouchEvent(Down, x, y));
  }

  /**
   * Installing the swipe callback and sending `START_SWIPE` makes the next
   * two touches deliver the swipe between them.
   */
  lemma SwipeCaptureAfterInstall(s: Capture, x1: int, y1: int, x2: int, y2: int)
    requires Valid(s)
    ensures var s2 := Apply(Apply(s, InstallSwipeCallback), Command(StartSwipeAction));
      var r := Apply(Apply(s2, OverlayTouch(TouchEvent(Down, x1, y1))), OverlayTouch(TouchEvent(Down, x2, y2)));
      && r.delivered == s.delivered + [SwipeSelected(x1, y1, x2, y2)]
      && r.running && !r.overlay && r.mode == Idle
  {
    var s1 := Apply(s, InstallSwipeCallback);
    var s0 := if s1.running then s1 else Launch(s1);
    ApplyKeepsValid(s, InstallSwipeCallback);
    assert Valid(s0) && s0.running && s0.swipeCallback && s0.delivered == s.delivered;
    assert Apply(s1, Command(StartSwipeAction)) == StartSwipe(s0);
    SwipeCapture(s0, x1, y1, x2, y2);
  }

  /** The `onStartCommand` switch. */
  lemma StartCommandEffect(s: Capture, action: IntentAction)
    requires Valid(s) && s.running
    ensures var r := StartCommand(s, action);
      && (action == StartSingleAction ==> r.mode == SinglePoint && r.overlay && r.isSwipeStartSet == s.isSwipeStartSet)
      && (action == StartSwipeAction ==> r.mode == Swipe && r.overlay && !r.isSwipeStartSet)
      && (action == StopAction ==> r == s.(stopRequested := true))
      && (action == OtherIntent ==> r == s)
      && r.delivered == s.delivered
      && Valid(r)
  {
  }

  /** Showing the overlay while one exists changes nothing, so showing is idempotent. */
  lemma ShowOverlayGuard(s: Capture)
    ensures s.overlay ==> ShowOverlay(s) == s
    ensures ShowOverlay(ShowOverlay(s)) == ShowOverlay(s)
    ensures ShowOverlay(s).overlay
  {
  }

  /** Hiding always ends in the idle, overlay-free state, so hiding twice is hiding once. */
  lemma HideIdempotent(s: Capture)
    ensures var r := Hide(s); !r.overlay && !r.isSwipeStartSet && r.mode == Idle
    ensures Hide(Hide(s)) == Hide(s)
  {
  }

  /** Only ACTION_DOWN on an existing overlay in a capture mode does anything. */
  lemma TouchIgnored(s: Capture, ev: TouchEvent)
    requires !s.overlay || ev.action != Down || s.mode == Idle
    ensures Touch(s, ev) == s
  {
  }

  /** A single-point capture calls back once with the touched point and returns to the ball. */
  lemma SinglePointCapture(s: Capture, x: int, y: int)
    requires Valid(s) && s.overlay && s.mode == SinglePoint
    ensures var r := Touch(s, TouchEvent(Down, x, y));
      && r.delivered == s.delivered + (if s.pointCallback then [PointSelected(x, y)] else [])
      && r.mode == Idle && !r.overlay && r.ballVisible
      && r.lastCapturedCoord == PointText(x, y) && r.ballLabel == PointText(x, y)
      && r.overlaysAttached == 0
  {
  }

  /**
   * A swipe capture: after the swipe button the first touch only records the
   * start, the second calls back with both ends and returns to the ball.
   */
  lemma SwipeCapture(s: Capture, x1: int, y1: int, x2: int, y2: int)
    requires Valid(s) && s.running
    ensures var r1 := Touch(StartSwipe(s), TouchEvent(Down, x1, y1));
      && r1.delivered == s.delivered
      && r1.mode == Swipe && r1.overlay && r1.isSwipeStartSet
      && r1.swipeStartX == x1 && r1.swipeStartY == y1
    ensures var r2 := Touch(Touch(StartSwipe(s), TouchEvent(Down, x1, y1)), TouchEvent(Down, x2, y2));
      && r2.delivered == s.delivered + (if s.swipeCallback then [SwipeSelected(x1, y1, x2, y2)] else [])
      && r2.mode == Idle && !r2.overlay
      && r2.lastCapturedCoord == SwipeText(x1, y1, x2, y2)
  {
    var s0 := StartSwipe(s);
    assert s0.overlay && s0.mode == Swipe && !s0.isSwipeStartSet && s0.delivered == s.delivered;
    var r1 := Touch(s0, TouchEvent(Down, x1, y1));
    assert r1 == s0.(swipeStartX := x1, swipeStartY := y1, isSwipeStartSet := true, hint := StartPointHint(x1, y1));
    var m := r1.(lastCapturedCoord := SwipeText(x1, y1, x2, y2),
                 delivered := r1.delivered + (if r1.swipeCallback then [SwipeSelected(x1, y1, x2, y2)] else []));
    assert Touch(r1, TouchEvent(Down, x2, y2)) == Hide(m);
  }
  lemma TouchKeepsValid(s: Capture, ev: TouchEvent)
    requires Valid(s)
    ensures Valid(Touch(s, ev))
  {
  }

  /** Without an overlay, no run of touches changes anything. */
  lemma {:induction false} TouchesWithoutOverlay(s: Capture, evs: seq<TouchEvent>)
    requires !s.overlay
    ensures Touches(s, evs) == s
    decreases |evs|
  {
    if evs != [] {
      TouchesWithoutOverlay(Touch(s, evs[0]), evs[1..]);
    }
  }

  /**
   * Whatever the touches, one overlay session delivers at most one callback:
   * the delivery also removes the overlay, and with it the touch listener.
   */
  lemma {:induction false} AtMostOneDeliveryPerOverlay(s: Capture, evs: seq<TouchEvent>)
    requires Valid(s)
    ensures var r := Touches(s, evs);
      && |s.delivered| <= |r.delivered| <= |s.delivered| + 1
      && r.delivered[..|s.delivered|] == s.delivered
    decreases |evs|
  {
    if evs != [] {
      var t := Touch(s, evs[0]);
      TouchKeepsValid(s, evs[0]);
      if t.delivered == s.delivered {
        AtMostOneDeliveryPerOverlay(t, evs[1..]);
      } else {
        assert !t.overlay;
        TouchesWithoutOverlay(t, evs[1..]);
      }
    }
  }

  /** After `onDestroy` nothing is attached, no callback is set and touches reach nothing. */
  lemma DestroyClears(s: Capture, evs: seq<TouchEvent>)
    requires Valid(s)
    ensures var r := Destroy(s);
      && !r.running && !r.pointCallback && !r.swipeCallback
      && r.overlaysAttached == 0 && r.ballsAttached == 0
      && Valid(r)
      && Touches(r, evs) == r
  {
    TouchesWithoutOverlay(Destroy(s), evs);
  }

  class FloatingWindowService {
    var currentMode: CaptureMode
    var captureOverlay: bool
    var floatingBall: bool
    var ballVisible: bool
    var ballsAttached: int
    var overlaysAttached: int
    var swipeStartX: int
    var swipeStartY: int
    var isSwipeStartSet: bool
    var lastCapturedCoord: string
    var hint: string
    var ballLabel: string
    var onCoordinateSelected: bool
    var onSwipeSelected: bool
    var delivered: seq<Delivery>
    var instance: bool
    var stopRequested: bool

    function State(): Capture
      reads this
    {
      Capture(currentMode, captureOverlay, floatingBall, ballVisible, ballsAttached, overlaysAttached,
              swipeStartX, swipeStartY, isSwipeStartSet, lastCapturedCoord, hint, ballLabel,
              onCoordinateSelected, onSwipeSelected, delivered, instance, stopRequested)
    }

    /** `onCreate`: register the instance and show the ball. */
    constructor (pointCallback: bool, swipeCallback: bool)
      ensures State() == Created(pointCallback, swipeCallback) && Valid(State())
    {
      currentMode := Idle;
      captureOverlay := false;
      floatingBall := false;
      ballVisible := false;
      ballsAttached := 0;
      overlaysAttached := 0;
      swipeStartX := 0;
      swipeStartY := 0;
      isSwipeStartSet := false;
      lastCapturedCoord := "";
      hint := "";
      ballLabel := "";
      onCoordinateSelected := pointCallback;
      onSwipeSelected := swipeCallback;
      delivered := [];
      stopRequested := false;
      instance := true;
      new;
      ShowFloatingBall();
    }

    /** `showFloatingBall`: nothing happens while a ball exists. */
    method ShowFloatingBall()
      modifies this
      ensures State() == (if old(floatingBall) then old(State())
                          else old(State()).(ball := true, ballVisible := true,
                                             ballsAttached := old(ballsAttached) + 1))
    {
      if floatingBall {
        return;
      }
      floatingBall := true;
      ballVisible := true;
      ballsAttached := ballsAttached + 1;
    }

    method OnStartCommand(action: Option<string>) returns (r: int)
      requires Valid(State()) && instance
      modifies this
      ensures State() == StartCommand(old(State()), ActionOf(action)) && Valid(State())
      ensures r == START_STICKY
    {
      StartCommandEffect(State(), ActionOf(action));
      if action == Some(START_SINGLE) {
        StartSingleCapture();
      } else if action == Some(START_SWIPE) {
        StartSwipeCapture();
      } else if action == Some(STOP) {
        stopRequested := true;
      }
      r := START_STICKY;
    }

    method StartSingleCapture()
      modifies this
      ensures State() == StartSingle(old(State()))
    {
      currentMode := SinglePoint;
      ShowCaptureOverlay();
    }

    method StartSwipeCapture()
      modifies this
      ensures State() == StartSwipe(old(State()))
    {
      currentMode := Swipe;
      isSwipeStartSet := false;
      ShowCaptureOverlay();
    }

    method ShowCaptureOverlay()
      modifies this
      ensures State() == ShowOverlay(old(State()))
    {
      if captureOverlay {
        return;
      }
      if floatingBall {
        ballVisible := false;
      }
      captureOverlay := true;
      hint := HintFor(currentMode);
      overlaysAttached := overlaysAttached + 1;
    }

    /** The overlay's touch listener; it consumes every event. */
    method OnOverlayTouch(ev: TouchEvent) returns (consumed: bool)
      requires Valid(State())
      modifies this
      ensures State() == Touch(old(State()), ev) && Valid(State())
      ensures consumed
    {
      TouchKeepsValid(State(), ev);
      consumed := true;
      if !captureOverlay || ev.action != Down {
        return;
      }
      match currentMode
      case SinglePoint => CapturePoint(ev.x, ev.y);
      case Swipe => CaptureSwipeEnd(ev.x, ev.y);
      case Idle =>
    }

    /** A touch-down in single-point mode. */
    method CapturePoint(x: int, y: int)
      requires captureOverlay && currentMode == SinglePoint
      modifies this
      ensures State() == Touch(old(State()), TouchEvent(Down, x, y))
    {
      ghost var s0 := State();
      lastCapturedCoord := PointText(x, y);
      if onCoordinateSelected {
        delivered := delivered + [PointSelected(x, y)];
      }
      assert State() == s0.(lastCapturedCoord := PointText(x, y),
                            delivered := s0.delivered + (if s0.pointCallback then [PointSelected(x, y)] else []));
      HideCaptureOverlay();
    }

    /** A touch-down in swipe mode: the start point first, then the end point. */
    method CaptureSwipeEnd(x: int, y: int)
      requires captureOverlay && currentMode == Swipe
      modifies this
      ensures State() == Touch(old(State()), TouchEvent(Down, x, y))
    {
      ghost var s0 := State();
      if !isSwipeStartSet {
        swipeStartX := x;
        swipeStartY := y;
        isSwipeStartSet := true;
        hint := StartPointHint(x, y);
      } else {
        var sx, sy := swipeStartX, swipeStartY;
        lastCapturedCoord := SwipeText(sx, sy, x, y);
        if onSwipeSelected {
          delivered := delivered + [SwipeSelected(sx, sy, x, y)];
        }
        assert State() == s0.(lastCapturedCoord := SwipeText(sx, sy, x, y),
                              delivered := s0.delivered + (if s0.swipeCallback then [SwipeSelected(sx, sy, x, y)] else []));
        HideCaptureOverlay();
      }
    }

    method HideCaptureOverlay()
      modifies this
      ensures State() == Hide(old(State()))
    {
      if captureOverlay {
        overlaysAttached := overlaysAttached - 1;
        captureOverlay := false;
      }
      isSwipeStartSet := false;
      currentMode := Idle;
      if floatingBall {
        ballVisible := true;
        if lastCapturedCoord != "" {
          ballLabel := lastCapturedCoord;
        }
      }
    }

    method OnDestroy()
      requires Valid(State())
      modifies this
      ensures State() == Destroy(old(State())) && Valid(State())
    {
      ghost var s0 := State();
      if captureOverlay {
        overlaysAttached := overlaysAttached - 1;
      }
      if floatingBall {
        ballsAttached := ballsAttached - 1;
      }
      captureOverlay := false;
      floatingBall := false;
      instance := false;
      onCoordinateSelected := false;
      onSwipeSelected := false;
      assert State() == Destroy(s0);
    }

    /** The settings screen's assignment to `onCoordinateSelected`. */
    method SetOnCoordinateSelected()
      modifies this
      ensures State() == Apply(old(State()), InstallPointCallback)
    {
      onCoordinateSelected := true;
    }

    /** The settings screen's assignment to `onSwipeSelected`. */
    method SetOnSwipeSelected()
      modifies this
      ensures State() == Apply(old(State()), InstallSwipeCallback)
    {
      onSwipeSelected := true;
    }

    /** `isRunning` on the companion object. */
    function IsRunning(): (r: bool)
      reads this
      ensures r <==> State().running
    {
      instance
    }
  }
}
