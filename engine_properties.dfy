/**
 * Properties of whole runs of the flow interpreter: how a start is
 * rejected, how a step is retried and then skipped, how a run of steps
 * that all succeed ends, how a stalled run ends, and that every run sends
 * exactly one report.
 */
module EngineProperties {
  import opened Wrappers
  import opened FlowModel
  import opened FlowEngine

  // ---------------------------------------------------------------------
  // Starting and finishing
  // ---------------------------------------------------------------------

  /**
   * `startPunchProcess` checks, in this order: a run in progress (nothing
   * happens), an empty target package, a missing or empty flow.  A
   * rejected start sends one failure report and dispatches nothing; an
   * accepted one schedules step 0 after 500 ms and the watchdog after
   * 120 s.
   */
  lemma StartRejectsInOrder(e: Exec, target: string, flow: Option<Flow>)
    requires Inv(e)
    ensures e.punching ==> Start(e, target, flow) == e
    ensures !e.punching && target == [] ==>
      var r := Start(e, target, flow);
      !r.punching && r.reports == e.reports + [Report(false, MSG_NO_TARGET)] && r.dispatched == e.dispatched
    ensures !e.punching && target != [] && (flow.None? || |flow.value.steps| == 0) ==>
      var r := Start(e, target, flow);
      !r.punching && r.reports == e.reports + [Report(false, MSG_NO_FLOW)] && r.dispatched == e.dispatched
    ensures !e.punching && target != [] && flow.Some? && |flow.value.steps| > 0 ==>
      var r := Start(e, target, flow);
      && r.punching && r.flow == flow && r.index == 0 && r.retry == 0
      && r.queue == e.queue + [Pending(FIRST_STEP_DELAY, RunStep), Pending(TIMEOUT_MS, Timeout)]
      && r.reports == e.reports && r.dispatched == e.dispatched
  {
  }

  /** The watchdog ends a run still in progress with the timeout report and drops every other pending task. */
  lemma WatchdogEndsRun(e: Exec, i: nat, ui: Surface)
    requires Inv(e) && i < |e.queue| && e.queue[i].task == Timeout
    ensures var r := Fire(e, i, ui);
      && !r.punching
      && r.reports == e.reports + [Report(false, MSG_TIMEOUT)]
      && r.queue == [Pending(0, ShowToast(ToastText(false, MSG_TIMEOUT))), Pending(GO_HOME_DELAY, GoHome)]
  {
    TallyRemove(e.queue, i, TimeoutKind);
  }

  /**
   * `moveToNextStep` moves the cursor by exactly one with a fresh retry
   * counter: past the last step the run reports success; otherwise the
   * next step is dispatched, and if the run goes on the cursor is on it.
   */
  lemma MoveToNextAdvances(e: Exec, ui: Surface)
    requires e.flow.Some? && e.index < |e.flow.value.steps|
    ensures var r := MoveToNext(e, ui);
      && (e.index + 1 == |e.flow.value.steps| ==>
            !r.punching && r.reports == e.reports + [Report(true, MSG_DONE)] && r.dispatched == e.dispatched)
      && (e.index + 1 < |e.flow.value.steps| ==>
            r.dispatched == e.dispatched + [e.index + 1]
            && (r.punching ==> r.index == e.index + 1 && r.retry <= 1))
  {
    var e2 := e.(index := e.index + 1, retry := 0);
    if e.index + 1 < |e.flow.value.steps| {
      var e3 := e2.(dispatched := e2.dispatched + [e2.index]);
      var st := e.flow.value.steps[e2.index];
      assert MoveToNext(e, ui) == Dispatch(e3, st, ui);
      DispatchFromFreshCounter(e3, st, ui);
    }
  }

  /** A step dispatched with a fresh counter fails at most once before it is retried by a posted task. */
  lemma DispatchFromFreshCounter(e: Exec, st: FlowStep, ui: Surface)
    requires e.flow.Some? && e.index < |e.flow.value.steps| && e.retry == 0
    ensures var r := Dispatch(e, st, ui);
      r.dispatched == e.dispatched && (r.punching == e.punching) && r.index == e.index && r.retry <= 1
  {
    var e1 := e.(retry := 1);
    assert RetryOrFail(e, ui) == Post(e1, RETRY_DELAY, RunStep);
  }

  /** A run with no flow ignores the step task: `executeCurrentStep` returns at once. */
  lemma ExecuteWithoutFlow(e: Exec, ui: Surface)
    requires e.flow.None?
    ensures Execute(e, ui) == e
  {
  }

  // ---------------------------------------------------------------------
  // Step kinds and their delays
  // ---------------------------------------------------------------------

  /**
   * What each step kind schedules: DELAY advances after exactly its delay;
   * BACK, HOME, RECENT_APPS and NOTIFICATIONS advance after 500 ms and
   * never retry; OPEN_APP advances after 3000 ms or retries at once;
   * CLICK_TEXT advances 1000 ms after a click or retries after 500 ms;
   * CLICK_XY judges its tap after 500 ms.
   */
  lemma StepSchedules(e: Exec, st: FlowStep, ui: Surface)
    ensures st.stepType == Delay ==> Dispatch(e, st, ui) == Post(e, st.delay, NextStep)
    ensures st.stepType in {Back, Home, RecentApps, Notifications} ==>
      Dispatch(e, st, ui) == Post(e, GLOBAL_ACTION_SETTLE, NextStep)
    ensures st.stepType == OpenApp ==>
      Dispatch(e, st, ui) == if ui.launchable then Post(e, OPEN_APP_SETTLE, NextStep) else RetryOrFail(e, ui)
    ensures st.stepType == ClickText ==>
      Dispatch(e, st, ui) == if ClickTextFound(ui, st.text) then Post(e, CLICK_TEXT_SETTLE, NextStep)
                             else Post(e, CLICK_TEXT_RETRY, RetryStep)
    ensures st.stepType == ClickXY ==>
      Dispatch(e, st, ui) == Post(e, CLICK_XY_CHECK, CheckTap(PerformClick(ui)))
  {
  }

  /**
   * Steps that succeed: each posts one step task that leads on to the next
   * step (a DOUBLE_CLICK through its second tap first).
   */
  predicate Advances(st: FlowStep, ui: Surface) {
    match st.stepType
    case OpenApp => ui.launchable
    case ClickXY => PerformClick(ui)
    case ClickText => ClickTextFound(ui, st.text)
    case LongPress => ui.gesturesSupported && ui.gesture == Completed
    case DoubleClick => ui.gesturesSupported && ui.gesture == Completed
    case Swipe => ui.gesturesSupported && ui.gesture == Completed
    case Delay => true
    case Back => true
    case Home => true
    case RecentApps => true
    case Notifications => true
  }

  /** The delay of the task a succeeding step posts. */
  function SettleDelay(st: FlowStep): int {
    match st.stepType
    case OpenApp => OPEN_APP_SETTLE
    case ClickXY => CLICK_XY_CHECK
    case ClickText => CLICK_TEXT_SETTLE
    case LongPress => GESTURE_SETTLE
    case DoubleClick => SECOND_TAP_DELAY
    case Swipe => GESTURE_SETTLE
    case Delay => st.delay
    case _ => GLOBAL_ACTION_SETTLE
  }

  /** The task a succeeding step posts. */
  function Successor(st: FlowStep): Task {
    match st.stepType
    case ClickXY => CheckTap(true)
    case DoubleClick => SecondTap
    case _ => NextStep
  }

  /** A pending task that calls `moveToNextStep` when it runs. */
  predicate MovesOn(t: Task) {
    t == NextStep || t == CheckTap(true)
  }

  /** How many step tasks the steps from `i` on take when they all succeed. */
  function StepTasks(steps: seq<FlowStep>, i: nat): nat
    decreases |steps| - i
  {
    if i >= |steps| then 0
    else (if steps[i].stepType == DoubleClick then 2 else 1) + StepTasks(steps, i + 1)
  }

  /** A succeeding step posts its successor task, which is ready. */
  lemma DispatchAdvances(e: Exec, st: FlowStep, ui: Surface)
    requires Advances(st, ui)
    ensures Dispatch(e, st, ui) == Post(e, SettleDelay(st), Successor(st))
    ensures KindOf(Successor(st)) == StepKind
    ensures st.stepType == DoubleClick ==> Successor(st) == SecondTap && ui.gesture == Completed
    ensures st.stepType != DoubleClick ==> MovesOn(Successor(st))
  {
  }

  /** Steps that fail at once, without posting anything. */
  predicate FailsNow(st: FlowStep, ui: Surface) {
    match st.stepType
    case OpenApp => !ui.launchable
    case LongPress => !ui.gesturesSupported || ui.gesture == Cancelled
    case Swipe => !ui.gesturesSupported || ui.gesture == Cancelled
    case DoubleClick => !ui.gesturesSupported || ui.gesture == Cancelled
    case _ => false
  }

  // ---------------------------------------------------------------------
  // Following the step chain
  // ---------------------------------------------------------------------

  /** The position of the first pending step task. */
  function StepTaskAt(q: seq<Pending>): (k: Option<nat>)
    ensures k.Some? ==> (k.value < |q| && KindOf(q[k.value].task) == StepKind
                         && forall j :: 0 <= j < k.value ==> KindOf(q[j].task) != StepKind)
    ensures k.None? ==> forall j :: 0 <= j < |q| ==> KindOf(q[j].task) != StepKind
  {
    if |q| == 0 then None
    else if KindOf(q[0].task) == StepKind then Some(0)
    else match StepTaskAt(q[1..])
      case Some(k) => Some(k + 1)
      case None => None
  }

  /** The looper runs the pending step task, before the watchdog or any other task comes due. */
  function Follow(e: Exec, ui: Surface): Exec {
    match StepTaskAt(e.queue)
    case Some(i) => Fire(e, i, ui)
    case None => e
  }

  function Drive(e: Exec, ui: Surface, n: nat): Exec
    decreases n
  {
    if n == 0 then e else Drive(Follow(e, ui), ui, n - 1)
  }

  /** A tally of zero means no task of that kind is pending. */
  lemma {:induction false} TallyZero(q: seq<Pending>, k: Kind)
    requires Tally(q, k) == 0
    ensures forall j :: 0 <= j < |q| ==> KindOf(q[j].task) != k
    decreases |q|
  {
    if |q| > 0 {
      TallyZero(q[..|q| - 1], k);
      assert forall j :: 0 <= j < |q| - 1 ==> q[j] == q[..|q| - 1][j];
    }
  }

  /** Behind pending tasks of other kinds, a step task posted last is the one followed. */
  lemma FollowLast(e: Exec, q: seq<Pending>, p: Pending, ui: Surface)
    requires e.queue == q + [p] && Tally(q, StepKind) == 0 && KindOf(p.task) == StepKind
    ensures Follow(e, ui) == RunTask(e.(queue := q), p.task, ui)
  {
    TallyZero(q, StepKind);
    var k := StepTaskAt(e.queue);
    assert k.Some? && k.value == |q| by {
      assert KindOf(e.queue[|q|].task) == StepKind;
    }
    assert e.queue[..|q|] + e.queue[|q| + 1..] == q;
  }

  function Range(lo: nat, hi: nat): seq<nat>
    decreases hi - lo
  {
    if lo >= hi then [] else [lo] + Range(lo + 1, hi)
  }

  /**
   * Running such a task before the last step dispatches the next step,
   * which succeeds and posts its successor.
   */
  lemma MovesOnToNext(e: Exec, q: seq<Pending>, p: Pending, ui: Surface, k: nat)
    requires e.punching && e.flow.Some? && e.index + 1 < |e.flow.value.steps|
    requires e.queue == q + [p] && Tally(q, StepKind) == 0 && MovesOn(p.task)
    requires Advances(e.flow.value.steps[e.index + 1], ui)
    ensures var i := e.index + 1;
      var st := e.flow.value.steps[i];
      Drive(e, ui, k + 1)
        == Drive(Post(e.(queue := q, index := i, retry := 0, dispatched := e.dispatched + [i]),
                      SettleDelay(st), Successor(st)), ui, k)
  {
    FollowLast(e, q, p, ui);
    var i := e.index + 1;
    var moved := e.(queue := q, index := i, retry := 0);
    assert Follow(e, ui) == Execute(moved, ui);
    DispatchAdvances(moved.(dispatched := e.dispatched + [i]), e.flow.value.steps[i], ui);
  }

  /** Running such a task after the last step ends the run with success. */
  lemma MovesOnToFinish(e: Exec, q: seq<Pending>, p: Pending, ui: Surface)
    requires e.punching && e.flow.Some? && e.index + 1 == |e.flow.value.steps|
    requires e.queue == q + [p] && Tally(q, StepKind) == 0 && MovesOn(p.task)
    ensures var r := Drive(e, ui, 1);
      !r.punching && r.reports == e.reports + [Report(true, MSG_DONE)] && r.dispatched == e.dispatched
  {
    FollowLast(e, q, p, ui);
    assert Follow(e, ui) == Execute(e.(queue := q, index := e.index + 1, retry := 0), ui);
  }

  /** The second tap of a double click completes and posts `moveToNextStep`. */
  lemma SecondTapStep(e: Exec, q: seq<Pending>, p: Pending, ui: Surface, k: nat)
    requires e.punching && e.flow.Some? && e.index < |e.flow.value.steps|
    requires e.queue == q + [p] && Tally(q, StepKind) == 0
    requires p.task == SecondTap && ui.gesture == Completed
    ensures Drive(e, ui, k + 1) == Drive(Post(e.(queue := q), GESTURE_SETTLE, NextStep), ui, k)
  {
    FollowLast(e, q, p, ui);
  }

  /**
   * From a run waiting to move past step `index` through a task that
   * calls `moveToNextStep`, with every later step succeeding, following
   * the step chain ends the run with one success report after dispatching
   * every later step once, in order.
   */
  lemma {:induction false} ChainFinishes(e: Exec, q: seq<Pending>, p: Pending, ui: Surface)
    requires e.punching && e.flow.Some? && e.index < |e.flow.value.steps|
    requires e.queue == q + [p] && Tally(q, StepKind) == 0 && MovesOn(p.task)
    requires forall j :: e.index < j < |e.flow.value.steps| ==> Advances(e.flow.value.steps[j], ui)
    ensures var r := Drive(e, ui, 1 + StepTasks(e.flow.value.steps, e.index + 1));
      && !r.punching
      && r.reports == e.reports + [Report(true, MSG_DONE)]
      && r.dispatched == e.dispatched + Range(e.index + 1, |e.flow.value.steps|)
    decreases |e.flow.value.steps| - e.index, 0
  {
    var steps := e.flow.value.steps;
    var i := e.index + 1;
    if i == |steps| {
      MovesOnToFinish(e, q, p, ui);
      assert Range(i, |steps|) == [];
    } else {
      var st := steps[i];
      var k := StepTasks(steps, i);
      MovesOnToNext(e, q, p, ui, k);
      PostedFinishes(Post(e.(queue := q, index := i, retry := 0, dispatched := e.dispatched + [i]),
                          SettleDelay(st), Successor(st)), q, ui);
      assert Range(i, |steps|) == [i] + Range(i + 1, |steps|);
    }
  }

  /**
   * The same from the pending second tap of a double click: it takes one
   * more step task.
   */
  lemma {:induction false} SecondTapFinishes(e: Exec, q: seq<Pending>, p: Pending, ui: Surface)
    requires e.punching && e.flow.Some? && e.index < |e.flow.value.steps|
    requires e.queue == q + [p] && Tally(q, StepKind) == 0
    requires p.task == SecondTap && ui.gesture == Completed
    requires forall j :: e.index < j < |e.flow.value.steps| ==> Advances(e.flow.value.steps[j], ui)
    ensures var r := Drive(e, ui, 2 + StepTasks(e.flow.value.steps, e.index + 1));
      && !r.punching
      && r.reports == e.reports + [Report(true, MSG_DONE)]
      && r.dispatched == e.dispatched + Range(e.index + 1, |e.flow.value.steps|)
    decreases |e.flow.value.steps| - e.index, 1
  {
    SecondTapStep(e, q, p, ui, 1 + StepTasks(e.flow.value.steps, e.index + 1));
    ChainFinishes(Post(e.(queue := q), GESTURE_SETTLE, NextStep), q, Pending(GESTURE_SETTLE, NextStep), ui);
  }

  /**
   * Just after step `index` was dispatched and posted its successor, with
   * it and every later step succeeding, the step chain ends the run.
   */
  lemma {:induction false} PostedFinishes(e: Exec, q: seq<Pending>, ui: Surface)
    requires e.punching && e.flow.Some? && e.index < |e.flow.value.steps|
    requires var st := e.flow.value.steps[e.index];
      e.queue == q + [Pending(SettleDelay(st), Successor(st))] && Tally(q, StepKind) == 0
    requires forall j :: e.index <= j < |e.flow.value.steps| ==> Advances(e.flow.value.steps[j], ui)
    ensures var r := Drive(e, ui, StepTasks(e.flow.value.steps, e.index));
      && !r.punching
      && r.reports == e.reports + [Report(true, MSG_DONE)]
      && r.dispatched == e.dispatched + Range(e.index + 1, |e.flow.value.steps|)
    decreases |e.flow.value.steps| - e.index, 2
  {
    var st := e.flow.value.steps[e.index];
    DispatchAdvances(e, st, ui);
    if st.stepType == DoubleClick {
      SecondTapFinishes(e, q, Pending(SettleDelay(st), Successor(st)), ui);
    } else {
      ChainFinishes(e, q, Pending(SettleDelay(st), Successor(st)), ui);
    }
  }

  /** The first step task of a run dispatches step 0, which posts its successor. */
  lemma FirstStep(e: Exec, target: string, f: Flow, ui: Surface, k: nat)
    requires Inv(e) && !e.punching && target != [] && |f.steps| > 0 && Advances(f.steps[0], ui)
    ensures Tally(e.queue + [Pending(TIMEOUT_MS, Timeout)], StepKind) == 0
    ensures var q := e.queue + [Pending(TIMEOUT_MS, Timeout)];
      var running := e.(target := target, flow := Some(f), punching := true, index := 0, retry := 0,
                        queue := q, dispatched := e.dispatched + [0]);
      Drive(Start(e, target, Some(f)), ui, k + 1)
        == Drive(Post(running, SettleDelay(f.steps[0]), Successor(f.steps[0])), ui, k)
  {
    var s := Start(e, target, Some(f));
    var q := e.queue + [Pending(TIMEOUT_MS, Timeout)];
    TallyZero(e.queue, StepKind);
    TallyPost(e.queue, Pending(TIMEOUT_MS, Timeout), StepKind);
    var k := StepTaskAt(s.queue);
    assert k.Some? && k.value == |e.queue| by {
      assert KindOf(s.queue[|e.queue|].task) == StepKind;
    }
    assert s.queue[..|e.queue|] + s.queue[|e.queue| + 1..] == q;
    var e2 := s.(queue := q, dispatched := e.dispatched + [0]);
    assert Follow(s, ui) == Dispatch(e2, f.steps[0], ui);
    DispatchAdvances(e2, f.steps[0], ui);
  }

  /**
   * A flow whose steps all succeed runs every step once, in order, and
   * ends with exactly one report, "流程执行完成", after one step task per
   * step (two for a DOUBLE_CLICK) plus the first.
   */
  lemma AllStepsSucceed(e: Exec, target: string, f: Flow, ui: Surface)
    requires Inv(e) && !e.punching && target != [] && |f.steps| > 0
    requires forall j :: 0 <= j < |f.steps| ==> Advances(f.steps[j], ui)
    ensures var r := Drive(Start(e, target, Some(f)), ui, 1 + StepTasks(f.steps, 0));
      && !r.punching
      && r.reports == e.reports + [Report(true, MSG_DONE)]
      && r.dispatched == e.dispatched + Range(0, |f.steps|)
  {
    var q := e.queue + [Pending(TIMEOUT_MS, Timeout)];
    var st := f.steps[0];
    var running := e.(target := target, flow := Some(f), punching := true, index := 0, retry := 0,
                      queue := q, dispatched := e.dispatched + [0]);
    FirstStep(e, target, f, ui, StepTasks(f.steps, 0));
    PostedFinishes(Post(running, SettleDelay(st), Successor(st)), q, ui);
    assert Range(0, |f.steps|) == [0] + Range(1, |f.steps|);
  }

  /**
   * A step that fails at once every time is dispatched exactly three
   * times, 1500 ms apart, and then skipped rather than failing the run:
   * the third failure moves on to the next step with a fresh counter.
   */
  lemma FailingStepSkippedAfterThreeTries(e: Exec, ui: Surface)
    requires Busy(e) && e.index < |e.flow.value.steps| && e.retry == 0
    requires FailsNow(e.flow.value.steps[e.index], ui)
    ensures var i := e.index;
      var r1 := Execute(e, ui);
      var r2 := Follow(r1, ui);
      var r3 := Follow(r2, ui);
      && r1.punching && r1.index == i && r1.retry == 1 && r1.reports == e.reports
      && r1.dispatched == e.dispatched + [i]
      && r1.queue == e.queue + [Pending(RETRY_DELAY, RunStep)]
      && r2.punching && r2.index == i && r2.retry == 2 && r2.reports == e.reports
      && r2.dispatched == e.dispatched + [i, i]
      && r2.queue == e.queue + [Pending(RETRY_DELAY, RunStep)]
      && r3 == MoveToNext(e.(retry := MAX_RETRY, dispatched := e.dispatched + [i, i, i]), ui)
  {
    var i := e.index;
    var st := e.flow.value.steps[i];
    var r1 := Execute(e, ui);
    assert r1 == Dispatch(e.(dispatched := e.dispatched + [i]), st, ui);
    DispatchFailsNow(e.(dispatched := e.dispatched + [i]), st, ui);
    assert r1 == Post(e.(dispatched := e.dispatched + [i], retry := 1), RETRY_DELAY, RunStep);
    FollowLast(r1, e.queue, Pending(RETRY_DELAY, RunStep), ui);
    var r2 := Follow(r1, ui);
    assert r1.(queue := e.queue) == e.(dispatched := e.dispatched + [i], retry := 1);
    assert e.dispatched + [i] + [i] == e.dispatched + [i, i];
    assert r2 == Execute(r1.(queue := e.queue), ui);
    assert r2 == Dispatch(e.(dispatched := e.dispatched + [i, i], retry := 1), st, ui);
    DispatchFailsNow(e.(dispatched := e.dispatched + [i, i], retry := 1), st, ui);
    FollowLast(r2, e.queue, Pending(RETRY_DELAY, RunStep), ui);
    var r3 := Follow(r2, ui);
    assert r2.(queue := e.queue) == e.(dispatched := e.dispatched + [i, i], retry := 2);
    assert e.dispatched + [i, i] + [i] == e.dispatched + [i, i, i];
    assert r3 == Execute(r2.(queue := e.queue), ui);
    assert r3 == Dispatch(e.(dispatched := e.dispatched + [i, i, i], retry := 2), st, ui);
    DispatchFailsNow(e.(dispatched := e.dispatched + [i, i, i], retry := 2), st, ui);
  }

  /**
   * Steps whose failure is noticed by a posted task: CLICK_TEXT finds no
   * match it can click (retry after 500 ms), CLICK_XY's tap is refused
   * (the 500 ms check retries).
   */
  predicate FailsLater(st: FlowStep, ui: Surface) {
    match st.stepType
    case ClickText => !ClickTextFound(ui, st.text)
    case ClickXY => !PerformClick(ui)
    case _ => false
  }

  function FailDelay(st: FlowStep): int {
    if st.stepType == ClickText then CLICK_TEXT_RETRY else CLICK_XY_CHECK
  }

  function FailTask(st: FlowStep): Task {
    if st.stepType == ClickText then RetryStep else CheckTap(false)
  }

  lemma DispatchFailsLater(e: Exec, st: FlowStep, ui: Surface)
    requires FailsLater(st, ui)
    ensures Dispatch(e, st, ui) == Post(e, FailDelay(st), FailTask(st))
    ensures KindOf(FailTask(st)) == StepKind
  {
  }

  lemma {:induction false} DriveAdd(e: Exec, ui: Surface, a: nat, b: nat)
    ensures Drive(e, ui, a + b) == Drive(Drive(e, ui, a), ui, b)
    decreases a
  {
    if a > 0 {
      DriveAdd(Follow(e, ui), ui, a - 1, b);
    }
  }

  /**
   * One failed attempt of such a step below the retry limit: the posted
   * task calls `retryOrFail`, which re-runs the step after 1500 ms, which
   * fails again and posts the same task.
   */
  lemma FailedAttempt(x: Exec, q: seq<Pending>, ui: Surface)
    requires x.flow.Some? && x.index < |x.flow.value.steps| && x.retry + 1 < MAX_RETRY
    requires FailsLater(x.flow.value.steps[x.index], ui)
    requires Tally(q, StepKind) == 0
    requires var st := x.flow.value.steps[x.index]; x.queue == q + [Pending(FailDelay(st), FailTask(st))]
    ensures Drive(x, ui, 2) == x.(retry := x.retry + 1, dispatched := x.dispatched + [x.index])
  {
    var st := x.flow.value.steps[x.index];
    FollowLast(x, q, Pending(FailDelay(st), FailTask(st)), ui);
    var x1 := Follow(x, ui);
    assert x1 == Post(x.(queue := q, retry := x.retry + 1), RETRY_DELAY, RunStep);
    FollowLast(x1, q, Pending(RETRY_DELAY, RunStep), ui);
    var y := x.(queue := q, retry := x.retry + 1, dispatched := x.dispatched + [x.index]);
    assert Follow(x1, ui) == Dispatch(y, st, ui);
    DispatchFailsLater(y, st, ui);
    assert Drive(x, ui, 2) == Follow(x1, ui);
  }

  /**
   * A CLICK_TEXT step whose text is never found, or a CLICK_XY step whose
   * tap is always refused, is dispatched exactly three times and then
   * skipped: after its posted check has failed three times the run moves
   * on to the next step with a fresh counter.
   */
  lemma DeferredFailureSkippedAfterThreeTries(e: Exec, ui: Surface)
    requires Busy(e) && e.index < |e.flow.value.steps| && e.retry == 0
    requires FailsLater(e.flow.value.steps[e.index], ui)
    ensures var i := e.index;
      var st := e.flow.value.steps[i];
      var r1 := Execute(e, ui);
      && r1 == Post(e.(dispatched := e.dispatched + [i]), FailDelay(st), FailTask(st))
      && Drive(r1, ui, 2) == r1.(retry := 1, dispatched := e.dispatched + [i, i])
      && Drive(r1, ui, 4) == r1.(retry := 2, dispatched := e.dispatched + [i, i, i])
      && Drive(r1, ui, 5) == MoveToNext(e.(retry := MAX_RETRY, dispatched := e.dispatched + [i, i, i]), ui)
  {
    var i := e.index;
    var st := e.flow.value.steps[i];
    TallyZero(e.queue, StepKind);
    var r1 := Execute(e, ui);
    DispatchFailsLater(e.(dispatched := e.dispatched + [i]), st, ui);
    assert r1 == Post(e.(dispatched := e.dispatched + [i]), FailDelay(st), FailTask(st));
    FailedAttempt(r1, e.queue, ui);
    var r3 := Drive(r1, ui, 2);
    assert e.dispatched + [i] + [i] == e.dispatched + [i, i];
    FailedAttempt(r3, e.queue, ui);
    DriveAdd(r1, ui, 2, 2);
    var r5 := Drive(r1, ui, 4);
    assert e.dispatched + [i, i] + [i] == e.dispatched + [i, i, i];
    DriveAdd(r1, ui, 4, 1);
    FollowLast(r5, e.queue, Pending(FailDelay(st), FailTask(st)), ui);
    assert Follow(r5, ui) == FlowEngine.RetryOrFail(r5.(queue := e.queue), ui);
    assert r5.(queue := e.queue, retry := MAX_RETRY) == e.(retry := MAX_RETRY, dispatched := e.dispatched + [i, i, i]);
  }

  /**
   * Every step, whatever the screen answers, succeeds, fails at once,
   * fails through its posted check, or is a gesture the platform dropped.
   */
  lemma StepOutcomesCover(st: FlowStep, ui: Surface)
    ensures || Advances(st, ui) || FailsNow(st, ui) || FailsLater(st, ui)
            || (st.stepType in {LongPress, DoubleClick, Swipe} && ui.gesturesSupported && ui.gesture == Dropped)
  {
  }

  /** A step that fails at once goes straight to `retryOrFail`. */
  lemma DispatchFailsNow(e: Exec, st: FlowStep, ui: Surface)
    requires FailsNow(st, ui)
    ensures Dispatch(e, st, ui) == RetryOrFail(e, ui)
  {
    if st.stepType in {LongPress, Swipe, DoubleClick} && ui.gesturesSupported {
      assert ui.gesture == Cancelled;
    }
  }

  /** Skipping the last step still ends the run with the success report. */
  lemma SkippedLastStepReportsSuccess(e: Exec, ui: Surface)
    requires e.flow.Some? && e.index + 1 == |e.flow.value.steps| && e.retry == MAX_RETRY - 1
    ensures var r := RetryOrFail(e, ui);
      !r.punching && r.reports == e.reports + [Report(true, MSG_DONE)]
  {
    var e1 := e.(retry := MAX_RETRY);
    assert RetryOrFail(e, ui) == MoveToNext(e1, ui);
    assert MoveToNext(e1, ui) == Execute(e1.(index := e.index + 1, retry := 0), ui);
  }

  // ---------------------------------------------------------------------
  // Stalls and the watchdog
  // ---------------------------------------------------------------------

  /** A gesture whose dispatch is refused never calls back: no step task is left pending. */
  lemma DroppedGestureStalls(e: Exec, ui: Surface)
    requires Busy(e) && e.index < |e.flow.value.steps| && e.retry < MAX_RETRY
    requires e.flow.value.steps[e.index].stepType in {LongPress, Swipe, DoubleClick}
    requires ui.gesturesSupported && ui.gesture == Dropped
    ensures var r := Execute(e, ui);
      && r.punching && Tally(r.queue, StepKind) == 0 && r.queue == e.queue
      && r.dispatched == e.dispatched + [e.index] && r.reports == e.reports
  {
    var e1 := e.(dispatched := e.dispatched + [e.index]);
    var st := e.flow.value.steps[e.index];
    assert Execute(e, ui) == Dispatch(e1, st, ui);
    assert Dispatch(e1, st, ui) == GestureEnds(e1, ui, if st.stepType == DoubleClick then SECOND_TAP_DELAY else GESTURE_SETTLE,
                                               if st.stepType == DoubleClick then SecondTap else NextStep);
  }

  /**
   * With no step task pending, a run can only end by the watchdog: every
   * other task leaves the cursor, the counter, the dispatch log and the
   * reports alone and posts no step task.
   */
  lemma StalledRunEndsOnlyByWatchdog(e: Exec, i: nat, ui: Surface)
    requires Inv(e) && e.punching && Tally(e.queue, StepKind) == 0 && i < |e.queue|
    ensures var r := Fire(e, i, ui);
      || (&& r.punching && r.index == e.index && r.retry == e.retry && r.dispatched == e.dispatched
          && r.reports == e.reports && Tally(r.queue, StepKind) == 0)
      || (e.queue[i].task == Timeout && !r.punching && r.reports == e.reports + [Report(false, MSG_TIMEOUT)])
  {
    TallyZero(e.queue, StepKind);
    TallyRemove(e.queue, i, StepKind);
    TallyRemove(e.queue, i, TimeoutKind);
    var e0 := e.(queue := e.queue[..i] + e.queue[i + 1..]);
    var t := e.queue[i].task;
    assert Fire(e, i, ui) == RunTask(e0, t, ui);
    assert KindOf(t) != StepKind;
    if KindOf(t) == OtherKind {
      OtherTaskKeepsInv(e0, t, ui);
      match t
      case OpenRecents => TallyPost(e0.queue, Pending(CLEAR_ALL_DELAY, ClearAll), StepKind);
      case ClearAll => TallyPost(e0.queue, Pending(PRESS_HOME_DELAY, PressHome), StepKind);
      case _ =>
    }
  }

  // ---------------------------------------------------------------------
  // One report per run
  // ---------------------------------------------------------------------

  /** What can happen once a run has started: the looper runs a task, or `closeApp` is called. */
  datatype Event = FireTask(i: nat, ui: Surface) | CloseAppCalled(ui: Surface)

  function Apply(e: Exec, ev: Event): Exec {
    match ev
    case FireTask(i, ui) => if i < |e.queue| then Fire(e, i, ui) else e
    case CloseAppCalled(ui) => CloseApp(e, ui)
  }

  function Run(e: Exec, evs: seq<Event>): Exec
    decreases |evs|
  {
    if |evs| == 0 then e else Run(Apply(e, evs[0]), evs[1..])
  }

  lemma ApplyKeepsInv(e: Exec, ev: Event)
    requires Inv(e)
    ensures var r := Apply(e, ev);
      && Inv(r) && (r.punching ==> e.punching)
      && |r.reports| == |e.reports| + (if e.punching && !r.punching then 1 else 0)
      && r.reports[..|e.reports|] == e.reports
  {
    match ev
    case FireTask(i, ui) => if i < |e.queue| { FireKeepsInv(e, i, ui); }
    case CloseAppCalled(ui) => CloseAppKeepsInv(e, ui);
  }

  /** Without a new start, an idle service stays idle and sends no report. */
  lemma {:induction false} IdleStaysIdle(e: Exec, evs: seq<Event>)
    requires Inv(e) && !e.punching
    ensures var r := Run(e, evs); Inv(r) && !r.punching && r.reports == e.reports
    decreases |evs|
  {
    if |evs| > 0 {
      var e1 := Apply(e, evs[0]);
      ApplyKeepsInv(e, evs[0]);
      assert e1.reports == e.reports;
      IdleStaysIdle(e1, evs[1..]);
    }
  }

  /**
   * Whatever the looper runs and whatever the screen answers, a run in
   * progress sends no report until it ends, and exactly one once it has
   * ended.
   */
  lemma {:induction false} OneReportPerRun(e: Exec, evs: seq<Event>)
    requires Inv(e) && e.punching
    ensures var r := Run(e, evs);
      && Inv(r)
      && |r.reports| == |e.reports| + (if r.punching then 0 else 1)
      && r.reports[..|e.reports|] == e.reports
    decreases |evs|
  {
    if |evs| > 0 {
      var e1 := Apply(e, evs[0]);
      ApplyKeepsInv(e, evs[0]);
      if e1.punching {
        OneReportPerRun(e1, evs[1..]);
        var r := Run(e1, evs[1..]);
        assert r.reports[..|e.reports|] == r.reports[..|e1.reports|][..|e.reports|];
      } else {
        IdleStaysIdle(e1, evs[1..]);
      }
    }
  }
}
