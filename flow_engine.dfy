/**
 * The flow interpreter of the accessibility service, as pure functions on
 * its state.  The state holds the running flag, the target package, the
 * flow being run, the step cursor, the retry counter, the handler's queue
 * of delayed tasks, the result broadcasts sent so far and the indices of
 * the steps dispatched so far.
 *
 * Every `postDelayed(delay) { task }` appends `Pending(delay, task)` to the
 * queue; `removeCallbacksAndMessages(null)` empties it.  Elapsed time is not
 * modelled: the looper may run any pending task next (`Fire`), so every
 * property proved for `Fire` holds whatever order the delays produce.
 *
 * The screen is an oracle (`Surface`): whether the target app launches,
 * whether a tap gesture is accepted, how a gesture with a callback ends,
 * whether there is an active window and which nodes a text search finds.
 * Gesture callbacks are delivered while the task that dispatched the
 * gesture runs.
 */
module FlowEngine {
  import opened Wrappers
  import opened FlowModel

  const MAX_RETRY: nat := 3

  /** Delays, in milliseconds, of the tasks the service posts. */
  const FIRST_STEP_DELAY: int := 500
  const TIMEOUT_MS: int := 120000
  const OPEN_APP_SETTLE: int := 3000
  const CLICK_XY_CHECK: int := 500
  const CLICK_TEXT_SETTLE: int := 1000
  const CLICK_TEXT_RETRY: int := 500
  const GESTURE_SETTLE: int := 300
  const SECOND_TAP_DELAY: int := 80
  const GLOBAL_ACTION_SETTLE: int := 500
  const RETRY_DELAY: int := 1500
  const GO_HOME_DELAY: int := 2000
  const RECENTS_DELAY: int := 500
  const CLEAR_ALL_DELAY: int := 1500
  const PRESS_HOME_DELAY: int := 500

  /** The messages of the result broadcast. */
  const MSG_NO_TARGET: string := "未设置目标APP"
  const MSG_NO_FLOW: string := "未配置执行流程"
  const MSG_TIMEOUT: string := "工作超时"
  const MSG_DONE: string := "流程执行完成"

  /** The "clear all" button labels `closeApp` looks for, in order. */
  const CLEAR_ALL_LABELS: seq<string> := ["全部清除", "清除全部", "全部结束", "一键清理", "清理全部"]

  // ---------------------------------------------------------------------
  // The screen oracle
  // ---------------------------------------------------------------------

  /** An accessibility node: clickable or not, what `performAction(ACTION_CLICK)` returns, its screen bounds. */
  datatype Node = Node(clickable: bool, clickResult: bool, left: int, top: int, right: int, bottom: int) {
    /** `Rect.centerX()` / `centerY()`: `(a + b) >> 1`. */
    function CenterX(): int { (left + right) / 2 }
    function CenterY(): int { (top + bottom) / 2 }
  }

  /** A node a text search found, with its chain of parents, nearest first. */
  datatype Candidate = Candidate(node: Node, ancestors: seq<Node>)

  /** How a gesture dispatched with a result callback ends; `Dropped`: dispatch refused, no callback ever comes. */
  datatype GestureOutcome = Completed | Cancelled | Dropped

  datatype Surface = Surface(
    gesturesSupported: bool,       // the platform version supports gesture dispatch
    launchable: bool,              // a launch intent exists for the target and starting it succeeds
    tapAccepted: bool,             // dispatchGesture accepts a tap
    gesture: GestureOutcome,       // how a gesture with a callback ends
    window: bool,                  // there is an active window
    matches: map<string, seq<Candidate>>)  // text search results; an absent key finds nothing

  function Matches(ui: Surface, text: string): seq<Candidate> {
    if text in ui.matches then ui.matches[text] else []
  }

  /** `performClick`: a tap, which fails where gestures are unsupported. */
  function PerformClick(ui: Surface): bool {
    ui.gesturesSupported && ui.tapAccepted
  }

  // ---------------------------------------------------------------------
  // clickNode and the closeApp label search
  // ---------------------------------------------------------------------

  /** The first clickable node of `ns`. */
  function FirstClickable(ns: seq<Node>): (k: Option<nat>)
    ensures k.Some? ==> (k.value < |ns| && ns[k.value].clickable
                         && forall j :: 0 <= j < k.value ==> !ns[j].clickable)
    ensures k.None? ==> forall j :: 0 <= j < |ns| ==> !ns[j].clickable
  {
    if |ns| == 0 then None
    else if ns[0].clickable then Some(0)
    else match FirstClickable(ns[1..])
      case Some(k) => Some(k + 1)
      case None => None
  }

  /** What `clickNode` acts on: a node, or a tap at a point. */
  datatype ClickTarget = ActOn(n: Node) | TapAt(x: int, y: int)

  function ClickTargetOf(c: Candidate): ClickTarget {
    if c.node.clickable then ActOn(c.node)
    else match FirstClickable(c.ancestors)
      case Some(k) => ActOn(c.ancestors[k])
      case None => TapAt(c.node.CenterX(), c.node.CenterY())
  }

  /** `clickNode`'s result. */
  function ClickNode(c: Candidate, ui: Surface): bool {
    match ClickTargetOf(c)
    case ActOn(n) => n.clickResult
    case TapAt(_, _) => PerformClick(ui)
  }

  /**
   * The selection rule of `clickNode`: a clickable node answers for
   * itself; otherwise the nearest clickable ancestor answers; only when no
   * ancestor is clickable is the centre of the node's bounds tapped.
   */
  lemma ClickNodeRule(c: Candidate, ui: Surface)
    ensures c.node.clickable ==> ClickNode(c, ui) == c.node.clickResult
    ensures !c.node.clickable ==>
      forall k :: (0 <= k < |c.ancestors| && c.ancestors[k].clickable
                   && forall j :: 0 <= j < k ==> !c.ancestors[j].clickable) ==>
        ClickTargetOf(c) == ActOn(c.ancestors[k]) && ClickNode(c, ui) == c.ancestors[k].clickResult
    ensures (!c.node.clickable && forall j :: 0 <= j < |c.ancestors| ==> !c.ancestors[j].clickable) ==>
      ClickTargetOf(c) == TapAt(c.node.CenterX(), c.node.CenterY()) && ClickNode(c, ui) == PerformClick(ui)
  {
    if !c.node.clickable {
      var f := FirstClickable(c.ancestors);
      forall k | 0 <= k < |c.ancestors| && c.ancestors[k].clickable
        && (forall j :: 0 <= j < k ==> !c.ancestors[j].clickable)
        ensures ClickTargetOf(c) == ActOn(c.ancestors[k])
      {
        assert f.Some? && f.value == k;
      }
    }
  }

  /** The first candidate `clickNode` accepts. */
  function FirstAccepted(cs: seq<Candidate>, ui: Surface): (k: Option<nat>)
    ensures k.Some? ==> (k.value < |cs| && ClickNode(cs[k.value], ui)
                         && forall j :: 0 <= j < k.value ==> !ClickNode(cs[j], ui))
    ensures k.None? ==> forall j :: 0 <= j < |cs| ==> !ClickNode(cs[j], ui)
  {
    if |cs| == 0 then None
    else if ClickNode(cs[0], ui) then Some(0)
    else match FirstAccepted(cs[1..], ui)
      case Some(k) => Some(k + 1)
      case None => None
  }

  /** A CLICK_TEXT step succeeds when a window is present and some match is accepted by `clickNode`. */
  predicate ClickTextFound(ui: Surface, text: string) {
    ui.window && FirstAccepted(Matches(ui, text), ui).Some?
  }

  /** The first candidate whose node is itself clickable. */
  function FirstClickableMatch(cs: seq<Candidate>): (k: Option<nat>)
    ensures k.Some? ==> (k.value < |cs| && cs[k.value].node.clickable
                         && forall j :: 0 <= j < k.value ==> !cs[j].node.clickable)
    ensures k.None? ==> forall j :: 0 <= j < |cs| ==> !cs[j].node.clickable
  {
    if |cs| == 0 then None
    else if cs[0].node.clickable then Some(0)
    else match FirstClickableMatch(cs[1..])
      case Some(k) => Some(k + 1)
      case None => None
  }

  /** The button `closeApp` clicks: (label index, match index). */
  datatype Pick = Pick(labelIndex: nat, matchIndex: nat)

  /**
   * The labels from position `l` on are tried in list order; the first one
   * with a clickable match wins, and within it the first clickable match.
   */
  function ClearAllFrom(ui: Surface, l: nat): (r: Option<Pick>)
    requires l <= |CLEAR_ALL_LABELS|
    ensures r.Some? ==> (l <= r.value.labelIndex < |CLEAR_ALL_LABELS|
      && FirstClickableMatch(Matches(ui, CLEAR_ALL_LABELS[r.value.labelIndex])) == Some(r.value.matchIndex)
      && forall j :: l <= j < r.value.labelIndex ==> FirstClickableMatch(Matches(ui, CLEAR_ALL_LABELS[j])).None?)
    ensures r.None? ==> forall j :: l <= j < |CLEAR_ALL_LABELS| ==>
      FirstClickableMatch(Matches(ui, CLEAR_ALL_LABELS[j])).None?
    decreases |CLEAR_ALL_LABELS| - l
  {
    if l == |CLEAR_ALL_LABELS| then None
    else match FirstClickableMatch(Matches(ui, CLEAR_ALL_LABELS[l]))
      case Some(k) => Some(Pick(l, k))
      case None => ClearAllFrom(ui, l + 1)
  }

  function ClearAllTarget(ui: Surface): Option<Pick> {
    ClearAllFrom(ui, 0)
  }

  // ---------------------------------------------------------------------
  // The interpreter state and its handlers
  // ---------------------------------------------------------------------

  /** The tasks the service posts to its handler. */
  datatype Task =
    | RunStep               // executeCurrentStep()
    | NextStep              // moveToNextStep()
    | RetryStep             // retryOrFail(..)
    | CheckTap(ok: bool)    // the CLICK_XY check of the tap's result
    | SecondTap             // the second tap of a DOUBLE_CLICK
    | Timeout               // the watchdog
    | ShowToast(text: string)
    | GoHome                // goHome()
    | OpenRecents           // closeApp: open the recent-apps screen
    | ClearAll              // closeApp: look for a "clear all" button
    | PressHome             // closeApp: back to the home screen after the swipe

  datatype Pending = Pending(delay: int, task: Task)

  /** One result broadcast. */
  datatype Report = Report(success: bool, message: string)

  datatype Exec = Exec(
    punching: bool,
    target: string,
    flow: Option<Flow>,
    index: nat,
    retry: nat,
    queue: seq<Pending>,
    reports: seq<Report>,
    dispatched: seq<nat>)

  /** The state of a freshly connected service. */
  function Initial(target: string): (e: Exec)
    ensures !e.punching && e.queue == [] && e.reports == [] && e.dispatched == []
  {
    Exec(false, target, None, 0, 0, [], [], [])
  }

  function Post(e: Exec, delay: int, t: Task): Exec {
    e.(queue := e.queue + [Pending(delay, t)])
  }

  function ToastText(success: bool, message: string): string {
    (if success then "✅ " else "❌ ") + message
  }

  /** `finishPunch`. */
  function Finish(e: Exec, success: bool, message: string): (r: Exec)
    ensures !r.punching && r.flow.None? && r.index == 0 && r.retry == 0
    ensures r.queue == [Pending(0, ShowToast(ToastText(success, message))), Pending(GO_HOME_DELAY, GoHome)]
    ensures r.reports == e.reports + [Report(success, message)]
    ensures r.target == e.target && r.dispatched == e.dispatched
  {
    e.(punching := false, flow := None, index := 0, retry := 0,
       queue := [Pending(0, ShowToast(ToastText(success, message))), Pending(GO_HOME_DELAY, GoHome)],
       reports := e.reports + [Report(success, message)])
  }

  /** `startPunchProcess`, given the stored target package and flow. */
  function Start(e: Exec, target: string, flow: Option<Flow>): Exec {
    if e.punching then e
    else if target == [] then Finish(e.(target := target), false, MSG_NO_TARGET)
    else
      var e1 := e.(target := target, flow := flow);
      if flow.None? || |flow.value.steps| == 0 then Finish(e1, false, MSG_NO_FLOW)
      else Post(Post(e1.(punching := true, index := 0, retry := 0), FIRST_STEP_DELAY, RunStep), TIMEOUT_MS, Timeout)
  }

  /** Termination measure of the handler chain: steps left to run. */
  function StepsLeft(e: Exec): nat {
    if e.flow.Some? && e.index <= |e.flow.value.steps| then |e.flow.value.steps| - e.index + 1 else 0
  }

  /** `executeCurrentStep`. */
  function Execute(e: Exec, ui: Surface): Exec
    decreases StepsLeft(e), 4
  {
    match e.flow
    case None => e
    case Some(f) =>
      if e.index >= |f.steps| then Finish(e, true, MSG_DONE)
      else Dispatch(e.(dispatched := e.dispatched + [e.index]), f.steps[e.index], ui)
  }

  /** The `execute*` handler of one step kind. */
  function Dispatch(e: Exec, st: FlowStep, ui: Surface): Exec
    decreases StepsLeft(e), 3
  {
    match st.stepType
    case OpenApp => if ui.launchable then Post(e, OPEN_APP_SETTLE, NextStep) else RetryOrFail(e, ui)
    case ClickXY => Post(e, CLICK_XY_CHECK, CheckTap(PerformClick(ui)))
    case ClickText =>
      if ClickTextFound(ui, st.text) then Post(e, CLICK_TEXT_SETTLE, NextStep)
      else Post(e, CLICK_TEXT_RETRY, RetryStep)
    case LongPress => if ui.gesturesSupported then GestureEnds(e, ui, GESTURE_SETTLE, NextStep) else RetryOrFail(e, ui)
    case DoubleClick => if ui.gesturesSupported then GestureEnds(e, ui, SECOND_TAP_DELAY, SecondTap) else RetryOrFail(e, ui)
    case Swipe => if ui.gesturesSupported then GestureEnds(e, ui, GESTURE_SETTLE, NextStep) else RetryOrFail(e, ui)
    case Delay => Post(e, st.delay, NextStep)
    case Back => Post(e, GLOBAL_ACTION_SETTLE, NextStep)
    case Home => Post(e, GLOBAL_ACTION_SETTLE, NextStep)
    case RecentApps => Post(e, GLOBAL_ACTION_SETTLE, NextStep)
    case Notifications => Post(e, GLOBAL_ACTION_SETTLE, NextStep)
  }

  /** A gesture's result callback: on completion post `next`, on cancellation retry. */
  function GestureEnds(e: Exec, ui: Surface, delay: int, next: Task): Exec
    decreases StepsLeft(e), 2
  {
    match ui.gesture
    case Completed => Post(e, delay, next)
    case Cancelled => RetryOrFail(e, ui)
    case Dropped => e
  }

  /** `retryOrFail`: a third failure skips the step. */
  function RetryOrFail(e: Exec, ui: Surface): Exec
    decreases StepsLeft(e), 1
  {
    var e1 := e.(retry := e.retry + 1);
    if e1.retry >= MAX_RETRY then MoveToNext(e1, ui) else Post(e1, RETRY_DELAY, RunStep)
  }

  /**
   * `moveToNextStep`.  The two early exits of `executeCurrentStep` (no
   * flow; cursor past the end) are unfolded here for a cursor already at
   * or past the end, so that the recursion visibly terminates.
   */
  function MoveToNext(e: Exec, ui: Surface): Exec
    decreases StepsLeft(e), 0
  {
    var e2 := e.(index := e.index + 1, retry := 0);
    match e.flow
    case None => e2
    case Some(f) => if e.index >= |f.steps| then Finish(e2, true, MSG_DONE) else Execute(e2, ui)
  }

  /** The looper runs the pending task at position `i`. */
  function Fire(e: Exec, i: nat, ui: Surface): Exec
    requires i < |e.queue|
  {
    RunTask(e.(queue := e.queue[..i] + e.queue[i + 1..]), e.queue[i].task, ui)
  }

  /** What each task does once the looper has taken it off the queue. */
  function RunTask(e: Exec, t: Task, ui: Surface): Exec {
    match t
    case RunStep => Execute(e, ui)
    case NextStep => MoveToNext(e, ui)
    case RetryStep => RetryOrFail(e, ui)
    case CheckTap(ok) => if ok then MoveToNext(e, ui) else RetryOrFail(e, ui)
    case SecondTap => GestureEnds(e, ui, GESTURE_SETTLE, NextStep)
    case Timeout => if e.punching then Finish(e, false, MSG_TIMEOUT) else e
    case ShowToast(_) => e
    case GoHome => e
    case OpenRecents => Post(e, CLEAR_ALL_DELAY, ClearAll)
    case ClearAll => ClearAllFired(e, ui)
    case PressHome => e
  }

  /** The "clear all" task: swipe the card away when no button was clicked. */
  function ClearAllFired(e: Exec, ui: Surface): Exec {
    if ui.window && ClearAllTarget(ui).None? && ui.gesture == Completed
    then Post(e, PRESS_HOME_DELAY, PressHome)
    else e
  }

  /** `closeApp`: home, then (500 ms) recents, then (1500 ms) the clear-all search. */
  function CloseApp(e: Exec, ui: Surface): Exec {
    if ui.gesturesSupported then Post(e, RECENTS_DELAY, OpenRecents) else e
  }

  // ---------------------------------------------------------------------
  // The invariant
  // ---------------------------------------------------------------------

  datatype Kind = StepKind | TimeoutKind | OtherKind

  function KindOf(t: Task): Kind {
    match t
    case RunStep => StepKind
    case NextStep => StepKind
    case RetryStep => StepKind
    case CheckTap(_) => StepKind
    case SecondTap => StepKind
    case Timeout => TimeoutKind
    case _ => OtherKind
  }

  /** How many pending tasks are of kind `k`. */
  function Tally(q: seq<Pending>, k: Kind): nat {
    if |q| == 0 then 0
    else Tally(q[..|q| - 1], k) + (if KindOf(q[|q| - 1].task) == k then 1 else 0)
  }

  lemma {:induction false} TallyConcat(a: seq<Pending>, b: seq<Pending>, k: Kind)
    ensures Tally(a + b, k) == Tally(a, k) + Tally(b, k)
    decreases |b|
  {
    if |b| == 0 {
      assert a + b == a;
    } else {
      var b' := b[..|b| - 1];
      assert (a + b)[..|a + b| - 1] == a + b';
      TallyConcat(a, b', k);
    }
  }

  lemma TallyPost(q: seq<Pending>, p: Pending, k: Kind)
    ensures Tally(q + [p], k) == Tally(q, k) + (if KindOf(p.task) == k then 1 else 0)
  {
    assert (q + [p])[..|q|] == q;
  }

  lemma TallyRemove(q: seq<Pending>, i: nat, k: Kind)
    requires i < |q|
    ensures Tally(q[..i] + q[i + 1..], k) + (if KindOf(q[i].task) == k then 1 else 0) == Tally(q, k)
  {
    assert q == q[..i] + [q[i]] + q[i + 1..];
    TallyConcat(q[..i] + [q[i]], q[i + 1..], k);
    TallyConcat(q[..i], q[i + 1..], k);
    TallyPost(q[..i], q[i], k);
  }

  /**
   * Between events: a run is in progress exactly when a flow is held; the
   * cursor is on a step and the retry counter below the limit; exactly one
   * watchdog is pending during a run and none otherwise; at most one step
   * task is pending during a run and none otherwise.
   */
  predicate Inv(e: Exec) {
    && (e.punching <==> e.flow.Some?)
    && (e.punching ==> e.index < |e.flow.value.steps| && e.retry < MAX_RETRY)
    && (!e.punching ==> e.index == 0 && e.retry == 0)
    && Tally(e.queue, TimeoutKind) == (if e.punching then 1 else 0)
    && Tally(e.queue, StepKind) <= (if e.punching then 1 else 0)
  }

  /** Inside a step task of a run: the task itself has left the queue. */
  predicate Busy(e: Exec) {
    && e.punching && e.flow.Some?
    && Tally(e.queue, StepKind) == 0
    && Tally(e.queue, TimeoutKind) == 1
  }

  /**
   * What a handler leaves behind: the invariant, the same target, the same
   * flow while the run goes on, and exactly one new report once it is over.
   */
  predicate Settled(e: Exec, r: Exec) {
    && Inv(r)
    && r.target == e.target
    && e.dispatched <= r.dispatched
    && (r.punching ==> r.flow == e.flow && r.reports == e.reports)
    && (!r.punching ==> |r.reports| == |e.reports| + 1 && r.reports[..|e.reports|] == e.reports)
  }

  lemma PostBusy(e: Exec, delay: int, t: Task)
    requires Busy(e) && e.index < |e.flow.value.steps| && e.retry < MAX_RETRY && KindOf(t) != TimeoutKind
    ensures Settled(e, Post(e, delay, t))
  {
    TallyPost(e.queue, Pending(delay, t), StepKind);
    TallyPost(e.queue, Pending(delay, t), TimeoutKind);
  }

  lemma FinishSettles(e: Exec, success: bool, message: string)
    ensures Settled(e, Finish(e, success, message))
  {
    var q := Finish(e, success, message).queue;
    assert q == [q[0]] + [q[1]];
    TallyPost([q[0]], q[1], StepKind);
    TallyPost([q[0]], q[1], TimeoutKind);
    TallyPost([], q[0], StepKind);
    TallyPost([], q[0], TimeoutKind);
    assert [] + [q[0]] == [q[0]];
  }

  lemma {:induction false} ExecuteSettles(e: Exec, ui: Surface)
    requires Busy(e) && e.index <= |e.flow.value.steps| && e.retry < MAX_RETRY
    ensures Settled(e, Execute(e, ui))
    decreases StepsLeft(e), 4
  {
    var f := e.flow.value;
    if e.index >= |f.steps| {
      FinishSettles(e, true, MSG_DONE);
    } else {
      var e1 := e.(dispatched := e.dispatched + [e.index]);
      DispatchSettles(e1, f.steps[e.index], ui);
    }
  }

  lemma {:induction false} DispatchSettles(e: Exec, st: FlowStep, ui: Surface)
    requires Busy(e) && e.index < |e.flow.value.steps| && e.retry < MAX_RETRY
    ensures Settled(e, Dispatch(e, st, ui))
    decreases StepsLeft(e), 3
  {
    match st.stepType
    case OpenApp =>
      if ui.launchable { PostBusy(e, OPEN_APP_SETTLE, NextStep); } else { RetrySettles(e, ui); }
    case ClickXY => PostBusy(e, CLICK_XY_CHECK, CheckTap(PerformClick(ui)));
    case ClickText =>
      if ClickTextFound(ui, st.text) {
        PostBusy(e, CLICK_TEXT_SETTLE, NextStep);
      } else {
        PostBusy(e, CLICK_TEXT_RETRY, RetryStep);
      }
    case LongPress =>
      if ui.gesturesSupported { GestureSettles(e, ui, GESTURE_SETTLE, NextStep); } else { RetrySettles(e, ui); }
    case DoubleClick =>
      if ui.gesturesSupported { GestureSettles(e, ui, SECOND_TAP_DELAY, SecondTap); } else { RetrySettles(e, ui); }
    case Swipe =>
      if ui.gesturesSupported { GestureSettles(e, ui, GESTURE_SETTLE, NextStep); } else { RetrySettles(e, ui); }
    case Delay => PostBusy(e, st.delay, NextStep);
    case Back => PostBusy(e, GLOBAL_ACTION_SETTLE, NextStep);
    case Home => PostBusy(e, GLOBAL_ACTION_SETTLE, NextStep);
    case RecentApps => PostBusy(e, GLOBAL_ACTION_SETTLE, NextStep);
    case Notifications => PostBusy(e, GLOBAL_ACTION_SETTLE, NextStep);
  }

  lemma {:induction false} GestureSettles(e: Exec, ui: Surface, delay: int, next: Task)
    requires Busy(e) && e.index < |e.flow.value.steps| && e.retry < MAX_RETRY && KindOf(next) == StepKind
    ensures Settled(e, GestureEnds(e, ui, delay, next))
    decreases StepsLeft(e), 2
  {
    match ui.gesture
    case Completed => PostBusy(e, delay, next);
    case Cancelled => RetrySettles(e, ui);
    case Dropped =>
  }

  lemma {:induction false} RetrySettles(e: Exec, ui: Surface)
    requires Busy(e) && e.index < |e.flow.value.steps| && e.retry < MAX_RETRY
    ensures Settled(e, RetryOrFail(e, ui))
    decreases StepsLeft(e), 1
  {
    var e1 := e.(retry := e.retry + 1);
    if e1.retry >= MAX_RETRY {
      MoveSettles(e1, ui);
    } else {
      PostBusy(e1, RETRY_DELAY, RunStep);
    }
  }

  lemma {:induction false} MoveSettles(e: Exec, ui: Surface)
    requires Busy(e) && e.index < |e.flow.value.steps|
    ensures Settled(e, MoveToNext(e, ui))
    decreases StepsLeft(e), 0
  {
    ExecuteSettles(e.(index := e.index + 1, retry := 0), ui);
  }

  /**
   * Every task the looper can run keeps the invariant.  A run only ever
   * ends here, never starts; the flow and target stay fixed while it goes
   * on; and the task that ends it sends exactly one report, while every
   * other task sends none.
   */
  lemma FireKeepsInv(e: Exec, i: nat, ui: Surface)
    requires Inv(e) && i < |e.queue|
    ensures var r := Fire(e, i, ui);
      && Inv(r)
      && r.target == e.target
      && e.dispatched <= r.dispatched
      && (r.punching ==> e.punching && r.flow == e.flow)
      && |r.reports| == |e.reports| + (if e.punching && !r.punching then 1 else 0)
      && r.reports[..|e.reports|] == e.reports
  {
    var e0 := e.(queue := e.queue[..i] + e.queue[i + 1..]);
    var t := e.queue[i].task;
    TallyRemove(e.queue, i, StepKind);
    TallyRemove(e.queue, i, TimeoutKind);
    if KindOf(t) == StepKind {
      StepTaskSettles(e0, t, ui);
    } else if KindOf(t) == TimeoutKind {
      FinishSettles(e0, false, MSG_TIMEOUT);
    } else {
      OtherTaskKeepsInv(e0, t, ui);
    }
  }

  /** A step task runs inside a run and settles it. */
  lemma StepTaskSettles(e: Exec, t: Task, ui: Surface)
    requires Busy(e) && e.index < |e.flow.value.steps| && e.retry < MAX_RETRY && KindOf(t) == StepKind
    ensures Settled(e, RunTask(e, t, ui))
  {
    match t
    case RunStep => ExecuteSettles(e, ui);
    case NextStep => MoveSettles(e, ui);
    case RetryStep => RetrySettles(e, ui);
    case CheckTap(ok) => if ok { MoveSettles(e, ui); } else { RetrySettles(e, ui); }
    case SecondTap => GestureSettles(e, ui, GESTURE_SETTLE, NextStep);
  }

  /** The toast, home and close-app tasks touch nothing but the queue, and post no step task or watchdog. */
  lemma OtherTaskKeepsInv(e: Exec, t: Task, ui: Surface)
    requires Inv(e) && KindOf(t) == OtherKind
    ensures var r := RunTask(e, t, ui); Inv(r) && r == e.(queue := r.queue)
  {
    match t
    case OpenRecents =>
      TallyPost(e.queue, Pending(CLEAR_ALL_DELAY, ClearAll), StepKind);
      TallyPost(e.queue, Pending(CLEAR_ALL_DELAY, ClearAll), TimeoutKind);
    case ClearAll =>
      TallyPost(e.queue, Pending(PRESS_HOME_DELAY, PressHome), StepKind);
      TallyPost(e.queue, Pending(PRESS_HOME_DELAY, PressHome), TimeoutKind);
    case _ =>
  }

  /**
   * `startPunchProcess` keeps the invariant.  While a run is in progress it
   * changes nothing; otherwise it either starts a run with no report, or
   * rejects the start with exactly one report.
   */
  lemma StartKeepsInv(e: Exec, target: string, flow: Option<Flow>)
    requires Inv(e)
    ensures var r := Start(e, target, flow);
      && Inv(r)
      && r.dispatched == e.dispatched
      && (e.punching ==> r == e)
      && (!e.punching ==> |r.reports| == |e.reports| + (if r.punching then 0 else 1))
      && r.reports[..|e.reports|] == e.reports
  {
    if !e.punching && target != [] && flow.Some? && |flow.value.steps| > 0 {
      var e1 := e.(target := target, flow := flow, punching := true, index := 0, retry := 0);
      TallyPost(e1.queue, Pending(FIRST_STEP_DELAY, RunStep), StepKind);
      TallyPost(e1.queue, Pending(FIRST_STEP_DELAY, RunStep), TimeoutKind);
      var e2 := Post(e1, FIRST_STEP_DELAY, RunStep);
      TallyPost(e2.queue, Pending(TIMEOUT_MS, Timeout), StepKind);
      TallyPost(e2.queue, Pending(TIMEOUT_MS, Timeout), TimeoutKind);
    } else if !e.punching {
      if target == [] {
        FinishSettles(e.(target := target), false, MSG_NO_TARGET);
      } else {
        FinishSettles(e.(target := target, flow := flow), false, MSG_NO_FLOW);
      }
    }
  }

  /** `closeApp` keeps the invariant and touches nothing but the queue. */
  lemma CloseAppKeepsInv(e: Exec, ui: Surface)
    requires Inv(e)
    ensures var r := CloseApp(e, ui);
      Inv(r) && r == e.(queue := r.queue)
      && (ui.gesturesSupported <==> |r.queue| == |e.queue| + 1)
  {
    TallyPost(e.queue, Pending(RECENTS_DELAY, OpenRecents), StepKind);
    TallyPost(e.queue, Pending(RECENTS_DELAY, OpenRecents), TimeoutKind);
  }
}
