/**
 * The accessibility service as a class: its fields are the interpreter's
 * state, its methods the service's handlers.  Each method is proved to
 * leave the object in the state the matching `FlowEngine` function
 * computes, and the public entry points keep `FlowEngine.Inv`.
 */
module PunchService {
  import opened Wrappers
  import opened FlowModel
  import opened FlowEngine

  class PunchAccessibilityService {
    var isPunching: bool
    var targetPackage: string
    var currentFlow: Option<Flow>
    var currentStepIndex: nat
    var retryCount: nat
    /** The handler's pending tasks, in posting order. */
    var handler: seq<Pending>
    /** The result broadcasts sent so far. */
    var broadcasts: seq<Report>
    /** The index of every step dispatched so far. */
    var dispatched: seq<nat>

    function State(): Exec
      reads this
    {
      Exec(isPunching, targetPackage, currentFlow, currentStepIndex, retryCount, handler, broadcasts, dispatched)
    }

    predicate Valid()
      reads this
    {
      Inv(State())
    }

    /** A connected service with nothing running. */
    constructor (target: string)
      ensures State() == Initial(target) && Valid()
    {
      isPunching := false;
      targetPackage := target;
      currentFlow := None;
      currentStepIndex := 0;
      retryCount := 0;
      handler := [];
      broadcasts := [];
      dispatched := [];
    }

    method PostDelayed(delay: int, t: Task)
      modifies this
      ensures State() == Post(old(State()), delay, t)
    {
      handler := handler + [Pending(delay, t)];
    }

    /** `startPunchProcess`; `target` and `flow` are what the preferences hold. */
    method StartPunchProcess(target: string, flow: Option<Flow>)
      requires Valid()
      modifies this
      ensures State() == Start(old(State()), target, flow) && Valid()
    {
      StartKeepsInv(State(), target, flow);
      if isPunching {
        return;
      }
      targetPackage := target;
      if |targetPackage| == 0 {
        FinishPunch(false, MSG_NO_TARGET);
        return;
      }
      currentFlow := flow;
      if currentFlow.None? || |currentFlow.value.steps| == 0 {
        FinishPunch(false, MSG_NO_FLOW);
        return;
      }
      isPunching := true;
      currentStepIndex := 0;
      retryCount := 0;
      PostDelayed(FIRST_STEP_DELAY, RunStep);
      PostDelayed(TIMEOUT_MS, Timeout);
    }

    /** `executeCurrentStep`. */
    method ExecuteCurrentStep(ui: Surface)
      requires currentFlow.Some? ==> currentStepIndex <= |currentFlow.value.steps|
      modifies this
      ensures State() == Execute(old(State()), ui)
      decreases StepsLeft(State()), 4
    {
      if currentFlow.None? {
        return;
      }
      var flow := currentFlow.value;
      if currentStepIndex >= |flow.steps| {
        FinishPunch(true, MSG_DONE);
        return;
      }
      var step := flow.steps[currentStepIndex];
      dispatched := dispatched + [currentStepIndex];
      match step.stepType
      case OpenApp => ExecuteOpenApp(ui);
      case ClickXY => ExecuteClickXY(step.x, step.y, ui);
      case ClickText => ExecuteClickText(step.text, ui);
      case LongPress => ExecuteGesture(ui, GESTURE_SETTLE, NextStep);
      case DoubleClick => ExecuteGesture(ui, SECOND_TAP_DELAY, SecondTap);
      case Swipe => ExecuteGesture(ui, GESTURE_SETTLE, NextStep);
      case Delay => ExecuteDelay(step.delay);
      case Back => ExecuteGlobalAction();
      case Home => ExecuteGlobalAction();
      case RecentApps => ExecuteGlobalAction();
      case Notifications => ExecuteGlobalAction();
    }

    /** `executeOpenApp`: wait for the app after a launch, retry when there is none. */
    method ExecuteOpenApp(ui: Surface)
      requires currentFlow.Some? && currentStepIndex < |currentFlow.value.steps|
      modifies this
      ensures State() == (if ui.launchable then Post(old(State()), OPEN_APP_SETTLE, NextStep)
                          else FlowEngine.RetryOrFail(old(State()), ui))
      decreases StepsLeft(State()), 3
    {
      if ui.launchable {
        PostDelayed(OPEN_APP_SETTLE, NextStep);
      } else {
        RetryOrFail(ui);
      }
    }

    /** `executeClickXY`: tap now, judge the tap's result 500 ms later. */
    method ExecuteClickXY(x: int, y: int, ui: Surface)
      modifies this
      ensures State() == Post(old(State()), CLICK_XY_CHECK, CheckTap(PerformClick(ui)))
    {
      var success := PerformClick(ui);
      PostDelayed(CLICK_XY_CHECK, CheckTap(success));
    }

    /** `clickNode`: the node itself, else the nearest clickable parent, else a tap at the node's centre. */
    method ClickNodeOf(c: Candidate, ui: Surface) returns (clicked: bool)
      ensures clicked == ClickNode(c, ui)
    {
      if c.node.clickable {
        return c.node.clickResult;
      }
      var k := 0;
      while k < |c.ancestors|
        invariant 0 <= k <= |c.ancestors|
        invariant forall j :: 0 <= j < k ==> !c.ancestors[j].clickable
      {
        if c.ancestors[k].clickable {
          return c.ancestors[k].clickResult;
        }
        k := k + 1;
      }
      clicked := PerformClick(ui);
    }

    /** `executeClickText`: advance 1000 ms after the first accepted match, else retry in 500 ms. */
    method ExecuteClickText(text: string, ui: Surface)
      modifies this
      ensures ClickTextFound(ui, text) ==> State() == Post(old(State()), CLICK_TEXT_SETTLE, NextStep)
      ensures !ClickTextFound(ui, text) ==> State() == Post(old(State()), CLICK_TEXT_RETRY, RetryStep)
    {
      if ui.window {
        var nodes := Matches(ui, text);
        var k := 0;
        while k < |nodes|
          invariant 0 <= k <= |nodes|
          invariant forall j :: 0 <= j < k ==> !ClickNode(nodes[j], ui)
          invariant State() == old(State())
        {
          var ok := ClickNodeOf(nodes[k], ui);
          if ok {
            PostDelayed(CLICK_TEXT_SETTLE, NextStep);
            return;
          }
          k := k + 1;
        }
      }
      PostDelayed(CLICK_TEXT_RETRY, RetryStep);
    }

    /** `executeLongPress`, `executeSwipe` and the first tap of `executeDoubleClick`. */
    method ExecuteGesture(ui: Surface, delay: int, next: Task)
      requires currentFlow.Some? && currentStepIndex < |currentFlow.value.steps|
      modifies this
      ensures State() == (if ui.gesturesSupported then GestureEnds(old(State()), ui, delay, next)
                          else FlowEngine.RetryOrFail(old(State()), ui))
      decreases StepsLeft(State()), 3
    {
      if ui.gesturesSupported {
        GestureCallback(ui, delay, next);
      } else {
        RetryOrFail(ui);
      }
    }

    /** The gesture's result callback. */
    method GestureCallback(ui: Surface, delay: int, next: Task)
      requires currentFlow.Some? && currentStepIndex < |currentFlow.value.steps|
      modifies this
      ensures State() == GestureEnds(old(State()), ui, delay, next)
      decreases StepsLeft(State()), 2
    {
      match ui.gesture
      case Completed => PostDelayed(delay, next);
      case Cancelled => RetryOrFail(ui);
      case Dropped =>
    }

    /** `executeDelay`. */
    method ExecuteDelay(delay: int)
      modifies this
      ensures State() == Post(old(State()), delay, NextStep)
    {
      PostDelayed(delay, NextStep);
    }

    /** `executeBack`/`executeHome`/`executeRecentApps`/`executeNotifications`: the action's result is ignored. */
    method ExecuteGlobalAction()
      modifies this
      ensures State() == Post(old(State()), GLOBAL_ACTION_SETTLE, NextStep)
    {
      PostDelayed(GLOBAL_ACTION_SETTLE, NextStep);
    }

    /** `moveToNextStep`. */
    method MoveToNextStep(ui: Surface)
      requires currentFlow.Some? && currentStepIndex < |currentFlow.value.steps|
      modifies this
      ensures State() == MoveToNext(old(State()), ui)
      decreases StepsLeft(State()), 0
    {
      currentStepIndex := currentStepIndex + 1;
      retryCount := 0;
      ExecuteCurrentStep(ui);
    }

    /** `retryOrFail`. */
    method RetryOrFail(ui: Surface)
      requires currentFlow.Some? && currentStepIndex < |currentFlow.value.steps|
      modifies this
      ensures State() == FlowEngine.RetryOrFail(old(State()), ui)
      decreases StepsLeft(State()), 1
    {
      retryCount := retryCount + 1;
      if retryCount >= MAX_RETRY {
        MoveToNextStep(ui);
      } else {
        PostDelayed(RETRY_DELAY, RunStep);
      }
    }

    /** `finishPunch`: reset, drop every pending task, report once, go home in 2 s. */
    method FinishPunch(success: bool, message: string)
      modifies this
      ensures State() == Finish(old(State()), success, message)
    {
      isPunching := false;
      currentFlow := None;
      currentStepIndex := 0;
      retryCount := 0;
      handler := [];
      PostDelayed(0, ShowToast(ToastText(success, message)));
      broadcasts := broadcasts + [Report(success, message)];
      PostDelayed(GO_HOME_DELAY, GoHome);
    }

    /** The looper runs the task at position `i`. */
    method Fire(i: nat, ui: Surface)
      requires Valid() && i < |handler|
      modifies this
      ensures State() == FlowEngine.Fire(old(State()), i, ui) && Valid()
    {
      FireKeepsInv(State(), i, ui);
      TallyRemove(handler, i, StepKind);
      var task := handler[i].task;
      handler := handler[..i] + handler[i + 1..];
      match task
      case RunStep => ExecuteCurrentStep(ui);
      case NextStep => MoveToNextStep(ui);
      case RetryStep => RetryOrFail(ui);
      case CheckTap(ok) => if ok { MoveToNextStep(ui); } else { RetryOrFail(ui); }
      case SecondTap => GestureCallback(ui, GESTURE_SETTLE, NextStep);
      case Timeout => if isPunching { FinishPunch(false, MSG_TIMEOUT); }
      case ShowToast(_) =>
      case GoHome =>
      case OpenRecents => PostDelayed(CLEAR_ALL_DELAY, ClearAll);
      case ClearAll => var _ := ClearAllTask(ui);
      case PressHome =>
    }

    /** `closeApp`. */
    method CloseApp(ui: Surface)
      requires Valid()
      modifies this
      ensures State() == FlowEngine.CloseApp(old(State()), ui) && Valid()
    {
      CloseAppKeepsInv(State(), ui);
      if ui.gesturesSupported {
        PostDelayed(RECENTS_DELAY, OpenRecents);
      }
    }

    /**
     * The clear-all search of `closeApp`: labels in order, within a label
     * the first clickable match; without a click, swipe the card away and
     * go home once the swipe completes.
     */
    method ClearAllTask(ui: Surface) returns (picked: Option<Pick>)
      modifies this
      ensures picked == (if ui.window then ClearAllTarget(ui) else None)
      ensures State() == ClearAllFired(old(State()), ui)
    {
      picked := None;
      if !ui.window {
        return;
      }
      var clicked := false;
      var l := 0;
      while l < |CLEAR_ALL_LABELS| && !clicked
        invariant 0 <= l <= |CLEAR_ALL_LABELS|
        invariant !clicked ==> picked.None? && ClearAllTarget(ui) == ClearAllFrom(ui, l)
        invariant clicked ==> picked.Some? && ClearAllTarget(ui) == picked
        decreases |CLEAR_ALL_LABELS| - l, !clicked
      {
        var nodes := Matches(ui, CLEAR_ALL_LABELS[l]);
        if |nodes| > 0 {
          var k := 0;
          while k < |nodes|
            invariant 0 <= k <= |nodes|
            invariant forall j :: 0 <= j < k ==> !nodes[j].node.clickable
          {
            if nodes[k].node.clickable {
              clicked := true;
              picked := Some(Pick(l, k));
              break;
            }
            k := k + 1;
          }
        }
        if !clicked {
          l := l + 1;
        }
      }
      if !clicked {
        SwipeUpToClose(ui);
      }
    }

    /** `swipeUpToClose`: home again 500 ms after the swipe completes. */
    method SwipeUpToClose(ui: Surface)
      modifies this
      ensures State() == (if ui.gesture == Completed then Post(old(State()), PRESS_HOME_DELAY, PressHome)
                          else old(State()))
    {
      if ui.gesture == Completed {
        PostDelayed(PRESS_HOME_DELAY, PressHome);
      }
    }
  }
}
