/**
 * The flow data model: the eleven step kinds, a step with its field
 * defaults and its one-line description, a flow (id, name, ordered steps),
 * the JSON codec both use for storage, and the built-in default flow.
 *
 * JSON values are modelled as an abstract tree whose objects are
 * string-keyed maps; `opt*`/`get*` accessors follow the coercions of the
 * platform's JSON objects for the value kinds modelled here.
 */
module FlowModel {
  import opened Wrappers
  import opened Decimal

  datatype StepType =
    | OpenApp | ClickXY | ClickText | LongPress | DoubleClick | Swipe
    | Delay | Back | Home | RecentApps | Notifications
  {
    /** The enum constant's name, which is what the JSON "type" field holds. */
    function Name(): string {
      match this
      case OpenApp => "OPEN_APP"
      case ClickXY => "CLICK_XY"
      case ClickText => "CLICK_TEXT"
      case LongPress => "LONG_PRESS"
      case DoubleClick => "DOUBLE_CLICK"
      case Swipe => "SWIPE"
      case Delay => "DELAY"
      case Back => "BACK"
      case Home => "HOME"
      case RecentApps => "RECENT_APPS"
      case Notifications => "NOTIFICATIONS"
    }

    /** The label shown in the step-type picker. */
    function DisplayName(): string {
      match this
      case OpenApp => "打开APP"
      case ClickXY => "点击坐标"
      case ClickText => "点击文本"
      case LongPress => "长按"
      case DoubleClick => "双击"
      case Swipe => "滑动"
      case Delay => "等待"
      case Back => "返回"
      case Home => "回到桌面"
      case RecentApps => "最近任务"
      case Notifications => "通知栏"
    }
  }

  /** Every step type, in declaration order (`StepType.values()`). */
  const ALL_TYPES: seq<StepType> :=
    [OpenApp, ClickXY, ClickText, LongPress, DoubleClick, Swipe,
     Delay, Back, Home, RecentApps, Notifications]

  /** `StepType.valueOf(name)`: exact match on the constant's name. */
  function FromName(name: string): (r: Option<StepType>)
    ensures r.Some? ==> r.value.Name() == name
    ensures r.None? ==> forall t: StepType :: t.Name() != name
  {
    match name
    case "OPEN_APP" => Some(OpenApp)
    case "CLICK_XY" => Some(ClickXY)
    case "CLICK_TEXT" => Some(ClickText)
    case "LONG_PRESS" => Some(LongPress)
    case "DOUBLE_CLICK" => Some(DoubleClick)
    case "SWIPE" => Some(Swipe)
    case "DELAY" => Some(Delay)
    case "BACK" => Some(Back)
    case "HOME" => Some(Home)
    case "RECENT_APPS" => Some(RecentApps)
    case "NOTIFICATIONS" => Some(Notifications)
    case _ => None
  }

  /** `valueOf(t.name) == t` for every constant. */
  lemma FromNameOfName(t: StepType)
    ensures FromName(t.Name()) == Some(t)
  {
    assert FromName(t.Name()).Some?;
  }

  /** Every constant is listed once in `ALL_TYPES`. */
  lemma AllTypesListsEachOnce(t: StepType)
    ensures t in ALL_TYPES
    ensures forall i, j :: 0 <= i < j < |ALL_TYPES| ==> ALL_TYPES[i] != ALL_TYPES[j]
  {
  }

  const DEFAULT_DELAY: int := 1000
  const DEFAULT_DURATION: int := 300
  const DEFAULT_FLOW_NAME: string := "默认流程"

  /**
   * One step.  `x`..`y2` are Kotlin `Int`s, `delay` and `duration` are
   * `Long`s; a kind uses only the fields it needs.
   */
  datatype FlowStep = FlowStep(
    id: string, stepType: StepType,
    x: int, y: int, x2: int, y2: int,
    text: string, delay: int, duration: int)
  {
    predicate Valid() {
      IsInt(x) && IsInt(y) && IsInt(x2) && IsInt(y2) && IsLong(delay) && IsLong(duration)
    }

    /** The line the flow editor shows for this step. */
    function Description(): string {
      match stepType
      case OpenApp => "打开目标APP"
      case ClickXY => "点击 (" + IntToString(x) + ", " + IntToString(y) + ")"
      case ClickText => "点击「" + text + "」"
      case LongPress => "长按 (" + IntToString(x) + ", " + IntToString(y) + ") " + IntToString(duration) + "ms"
      case DoubleClick => "双击 (" + IntToString(x) + ", " + IntToString(y) + ")"
      case Swipe => "滑动 (" + IntToString(x) + "," + IntToString(y) + ") → (" + IntToString(x2) + "," + IntToString(y2) + ")"
      case Delay => "等待 " + IntToString(delay) + "ms"
      case Back => "返回"
      case Home => "桌面"
      case RecentApps => "最近任务"
      case Notifications => "通知栏"
    }

    /** `toJson()`: all nine fields, the type by its constant name. */
    function ToJson(): Json {
      JObj(map[
        "id" := JStr(id), "type" := JStr(stepType.Name()),
        "x" := JNum(x), "y" := JNum(y), "x2" := JNum(x2), "y2" := JNum(y2),
        "text" := JStr(text), "delay" := JNum(delay), "duration" := JNum(duration)])
    }
  }

  /** A step of type `t` with every other field at its default. */
  function NewStep(id: string, t: StepType): (s: FlowStep)
    ensures s.Valid() && s.stepType == t && s.id == id
  {
    FlowStep(id, t, 0, 0, 0, 0, "", DEFAULT_DELAY, DEFAULT_DURATION)
  }

  /** Two steps with the same description have the same type. */
  lemma DescriptionDeterminesType(a: FlowStep, b: FlowStep)
    requires a.Description() == b.Description()
    ensures a.stepType == b.stepType
  {
    var d := a.Description();
    assert d[0] == b.Description()[0];
    if a.stepType == ClickXY || a.stepType == ClickText {
      assert d[2] == b.Description()[2];
    }
  }

  /** A click-text step's description quotes its text verbatim. */
  lemma ClickTextDescriptionQuotesText(s: FlowStep)
    requires s.stepType == ClickText
    ensures var d := s.Description(); |d| == |s.text| + 4 && d[3..|d| - 1] == s.text
  {
    var d := s.Description();
    assert d == "点击「" + s.text + "」";
  }

  /** A delay step's description carries its delay, which reads back exactly. */
  lemma DelayDescriptionCarriesDelay(s: FlowStep)
    requires s.stepType == Delay && s.Valid()
    ensures var d := s.Description(); |d| >= 5 && ToLongOrNull(d[3..|d| - 2]) == Some(s.delay)
  {
    var d := s.Description();
    assert d[3..|d| - 2] == IntToString(s.delay);
    ParseIntegerOfToString(s.delay, LONG_MIN, LONG_MAX);
  }

  /** A flow: identity, editable name and the steps in execution order. */
  datatype Flow = Flow(id: string, name: string, steps: seq<FlowStep>) {
    predicate Valid() { forall i :: 0 <= i < |steps| ==> steps[i].Valid() }

    /** `toJson()`: id, name and the steps' objects in order. */
    function ToJson(): Json {
      JObj(map["id" := JStr(id), "name" := JStr(name),
               "steps" := JArr(StepsToJson(steps))])
    }
  }

  /** The steps array of `Flow.toJson()`: one object per step, in order. */
  function StepsToJson(steps: seq<FlowStep>): (items: seq<Json>)
    ensures |items| == |steps|
  {
    if steps == [] then [] else StepsToJson(steps[..|steps| - 1]) + [steps[|steps| - 1].ToJson()]
  }

  /** `Flow.createDefault()`; `now` is the clock reading the default ids come from. */
  function CreateDefault(now: int): (f: Flow)
    ensures f.Valid() && f.name == DEFAULT_FLOW_NAME && |f.steps| == 6
    ensures f.steps[0].stepType == OpenApp
    ensures f.steps[1].stepType == Delay && f.steps[1].delay == 2000
    ensures f.steps[2].stepType == ClickText && f.steps[2].text == "工作台"
    ensures f.steps[3].stepType == Delay && f.steps[3].delay == 1000
    ensures f.steps[4].stepType == ClickText && f.steps[4].text == "假勤"
    ensures f.steps[5].stepType == Delay && f.steps[5].delay == 1000
  {
    var id := IntToString(now);
    Flow(id, DEFAULT_FLOW_NAME, [
      NewStep(id, OpenApp),
      NewStep(id, Delay).(delay := 2000),
      NewStep(id, ClickText).(text := "工作台"),
      NewStep(id, Delay).(delay := 1000),
      NewStep(id, ClickText).(text := "假勤"),
      NewStep(id, Delay).(delay := 1000)])
  }

  // ---------------------------------------------------------------- JSON

  /** The JSON values the codec reads and writes. */
  datatype Json =
    | JBool(b: bool)
    | JNum(n: int)
    | JStr(s: string)
    | JArr(items: seq<Json>)
    | JObj(fields: map<string, Json>)

  /**
   * `optString(key, fallback)`: a string as is, a number or boolean as its
   * text, the fallback when the key is absent. An array or object value
   * also reads as the fallback: JSON values are not rendered as text here.
   */
  function OptString(o: map<string, Json>, key: string, fallback: string): (r: string)
    ensures key !in o ==> r == fallback
    ensures key in o && o[key].JStr? ==> r == o[key].s
  {
    if key !in o then fallback
    else match o[key]
      case JStr(s) => s
      case JNum(n) => IntToString(n)
      case JBool(b) => if b then "true" else "false"
      case _ => fallback
  }

  /**
   * `optInt(key, fallback)`: a number truncated to `Int`, or saturated when
   * it lies beyond the `Long` range, else the fallback.
   */
  function OptInt(o: map<string, Json>, key: string, fallback: int): (r: int)
    requires IsInt(fallback)
    ensures IsInt(r)
    ensures key !in o ==> r == fallback
    ensures key in o && o[key].JNum? && IsInt(o[key].n) ==> r == o[key].n
    ensures key in o && o[key].JNum? && IsLong(o[key].n) ==> (r - o[key].n) % 0x1_0000_0000 == 0
    ensures key in o && o[key].JNum? && o[key].n > LONG_MAX ==> r == INT_MAX
  {
    if key in o && o[key].JNum? then JsonInt(o[key].n) else fallback
  }

  /**
   * `optLong(key, fallback)`: a number as is, or saturated when it lies
   * beyond the `Long` range, else the fallback.
   */
  function OptLong(o: map<string, Json>, key: string, fallback: int): (r: int)
    requires IsLong(fallback)
    ensures IsLong(r)
    ensures key !in o ==> r == fallback
    ensures key in o && o[key].JNum? && IsLong(o[key].n) ==> r == o[key].n
    ensures key in o && o[key].JNum? && o[key].n > LONG_MAX ==> r == LONG_MAX
    ensures key in o && o[key].JNum? && o[key].n < LONG_MIN ==> r == LONG_MIN
  {
    if key in o && o[key].JNum? then JsonLong(o[key].n) else fallback
  }

  /**
   * `StepType.valueOf(getString("type"))`: only a string holding a constant's
   * name succeeds (a number or boolean is read as its text, which never is
   * one; see `CoercedTextIsNoName`).
   */
  function TypeOf(v: Json): Option<StepType> {
    if v.JStr? then FromName(v.s) else None
  }

  lemma CoercedTextIsNoName(n: int)
    ensures FromName(IntToString(n)) == None
    ensures FromName("true") == None && FromName("false") == None
  {
    var s := IntToString(n);
    assert s[0] == '-' || IsDigit(s[0]);
    forall t: StepType ensures t.Name() != s {
      assert 'A' <= t.Name()[0] <= 'Z';
    }
  }

  /**
   * `FlowStep.fromJson`: null exactly when "type" is missing or names no
   * constant; every other field falls back to its default.
   */
  function StepFromJson(o: map<string, Json>, now: int): (r: Option<FlowStep>)
    ensures r.Some? <==> "type" in o && TypeOf(o["type"]).Some?
    ensures r.Some? ==> r.value.Valid() && r.value.stepType == TypeOf(o["type"]).value
  {
    if "type" !in o then None
    else match TypeOf(o["type"])
      case None => None
      case Some(t) =>
        Some(FlowStep(
          OptString(o, "id", IntToString(now)), t,
          OptInt(o, "x", 0), OptInt(o, "y", 0), OptInt(o, "x2", 0), OptInt(o, "y2", 0),
          OptString(o, "text", ""),
          OptLong(o, "delay", DEFAULT_DELAY), OptLong(o, "duration", DEFAULT_DURATION)))
  }

  /** Missing optional fields take the constructor's defaults. */
  lemma StepFromJsonDefaults(o: map<string, Json>, now: int)
    requires StepFromJson(o, now).Some?
    ensures var s := StepFromJson(o, now).value;
      && s.id == OptString(o, "id", IntToString(now))
      && ("x" !in o ==> s.x == 0) && ("y" !in o ==> s.y == 0)
      && ("x2" !in o ==> s.x2 == 0) && ("y2" !in o ==> s.y2 == 0)
      && ("text" !in o ==> s.text == "")
      && ("delay" !in o ==> s.delay == DEFAULT_DELAY)
      && ("duration" !in o ==> s.duration == DEFAULT_DURATION)
  {
  }

  /** `FlowStep.fromJson(s.toJson()) == s`. */
  lemma StepRoundTrip(s: FlowStep, now: int)
    requires s.Valid()
    ensures StepFromJson(s.ToJson().fields, now) == Some(s)
  {
    FromNameOfName(s.stepType);
  }

  /**
   * The steps array as `Flow.fromJson` reads it, left to right: a malformed
   * step object is skipped, an element that is not an object fails the
   * whole flow.
   */
  function ParseSteps(items: seq<Json>, now: int): (r: Option<seq<FlowStep>>)
    ensures r.Some? <==> forall i :: 0 <= i < |items| ==> items[i].JObj?
    ensures r.Some? ==> |r.value| <= |items|
    ensures r.Some? ==> forall i :: 0 <= i < |r.value| ==> r.value[i].Valid()
  {
    if items == [] then Some([])
    else
      var last := items[|items| - 1];
      match ParseSteps(items[..|items| - 1], now)
      case None => None
      case Some(prev) =>
        if !last.JObj? then None
        else match StepFromJson(last.fields, now)
          case None => Some(prev)
          case Some(s) => Some(prev + [s])
  }

  /** `Flow.fromJson`; a missing or non-array "steps" gives a flow with no steps. */
  function ParseFlow(o: map<string, Json>, now: int): (r: Option<Flow>)
    ensures r.Some? ==> r.value.Valid()
    ensures r.Some? ==> r.value.id == OptString(o, "id", IntToString(now))
    ensures r.Some? ==> r.value.name == OptString(o, "name", DEFAULT_FLOW_NAME)
    ensures !("steps" in o && o["steps"].JArr?) ==> r.Some? && r.value.steps == []
    ensures "steps" in o && o["steps"].JArr? ==>
      (r.Some? <==> forall i :: 0 <= i < |o["steps"].items| ==> o["steps"].items[i].JObj?)
  {
    var id := OptString(o, "id", IntToString(now));
    var name := OptString(o, "name", DEFAULT_FLOW_NAME);
    if "steps" in o && o["steps"].JArr? then
      match ParseSteps(o["steps"].items, now)
      case None => None
      case Some(steps) => Some(Flow(id, name, steps))
    else
      Some(Flow(id, name, []))
  }

  /**
   * `Flow.fromJson` as the source writes it: a loop appending each parsed
   * step to the flow's list.
   */
  method FlowFromJson(o: map<string, Json>, now: int) returns (r: Option<Flow>)
    ensures r == ParseFlow(o, now)
  {
    var flow := Flow(OptString(o, "id", IntToString(now)), OptString(o, "name", DEFAULT_FLOW_NAME), []);
    if "steps" in o && o["steps"].JArr? {
      var items := o["steps"].items;
      var i := 0;
      while i < |items|
        invariant 0 <= i <= |items|
        invariant ParseSteps(items[..i], now) == Some(flow.steps)
        invariant flow.id == OptString(o, "id", IntToString(now))
        invariant flow.name == OptString(o, "name", DEFAULT_FLOW_NAME)
      {
        assert items[..i + 1][..i] == items[..i];
        if !items[i].JObj? {
          ParseStepsNotObject(items, i, now);
          return None;
        }
        var step := StepFromJson(items[i].fields, now);
        if step.Some? {
          flow := flow.(steps := flow.steps + [step.value]);
        }
        i := i + 1;
      }
      assert items[..i] == items;
    }
    r := Some(flow);
  }

  /** One element that is not an object makes the whole array unreadable. */
  lemma ParseStepsNotObject(items: seq<Json>, k: nat, now: int)
    requires k < |items| && !items[k].JObj?
    ensures ParseSteps(items, now) == None
  {
  }

  /** Parsing two arrays back to back is parsing each and concatenating. */
  lemma {:induction false} ParseStepsAppend(a: seq<Json>, b: seq<Json>, now: int)
    ensures ParseSteps(a + b, now) ==
      if ParseSteps(a, now).Some? && ParseSteps(b, now).Some?
      then Some(ParseSteps(a, now).value + ParseSteps(b, now).value) else None
  {
    if b == [] {
      assert a + b == a;
      if ParseSteps(a, now).Some? {
        assert ParseSteps(a, now).value + [] == ParseSteps(a, now).value;
      }
    } else {
      var b' := b[..|b| - 1];
      assert (a + b)[..|a + b| - 1] == a + b';
      assert (a + b)[|a + b| - 1] == b[|b| - 1];
      ParseStepsAppend(a, b', now);
      if ParseSteps(a, now).Some? && ParseSteps(b', now).Some? {
        var pa, pb := ParseSteps(a, now).value, ParseSteps(b', now).value;
        assert pa + pb + [] == pa + (pb + []);
        var last := b[|b| - 1];
        if last.JObj? && StepFromJson(last.fields, now).Some? {
          assert pa + pb + [StepFromJson(last.fields, now).value]
              == pa + (pb + [StepFromJson(last.fields, now).value]);
        }
      }
    }
  }

  /** A step object that does not parse is dropped; its neighbours stay, in order. */
  lemma MalformedStepDropped(a: seq<Json>, bad: map<string, Json>, b: seq<Json>, now: int)
    requires StepFromJson(bad, now).None?
    ensures ParseSteps(a + [JObj(bad)] + b, now) == ParseSteps(a + b, now)
  {
    ParseStepsAppend(a + [JObj(bad)], b, now);
    ParseStepsAppend(a, [JObj(bad)], now);
    ParseStepsAppend(a, b, now);
    assert [JObj(bad)][..0] == [];
  }

  /** Reading one more array element. */
  lemma ParseStepsSnoc(items: seq<Json>, j: Json, now: int)
    requires j.JObj?
    ensures ParseSteps(items + [j], now) ==
      match ParseSteps(items, now)
      case None => None
      case Some(prev) =>
        match StepFromJson(j.fields, now)
        case None => Some(prev)
        case Some(s) => Some(prev + [s])
  {
    assert (items + [j])[..|items|] == items;
  }

  /** The steps' objects read back as the steps themselves. */
  lemma {:induction false} ParseStepsOfToJson(steps: seq<FlowStep>, now: int)
    requires forall i :: 0 <= i < |steps| ==> steps[i].Valid()
    ensures ParseSteps(StepsToJson(steps), now) == Some(steps)
  {
    if steps != [] {
      var init, last := steps[..|steps| - 1], steps[|steps| - 1];
      var j := last.ToJson();
      assert StepsToJson(steps) == StepsToJson(init) + [j];
      ParseStepsOfToJson(init, now);
      StepRoundTrip(last, now);
      ParseStepsSnoc(StepsToJson(init), j, now);
      assert init + [last] == steps;
    }
  }

  /** `Flow.fromJson(f.toJson()) == f`: id, name and the steps in order. */
  lemma FlowRoundTrip(f: Flow, now: int)
    requires f.Valid()
    ensures ParseFlow(f.ToJson().fields, now) == Some(f)
  {
    var items := StepsToJson(f.steps);
    var o := f.ToJson().fields;
    assert o == map["id" := JStr(f.id), "name" := JStr(f.name), "steps" := JArr(items)];
    assert OptString(o, "id", IntToString(now)) == f.id;
    assert OptString(o, "name", DEFAULT_FLOW_NAME) == f.name;
    ParseStepsOfToJson(f.steps, now);
    assert ParseSteps(o["steps"].items, now) == Some(f.steps);
  }
}
