/**
 * The decisions the settings screen makes: which weekdays are selected and
 * how they are summarised, how a step dialog's text fields become a step,
 * how the flow's step list is edited, which installed apps are offered as
 * the target, and when the schedule switch turns itself on.
 */
module MainScreen {
  import opened Wrappers
  import opened Decimal
  import opened FlowModel

  // ---------------------------------------------------------------- weekdays

  /** The seven day chips, Sunday first as the calendar numbers them (Sunday = 1 … Saturday = 7). */
  datatype DayChips = DayChips(
    sunday: bool, monday: bool, tuesday: bool, wednesday: bool,
    thursday: bool, friday: bool, saturday: bool)

  /** Whether the chip for calendar day `day` is checked; other numbers have no chip. */
  function Checked(c: DayChips, day: int): bool
  {
    match day
    case 1 => c.sunday
    case 2 => c.monday
    case 3 => c.tuesday
    case 4 => c.wednesday
    case 5 => c.thursday
    case 6 => c.friday
    case 7 => c.saturday
    case _ => false
  }

  /** The calendar days whose chip is checked. */
  function SelectedDays(c: DayChips): set<int>
  {
    set day | 1 <= day <= 7 && Checked(c, day)
  }

  /** `saveDaySelection`: add each checked chip's day number to a fresh set. */
  method SaveDaySelection(c: DayChips) returns (days: set<int>)
    ensures days == SelectedDays(c)
    ensures forall day :: day in days ==> 1 <= day <= 7
  {
    days := {};
    if c.sunday { days := days + {1}; }
    if c.monday { days := days + {2}; }
    if c.tuesday { days := days + {3}; }
    if c.wednesday { days := days + {4}; }
    if c.thursday { days := days + {5}; }
    if c.friday { days := days + {6}; }
    if c.saturday { days := days + {7}; }
  }

  /** `loadDaySelection`: each chip is checked exactly when its day is stored. */
  function LoadDaySelection(days: set<int>): (c: DayChips)
    ensures forall day :: 1 <= day <= 7 ==> (Checked(c, day) <==> day in days)
  {
    DayChips(1 in days, 2 in days, 3 in days, 4 in days, 5 in days, 6 in days, 7 in days)
  }

  /** Loading what was saved restores every chip. */
  lemma LoadAfterSave(c: DayChips)
    ensures LoadDaySelection(SelectedDays(c)) == c
  {
    var d := SelectedDays(c);
    assert (1 in d) == c.sunday && (2 in d) == c.monday && (3 in d) == c.tuesday;
    assert (4 in d) == c.wednesday && (5 in d) == c.thursday;
    assert (6 in d) == c.friday && (7 in d) == c.saturday;
  }

  /** Saving what was loaded keeps exactly the stored days that have a chip. */
  lemma SaveAfterLoad(days: set<int>)
    ensures SelectedDays(LoadDaySelection(days)) == set day | day in days && 1 <= day <= 7
  {
  }

  const NO_DAYS: string := "未选择执行日期"
  const EVERY_DAY: string := "每天执行"
  const WORKDAYS_LABEL: string := "工作日执行"
  const RUNS_SUFFIX: string := " 执行"
  const NAME_SEPARATOR: string := "、"

  /** Monday first, Sunday last: the order of the summary. */
  const WEEK_ORDER: seq<int> := [2, 3, 4, 5, 6, 7, 1]
  const WORKDAYS: set<int> := {2, 3, 4, 5, 6}
  const WEEK: set<int> := {1, 2, 3, 4, 5, 6, 7}

  function DayName(day: int): string
  {
    match day
    case 2 => "周一"
    case 3 => "周二"
    case 4 => "周三"
    case 5 => "周四"
    case 6 => "周五"
    case 7 => "周六"
    case _ => "周日"
  }

  /** The names of the days of `order` that are in `days`, in the order of `order`. */
  function NamesIn(days: set<int>, order: seq<int>): (names: seq<string>)
    ensures |names| <= |order|
    ensures |names| == |order| <==> forall i :: 0 <= i < |order| ==> order[i] in days
    ensures |names| == 0 <==> forall i :: 0 <= i < |order| ==> order[i] !in days
    decreases |order|
  {
    if order == [] then []
    else (if order[0] in days then [DayName(order[0])] else []) + NamesIn(days, order[1..])
  }

  function DayNames(days: set<int>): seq<string>
  {
    NamesIn(days, WEEK_ORDER)
  }

  /** `joinToString(separator)`. */
  function Join(parts: seq<string>, separator: string): string
    decreases |parts|
  {
    if parts == [] then ""
    else if |parts| == 1 then parts[0]
    else parts[0] + separator + Join(parts[1..], separator)
  }

  /** `updateDaySelectionStatus`: the status line for the stored day set. */
  function StatusText(days: set<int>): string
  {
    var names := DayNames(days);
    if |names| == 0 then NO_DAYS
    else if |names| == 7 then EVERY_DAY
    else if WORKDAYS <= days && |days| == 5 then WORKDAYS_LABEL
    else Join(names, NAME_SEPARATOR) + RUNS_SUFFIX
  }

  /** Holding every workday and nothing else is the same as having five days, all workdays. */
  lemma WorkdaysExactly(days: set<int>)
    ensures (WORKDAYS <= days && |days| == 5) <==> days == WORKDAYS
  {
    assert |WORKDAYS| == 5;
    if WORKDAYS <= days {
      var extra := days - WORKDAYS;
      assert days == WORKDAYS + extra && WORKDAYS * extra == {};
      assert |days| == 5 + |extra|;
    }
  }

  /** Reads a day name back: `DayName` loses nothing on the seven days. */
  function DayOfName(name: string): (day: int)
  {
    match name
    case "周一" => 2
    case "周二" => 3
    case "周三" => 4
    case "周四" => 5
    case "周五" => 6
    case "周六" => 7
    case _ => 1
  }

  lemma DayNameInjective(day: int)
    requires 1 <= day <= 7
    ensures DayOfName(DayName(day)) == day
  {
  }

  /** The week in summary order is the seven day numbers, each once. */
  lemma WeekOrderIsWeek()
    ensures forall day :: day in WEEK_ORDER <==> day in WEEK
  {
    assert WEEK_ORDER[0] == 2 && WEEK_ORDER[1] == 3 && WEEK_ORDER[2] == 4 && WEEK_ORDER[3] == 5;
    assert WEEK_ORDER[4] == 6 && WEEK_ORDER[5] == 7 && WEEK_ORDER[6] == 1;
  }

  /** Where each day number sits in `WEEK_ORDER`. */
  function WeekPosition(day: int): (i: nat)
    requires 1 <= day <= 7
    ensures i < |WEEK_ORDER| && WEEK_ORDER[i] == day
  {
    if day == 1 then 6 else day - 2
  }

  /** No selected day, and every day, in terms of the numbers of the week. */
  lemma WeekOrderCounts(days: set<int>)
    ensures (forall i :: 0 <= i < |WEEK_ORDER| ==> WEEK_ORDER[i] !in days) <==> days * WEEK == {}
    ensures (forall i :: 0 <= i < |WEEK_ORDER| ==> WEEK_ORDER[i] in days) <==> WEEK <= days
  {
    WeekOrderIsWeek();
    assert forall i :: 0 <= i < |WEEK_ORDER| ==> WEEK_ORDER[i] in WEEK;
    if days * WEEK != {} {
      var d :| d in days * WEEK;
      assert WEEK_ORDER[WeekPosition(d)] in days;
    } else {
      forall i | 0 <= i < |WEEK_ORDER|
        ensures WEEK_ORDER[i] !in days
      {
        assert WEEK_ORDER[i] in WEEK && WEEK_ORDER[i] !in days * WEEK;
      }
    }
    if !(WEEK <= days) {
      var d :| d in WEEK && d !in days;
      assert WEEK_ORDER[WeekPosition(d)] !in days;
    }
  }

  /** The summary rule: each label is chosen exactly in its own case. */
  lemma StatusTextCases(days: set<int>)
    ensures StatusText(days) == NO_DAYS <==> days * WEEK == {}
    ensures StatusText(days) == EVERY_DAY <==> WEEK <= days
    ensures StatusText(days) == WORKDAYS_LABEL <==> days == WORKDAYS
    ensures StatusText(days) !in {NO_DAYS, EVERY_DAY, WORKDAYS_LABEL} ==>
      StatusText(days) == Join(DayNames(days), NAME_SEPARATOR) + RUNS_SUFFIX
  {
    var names := DayNames(days);
    WorkdaysExactly(days);
    WeekOrderCounts(days);
    if |names| != 0 && |names| != 7 && !(WORKDAYS <= days && |days| == 5) {
      var t := Join(names, NAME_SEPARATOR) + RUNS_SUFFIX;
      assert t[|t| - 1] == RUNS_SUFFIX[2] && t[|t| - 3] == ' ';
      assert NO_DAYS[|NO_DAYS| - 1] != RUNS_SUFFIX[2];
      assert EVERY_DAY[|EVERY_DAY| - 3] != ' ';
      assert WORKDAYS_LABEL[|WORKDAYS_LABEL| - 3] != ' ';
    }
    if days == WORKDAYS {
      assert 7 in WEEK && 7 !in days;
    }
  }

  /** The listed names are those of the selected days. */
  lemma {:induction false} NamesInListsSelected(days: set<int>, order: seq<int>, day: int)
    requires forall i :: 0 <= i < |order| ==> 1 <= order[i] <= 7
    requires 1 <= day <= 7
    ensures DayName(day) in NamesIn(days, order) <==> day in days && day in order
    decreases |order|
  {
    if order != [] {
      NamesInListsSelected(days, order[1..], day);
      DayNameInjective(day);
      DayNameInjective(order[0]);
      assert day in order <==> day == order[0] || day in order[1..];
    }
  }

  /** The summary names exactly the selected days, Monday first. */
  lemma DayNamesListsSelected(days: set<int>, day: int)
    requires 1 <= day <= 7
    ensures DayName(day) in DayNames(days) <==> day in days
  {
    assert forall i :: 0 <= i < |WEEK_ORDER| ==> 1 <= WEEK_ORDER[i] <= 7;
    NamesInListsSelected(days, WEEK_ORDER, day);
    assert WEEK_ORDER[WeekPosition(day)] == day;
  }

  // ------------------------------------------------------------ step dialogs

  /** Kotlin `Char.isWhitespace`: the separator categories and the ASCII/information-separator controls. */
  predicate IsWhitespace(c: char)
  {
    || '\t' <= c <= '\r' || '\U{1C}' <= c <= '\U{1F}' || c == ' '
    || c == '\U{A0}' || c == '\U{1680}' || '\U{2000}' <= c <= '\U{200A}'
    || c == '\U{2028}' || c == '\U{2029}' || c == '\U{202F}' || c == '\U{205F}' || c == '\U{3000}'
  }

  /** `isBlank()`: empty or whitespace only. */
  predicate IsBlank(s: string)
  {
    forall i :: 0 <= i < |s| ==> IsWhitespace(s[i])
  }

  /** The text of a step dialog's fields; a type reads only the fields its dialog shows. */
  datatype StepForm = StepForm(
    x: string, y: string, x2: string, y2: string,
    text: string, delay: string, duration: string)

  const COORDINATE_FALLBACK: int := 0
  const DELAY_FALLBACK: int := 1000
  const LONG_PRESS_FALLBACK: int := 500
  const SWIPE_FALLBACK: int := 300

  /** `toIntOrNull() ?: fallback` */
  function IntOr(s: string, fallback: int): (v: int)
    ensures ToIntOrNull(s).Some? ==> v == ToIntOrNull(s).value
    ensures ToIntOrNull(s).None? ==> v == fallback
  {
    match ToIntOrNull(s)
    case Some(v) => v
    case None => fallback
  }

  /** `toLongOrNull() ?: fallback` */
  function LongOr(s: string, fallback: int): (v: int)
    ensures ToLongOrNull(s).Some? ==> v == ToLongOrNull(s).value
    ensures ToLongOrNull(s).None? ==> v == fallback
  {
    match ToLongOrNull(s)
    case Some(v) => v
    case None => fallback
  }

  predicate NeedsNoConfig(t: StepType)
  {
    t in {OpenApp, Back, Home, RecentApps, Notifications}
  }

  /**
   * What confirming the step dialog for type `t` hands to the list, with
   * `id` the new step's clock-derived id; `None` is the blank click-text
   * input, which only shows a hint.
   */
  function ConfiguredStep(t: StepType, f: StepForm, id: string): (r: Option<FlowStep>)
    ensures r.Some? ==> r.value.stepType == t && r.value.id == id && r.value.Valid()
    ensures r.None? <==> t == ClickText && IsBlank(f.text)
  {
    var base := NewStep(id, t);
    match t
    case ClickXY => Some(base.(x := IntOr(f.x, 0), y := IntOr(f.y, 0)))
    case ClickText => if IsBlank(f.text) then None else Some(base.(text := f.text))
    case Delay => Some(base.(delay := LongOr(f.delay, DELAY_FALLBACK)))
    case LongPress =>
      Some(base.(x := IntOr(f.x, 0), y := IntOr(f.y, 0), duration := LongOr(f.duration, LONG_PRESS_FALLBACK)))
    case DoubleClick => Some(base.(x := IntOr(f.x, 0), y := IntOr(f.y, 0)))
    case Swipe =>
      Some(base.(x := IntOr(f.x, 0), y := IntOr(f.y, 0), x2 := IntOr(f.x2, 0), y2 := IntOr(f.y2, 0),
                 duration := LongOr(f.duration, SWIPE_FALLBACK)))
    case _ => Some(base)
  }

  /** The step types without settings are created with every field at its default. */
  lemma NoConfigTypes(t: StepType, f: StepForm, id: string)
    requires NeedsNoConfig(t)
    ensures ConfiguredStep(t, f, id) == Some(NewStep(id, t))
  {
  }

  /** A non-blank click text is stored exactly as typed. */
  lemma ClickTextKept(f: StepForm, id: string)
    requires !IsBlank(f.text)
    ensures ConfiguredStep(ClickText, f, id) == Some(NewStep(id, ClickText).(text := f.text))
  {
  }

  /** Unparsable numbers fall back: coordinates to 0, a delay to 1000, a long press to 500, a swipe to 300. */
  lemma UnparsableFallsBack(t: StepType, f: StepForm, id: string)
    requires t != ClickText
    ensures var s := ConfiguredStep(t, f, id).value;
      && (t in {ClickXY, LongPress, DoubleClick, Swipe} && ToIntOrNull(f.x).None? ==> s.x == 0)
      && (t in {ClickXY, LongPress, DoubleClick, Swipe} && ToIntOrNull(f.y).None? ==> s.y == 0)
      && (t == Swipe && ToIntOrNull(f.x2).None? ==> s.x2 == 0)
      && (t == Swipe && ToIntOrNull(f.y2).None? ==> s.y2 == 0)
      && (t == Delay && ToLongOrNull(f.delay).None? ==> s.delay == 1000)
      && (t == LongPress && ToLongOrNull(f.duration).None? ==> s.duration == 500)
      && (t == Swipe && ToLongOrNull(f.duration).None? ==> s.duration == 300)
  {
  }

  /** The dialog's pre-filled text: the existing step's values when editing, else the defaults. */
  function Prefill(t: StepType, existing: Option<FlowStep>): StepForm
  {
    match existing
    case Some(e) =>
      StepForm(IntToString(e.x), IntToString(e.y), IntToString(e.x2), IntToString(e.y2),
               e.text, IntToString(e.delay), IntToString(e.duration))
    case None =>
      StepForm("", "", "", "", "", "1000",
               if t == LongPress then "500" else if t == Swipe then "300" else "")
  }

  /** The part of a step its type's dialog edits, copied onto a new step with id `id`. */
  function Normalized(s: FlowStep, id: string): FlowStep
  {
    var base := NewStep(id, s.stepType);
    match s.stepType
    case ClickXY => base.(x := s.x, y := s.y)
    case ClickText => base.(text := s.text)
    case Delay => base.(delay := s.delay)
    case LongPress => base.(x := s.x, y := s.y, duration := s.duration)
    case DoubleClick => base.(x := s.x, y := s.y)
    case Swipe => base.(x := s.x, y := s.y, x2 := s.x2, y2 := s.y2, duration := s.duration)
    case _ => base
  }

  lemma IntRoundTrip(n: int)
    requires IsInt(n)
    ensures IntOr(IntToString(n), 0) == n
  {
    ParseIntegerOfToString(n, INT_MIN, INT_MAX);
  }

  lemma LongRoundTrip(n: int, fallback: int)
    requires IsLong(n)
    ensures LongOr(IntToString(n), fallback) == n
  {
    ParseIntegerOfToString(n, LONG_MIN, LONG_MAX);
  }

  /**
   * Confirming the edit dialog without touching it rebuilds the step: every
   * field its type uses comes back, the description is unchanged, and only
   * the id is new.
   */
  lemma EditUnchangedRebuildsStep(s: FlowStep, id: string)
    requires s.Valid()
    requires !(s.stepType == ClickText && IsBlank(s.text))
    ensures ConfiguredStep(s.stepType, Prefill(s.stepType, Some(s)), id) == Some(Normalized(s, id))
    ensures Normalized(s, id).Description() == s.Description()
    ensures Normalized(s, id).id == id
  {
    IntRoundTrip(s.x);
    IntRoundTrip(s.y);
    IntRoundTrip(s.x2);
    IntRoundTrip(s.y2);
    LongRoundTrip(s.delay, DELAY_FALLBACK);
    LongRoundTrip(s.duration, LONG_PRESS_FALLBACK);
    LongRoundTrip(s.duration, SWIPE_FALLBACK);
  }

  /** The pre-filled numbers of a new dialog parse as themselves. */
  lemma PrefillLiteralsParse()
    ensures ToLongOrNull("1000") == Some(1000)
    ensures ToLongOrNull("500") == Some(500)
    ensures ToLongOrNull("300") == Some(300)
  {
    assert "1000"[..3] == "100" && "100"[..2] == "10" && "10"[..1] == "1";
    assert DigitsValue("10") == 10 && DigitsValue("100") == 100 && DigitsValue("1000") == 1000;
    assert "500"[..2] == "50" && "50"[..1] == "5";
    assert "300"[..2] == "30" && "30"[..1] == "3";
  }

  /** Confirming a new dialog untouched: coordinates 0, delay 1000, long press 500 ms, swipe 300 ms. */
  lemma NewDialogDefaults(t: StepType, id: string)
    requires t != ClickText
    ensures var s := ConfiguredStep(t, Prefill(t, None), id).value;
      && s.x == 0 && s.y == 0 && s.x2 == 0 && s.y2 == 0
      && s.delay == 1000
      && (t == LongPress ==> s.duration == 500)
      && (t != LongPress ==> s.duration == 300)
  {
    PrefillLiteralsParse();
    assert ToIntOrNull("") == None;
  }

  /** A blank click text never reaches the list, whatever else the form holds. */
  lemma NewClickTextNeedsText(id: string)
    ensures ConfiguredStep(ClickText, Prefill(ClickText, None), id) == None
  {
  }

  // ------------------------------------------------------------- step list

  /** `removeAt(i)`: the steps before `i` and after it, in their order. */
  function RemoveAt(steps: seq<FlowStep>, i: nat): (r: seq<FlowStep>)
    requires i < |steps|
    ensures |r| == |steps| - 1
    ensures forall j :: 0 <= j < i ==> r[j] == steps[j]
    ensures forall j :: i <= j < |r| ==> r[j] == steps[j + 1]
    ensures multiset(r) + multiset{steps[i]} == multiset(steps)
  {
    assert steps == steps[..i] + [steps[i]] + steps[i + 1..];
    steps[..i] + steps[i + 1..]
  }

  /** Adding a step and then deleting it again leaves the list as it was. */
  lemma AddThenDelete(steps: seq<FlowStep>, s: FlowStep)
    ensures RemoveAt(steps + [s], |steps|) == steps
  {
  }

  predicate AllValid(steps: seq<FlowStep>)
  {
    forall i :: 0 <= i < |steps| ==> steps[i].Valid()
  }

  /** The flow being edited, and what was last written to the preferences. */
  class FlowEditor {
    var currentFlow: Flow
    /** the argument of the last `prefs.saveFlow` */
    var saved: Option<Flow>

    predicate Valid()
      reads this
    {
      currentFlow.Valid()
    }

    constructor (flow: Flow)
      requires flow.Valid()
      ensures currentFlow == flow && saved == None && Valid()
    {
      currentFlow := flow;
      saved := None;
    }

    /** The delete button's confirmation: drop step `index`, save. */
    method DeleteStep(index: nat)
      requires Valid() && index < |currentFlow.steps|
      modifies this
      ensures currentFlow == old(currentFlow).(steps := RemoveAt(old(currentFlow.steps), index))
      ensures saved == Some(currentFlow) && Valid()
    {
      currentFlow := currentFlow.(steps := RemoveAt(currentFlow.steps, index));
      saved := Some(currentFlow);
    }

    /** The add dialog's confirmation: append, save. */
    method AddStep(step: FlowStep)
      requires Valid() && step.Valid()
      modifies this
      ensures currentFlow == old(currentFlow).(steps := old(currentFlow.steps) + [step])
      ensures saved == Some(currentFlow) && Valid()
    {
      currentFlow := currentFlow.(steps := currentFlow.steps + [step]);
      saved := Some(currentFlow);
    }

    /** The edit dialog's confirmation: overwrite step `index`, save. */
    method ReplaceStep(index: nat, step: FlowStep)
      requires Valid() && index < |currentFlow.steps| && step.Valid()
      modifies this
      ensures currentFlow == old(currentFlow).(steps := old(currentFlow.steps)[index := step])
      ensures saved == Some(currentFlow) && Valid()
    {
      currentFlow := currentFlow.(steps := currentFlow.steps[index := step]);
      saved := Some(currentFlow);
    }

    /** `showAddStepDialog` after the type was picked and the form confirmed. */
    method ConfirmNewStep(t: StepType, form: StepForm, id: string)
      requires Valid()
      modifies this
      ensures match ConfiguredStep(t, form, id)
        case None => currentFlow == old(currentFlow) && saved == old(saved)
        case Some(s) => currentFlow.steps == old(currentFlow.steps) + [s] && saved == Some(currentFlow)
      ensures currentFlow.id == old(currentFlow.id) && currentFlow.name == old(currentFlow.name)
      ensures Valid()
    {
      var built := ConfiguredStep(t, form, id);
      if built.Some? {
        AddStep(built.value);
      }
    }

    /** `showEditStepDialog` for step `index` after the type was picked and the form confirmed. */
    method ConfirmEditedStep(index: nat, t: StepType, form: StepForm, id: string)
      requires Valid() && index < |currentFlow.steps|
      modifies this
      ensures match ConfiguredStep(t, form, id)
        case None => currentFlow == old(currentFlow) && saved == old(saved)
        case Some(s) => currentFlow.steps == old(currentFlow.steps)[index := s] && saved == Some(currentFlow)
      ensures |currentFlow.steps| == |old(currentFlow.steps)|
      ensures forall j :: 0 <= j < |currentFlow.steps| && j != index ==> currentFlow.steps[j] == old(currentFlow.steps)[j]
      ensures Valid()
    {
      var built := ConfiguredStep(t, form, id);
      if built.Some? {
        ReplaceStep(index, built.value);
      }
    }
  }

  /** After any edit the saved flow reads back, through its JSON form, as the flow on screen. */
  lemma SavedFlowReadsBack(f: Flow, now: int)
    requires f.Valid()
    ensures ParseFlow(f.ToJson().fields, now) == Some(f)
  {
    FlowRoundTrip(f, now);
  }

  // ------------------------------------------------------------ target apps

  const FLAG_SYSTEM: bv32 := 0x1
  const FLAG_UPDATED_SYSTEM_APP: bv32 := 0x80

  /** What the package manager reports for one installed application. */
  datatype ApplicationInfo = ApplicationInfo(packageName: string, appLabel: string, flags: bv32)

  /** One row of the target-app picker (its icon is not modelled). */
  datatype AppInfo = AppInfo(name: string, packageName: string)

  /** User apps, and system apps the user has updated, are offered. */
  predicate Offered(a: ApplicationInfo)
  {
    (a.flags & FLAG_SYSTEM) == 0 || (a.flags & FLAG_UPDATED_SYSTEM_APP) != 0
  }

  function AppOf(a: ApplicationInfo): AppInfo
  {
    AppInfo(a.appLabel, a.packageName)
  }

  /** The offered applications in package-manager order. */
  function OfferedApps(packages: seq<ApplicationInfo>): seq<AppInfo>
    decreases |packages|
  {
    if packages == [] then []
    else
      var last := packages[|packages| - 1];
      OfferedApps(packages[..|packages| - 1]) + (if Offered(last) then [AppOf(last)] else [])
  }

  /** `String.compareTo(other) < 0`: lexicographic by character, a proper prefix first. */
  predicate Less(a: string, b: string)
    decreases |a|
  {
    if |a| == 0 then |b| > 0
    else if |b| == 0 then false
    else if a[0] != b[0] then a[0] < b[0]
    else Less(a[1..], b[1..])
  }

  lemma {:induction false} LessAsymmetric(a: string, b: string)
    ensures !(Less(a, b) && Less(b, a))
    decreases |a|
  {
    if |a| > 0 && |b| > 0 && a[0] == b[0] {
      LessAsymmetric(a[1..], b[1..]);
    }
  }

  /** Each name is no greater than the next. */
  predicate SortedByName(apps: seq<AppInfo>)
  {
    forall i :: 0 <= i < |apps| - 1 ==> !Less(apps[i + 1].name, apps[i].name)
  }

  /** Put `a` after every entry whose name is not greater, so equal names keep their order. */
  function InsertByName(a: AppInfo, sorted: seq<AppInfo>): (r: seq<AppInfo>)
    requires SortedByName(sorted)
    ensures SortedByName(r)
    ensures multiset(r) == multiset(sorted) + multiset{a}
    ensures |r| > 0 && (r[0] == a || (|sorted| > 0 && r[0] == sorted[0]))
    decreases |sorted|
  {
    if sorted == [] then [a]
    else if Less(a.name, sorted[0].name) then
      LessAsymmetric(a.name, sorted[0].name);
      [a] + sorted
    else
      var rest := InsertByName(a, sorted[1..]);
      assert sorted == [sorted[0]] + sorted[1..];
      [sorted[0]] + rest
  }

  /** `sortBy { it.name }`: a stable sort on the name. */
  function SortByName(apps: seq<AppInfo>): (r: seq<AppInfo>)
    ensures SortedByName(r)
    ensures multiset(r) == multiset(apps)
    decreases |apps|
  {
    if apps == [] then []
    else
      assert apps == apps[..|apps| - 1] + [apps[|apps| - 1]];
      InsertByName(apps[|apps| - 1], SortByName(apps[..|apps| - 1]))
  }

  /** `getInstalledApps`: collect the offered apps, then sort them by name. */
  method GetInstalledApps(packages: seq<ApplicationInfo>) returns (apps: seq<AppInfo>)
    ensures apps == SortByName(OfferedApps(packages))
  {
    apps := [];
    for i := 0 to |packages|
      invariant apps == OfferedApps(packages[..i])
    {
      assert packages[..i + 1][..i] == packages[..i];
      if Offered(packages[i]) {
        apps := apps + [AppOf(packages[i])];
      }
    }
    assert packages[..|packages|] == packages;
    apps := SortByName(apps);
  }

  lemma {:induction false} OfferedAppsMembers(packages: seq<ApplicationInfo>, app: AppInfo)
    ensures app in OfferedApps(packages) <==>
      exists i :: 0 <= i < |packages| && Offered(packages[i]) && AppOf(packages[i]) == app
    decreases |packages|
  {
    if packages != [] {
      var init := packages[..|packages| - 1];
      OfferedAppsMembers(init, app);
      if exists i :: 0 <= i < |init| && Offered(init[i]) && AppOf(init[i]) == app {
        var i :| 0 <= i < |init| && Offered(init[i]) && AppOf(init[i]) == app;
        assert packages[i] == init[i];
      }
      if exists i :: 0 <= i < |packages| && Offered(packages[i]) && AppOf(packages[i]) == app {
        var i :| 0 <= i < |packages| && Offered(packages[i]) && AppOf(packages[i]) == app;
        if i < |init| {
          assert init[i] == packages[i];
        }
      }
    }
  }

  /**
   * The picker lists, sorted by name, exactly the user apps and updated
   * system apps: each offered package once per occurrence, nothing else.
   */
  lemma InstalledAppsSpec(packages: seq<ApplicationInfo>, app: AppInfo)
    ensures SortedByName(SortByName(OfferedApps(packages)))
    ensures multiset(SortByName(OfferedApps(packages))) == multiset(OfferedApps(packages))
    ensures app in SortByName(OfferedApps(packages)) <==>
      exists i :: 0 <= i < |packages| && Offered(packages[i]) && AppOf(packages[i]) == app
  {
    OfferedAppsMembers(packages, app);
    var r := SortByName(OfferedApps(packages));
    assert app in r <==> app in multiset(r);
  }

  /** A plain system app is never offered; an updated one always is. */
  lemma SystemAppRule(a: ApplicationInfo)
    ensures (a.flags & FLAG_SYSTEM) != 0 && (a.flags & FLAG_UPDATED_SYSTEM_APP) == 0 ==> !Offered(a)
    ensures (a.flags & FLAG_UPDATED_SYSTEM_APP) != 0 ==> Offered(a)
  {
  }

  // --------------------------------------------------------------- schedule

  /** The two stored switches `autoEnableSchedule` consults. */
  datatype ScheduleFlags = ScheduleFlags(userToggled: bool, scheduleEnabled: bool)

  /**
   * The schedule switch's change listener for a switch turned on: it records
   * a user toggle, and enables the schedule when the accessibility service
   * is on and exact alarms may be set (without them a permission dialog is
   * shown instead and nothing is stored).  Turned on without the service it
   * flips back off, which the listener sees as a turn-off.
   */
  function SwitchTurnedOn(s: ScheduleFlags, accessibilityEnabled: bool, exactAlarms: bool): ScheduleFlags
  {
    if !accessibilityEnabled then ScheduleFlags(true, false)
    else if exactAlarms then ScheduleFlags(true, true)
    else s.(userToggled := true)
  }

  /** `autoEnableSchedule`: turn the switch on only for a first-time user with the service enabled. */
  function AutoEnable(s: ScheduleFlags, accessibilityEnabled: bool, exactAlarms: bool): ScheduleFlags
  {
    if s.userToggled then s
    else if s.scheduleEnabled then s
    else if accessibilityEnabled then SwitchTurnedOn(s, accessibilityEnabled, exactAlarms)
    else s
  }

  /** The switch moves exactly when all three conditions hold, and then the schedule is on unless exact alarms are refused. */
  lemma AutoEnableDecision(s: ScheduleFlags, accessibilityEnabled: bool, exactAlarms: bool)
    ensures AutoEnable(s, accessibilityEnabled, exactAlarms) != s <==>
      !s.userToggled && !s.scheduleEnabled && accessibilityEnabled
    ensures !s.userToggled && !s.scheduleEnabled && accessibilityEnabled ==>
      AutoEnable(s, accessibilityEnabled, exactAlarms) == ScheduleFlags(true, exactAlarms)
  {
  }

  /** Because the listener records a toggle, the automatic switch-on happens at most once. */
  lemma AutoEnableAtMostOnce(s: ScheduleFlags, a1: bool, e1: bool, a2: bool, e2: bool)
    requires AutoEnable(s, a1, e1) != s
    ensures AutoEnable(AutoEnable(s, a1, e1), a2, e2) == AutoEnable(s, a1, e1)
  {
  }
}
