# FeishuPunch, modelled in Dafny

FeishuPunch is an Android app that runs a user-configured sequence of UI
steps against a target app at scheduled times. The steps are: open the app,
tap a coordinate, click a text, long-press, double-tap, swipe, wait, and the
global actions BACK, HOME, RECENT_APPS and NOTIFICATIONS. This project models
the app's core and proves properties of that model.

- **Flow executor** (`flow_engine.dfy`, `punch_service.dfy`,
  `engine_properties.dfy`). `PunchAccessibilityService` holds the running
  flag, the loaded flow, the step cursor and a retry counter (at most 3).
  Every `handler.postDelayed` becomes a `(delay, task)` entry in a pending
  queue. `removeCallbacksAndMessages(null)` empties that queue. The screen is
  an oracle `Surface` that says whether:
  - a launch intent exists;
  - gestures are supported;
  - a tap is accepted;
  - a gesture completes, is cancelled or is dropped;
  - which nodes match a text and which of them are clickable.

  `FlowEngine` states every handler as a function on a state value `Exec`.
  The class `PunchService.PunchAccessibilityService` has the source's fields
  and methods, and each method is proved to compute its function. Posted
  tasks may fire in any order, so the safety properties hold for every
  interleaving of posted tasks. A gesture callback is delivered inside the
  handler that dispatched it. The safety properties are:
  - the queue invariant;
  - exactly one report per run;
  - an idle service stays idle.

  Progress properties use a scheduler that runs the pending step task before
  the watchdog is due:
  - every step of an all-successful flow, of any of the eleven types, is
    dispatched once and in order;
  - the scheduler runs one step task per step, and two for a double click;
  - a step that fails at dispatch is dispatched three times and then
    skipped;
  - so is a text click that finds no node, or a coordinate click that is
    refused, which fails only in its delayed check.
- **Steps, flows and their JSON form** (`flow_step.dfy`, with Kotlin
  integer parsing and printing in `decimal.dfy`). The covered behaviour is:
  - the eleven step types and the field defaults;
  - the descriptions;
  - `toJson`/`fromJson` for a step and for a flow, with the round-trips
    proved;
  - the skipping of malformed entries;
  - the default flow.

  JSON is an abstract value: an object is a string-keyed map.
- **Preferences** (`preferences.dfy`). The schedule flag and the morning and
  evening windows are a key-to-value table. Every getter falls back to a
  fixed default, and every setter changes only its own keys.
- **Alarms** (`alarm_helper.dfy`). This covers:
  - the random time inside a window;
  - the next occurrence of a time of day;
  - `HH:MM` formatting;
  - the (action, request code) pairs the setters register and
    `cancelAllAlarms` removes.
- **Coordinate capture** (`floating_window.dfy`). This is the floating
  window service's modes (IDLE, SINGLE_POINT, SWIPE): the start command, the
  ball buttons, the overlay guard, the two-touch swipe capture, hiding and
  destruction. It is a class over the source's fields, specified by
  functions on a `Capture` value. The settings screen's side is part of it:
  it assigns a static callback and then calls `startService` with a
  command, whether or not the service runs. On a stopped service
  `onCreate` runs first and keeps the callbacks already assigned.
- **Settings screen decisions** (`main_screen.dfy`). This covers:
  - the weekday chips and the weekday status label;
  - building a step from a dialog's text fields;
  - in-place edits of the step list (class `FlowEditor`);
  - the installed-app filter and sort;
  - the schedule switch turning itself on.

Source paths below are relative to the repository root of the app's sources.

## Model

| member | source | states |
|---|---|---|
| Decimal.ParseInteger | FeishuPunch/app/src/main/kotlin/com/example/feishupunch/MainActivity.kt:979-981 | Kotlin `toIntOrNull`/`toLongOrNull`: a result lies within the requested range and the empty string is not a number |
| Decimal.ParseIntegerOfToString | FeishuPunch/app/src/main/kotlin/com/example/feishupunch/MainActivity.kt:947-952 | reading back the decimal text of any in-range value gives that value (the dialogs pre-fill with `toString()` and parse it again) |
| Decimal.ParseIntegerNeedsDigit | FeishuPunch/app/src/main/kotlin/com/example/feishupunch/MainActivity.kt:979-981 | text with no digit in it never parses, so the dialog falls back to its default |
| Decimal.IntToString | FeishuPunch/app/src/main/kotlin/com/example/feishupunch/model/FlowStep.kt:40-54 | decimal text of an integer starts with '-' exactly for negative values and never with '+' |
| Decimal.NatToStringValue | FeishuPunch/app/src/main/kotlin/com/example/feishupunch/model/FlowStep.kt:40-54 | the digits written for a natural number denote that number |
| Decimal.WrapInt | FeishuPunch/app/src/main/kotlin/com/example/feishupunch/model/FlowStep.kt:77-93 | `Long.intValue()`, which `optInt` applies to a literal held as a `Long`: a 32-bit value congruent to the input, equal to it when it already fits |
| Decimal.JsonLong | FeishuPunch/app/src/main/kotlin/com/example/feishupunch/model/FlowStep.kt:77-93 | `optLong` of an integer literal: always a 64-bit value; the literal itself inside the `Long` range; beyond it, the nearer `Long` bound, as `Double.longValue()` saturates |
| Decimal.JsonInt | FeishuPunch/app/src/main/kotlin/com/example/feishupunch/model/FlowStep.kt:77-93 | `optInt` of an integer literal: always a 32-bit value; congruent to the literal inside the `Long` range and equal to it when it fits; beyond it, the nearer `Int` bound, as `Double.intValue()` saturates |
| Decimal.BeyondLongSaturates | FeishuPunch/app/src/main/kotlin/com/example/feishupunch/model/FlowStep.kt:77-93 | just beyond the `Long` range `optLong` gives the `Long` bound and `optInt` the `Int` bound, which is not the truncation of the `Long` reading |
| Decimal.Pad2 | FeishuPunch/app/src/main/kotlin/com/example/feishupunch/util/AlarmHelper.kt:187-189 | `%02d`: at least two characters; for 0..99 exactly two digits denoting the value |
| FlowModel.FromName | FeishuPunch/app/src/main/kotlin/com/example/feishupunch/model/FlowStep.kt:77-93 | `StepType.valueOf`: a found type has exactly the given name; no type has the name when nothing is found |
| FlowModel.FromNameOfName | FeishuPunch/app/src/main/kotlin/com/example/feishupunch/model/FlowStep.kt:9-21 | every step type is found again from its own name |
| FlowModel.AllTypesListsEachOnce | FeishuPunch/app/src/main/kotlin/com/example/feishupunch/model/FlowStep.kt:9-21 | the eleven step types are listed once each |
| FlowModel.NewStep | FeishuPunch/app/src/main/kotlin/com/example/feishupunch/model/FlowStep.kt:26-36 | a step built with the constructor defaults has the requested id and type and in-range fields |
| FlowModel.DescriptionDeterminesType | FeishuPunch/app/src/main/kotlin/com/example/feishupunch/model/FlowStep.kt:40-54 | two steps with the same description have the same type (each type has its own prefix) |
| FlowModel.ClickTextDescriptionQuotesText | FeishuPunch/app/src/main/kotlin/com/example/feishupunch/model/FlowStep.kt:40-54 | a CLICK_TEXT description quotes the step's text unchanged between 「 and 」 |
| FlowModel.DelayDescriptionCarriesDelay | FeishuPunch/app/src/main/kotlin/com/example/feishupunch/model/FlowStep.kt:40-54 | a DELAY description carries the delay, which reads back from between its prefix and the `ms` suffix |
| FlowModel.StepsToJson | FeishuPunch/app/src/main/kotlin/com/example/feishupunch/model/FlowStep.kt:108-116 | one JSON item per step |
| FlowModel.CreateDefault | FeishuPunch/app/src/main/kotlin/com/example/feishupunch/model/FlowStep.kt:145-157 | the default flow is named 默认流程 and has exactly six steps: OPEN_APP, DELAY 2000, CLICK_TEXT 工作台, DELAY 1000, CLICK_TEXT 假勤, DELAY 1000 |
| FlowModel.OptString | FeishuPunch/app/src/main/kotlin/com/example/feishupunch/model/FlowStep.kt:77-93 | `optString`: the fallback when the key is missing, the stored string when there is one |
| FlowModel.OptInt | FeishuPunch/app/src/main/kotlin/com/example/feishupunch/model/FlowStep.kt:77-93 | `optInt`: always a 32-bit value; the fallback when the key is missing; the stored number when it fits |
| FlowModel.OptLong | FeishuPunch/app/src/main/kotlin/com/example/feishupunch/model/FlowStep.kt:77-93 | `optLong`: always a 64-bit value; the fallback when the key is missing; the stored number when it fits |
| FlowModel.CoercedTextIsNoName | FeishuPunch/app/src/main/kotlin/com/example/feishupunch/model/FlowStep.kt:77-93 | a number or boolean under "type" never names a step type |
| FlowModel.StepFromJson | FeishuPunch/app/src/main/kotlin/com/example/feishupunch/model/FlowStep.kt:77-93 | `FlowStep.fromJson` gives a step exactly when "type" is present and names a step type; the step has that type and in-range fields |
| FlowModel.StepFromJsonDefaults | FeishuPunch/app/src/main/kotlin/com/example/feishupunch/model/FlowStep.kt:77-93 | missing fields default to id = current time, x = y = x2 = y2 = 0, text = "", delay = 1000, duration = 300 |
| FlowModel.StepRoundTrip | FeishuPunch/app/src/main/kotlin/com/example/feishupunch/model/FlowStep.kt:59-93 | `fromJson(toJson(s)) == s` for every step |
| FlowModel.ParseSteps | FeishuPunch/app/src/main/kotlin/com/example/feishupunch/model/FlowStep.kt:128-139 | the steps array parses exactly when every item is an object; a result has no more steps than items and every step is in range |
| FlowModel.ParseFlow | FeishuPunch/app/src/main/kotlin/com/example/feishupunch/model/FlowStep.kt:122-140 | `Flow.fromJson`: id and name default to the current time and 默认流程; a missing steps array gives no steps; with an array the flow exists exactly when every item is an object |
| FlowModel.FlowFromJson | FeishuPunch/app/src/main/kotlin/com/example/feishupunch/model/FlowStep.kt:122-140 | the loop that appends parsed steps one by one computes `ParseFlow` |
| FlowModel.ParseStepsNotObject | FeishuPunch/app/src/main/kotlin/com/example/feishupunch/model/FlowStep.kt:128-139 | one non-object item makes the whole parse fail |
| FlowModel.ParseStepsAppend | FeishuPunch/app/src/main/kotlin/com/example/feishupunch/model/FlowStep.kt:128-139 | parsing a concatenation keeps the order: the steps of the first part, then those of the second |
| FlowModel.ParseStepsSnoc | FeishuPunch/app/src/main/kotlin/com/example/feishupunch/model/FlowStep.kt:128-139 | one more object item adds its step at the end, or nothing when it is malformed |
| FlowModel.MalformedStepDropped | FeishuPunch/app/src/main/kotlin/com/example/feishupunch/model/FlowStep.kt:128-139 | an object with a missing or unknown type is dropped and the other steps keep their order |
| FlowModel.ParseStepsOfToJson | FeishuPunch/app/src/main/kotlin/com/example/feishupunch/model/FlowStep.kt:108-140 | the steps array written by `toJson` reads back as the same steps in the same order |
| FlowModel.FlowRoundTrip | FeishuPunch/app/src/main/kotlin/com/example/feishupunch/model/FlowStep.kt:108-140 | `Flow.fromJson(f.toJson()) == f` |
| Preferences.DefaultWindowsNonEmpty | FeishuPunch/app/src/main/kotlin/com/example/feishupunch/util/PreferenceHelper.kt:27-34 | both default windows (08:50-09:20 and 18:40-19:10) end after they start, and the morning ends before the evening starts |
| Preferences.PreferenceHelper.constructor | FeishuPunch/app/src/main/kotlin/com/example/feishupunch/util/PreferenceHelper.kt:9 | the helper starts over the stored tables |
| Preferences.PreferenceHelper.IsScheduleEnabled | FeishuPunch/app/src/main/kotlin/com/example/feishupunch/util/PreferenceHelper.kt:40 | false when never stored, else the stored flag |
| Preferences.PreferenceHelper.SetScheduleEnabled | FeishuPunch/app/src/main/kotlin/com/example/feishupunch/util/PreferenceHelper.kt:42-44 | writes only the schedule flag, after which `IsScheduleEnabled` returns it |
| Preferences.PreferenceHelper.MorningStartHour | FeishuPunch/app/src/main/kotlin/com/example/feishupunch/util/PreferenceHelper.kt:47 | stored value, else 8 |
| Preferences.PreferenceHelper.MorningStartMinute | FeishuPunch/app/src/main/kotlin/com/example/feishupunch/util/PreferenceHelper.kt:48 | stored value, else 50 |
| Preferences.PreferenceHelper.MorningEndHour | FeishuPunch/app/src/main/kotlin/com/example/feishupunch/util/PreferenceHelper.kt:51 | stored value, else 9 |
| Preferences.PreferenceHelper.MorningEndMinute | FeishuPunch/app/src/main/kotlin/com/example/feishupunch/util/PreferenceHelper.kt:52 | stored value, else 20 |
| Preferences.PreferenceHelper.EveningStartHour | FeishuPunch/app/src/main/kotlin/com/example/feishupunch/util/PreferenceHelper.kt:69 | stored value, else 18 |
| Preferences.PreferenceHelper.EveningStartMinute | FeishuPunch/app/src/main/kotlin/com/example/feishupunch/util/PreferenceHelper.kt:70 | stored value, else 40 |
| Preferences.PreferenceHelper.EveningEndHour | FeishuPunch/app/src/main/kotlin/com/example/feishupunch/util/PreferenceHelper.kt:73 | stored value, else 19 |
| Preferences.PreferenceHelper.EveningEndMinute | FeishuPunch/app/src/main/kotlin/com/example/feishupunch/util/PreferenceHelper.kt:74 | stored value, else 10 |
| Preferences.PreferenceHelper.SetMorningStartTime | FeishuPunch/app/src/main/kotlin/com/example/feishupunch/util/PreferenceHelper.kt:54-59 | writes only the two morning-start keys; their getters return the new values and every other getter is unchanged |
| Preferences.PreferenceHelper.SetMorningEndTime | FeishuPunch/app/src/main/kotlin/com/example/feishupunch/util/PreferenceHelper.kt:61-66 | writes only the two morning-end keys; their getters return the new values and every other getter is unchanged |
| Preferences.PreferenceHelper.SetEveningStartTime | FeishuPunch/app/src/main/kotlin/com/example/feishupunch/util/PreferenceHelper.kt:76-81 | writes only the two evening-start keys; their getters return the new values and every other getter is unchanged |
| Preferences.PreferenceHelper.SetEveningEndTime | FeishuPunch/app/src/main/kotlin/com/example/feishupunch/util/PreferenceHelper.kt:83-88 | writes only the two evening-end keys; their getters return the new values and every other getter is unchanged |
| Preferences.PreferenceHelper.MorningHour | FeishuPunch/app/src/main/kotlin/com/example/feishupunch/util/PreferenceHelper.kt:91 | the legacy getter equals the morning start hour |
| Preferences.PreferenceHelper.MorningMinute | FeishuPunch/app/src/main/kotlin/com/example/feishupunch/util/PreferenceHelper.kt:92 | the legacy getter equals the morning start minute |
| Preferences.PreferenceHelper.EveningHour | FeishuPunch/app/src/main/kotlin/com/example/feishupunch/util/PreferenceHelper.kt:93 | the legacy getter equals the evening start hour |
| Preferences.PreferenceHelper.EveningMinute | FeishuPunch/app/src/main/kotlin/com/example/feishupunch/util/PreferenceHelper.kt:94 | the legacy getter equals the evening start minute |
| Alarms.TruncRem | FeishuPunch/app/src/main/kotlin/com/example/feishupunch/util/AlarmHelper.kt:68-69 | Kotlin `%`: quotient times divisor plus remainder is the dividend, and the remainder is in 0..59 for a non-negative minute count |
| Alarms.GetRandomTime | FeishuPunch/app/src/main/kotlin/com/example/feishupunch/util/AlarmHelper.kt:59-70 | an empty or inverted window gives exactly its start; otherwise the time lies in the window, both ends included, with the minute in 0..59 |
| Alarms.NextAlarmIsFirstOccurrence | FeishuPunch/app/src/main/kotlin/com/example/feishupunch/util/AlarmHelper.kt:170-185 | the next alarm is strictly after now, at most one day later, at the requested time of day, and the occurrence a day earlier is not after now |
| Alarms.GetNextAlarmTime | FeishuPunch/app/src/main/kotlin/com/example/feishupunch/util/AlarmHelper.kt:170-185 | the step-by-step calendar update computes `NextAlarmAt` |
| Alarms.FormatTime | FeishuPunch/app/src/main/kotlin/com/example/feishupunch/util/AlarmHelper.kt:187-189 | `HH:MM`: five characters, two digits for the hour, a colon and two digits for the minute, each denoting its field |
| Alarms.SetterKeysDistinct | FeishuPunch/app/src/main/kotlin/com/example/feishupunch/util/AlarmHelper.kt:20-23 | the setters use four distinct (action, request code) pairs |
| Alarms.AlarmHelper.constructor | FeishuPunch/app/src/main/kotlin/com/example/feishupunch/util/AlarmHelper.kt:118-165 | no alarm is pending |
| Alarms.AlarmHelper.SetAlarm | FeishuPunch/app/src/main/kotlin/com/example/feishupunch/util/AlarmHelper.kt:118-152 | registers (or replaces) the alarm for its (action, request code) pair |
| Alarms.AlarmHelper.CancelAlarm | FeishuPunch/app/src/main/kotlin/com/example/feishupunch/util/AlarmHelper.kt:154-165 | removes only that pair |
| Alarms.AlarmHelper.SetMorningAlarm | FeishuPunch/app/src/main/kotlin/com/example/feishupunch/util/AlarmHelper.kt:31-40 | only the morning pair changes, to the next occurrence of some time inside the window |
| Alarms.AlarmHelper.SetEveningAlarm | FeishuPunch/app/src/main/kotlin/com/example/feishupunch/util/AlarmHelper.kt:45-54 | only the evening pair changes, to the next occurrence of some time inside the window |
| Alarms.AlarmHelper.SetMorningAlarmAt | FeishuPunch/app/src/main/kotlin/com/example/feishupunch/util/AlarmHelper.kt:73-75 | the legacy setter schedules exactly h:m on the morning pair |
| Alarms.AlarmHelper.SetEveningAlarmAt | FeishuPunch/app/src/main/kotlin/com/example/feishupunch/util/AlarmHelper.kt:77-79 | the legacy setter schedules exactly h:m on the evening pair |
| Alarms.AlarmHelper.SetCloseAppAlarm | FeishuPunch/app/src/main/kotlin/com/example/feishupunch/util/AlarmHelper.kt:84-92 | schedules the next h:m under (CLOSE_FEISHU, 1003) |
| Alarms.AlarmHelper.SetCloseAppEveningAlarm | FeishuPunch/app/src/main/kotlin/com/example/feishupunch/util/AlarmHelper.kt:97-105 | schedules the next h:m under (CLOSE_FEISHU, 1004) |
| Alarms.AlarmHelper.CancelAllAlarms | FeishuPunch/app/src/main/kotlin/com/example/feishupunch/util/AlarmHelper.kt:110-116 | removes exactly the four pairs the setters register, so nothing the setters made stays pending |
| FlowEngine.FirstClickable | FeishuPunch/app/src/main/kotlin/com/example/feishupunch/service/PunchAccessibilityService.kt:428-439 | the parent-chain walk stops at the nearest clickable ancestor; none found means none is clickable |
| FlowEngine.ClickNodeRule | FeishuPunch/app/src/main/kotlin/com/example/feishupunch/service/PunchAccessibilityService.kt:422-445 | `clickNode`: a clickable node's own result; else the nearest clickable ancestor's result; only with none, a tap at the centre of the bounds |
| FlowEngine.FirstAccepted | FeishuPunch/app/src/main/kotlin/com/example/feishupunch/service/PunchAccessibilityService.kt:201-212 | CLICK_TEXT stops at the first match `clickNode` accepts; none found means every match was refused |
| FlowEngine.FirstClickableMatch | FeishuPunch/app/src/main/kotlin/com/example/feishupunch/service/PunchAccessibilityService.kt:563-570 | the clear-all search clicks the first clickable node for a label, or finds none |
| FlowEngine.ClearAllFrom | FeishuPunch/app/src/main/kotlin/com/example/feishupunch/service/PunchAccessibilityService.kt:558-573 | labels are tried in list order and the chosen one is the first with a clickable node; none chosen means no label has one |
| FlowEngine.Initial | FeishuPunch/app/src/main/kotlin/com/example/feishupunch/service/PunchAccessibilityService.kt:40-56 | a new service is idle, with nothing pending, reported or dispatched |
| FlowEngine.Finish | FeishuPunch/app/src/main/kotlin/com/example/feishupunch/service/PunchAccessibilityService.kt:655-680 | `finishPunch`: idle with flow, index and retry cleared; every pending task dropped before the toast and the 2000 ms go-home; exactly one report appended |
| FlowEngine.TallyConcat | FeishuPunch/app/src/main/kotlin/com/example/feishupunch/service/PunchAccessibilityService.kt:107-117 | pending tasks of a kind add up over a concatenated queue |
| FlowEngine.TallyPost | FeishuPunch/app/src/main/kotlin/com/example/feishupunch/service/PunchAccessibilityService.kt:107-117 | posting a task raises the count of its kind by one |
| FlowEngine.TallyRemove | FeishuPunch/app/src/main/kotlin/com/example/feishupunch/service/PunchAccessibilityService.kt:107-117 | firing a task lowers the count of its kind by one |
| FlowEngine.PostBusy | FeishuPunch/app/src/main/kotlin/com/example/feishupunch/service/PunchAccessibilityService.kt:152-268 | posting a follow-up task during a run keeps the run invariant |
| FlowEngine.FinishSettles | FeishuPunch/app/src/main/kotlin/com/example/feishupunch/service/PunchAccessibilityService.kt:655-680 | finishing ends the run with exactly one more report and keeps the invariant |
| FlowEngine.ExecuteSettles | FeishuPunch/app/src/main/kotlin/com/example/feishupunch/service/PunchAccessibilityService.kt:123-147 | `executeCurrentStep` in a run leaves either one step task pending with nothing reported, or an ended run with exactly one report |
| FlowEngine.DispatchSettles | FeishuPunch/app/src/main/kotlin/com/example/feishupunch/service/PunchAccessibilityService.kt:133-146 | the same for each step kind's handler |
| FlowEngine.GestureSettles | FeishuPunch/app/src/main/kotlin/com/example/feishupunch/service/PunchAccessibilityService.kt:273-367 | the same for a gesture's completion or cancellation callback |
| FlowEngine.RetrySettles | FeishuPunch/app/src/main/kotlin/com/example/feishupunch/service/PunchAccessibilityService.kt:381-393 | the same for `retryOrFail` |
| FlowEngine.MoveSettles | FeishuPunch/app/src/main/kotlin/com/example/feishupunch/service/PunchAccessibilityService.kt:372-376 | the same for `moveToNextStep` |
| FlowEngine.FireKeepsInv | FeishuPunch/app/src/main/kotlin/com/example/feishupunch/service/PunchAccessibilityService.kt:107-117 | firing any pending task keeps the invariant (running iff a flow is loaded, one watchdog pending while running, at most one step task pending) and appends at most one report |
| FlowEngine.StepTaskSettles | FeishuPunch/app/src/main/kotlin/com/example/feishupunch/service/PunchAccessibilityService.kt:107-117 | a step task fired during a run settles as above |
| FlowEngine.OtherTaskKeepsInv | FeishuPunch/app/src/main/kotlin/com/example/feishupunch/service/PunchAccessibilityService.kt:540-617 | toast, go-home and app-closing tasks change nothing but the queue |
| FlowEngine.StartKeepsInv | FeishuPunch/app/src/main/kotlin/com/example/feishupunch/service/PunchAccessibilityService.kt:75-118 | `startPunchProcess` keeps the invariant; a rejected start appends exactly one report; a start while running changes nothing |
| FlowEngine.CloseAppKeepsInv | FeishuPunch/app/src/main/kotlin/com/example/feishupunch/service/PunchAccessibilityService.kt:540-584 | `closeApp` changes only the queue, posting one task exactly when gestures are supported |
| EngineProperties.StartRejectsInOrder | FeishuPunch/app/src/main/kotlin/com/example/feishupunch/service/PunchAccessibilityService.kt:75-118 | already running: no change; empty target: failure 未设置目标APP; missing or empty flow: failure 未配置执行流程; otherwise running at step 0 with retry 0, step 0 due after 500 ms and the watchdog after 120000 ms; no rejected start dispatches a step |
| EngineProperties.WatchdogEndsRun | FeishuPunch/app/src/main/kotlin/com/example/feishupunch/service/PunchAccessibilityService.kt:112-117 | the watchdog ends a run still in progress with the single failure report 工作超时 and drops every other pending task |
| EngineProperties.MoveToNextAdvances | FeishuPunch/app/src/main/kotlin/com/example/feishupunch/service/PunchAccessibilityService.kt:372-376 | advancing past the last step reports success 流程执行完成; otherwise the next step is dispatched with the retry count reset |
| EngineProperties.DispatchFromFreshCounter | FeishuPunch/app/src/main/kotlin/com/example/feishupunch/service/PunchAccessibilityService.kt:133-146 | a step's first dispatch never advances the cursor by itself |
| EngineProperties.ExecuteWithoutFlow | FeishuPunch/app/src/main/kotlin/com/example/feishupunch/service/PunchAccessibilityService.kt:124 | with no flow `executeCurrentStep` does nothing |
| EngineProperties.StepSchedules | FeishuPunch/app/src/main/kotlin/com/example/feishupunch/service/PunchAccessibilityService.kt:152-268 | DELAY advances after its own delay; global actions after 500 ms whatever they return; OPEN_APP after 3000 ms or retries; CLICK_TEXT after 1000 ms or retries in 500 ms; CLICK_XY checks the tap after 500 ms |
| EngineProperties.StepTaskAt | FeishuPunch/app/src/main/kotlin/com/example/feishupunch/service/PunchAccessibilityService.kt:107-117 | the scheduler picks the first pending step task, or reports that none is pending |
| EngineProperties.TallyZero | FeishuPunch/app/src/main/kotlin/com/example/feishupunch/service/PunchAccessibilityService.kt:107-117 | a zero count means no task of that kind is pending |
| EngineProperties.FollowLast | FeishuPunch/app/src/main/kotlin/com/example/feishupunch/service/PunchAccessibilityService.kt:107-117 | with exactly one step task pending at the end, the scheduler runs it |
| EngineProperties.ChainFinishes | FeishuPunch/app/src/main/kotlin/com/example/feishupunch/service/PunchAccessibilityService.kt:372-376 | from a pending task that calls `moveToNextStep` (a step's settle delay or a successful CLICK_XY check), when every remaining step succeeds, whatever its type, the scheduler runs one step task, then one per remaining step and two per DOUBLE_CLICK; that dispatches each remaining index once, in order, and reports success once |
| EngineProperties.SecondTapFinishes | FeishuPunch/app/src/main/kotlin/com/example/feishupunch/service/PunchAccessibilityService.kt:300-342 | from the pending second tap of a succeeding DOUBLE_CLICK, one more step task than `ChainFinishes` ends the run the same way |
| EngineProperties.PostedFinishes | FeishuPunch/app/src/main/kotlin/com/example/feishupunch/service/PunchAccessibilityService.kt:133-146 | just after a succeeding step was dispatched and posted its continuation, running one step task per remaining step (two per DOUBLE_CLICK) dispatches every later step once, in order, and reports success once |
| EngineProperties.AllStepsSucceed | FeishuPunch/app/src/main/kotlin/com/example/feishupunch/service/PunchAccessibilityService.kt:75-147 | a start with a flow whose steps all succeed, of any of the eleven types, dispatches steps 0..n-1 once each, in order, and reports success exactly once, after one step task per step and two per DOUBLE_CLICK |
| EngineProperties.FailingStepSkippedAfterThreeTries | FeishuPunch/app/src/main/kotlin/com/example/feishupunch/service/PunchAccessibilityService.kt:381-393 | a step that always fails at dispatch (no launch intent, gesture refused or cancelled) is dispatched exactly three times, 1500 ms apart, with the retry count 1 then 2, and is then skipped rather than failing the run |
| EngineProperties.DispatchAdvances | FeishuPunch/app/src/main/kotlin/com/example/feishupunch/service/PunchAccessibilityService.kt:133-146 | a succeeding step posts exactly one step task after its type's delay: CLICK_XY its 500 ms check, DOUBLE_CLICK its second tap, any other type `moveToNextStep` |
| EngineProperties.StepOutcomesCover | FeishuPunch/app/src/main/kotlin/com/example/feishupunch/service/PunchAccessibilityService.kt:133-146 | every step, whatever the screen answers, succeeds, fails at dispatch, fails in its posted check, or is a gesture whose callback never comes |
| EngineProperties.DispatchFailsLater | FeishuPunch/app/src/main/kotlin/com/example/feishupunch/service/PunchAccessibilityService.kt:179-218 | a CLICK_TEXT with no clickable match posts `retryOrFail` after 500 ms; a refused CLICK_XY posts its 500 ms check, which will fail |
| EngineProperties.FailedAttempt | FeishuPunch/app/src/main/kotlin/com/example/feishupunch/service/PunchAccessibilityService.kt:381-393 | below the limit, the failing check re-runs the step 1500 ms later, which fails again: one more dispatch and one more retry |
| EngineProperties.DeferredFailureSkippedAfterThreeTries | FeishuPunch/app/src/main/kotlin/com/example/feishupunch/service/PunchAccessibilityService.kt:195-218 | a CLICK_TEXT that never finds its text, or a CLICK_XY that is always refused, is dispatched exactly three times, with the retry count 1 then 2, and is then skipped |
| EngineProperties.DispatchFailsNow | FeishuPunch/app/src/main/kotlin/com/example/feishupunch/service/PunchAccessibilityService.kt:152-218 | a step whose failure is detected immediately goes straight to `retryOrFail` |
| EngineProperties.SkippedLastStepReportsSuccess | FeishuPunch/app/src/main/kotlin/com/example/feishupunch/service/PunchAccessibilityService.kt:381-393 | exhausting the retries of the last step still reports success |
| EngineProperties.DroppedGestureStalls | FeishuPunch/app/src/main/kotlin/com/example/feishupunch/service/PunchAccessibilityService.kt:284-291 | a gesture the platform drops without a callback leaves the run with no step task pending |
| EngineProperties.StalledRunEndsOnlyByWatchdog | FeishuPunch/app/src/main/kotlin/com/example/feishupunch/service/PunchAccessibilityService.kt:112-117 | in a stalled run nothing but the watchdog changes the cursor, the counters or the reports, and the watchdog ends it with 工作超时 |
| EngineProperties.ApplyKeepsInv | FeishuPunch/app/src/main/kotlin/com/example/feishupunch/service/PunchAccessibilityService.kt:75-118 | any single event (a task firing or `closeApp`) keeps the invariant, never restarts a run, and appends one report exactly when it ends a run |
| EngineProperties.IdleStaysIdle | FeishuPunch/app/src/main/kotlin/com/example/feishupunch/service/PunchAccessibilityService.kt:75-118 | without a start, no sequence of events starts a run or reports anything |
| EngineProperties.OneReportPerRun | FeishuPunch/app/src/main/kotlin/com/example/feishupunch/service/PunchAccessibilityService.kt:655-680 | across any sequence of events a run reports nothing while it is running and exactly once when it ends |
| CoordinateCapture.CreatedIsValid | FeishuPunch/app/src/main/kotlin/com/example/feishupunch/service/FloatingWindowService.kt:66-71 | a created service shows its ball, is running and idle, and is consistent |
| CoordinateCapture.ApplyKeepsValid | FeishuPunch/app/src/main/kotlin/com/example/feishupunch/service/FloatingWindowService.kt:73-307 | every callback assignment, command (launching a stopped service first), button, touch or destroy keeps the views and flags consistent, and at most one overlay is ever attached |
| CoordinateCapture.ActionOf | FeishuPunch/app/src/main/kotlin/com/example/feishupunch/service/FloatingWindowService.kt:74-87 | the intent's action is START_SINGLE, START_SWIPE or STOP exactly when it equals that string; a missing or any other action is the fourth case |
| CoordinateCapture.CallbacksPersist | FeishuPunch/app/src/main/kotlin/com/example/feishupunch/MainActivity.kt:1252-1277 | a callback becomes set only by the settings screen's assignment and is cleared only by `onDestroy`; every other event keeps it |
| CoordinateCapture.PointCaptureAfterInstall | FeishuPunch/app/src/main/kotlin/com/example/feishupunch/MainActivity.kt:1252-1262 | assigning the point callback and starting START_SINGLE, on a running or a stopped service, makes the next touch-down deliver exactly that point and leaves the service running, idle and consistent |
| CoordinateCapture.SwipeCaptureAfterInstall | FeishuPunch/app/src/main/kotlin/com/example/feishupunch/MainActivity.kt:1264-1277 | assigning the swipe callback and starting START_SWIPE, on a running or a stopped service, makes the next two touch-downs deliver exactly that swipe and leaves the service running and idle |
| CoordinateCapture.StartCommandEffect | FeishuPunch/app/src/main/kotlin/com/example/feishupunch/service/FloatingWindowService.kt:73-89 | START_SINGLE gives single-point mode with an overlay; START_SWIPE gives swipe mode with the start point cleared; STOP only requests a stop; any other action changes nothing; nothing is delivered |
| CoordinateCapture.ShowOverlayGuard | FeishuPunch/app/src/main/kotlin/com/example/feishupunch/service/FloatingWindowService.kt:173 | with an overlay present showing another does nothing, so showing is idempotent and always leaves an overlay |
| CoordinateCapture.HideIdempotent | FeishuPunch/app/src/main/kotlin/com/example/feishupunch/service/FloatingWindowService.kt:271-290 | hiding always leaves no overlay, no start point and IDLE mode, so hiding twice equals hiding once |
| CoordinateCapture.TouchIgnored | FeishuPunch/app/src/main/kotlin/com/example/feishupunch/service/FloatingWindowService.kt:207-253 | touches without an overlay, other than ACTION_DOWN, or in IDLE change nothing |
| CoordinateCapture.SinglePointCapture | FeishuPunch/app/src/main/kotlin/com/example/feishupunch/service/FloatingWindowService.kt:213-226 | in single-point mode a touch delivers the point once (when a callback is set), shows it, and returns to IDLE with the ball visible |
| CoordinateCapture.SwipeCapture | FeishuPunch/app/src/main/kotlin/com/example/feishupunch/service/FloatingWindowService.kt:227-250 | in swipe mode the first touch records the start without delivering; the second delivers start and end once and returns to IDLE |
| CoordinateCapture.TouchKeepsValid | FeishuPunch/app/src/main/kotlin/com/example/feishupunch/service/FloatingWindowService.kt:207-255 | the touch handler keeps the state consistent |
| CoordinateCapture.TouchesWithoutOverlay | FeishuPunch/app/src/main/kotlin/com/example/feishupunch/service/FloatingWindowService.kt:207-208 | without an overlay any sequence of touches changes nothing |
| CoordinateCapture.AtMostOneDeliveryPerOverlay | FeishuPunch/app/src/main/kotlin/com/example/feishupunch/service/FloatingWindowService.kt:207-255 | any sequence of touches delivers at most one coordinate and keeps earlier deliveries |
| CoordinateCapture.DestroyClears | FeishuPunch/app/src/main/kotlin/com/example/feishupunch/service/FloatingWindowService.kt:292-307 | after `onDestroy` both callbacks and the instance are cleared, no view stays attached, and later touches do nothing |
| CoordinateCapture.FloatingWindowService.constructor | FeishuPunch/app/src/main/kotlin/com/example/feishupunch/service/FloatingWindowService.kt:66-71 | `onCreate` records the instance and shows the ball |
| CoordinateCapture.FloatingWindowService.ShowFloatingBall | FeishuPunch/app/src/main/kotlin/com/example/feishupunch/service/FloatingWindowService.kt:95-166 | adds the ball only when none is shown |
| CoordinateCapture.FloatingWindowService.OnStartCommand | FeishuPunch/app/src/main/kotlin/com/example/feishupunch/service/FloatingWindowService.kt:73-89 | on a running service, performs the mode switch of `StartCommand` for the decoded action, keeps the state consistent and returns START_STICKY |
| CoordinateCapture.FloatingWindowService.StartSingleCapture | FeishuPunch/app/src/main/kotlin/com/example/feishupunch/service/FloatingWindowService.kt:123-127 | the single-point button switches mode and shows the overlay |
| CoordinateCapture.FloatingWindowService.StartSwipeCapture | FeishuPunch/app/src/main/kotlin/com/example/feishupunch/service/FloatingWindowService.kt:129-134 | the swipe button switches mode, clears the start point and shows the overlay |
| CoordinateCapture.FloatingWindowService.ShowCaptureOverlay | FeishuPunch/app/src/main/kotlin/com/example/feishupunch/service/FloatingWindowService.kt:172-258 | shows the overlay unless one exists, hiding the ball and setting the mode's hint |
| CoordinateCapture.FloatingWindowService.OnOverlayTouch | FeishuPunch/app/src/main/kotlin/com/example/feishupunch/service/FloatingWindowService.kt:207-255 | the touch listener performs `Touch`, keeps the state consistent and consumes every event |
| CoordinateCapture.FloatingWindowService.CapturePoint | FeishuPunch/app/src/main/kotlin/com/example/feishupunch/service/FloatingWindowService.kt:213-226 | the single-point branch performs `Touch` for a touch-down |
| CoordinateCapture.FloatingWindowService.CaptureSwipeEnd | FeishuPunch/app/src/main/kotlin/com/example/feishupunch/service/FloatingWindowService.kt:227-250 | the swipe branch performs `Touch` for a touch-down |
| CoordinateCapture.FloatingWindowService.HideCaptureOverlay | FeishuPunch/app/src/main/kotlin/com/example/feishupunch/service/FloatingWindowService.kt:271-290 | performs `Hide` |
| CoordinateCapture.FloatingWindowService.OnDestroy | FeishuPunch/app/src/main/kotlin/com/example/feishupunch/service/FloatingWindowService.kt:292-307 | performs `Destroy` and keeps the state consistent |
| CoordinateCapture.FloatingWindowService.SetOnCoordinateSelected | FeishuPunch/app/src/main/kotlin/com/example/feishupunch/MainActivity.kt:1255 | the assignment sets the point callback and changes nothing else |
| CoordinateCapture.FloatingWindowService.SetOnSwipeSelected | FeishuPunch/app/src/main/kotlin/com/example/feishupunch/MainActivity.kt:1270 | the assignment sets the swipe callback and changes nothing else |
| CoordinateCapture.FloatingWindowService.IsRunning | FeishuPunch/app/src/main/kotlin/com/example/feishupunch/service/FloatingWindowService.kt:35 | true exactly while an instance is recorded |
| MainScreen.SaveDaySelection | FeishuPunch/app/src/main/kotlin/com/example/feishupunch/MainActivity.kt:431-444 | stores exactly the checked chips as days, Sunday = 1 to Saturday = 7 |
| MainScreen.LoadDaySelection | FeishuPunch/app/src/main/kotlin/com/example/feishupunch/MainActivity.kt:416-426 | a chip is checked exactly when its day is stored |
| MainScreen.LoadAfterSave | FeishuPunch/app/src/main/kotlin/com/example/feishupunch/MainActivity.kt:416-444 | loading what was saved restores every chip |
| MainScreen.SaveAfterLoad | FeishuPunch/app/src/main/kotlin/com/example/feishupunch/MainActivity.kt:416-444 | saving what was loaded gives back the stored days in 1..7 |
| MainScreen.NamesIn | FeishuPunch/app/src/main/kotlin/com/example/feishupunch/MainActivity.kt:452-458 | one name per listed day at most; all of them exactly when every day is selected, none exactly when none is |
| MainScreen.WorkdaysExactly | FeishuPunch/app/src/main/kotlin/com/example/feishupunch/MainActivity.kt:464 | five days including Monday to Friday are exactly Monday to Friday |
| MainScreen.DayNameInjective | FeishuPunch/app/src/main/kotlin/com/example/feishupunch/MainActivity.kt:452-458 | different days have different names |
| MainScreen.WeekOrderIsWeek | FeishuPunch/app/src/main/kotlin/com/example/feishupunch/MainActivity.kt:452-458 | the name order lists exactly the seven days |
| MainScreen.WeekPosition | FeishuPunch/app/src/main/kotlin/com/example/feishupunch/MainActivity.kt:452-458 | every day has a place in the Monday-first order |
| MainScreen.WeekOrderCounts | FeishuPunch/app/src/main/kotlin/com/example/feishupunch/MainActivity.kt:460-463 | no listed day is selected exactly when no weekday is; all are exactly when every weekday is |
| MainScreen.StatusTextCases | FeishuPunch/app/src/main/kotlin/com/example/feishupunch/MainActivity.kt:449-470 | no weekday gives 未选择执行日期; all seven give 每天执行; exactly Monday-Friday gives 工作日执行; otherwise the names joined by 、 plus ' 执行' |
| MainScreen.NamesInListsSelected | FeishuPunch/app/src/main/kotlin/com/example/feishupunch/MainActivity.kt:452-458 | a day's name is listed exactly when the day is selected and in the order |
| MainScreen.DayNamesListsSelected | FeishuPunch/app/src/main/kotlin/com/example/feishupunch/MainActivity.kt:452-458 | a day's name appears in the label exactly when the day is selected |
| MainScreen.IntOr | FeishuPunch/app/src/main/kotlin/com/example/feishupunch/MainActivity.kt:979-981 | `toIntOrNull() ?: d`: the parsed value when the text parses, else the fallback |
| MainScreen.LongOr | FeishuPunch/app/src/main/kotlin/com/example/feishupunch/MainActivity.kt:1037 | `toLongOrNull() ?: d`: the parsed value when the text parses, else the fallback |
| MainScreen.ConfiguredStep | FeishuPunch/app/src/main/kotlin/com/example/feishupunch/MainActivity.kt:907-1223 | a built step has the chosen type and id and in-range fields; no step is built exactly for CLICK_TEXT with blank text |
| MainScreen.NoConfigTypes | FeishuPunch/app/src/main/kotlin/com/example/feishupunch/MainActivity.kt:909-913 | OPEN_APP, BACK, HOME, RECENT_APPS and NOTIFICATIONS are built with every field at its default |
| MainScreen.ClickTextKept | FeishuPunch/app/src/main/kotlin/com/example/feishupunch/MainActivity.kt:1006-1011 | non-blank CLICK_TEXT input is kept as typed |
| MainScreen.UnparsableFallsBack | FeishuPunch/app/src/main/kotlin/com/example/feishupunch/MainActivity.kt:938-1223 | an unparsable coordinate becomes 0, a delay 1000, a long-press duration 500, a swipe duration 300 |
| MainScreen.IntRoundTrip | FeishuPunch/app/src/main/kotlin/com/example/feishupunch/MainActivity.kt:947-981 | a pre-filled coordinate parses back to itself |
| MainScreen.LongRoundTrip | FeishuPunch/app/src/main/kotlin/com/example/feishupunch/MainActivity.kt:1024-1037 | a pre-filled delay or duration parses back to itself |
| MainScreen.EditUnchangedRebuildsStep | FeishuPunch/app/src/main/kotlin/com/example/feishupunch/MainActivity.kt:884-902 | confirming an edit dialog unchanged rebuilds the step with the same description but a fresh id |
| MainScreen.PrefillLiteralsParse | FeishuPunch/app/src/main/kotlin/com/example/feishupunch/MainActivity.kt:1020-1182 | the new-dialog texts 1000, 500 and 300 parse to those numbers |
| MainScreen.NewDialogDefaults | FeishuPunch/app/src/main/kotlin/com/example/feishupunch/MainActivity.kt:938-1223 | confirming a new dialog untouched gives coordinates 0, delay 1000 and duration 500 (long press) or 300 |
| MainScreen.NewClickTextNeedsText | FeishuPunch/app/src/main/kotlin/com/example/feishupunch/MainActivity.kt:990-1015 | an untouched new CLICK_TEXT dialog builds no step |
| MainScreen.RemoveAt | FeishuPunch/app/src/main/kotlin/com/example/feishupunch/MainActivity.kt:841 | removing index i drops exactly that step and keeps the order of the others |
| MainScreen.AddThenDelete | FeishuPunch/app/src/main/kotlin/com/example/feishupunch/MainActivity.kt:836-879 | deleting the step just appended restores the list |
| MainScreen.FlowEditor.constructor | FeishuPunch/app/src/main/kotlin/com/example/feishupunch/MainActivity.kt:813-816 | the editor starts on the loaded flow with nothing saved |
| MainScreen.FlowEditor.DeleteStep | FeishuPunch/app/src/main/kotlin/com/example/feishupunch/MainActivity.kt:836-846 | removes index i in place and saves the flow |
| MainScreen.FlowEditor.AddStep | FeishuPunch/app/src/main/kotlin/com/example/feishupunch/MainActivity.kt:863-879 | appends at the end and saves the flow |
| MainScreen.FlowEditor.ReplaceStep | FeishuPunch/app/src/main/kotlin/com/example/feishupunch/MainActivity.kt:884-902 | replaces only index i and saves the flow |
| MainScreen.FlowEditor.ConfirmNewStep | FeishuPunch/app/src/main/kotlin/com/example/feishupunch/MainActivity.kt:863-879 | a built step is appended and saved; blank CLICK_TEXT changes nothing |
| MainScreen.FlowEditor.ConfirmEditedStep | FeishuPunch/app/src/main/kotlin/com/example/feishupunch/MainActivity.kt:884-902 | a built step replaces only index i and is saved; blank CLICK_TEXT changes nothing |
| MainScreen.SavedFlowReadsBack | FeishuPunch/app/src/main/kotlin/com/example/feishupunch/MainActivity.kt:841-895 | the flow saved after an edit reads back as the edited flow |
| MainScreen.LessAsymmetric | FeishuPunch/app/src/main/kotlin/com/example/feishupunch/MainActivity.kt:354 | name order is a strict order: no two names precede each other |
| MainScreen.InsertByName | FeishuPunch/app/src/main/kotlin/com/example/feishupunch/MainActivity.kt:354 | inserting into a sorted list keeps it sorted and adds exactly that app |
| MainScreen.SortByName | FeishuPunch/app/src/main/kotlin/com/example/feishupunch/MainActivity.kt:354 | the result is sorted by name and is a permutation of the input |
| MainScreen.GetInstalledApps | FeishuPunch/app/src/main/kotlin/com/example/feishupunch/MainActivity.kt:324-354 | the filter loop followed by the sort computes the sorted offered apps |
| MainScreen.OfferedAppsMembers | FeishuPunch/app/src/main/kotlin/com/example/feishupunch/MainActivity.kt:336-350 | an app is offered exactly when some installed package passes the filter and yields it |
| MainScreen.InstalledAppsSpec | FeishuPunch/app/src/main/kotlin/com/example/feishupunch/MainActivity.kt:324-354 | the list is sorted by name, a permutation of the offered apps, and holds an app exactly when a package passing the filter yields it |
| MainScreen.SystemAppRule | FeishuPunch/app/src/main/kotlin/com/example/feishupunch/MainActivity.kt:338-342 | a system app that was not updated is hidden; an updated system app is offered |
| MainScreen.AutoEnableDecision | FeishuPunch/app/src/main/kotlin/com/example/feishupunch/MainActivity.kt:475-491 | the switch moves exactly when the user never toggled it, the schedule is off and accessibility is on; it then records a toggle and enables the schedule when exact alarms are allowed |
| MainScreen.AutoEnableAtMostOnce | FeishuPunch/app/src/main/kotlin/com/example/feishupunch/MainActivity.kt:170-184 | once the switch has turned itself on, later automatic checks change nothing |
| PunchService.PunchAccessibilityService.constructor | FeishuPunch/app/src/main/kotlin/com/example/feishupunch/service/PunchAccessibilityService.kt:40-56 | a connected service is idle with nothing pending |
| PunchService.PunchAccessibilityService.PostDelayed | FeishuPunch/app/src/main/kotlin/com/example/feishupunch/service/PunchAccessibilityService.kt:107-117 | `postDelayed` appends one pending task |
| PunchService.PunchAccessibilityService.StartPunchProcess | FeishuPunch/app/src/main/kotlin/com/example/feishupunch/service/PunchAccessibilityService.kt:75-118 | updates the fields as `Start` does (see `StartRejectsInOrder`) and keeps the invariant |
| PunchService.PunchAccessibilityService.ExecuteCurrentStep | FeishuPunch/app/src/main/kotlin/com/example/feishupunch/service/PunchAccessibilityService.kt:123-147 | updates the fields as `Execute` does |
| PunchService.PunchAccessibilityService.ExecuteOpenApp | FeishuPunch/app/src/main/kotlin/com/example/feishupunch/service/PunchAccessibilityService.kt:152-174 | with a launch intent the next step is due after 3000 ms, otherwise `retryOrFail` |
| PunchService.PunchAccessibilityService.ExecuteClickXY | FeishuPunch/app/src/main/kotlin/com/example/feishupunch/service/PunchAccessibilityService.kt:179-190 | posts the 500 ms check of the tap's result |
| PunchService.PunchAccessibilityService.ClickNodeOf | FeishuPunch/app/src/main/kotlin/com/example/feishupunch/service/PunchAccessibilityService.kt:422-445 | the parent-chain loop returns the `clickNode` result |
| PunchService.PunchAccessibilityService.ExecuteClickText | FeishuPunch/app/src/main/kotlin/com/example/feishupunch/service/PunchAccessibilityService.kt:195-218 | an accepted match posts the next step after 1000 ms; otherwise the retry after 500 ms |
| PunchService.PunchAccessibilityService.ExecuteGesture | FeishuPunch/app/src/main/kotlin/com/example/feishupunch/service/PunchAccessibilityService.kt:273-367 | without gesture support `retryOrFail`; otherwise the gesture callback's effect |
| PunchService.PunchAccessibilityService.GestureCallback | FeishuPunch/app/src/main/kotlin/com/example/feishupunch/service/PunchAccessibilityService.kt:273-367 | completion posts the follow-up after 300 ms (80 ms to the second tap); cancellation calls `retryOrFail`; a dropped gesture posts nothing |
| PunchService.PunchAccessibilityService.ExecuteDelay | FeishuPunch/app/src/main/kotlin/com/example/feishupunch/service/PunchAccessibilityService.kt:223-228 | the next step is due after exactly the step's delay |
| PunchService.PunchAccessibilityService.ExecuteGlobalAction | FeishuPunch/app/src/main/kotlin/com/example/feishupunch/service/PunchAccessibilityService.kt:233-268 | the next step is due after 500 ms whatever the action returned |
| PunchService.PunchAccessibilityService.MoveToNextStep | FeishuPunch/app/src/main/kotlin/com/example/feishupunch/service/PunchAccessibilityService.kt:372-376 | updates the fields as `MoveToNext` does (see `MoveToNextAdvances`) |
| PunchService.PunchAccessibilityService.RetryOrFail | FeishuPunch/app/src/main/kotlin/com/example/feishupunch/service/PunchAccessibilityService.kt:381-393 | updates the fields as `RetryOrFail` does (see `FailingStepSkippedAfterThreeTries`) |
| PunchService.PunchAccessibilityService.FinishPunch | FeishuPunch/app/src/main/kotlin/com/example/feishupunch/service/PunchAccessibilityService.kt:655-680 | updates the fields as `Finish` does |
| PunchService.PunchAccessibilityService.Fire | FeishuPunch/app/src/main/kotlin/com/example/feishupunch/service/PunchAccessibilityService.kt:107-117 | running any pending task keeps the invariant (see `FireKeepsInv`) |
| PunchService.PunchAccessibilityService.CloseApp | FeishuPunch/app/src/main/kotlin/com/example/feishupunch/service/PunchAccessibilityService.kt:540-584 | when gestures are supported, posts the recents task (which, when it runs, posts the clear-all task); otherwise changes nothing; keeps the invariant |
| PunchService.PunchAccessibilityService.ClearAllTask | FeishuPunch/app/src/main/kotlin/com/example/feishupunch/service/PunchAccessibilityService.kt:554-582 | with a window, picks the first clickable node of the first label that has one, else swipes the card away |
| PunchService.PunchAccessibilityService.SwipeUpToClose | FeishuPunch/app/src/main/kotlin/com/example/feishupunch/service/PunchAccessibilityService.kt:589-617 | a completed swipe posts a press of HOME after 500 ms; otherwise nothing |

Three behaviours of the code that the model keeps:
- A gesture the platform rejects without calling back is not retried. Only a
  cancelled gesture is retried. A rejected one leaves the run waiting for the
  120 s watchdog (`EngineProperties.DroppedGestureStalls`;
  FeishuPunch/app/src/main/kotlin/com/example/feishupunch/service/PunchAccessibilityService.kt:284-291).
- A single non-object entry in the steps array voids the whole flow, because
  `getJSONObject` throws. Only objects with a missing or unknown type are
  skipped one by one (FeishuPunch/app/src/main/kotlin/com/example/feishupunch/model/FlowStep.kt:128-139).
- A missing or empty flow ends the run with 未配置执行流程
  (FeishuPunch/app/src/main/kotlin/com/example/feishupunch/service/PunchAccessibilityService.kt:75-95).

## Left out

- Elapsed time. The looper is a queue whose entries may fire in any order,
  and each entry carries its delay, but no clock orders them.
- Calendar and time zone. `getNextAlarmTime` uses a fixed 24-hour day counted
  in milliseconds from the epoch, with no time zone and no daylight-saving
  change. The current time is a parameter, and so is the `currentTimeMillis`
  used as an id.
- `Random.nextInt`. It is the nondeterministic choice in `GetRandomTime`,
  constrained to its range.
- Alarms.AlarmHelper.SetMorningAlarm: states only that the chosen time lies
  in the window, since which time is chosen is random.
- The Android API. `AlarmManager`, `PendingIntent`, broadcasts, Toasts,
  notifications, wake locks, `WakeUpActivity`, `AlarmReceiver` and
  `BootReceiver` are all left out. A report stands for the result broadcast,
  and a `ShowToast` task stands for the toast.
- Gesture geometry and timing. Strokes, their durations and
  `Path` coordinates are not modelled. A gesture's outcome comes from the
  oracle, and its callback is delivered inside the handler that dispatched
  it. In the app the callback comes later, and `removeCallbacksAndMessages`
  in `finishPunch` cannot cancel it. A callback that arrives after the run
  ended is therefore not modelled. For example, a long press dispatched
  near the watchdog could complete after the watchdog ended the run. That
  would leave `currentStepIndex` at 1 while idle, or, for a cancellation,
  post another step task. The model's invariant `Inv` excludes such
  states.
- Float screen geometry:
  - `scrollDown`, `swipeUpToUnlock` and `doubleTapToWake`;
  - the screen fractions in `swipeUpToClose`;
  - the drag offset of the floating ball;
  - the `rawX.toInt()` conversion. Touch coordinates are given as integers.
- FlowEngine.ClickNodeRule: the bounds centre is computed on unbounded
  integers. Int overflow of `left + right` is not modelled.
- `wakeUpScreen` and `goHome`. They are I/O with no effect on the executor's
  state, and appear only as pending tasks.
- The overlay-permission check of `startCoordinateCapture` and
  `startSwipeCapture`. Without the permission they return before assigning
  a callback, so the model's callback and command events are those made
  after a granted check.
- PunchService.PunchAccessibilityService.CloseApp: the immediate
  `performGlobalAction(GLOBAL_ACTION_HOME)` at the start of `closeApp`
  (PunchAccessibilityService.kt:545) is not modelled. It is a global action
  with no effect on the executor's state, and the contract states only the
  posted recents task. The package name `closeApp` receives is unused there
  and is not a parameter.
- `findAccessibilityNodeInfosByText`. Its matching is the platform's, and the
  oracle supplies the matches.
- An exception thrown while launching the target app. It is folded into the
  oracle's `launchable`.
- Collaborators whose results are parameters:
  - `prefs.getFlow`, `getTargetPackage`, `getSelectedDays`, `saveFlow`,
    `hasUserToggled` and `isAccessibilityServiceEnabled`;
  - `canScheduleExactAlarms`.
- The public static `isPunching` and the `instance` singletons. Everything
  runs on one looper, so cross-thread access is not modelled.
- org.json details. JSON numbers in the model are integer literals. A
  fraction or exponent is not a value of the model, and neither is an
  explicit JSON null. An integer literal beyond the `Long` range is held as a
  `Double`; the model keeps only what `optInt`/`optLong` then give, the
  saturated bound (`Decimal.JsonInt`, `Decimal.JsonLong`). A numeric string
  under a number field reads as the fallback, where `optInt`/`optLong` would
  convert it.
- Decimal.Pad2 and Alarms.FormatTime: `String.format` uses the default
  locale, which may write other digits than '0'..'9' (Arabic-Indic digits,
  for example). The model always writes ASCII digits. In `formatTime` the
  text only feeds log lines.
- FlowModel.OptString: an array or object value reads as the fallback,
  where org.json's `optString` renders it as JSON text. For example,
  `{"type":"CLICK_TEXT","text":["A"]}` gives the text "" here and `["A"]` in
  the app. The model has no rendering of JSON values.
- `toIntOrNull` on non-ASCII digits. Only '0'..'9' are digits here.
- MainScreen.SortByName: compares names by code point, not by UTF-16 unit.
  The two orders agree outside the supplementary planes. Stability of
  `sortBy` is not stated as a lemma.
- `getInstalledApps` details. Icons and package-manager exceptions are not
  modelled.
- `enableSchedule`. The permission dialog's answer, `updateAlarms`, the
  foreground service and the status text are left out. Only the stored flag
  is modelled.
- Layout text. The floating ball's initial label and the main screen's
  coordinate text view come from layout files and are not modelled.
- Dialog views. Views, spinners and the edit dialog's type change are not
  modelled. A dialog is modelled by its text fields (`StepForm`) and its
  pre-fill (`Prefill`).
