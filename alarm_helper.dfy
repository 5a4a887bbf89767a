/**
 * Alarm-time arithmetic and the alarm registry: the random minute inside
 * a window, the next occurrence of a time of day, `HH:MM` formatting, and
 * the (action, request code) pairs under which the setters register alarms
 * and `cancelAllAlarms` cancels them.
 *
 * Time is milliseconds since a local midnight-aligned epoch with days of a
 * fixed length; time zones and daylight-saving changes are not modelled.
 */
module Alarms {
  import opened Decimal

  const ACTION_MORNING_PUNCH: string := "com.example.feishupunch.MORNING_PUNCH"
  const ACTION_EVENING_PUNCH: string := "com.example.feishupunch.EVENING_PUNCH"
  const ACTION_CLOSE_FEISHU: string := "com.example.feishupunch.CLOSE_FEISHU"

  const MORNING_REQUEST_CODE: int := 1001
  const EVENING_REQUEST_CODE: int := 1002
  const CLOSE_APP_REQUEST_CODE: int := 1003
  const CLOSE_APP_EVENING_REQUEST_CODE: int := 1004

  const SECOND_MS: int := 1000
  const MINUTE_MS: int := 60 * SECOND_MS
  const HOUR_MS: int := 60 * MINUTE_MS
  const DAY_MS: int := 24 * HOUR_MS

  function Minutes(hour: int, minute: int): int { hour * 60 + minute }

  /** Kotlin's `/` and `%` on `Int`: the quotient is truncated toward zero. */
  function TruncDiv(a: int, b: int): int
    requires b > 0
  {
    if a >= 0 then a / b else -((-a) / b)
  }

  function TruncRem(a: int, b: int): (r: int)
    requires b > 0
    ensures TruncDiv(a, b) * b + r == a
    ensures a >= 0 ==> 0 <= r < b
  {
    if a >= 0 then a % b else -((-a) % b)
  }

  /**
   * `getRandomTime`: a window whose end is not after its start yields its
   * start; otherwise a minute r with start <= r <= end (both inclusive),
   * chosen freely, returned as (r / 60, r % 60).
   */
  method GetRandomTime(startHour: int, startMinute: int, endHour: int, endMinute: int)
    returns (hour: int, minute: int)
    ensures Minutes(endHour, endMinute) <= Minutes(startHour, startMinute) ==>
      hour == startHour && minute == startMinute
    ensures Minutes(endHour, endMinute) > Minutes(startHour, startMinute) ==>
      Minutes(startHour, startMinute) <= Minutes(hour, minute) <= Minutes(endHour, endMinute)
    ensures (Minutes(endHour, endMinute) > Minutes(startHour, startMinute)
             && Minutes(startHour, startMinute) >= 0) ==> 0 <= minute < 60
  {
    var startMinutes := Minutes(startHour, startMinute);
    var endMinutes := Minutes(endHour, endMinute);
    if endMinutes <= startMinutes {
      return startHour, startMinute;
    }
    // Random.nextInt(startMinutes, endMinutes + 1)
    var r :| startMinutes <= r <= endMinutes;
    hour, minute := TruncDiv(r, 60), TruncRem(r, 60);
  }

  /** The instant today's `hour:minute:00.000` denotes (fields roll over leniently). */
  function TodayAt(hour: int, minute: int, now: nat): int {
    now - now % DAY_MS + hour * HOUR_MS + minute * MINUTE_MS
  }

  /** `getNextAlarmTime`: today at `hour:minute`, or tomorrow if that is not after `now`. */
  function NextAlarmAt(hour: int, minute: int, now: nat): int {
    var alarm := TodayAt(hour, minute, now);
    if alarm <= now then alarm + DAY_MS else alarm
  }

  /**
   * For a time of day inside the day, the alarm is the first instant after
   * `now` at that time of day: strictly in the future, at most a day away,
   * and at the requested offset from midnight.
   */
  lemma NextAlarmIsFirstOccurrence(hour: int, minute: int, now: nat)
    requires 0 <= Minutes(hour, minute) < 24 * 60
    ensures var t := NextAlarmAt(hour, minute, now);
      && now < t <= now + DAY_MS
      && t % DAY_MS == Minutes(hour, minute) * MINUTE_MS
      && t - DAY_MS <= now
  {
    var base := now - now % DAY_MS;
    var off := Minutes(hour, minute) * MINUTE_MS;
    assert base % DAY_MS == 0 by {
      assert base == (now / DAY_MS) * DAY_MS;
    }
    assert TodayAt(hour, minute, now) == base + off;
    assert 0 <= off < DAY_MS;
    var t := NextAlarmAt(hour, minute, now);
    if base + off <= now {
      assert t == base + DAY_MS + off;
      assert (base + DAY_MS + off) % DAY_MS == off by {
        assert base + DAY_MS == (now / DAY_MS + 1) * DAY_MS;
      }
    } else {
      assert (base + off) % DAY_MS == off by {
        assert base == (now / DAY_MS) * DAY_MS;
      }
    }
  }

  /**
   * `getNextAlarmTime` as the source writes it: a calendar set to `now`,
   * then its hour, minute, second and millisecond fields overwritten one by
   * one, then moved a day ahead if not after `now`.
   */
  method GetNextAlarmTime(hour: int, minute: int, now: nat) returns (alarm: int)
    ensures alarm == NextAlarmAt(hour, minute, now)
  {
    var msOfDay := now % DAY_MS;
    var inHour := msOfDay % HOUR_MS;
    var inMinute := inHour % MINUTE_MS;
    var h0, m0 := msOfDay / HOUR_MS, inHour / MINUTE_MS;
    var s0, ms0 := inMinute / SECOND_MS, inMinute % SECOND_MS;
    assert msOfDay == h0 * HOUR_MS + inHour;
    assert inHour == m0 * MINUTE_MS + inMinute;
    assert inMinute == s0 * SECOND_MS + ms0;
    alarm := now;
    alarm := alarm - h0 * HOUR_MS + hour * HOUR_MS;        // set(HOUR_OF_DAY, hour)
    alarm := alarm - m0 * MINUTE_MS + minute * MINUTE_MS;  // set(MINUTE, minute)
    alarm := alarm - s0 * SECOND_MS;                       // set(SECOND, 0)
    alarm := alarm - ms0;                                  // set(MILLISECOND, 0)
    if alarm <= now {
      alarm := alarm + DAY_MS;                             // add(DAY_OF_MONTH, 1)
    }
  }

  /** `formatTime`: `%02d:%02d`. */
  function FormatTime(hour: int, minute: int): (s: string)
    ensures 0 <= hour < 100 && 0 <= minute < 100 ==>
      |s| == 5 && s[2] == ':' && AllDigits(s[..2]) && AllDigits(s[3..])
      && DigitsValue(s[..2]) == hour && DigitsValue(s[3..]) == minute
  {
    var s := Pad2(hour) + ":" + Pad2(minute);
    assert 0 <= hour < 100 && 0 <= minute < 100 ==> s[..2] == Pad2(hour) && s[3..] == Pad2(minute);
    s
  }

  /** A pending alarm is identified by its intent action and request code. */
  datatype AlarmKey = AlarmKey(action: string, requestCode: int)

  const MORNING_KEY: AlarmKey := AlarmKey(ACTION_MORNING_PUNCH, MORNING_REQUEST_CODE)
  const EVENING_KEY: AlarmKey := AlarmKey(ACTION_EVENING_PUNCH, EVENING_REQUEST_CODE)
  const CLOSE_KEY: AlarmKey := AlarmKey(ACTION_CLOSE_FEISHU, CLOSE_APP_REQUEST_CODE)
  const CLOSE_EVENING_KEY: AlarmKey := AlarmKey(ACTION_CLOSE_FEISHU, CLOSE_APP_EVENING_REQUEST_CODE)

  /** The pairs the four setters register under. */
  const SETTER_KEYS: set<AlarmKey> := {MORNING_KEY, EVENING_KEY, CLOSE_KEY, CLOSE_EVENING_KEY}

  /** The four pairs are pairwise distinct, so no setter overwrites another's alarm. */
  lemma SetterKeysDistinct()
    ensures |SETTER_KEYS| == 4
  {
    assert MORNING_KEY != EVENING_KEY && CLOSE_KEY != CLOSE_EVENING_KEY;
    assert ACTION_MORNING_PUNCH[25] != ACTION_EVENING_PUNCH[25];
    assert ACTION_MORNING_PUNCH[25] != ACTION_CLOSE_FEISHU[25];
    assert ACTION_EVENING_PUNCH[25] != ACTION_CLOSE_FEISHU[25];
  }

  /** A time of day some window alarm may be set for. */
  predicate InWindow(hour: int, minute: int, startHour: int, startMinute: int, endHour: int, endMinute: int) {
    if Minutes(endHour, endMinute) <= Minutes(startHour, startMinute)
    then hour == startHour && minute == startMinute
    else Minutes(startHour, startMinute) <= Minutes(hour, minute) <= Minutes(endHour, endMinute)
  }

  /** The alarm registry: which pending alarms exist and when each fires. */
  class AlarmHelper {
    var alarms: map<AlarmKey, int>

    constructor ()
      ensures alarms == map[]
    {
      alarms := map[];
    }

    /** `setAlarm`: registering under an existing key replaces that alarm. */
    method SetAlarm(triggerTime: int, key: AlarmKey)
      modifies this
      ensures alarms == old(alarms)[key := triggerTime]
    {
      alarms := alarms[key := triggerTime];
    }

    /** `cancelAlarm`: removes the alarm registered under `key`, if any. */
    method CancelAlarm(key: AlarmKey)
      modifies this
      ensures alarms == old(alarms) - {key}
    {
      alarms := alarms - {key};
    }

    /** `setMorningAlarm(start.., end..)`: one alarm at a random minute of the window. */
    method SetMorningAlarm(startHour: int, startMinute: int, endHour: int, endMinute: int, now: nat)
      modifies this
      ensures alarms.Keys == old(alarms).Keys + {MORNING_KEY}
      ensures forall k :: k in old(alarms) && k != MORNING_KEY ==> alarms[k] == old(alarms)[k]
      ensures exists h, m ::
                InWindow(h, m, startHour, startMinute, endHour, endMinute)
                && alarms[MORNING_KEY] == NextAlarmAt(h, m, now)
    {
      var hour, minute := GetRandomTime(startHour, startMinute, endHour, endMinute);
      var time := GetNextAlarmTime(hour, minute, now);
      SetAlarm(time, MORNING_KEY);
    }

    /** `setEveningAlarm(start.., end..)`. */
    method SetEveningAlarm(startHour: int, startMinute: int, endHour: int, endMinute: int, now: nat)
      modifies this
      ensures alarms.Keys == old(alarms).Keys + {EVENING_KEY}
      ensures forall k :: k in old(alarms) && k != EVENING_KEY ==> alarms[k] == old(alarms)[k]
      ensures exists h, m ::
                InWindow(h, m, startHour, startMinute, endHour, endMinute)
                && alarms[EVENING_KEY] == NextAlarmAt(h, m, now)
    {
      var hour, minute := GetRandomTime(startHour, startMinute, endHour, endMinute);
      var time := GetNextAlarmTime(hour, minute, now);
      SetAlarm(time, EVENING_KEY);
    }

    /** The single-time `setMorningAlarm(h, m)`: a zero-width window, so exactly h:m. */
    method SetMorningAlarmAt(hour: int, minute: int, now: nat)
      modifies this
      ensures alarms == old(alarms)[MORNING_KEY := NextAlarmAt(hour, minute, now)]
    {
      SetMorningAlarm(hour, minute, hour, minute, now);
    }

    /** The single-time `setEveningAlarm(h, m)`. */
    method SetEveningAlarmAt(hour: int, minute: int, now: nat)
      modifies this
      ensures alarms == old(alarms)[EVENING_KEY := NextAlarmAt(hour, minute, now)]
    {
      SetEveningAlarm(hour, minute, hour, minute, now);
    }

    /**
     * `setCloseAppAlarm`.  Its default arguments are 23:00; the time is a
     * parameter here because callers pass it.
     */
    method SetCloseAppAlarm(hour: int, minute: int, now: nat)
      modifies this
      ensures alarms == old(alarms)[CLOSE_KEY := NextAlarmAt(hour, minute, now)]
    {
      var time := GetNextAlarmTime(hour, minute, now);
      SetAlarm(time, CLOSE_KEY);
    }

    /**
     * `setCloseAppEveningAlarm`.  Its default arguments are 18:20; the time
     * is a parameter here because callers pass it.
     */
    method SetCloseAppEveningAlarm(hour: int, minute: int, now: nat)
      modifies this
      ensures alarms == old(alarms)[CLOSE_EVENING_KEY := NextAlarmAt(hour, minute, now)]
    {
      var time := GetNextAlarmTime(hour, minute, now);
      SetAlarm(time, CLOSE_EVENING_KEY);
    }

    /**
     * `cancelAllAlarms`: cancels exactly the four pairs the setters use, so
     * a registry holding only the setters' alarms ends up empty.
     */
    method CancelAllAlarms()
      modifies this
      ensures alarms == old(alarms) - SETTER_KEYS
      ensures old(alarms).Keys <= SETTER_KEYS ==> alarms == map[]
    {
      CancelAlarm(AlarmKey(ACTION_MORNING_PUNCH, MORNING_REQUEST_CODE));
      CancelAlarm(AlarmKey(ACTION_EVENING_PUNCH, EVENING_REQUEST_CODE));
      CancelAlarm(AlarmKey(ACTION_CLOSE_FEISHU, CLOSE_APP_REQUEST_CODE));
      CancelAlarm(AlarmKey(ACTION_CLOSE_FEISHU, CLOSE_APP_EVENING_REQUEST_CODE));
    }
  }
}
