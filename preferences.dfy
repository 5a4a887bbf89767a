/**
 * The settings store: a key-value table of `Int` and `Boolean` entries in
 * which every getter falls back to a fixed default when its key was never
 * written, and every setter writes only its own keys.
 */
module Preferences {

  const KEY_SCHEDULE_ENABLED: string := "schedule_enabled"
  const KEY_MORNING_START_HOUR: string := "morning_start_hour"
  const KEY_MORNING_START_MINUTE: string := "morning_start_minute"
  const KEY_MORNING_END_HOUR: string := "morning_end_hour"
  const KEY_MORNING_END_MINUTE: string := "morning_end_minute"
  const KEY_EVENING_START_HOUR: string := "evening_start_hour"
  const KEY_EVENING_START_MINUTE: string := "evening_start_minute"
  const KEY_EVENING_END_HOUR: string := "evening_end_hour"
  const KEY_EVENING_END_MINUTE: string := "evening_end_minute"

  const DEFAULT_MORNING_START_HOUR: int := 8
  const DEFAULT_MORNING_START_MINUTE: int := 50
  const DEFAULT_MORNING_END_HOUR: int := 9
  const DEFAULT_MORNING_END_MINUTE: int := 20
  const DEFAULT_EVENING_START_HOUR: int := 18
  const DEFAULT_EVENING_START_MINUTE: int := 40
  const DEFAULT_EVENING_END_HOUR: int := 19
  const DEFAULT_EVENING_END_MINUTE: int := 10

  /** Minutes since midnight of an hour and minute. */
  function Minutes(hour: int, minute: int): int { hour * 60 + minute }

  /** Both default windows are non-empty: each end lies after its start. */
  lemma DefaultWindowsNonEmpty()
    ensures Minutes(DEFAULT_MORNING_START_HOUR, DEFAULT_MORNING_START_MINUTE)
          < Minutes(DEFAULT_MORNING_END_HOUR, DEFAULT_MORNING_END_MINUTE)
    ensures Minutes(DEFAULT_EVENING_START_HOUR, DEFAULT_EVENING_START_MINUTE)
          < Minutes(DEFAULT_EVENING_END_HOUR, DEFAULT_EVENING_END_MINUTE)
    ensures Minutes(DEFAULT_MORNING_END_HOUR, DEFAULT_MORNING_END_MINUTE)
          < Minutes(DEFAULT_EVENING_START_HOUR, DEFAULT_EVENING_START_MINUTE)
  {
  }

  /** `getInt(key, default)` on a table of integer entries. */
  function IntOr(table: map<string, int>, key: string, default: int): int {
    if key in table then table[key] else default
  }

  class PreferenceHelper {
    /** The integer entries and the boolean entries of the store. */
    var ints: map<string, int>
    var bools: map<string, bool>

    /** Opens the store with whatever entries it already holds. */
    constructor (ints0: map<string, int>, bools0: map<string, bool>)
      ensures ints == ints0 && bools == bools0
    {
      ints := ints0;
      bools := bools0;
    }

    function IsScheduleEnabled(): (r: bool)
      reads this
      ensures KEY_SCHEDULE_ENABLED !in bools ==> !r
      ensures KEY_SCHEDULE_ENABLED in bools ==> r == bools[KEY_SCHEDULE_ENABLED]
    {
      KEY_SCHEDULE_ENABLED in bools && bools[KEY_SCHEDULE_ENABLED]
    }

    method SetScheduleEnabled(enabled: bool)
      modifies this
      ensures bools == old(bools)[KEY_SCHEDULE_ENABLED := enabled] && ints == old(ints)
      ensures IsScheduleEnabled() == enabled
    {
      bools := bools[KEY_SCHEDULE_ENABLED := enabled];
    }

    function MorningStartHour(): (h: int)
      reads this
      ensures KEY_MORNING_START_HOUR !in ints ==> h == DEFAULT_MORNING_START_HOUR
      ensures KEY_MORNING_START_HOUR in ints ==> h == ints[KEY_MORNING_START_HOUR]
    {
      IntOr(ints, KEY_MORNING_START_HOUR, DEFAULT_MORNING_START_HOUR)
    }

    function MorningStartMinute(): (m: int)
      reads this
      ensures KEY_MORNING_START_MINUTE !in ints ==> m == DEFAULT_MORNING_START_MINUTE
      ensures KEY_MORNING_START_MINUTE in ints ==> m == ints[KEY_MORNING_START_MINUTE]
    {
      IntOr(ints, KEY_MORNING_START_MINUTE, DEFAULT_MORNING_START_MINUTE)
    }

    function MorningEndHour(): (h: int)
      reads this
      ensures KEY_MORNING_END_HOUR !in ints ==> h == DEFAULT_MORNING_END_HOUR
      ensures KEY_MORNING_END_HOUR in ints ==> h == ints[KEY_MORNING_END_HOUR]
    {
      IntOr(ints, KEY_MORNING_END_HOUR, DEFAULT_MORNING_END_HOUR)
    }

    function MorningEndMinute(): (m: int)
      reads this
      ensures KEY_MORNING_END_MINUTE !in ints ==> m == DEFAULT_MORNING_END_MINUTE
      ensures KEY_MORNING_END_MINUTE in ints ==> m == ints[KEY_MORNING_END_MINUTE]
    {
      IntOr(ints, KEY_MORNING_END_MINUTE, DEFAULT_MORNING_END_MINUTE)
    }

    function EveningStartHour(): (h: int)
      reads this
      ensures KEY_EVENING_START_HOUR !in ints ==> h == DEFAULT_EVENING_START_HOUR
      ensures KEY_EVENING_START_HOUR in ints ==> h == ints[KEY_EVENING_START_HOUR]
    {
      IntOr(ints, KEY_EVENING_START_HOUR, DEFAULT_EVENING_START_HOUR)
    }

    function EveningStartMinute(): (m: int)
      reads this
      ensures KEY_EVENING_START_MINUTE !in ints ==> m == DEFAULT_EVENING_START_MINUTE
      ensures KEY_EVENING_START_MINUTE in ints ==> m == ints[KEY_EVENING_START_MINUTE]
    {
      IntOr(ints, KEY_EVENING_START_MINUTE, DEFAULT_EVENING_START_MINUTE)
    }

    function EveningEndHour(): (h: int)
      reads this
      ensures KEY_EVENING_END_HOUR !in ints ==> h == DEFAULT_EVENING_END_HOUR
      ensures KEY_EVENING_END_HOUR in ints ==> h == ints[KEY_EVENING_END_HOUR]
    {
      IntOr(ints, KEY_EVENING_END_HOUR, DEFAULT_EVENING_END_HOUR)
    }

    function EveningEndMinute(): (m: int)
      reads this
      ensures KEY_EVENING_END_MINUTE !in ints ==> m == DEFAULT_EVENING_END_MINUTE
      ensures KEY_EVENING_END_MINUTE in ints ==> m == ints[KEY_EVENING_END_MINUTE]
    {
      IntOr(ints, KEY_EVENING_END_MINUTE, DEFAULT_EVENING_END_MINUTE)
    }

    /** Writes the two morning-start keys and nothing else. */
    method SetMorningStartTime(hour: int, minute: int)
      modifies this
      ensures ints == old(ints)[KEY_MORNING_START_HOUR := hour][KEY_MORNING_START_MINUTE := minute]
      ensures bools == old(bools)
      ensures MorningStartHour() == hour && MorningStartMinute() == minute
      ensures MorningEndHour() == old(MorningEndHour()) && MorningEndMinute() == old(MorningEndMinute())
      ensures EveningStartHour() == old(EveningStartHour()) && EveningStartMinute() == old(EveningStartMinute())
      ensures EveningEndHour() == old(EveningEndHour()) && EveningEndMinute() == old(EveningEndMinute())
    {
      ints := ints[KEY_MORNING_START_HOUR := hour][KEY_MORNING_START_MINUTE := minute];
    }

    /** Writes the two morning-end keys and nothing else. */
    method SetMorningEndTime(hour: int, minute: int)
      modifies this
      ensures ints == old(ints)[KEY_MORNING_END_HOUR := hour][KEY_MORNING_END_MINUTE := minute]
      ensures bools == old(bools)
      ensures MorningEndHour() == hour && MorningEndMinute() == minute
      ensures MorningStartHour() == old(MorningStartHour()) && MorningStartMinute() == old(MorningStartMinute())
      ensures EveningStartHour() == old(EveningStartHour()) && EveningStartMinute() == old(EveningStartMinute())
      ensures EveningEndHour() == old(EveningEndHour()) && EveningEndMinute() == old(EveningEndMinute())
    {
      ints := ints[KEY_MORNING_END_HOUR := hour][KEY_MORNING_END_MINUTE := minute];
    }

    /** Writes the two evening-start keys and nothing else. */
    method SetEveningStartTime(hour: int, minute: int)
      modifies this
      ensures ints == old(ints)[KEY_EVENING_START_HOUR := hour][KEY_EVENING_START_MINUTE := minute]
      ensures bools == old(bools)
      ensures EveningStartHour() == hour && EveningStartMinute() == minute
      ensures MorningStartHour() == old(MorningStartHour()) && MorningStartMinute() == old(MorningStartMinute())
      ensures MorningEndHour() == old(MorningEndHour()) && MorningEndMinute() == old(MorningEndMinute())
      ensures EveningEndHour() == old(EveningEndHour()) && EveningEndMinute() == old(EveningEndMinute())
    {
      ints := ints[KEY_EVENING_START_HOUR := hour][KEY_EVENING_START_MINUTE := minute];
    }

    /** Writes the two evening-end keys and nothing else. */
    method SetEveningEndTime(hour: int, minute: int)
      modifies this
      ensures ints == old(ints)[KEY_EVENING_END_HOUR := hour][KEY_EVENING_END_MINUTE := minute]
      ensures bools == old(bools)
      ensures EveningEndHour() == hour && EveningEndMinute() == minute
      ensures MorningStartHour() == old(MorningStartHour()) && MorningStartMinute() == old(MorningStartMinute())
      ensures MorningEndHour() == old(MorningEndHour()) && MorningEndMinute() == old(MorningEndMinute())
      ensures EveningStartHour() == old(EveningStartHour()) && EveningStartMinute() == old(EveningStartMinute())
    {
      ints := ints[KEY_EVENING_END_HOUR := hour][KEY_EVENING_END_MINUTE := minute];
    }

    /** The pre-window getters read the start of each window. */
    function MorningHour(): (h: int)
      reads this
      ensures h == MorningStartHour()
    {
      MorningStartHour()
    }

    function MorningMinute(): (m: int)
      reads this
      ensures m == MorningStartMinute()
    {
      MorningStartMinute()
    }

    function EveningHour(): (h: int)
      reads this
      ensures h == EveningStartHour()
    {
      EveningStartHour()
    }

    function EveningMinute(): (m: int)
      reads this
      ensures m == EveningStartMinute()
    {
      EveningStartMinute()
    }
  }
}
