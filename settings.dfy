/**
 * The app's persisted settings: a key-value preferences store in which every
 * getter falls back to a per-key default when its key is absent.
 */
module SettingsStore {

  import opened Wrappers
  import opened JavaInt

  /** The keys of the preferences file. */
  datatype Key = EnabledKey | OffsetKey | LastAlarmTimeKey | NextAlarmTitleKey | NextAlarmTimeKey

  /** The typed values a preferences file holds (`long` values are unbounded here). */
  datatype Value = BoolValue(b: bool) | IntValue(i: int) | LongValue(l: int) | StringValue(s: string)

  const ENABLED_DEFAULT: bool := false
  const OFFSET_DEFAULT: int := 90
  const LAST_ALARM_TIME_DEFAULT: int := 0
  const NEXT_ALARM_TIME_DEFAULT: int := 0

  /** Largest offset, in minutes, whose conversion to milliseconds fits in a Java `int`. */
  const MAX_EXACT_OFFSET: int := 35791

  /** Every key holds a value of the type its getter reads (otherwise the getter would throw). */
  ghost predicate WellTyped(prefs: map<Key, Value>) {
    && (EnabledKey in prefs ==> prefs[EnabledKey].BoolValue?)
    && (OffsetKey in prefs ==> prefs[OffsetKey].IntValue? && IsInt(prefs[OffsetKey].i))
    && (LastAlarmTimeKey in prefs ==> prefs[LastAlarmTimeKey].LongValue?)
    && (NextAlarmTitleKey in prefs ==> prefs[NextAlarmTitleKey].StringValue?)
    && (NextAlarmTimeKey in prefs ==> prefs[NextAlarmTimeKey].LongValue?)
  }

  /**
   * `minutes * 60 * 1000` evaluated in Java `int` arithmetic: it is the exact
   * number of milliseconds exactly when the offset is at most 35791 minutes either way.
   */
  function MinutesToMillis(minutes: int): (millis: int)
    requires IsInt(minutes)
    ensures IsInt(millis)
    ensures millis == minutes * 60000 <==> -MAX_EXACT_OFFSET <= minutes <= MAX_EXACT_OFFSET
  {
    Mul(Mul(minutes, 60), 1000)
  }

  /** One minute past the bound, the product wraps around to a negative offset. */
  lemma MillisOverflow()
    ensures MinutesToMillis(MAX_EXACT_OFFSET + 1) == MAX_EXACT_OFFSET * 60000 + 60000 - 0x1_0000_0000
    ensures MinutesToMillis(MAX_EXACT_OFFSET + 1) < 0
  {
    assert Mul(MAX_EXACT_OFFSET + 1, 60) == 2147520;
  }

  class Settings {

    var prefs: map<Key, Value>

    ghost predicate Valid()
      reads this
    {
      WellTyped(prefs)
    }

    /** Opens the preferences file as it is currently stored. */
    constructor (stored: map<Key, Value>)
      requires WellTyped(stored)
      ensures Valid() && prefs == stored
    {
      prefs := stored;
    }

    /** The title and the time of the next alarm are both stored or both absent. */
    ghost predicate PairConsistent()
      reads this
    {
      NextAlarmTitleKey in prefs <==> NextAlarmTimeKey in prefs
    }

    function IsEnabled(): (enabled: bool)
      reads this
      requires Valid()
      ensures EnabledKey !in prefs ==> enabled == ENABLED_DEFAULT
      ensures EnabledKey in prefs ==> prefs[EnabledKey] == BoolValue(enabled)
    {
      if EnabledKey in prefs then prefs[EnabledKey].b else ENABLED_DEFAULT
    }

    method SetEnabled(enabled: bool)
      requires Valid()
      modifies this
      ensures Valid() && prefs == old(prefs)[EnabledKey := BoolValue(enabled)]
      ensures IsEnabled() == enabled
    {
      prefs := prefs[EnabledKey := BoolValue(enabled)];
    }

    function OffsetInMinutes(): (minutes: int)
      reads this
      requires Valid()
      ensures IsInt(minutes)
      ensures OffsetKey !in prefs ==> minutes == OFFSET_DEFAULT
      ensures OffsetKey in prefs ==> prefs[OffsetKey] == IntValue(minutes)
    {
      if OffsetKey in prefs then prefs[OffsetKey].i else OFFSET_DEFAULT
    }

    /** The offset in milliseconds, computed in Java `int` arithmetic from the offset in minutes. */
    function OffsetInMillis(): (millis: int)
      reads this
      requires Valid()
      ensures 0 <= OffsetInMinutes() <= MAX_EXACT_OFFSET ==> millis == OffsetInMinutes() * 60000
    {
      MinutesToMillis(OffsetInMinutes())
    }

    method SetOffsetInMinutes(minutes: int)
      requires Valid() && IsInt(minutes)
      modifies this
      ensures Valid() && prefs == old(prefs)[OffsetKey := IntValue(minutes)]
      ensures OffsetInMinutes() == minutes
    {
      prefs := prefs[OffsetKey := IntValue(minutes)];
    }

    function LastAlarmTime(): (time: int)
      reads this
      requires Valid()
      ensures LastAlarmTimeKey !in prefs ==> time == LAST_ALARM_TIME_DEFAULT
      ensures LastAlarmTimeKey in prefs ==> prefs[LastAlarmTimeKey] == LongValue(time)
    {
      if LastAlarmTimeKey in prefs then prefs[LastAlarmTimeKey].l else LAST_ALARM_TIME_DEFAULT
    }

    method SetLastAlarmTime(time: int)
      requires Valid()
      modifies this
      ensures Valid() && prefs == old(prefs)[LastAlarmTimeKey := LongValue(time)]
      ensures LastAlarmTime() == time
    {
      prefs := prefs[LastAlarmTimeKey := LongValue(time)];
    }

    /** The title of the next alarm's event, `None` standing for Java's `null` default. */
    function NextAlarmTitle(): (title: Option<string>)
      reads this
      requires Valid()
      ensures NextAlarmTitleKey !in prefs ==> title == None
      ensures NextAlarmTitleKey in prefs ==> title.Some? && prefs[NextAlarmTitleKey] == StringValue(title.value)
    {
      if NextAlarmTitleKey in prefs then Some(prefs[NextAlarmTitleKey].s) else None
    }

    method SetNextAlarmTitle(title: string)
      requires Valid()
      modifies this
      ensures Valid() && prefs == old(prefs)[NextAlarmTitleKey := StringValue(title)]
      ensures NextAlarmTitle() == Some(title)
    {
      prefs := prefs[NextAlarmTitleKey := StringValue(title)];
    }

    function NextAlarmTime(): (time: int)
      reads this
      requires Valid()
      ensures NextAlarmTimeKey !in prefs ==> time == NEXT_ALARM_TIME_DEFAULT
      ensures NextAlarmTimeKey in prefs ==> prefs[NextAlarmTimeKey] == LongValue(time)
    {
      if NextAlarmTimeKey in prefs then prefs[NextAlarmTimeKey].l else NEXT_ALARM_TIME_DEFAULT
    }

    method SetNextAlarmTime(time: int)
      requires Valid()
      modifies this
      ensures Valid() && prefs == old(prefs)[NextAlarmTimeKey := LongValue(time)]
      ensures NextAlarmTime() == time
    {
      prefs := prefs[NextAlarmTimeKey := LongValue(time)];
    }

    /** Removes the next alarm's title and time together; every other key keeps its value. */
    method ClearNextAlarm()
      requires Valid()
      modifies this
      ensures Valid() && prefs == old(prefs) - {NextAlarmTitleKey, NextAlarmTimeKey}
      ensures PairConsistent() && NextAlarmTitle() == None && NextAlarmTime() == NEXT_ALARM_TIME_DEFAULT
      ensures IsEnabled() == old(IsEnabled()) && OffsetInMinutes() == old(OffsetInMinutes())
      ensures LastAlarmTime() == old(LastAlarmTime())
    {
      prefs := prefs - {NextAlarmTitleKey, NextAlarmTimeKey};
    }
  }

}
