/**
 * The alarm-decision engine of the alarm service: which calendar event's alarm
 * to arm, and how each service action changes the persisted settings and the
 * platform timers.
 *
 * The calendar is a sequence of events; the clock reading `now` and the
 * time-zone offset `tz` (the offset the local zone reports at the UTC midnight
 * of `now`) are parameters. The two platform timers and the notifications
 * posted are ghost fields of the service.
 */
module AlarmEngine {

  import opened Wrappers
  import opened JavaInt
  import opened SettingsStore

  const MILLIS_IN_ONE_DAY: int := 24 * 60 * 60 * 1000

  /** The period of the repeating event search (one hour). */
  const SEARCH_INTERVAL: int := 60 * 60 * 1000

  /** A calendar event as the calendar provider stores it. */
  datatype Event = Event(title: string, start: int, allDay: bool)

  /** An event chosen for an alarm: its title and its start time. */
  datatype Alarm = Alarm(eventTitle: string, eventTime: int) {

    /** The time the alarm rings: adding the offset back gives the event's start again. */
    function AlarmTime(offset: int): (time: int)
      ensures time + offset == eventTime
    {
      eventTime - offset
    }
  }

  /** The alarm a row of the calendar query describes. */
  function AlarmOf(e: Event): Alarm {
    Alarm(e.title, e.start)
  }

  /** The calendar query's selection: not all-day and starting in `[from, until)`. */
  predicate InWindow(e: Event, from: int, until: int) {
    !e.allDay && from <= e.start < until
  }

  /**
   * The first row of the calendar query sorted by start time: an earliest
   * event of the window, or `None` when no event qualifies.
   */
  function FirstEvent(events: seq<Event>, from: int, until: int): (first: Option<Event>)
    ensures first.Some? ==> first.value in events && InWindow(first.value, from, until)
    ensures first.Some? ==> forall e :: e in events && InWindow(e, from, until) ==> first.value.start <= e.start
    ensures first.None? <==> forall e :: e in events ==> !InWindow(e, from, until)
    decreases |events|
  {
    if events == [] then None
    else
      var rest := FirstEvent(events[1..], from, until);
      if InWindow(events[0], from, until) && (rest.None? || events[0].start <= rest.value.start) then
        Some(events[0])
      else
        rest
  }

  /** `(now / MILLIS_IN_ONE_DAY) * MILLIS_IN_ONE_DAY` with Java's truncating division. */
  function MidnightUtc(now: int): (midnight: int)
    ensures midnight % MILLIS_IN_ONE_DAY == 0
    ensures now >= 0 ==> midnight <= now < midnight + MILLIS_IN_ONE_DAY
    ensures now < 0 ==> midnight - MILLIS_IN_ONE_DAY < now <= midnight
  {
    Div(now, MILLIS_IN_ONE_DAY) * MILLIS_IN_ONE_DAY
  }

  /** The start of the search's first day window. */
  function Today(now: int, tz: int): int {
    MidnightUtc(now) - tz
  }

  /** The start of the search's second day window. */
  function Tomorrow(now: int, tz: int): int {
    Today(now, tz) + MILLIS_IN_ONE_DAY
  }

  /**
   * The alarm to arm: today's first event when it has not started and its
   * alarm has not rung, otherwise tomorrow's first event when its alarm has
   * not rung, otherwise none.
   */
  function NextAlarm(events: seq<Event>, now: int, tz: int, lastAlarmTime: int, offset: int): (alarm: Option<Alarm>)
    ensures alarm.Some? ==> lastAlarmTime < alarm.value.AlarmTime(offset)
    ensures alarm.Some? ==>
      exists e :: e in events && InWindow(e, Today(now, tz), Tomorrow(now, tz) + MILLIS_IN_ONE_DAY) && alarm.value == AlarmOf(e)
  {
    var today := Today(now, tz);
    var tomorrow := today + MILLIS_IN_ONE_DAY;
    var first := FirstEvent(events, today, tomorrow);
    if first.Some? && first.value.start >= now && lastAlarmTime < first.value.start - offset then
      Some(AlarmOf(first.value))
    else
      var second := FirstEvent(events, tomorrow, tomorrow + MILLIS_IN_ONE_DAY);
      if second.Some? && lastAlarmTime < second.value.start - offset then
        Some(AlarmOf(second.value))
      else
        None
  }

  /**
   * An alarm for an event of the first window is chosen exactly when today's
   * first event has not started and its alarm has not rung, and it is then
   * that event; otherwise the choice is tomorrow's first event, or none when
   * tomorrow has no event or its alarm has rung.
   */
  lemma TodayBeforeTomorrow(events: seq<Event>, now: int, tz: int, lastAlarmTime: int, offset: int)
    ensures
      var first := FirstEvent(events, Today(now, tz), Tomorrow(now, tz));
      var alarm := NextAlarm(events, now, tz, lastAlarmTime, offset);
      var upcoming := first.Some? && first.value.start >= now && lastAlarmTime < first.value.start - offset;
      && (alarm.Some? && alarm.value.eventTime < Tomorrow(now, tz) <==> upcoming)
      && (upcoming ==> alarm == Some(AlarmOf(first.value)))
    ensures
      var first := FirstEvent(events, Today(now, tz), Tomorrow(now, tz));
      var second := FirstEvent(events, Tomorrow(now, tz), Tomorrow(now, tz) + MILLIS_IN_ONE_DAY);
      var alarm := NextAlarm(events, now, tz, lastAlarmTime, offset);
      !(first.Some? && first.value.start >= now && lastAlarmTime < first.value.start - offset) ==>
        && (alarm.Some? ==> alarm == Some(AlarmOf(second.value)))
        && (alarm.None? <==> second.None? || lastAlarmTime >= second.value.start - offset)
  {
  }

  /**
   * A late but unrung alarm wins over tomorrow: when `e` is an earliest event
   * of today's window, has not started, and no ring is recorded at or after its
   * alarm time, the alarm is armed for `e`'s start even if its alarm time is
   * already before `now`.
   */
  lemma LateAlarmWins(events: seq<Event>, now: int, tz: int, lastAlarmTime: int, offset: int, e: Event)
    requires e in events && InWindow(e, Today(now, tz), Tomorrow(now, tz))
    requires forall d :: d in events && InWindow(d, Today(now, tz), Tomorrow(now, tz)) ==> e.start <= d.start
    requires now <= e.start && lastAlarmTime < e.start - offset
    ensures
      var alarm := NextAlarm(events, now, tz, lastAlarmTime, offset);
      alarm.Some? && alarm.value.eventTime == e.start && alarm.value.AlarmTime(offset) == e.start - offset
  {
    var first := FirstEvent(events, Today(now, tz), Tomorrow(now, tz));
    assert first.Some? && first.value.start == e.start;
  }

  /**
   * An alarm whose time is at or before the last recorded ring is never
   * chosen again; in particular, right after a ring at `now`, no event whose
   * alarm time is `<= now` can be chosen.
   */
  lemma RungAlarmNotChosen(events: seq<Event>, now: int, tz: int, lastAlarmTime: int, offset: int, e: Event)
    requires e.start - offset <= lastAlarmTime
    ensures NextAlarm(events, now, tz, lastAlarmTime, offset) != Some(AlarmOf(e))
    ensures NextAlarm(events, now, tz, now, offset).Some? ==> NextAlarm(events, now, tz, now, offset).value.AlarmTime(offset) > now
  {
  }

  /**
   * When `now` is before the second window, that is, when the UTC time of day
   * of `now` plus the zone offset `tz` is below 24 hours, the chosen event has
   * not started yet.
   */
  lemma ChosenNotStarted(events: seq<Event>, now: int, tz: int, lastAlarmTime: int, offset: int)
    requires now < Tomorrow(now, tz)
    ensures
      var alarm := NextAlarm(events, now, tz, lastAlarmTime, offset);
      alarm.Some? ==> alarm.value.eventTime >= now
  {
    var alarm := NextAlarm(events, now, tz, lastAlarmTime, offset);
    if alarm.Some? {
      TodayBeforeTomorrow(events, now, tz, lastAlarmTime, offset);
    }
  }

  /**
   * The second window is searched without the "already started" check, so
   * when `now` lies past it the engine can arm an event that has started:
   * with a zone two hours ahead of UTC, at 23:30 UTC on day 1 (01:30 local on
   * day 2), an unrung event at 00:30 local on day 2 is chosen.
   */
  lemma StartedEventChosen()
    ensures
      var now, tz := 171_000_000, 7_200_000;
      var events := [Event("E", 167_400_000, false)];
      Tomorrow(now, tz) <= now
      && NextAlarm(events, now, tz, 0, 5_400_000) == Some(Alarm("E", 167_400_000))
      && 167_400_000 < now
  {
    var now, tz := 171_000_000, 7_200_000;
    var events := [Event("E", 167_400_000, false)];
    assert Div(now, MILLIS_IN_ONE_DAY) == 1;
    assert Today(now, tz) == 79_200_000;
    assert FirstEvent(events, 79_200_000, 165_600_000) == None;
    assert FirstEvent(events, 165_600_000, 252_000_000) == Some(events[0]);
  }

  /** The state of one of the platform's timers for the service. */
  datatype Timer = Cancelled | At(time: int) | Repeating(first: int, interval: int)

  /** A posted alarm notification: the event's title and start time it shows. */
  datatype Ring = Ring(title: Option<string>, eventTime: int)

  /** The intent actions the service handles; any other action is `Unknown`. */
  datatype Action = ConfigurationChanged | Run | Search | Unknown

  class AlarmService {

    const settings: Settings

    /** The repeating event search. */
    ghost var searchTimer: Timer

    /** The one-shot timer that runs the alarm. */
    ghost var runTimer: Timer

    /** Every alarm notification posted so far. */
    ghost var rings: seq<Ring>

    constructor (settings: Settings, ghost searchTimer: Timer, ghost runTimer: Timer)
      ensures this.settings == settings && this.searchTimer == searchTimer && this.runTimer == runTimer
      ensures rings == []
    {
      this.settings := settings;
      this.searchTimer := searchTimer;
      this.runTimer := runTimer;
      rings := [];
    }

    /** The alarm the stored settings call for at `now`: none while the app is disabled. */
    ghost function Decision(now: int, tz: int, events: seq<Event>): Option<Alarm>
      reads settings
      requires settings.Valid()
    {
      if settings.IsEnabled() then
        NextAlarm(events, now, tz, settings.LastAlarmTime(), settings.OffsetInMillis())
      else
        None
    }

    /**
     * The stored next alarm and the run timer agree with the decision: both
     * cleared when there is no alarm, otherwise the event's title, its alarm
     * time, and the timer armed at that same time.
     */
    ghost predicate Settled(now: int, tz: int, events: seq<Event>)
      reads this, settings
      requires settings.Valid()
    {
      match Decision(now, tz, events)
      case None =>
        && NextAlarmTitleKey !in settings.prefs && NextAlarmTimeKey !in settings.prefs
        && runTimer == Cancelled
      case Some(alarm) =>
        var time := alarm.AlarmTime(settings.OffsetInMillis());
        && settings.NextAlarmTitle() == Some(alarm.eventTitle)
        && NextAlarmTimeKey in settings.prefs && settings.NextAlarmTime() == time
        && runTimer == At(time)
    }

    /** The event search: the alarm to arm, read against the stored last ring time and offset. */
    method GetNextAlarm(now: int, tz: int, events: seq<Event>) returns (alarm: Option<Alarm>)
      requires settings.Valid()
      ensures alarm == NextAlarm(events, now, tz, settings.LastAlarmTime(), settings.OffsetInMillis())
    {
      var midnightUtc := MidnightUtc(now);
      var today := midnightUtc - tz;
      var tomorrow := today + MILLIS_IN_ONE_DAY;
      var selectionArgs := new int[2];
      selectionArgs[0], selectionArgs[1] := today, tomorrow;
      assert selectionArgs[..] == [Today(now, tz), Tomorrow(now, tz)];
      var found := FirstEvent(events, selectionArgs[0], selectionArgs[1]);
      alarm := if found.Some? then Some(AlarmOf(found.value)) else None;
      if alarm.None? || alarm.value.eventTime < now
         || settings.LastAlarmTime() >= alarm.value.AlarmTime(settings.OffsetInMillis())
      {
        selectionArgs[0] := selectionArgs[1];
        selectionArgs[1] := tomorrow + MILLIS_IN_ONE_DAY;
        assert selectionArgs[..] == [Tomorrow(now, tz), Tomorrow(now, tz) + MILLIS_IN_ONE_DAY];
        found := FirstEvent(events, selectionArgs[0], selectionArgs[1]);
        alarm := if found.Some? then Some(AlarmOf(found.value)) else None;
        if alarm.Some? && settings.LastAlarmTime() >= alarm.value.AlarmTime(settings.OffsetInMillis()) {
          alarm := None;
        }
      }
    }

    /**
     * Arms the run timer for the chosen alarm and stores its title and time,
     * or cancels the timer and clears both. Only the next-alarm pair changes,
     * and the decision does not read it, so a second call changes nothing.
     */
    method UpdateNextAlarm(now: int, tz: int, events: seq<Event>)
      requires settings.Valid()
      modifies settings, this`runTimer
      ensures settings.Valid() && settings.PairConsistent()
      ensures Settled(now, tz, events)
      ensures Decision(now, tz, events).Some? ==>
        settings.NextAlarmTime() + settings.OffsetInMillis() == Decision(now, tz, events).value.eventTime
      ensures !settings.IsEnabled() ==>
        NextAlarmTitleKey !in settings.prefs && NextAlarmTimeKey !in settings.prefs && runTimer == Cancelled
      ensures settings.prefs - {NextAlarmTitleKey, NextAlarmTimeKey} == old(settings.prefs) - {NextAlarmTitleKey, NextAlarmTimeKey}
      ensures settings.IsEnabled() == old(settings.IsEnabled()) && settings.OffsetInMinutes() == old(settings.OffsetInMinutes())
      ensures settings.LastAlarmTime() == old(settings.LastAlarmTime())
      ensures Decision(now, tz, events) == old(Decision(now, tz, events))
      ensures old(Settled(now, tz, events)) ==> settings.prefs == old(settings.prefs) && runTimer == old(runTimer)
    {
      ghost var before := settings.prefs;
      if settings.IsEnabled() {
        var alarm := GetNextAlarm(now, tz, events);
        if alarm.Some? {
          var time := alarm.value.AlarmTime(settings.OffsetInMillis());
          runTimer := At(time);
          settings.SetNextAlarmTitle(alarm.value.eventTitle);
          settings.SetNextAlarmTime(time);
          assert settings.prefs - {NextAlarmTitleKey, NextAlarmTimeKey} == before - {NextAlarmTitleKey, NextAlarmTimeKey};
        } else {
          runTimer := Cancelled;
          settings.ClearNextAlarm();
        }
      } else {
        runTimer := Cancelled;
        settings.ClearNextAlarm();
      }
    }

    /**
     * When enabled, (re)arms the hourly repeating search and changes nothing
     * else; when disabled, cancels the search and then clears the next alarm.
     */
    method UpdateSearchSchedule(now: int, tz: int, events: seq<Event>)
      requires settings.Valid()
      modifies settings, this`searchTimer, this`runTimer
      ensures settings.Valid()
      ensures old(settings.IsEnabled()) ==>
        && searchTimer == Repeating(0, SEARCH_INTERVAL)
        && settings.prefs == old(settings.prefs) && runTimer == old(runTimer)
      ensures !old(settings.IsEnabled()) ==>
        && searchTimer == Cancelled && runTimer == Cancelled
        && settings.prefs == old(settings.prefs) - {NextAlarmTitleKey, NextAlarmTimeKey}
    {
      if settings.IsEnabled() {
        searchTimer := Repeating(0, SEARCH_INTERVAL);
      } else {
        searchTimer := Cancelled;
        UpdateNextAlarm(now, tz, events);
      }
    }

    /**
     * Rings the alarm: posts a notification for the stored title at the stored
     * time plus the offset, records `now` as the last ring and clears the
     * next-alarm pair.
     */
    method RunAlarm(now: int)
      requires settings.Valid()
      modifies settings, this`rings
      ensures settings.Valid() && settings.PairConsistent()
      ensures settings.prefs == (old(settings.prefs) - {NextAlarmTitleKey, NextAlarmTimeKey})[LastAlarmTimeKey := LongValue(now)]
      ensures settings.LastAlarmTime() == now
      ensures rings == old(rings) + [Ring(old(settings.NextAlarmTitle()), old(settings.NextAlarmTime()) + old(settings.OffsetInMillis()))]
    {
      var ring := Ring(settings.NextAlarmTitle(), settings.NextAlarmTime() + settings.OffsetInMillis());
      settings.SetLastAlarmTime(now);
      settings.ClearNextAlarm();
      rings := rings + [ring];
    }

    /** Dispatches an intent to the operation its action names; an unknown action changes nothing. */
    method HandleIntent(action: Action, now: int, tz: int, events: seq<Event>)
      requires settings.Valid()
      modifies settings, this`searchTimer, this`runTimer, this`rings
      ensures settings.Valid()
      ensures action == ConfigurationChanged ==>
        && rings == old(rings)
        && (old(settings.IsEnabled()) ==> searchTimer == Repeating(0, SEARCH_INTERVAL) && settings.prefs == old(settings.prefs) && runTimer == old(runTimer))
        && (!old(settings.IsEnabled()) ==>
              && searchTimer == Cancelled && Settled(now, tz, events) && runTimer == Cancelled
              && settings.prefs == old(settings.prefs) - {NextAlarmTitleKey, NextAlarmTimeKey})
      ensures action == Run ==>
        && searchTimer == old(searchTimer)
        && rings == old(rings) + [Ring(old(settings.NextAlarmTitle()), old(settings.NextAlarmTime()) + old(settings.OffsetInMillis()))]
        && settings.prefs - {NextAlarmTitleKey, NextAlarmTimeKey}
           == (old(settings.prefs) - {NextAlarmTitleKey, NextAlarmTimeKey})[LastAlarmTimeKey := LongValue(now)]
        && settings.LastAlarmTime() == now && settings.PairConsistent() && Settled(now, tz, events)
        && (runTimer.At? ==> runTimer.time > now)
      ensures action == Search ==>
        && searchTimer == old(searchTimer) && rings == old(rings)
        && settings.prefs - {NextAlarmTitleKey, NextAlarmTimeKey} == old(settings.prefs) - {NextAlarmTitleKey, NextAlarmTimeKey}
        && settings.PairConsistent() && Settled(now, tz, events)
      ensures action == Unknown ==>
        && settings.prefs == old(settings.prefs)
        && searchTimer == old(searchTimer) && runTimer == old(runTimer) && rings == old(rings)
    {
      match action
      case ConfigurationChanged =>
        UpdateSearchSchedule(now, tz, events);
      case Run =>
        RunAlarm(now);
        UpdateNextAlarm(now, tz, events);
      case Search =>
        UpdateNextAlarm(now, tz, events);
      case Unknown =>
    }
  }

}
