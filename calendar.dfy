/**
 * The calendar synchronisation plugin (CalendarSyncPlugin).
 *
 * Date-times are whole seconds on one clock; the current time and the start of
 * the current day are passed in by the caller. The event pipeline of a sync is
 * `Keep` (the all-day filter), `SortByStart` (a stable sort on the start time)
 * and `Head` (Python's `list[:k]`); reminders are chosen by `DueReminders`.
 */
module Calendar {
  import opened Lifecycle
  import opened Timers
  import opened Patches

  /** The status a sync attaches to each event. */
  datatype EventStatus = Ongoing | Soon | Upcoming

  /** An event as the plugin keeps it; `start` and `end` are the event's date-times. */
  datatype Event = Event(title: string, start: int, end: int, allDay: bool, status: EventStatus)

  const Minute := 60
  const Hour := 3600
  const Day := 86400

  /** How far ahead an event counts as starting soon. */
  const SoonWindow := 30 * Minute

  /**
   * The status of an event at time `now`: ongoing while `now` lies within the
   * event (both ends included), otherwise soon if it starts at most thirty
   * minutes from now, otherwise upcoming. Exactly one of the three applies.
   */
  function Classify(start: int, end: int, now: int): (st: EventStatus)
    ensures st == Ongoing <==> start <= now <= end
    ensures st == Soon <==> !(start <= now <= end) && start <= now + SoonWindow
    ensures st == Upcoming <==> !(start <= now <= end) && now + SoonWindow < start
  {
    if start <= now <= end then Ongoing
    else if start <= now + SoonWindow then Soon
    else Upcoming
  }

  /** The second test does not look at the end: an event that is already over counts as soon. */
  lemma FinishedEventCountsAsSoon(start: int, end: int, now: int)
    requires start <= end < now
    ensures Classify(start, end, now) == Soon
  {
  }

  /** A sample entry before it is annotated with its status. */
  datatype Sample = Sample(title: string, start: int, end: int, allDay: bool)

  /**
   * The fixed entries of `generate_sample_events`, the stand-in for a calendar
   * provider: three one-hour meetings starting one, three and five hours from
   * now, and one all-day event from midnight to 23:59:59 of the current day.
   */
  function SampleSchedule(now: int, midnight: int): (r: seq<Sample>)
    ensures |r| == 4
    ensures forall i :: 0 <= i < 3 ==> r[i].start == now + (2 * i + 1) * Hour && r[i].end == r[i].start + Hour && !r[i].allDay
    ensures r[3].allDay && r[3].start == midnight && r[3].end == midnight + Day - 1
  {
    [ Sample("团队会议", now + Hour, now + 2 * Hour, false),
      Sample("项目评审", now + 3 * Hour, now + 4 * Hour, false),
      Sample("客户拜访", now + 5 * Hour, now + 6 * Hour, false),
      Sample("生日聚会", midnight, midnight + Day - 1, true) ]
  }

  /** A sample entry as an event: its own fields and its status at `now`. */
  function Annotate(x: Sample, now: int): (e: Event)
    ensures e.title == x.title && e.start == x.start && e.end == x.end && e.allDay == x.allDay
    ensures e.status == Classify(x.start, x.end, now)
  {
    Event(x.title, x.start, x.end, x.allDay, Classify(x.start, x.end, now))
  }

  function AnnotateAll(xs: seq<Sample>, now: int): (r: seq<Event>)
    ensures |r| == |xs|
    ensures forall i :: 0 <= i < |xs| ==> r[i] == Annotate(xs[i], now)
    decreases |xs|
  {
    if xs == [] then [] else AnnotateAll(xs[..|xs| - 1], now) + [Annotate(xs[|xs| - 1], now)]
  }

  /** The events `generate_sample_events` returns at time `now`. */
  function SampleEvents(now: int, midnight: int): (r: seq<Event>)
    ensures |r| == 4
  {
    AnnotateAll(SampleSchedule(now, midnight), now)
  }

  /** There are four sample events, the `i`-th being the `i`-th sample entry with its status at `now`. */
  lemma SampleEventsAnnotated(now: int, midnight: int)
    ensures var r := SampleEvents(now, midnight);
            forall i :: 0 <= i < 4 ==> r[i] == Annotate(SampleSchedule(now, midnight)[i], now)
  {
  }

  /** During the current day the three meetings are upcoming and the all-day event is ongoing. */
  lemma SampleEventStatuses(now: int, midnight: int)
    requires midnight <= now < midnight + Day
    ensures var r := SampleEvents(now, midnight);
            r[0].status == Upcoming && r[1].status == Upcoming && r[2].status == Upcoming && r[3].status == Ongoing
  {
    SampleEventsAnnotated(now, midnight);
  }

  /** The events that pass the all-day filter of `filter_events`, in their input order. */
  function Keep(events: seq<Event>, showAllDay: bool): (r: seq<Event>)
    ensures |r| <= |events|
    decreases |events|
  {
    if events == [] then []
    else
      var init, last := events[..|events| - 1], events[|events| - 1];
      assert events == init + [last];
      Keep(init, showAllDay) + (if !showAllDay && last.allDay then [] else [last])
  }

  /**
   * Every kept event comes from the input; no all-day event is kept while
   * those are hidden; every other input event is kept.
   */
  lemma {:induction false} KeepMembers(events: seq<Event>, showAllDay: bool)
    ensures forall e :: e in Keep(events, showAllDay) ==> e in events
    ensures !showAllDay ==> forall e :: e in Keep(events, showAllDay) ==> !e.allDay
    ensures forall e :: e in events && (showAllDay || !e.allDay) ==> e in Keep(events, showAllDay)
    decreases |events|
  {
    if events != [] {
      var init, last := events[..|events| - 1], events[|events| - 1];
      assert events == init + [last];
      KeepMembers(init, showAllDay);
    }
  }

  /** One event passes the filter exactly when it is not a hidden all-day event. */
  lemma KeepSingleton(e: Event, showAllDay: bool)
    ensures Keep([e], showAllDay) == if !showAllDay && e.allDay then [] else [e]
  {
    assert [e][..0] == [];
  }

  /**
   * The filter works event by event: filtering a concatenation is filtering
   * each part, so every kept occurrence stays, once, in its input order.
   */
  lemma {:induction false} KeepAppend(a: seq<Event>, b: seq<Event>, showAllDay: bool)
    ensures Keep(a + b, showAllDay) == Keep(a, showAllDay) + Keep(b, showAllDay)
    decreases |b|
  {
    if b == [] {
      assert a + b == a;
    } else {
      var init, last := b[..|b| - 1], b[|b| - 1];
      assert (a + b)[..|a + b| - 1] == a + init;
      assert (a + b)[|a + b| - 1] == last;
      KeepAppend(a, init, showAllDay);
    }
  }

  /** One more event of a list through the filter: the filtered prefix grows by that event's own result. */
  lemma KeepStep(s: seq<Event>, i: int, showAllDay: bool)
    requires 0 <= i < |s|
    ensures Keep(s[..i + 1], showAllDay) == Keep(s[..i], showAllDay) + Keep([s[i]], showAllDay)
    ensures Keep([s[i]], showAllDay) == if !showAllDay && s[i].allDay then [] else [s[i]]
  {
    assert s[..i + 1] == s[..i] + [s[i]];
    KeepAppend(s[..i], [s[i]], showAllDay);
    KeepSingleton(s[i], showAllDay);
  }

  predicate SortedByStart(s: seq<Event>)
  {
    forall i, j :: 0 <= i < j < |s| ==> s[i].start <= s[j].start
  }

  /** Inserts `x` in front of the first element that does not start before it. */
  function Insert(x: Event, t: seq<Event>): (r: seq<Event>)
    ensures |r| == |t| + 1
    ensures forall y :: y in r <==> y == x || y in t
    decreases |t|
  {
    if t == [] || x.start <= t[0].start then
      [x] + t
    else
      assert t == [t[0]] + t[1..];
      [t[0]] + Insert(x, t[1..])
  }

  lemma {:induction false} InsertSorted(x: Event, t: seq<Event>)
    requires SortedByStart(t)
    ensures SortedByStart(Insert(x, t))
    decreases |t|
  {
    if t != [] && t[0].start < x.start {
      var r' := Insert(x, t[1..]);
      InsertSorted(x, t[1..]);
      var r := [t[0]] + r';
      forall i, j | 0 <= i < j < |r|
        ensures r[i].start <= r[j].start
      {
        assert r[j] == r'[j - 1] && r[j] in r';
        if i > 0 {
          assert r[i] == r'[i - 1];
        } else if r[j] != x {
          var k :| 0 <= k < |t[1..]| && t[1..][k] == r[j];
          assert t[k + 1] == r[j];
        }
      }
    }
  }

  /** The order `list.sort(key=start)` produces: by start time, ties kept in input order. */
  function SortByStart(s: seq<Event>): (r: seq<Event>)
    ensures |r| == |s|
    ensures forall e :: e in r <==> e in s
    ensures SortedByStart(r)
    decreases |s|
  {
    if s == [] then []
    else
      assert s == [s[0]] + s[1..];
      InsertSorted(s[0], SortByStart(s[1..]));
      Insert(s[0], SortByStart(s[1..]))
  }

  lemma {:induction false} InsertPermutes(x: Event, t: seq<Event>)
    ensures multiset(Insert(x, t)) == multiset(t) + multiset{x}
    decreases |t|
  {
    if t != [] && t[0].start < x.start {
      InsertPermutes(x, t[1..]);
      assert t == [t[0]] + t[1..];
    }
  }

  /** The sort only reorders: the result holds the same events, each as often. */
  lemma {:induction false} SortPermutes(s: seq<Event>)
    ensures multiset(SortByStart(s)) == multiset(s)
    decreases |s|
  {
    if s != [] {
      SortPermutes(s[1..]);
      InsertPermutes(s[0], SortByStart(s[1..]));
      assert s == [s[0]] + s[1..];
    }
  }

  /** With all-day events shown the filter keeps every event. */
  lemma {:induction false} KeepAllWhenShown(events: seq<Event>)
    ensures Keep(events, true) == events
    decreases |events|
  {
    if events != [] {
      KeepAllWhenShown(events[..|events| - 1]);
      assert events == events[..|events| - 1] + [events[|events| - 1]];
    }
  }

  /** The all-day filter keeps a sub-multiset of its input. */
  lemma {:induction false} KeepIsSubmultiset(events: seq<Event>, showAllDay: bool)
    ensures multiset(Keep(events, showAllDay)) <= multiset(events)
    decreases |events|
  {
    if events != [] {
      var init := events[..|events| - 1];
      KeepIsSubmultiset(init, showAllDay);
      assert events == init + [events[|events| - 1]];
    }
  }

  /** The events of `s` that start at time `k`, in the order of `s`. */
  function StartingAt(s: seq<Event>, k: int): seq<Event>
    decreases |s|
  {
    if s == [] then [] else (if s[0].start == k then [s[0]] else []) + StartingAt(s[1..], k)
  }

  lemma {:induction false} InsertKeepsTies(x: Event, t: seq<Event>, k: int)
    ensures StartingAt(Insert(x, t), k) == StartingAt([x] + t, k)
    decreases |t|
  {
    if t != [] && t[0].start < x.start {
      var r' := Insert(x, t[1..]);
      InsertKeepsTies(x, t[1..], k);
      assert ([t[0]] + r')[1..] == r';
      assert ([x] + t[1..])[1..] == t[1..];
      assert ([x] + t)[1..] == t;
    }
  }

  /** The sort is stable: the events that share a start time keep their relative order. */
  lemma {:induction false} SortIsStable(s: seq<Event>, k: int)
    ensures StartingAt(SortByStart(s), k) == StartingAt(s, k)
    decreases |s|
  {
    if s != [] {
      var rest := SortByStart(s[1..]);
      InsertKeepsTies(s[0], rest, k);
      SortIsStable(s[1..], k);
      assert ([s[0]] + rest)[1..] == rest;
    }
  }

  /** Python's `s[:k]`: at most `k` leading elements, or all but the last `-k` when `k` is negative. */
  function Head<T>(s: seq<T>, k: int): (r: seq<T>)
    ensures k >= 0 ==> |r| == if k < |s| then k else |s|
    ensures k < 0 ==> |r| == if |s| + k > 0 then |s| + k else 0
    ensures r == s[..|r|]
  {
    if k >= 0 then (if k < |s| then s[..k] else s)
    else if |s| + k > 0 then s[..|s| + k]
    else []
  }

  /** What `filter_events` returns for a list of events. */
  function Shown(events: seq<Event>, showAllDay: bool, maxEvents: int): seq<Event>
  {
    Head(SortByStart(Keep(events, showAllDay)), maxEvents)
  }

  /**
   * The shown events come from the input, include no all-day event when those
   * are hidden, are ordered by start time and number at most `maxEvents`.
   */
  lemma ShownProperties(events: seq<Event>, showAllDay: bool, maxEvents: int)
    ensures var r := Shown(events, showAllDay, maxEvents);
            && SortedByStart(r)
            && (maxEvents >= 0 ==> |r| <= maxEvents)
            && (forall e :: e in r ==> e in events)
            && (!showAllDay ==> forall e :: e in r ==> !e.allDay)
  {
    KeepMembers(events, showAllDay);
  }

  /** The reminder window test of `check_reminders`: the event starts between now and `windowMinutes` from now. */
  predicate Due(e: Event, now: int, windowMinutes: int)
  {
    0 <= e.start - now <= windowMinutes * Minute
  }

  /** The events a reminder pass notifies, in list order. */
  function DueReminders(events: seq<Event>, now: int, windowMinutes: int): (r: seq<Event>)
    ensures forall e :: e in r <==> e in events && Due(e, now, windowMinutes)
    ensures |r| <= |events|
    decreases |events|
  {
    if events == [] then []
    else
      var init, last := events[..|events| - 1], events[|events| - 1];
      assert events == init + [last];
      DueReminders(init, now, windowMinutes) + (if Due(last, now, windowMinutes) then [last] else [])
  }

  /** Nothing is due for an event that started in the past or starts beyond the window. */
  lemma NoReminderOutsideWindow(events: seq<Event>, now: int, windowMinutes: int, e: Event)
    requires e.start < now || now + windowMinutes * Minute < e.start
    ensures e !in DueReminders(events, now, windowMinutes)
  {
  }

  /** One event is reminded of exactly when it is due. */
  lemma DueRemindersSingleton(e: Event, now: int, windowMinutes: int)
    ensures DueReminders([e], now, windowMinutes) == if Due(e, now, windowMinutes) then [e] else []
  {
    assert [e][..0] == [];
  }

  /**
   * Reminders are taken list by list: the reminders for a concatenation are
   * those for the first part followed by those for the second, so each due
   * occurrence is reminded once and in list order.
   */
  lemma {:induction false} DueRemindersAppend(a: seq<Event>, b: seq<Event>, now: int, windowMinutes: int)
    ensures DueReminders(a + b, now, windowMinutes)
            == DueReminders(a, now, windowMinutes) + DueReminders(b, now, windowMinutes)
    decreases |b|
  {
    if b == [] {
      assert a + b == a;
    } else {
      var init, last := b[..|b| - 1], b[|b| - 1];
      assert (a + b)[..|a + b| - 1] == a + init;
      assert (a + b)[|a + b| - 1] == last;
      DueRemindersAppend(a, init, now, windowMinutes);
    }
  }

  /** The plugin's settings dictionary; `syncInterval` and `reminderMinutes` are in minutes. */
  datatype Settings = Settings(
    syncEnabled: bool,
    syncInterval: nat,
    googleCalendarEnabled: bool,
    googleApiKey: string,
    outlookEnabled: bool,
    outlookClientId: string,
    showUpcomingEvents: int,
    eventReminder: bool,
    reminderMinutes: int,
    showAllDayEvents: bool,
    timeFormat: string)

  const DefaultSettings := Settings(true, 15, false, "", false, "", 3, true, 15, true, "24h")

  datatype Patch = Patch(
    syncEnabled: Option<bool>,
    syncInterval: Option<nat>,
    googleCalendarEnabled: Option<bool>,
    googleApiKey: Option<string>,
    outlookEnabled: Option<bool>,
    outlookClientId: Option<string>,
    showUpcomingEvents: Option<int>,
    eventReminder: Option<bool>,
    reminderMinutes: Option<int>,
    showAllDayEvents: Option<bool>,
    timeFormat: Option<string>)

  const EmptyPatch := Patch(None, None, None, None, None, None, None, None, None, None, None)

  /** `settings.update(patch)` */
  function Merge(s: Settings, p: Patch): (r: Settings)
    ensures p == EmptyPatch ==> r == s
  {
    Settings(
      Override(s.syncEnabled, p.syncEnabled),
      Override(s.syncInterval, p.syncInterval),
      Override(s.googleCalendarEnabled, p.googleCalendarEnabled),
      Override(s.googleApiKey, p.googleApiKey),
      Override(s.outlookEnabled, p.outlookEnabled),
      Override(s.outlookClientId, p.outlookClientId),
      Override(s.showUpcomingEvents, p.showUpcomingEvents),
      Override(s.eventReminder, p.eventReminder),
      Override(s.reminderMinutes, p.reminderMinutes),
      Override(s.showAllDayEvents, p.showAllDayEvents),
      Override(s.timeFormat, p.timeFormat))
  }

  /** A patch followed by a second one: the second's keys win. */
  function Combine(first: Patch, second: Patch): Patch
  {
    Patch(
      Then(first.syncEnabled, second.syncEnabled),
      Then(first.syncInterval, second.syncInterval),
      Then(first.googleCalendarEnabled, second.googleCalendarEnabled),
      Then(first.googleApiKey, second.googleApiKey),
      Then(first.outlookEnabled, second.outlookEnabled),
      Then(first.outlookClientId, second.outlookClientId),
      Then(first.showUpcomingEvents, second.showUpcomingEvents),
      Then(first.eventReminder, second.eventReminder),
      Then(first.reminderMinutes, second.reminderMinutes),
      Then(first.showAllDayEvents, second.showAllDayEvents),
      Then(first.timeFormat, second.timeFormat))
  }

  /** The merge is shallow: a patch applied twice acts once, and two patches in a row act as their combination. */
  lemma MergeLaws(s: Settings, p: Patch, q: Patch)
    ensures Merge(Merge(s, p), p) == Merge(s, p)
    ensures Merge(Merge(s, p), q) == Merge(s, Combine(p, q))
  {
    OverrideThen(s.syncEnabled, p.syncEnabled, q.syncEnabled);
    OverrideThen(s.syncInterval, p.syncInterval, q.syncInterval);
    OverrideThen(s.googleCalendarEnabled, p.googleCalendarEnabled, q.googleCalendarEnabled);
    OverrideThen(s.googleApiKey, p.googleApiKey, q.googleApiKey);
    OverrideThen(s.outlookEnabled, p.outlookEnabled, q.outlookEnabled);
    OverrideThen(s.outlookClientId, p.outlookClientId, q.outlookClientId);
    OverrideThen(s.showUpcomingEvents, p.showUpcomingEvents, q.showUpcomingEvents);
    OverrideThen(s.eventReminder, p.eventReminder, q.eventReminder);
    OverrideThen(s.reminderMinutes, p.reminderMinutes, q.reminderMinutes);
    OverrideThen(s.showAllDayEvents, p.showAllDayEvents, q.showAllDayEvents);
    OverrideThen(s.timeFormat, p.timeFormat, q.timeFormat);
  }

  /** The sync timer's period: `sync_interval * 60 * 1000` milliseconds. */
  function SyncPeriodMs(s: Settings): int
  {
    s.syncInterval * 60 * 1000
  }

  /** The events a sync at `now` keeps. */
  function SyncedEvents(now: int, midnight: int, s: Settings): seq<Event>
  {
    Shown(SampleEvents(now, midnight), s.showAllDayEvents, s.showUpcomingEvents)
  }

  /** The reminders one `check_reminders` pass sends: none while `event_reminder` is off. */
  function RemindersSent(events: seq<Event>, now: int, s: Settings): (r: seq<Event>)
    ensures !s.eventReminder ==> r == []
    ensures s.eventReminder ==> r == DueReminders(events, now, s.reminderMinutes)
  {
    if s.eventReminder then DueReminders(events, now, s.reminderMinutes) else []
  }

  lemma InsertBehind(x: Event, y: Event, t: seq<Event>)
    requires y.start < x.start
    ensures Insert(x, [y] + t) == [y] + Insert(x, t)
  {
    assert ([y] + t)[1..] == t;
  }

  /** The sample list sorted: the all-day event (from midnight) first, then the meetings in order. */
  lemma SortedSamples(now: int, midnight: int)
    requires midnight <= now
    ensures var all := SampleEvents(now, midnight);
            SortByStart(all) == [all[3], all[0], all[1], all[2]]
  {
    var all := SampleEvents(now, midnight);
    SampleEventsAnnotated(now, midnight);
    var a, b, c, d := all[0], all[1], all[2], all[3];
    assert d.start < a.start < b.start < c.start;
    assert all[1..][1..][1..][1..] == [];
    assert SortByStart(all[1..][1..][1..]) == [d];
    InsertBehind(c, d, []);
    assert SortByStart(all[1..][1..]) == [d, c];
    InsertBehind(b, d, [c]);
    assert SortByStart(all[1..]) == [d, b, c];
    InsertBehind(a, d, [b, c]);
  }

  /**
   * With the default settings a sync shows the all-day event and the first two
   * meetings: the third meeting is cut by `show_upcoming_events = 3`.
   */
  lemma DefaultSyncShows(now: int, midnight: int)
    requires midnight <= now
    ensures var all := SampleEvents(now, midnight);
            SyncedEvents(now, midnight, DefaultSettings) == [all[3], all[0], all[1]]
  {
    KeepAllWhenShown(SampleEvents(now, midnight));
    SortedSamples(now, midnight);
  }

  class CalendarSyncPlugin {
    var status: Status
    var hasWidget: bool
    var syncTimer: Option<Timer>
    var events: seq<Event>
    var lastSyncTime: Option<int>
    var settings: Settings
    /** The reminders sent so far, in order. */
    var reminders: seq<Event>
    /** Every event list sent to the display by `events_updated`, in order. */
    var published: seq<seq<Event>>

    /**
     * Once initialised the plugin has its widget and timer, and the sync timer
     * runs only while sync is enabled, at the configured period.
     */
    ghost predicate Valid()
      reads this`status, this`syncTimer, this`hasWidget, this`settings
    {
      && ((status == Initialized || status == Enabled) ==> syncTimer.Some? && hasWidget)
      && (syncTimer.Some? && syncTimer.value.active ==>
            settings.syncEnabled && syncTimer.value.intervalMs == SyncPeriodMs(settings))
    }

    constructor ()
      ensures Valid()
      ensures status == Loaded && !hasWidget && syncTimer.None?
      ensures events == [] && lastSyncTime.None? && reminders == [] && settings == DefaultSettings
      ensures published == []
    {
      status := Loaded;
      hasWidget := false;
      syncTimer := None;
      events := [];
      lastSyncTime := None;
      settings := DefaultSettings;
      reminders := [];
      published := [];
    }

    /** `initialize`: creates the widget and an idle sync timer. */
    method Initialize() returns (ok: bool)
      requires Valid()
      modifies this
      ensures Valid() && ok
      ensures status == Next(old(status), Call.Initialize)
      ensures hasWidget && syncTimer == Some(NewTimer)
      ensures events == old(events) && lastSyncTime == old(lastSyncTime) && reminders == old(reminders)
      ensures settings == old(settings) && published == old(published)
    {
      hasWidget := true;
      syncTimer := Some(NewTimer);
      status := Initialized;
      return true;
    }

    /**
     * `activate`: refused, with nothing changed, unless the plugin is
     * INITIALIZED; with sync enabled it starts the sync timer and syncs once.
     */
    method Activate(now: int, midnight: int) returns (ok: bool)
      requires Valid()
      modifies this
      ensures Valid()
      ensures ok == CanActivate(old(status)) && status == Next(old(status), Call.Activate)
      ensures settings == old(settings) && hasWidget == old(hasWidget)
      ensures !ok ==> syncTimer == old(syncTimer) && events == old(events)
                      && lastSyncTime == old(lastSyncTime) && reminders == old(reminders)
                      && published == old(published)
      ensures ok && settings.syncEnabled ==>
                && syncTimer == Some(Started(SyncPeriodMs(settings)))
                && events == SyncedEvents(now, midnight, settings)
                && lastSyncTime == Some(now)
                && published == old(published) + [events]
                && reminders == old(reminders) + RemindersSent(events, now, settings)
      ensures ok && !settings.syncEnabled ==>
                syncTimer == old(syncTimer) && events == old(events)
                && lastSyncTime == old(lastSyncTime) && reminders == old(reminders)
                && published == old(published)
    {
      if status != Initialized {
        return false;
      }
      if settings.syncEnabled {
        syncTimer := Some(Started(SyncPeriodMs(settings)));
        SyncCalendars(now, midnight);
      }
      status := Enabled;
      return true;
    }

    /** `deactivate`: from any status, stops the sync timer and ends DISABLED. */
    method Deactivate() returns (ok: bool)
      requires Valid()
      modifies this
      ensures Valid() && ok
      ensures status == Next(old(status), Call.Deactivate)
      ensures syncTimer.Some? == old(syncTimer).Some?
      ensures syncTimer.Some? ==> syncTimer.value == Stopped(old(syncTimer).value)
      ensures hasWidget == old(hasWidget) && settings == old(settings)
      ensures events == old(events) && lastSyncTime == old(lastSyncTime) && reminders == old(reminders)
      ensures published == old(published)
    {
      if syncTimer.Some? && syncTimer.value.active {
        syncTimer := Some(Stopped(syncTimer.value));
      }
      status := Disabled;
      return true;
    }

    /** `cleanup`: deactivates, drops the widget and the timer, and ends UNLOADED. */
    method Cleanup() returns (ok: bool)
      requires Valid()
      modifies this
      ensures Valid() && ok
      ensures status == Next(old(status), Call.Cleanup)
      ensures !hasWidget && syncTimer.None?
      ensures settings == old(settings)
      ensures events == old(events) && lastSyncTime == old(lastSyncTime) && reminders == old(reminders)
      ensures published == old(published)
    {
      var _ := Deactivate();
      hasWidget := false;
      syncTimer := None;
      status := Unloaded;
      return true;
    }

    /**
     * `sync_calendars`: fetch, filter and keep the events, record the time,
     * send the kept events to the display, check reminders.
     */
    method SyncCalendars(now: int, midnight: int)
      modifies this`events, this`lastSyncTime, this`reminders, this`published
      ensures events == SyncedEvents(now, midnight, settings)
      ensures lastSyncTime == Some(now)
      ensures published == old(published) + [events]
      ensures reminders == old(reminders) + RemindersSent(events, now, settings)
    {
      var fetched := GenerateSampleEvents(now, midnight);
      var shown := FilterEvents(fetched);
      assert shown == SyncedEvents(now, midnight, settings);
      events := shown;
      lastSyncTime := Some(now);
      published := published + [shown];
      CheckReminders(now);
    }

    /** `generate_sample_events`: each sample entry with its status at `now`, in order. */
    method GenerateSampleEvents(now: int, midnight: int) returns (generated: seq<Event>)
      ensures generated == SampleEvents(now, midnight)
    {
      var samples := SampleSchedule(now, midnight);
      generated := [];
      var i := 0;
      while i < |samples|
        invariant 0 <= i <= |samples|
        invariant generated == AnnotateAll(samples[..i], now)
      {
        assert samples[..i + 1][..i] == samples[..i];
        var x := samples[i];
        var status: EventStatus;
        if x.start <= now <= x.end {
          status := Ongoing;
        } else if x.start <= now + SoonWindow {
          status := Soon;
        } else {
          status := Upcoming;
        }
        generated := generated + [Event(x.title, x.start, x.end, x.allDay, status)];
        i := i + 1;
      }
      assert samples[..i] == samples;
    }

    /**
     * `filter_events`: drops all-day events when they are hidden, sorts the rest
     * stably by start time and keeps the first `show_upcoming_events` of them.
     */
    method FilterEvents(fetched: seq<Event>) returns (shown: seq<Event>)
      ensures shown == Shown(fetched, settings.showAllDayEvents, settings.showUpcomingEvents)
    {
      var filtered: seq<Event> := [];
      var i := 0;
      while i < |fetched|
        invariant 0 <= i <= |fetched|
        invariant filtered == Keep(fetched[..i], settings.showAllDayEvents)
      {
        var event := fetched[i];
        KeepStep(fetched, i, settings.showAllDayEvents);
        if !settings.showAllDayEvents && event.allDay {
          i := i + 1;
          continue;
        }
        filtered := filtered + [event];
        i := i + 1;
      }
      assert fetched[..i] == fetched;
      assert filtered == Keep(fetched, settings.showAllDayEvents);
      filtered := SortByStart(filtered);
      shown := Head(filtered, settings.showUpcomingEvents);
    }

    /**
     * `check_reminders`: while `event_reminder` is on, sends a reminder for each
     * kept event inside the window, in list order; nothing remembers earlier
     * passes, so the next pass sends the same reminders again.
     */
    method CheckReminders(now: int)
      modifies this`reminders
      ensures reminders == old(reminders) + RemindersSent(events, now, settings)
    {
      if !settings.eventReminder {
        return;
      }
      var i := 0;
      while i < |events|
        invariant 0 <= i <= |events|
        invariant reminders == old(reminders) + DueReminders(events[..i], now, settings.reminderMinutes)
      {
        assert events[..i + 1][..i] == events[..i];
        if Due(events[i], now, settings.reminderMinutes) {
          reminders := reminders + [events[i]];
        }
        i := i + 1;
      }
      assert events[..i] == events;
    }

    /** `get_settings`: the settings as a value; later updates do not reach a copy already returned. */
    method GetSettings() returns (s: Settings)
      ensures s == settings
    {
      s := settings;
    }

    /**
     * `update_settings`: merges the patch; only when `sync_enabled` or
     * `sync_interval` changed is the timer stopped and, if sync is now enabled,
     * restarted at the new period. Restarting needs a timer: without one the
     * call fails after the merge. An ENABLED plugin with sync enabled syncs again.
     */
    method UpdateSettings(patch: Patch, now: int, midnight: int) returns (ok: bool)
      requires Valid()
      modifies this
      ensures Valid()
      ensures settings == Merge(old(settings), patch)
      ensures status == old(status) && hasWidget == old(hasWidget)
      ensures var changed := settings.syncEnabled != old(settings).syncEnabled
                             || settings.syncInterval != old(settings).syncInterval;
              && ok == !(changed && settings.syncEnabled && old(syncTimer).None?)
              && (!changed ==> syncTimer == old(syncTimer))
              && (changed && ok && old(syncTimer).Some? ==>
                    syncTimer == Some(if settings.syncEnabled then Started(SyncPeriodMs(settings))
                                      else Stopped(old(syncTimer).value)))
              && (changed && old(syncTimer).None? ==> syncTimer.None?)
      ensures ok && status == Enabled && settings.syncEnabled ==>
                && events == SyncedEvents(now, midnight, settings)
                && lastSyncTime == Some(now)
                && published == old(published) + [events]
                && reminders == old(reminders) + RemindersSent(events, now, settings)
      ensures !(ok && status == Enabled && settings.syncEnabled) ==>
                events == old(events) && lastSyncTime == old(lastSyncTime) && reminders == old(reminders)
                && published == old(published)
    {
      var oldSyncEnabled := settings.syncEnabled;
      var oldSyncInterval := settings.syncInterval;
      settings := Merge(settings, patch);
      if settings.syncEnabled != oldSyncEnabled || settings.syncInterval != oldSyncInterval {
        if syncTimer.Some? {
          syncTimer := Some(Stopped(syncTimer.value));
        }
        if settings.syncEnabled {
          if syncTimer.None? {
            // `self.sync_timer.start(...)` on a missing timer raises; the call reports failure.
            return false;
          }
          syncTimer := Some(Started(SyncPeriodMs(settings)));
        }
      }
      if status == Enabled && settings.syncEnabled {
        SyncCalendars(now, midnight);
      }
      return true;
    }
  }
}
