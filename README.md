# TimeNest plugin cores in Dafny

A model of the four plugins of the TimeNest plugin store and the lifecycle they share, with proofs of what each plugin promises:

- **Lifecycle** (`lifecycle.dfy`). The plugin statuses LOADED, INITIALIZED, ENABLED, DISABLED, UNLOADED and ERROR, and how `initialize`, `activate`, `deactivate`, `cleanup` and `update_settings` move between them.
- **Timers** (`timers.dfy`) and **Patches** (`patches.dfy`). The periodic timer every plugin owns (active flag, period in milliseconds), and the shallow `dict.update` of a settings dictionary.
- **Pomodoro timer** (`pomodoro.dfy`). The work/break cycle engine of `PomodoroTimerPlugin`:
  - `reset_timer` and the one-second tick `update_timer`;
  - phase completion in `timer_finished`, with the choice between a short and a long break by `cycle_count % N`;
  - the guarded `start_timer` and `pause_timer`;
  - the status text and cycle index of `update_display`;
  - `update_settings`, which resets a stopped engine.
- **Calendar sync** (`calendar.dfy`). `CalendarSyncPlugin`:
  - event status classification (ongoing, soon, upcoming);
  - the sample event provider;
  - `filter_events`: the all-day filter, a stable sort by start time, and Python's `[:k]` slice;
  - the reminder window of `check_reminders`;
  - `sync_calendars`;
  - `update_settings`, which restarts the sync timer only when a sync setting changed.
- **Dark theme** (`dark_theme.dfy`). `DarkThemePlugin`:
  - the inclusive auto-switch time window, both the same-day case and the case that wraps past midnight;
  - the variant and accent fallback lookup of `apply_current_theme`;
  - `update_settings`, which starts or stops the once-a-minute timer only when `auto_switch` flips.
- **Weather** (`weather.dfy`). `WeatherEnhancedPlugin`: its lifecycle and `update_settings`, which merges the patch and re-periods the timer only when `update_interval` is in the patch.

## How the model is built

- Each plugin is a `class` with the plugin's own attributes as fields:
  - the status;
  - whether the widget exists;
  - the timer, as an `Option<Timer>` (`None` where the attribute is `None`);
  - the settings, as a typed record;
  - the plugin's own data.
- A settings dictionary is a record with one field per key. A patch is the same record with `Option` fields: `None` means the key is absent.
- A signal the source emits, or a notification it sends, is an entry appended to a log field:
  - Pomodoro `timer_updated` (from `update_display`): a `Display` in `displays`; `send_notification`: a notice in `notices`;
  - calendar `events_updated`: the event list in `published`; a reminder in `reminders`;
  - dark theme `theme_changed`, and the restores of the default theme: a theme action;
  - weather `weather_updated`: a reading in `published`.
- Each method ensures its new state equals a pure function of the old state. Examples: `Pomodoro.Reset`, `Pomodoro.Tick`, `Pomodoro.Finish`, `Calendar.SyncedEvents`, `DarkTheme.AutoSwitch`.
- What the source promises is proved about those functions as `ensures` clauses and lemmas. The class invariants (`Valid`) relate timers to settings. Example: a running sync timer implies sync is enabled and the period is `sync_interval*60*1000` ms.
- Inputs the source reads from the environment are parameters:
  - the current time (`now` and the start of the day, `midnight`, in whole seconds, for the calendar);
  - the time of day in microseconds (for the dark theme);
  - the random weather reading (limited to the ranges `update_weather` draws from).
- Where the code and the plugins' higher-level description differ, the model follows the code:
  - `activate` succeeds only from INITIALIZED. A DISABLED plugin must be initialised again before it can be re-enabled (`Lifecycle.ReenableNeedsInitialize`).
  - `deactivate` and `initialize` have no status guard. An UNLOADED plugin can be initialised again.
  - ERROR is assigned only in exception handlers, which the model does not take.
  - Phase completion happens on the tick *after* `time_left` reaches 0. A phase of `t` seconds takes `t + 1` ticks (`Pomodoro.PhaseEndsOnTickAfterZero`).
  - Pomodoro `update_settings` on a stopped engine resets it to a full work phase, even in the middle of a break.
  - An event that has already ended is classified "soon", because the second test looks only at the start (`Calendar.FinishedEventCountsAsSoon`).
  - The dark theme's `update_settings` starts the auto-switch timer when `auto_switch` is turned on, whatever the status. This includes a DISABLED plugin.

## Model

| member | source | states |
|---|---|---|
| Lifecycle.Next | plugins/pomodoro_timer/plugin.py:217-298 | `activate` leaves the status alone unless it is INITIALIZED. ENABLED is reached exactly by `activate` from INITIALIZED, or kept by `activate`/`update_settings` from ENABLED. INITIALIZED is reached exactly by `initialize` (or kept by `update_settings`). `deactivate` always ends DISABLED, `cleanup` always ends UNLOADED and `update_settings` never changes the status. No normal call produces ERROR. |
| Lifecycle.DormantWithoutInitialize | plugins/calendar_sync/plugin.py:220-280 | From LOADED, DISABLED, UNLOADED or ERROR, no sequence of calls without `initialize` reaches INITIALIZED or ENABLED. |
| Lifecycle.ReenableNeedsInitialize | plugins/pomodoro_timer/plugin.py:245-259 | Any call sequence that brings a DISABLED plugin back to ENABLED contains an `initialize`. |
| Lifecycle.EnabledOnlyThroughActivate | plugins/calendar_sync/plugin.py:220-237 | A plugin that becomes ENABLED does so through an `activate` issued while it was INITIALIZED. |
| Timers.Started | plugins/pomodoro_timer/plugin.py:304 | `start(ms)` leaves the timer active with period `ms`. |
| Timers.Stopped | plugins/pomodoro_timer/plugin.py:311 | `stop()` leaves the timer inactive and keeps its period. |
| Timers.Reinterval | plugins/weather_enhanced/plugin.py:263-265 | `setInterval(ms)` sets the period and does not change whether the timer runs. |
| Patches.Override | plugins/weather_enhanced/plugin.py:260 | Shallow update of one key: a patched key takes the patch's value, an absent key keeps the stored one. |
| Patches.OverrideThen | plugins/weather_enhanced/plugin.py:260 | Two updates in a row equal one update in which the later key wins; repeating an update changes nothing. |
| Pomodoro.Merge | plugins/pomodoro_timer/plugin.py:417 | The empty patch leaves the settings unchanged. |
| Pomodoro.MergeLaws | plugins/pomodoro_timer/plugin.py:417 | A patch applied twice acts once. Two patches in a row act as their combination, in which the later key wins. |
| Pomodoro.Announce | plugins/pomodoro_timer/plugin.py:397-404 | A notification is delivered, unchanged, iff `notification_enabled`. |
| Pomodoro.StopTimer | plugins/pomodoro_timer/plugin.py:316-317 | An existing timer is stopped with its period kept; a missing timer stays missing. |
| Pomodoro.LongBreakDue | plugins/pomodoro_timer/plugin.py:347 | Definition of the break choice: the break after completion number `c` is long iff `c % N == 0`. |
| Pomodoro.BreakMinutes | plugins/pomodoro_timer/plugin.py:344-354 | After the `c`-th completed work phase the break is the long one iff `c % N == 0`, else the short one. |
| Pomodoro.Reset | plugins/pomodoro_timer/plugin.py:314-326 | Stopped, work phase, `time_left == total_time == work_duration*60`. The cycle count is unchanged. The timer is stopped if present. The engine invariant holds. |
| Pomodoro.Start | plugins/pomodoro_timer/plugin.py:300-305 | A no-op when running; otherwise running with only the running flag and the timer changed; the invariant is preserved (the timer runs at 1000 ms). |
| Pomodoro.Pause | plugins/pomodoro_timer/plugin.py:307-312 | Not running afterwards. Countdown, phase and cycle count are kept. A no-op when already paused. The invariant is preserved, with the timer stopped. |
| Pomodoro.Finish | plugins/pomodoro_timer/plugin.py:337-378 | Work completion: count +1; break, long iff the new count `% N == 0`; `time_left == total_time ==` break minutes×60; the matching notice; running iff `auto_start_breaks`. Break completion: count kept; work phase of `work_duration*60`; running iff `auto_start_work`. The invariant holds afterwards. |
| Pomodoro.Tick | plugins/pomodoro_timer/plugin.py:328-335 | A tick never lowers the cycle count, never takes the countdown below 0, and preserves the engine invariant `0 <= time_left <= total_time` (running iff the 1000 ms timer is active). |
| Pomodoro.CountdownTicks | plugins/pomodoro_timer/plugin.py:330-332 | While time is left, `k` ticks lower `time_left` by exactly `k` and change nothing else. |
| Pomodoro.PhaseEndsOnTickAfterZero | plugins/pomodoro_timer/plugin.py:328-335 | After `t` ticks a phase with `t` seconds left sits at 0. The next tick completes it. |
| Pomodoro.CyclesCount | plugins/pomodoro_timer/plugin.py:341-344 | `k` full work+break cycles end in a work phase with the count raised by exactly `k`. |
| Pomodoro.BreakLengthAt | plugins/pomodoro_timer/plugin.py:344-354 | The `i`-th break of a run of cycles is the one chosen for completion number `count + i + 1`. |
| Pomodoro.LongBreakEveryNth | plugins/pomodoro_timer/plugin.py:347 | Counting on from a multiple of N, the long break is due after exactly N more completions and not before. |
| Pomodoro.BreakPattern | plugins/pomodoro_timer/plugin.py:344-354 | From a count that is a multiple of N, the next N breaks are N−1 short ones followed by one long one. |
| Pomodoro.DefaultFourCycles | plugins/pomodoro_timer/plugin.py:204-215 | With the default settings, four cycles from a fresh count take breaks of 300, 300, 300 and 900 seconds and count exactly 4 cycles. |
| Pomodoro.CycleIndex | plugins/pomodoro_timer/plugin.py:390-393 | The index is 0 before any completion and in 1..N afterwards. It is congruent to the count mod N. It equals N iff the count is a positive multiple of N. |
| Pomodoro.Shown | plugins/pomodoro_timer/plugin.py:380-395 | The status text names a work phase iff `is_work_time` and a running phase iff `is_running`. A break is labelled long iff `cycle_count % N == 0`. `time_left` and `total_time` are emitted unchanged. The emitted cycle is the cycle index, and N is emitted alongside it. |
| Pomodoro.DisplayNamesChosenBreak | plugins/pomodoro_timer/plugin.py:344-388 | Right after a work completion, the display shows a long break iff `timer_finished` chose a long break. |
| Pomodoro.PomodoroTimerPlugin.constructor | plugins/pomodoro_timer/plugin.py:185-215 | LOADED, no widget or timer, stopped work phase at 0 with count 0, default settings, nothing displayed. |
| Pomodoro.PomodoroTimerPlugin.Initialize | plugins/pomodoro_timer/plugin.py:217-243 | Widget and fresh timer created. The engine is `Reset`, and the reset state is displayed once. INITIALIZED. Returns true. |
| Pomodoro.PomodoroTimerPlugin.Activate | plugins/pomodoro_timer/plugin.py:245-259 | Returns true iff the status was INITIALIZED. The status becomes `Next(old, activate)`. The engine is unchanged. |
| Pomodoro.PomodoroTimerPlugin.Deactivate | plugins/pomodoro_timer/plugin.py:261-275 | From any status: timer stopped, not running, DISABLED, everything else kept. |
| Pomodoro.PomodoroTimerPlugin.Cleanup | plugins/pomodoro_timer/plugin.py:277-298 | Deactivated, widget and timer cleared, UNLOADED. |
| Pomodoro.PomodoroTimerPlugin.StartTimer | plugins/pomodoro_timer/plugin.py:300-305 | The new engine state is `Start` of the old one. The invariant is kept. |
| Pomodoro.PomodoroTimerPlugin.PauseTimer | plugins/pomodoro_timer/plugin.py:307-312 | The new engine state is `Pause` of the old one. The invariant is kept. |
| Pomodoro.PomodoroTimerPlugin.ResetTimer | plugins/pomodoro_timer/plugin.py:314-326 | The new engine state is `Reset` of the old one, and exactly that state is displayed once. Status, widget and settings are untouched. |
| Pomodoro.PomodoroTimerPlugin.UpdateTimer | plugins/pomodoro_timer/plugin.py:328-335 | The new engine state is `Tick` of the old one, and exactly that state is displayed once, whether the tick counted down or completed the phase. The invariant is kept. |
| Pomodoro.PomodoroTimerPlugin.TimerFinished | plugins/pomodoro_timer/plugin.py:337-378 | The new engine state is `Finish` of the old one, and that state is displayed once, after any automatic start. The invariant is kept. |
| Pomodoro.PomodoroTimerPlugin.NextPhase | plugins/pomodoro_timer/plugin.py:337-376 | The phase change of `timer_finished` without its display update: the engine becomes `Finish` of the old one and the invariant is kept. |
| Pomodoro.PomodoroTimerPlugin.UpdateDisplay | plugins/pomodoro_timer/plugin.py:380-395 | Appends exactly `Shown` of the current engine and settings to the display log. |
| Pomodoro.PomodoroTimerPlugin.SendNotification | plugins/pomodoro_timer/plugin.py:397-404 | Appends the notice iff `notification_enabled`. |
| Pomodoro.PomodoroTimerPlugin.GetSettings | plugins/pomodoro_timer/plugin.py:410-412 | Returns the settings as a value, so later updates do not reach the copy. |
| Pomodoro.PomodoroTimerPlugin.UpdateSettings | plugins/pomodoro_timer/plugin.py:414-428 | Settings become the shallow merge. A stopped engine is `Reset` under the new settings and displayed. A running engine is left exactly as it was, with nothing displayed. |
| Calendar.Classify | plugins/calendar_sync/plugin.py:356-361 | Ongoing iff start ≤ now ≤ end; soon iff not ongoing and start ≤ now + 30 min; upcoming iff neither. Exactly one holds. |
| Calendar.FinishedEventCountsAsSoon | plugins/calendar_sync/plugin.py:356-361 | An event that ended before `now` is classified soon. |
| Calendar.SampleSchedule | plugins/calendar_sync/plugin.py:314-341 | Three one-hour meetings starting 1, 3 and 5 hours after now, and an all-day event from midnight to 23:59:59. |
| Calendar.Annotate | plugins/calendar_sync/plugin.py:343-363 | An event keeps the sample's title, times and all-day flag, and has the status `Classify` gives at `now`. |
| Calendar.AnnotateAll | plugins/calendar_sync/plugin.py:343-365 | Every entry is annotated, in order, one event per entry. |
| Calendar.SampleEvents | plugins/calendar_sync/plugin.py:309-365 | There are exactly four sample events. |
| Calendar.SampleEventsAnnotated | plugins/calendar_sync/plugin.py:309-365 | The `i`-th sample event is the `i`-th sample entry annotated with its status at `now`. |
| Calendar.SampleEventStatuses | plugins/calendar_sync/plugin.py:336-361 | During the current day the three meetings are upcoming and the all-day event is ongoing. |
| Calendar.Keep | plugins/calendar_sync/plugin.py:371-376 | The filter never outputs more events than it is given. |
| Calendar.KeepMembers | plugins/calendar_sync/plugin.py:371-376 | Every output event comes from the input. No all-day event passes when they are hidden. Every other event passes. |
| Calendar.KeepSingleton | plugins/calendar_sync/plugin.py:372-376 | A single event is kept iff it is not an all-day event while those are hidden. |
| Calendar.KeepAppend | plugins/calendar_sync/plugin.py:371-376 | Filtering a concatenation filters each part and concatenates the results, so each kept occurrence appears once and the input order is kept. |
| Calendar.KeepStep | plugins/calendar_sync/plugin.py:371-376 | One loop step of the filter: the result for the first `i + 1` events is the result for the first `i` followed by event `i` unless it is a hidden all-day event. |
| Calendar.KeepIsSubmultiset | plugins/calendar_sync/plugin.py:371-376 | The filter output is a sub-multiset of its input. |
| Calendar.KeepAllWhenShown | plugins/calendar_sync/plugin.py:373 | With all-day events shown, the filter keeps the list unchanged. |
| Calendar.Insert | plugins/calendar_sync/plugin.py:379 | Insertion adds exactly one element and no others. |
| Calendar.InsertSorted | plugins/calendar_sync/plugin.py:379 | Insertion into a list sorted by start keeps it sorted. |
| Calendar.InsertPermutes | plugins/calendar_sync/plugin.py:379 | Insertion adds exactly one occurrence of the inserted event. |
| Calendar.SortByStart | plugins/calendar_sync/plugin.py:379 | The sort result is ordered by start time, has the input's length and holds the input's events. |
| Calendar.SortPermutes | plugins/calendar_sync/plugin.py:379 | The sort result is a permutation of the input. |
| Calendar.InsertKeepsTies | plugins/calendar_sync/plugin.py:379 | Insertion keeps the relative order of events with equal start times. |
| Calendar.SortIsStable | plugins/calendar_sync/plugin.py:379 | The sort is stable: events with the same start time keep their input order. |
| Calendar.Head | plugins/calendar_sync/plugin.py:382-383 | Python `s[:k]`: the prefix of length `min(k, len)` for `k ≥ 0`, of length `max(len + k, 0)` for `k < 0`. |
| Calendar.Shown | plugins/calendar_sync/plugin.py:367-383 | Definition of what `filter_events` returns: the first `show_upcoming_events` of the stably sorted, all-day-filtered events. |
| Calendar.ShownProperties | plugins/calendar_sync/plugin.py:367-383 | The filter output is sorted by start, no longer than `show_upcoming_events`, drawn from the input, and free of all-day events when they are hidden. |
| Calendar.SortedSamples | plugins/calendar_sync/plugin.py:309-379 | Sorting the sample events puts the all-day event first, then the meetings in order. |
| Calendar.DefaultSyncShows | plugins/calendar_sync/plugin.py:164-193 | With the default settings a sync keeps the all-day event and the first two meetings. |
| Calendar.Due | plugins/calendar_sync/plugin.py:396-399 | Definition of the window test: 0 ≤ start − now ≤ `reminder_minutes`×60 s. |
| Calendar.DueReminders | plugins/calendar_sync/plugin.py:393-400 | An event is reminded iff it is in the list and due, and there are no more reminders than events. |
| Calendar.DueRemindersSingleton | plugins/calendar_sync/plugin.py:393-400 | A single event gets one reminder iff it is due, and none otherwise. |
| Calendar.DueRemindersAppend | plugins/calendar_sync/plugin.py:393-400 | The reminders for a concatenation are those of the first part followed by those of the second: one reminder per due occurrence, in list order. |
| Calendar.NoReminderOutsideWindow | plugins/calendar_sync/plugin.py:396-399 | No reminder goes out for an event that has started or starts beyond the window. |
| Calendar.Merge | plugins/calendar_sync/plugin.py:431 | The empty patch leaves the settings unchanged. |
| Calendar.MergeLaws | plugins/calendar_sync/plugin.py:431 | A patch applied twice acts once. Two patches in a row act as their combination, in which the later key wins. |
| Calendar.SyncedEvents | plugins/calendar_sync/plugin.py:282-298 | Definition of the events a sync keeps: `filter_events` applied to the sample events under the current settings. |
| Calendar.RemindersSent | plugins/calendar_sync/plugin.py:385-400 | No reminders when `event_reminder` is off; otherwise the due ones. |
| Calendar.CalendarSyncPlugin.constructor | plugins/calendar_sync/plugin.py:164-193 | LOADED, no widget, timer or events, never synced, nothing published, default settings. |
| Calendar.CalendarSyncPlugin.Initialize | plugins/calendar_sync/plugin.py:195-218 | Widget and an idle sync timer created. INITIALIZED. |
| Calendar.CalendarSyncPlugin.Activate | plugins/calendar_sync/plugin.py:220-242 | Refused with nothing changed unless INITIALIZED. With sync enabled: timer started at `sync_interval*60*1000` ms and one sync performed, publishing the events once. ENABLED. |
| Calendar.CalendarSyncPlugin.Deactivate | plugins/calendar_sync/plugin.py:244-257 | From any status: timer stopped, DISABLED. |
| Calendar.CalendarSyncPlugin.Cleanup | plugins/calendar_sync/plugin.py:259-280 | Deactivated, widget and timer cleared, UNLOADED. |
| Calendar.CalendarSyncPlugin.SyncCalendars | plugins/calendar_sync/plugin.py:282-307 | The events become the filtered sample events and are published once. The last sync time is now. The due reminders are appended. |
| Calendar.CalendarSyncPlugin.GenerateSampleEvents | plugins/calendar_sync/plugin.py:309-365 | The loop's result equals `SampleEvents`. |
| Calendar.CalendarSyncPlugin.FilterEvents | plugins/calendar_sync/plugin.py:367-383 | The loop's result is the first `show_upcoming_events` of the stably sorted, all-day-filtered input. |
| Calendar.CalendarSyncPlugin.CheckReminders | plugins/calendar_sync/plugin.py:385-403 | The reminder log grows by exactly `RemindersSent`; nothing is de-duplicated across calls. |
| Calendar.CalendarSyncPlugin.GetSettings | plugins/calendar_sync/plugin.py:421-423 | Returns the settings as a value. |
| Calendar.CalendarSyncPlugin.UpdateSettings | plugins/calendar_sync/plugin.py:425-453 | Settings merged. The timer is untouched unless `sync_enabled` or `sync_interval` changed. On a change it is stopped, then restarted at the new period iff sync is enabled. Fails, after the merge, iff a restart is needed and there is no timer. Re-syncs iff it succeeded, the plugin is ENABLED and sync is enabled. |
| DarkTheme.Clock | plugins/dark_theme/plugin.py:352-353 | The time of day for `HH:MM` reads back as hour `HH` and minute `MM`, at second and microsecond zero, as `time.fromisoformat` parses it. |
| DarkTheme.InDarkWindow | plugins/dark_theme/plugin.py:356-361 | Definition of the window test: `start <= now <= end` when start ≤ end, otherwise `now >= start or now <= end`, both ends included. |
| DarkTheme.WindowIsArc | plugins/dark_theme/plugin.py:356-361 | Both cases of the window test agree with "going forward from the start, now comes no later than the end". |
| DarkTheme.WrappedWindowIsComplement | plugins/dark_theme/plugin.py:359-361 | When start > end, the window is everything outside the open gap end < now < start. |
| DarkTheme.WindowHoldsItsEnds | plugins/dark_theme/plugin.py:356-361 | Both bounds lie in the window (it is inclusive). |
| DarkTheme.DefaultWindowIsOvernight | plugins/dark_theme/plugin.py:45-46 | With the default bounds the dark theme holds from 18:00 through 06:00. |
| DarkTheme.ThemesDefineThemeKeys | plugins/dark_theme/plugin.py:52-89 | Every variant defines the same seven keys, none of them `accent`. `midnight` is a variant. |
| DarkTheme.ResolveVariant | plugins/dark_theme/plugin.py:185-187 | A known variant is used as is; an unknown one falls back to `midnight`. |
| DarkTheme.Accent | plugins/dark_theme/plugin.py:190 | A known accent name gives its colour; an unknown one gives `#3b82f6`. |
| DarkTheme.UnknownAccentIsBlue | plugins/dark_theme/plugin.py:92-98 | An unknown accent looks exactly like `blue`. |
| DarkTheme.ResolveTheme | plugins/dark_theme/plugin.py:189-190 | The theme data is the resolved variant's entries, unchanged, plus an `accent` key with the resolved accent. |
| DarkTheme.CurrentTheme | plugins/dark_theme/plugin.py:179-204 | The action applies a theme: the variant emitted is `ResolveVariant` of the configured one (itself when known, else `midnight`), and the data is `ResolveTheme` of the configured variant and accent. |
| DarkTheme.Merge | plugins/dark_theme/plugin.py:386 | The empty patch leaves the settings unchanged. |
| DarkTheme.MergeLaws | plugins/dark_theme/plugin.py:386 | A patch applied twice acts once. Two patches in a row act as their combination, in which the later key wins. |
| DarkTheme.AutoSwitch | plugins/dark_theme/plugin.py:345-371 | Nothing while `auto_switch` is off. Otherwise exactly one action: the current theme iff inside the window, else a restore. |
| DarkTheme.DarkThemePlugin.constructor | plugins/dark_theme/plugin.py:29-98 | LOADED, no timer, default settings, no theme action. |
| DarkTheme.DarkThemePlugin.Initialize | plugins/dark_theme/plugin.py:100-121 | A new timer, running at 60000 ms iff `auto_switch`. INITIALIZED. |
| DarkTheme.DarkThemePlugin.Activate | plugins/dark_theme/plugin.py:123-140 | Refused with nothing changed unless INITIALIZED. Otherwise applies the current theme and becomes ENABLED. |
| DarkTheme.DarkThemePlugin.Deactivate | plugins/dark_theme/plugin.py:142-158 | From any status: timer stopped, default theme restored, DISABLED. |
| DarkTheme.DarkThemePlugin.Cleanup | plugins/dark_theme/plugin.py:160-177 | Deactivated, timer cleared, UNLOADED. |
| DarkTheme.DarkThemePlugin.ApplyCurrentTheme | plugins/dark_theme/plugin.py:179-204 | Records `CurrentTheme` of the settings. |
| DarkTheme.DarkThemePlugin.CheckAutoSwitch | plugins/dark_theme/plugin.py:345-371 | Records exactly `AutoSwitch(settings, now)`. |
| DarkTheme.DarkThemePlugin.GetSettings | plugins/dark_theme/plugin.py:378-380 | Returns the settings as a value. |
| DarkTheme.DarkThemePlugin.UpdateSettings | plugins/dark_theme/plugin.py:382-406 | Settings merged. The timer is started at 60000 ms iff `auto_switch` turned on, stopped iff it turned off, and untouched otherwise. The theme is re-applied iff ENABLED. |
| Weather.Merge | plugins/weather_enhanced/plugin.py:260 | The empty patch leaves the settings unchanged. |
| Weather.MergeLaws | plugins/weather_enhanced/plugin.py:260 | The empty patch changes nothing. A patch applied twice acts once. Two patches act as their combination. |
| Weather.WeatherEnhancedPlugin.constructor | plugins/weather_enhanced/plugin.py:115-138 | LOADED, no widget, timer or reading, default settings. |
| Weather.WeatherEnhancedPlugin.Initialize | plugins/weather_enhanced/plugin.py:140-163 | Widget and an idle timer created. INITIALIZED. |
| Weather.WeatherEnhancedPlugin.Activate | plugins/weather_enhanced/plugin.py:165-186 | Refused with nothing changed unless INITIALIZED. Otherwise the timer is started at `update_interval*1000` ms, the reading is kept and published, and the plugin is ENABLED. |
| Weather.WeatherEnhancedPlugin.Deactivate | plugins/weather_enhanced/plugin.py:188-201 | From any status: timer stopped, DISABLED. |
| Weather.WeatherEnhancedPlugin.Cleanup | plugins/weather_enhanced/plugin.py:203-224 | Deactivated, widget and timer cleared, UNLOADED. |
| Weather.WeatherEnhancedPlugin.UpdateWeather | plugins/weather_enhanced/plugin.py:226-247 | The reading becomes current and is published. |
| Weather.WeatherEnhancedPlugin.GetSettings | plugins/weather_enhanced/plugin.py:253-255 | Returns the settings as a value. |
| Weather.WeatherEnhancedPlugin.UpdateSettings | plugins/weather_enhanced/plugin.py:257-276 | Settings merged. Only when `update_interval` is in the patch does an existing timer get the new period, without starting or stopping it. A reading already held is published again. |

## Left out

- Qt widgets, layouts and styles (`PomodoroWidget`, `CalendarWidget`, `EventWidget`, `WeatherWidget`): user interface with no state beyond what `Pomodoro.Shown` captures.
- The widget-side handlers of the signals are not modelled; the model records what is emitted, in order. The sync status text that calendar `events_updated` carries is formatted from the clock and is not recorded.
- Logger calls (`self.logger.info`, `self.logger.error`): diagnostics with no effect on the plugin state.
- `generate_stylesheet`, `apply_theme_to_app` and `restore_default_theme`: string templating and probing of the host. A theme action records the variant and data that would be applied.
- `get_widget`, `get_info`, `get_available_themes` and `get_available_accent_colors`: they return fixed data or attributes and make no decision.
- Exception handlers: the only failure modelled is calendar `update_settings` needing to restart a missing timer. The ERROR status, set only in handlers, is never reached.
- Pomodoro.PomodoroTimerPlugin.StartTimer: requires a timer. Without one the source raises inside `start_timer`, an exception path.
- Pomodoro.Settings: durations are naturals and `cycles_before_long_break` is at least 1. A zero N would raise `ZeroDivisionError`; negative durations would break `0 <= time_left`.
- Calendar.Settings, Weather.Settings: `sync_interval` and `update_interval` are naturals, though the source stores whatever integer the caller's dictionary holds. A negative value would be handed to the Qt timer as a negative period, which the model does not capture.
- Extra keys a caller may add to a settings dictionary: settings are typed records with exactly the default keys. For the same reason `settings.get('update_interval', 300)` is the stored value.
- Clock reads, `strftime` and `time.fromisoformat`: times are parameters. Calendar times are whole seconds, so sub-second offsets from `datetime.now()` are not modelled. The several clock reads of one sync are one `now`. The dark theme's bounds are stored already parsed.
- Weather readings are drawn at random by the source: here they are parameters within the drawn ranges. The Fahrenheit conversion (floating point) is not modelled.
- A restarted Qt timer restarts its period; the model keeps only the active flag and the period, not the time elapsed within a period.
- Replacing a timer in a second `initialize` drops the old timer object. Whether Qt keeps that orphaned timer running is not modelled.
- build_releases.py is not part of this model: packaging scripts with file I/O and hashing.
