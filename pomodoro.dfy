/**
 * The work/break cycle timer plugin (PomodoroTimerPlugin).
 *
 * The engine's state is a handful of integers and booleans that the plugin's
 * methods update in place; each method is proved against a function of the old
 * state (`Reset`, `Start`, `Pause`, `Tick`, `Finish`), and what the plugin
 * promises is proved about those functions: the invariant `Inv`, the countdown,
 * the choice between a short and a long break, and the displayed cycle index.
 */
module Pomodoro {
  import opened Lifecycle
  import opened Timers
  import opened Patches

  /** `cycles_before_long_break`, the divisor of `cycle_count % N`. */
  type Cycles = n: int | n >= 1 witness 1

  /** The plugin's settings dictionary; durations are in minutes. */
  datatype Settings = Settings(
    workDuration: nat,
    shortBreak: nat,
    longBreak: nat,
    cyclesBeforeLongBreak: Cycles,
    autoStartBreaks: bool,
    autoStartWork: bool,
    soundEnabled: bool,
    notificationEnabled: bool,
    showInFloating: bool)

  const DefaultSettings := Settings(25, 5, 15, 4, false, false, true, true, true)

  /** A settings patch: `None` is a key absent from the dictionary passed to `update_settings`. */
  datatype Patch = Patch(
    workDuration: Option<nat>,
    shortBreak: Option<nat>,
    longBreak: Option<nat>,
    cyclesBeforeLongBreak: Option<Cycles>,
    autoStartBreaks: Option<bool>,
    autoStartWork: Option<bool>,
    soundEnabled: Option<bool>,
    notificationEnabled: Option<bool>,
    showInFloating: Option<bool>)

  const EmptyPatch := Patch(None, None, None, None, None, None, None, None, None)

  /** `settings.update(patch)`: a shallow merge, key by key. */
  function Merge(s: Settings, p: Patch): (r: Settings)
    ensures p == EmptyPatch ==> r == s
  {
    Settings(
      Override(s.workDuration, p.workDuration),
      Override(s.shortBreak, p.shortBreak),
      Override(s.longBreak, p.longBreak),
      Override(s.cyclesBeforeLongBreak, p.cyclesBeforeLongBreak),
      Override(s.autoStartBreaks, p.autoStartBreaks),
      Override(s.autoStartWork, p.autoStartWork),
      Override(s.soundEnabled, p.soundEnabled),
      Override(s.notificationEnabled, p.notificationEnabled),
      Override(s.showInFloating, p.showInFloating))
  }

  /** A patch followed by a second one: the second's keys win. */
  function Combine(first: Patch, second: Patch): Patch
  {
    Patch(
      Then(first.workDuration, second.workDuration),
      Then(first.shortBreak, second.shortBreak),
      Then(first.longBreak, second.longBreak),
      Then(first.cyclesBeforeLongBreak, second.cyclesBeforeLongBreak),
      Then(first.autoStartBreaks, second.autoStartBreaks),
      Then(first.autoStartWork, second.autoStartWork),
      Then(first.soundEnabled, second.soundEnabled),
      Then(first.notificationEnabled, second.notificationEnabled),
      Then(first.showInFloating, second.showInFloating))
  }

  /** The merge is shallow: a patch applied twice acts once, and two patches in a row act as their combination. */
  lemma MergeLaws(s: Settings, p: Patch, q: Patch)
    ensures Merge(Merge(s, p), p) == Merge(s, p)
    ensures Merge(Merge(s, p), q) == Merge(s, Combine(p, q))
  {
    OverrideThen(s.workDuration, p.workDuration, q.workDuration);
    OverrideThen(s.shortBreak, p.shortBreak, q.shortBreak);
    OverrideThen(s.longBreak, p.longBreak, q.longBreak);
    OverrideThen(s.cyclesBeforeLongBreak, p.cyclesBeforeLongBreak, q.cyclesBeforeLongBreak);
    OverrideThen(s.autoStartBreaks, p.autoStartBreaks, q.autoStartBreaks);
    OverrideThen(s.autoStartWork, p.autoStartWork, q.autoStartWork);
    OverrideThen(s.soundEnabled, p.soundEnabled, q.soundEnabled);
    OverrideThen(s.notificationEnabled, p.notificationEnabled, q.notificationEnabled);
    OverrideThen(s.showInFloating, p.showInFloating, q.showInFloating);
  }

  /** What `send_notification` reports at the end of a phase. */
  datatype Notice = WorkFinished(longBreak: bool) | BreakFinished

  /** A notification is delivered only while `notification_enabled` is set. */
  function Announce(s: Settings, n: Notice): (r: seq<Notice>)
    ensures r == [] || r == [n]
    ensures r != [] <==> s.notificationEnabled
  {
    if s.notificationEnabled then [n] else []
  }

  /**
   * The engine's state: the plugin's `is_running`, `is_work_time`, `time_left`
   * and `total_time` (seconds), `cycle_count`, its one-second timer (`None`
   * before `initialize` and after `cleanup`) and the notifications sent so far.
   */
  datatype Engine = Engine(
    isRunning: bool,
    isWorkTime: bool,
    timeLeft: int,
    totalTime: int,
    cycleCount: nat,
    timer: Option<Timer>,
    notices: seq<Notice>)

  /** The engine's timer ticks once a second. */
  const TickMs := 1000

  /**
   * The engine invariant: the countdown lies within the phase length, and the
   * engine counts as running exactly when its timer is active, at one tick per second.
   */
  predicate Inv(e: Engine)
  {
    && 0 <= e.timeLeft <= e.totalTime
    && (e.isRunning <==> e.timer.Some? && e.timer.value.active)
    && (e.isRunning ==> e.timer.value.intervalMs == TickMs)
  }

  /** `if self.timer: self.timer.stop()` */
  function StopTimer(t: Option<Timer>): (r: Option<Timer>)
    ensures r.Some? == t.Some?
    ensures r.Some? ==> !r.value.active && r.value.intervalMs == t.value.intervalMs
  {
    if t.Some? then Some(Stopped(t.value)) else None
  }

  /** Whether the break after the `count`-th completed work phase is a long one. */
  predicate LongBreakDue(count: nat, n: Cycles)
  {
    count % n == 0
  }

  /** The length in minutes of the break after the `count`-th completed work phase. */
  function BreakMinutes(count: nat, s: Settings): (m: nat)
    ensures m == s.longBreak || m == s.shortBreak
    ensures LongBreakDue(count, s.cyclesBeforeLongBreak) ==> m == s.longBreak
    ensures !LongBreakDue(count, s.cyclesBeforeLongBreak) ==> m == s.shortBreak
  {
    if LongBreakDue(count, s.cyclesBeforeLongBreak) then s.longBreak else s.shortBreak
  }

  /** `reset_timer`: back to a stopped work phase of full length; the cycle count is kept. */
  function Reset(e: Engine, s: Settings): (r: Engine)
    ensures !r.isRunning && r.isWorkTime
    ensures r.timeLeft == r.totalTime == s.workDuration * 60
    ensures r.cycleCount == e.cycleCount && r.notices == e.notices
    ensures r.timer.Some? == e.timer.Some?
    ensures r.timer.Some? ==> !r.timer.value.active
    ensures Inv(r)
  {
    Engine(false, true, s.workDuration * 60, s.workDuration * 60, e.cycleCount, StopTimer(e.timer), e.notices)
  }

  /** `start_timer`: a no-op when running; otherwise the one-second timer is started. */
  function Start(e: Engine): (r: Engine)
    requires e.timer.Some?
    ensures r.isRunning
    ensures e.isRunning ==> r == e
    ensures r.(isRunning := e.isRunning, timer := e.timer) == e
    ensures r.timer.Some?
    ensures Inv(e) ==> Inv(r)
  {
    if e.isRunning then e else e.(isRunning := true, timer := Some(Started(TickMs)))
  }

  /** `pause_timer`: stops the timer and keeps the countdown, the phase and the cycle count. */
  function Pause(e: Engine): (r: Engine)
    requires e.isRunning ==> e.timer.Some?
    ensures !r.isRunning
    ensures !e.isRunning ==> r == e
    ensures r.(isRunning := e.isRunning, timer := e.timer) == e
    ensures Inv(e) ==> Inv(r) && (r.timer.Some? ==> !r.timer.value.active)
  {
    if e.isRunning then e.(isRunning := false, timer := Some(Stopped(e.timer.value))) else e
  }

  /**
   * `timer_finished`: the end of a phase. A completed work phase counts one more
   * cycle and is followed by a long break exactly when the new count is a
   * multiple of N, else by a short one; a completed break is followed by a work
   * phase and leaves the count alone. The new phase starts at full length and
   * runs on its own only if the matching `auto_start_*` setting is set.
   */
  function Finish(e: Engine, s: Settings): (r: Engine)
    requires e.timer.Some?
    ensures e.isWorkTime ==> && r.cycleCount == e.cycleCount + 1
                             && !r.isWorkTime
                             && r.totalTime == BreakMinutes(r.cycleCount, s) * 60
                             && r.notices == e.notices + Announce(s, WorkFinished(LongBreakDue(r.cycleCount, s.cyclesBeforeLongBreak)))
                             && r.isRunning == s.autoStartBreaks
    ensures !e.isWorkTime ==> && r.cycleCount == e.cycleCount
                              && r.isWorkTime
                              && r.totalTime == s.workDuration * 60
                              && r.notices == e.notices + Announce(s, BreakFinished)
                              && r.isRunning == s.autoStartWork
    ensures r.timeLeft == r.totalTime
    ensures r.timer.Some?
    ensures Inv(r)
  {
    var halted := e.(isRunning := false, timer := Some(Stopped(e.timer.value)));
    if e.isWorkTime then
      var count := e.cycleCount + 1;
      var long := LongBreakDue(count, s.cyclesBeforeLongBreak);
      var length := (if long then s.longBreak else s.shortBreak) * 60;
      var resting := halted.(cycleCount := count, timeLeft := length, isWorkTime := false, totalTime := length,
                             notices := e.notices + Announce(s, WorkFinished(long)));
      if s.autoStartBreaks then Start(resting) else resting
    else
      var length := s.workDuration * 60;
      var working := halted.(timeLeft := length, totalTime := length, isWorkTime := true,
                             notices := e.notices + Announce(s, BreakFinished));
      if s.autoStartWork then Start(working) else working
  }

  /**
   * `update_timer`, one tick: count down while time is left; a tick that finds
   * no time left completes the phase instead, so the countdown never goes below zero.
   */
  function Tick(e: Engine, s: Settings): (r: Engine)
    requires e.timer.Some?
    ensures r.timer.Some?
    ensures r.cycleCount >= e.cycleCount
    ensures e.timeLeft >= 0 ==> r.timeLeft >= 0
    ensures Inv(e) ==> Inv(r)
  {
    if e.timeLeft > 0 then e.(timeLeft := e.timeLeft - 1) else Finish(e, s)
  }

  /** The state after `k` ticks. */
  function Ticks(e: Engine, s: Settings, k: nat): (r: Engine)
    requires e.timer.Some?
    ensures r.timer.Some?
  {
    if k == 0 then e else Tick(Ticks(e, s, k - 1), s)
  }

  /** While time is left, each tick takes exactly one second off the countdown and changes nothing else. */
  lemma {:induction false} CountdownTicks(e: Engine, s: Settings, k: nat)
    requires e.timer.Some?
    requires k <= e.timeLeft
    ensures Ticks(e, s, k) == e.(timeLeft := e.timeLeft - k)
  {
    if k > 0 {
      CountdownTicks(e, s, k - 1);
    }
  }

  /**
   * A phase with `t` seconds left is still running, at zero, after `t` ticks;
   * it completes on the tick after that, so a phase of `t` seconds lasts `t + 1` ticks.
   */
  lemma PhaseEndsOnTickAfterZero(e: Engine, s: Settings)
    requires e.timer.Some?
    requires e.timeLeft >= 0
    ensures Ticks(e, s, e.timeLeft) == e.(timeLeft := 0)
    ensures Ticks(e, s, e.timeLeft + 1) == Finish(e.(timeLeft := 0), s)
  {
    CountdownTicks(e, s, e.timeLeft);
  }

  /** One full cycle from a work phase: the work phase completes, then the break after it. */
  function Cycle(e: Engine, s: Settings): (r: Engine)
    requires e.timer.Some?
    ensures r.timer.Some?
  {
    Finish(Finish(e, s), s)
  }

  /** The state after `k` full cycles. */
  function RunCycles(e: Engine, s: Settings, k: nat): (r: Engine)
    requires e.timer.Some?
    ensures r.timer.Some?
    decreases k
  {
    if k == 0 then e else RunCycles(Cycle(e, s), s, k - 1)
  }

  /** The lengths in seconds of the breaks taken during `k` full cycles. */
  function BreakLengths(e: Engine, s: Settings, k: nat): (r: seq<int>)
    requires e.timer.Some?
    ensures |r| == k
    decreases k
  {
    if k == 0 then [] else [Finish(e, s).totalTime] + BreakLengths(Cycle(e, s), s, k - 1)
  }

  /** `k` full cycles from a work phase end in a work phase with exactly `k` more cycles counted. */
  lemma {:induction false} CyclesCount(e: Engine, s: Settings, k: nat)
    requires e.timer.Some? && e.isWorkTime
    ensures RunCycles(e, s, k).isWorkTime
    ensures RunCycles(e, s, k).cycleCount == e.cycleCount + k
    decreases k
  {
    if k > 0 {
      CyclesCount(Cycle(e, s), s, k - 1);
    }
  }

  /** The `i`-th break taken from a work phase follows the `(count + i + 1)`-th completed work phase. */
  lemma {:induction false} BreakLengthAt(e: Engine, s: Settings, k: nat, i: nat)
    requires e.timer.Some? && e.isWorkTime
    requires i < k
    ensures BreakLengths(e, s, k)[i] == BreakMinutes(e.cycleCount + i + 1, s) * 60
    decreases k
  {
    if i > 0 {
      BreakLengthAt(Cycle(e, s), s, k - 1, i - 1);
    }
  }

  /** A positive multiple of `n` is at least `n`. */
  lemma {:induction false} MultipleAtLeast(a: int, n: int)
    requires a >= 1 && n >= 1
    ensures a * n >= n
    decreases a
  {
    if a > 1 {
      MultipleAtLeast(a - 1, n);
      assert a * n == (a - 1) * n + n;
    }
  }

  /** The remainder of `q * n + r` is `r` whenever `0 <= r < n`. */
  lemma ModOfMultiplePlus(q: int, n: int, r: int)
    requires n >= 1 && 0 <= r < n
    ensures (q * n + r) % n == r
  {
    var x := q * n + r;
    var q', r' := x / n, x % n;
    assert x == q' * n + r';
    var d := q - q';
    assert d * n == q * n - q' * n;
    assert d * n == r' - r;
    if d >= 1 {
      MultipleAtLeast(d, n);
    } else if d <= -1 {
      MultipleAtLeast(-d, n);
    }
  }

  /** Counting on from a multiple of N, the next long break is due after exactly N more completions. */
  lemma LongBreakEveryNth(c: nat, n: Cycles, i: nat)
    requires c % n == 0
    requires 1 <= i <= n
    ensures LongBreakDue(c + i, n) <==> i == n
  {
    var q := c / n;
    assert c == q * n;
    if i < n {
      ModOfMultiplePlus(q, n, i);
    } else {
      ModOfMultiplePlus(q + 1, n, 0);
      assert (q + 1) * n == c + i;
    }
  }

  /**
   * Starting at a work phase whose count is a multiple of N, the next N breaks
   * are N - 1 short ones followed by one long one.
   */
  lemma BreakPattern(e: Engine, s: Settings)
    requires e.timer.Some? && e.isWorkTime
    requires e.cycleCount % s.cyclesBeforeLongBreak == 0
    ensures forall i :: 0 <= i < s.cyclesBeforeLongBreak - 1 ==>
              BreakLengths(e, s, s.cyclesBeforeLongBreak)[i] == s.shortBreak * 60
    ensures BreakLengths(e, s, s.cyclesBeforeLongBreak)[s.cyclesBeforeLongBreak - 1] == s.longBreak * 60
  {
    var n := s.cyclesBeforeLongBreak;
    forall i | 0 <= i < n
      ensures BreakLengths(e, s, n)[i] == (if i + 1 == n then s.longBreak else s.shortBreak) * 60
    {
      BreakLengthAt(e, s, n, i);
      LongBreakEveryNth(e.cycleCount, n, i + 1);
    }
  }

  /**
   * With the default settings (25/5/15 minutes, N = 4), four cycles from a fresh
   * count take breaks of 5, 5, 5 and 15 minutes and count four cycles.
   */
  lemma DefaultFourCycles(e: Engine)
    requires e.timer.Some? && e.isWorkTime && e.cycleCount == 0
    ensures BreakLengths(e, DefaultSettings, 4) == [300, 300, 300, 900]
    ensures RunCycles(e, DefaultSettings, 4).cycleCount == 4
  {
    BreakPattern(e, DefaultSettings);
    CyclesCount(e, DefaultSettings, 4);
  }

  /**
   * The cycle number shown by `update_display`: `cycle_count % N`, shown as N
   * instead of 0 once a cycle has completed. It is 0 before the first completed
   * work phase and lies in 1..N afterwards, agreeing with the count modulo N.
   */
  function CycleIndex(count: nat, n: Cycles): (idx: nat)
    ensures count == 0 ==> idx == 0
    ensures count > 0 ==> 1 <= idx <= n
    ensures idx % n == count % n
    ensures idx == n <==> count > 0 && count % n == 0
  {
    var c := count % n;
    if c == 0 && count > 0 then n else c
  }

  /** The status text chosen by `update_display`. */
  datatype Label = Working | ReadyToWork | OnLongBreak | ReadyForLongBreak | OnShortBreak | ReadyForShortBreak

  /** What `update_display` emits: status, `time_left`, `total_time`, cycle index and N. */
  datatype Display = Display(status: Label, timeLeft: int, totalTime: int, cycle: nat, maxCycles: Cycles)

  function Shown(e: Engine, s: Settings): (d: Display)
    ensures (d.status == Working || d.status == ReadyToWork) <==> e.isWorkTime
    ensures (d.status == Working || d.status == OnLongBreak || d.status == OnShortBreak) <==> e.isRunning
    ensures d.cycle == CycleIndex(e.cycleCount, s.cyclesBeforeLongBreak) && d.maxCycles == s.cyclesBeforeLongBreak
    ensures e.cycleCount > 0 ==> 1 <= d.cycle <= d.maxCycles
    ensures d.timeLeft == e.timeLeft && d.totalTime == e.totalTime
    ensures !e.isWorkTime ==>
              ((d.status == OnLongBreak || d.status == ReadyForLongBreak) <==>
               LongBreakDue(e.cycleCount, s.cyclesBeforeLongBreak))
  {
    var n := s.cyclesBeforeLongBreak;
    var text :=
      if e.isWorkTime then (if e.isRunning then Working else ReadyToWork)
      else if LongBreakDue(e.cycleCount, n) then (if e.isRunning then OnLongBreak else ReadyForLongBreak)
      else (if e.isRunning then OnShortBreak else ReadyForShortBreak);
    Display(text, e.timeLeft, e.totalTime, CycleIndex(e.cycleCount, n), n)
  }

  /**
   * Right after a work phase completes, the display names the kind of break
   * that `timer_finished` chose.
   */
  lemma DisplayNamesChosenBreak(e: Engine, s: Settings)
    requires e.timer.Some? && e.isWorkTime
    ensures var r := Finish(e, s);
            var l := Shown(r, s).status;
            (l == OnLongBreak || l == ReadyForLongBreak) <==> LongBreakDue(r.cycleCount, s.cyclesBeforeLongBreak)
  {
  }

  class PomodoroTimerPlugin {
    var status: Status
    var hasWidget: bool
    var timer: Option<Timer>
    var isRunning: bool
    var isWorkTime: bool
    var timeLeft: int
    var totalTime: int
    var cycleCount: nat
    var settings: Settings
    var notices: seq<Notice>
    /** Every display update sent by `timer_updated`, in order. */
    var displays: seq<Display>

    /** The engine part of the plugin's state. */
    function State(): Engine
      reads this`isRunning, this`isWorkTime, this`timeLeft, this`totalTime, this`cycleCount, this`timer, this`notices
    {
      Engine(isRunning, isWorkTime, timeLeft, totalTime, cycleCount, timer, notices)
    }

    ghost predicate Valid()
      reads this
    {
      && Inv(State())
      && ((status == Initialized || status == Enabled) ==> timer.Some? && hasWidget)
    }

    constructor ()
      ensures Valid()
      ensures status == Loaded && !hasWidget && settings == DefaultSettings
      ensures State() == Engine(false, true, 0, 0, 0, None, []) && displays == []
    {
      status := Loaded;
      hasWidget := false;
      timer := None;
      isRunning := false;
      isWorkTime := true;
      timeLeft := 0;
      totalTime := 0;
      cycleCount := 0;
      settings := DefaultSettings;
      notices := [];
      displays := [];
    }

    /** `initialize`: creates the widget and a fresh timer, resets the engine. */
    method Initialize() returns (ok: bool)
      requires Valid()
      modifies this
      ensures Valid() && ok
      ensures status == Next(old(status), Call.Initialize) && hasWidget && settings == old(settings)
      ensures State() == Reset(old(State()).(timer := Some(NewTimer)), settings)
      ensures displays == old(displays) + [Shown(State(), settings)]
    {
      hasWidget := true;
      timer := Some(NewTimer);
      ResetTimer();
      status := Initialized;
      ok := true;
    }

    /** `activate`: refused, with nothing changed, unless the plugin is INITIALIZED. */
    method Activate() returns (ok: bool)
      requires Valid()
      modifies this
      ensures Valid()
      ensures ok == CanActivate(old(status)) && status == Next(old(status), Call.Activate)
      ensures State() == old(State()) && settings == old(settings) && hasWidget == old(hasWidget)
      ensures displays == old(displays)
    {
      if status != Initialized {
        return false;
      }
      status := Enabled;
      return true;
    }

    /** `deactivate`: from any status, stops the timer and the engine and ends DISABLED. */
    method Deactivate() returns (ok: bool)
      requires Valid()
      modifies this
      ensures Valid() && ok
      ensures status == Next(old(status), Call.Deactivate)
      ensures State() == old(State()).(isRunning := false, timer := StopTimer(old(timer)))
      ensures settings == old(settings) && hasWidget == old(hasWidget) && displays == old(displays)
    {
      if timer.Some? && timer.value.active {
        timer := Some(Stopped(timer.value));
      }
      isRunning := false;
      status := Disabled;
      return true;
    }

    /** `cleanup`: deactivates, drops the widget and the timer, and ends UNLOADED. */
    method Cleanup() returns (ok: bool)
      requires Valid()
      modifies this
      ensures Valid() && ok
      ensures status == Next(old(status), Call.Cleanup)
      ensures !hasWidget && timer.None? && !isRunning
      ensures State() == old(State()).(isRunning := false, timer := None)
      ensures settings == old(settings) && displays == old(displays)
    {
      var _ := Deactivate();
      hasWidget := false;
      timer := None;
      status := Unloaded;
      return true;
    }

    /** `start_timer` */
    method StartTimer()
      requires Valid() && timer.Some?
      modifies this`isRunning, this`timer
      ensures Valid()
      ensures State() == Start(old(State()))
      ensures status == old(status) && hasWidget == old(hasWidget) && settings == old(settings)
      ensures displays == old(displays)
    {
      if !isRunning {
        isRunning := true;
        timer := Some(Started(TickMs));
      }
    }

    /** `pause_timer` */
    method PauseTimer()
      requires Valid()
      modifies this`isRunning, this`timer
      ensures Valid()
      ensures State() == Pause(old(State()))
      ensures status == old(status) && hasWidget == old(hasWidget) && settings == old(settings)
      ensures displays == old(displays)
    {
      if isRunning {
        isRunning := false;
        timer := Some(Stopped(timer.value));
      }
    }

    /** `reset_timer`; also called by `initialize` before the engine invariant is re-established. */
    method ResetTimer()
      modifies this
      ensures State() == Reset(old(State()), settings)
      ensures status == old(status) && hasWidget == old(hasWidget) && settings == old(settings)
      ensures displays == old(displays) + [Shown(State(), settings)]
    {
      isRunning := false;
      if timer.Some? {
        timer := Some(Stopped(timer.value));
      }
      isWorkTime := true;
      timeLeft := settings.workDuration * 60;
      totalTime := timeLeft;
      UpdateDisplay();
    }

    /** `update_timer`, called by the timer once a second. */
    method UpdateTimer()
      requires Valid() && timer.Some?
      modifies this
      ensures Valid()
      ensures State() == Tick(old(State()), settings)
      ensures status == old(status) && hasWidget == old(hasWidget) && settings == old(settings)
      ensures displays == old(displays) + [Shown(State(), settings)]
    {
      if timeLeft > 0 {
        timeLeft := timeLeft - 1;
        UpdateDisplay();
      } else {
        TimerFinished();
      }
    }

    /** `timer_finished`: moves to the next phase, then updates the display. */
    method TimerFinished()
      requires Valid() && timer.Some?
      modifies this
      ensures State() == Finish(old(State()), settings)
      ensures status == old(status) && hasWidget == old(hasWidget) && settings == old(settings)
      ensures Valid()
      ensures displays == old(displays) + [Shown(State(), settings)]
    {
      NextPhase();
      UpdateDisplay();
    }

    /** The body of `timer_finished` before its closing display update. */
    method NextPhase()
      requires Valid() && timer.Some?
      modifies this`timer, this`isRunning, this`cycleCount, this`timeLeft, this`isWorkTime, this`totalTime, this`notices
      ensures State() == Finish(old(State()), settings)
      ensures Valid()
    {
      timer := Some(Stopped(timer.value));
      isRunning := false;
      if isWorkTime {
        cycleCount := cycleCount + 1;
        var long := LongBreakDue(cycleCount, settings.cyclesBeforeLongBreak);
        if long {
          timeLeft := settings.longBreak * 60;
        } else {
          timeLeft := settings.shortBreak * 60;
        }
        isWorkTime := false;
        totalTime := timeLeft;
        SendNotification(WorkFinished(long));
        if settings.autoStartBreaks {
          StartTimer();
        }
      } else {
        timeLeft := settings.workDuration * 60;
        totalTime := timeLeft;
        isWorkTime := true;
        SendNotification(BreakFinished);
        if settings.autoStartWork {
          StartTimer();
        }
      }
    }

    /** `update_display`: sends the current state to the display. */
    method UpdateDisplay()
      modifies this`displays
      ensures displays == old(displays) + [Shown(State(), settings)]
    {
      displays := displays + [Shown(State(), settings)];
    }

    /** `send_notification`: recorded only while `notification_enabled` is set. */
    method SendNotification(n: Notice)
      modifies this`notices
      ensures notices == old(notices) + Announce(settings, n)
    {
      if settings.notificationEnabled {
        notices := notices + [n];
      }
    }

    /** `get_settings`: the settings as a value; later updates do not reach a copy already returned. */
    method GetSettings() returns (s: Settings)
      ensures s == settings
    {
      s := settings;
    }

    /**
     * `update_settings`: merges the patch; a stopped engine is reset to a full
     * work phase (even in the middle of a break), a running one is left as it is.
     */
    method UpdateSettings(patch: Patch) returns (ok: bool)
      requires Valid()
      modifies this
      ensures Valid() && ok
      ensures settings == Merge(old(settings), patch)
      ensures State() == if old(isRunning) then old(State()) else Reset(old(State()), settings)
      ensures displays == old(displays) + if old(isRunning) then [] else [Shown(State(), settings)]
      ensures status == old(status) && hasWidget == old(hasWidget)
    {
      settings := Merge(settings, patch);
      if !isRunning {
        ResetTimer();
      }
      return true;
    }
  }
}
