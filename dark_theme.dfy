/**
 * The dark theme plugin (DarkThemePlugin): a table of theme variants and
 * accent colours with a fallback lookup, and an optional once-a-minute check
 * that applies the dark theme inside a daily time window and restores the
 * default theme outside it.
 *
 * Times of day are microseconds since midnight, the resolution of the clock
 * the plugin compares against; the window bounds are kept already parsed.
 */
module DarkTheme {
  import opened Lifecycle
  import opened Timers
  import opened Patches

  const MicrosPerMinute := 60_000_000
  const MicrosPerDay := 86_400_000_000

  type TimeOfDay = t: int | 0 <= t < MicrosPerDay

  /**
   * The time of day `HH:MM`, at second and microsecond zero; its hour and
   * minute read back as given.
   */
  function Clock(hours: int, minutes: int): (t: TimeOfDay)
    requires 0 <= hours < 24 && 0 <= minutes < 60
    ensures t % MicrosPerMinute == 0
    ensures t / (60 * MicrosPerMinute) == hours
    ensures t / MicrosPerMinute % 60 == minutes
  {
    (hours * 60 + minutes) * MicrosPerMinute
  }

  /**
   * The dark window of `check_auto_switch`, both ends included: when the start
   * is not after the end the window lies within one day, otherwise it runs
   * past midnight.
   */
  predicate InDarkWindow(start: TimeOfDay, end: TimeOfDay, now: TimeOfDay)
  {
    if start <= end then start <= now <= end
    else now >= start || now <= end
  }

  /**
   * An independent reading of the window: going forward round the clock from
   * the start, `now` is reached no later than the end.
   */
  predicate OnArc(start: TimeOfDay, end: TimeOfDay, now: TimeOfDay)
  {
    (now - start) % MicrosPerDay <= (end - start) % MicrosPerDay
  }

  lemma ModInRange(v: int)
    requires 0 <= v < MicrosPerDay
    ensures v % MicrosPerDay == v
  {
  }

  lemma ModShifted(v: int)
    requires -MicrosPerDay <= v < 0
    ensures v % MicrosPerDay == v + MicrosPerDay
  {
    ModInRange(v + MicrosPerDay);
  }

  /** Both cases of the window test agree with the clock-arc reading. */
  lemma WindowIsArc(start: TimeOfDay, end: TimeOfDay, now: TimeOfDay)
    ensures InDarkWindow(start, end, now) <==> OnArc(start, end, now)
  {
    if now >= start {
      ModInRange(now - start);
    } else {
      ModShifted(now - start);
    }
    if end >= start {
      ModInRange(end - start);
    } else {
      ModShifted(end - start);
    }
  }

  /** A window that wraps past midnight is everything outside the open gap between end and start. */
  lemma WrappedWindowIsComplement(start: TimeOfDay, end: TimeOfDay, now: TimeOfDay)
    requires end < start
    ensures InDarkWindow(start, end, now) <==> !(end < now < start)
  {
  }

  /** The window always contains its own start and end. */
  lemma WindowHoldsItsEnds(start: TimeOfDay, end: TimeOfDay)
    ensures InDarkWindow(start, end, start) && InDarkWindow(start, end, end)
  {
  }

  /** The colour entries of one theme variant. */
  type ThemeData = map<string, string>

  /** The keys every theme variant defines. */
  const ThemeKeys: set<string> := {"name", "background", "surface", "primary", "text", "text_secondary", "border"}

  const Themes: map<string, ThemeData> := map[
    "midnight" := map["name" := "午夜蓝", "background" := "#1a1a2e", "surface" := "#16213e", "primary" := "#0f3460",
                      "text" := "#e94560", "text_secondary" := "#a8a8a8", "border" := "#2d3748"],
    "charcoal" := map["name" := "炭黑", "background" := "#2d3748", "surface" := "#4a5568", "primary" := "#718096",
                      "text" := "#f7fafc", "text_secondary" := "#cbd5e0", "border" := "#4a5568"],
    "obsidian" := map["name" := "黑曜石", "background" := "#000000", "surface" := "#1a1a1a", "primary" := "#333333",
                      "text" := "#ffffff", "text_secondary" := "#cccccc", "border" := "#333333"],
    "slate" := map["name" := "石板灰", "background" := "#1e293b", "surface" := "#334155", "primary" := "#475569",
                   "text" := "#f1f5f9", "text_secondary" := "#cbd5e1", "border" := "#475569"]]

  const AccentColors: map<string, string> := map[
    "blue" := "#3b82f6", "green" := "#10b981", "purple" := "#8b5cf6", "orange" := "#f59e0b", "red" := "#ef4444"]

  const FallbackVariant := "midnight"
  const FallbackAccent := "#3b82f6"

  /** Every variant defines exactly the theme keys, and none of them is `accent`. */
  lemma ThemesDefineThemeKeys()
    ensures FallbackVariant in Themes
    ensures forall v :: v in Themes ==> Themes[v].Keys == ThemeKeys
    ensures "accent" !in ThemeKeys
  {
  }

  /** The variant `apply_current_theme` uses: the configured one if known, else `midnight`. */
  function ResolveVariant(variant: string): (v: string)
    ensures v in Themes
    ensures variant in Themes ==> v == variant
    ensures variant !in Themes ==> v == FallbackVariant
  {
    if variant in Themes then variant else FallbackVariant
  }

  /** The accent colour for a configured accent name, `#3b82f6` when the name is unknown. */
  function Accent(name: string): (c: string)
    ensures name in AccentColors ==> c == AccentColors[name]
    ensures name !in AccentColors ==> c == FallbackAccent
  {
    if name in AccentColors then AccentColors[name] else FallbackAccent
  }

  /** An unknown accent looks exactly like the `blue` accent. */
  lemma UnknownAccentIsBlue(name: string)
    requires name !in AccentColors
    ensures Accent(name) == Accent("blue")
  {
  }

  /** The theme data applied: the resolved variant's entries plus an `accent` entry. */
  function ResolveTheme(variant: string, accent: string): (d: ThemeData)
    ensures d.Keys == Themes[ResolveVariant(variant)].Keys + {"accent"}
    ensures d["accent"] == Accent(accent)
    ensures forall k :: k in Themes[ResolveVariant(variant)] ==> d[k] == Themes[ResolveVariant(variant)][k]
  {
    ThemesDefineThemeKeys();
    Themes[ResolveVariant(variant)]["accent" := Accent(accent)]
  }

  /** What the plugin does to the host's look: apply a variant with its data, or restore the default theme. */
  datatype ThemeAction = Applied(variant: string, data: ThemeData) | RestoredDefault

  /** The settings dictionary; the switch times are stored as parsed times of day. */
  datatype Settings = Settings(
    themeVariant: string,
    accentColor: string,
    autoSwitch: bool,
    switchTimeStart: TimeOfDay,
    switchTimeEnd: TimeOfDay,
    applyToFloating: bool,
    applyToDialogs: bool)

  const DefaultSettings := Settings("midnight", "blue", false, Clock(18, 0), Clock(6, 0), true, true)

  datatype Patch = Patch(
    themeVariant: Option<string>,
    accentColor: Option<string>,
    autoSwitch: Option<bool>,
    switchTimeStart: Option<TimeOfDay>,
    switchTimeEnd: Option<TimeOfDay>,
    applyToFloating: Option<bool>,
    applyToDialogs: Option<bool>)

  const EmptyPatch := Patch(None, None, None, None, None, None, None)

  /** `settings.update(patch)` */
  function Merge(s: Settings, p: Patch): (r: Settings)
    ensures p == EmptyPatch ==> r == s
  {
    Settings(
      Override(s.themeVariant, p.themeVariant),
      Override(s.accentColor, p.accentColor),
      Override(s.autoSwitch, p.autoSwitch),
      Override(s.switchTimeStart, p.switchTimeStart),
      Override(s.switchTimeEnd, p.switchTimeEnd),
      Override(s.applyToFloating, p.applyToFloating),
      Override(s.applyToDialogs, p.applyToDialogs))
  }

  /** A patch followed by a second one: the second's keys win. */
  function Combine(first: Patch, second: Patch): Patch
  {
    Patch(
      Then(first.themeVariant, second.themeVariant),
      Then(first.accentColor, second.accentColor),
      Then(first.autoSwitch, second.autoSwitch),
      Then(first.switchTimeStart, second.switchTimeStart),
      Then(first.switchTimeEnd, second.switchTimeEnd),
      Then(first.applyToFloating, second.applyToFloating),
      Then(first.applyToDialogs, second.applyToDialogs))
  }

  /** The merge is shallow: a patch applied twice acts once, and two patches in a row act as their combination. */
  lemma MergeLaws(s: Settings, p: Patch, q: Patch)
    ensures Merge(Merge(s, p), p) == Merge(s, p)
    ensures Merge(Merge(s, p), q) == Merge(s, Combine(p, q))
  {
    OverrideThen(s.themeVariant, p.themeVariant, q.themeVariant);
    OverrideThen(s.accentColor, p.accentColor, q.accentColor);
    OverrideThen(s.autoSwitch, p.autoSwitch, q.autoSwitch);
    OverrideThen(s.switchTimeStart, p.switchTimeStart, q.switchTimeStart);
    OverrideThen(s.switchTimeEnd, p.switchTimeEnd, q.switchTimeEnd);
    OverrideThen(s.applyToFloating, p.applyToFloating, q.applyToFloating);
    OverrideThen(s.applyToDialogs, p.applyToDialogs, q.applyToDialogs);
  }

  /** `apply_current_theme` as an action: the resolved variant name travels with the data. */
  function CurrentTheme(s: Settings): (a: ThemeAction)
    ensures a.Applied? && a.variant in Themes
    ensures a.data == ResolveTheme(s.themeVariant, s.accentColor)
    ensures a.variant == ResolveVariant(s.themeVariant)
    ensures s.themeVariant in Themes ==> a.variant == s.themeVariant
  {
    Applied(ResolveVariant(s.themeVariant), ResolveTheme(s.themeVariant, s.accentColor))
  }

  /** What one auto-switch check does: nothing while auto switching is off, else apply or restore. */
  function AutoSwitch(s: Settings, now: TimeOfDay): (r: seq<ThemeAction>)
    ensures !s.autoSwitch ==> r == []
    ensures s.autoSwitch ==> |r| == 1
    ensures s.autoSwitch ==> (r[0].Applied? <==> InDarkWindow(s.switchTimeStart, s.switchTimeEnd, now))
    ensures s.autoSwitch && r[0].Applied? ==> r[0] == CurrentTheme(s)
  {
    if !s.autoSwitch then []
    else if InDarkWindow(s.switchTimeStart, s.switchTimeEnd, now) then [CurrentTheme(s)]
    else [RestoredDefault]
  }

  /** With the default window (18:00 to 06:00) the dark theme holds from 18:00 through 06:00. */
  lemma DefaultWindowIsOvernight(now: TimeOfDay)
    ensures InDarkWindow(DefaultSettings.switchTimeStart, DefaultSettings.switchTimeEnd, now)
            <==> now >= Clock(18, 0) || now <= Clock(6, 0)
  {
  }

  /** The auto-switch timer's period. */
  const CheckPeriodMs := 60000

  class DarkThemePlugin {
    var status: Status
    var autoSwitchTimer: Option<Timer>
    var settings: Settings
    /** The theme actions taken so far, in order. */
    var themeLog: seq<ThemeAction>

    /**
     * The auto-switch timer runs only while auto switching is on, once a
     * minute; once initialised the plugin has the timer, running exactly when
     * auto switching is on.
     */
    ghost predicate Valid()
      reads this
    {
      && (autoSwitchTimer.Some? && autoSwitchTimer.value.active ==>
            settings.autoSwitch && autoSwitchTimer.value.intervalMs == CheckPeriodMs)
      && ((status == Initialized || status == Enabled) ==>
            autoSwitchTimer.Some? && (autoSwitchTimer.value.active <==> settings.autoSwitch))
    }

    constructor ()
      ensures Valid()
      ensures status == Loaded && autoSwitchTimer.None? && settings == DefaultSettings && themeLog == []
    {
      status := Loaded;
      autoSwitchTimer := None;
      settings := DefaultSettings;
      themeLog := [];
    }

    /** `initialize`: a new auto-switch timer, running once a minute iff auto switching is on. */
    method Initialize() returns (ok: bool)
      requires Valid()
      modifies this
      ensures Valid() && ok
      ensures status == Next(old(status), Call.Initialize)
      ensures autoSwitchTimer == Some(if settings.autoSwitch then Started(CheckPeriodMs) else NewTimer)
      ensures settings == old(settings) && themeLog == old(themeLog)
    {
      var timer := NewTimer;
      if settings.autoSwitch {
        timer := Started(CheckPeriodMs);
      }
      autoSwitchTimer := Some(timer);
      status := Initialized;
      return true;
    }

    /** `activate`: refused unless INITIALIZED; otherwise applies the current theme. */
    method Activate() returns (ok: bool)
      requires Valid()
      modifies this
      ensures Valid()
      ensures ok == CanActivate(old(status)) && status == Next(old(status), Call.Activate)
      ensures themeLog == old(themeLog) + (if ok then [CurrentTheme(settings)] else [])
      ensures autoSwitchTimer == old(autoSwitchTimer) && settings == old(settings)
    {
      if status != Initialized {
        return false;
      }
      ApplyCurrentTheme();
      status := Enabled;
      return true;
    }

    /** `deactivate`: from any status, stops the timer, restores the default theme and ends DISABLED. */
    method Deactivate() returns (ok: bool)
      requires Valid()
      modifies this
      ensures Valid() && ok
      ensures status == Next(old(status), Call.Deactivate)
      ensures autoSwitchTimer.Some? == old(autoSwitchTimer).Some?
      ensures autoSwitchTimer.Some? ==> autoSwitchTimer.value == Stopped(old(autoSwitchTimer).value)
      ensures themeLog == old(themeLog) + [RestoredDefault]
      ensures settings == old(settings)
    {
      if autoSwitchTimer.Some? && autoSwitchTimer.value.active {
        autoSwitchTimer := Some(Stopped(autoSwitchTimer.value));
      }
      themeLog := themeLog + [RestoredDefault];
      status := Disabled;
      return true;
    }

    /** `cleanup`: deactivates, drops the timer and ends UNLOADED. */
    method Cleanup() returns (ok: bool)
      requires Valid()
      modifies this
      ensures Valid() && ok
      ensures status == Next(old(status), Call.Cleanup)
      ensures autoSwitchTimer.None?
      ensures themeLog == old(themeLog) + [RestoredDefault]
      ensures settings == old(settings)
    {
      var _ := Deactivate();
      autoSwitchTimer := None;
      status := Unloaded;
      return true;
    }

    /** `apply_current_theme` */
    method ApplyCurrentTheme()
      modifies this`themeLog
      ensures themeLog == old(themeLog) + [CurrentTheme(settings)]
    {
      var variant := settings.themeVariant;
      if variant !in Themes {
        variant := FallbackVariant;
      }
      var data := Themes[variant]["accent" := Accent(settings.accentColor)];
      themeLog := themeLog + [Applied(variant, data)];
    }

    /** `check_auto_switch`, run on each tick of the auto-switch timer at time of day `now`. */
    method CheckAutoSwitch(now: TimeOfDay)
      modifies this`themeLog
      ensures themeLog == old(themeLog) + AutoSwitch(settings, now)
    {
      if !settings.autoSwitch {
        return;
      }
      var start, end := settings.switchTimeStart, settings.switchTimeEnd;
      var dark: bool;
      if start <= end {
        dark := start <= now <= end;
      } else {
        dark := now >= start || now <= end;
      }
      if dark {
        ApplyCurrentTheme();
      } else {
        themeLog := themeLog + [RestoredDefault];
      }
    }

    /** `get_settings`: the settings as a value; later updates do not reach a copy already returned. */
    method GetSettings() returns (s: Settings)
      ensures s == settings
    {
      s := settings;
    }

    /**
     * `update_settings`: merges the patch; the timer is started when auto
     * switching was turned on and stopped when it was turned off, and left
     * alone otherwise. An ENABLED plugin re-applies its theme.
     */
    method UpdateSettings(patch: Patch) returns (ok: bool)
      requires Valid()
      modifies this
      ensures Valid() && ok
      ensures settings == Merge(old(settings), patch)
      ensures status == old(status)
      ensures autoSwitchTimer.Some? == old(autoSwitchTimer).Some?
      ensures settings.autoSwitch == old(settings).autoSwitch ==> autoSwitchTimer == old(autoSwitchTimer)
      ensures settings.autoSwitch && !old(settings).autoSwitch && autoSwitchTimer.Some? ==>
                autoSwitchTimer.value == Started(CheckPeriodMs)
      ensures !settings.autoSwitch && old(settings).autoSwitch && autoSwitchTimer.Some? ==>
                autoSwitchTimer.value == Stopped(old(autoSwitchTimer).value)
      ensures themeLog == old(themeLog) + (if status == Enabled then [CurrentTheme(settings)] else [])
    {
      var oldAutoSwitch := settings.autoSwitch;
      settings := Merge(settings, patch);
      if settings.autoSwitch != oldAutoSwitch {
        if settings.autoSwitch {
          if autoSwitchTimer.Some? {
            autoSwitchTimer := Some(Started(CheckPeriodMs));
          }
        } else {
          if autoSwitchTimer.Some? {
            autoSwitchTimer := Some(Stopped(autoSwitchTimer.value));
          }
        }
      }
      if status == Enabled {
        ApplyCurrentTheme();
      }
      return true;
    }
  }
}
