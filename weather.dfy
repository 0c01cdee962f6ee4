/**
 * The enhanced weather plugin (WeatherEnhancedPlugin): a periodic update timer
 * whose period follows the `update_interval` setting, the latest reading, and
 * the readings published to the display.
 *
 * A reading is drawn at random by the plugin; here it is a parameter of the
 * operations that fetch one, limited to the values the plugin can draw.
 */
module Weather {
  import opened Lifecycle
  import opened Timers
  import opened Patches

  /** One weather reading: temperature in degrees Celsius, humidity in percent, wind speed. */
  datatype Reading = Reading(temperature: int, condition: string, humidity: int, windSpeed: int)

  const Conditions: seq<string> := ["晴天", "多云", "阴天", "小雨", "中雨", "雷阵雨", "雪"]

  /** The readings `update_weather` can produce. */
  predicate Plausible(r: Reading)
  {
    && 15 <= r.temperature <= 30
    && r.condition in Conditions
    && 40 <= r.humidity <= 80
    && 5 <= r.windSpeed <= 20
  }

  /** The settings dictionary; `updateInterval` is in seconds. */
  datatype Settings = Settings(
    apiKey: string,
    updateInterval: nat,
    showHumidity: bool,
    showWind: bool,
    temperatureUnit: string,
    location: string)

  const DefaultSettings := Settings("", 300, true, true, "celsius", "北京")

  datatype Patch = Patch(
    apiKey: Option<string>,
    updateInterval: Option<nat>,
    showHumidity: Option<bool>,
    showWind: Option<bool>,
    temperatureUnit: Option<string>,
    location: Option<string>)

  const EmptyPatch := Patch(None, None, None, None, None, None)

  /** `settings.update(patch)` */
  function Merge(s: Settings, p: Patch): (r: Settings)
    ensures p == EmptyPatch ==> r == s
  {
    Settings(
      Override(s.apiKey, p.apiKey),
      Override(s.updateInterval, p.updateInterval),
      Override(s.showHumidity, p.showHumidity),
      Override(s.showWind, p.showWind),
      Override(s.temperatureUnit, p.temperatureUnit),
      Override(s.location, p.location))
  }

  /** A patch followed by a second one: the second's keys win. */
  function Combine(first: Patch, second: Patch): Patch
  {
    Patch(
      Then(first.apiKey, second.apiKey),
      Then(first.updateInterval, second.updateInterval),
      Then(first.showHumidity, second.showHumidity),
      Then(first.showWind, second.showWind),
      Then(first.temperatureUnit, second.temperatureUnit),
      Then(first.location, second.location))
  }

  /**
   * The merge is shallow: the empty patch changes nothing, a patch applied
   * twice acts once, and two patches in a row act as their combination.
   */
  lemma MergeLaws(s: Settings, p: Patch, q: Patch)
    ensures Merge(s, EmptyPatch) == s
    ensures Merge(Merge(s, p), p) == Merge(s, p)
    ensures Merge(Merge(s, p), q) == Merge(s, Combine(p, q))
  {
    OverrideThen(s.apiKey, p.apiKey, q.apiKey);
    OverrideThen(s.updateInterval, p.updateInterval, q.updateInterval);
    OverrideThen(s.showHumidity, p.showHumidity, q.showHumidity);
    OverrideThen(s.showWind, p.showWind, q.showWind);
    OverrideThen(s.temperatureUnit, p.temperatureUnit, q.temperatureUnit);
    OverrideThen(s.location, p.location, q.location);
  }

  /** The update timer's period: `update_interval * 1000` milliseconds. */
  function PeriodMs(s: Settings): int
  {
    s.updateInterval * 1000
  }

  class WeatherEnhancedPlugin {
    var status: Status
    var hasWidget: bool
    var updateTimer: Option<Timer>
    var settings: Settings
    /** The latest reading; `None` before the first update. */
    var currentWeather: Option<Reading>
    /** Every reading sent to the display, in order. */
    var published: seq<Reading>

    /**
     * Once initialised the plugin has its widget and timer; an ENABLED plugin's
     * timer runs, and a running timer's period follows `update_interval`.
     */
    ghost predicate Valid()
      reads this
    {
      && ((status == Initialized || status == Enabled) ==> updateTimer.Some? && hasWidget)
      && (status == Enabled ==> updateTimer.value.active)
      && (updateTimer.Some? && updateTimer.value.active ==> updateTimer.value.intervalMs == PeriodMs(settings))
      && (currentWeather.Some? ==> Plausible(currentWeather.value))
    }

    constructor ()
      ensures Valid()
      ensures status == Loaded && !hasWidget && updateTimer.None?
      ensures settings == DefaultSettings && currentWeather.None? && published == []
    {
      status := Loaded;
      hasWidget := false;
      updateTimer := None;
      settings := DefaultSettings;
      currentWeather := None;
      published := [];
    }

    /** `initialize`: creates the widget and an idle update timer. */
    method Initialize() returns (ok: bool)
      requires Valid()
      modifies this
      ensures Valid() && ok
      ensures status == Next(old(status), Call.Initialize)
      ensures hasWidget && updateTimer == Some(NewTimer)
      ensures settings == old(settings) && currentWeather == old(currentWeather) && published == old(published)
    {
      hasWidget := true;
      updateTimer := Some(NewTimer);
      status := Initialized;
      return true;
    }

    /**
     * `activate`: refused, with nothing changed, unless INITIALIZED; otherwise
     * starts the timer at the configured period and fetches `reading` at once.
     */
    method Activate(reading: Reading) returns (ok: bool)
      requires Valid() && Plausible(reading)
      modifies this
      ensures Valid()
      ensures ok == CanActivate(old(status)) && status == Next(old(status), Call.Activate)
      ensures settings == old(settings) && hasWidget == old(hasWidget)
      ensures !ok ==> updateTimer == old(updateTimer) && currentWeather == old(currentWeather) && published == old(published)
      ensures ok ==> updateTimer == Some(Started(PeriodMs(settings)))
      ensures ok ==> currentWeather == Some(reading) && published == old(published) + [reading]
    {
      if status != Initialized {
        return false;
      }
      updateTimer := Some(Started(PeriodMs(settings)));
      UpdateWeather(reading);
      status := Enabled;
      return true;
    }

    /** `deactivate`: from any status, stops the timer if there is one and ends DISABLED. */
    method Deactivate() returns (ok: bool)
      requires Valid()
      modifies this
      ensures Valid() && ok
      ensures status == Next(old(status), Call.Deactivate)
      ensures updateTimer.Some? == old(updateTimer).Some?
      ensures updateTimer.Some? ==> updateTimer.value == Stopped(old(updateTimer).value)
      ensures hasWidget == old(hasWidget) && settings == old(settings)
      ensures currentWeather == old(currentWeather) && published == old(published)
    {
      if updateTimer.Some? {
        updateTimer := Some(Stopped(updateTimer.value));
      }
      status := Disabled;
      return true;
    }

    /** `cleanup`: deactivates, drops the widget and the timer, and ends UNLOADED. */
    method Cleanup() returns (ok: bool)
      requires Valid()
      modifies this
      ensures Valid() && ok
      ensures status == Next(old(status), Call.Cleanup)
      ensures !hasWidget && updateTimer.None?
      ensures settings == old(settings) && currentWeather == old(currentWeather) && published == old(published)
    {
      var _ := Deactivate();
      hasWidget := false;
      updateTimer := None;
      status := Unloaded;
      return true;
    }

    /** `update_weather`: keeps the new reading and publishes it. */
    method UpdateWeather(reading: Reading)
      requires Plausible(reading)
      modifies this`currentWeather, this`published
      ensures currentWeather == Some(reading)
      ensures published == old(published) + [reading]
    {
      currentWeather := Some(reading);
      published := published + [reading];
    }

    /** `get_settings`: the settings as a value; later updates do not reach a copy already returned. */
    method GetSettings() returns (s: Settings)
      ensures s == settings
    {
      s := settings;
    }

    /**
     * `update_settings`: merges the patch; a patch that names `update_interval`
     * gives an existing timer the new period without starting or stopping it.
     * A reading already held is published again.
     */
    method UpdateSettings(patch: Patch) returns (ok: bool)
      requires Valid()
      modifies this
      ensures Valid() && ok
      ensures settings == Merge(old(settings), patch)
      ensures status == old(status) && hasWidget == old(hasWidget) && currentWeather == old(currentWeather)
      ensures patch.updateInterval.None? || old(updateTimer).None? ==> updateTimer == old(updateTimer)
      ensures patch.updateInterval.Some? && old(updateTimer).Some? ==>
                updateTimer == Some(Reinterval(old(updateTimer).value, patch.updateInterval.value * 1000))
      ensures published == old(published) + (if currentWeather.Some? then [currentWeather.value] else [])
    {
      settings := Merge(settings, patch);
      if patch.updateInterval.Some? && updateTimer.Some? {
        updateTimer := Some(Reinterval(updateTimer.value, patch.updateInterval.value * 1000));
      }
      if currentWeather.Some? {
        published := published + [currentWeather.value];
      }
      return true;
    }
  }
}
