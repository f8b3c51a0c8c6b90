/** The persisted configuration and its daily quota counter
    (`Config` and `CategorySettings` in Sources/Shared/Personas.swift). */
module ConfigState {
  import opened Wrappers
  import opened Clock
  import opened Catalog

  /** `CategorySettings`: one on/off switch per endpoint category. */
  datatype CategorySettings = CategorySettings(
    reference: bool, weather: bool, tech: bool, news: bool, finance: bool, science: bool,
    entertainment: bool, lifestyle: bool, sports: bool, recipes: bool, travel: bool)
  {
    /** The switch that governs category `c`. */
    function Enabled(c: Category): bool {
      match c
      case Reference => reference
      case Weather => weather
      case Tech => tech
      case News => news
      case Finance => finance
      case Science => science
      case Entertainment => entertainment
      case Lifestyle => lifestyle
      case Sports => sports
      case Recipes => recipes
      case Travel => travel
    }

    /** This value with the switch of category `c` assigned `on`. */
    function With(c: Category, on: bool): (r: CategorySettings)
      ensures r.Enabled(c) == on
    {
      CategorySettings(
        if c == Reference then on else reference,
        if c == Weather then on else weather,
        if c == Tech then on else tech,
        if c == News then on else news,
        if c == Finance then on else finance,
        if c == Science then on else science,
        if c == Entertainment then on else entertainment,
        if c == Lifestyle then on else lifestyle,
        if c == Sports then on else sports,
        if c == Recipes then on else recipes,
        if c == Travel then on else travel)
    }
  }

  /** Assigning one switch leaves every other category's switch as it was. */
  lemma WithOthers(s: CategorySettings, c: Category, on: bool)
    ensures forall d | d != c :: s.With(c, on).Enabled(d) == s.Enabled(d)
  {
    forall d | d != c
      ensures s.With(c, on).Enabled(d) == s.Enabled(d)
    {
      match d
      case Reference =>
      case Weather =>
      case Tech =>
      case News =>
      case Finance =>
      case Science =>
      case Entertainment =>
      case Lifestyle =>
      case Sports =>
      case Recipes =>
      case Travel =>
    }
  }

  /** `CategorySettings()`: every field defaults to `true`. */
  const AllEnabled: CategorySettings :=
    CategorySettings(true, true, true, true, true, true, true, true, true, true, true)

  /** Two settings values are equal when they agree on every category. */
  lemma SettingsExtensional(s: CategorySettings, t: CategorySettings)
    requires forall c: Category :: s.Enabled(c) == t.Enabled(c)
    ensures s == t
  {
    assert s.Enabled(Reference) == t.Enabled(Reference) && s.Enabled(Weather) == t.Enabled(Weather);
    assert s.Enabled(Tech) == t.Enabled(Tech) && s.Enabled(News) == t.Enabled(News);
    assert s.Enabled(Finance) == t.Enabled(Finance) && s.Enabled(Science) == t.Enabled(Science);
    assert s.Enabled(Entertainment) == t.Enabled(Entertainment) && s.Enabled(Lifestyle) == t.Enabled(Lifestyle);
    assert s.Enabled(Sports) == t.Enabled(Sports) && s.Enabled(Recipes) == t.Enabled(Recipes);
    assert s.Enabled(Travel) == t.Enabled(Travel);
  }

  /** `Config`. Swift's `Date` is an `Instant`; the legacy CLI's record has no
      `currentPersona` and simply never reads that field here. */
  datatype Config = Config(
    isRunning: bool,
    dailyLimit: int,
    startHour: int,
    endHour: int,
    requestCount: int,
    lastResetDate: Instant,
    enabledCategories: CategorySettings,
    currentPersona: Persona)

  /** `Config()`: the record's default values, stamped with the current time. */
  function DefaultConfig(now: Instant): Config {
    Config(false, 5, 7, 23, 0, now, AllEnabled, General)
  }

  /** A default configuration: stopped, limit 5, window 7-23, count 0, the general
      persona and all eleven categories enabled. */
  lemma DefaultConfigValues(now: Instant)
    ensures var c := DefaultConfig(now);
      && !c.isRunning && c.dailyLimit == 5 && c.startHour == 7 && c.endHour == 23
      && c.requestCount == 0 && c.currentPersona == General
      && forall cat: Category :: c.enabledCategories.Enabled(cat)
  {
  }

  /** `Config.load()`: the decoded file, or the default when the file is missing or
      does not decode (`file == None`). It never fails. */
  function Load(file: Option<Config>, now: Instant): (c: Config)
    ensures file.Some? ==> c == file.value
    ensures file.None? ==> c.requestCount == 0 && !c.isRunning && c.lastResetDate == now
    ensures file.None? ==> c == DefaultConfig(now)
  {
    file.GetOr(DefaultConfig(now))
  }

  /** The effect of `checkAndResetDaily()` on the record: on a new calendar day the
      counter is zeroed and the reset date moves to `now`; otherwise nothing changes. */
  function ResetDaily(c: Config, now: Instant): (r: Config)
    ensures SameDay(r.lastResetDate, now)
    ensures r.requestCount == c.requestCount || r.requestCount == 0
    ensures r.(requestCount := c.requestCount, lastResetDate := c.lastResetDate) == c
    ensures r == c <==> SameDay(c.lastResetDate, now)
  {
    if SameDay(c.lastResetDate, now) then c
    else c.(requestCount := 0, lastResetDate := now)
  }

  /** The records that `checkAndResetDaily()` writes: one on a new day, none otherwise. */
  function ResetWrites(c: Config, now: Instant): (w: seq<Config>)
    ensures |w| <= 1
    ensures w == [] <==> SameDay(c.lastResetDate, now)
  {
    if SameDay(c.lastResetDate, now) then [] else [ResetDaily(c, now)]
  }

  /** Resetting twice at the same instant is resetting once, and the second reset
      writes nothing. */
  lemma ResetIdempotent(c: Config, now: Instant)
    ensures ResetDaily(ResetDaily(c, now), now) == ResetDaily(c, now)
    ensures ResetWrites(ResetDaily(c, now), now) == []
  {
  }

  /** `canRunToday`: after the daily reset, fewer successes than the limit. */
  predicate CanRunToday(c: Config, now: Instant) {
    ResetDaily(c, now).requestCount < c.dailyLimit
  }

  /** The quota examples: limit 5 with 5 successes today blocks, 4 allow; on a new
      day any positive limit allows. */
  lemma CanRunTodayExamples(c: Config, now: Instant)
    ensures SameDay(c.lastResetDate, now) && c.dailyLimit == 5 && c.requestCount == 5 ==> !CanRunToday(c, now)
    ensures SameDay(c.lastResetDate, now) && c.dailyLimit == 5 && c.requestCount == 4 ==> CanRunToday(c, now)
    ensures !SameDay(c.lastResetDate, now) ==> (CanRunToday(c, now) <==> c.dailyLimit > 0)
  {
  }

  /** The file after a sequence of writes: the last one written, or as before. */
  function AfterWrites(file: Option<Config>, writes: seq<Config>): Option<Config> {
    if writes == [] then file else Some(writes[|writes| - 1])
  }

  /** The config file. `file` is what `load()` can decode (`None` for missing or
      unreadable); `saved` records every `save()` in order. */
  class ConfigStore {
    var file: Option<Config>
    ghost var saved: seq<Config>

    constructor (file: Option<Config>)
      ensures this.file == file && saved == []
    {
      this.file := file;
      saved := [];
    }

    /** `Config.load()` at time `now`. */
    function Current(now: Instant): Config
      reads this
    {
      Load(file, now)
    }

    /** `save()`: the record becomes the file's content. */
    method Save(c: Config)
      modifies this
      ensures file == Some(c)
      ensures saved == old(saved) + [c]
    {
      file := Some(c);
      saved := saved + [c];
    }
  }

  /** `checkAndResetDaily()` on a record loaded from `store`: resets on a new day and
      then saves immediately; on the same day it neither changes nor writes. */
  method CheckAndResetDaily(store: ConfigStore, c: Config, now: Instant) returns (r: Config)
    modifies store
    ensures r == ResetDaily(c, now)
    ensures store.saved == old(store.saved) + ResetWrites(c, now)
    ensures store.file == AfterWrites(old(store.file), ResetWrites(c, now))
  {
    r := c;
    if !SameDay(r.lastResetDate, now) {
      r := r.(requestCount := 0, lastResetDate := now);
      store.Save(r);
    }
  }

  /** `canRunToday` (a `mutating get`): applies the daily reset, then compares. */
  method CanRunTodayCheck(store: ConfigStore, c: Config, now: Instant) returns (r: Config, ok: bool)
    modifies store
    ensures r == ResetDaily(c, now)
    ensures ok == CanRunToday(c, now)
    ensures store.saved == old(store.saved) + ResetWrites(c, now)
    ensures store.file == AfterWrites(old(store.file), ResetWrites(c, now))
  {
    r := CheckAndResetDaily(store, c, now);
    ok := r.requestCount < r.dailyLimit;
  }
}
