/** The menu-bar application's state and settings in
    Sources/MenuBar/DigiNoiseMenuBarApp.swift: `AppState` with its refresh and
    run toggle, the persona binding, the enabled-category count and the
    Settings steppers. Launching the service, timers and views are not modelled;
    the log's content and the "installed" answer are inputs. */
module MenuBarApp {
  import opened Wrappers
  import opened Clock
  import opened Catalog
  import opened ConfigState
  import opened LogReader
  import opened CliCommands

  /** How many log lines the popover shows. */
  const RecentLogCount := 8

  /** The record with its running flag flipped and nothing else changed. */
  function Toggled(c: Config): (r: Config)
    ensures r.isRunning == !c.isRunning
    ensures r.(isRunning := c.isRunning) == c
  {
    c.(isRunning := !c.isRunning)
  }

  /** Flipping twice gives the record back. */
  lemma ToggledTwice(c: Config)
    ensures Toggled(Toggled(c)) == c
  {
  }

  /** `AppState`: the cached configuration, the recent log lines and whether the
      service is installed. */
  class AppState {
    var config: Config
    var recentLogs: seq<string>
    var isServiceInstalled: bool

    /** Every field mirrors its source as of the last refresh. */
    predicate Mirrors(store: ConfigStore, logFile: Option<string>, installed: bool, now: Instant)
      reads this, store
    {
      config == Load(store.file, now) && recentLogs == RecentEntries(logFile, RecentLogCount)
      && isServiceInstalled == installed
    }

    /** `init()`: load the configuration, then refresh. */
    constructor (store: ConfigStore, logFile: Option<string>, installed: bool, now: Instant)
      ensures Mirrors(store, logFile, installed, now)
      ensures |recentLogs| <= RecentLogCount
    {
      config := Load(store.file, now);
      recentLogs := [];
      isServiceInstalled := false;
      new;
      Refresh(store, logFile, installed, now);
    }

    /** `refresh()`: reload all three fields. */
    method Refresh(store: ConfigStore, logFile: Option<string>, installed: bool, now: Instant)
      modifies this
      ensures Mirrors(store, logFile, installed, now)
      ensures |recentLogs| <= RecentLogCount
    {
      config := Load(store.file, now);
      recentLogs := RecentEntries(logFile, RecentLogCount);
      isServiceInstalled := installed;
    }

    /** `toggleRunning()`: flip the cached record's running flag, save it, ask
        launchd to start the service only when it is now running (the result),
        and refresh. */
    method ToggleRunning(store: ConfigStore, logFile: Option<string>, installed: bool, now: Instant)
      returns (startRequested: bool)
      modifies this, store
      ensures store.saved == old(store.saved) + [Toggled(old(config))]
      ensures store.file == Some(Toggled(old(config)))
      ensures startRequested == !old(config).isRunning
      ensures config == Toggled(old(config))
      ensures Mirrors(store, logFile, installed, now)
    {
      var newConfig := config;
      newConfig := newConfig.(isRunning := !newConfig.isRunning);
      store.Save(newConfig);
      startRequested := newConfig.isRunning;
      Refresh(store, logFile, installed, now);
    }

    /** The persona picker's binding: reload, set the persona, save, refresh. */
    method SelectPersona(store: ConfigStore, persona: Persona, logFile: Option<string>, installed: bool, now: Instant)
      modifies this, store
      ensures var c := Load(old(store.file), now).(currentPersona := persona);
        store.saved == old(store.saved) + [c] && store.file == Some(c) && config == c
      ensures Mirrors(store, logFile, installed, now)
    {
      var c := Load(store.file, now);
      c := c.(currentPersona := persona);
      store.Save(c);
      Refresh(store, logFile, installed, now);
    }

    /** `enabledCategoriesCount`: the number of switched-on categories of the
        cached record. */
    function EnabledCategoriesCount(): (n: nat)
      reads this
      ensures n <= 11
      ensures n == 11 <==> forall c: Category :: config.enabledCategories.Enabled(c)
      ensures n == 0 <==> forall c: Category :: !config.enabledCategories.Enabled(c)
    {
      EnabledCountExtremes(config.enabledCategories);
      EnabledCount(config.enabledCategories)
    }
  }

  /** The three Settings steppers. */
  datatype StepperField = DailyLimit | StartHour | EndHour

  /** Each stepper's range: the limit in 1-50, the hours in 0-23. */
  function StepperRange(f: StepperField): (bounds: (int, int))
    ensures bounds.0 <= bounds.1
  {
    match f
    case DailyLimit => (1, 50)
    case StartHour => (0, 23)
    case EndHour => (0, 23)
  }

  function Clamp(v: int, lo: int, hi: int): (r: int)
    requires lo <= hi
    ensures lo <= r <= hi
    ensures lo <= v <= hi ==> r == v
  {
    if v < lo then lo else if v > hi then hi else v
  }

  function FieldValue(c: Config, f: StepperField): int {
    match f
    case DailyLimit => c.dailyLimit
    case StartHour => c.startHour
    case EndHour => c.endHour
  }

  /** One press on a stepper (up or down); the result is kept within the
      stepper's range. */
  function Step(c: Config, f: StepperField, up: bool): (r: Config)
    ensures var (lo, hi) := StepperRange(f); lo <= FieldValue(r, f) <= hi
    ensures var (lo, hi) := StepperRange(f); var d := if up then 1 else -1;
      lo <= FieldValue(c, f) + d <= hi ==> FieldValue(r, f) == FieldValue(c, f) + d
    ensures f != DailyLimit ==> r.dailyLimit == c.dailyLimit
    ensures f != StartHour ==> r.startHour == c.startHour
    ensures f != EndHour ==> r.endHour == c.endHour
    ensures r.(dailyLimit := c.dailyLimit, startHour := c.startHour, endHour := c.endHour) == c
  {
    var (lo, hi) := StepperRange(f);
    var v := Clamp(FieldValue(c, f) + (if up then 1 else -1), lo, hi);
    match f
    case DailyLimit => c.(dailyLimit := v)
    case StartHour => c.(startHour := v)
    case EndHour => c.(endHour := v)
  }

  /** The ranges the Settings window keeps. */
  predicate InMenuRanges(c: Config) {
    1 <= c.dailyLimit <= 50 && 0 <= c.startHour <= 23 && 0 <= c.endHour <= 23
  }

  /** A press moves a value already in range by at most one and keeps the whole
      record in range. */
  lemma StepKeepsRanges(c: Config, f: StepperField, up: bool)
    requires InMenuRanges(c)
    ensures InMenuRanges(Step(c, f, up))
    ensures -1 <= FieldValue(Step(c, f, up), f) - FieldValue(c, f) <= 1
  {
  }

  /** The menu's ranges lie within the command line's, but not the other way
      round: `diginoise config --limit 0` is accepted, and that limit is outside
      the stepper's range (a press takes it to 1). */
  lemma MenuRangesNarrower(c: Config)
    ensures InMenuRanges(c) ==> InCliRanges(c)
    ensures c.dailyLimit == 0 && 0 <= c.startHour <= 23 && 0 <= c.endHour <= 23 ==>
      InCliRanges(c) && !InMenuRanges(c) && Step(c, DailyLimit, true).dailyLimit == 1
  {
  }
}
