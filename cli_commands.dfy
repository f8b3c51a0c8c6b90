/** The configuration subcommands of the command-line tool: `start`, `stop`,
    `status`, `config` and `config categories`. Sources/CLI/main.swift and
    Sources/CLI/DigiNoiseCLI.swift carry the same code for each of them. */
module CliCommands {
  import opened Wrappers
  import opened Clock
  import opened Catalog
  import opened ConfigState

  /** `start`: refuses (exit failure) when the service is not installed; otherwise
      marks the configuration running and saves it. Launching the service is not
      modelled. */
  method Start(store: ConfigStore, installed: bool, now: Instant) returns (ok: bool)
    modifies store
    ensures ok == installed
    ensures !installed ==> store.file == old(store.file) && store.saved == old(store.saved)
    ensures installed ==>
      var c := Load(old(store.file), now).(isRunning := true);
      store.saved == old(store.saved) + [c] && store.file == Some(c)
  {
    if !installed {
      return false;
    }
    var config := Load(store.file, now);
    config := config.(isRunning := true);
    store.Save(config);
    ok := true;
  }

  /** `stop`: marks the configuration stopped and saves it; nothing else changes. */
  method Stop(store: ConfigStore, now: Instant)
    modifies store
    ensures var c := Load(old(store.file), now).(isRunning := false);
      store.saved == old(store.saved) + [c] && store.file == Some(c)
  {
    var config := Load(store.file, now);
    config := config.(isRunning := false);
    store.Save(config);
  }

  /** The eleven switches in `status`'s list order (that of `allCases`). */
  function Switches(s: CategorySettings): seq<bool> {
    [s.reference, s.weather, s.tech, s.news, s.finance, s.science,
     s.entertainment, s.lifestyle, s.sports, s.recipes, s.travel]
  }

  /** `filter { $0 }.count`. */
  function CountTrue(bs: seq<bool>): (n: nat)
    ensures n <= |bs|
  {
    if bs == [] then 0 else (if bs[0] then 1 else 0) + CountTrue(bs[1..])
  }

  lemma {:induction false} CountTrueExtremes(bs: seq<bool>)
    ensures CountTrue(bs) == |bs| <==> forall i | 0 <= i < |bs| :: bs[i]
    ensures CountTrue(bs) == 0 <==> forall i | 0 <= i < |bs| :: !bs[i]
  {
    if bs != [] {
      CountTrueExtremes(bs[1..]);
      assert forall i | 1 <= i < |bs| :: bs[i] == bs[1..][i - 1];
    }
  }

  lemma {:induction false} CountTrueFlip(bs: seq<bool>, i: nat)
    requires i < |bs|
    ensures CountTrue(bs[i := !bs[i]]) == if bs[i] then CountTrue(bs) - 1 else CountTrue(bs) + 1
  {
    if i > 0 {
      assert bs[i := !bs[i]][1..] == bs[1..][i - 1 := !bs[i]];
      CountTrueFlip(bs[1..], i - 1);
    } else {
      assert bs[i := !bs[i]][1..] == bs[1..];
    }
  }

  /** The `status` count of enabled categories. */
  function EnabledCount(s: CategorySettings): (n: nat)
    ensures n <= 11
  {
    CountTrue(Switches(s))
  }

  /** Entry `CategoryIndex(c)` of the list is category `c`'s switch. */
  lemma SwitchAt(s: CategorySettings, c: Category)
    ensures |Switches(s)| == |AllCategories| && Switches(s)[CategoryIndex(c)] == s.Enabled(c)
  {
    match c
    case Reference =>
    case Weather =>
    case Tech =>
    case News =>
    case Finance =>
    case Science =>
    case Entertainment =>
    case Lifestyle =>
    case Sports =>
    case Recipes =>
    case Travel =>
  }

  /** Entry `j` of the list is the switch of the `j`-th category of `allCases`. */
  lemma SwitchesIndex(s: CategorySettings, j: nat)
    requires j < |AllCategories|
    ensures |Switches(s)| == |AllCategories| && Switches(s)[j] == s.Enabled(AllCategories[j])
  {
    CategoryIndexInverse(j);
    SwitchAt(s, AllCategories[j]);
  }

  /** The count is 11 exactly when every category is on and 0 exactly when every
      one is off. */
  lemma EnabledCountExtremes(s: CategorySettings)
    ensures EnabledCount(s) == 11 <==> forall c: Category :: s.Enabled(c)
    ensures EnabledCount(s) == 0 <==> forall c: Category :: !s.Enabled(c)
  {
    var bs := Switches(s);
    CountTrueExtremes(bs);
    forall c: Category ensures bs[CategoryIndex(c)] == s.Enabled(c) {
      SwitchAt(s, c);
    }
    if forall c: Category :: s.Enabled(c) {
      forall i | 0 <= i < |bs| ensures bs[i] {
        SwitchesIndex(s, i);
      }
    }
    if forall c: Category :: !s.Enabled(c) {
      forall i | 0 <= i < |bs| ensures !bs[i] {
        SwitchesIndex(s, i);
      }
    }
  }

  /** With the default switches `status` shows all eleven categories enabled. */
  lemma EnabledCountDefault()
    ensures EnabledCount(AllEnabled) == 11
  {
    DefaultConfigValues(Moment(0, 0));
    EnabledCountExtremes(AllEnabled);
  }

  /** Settings that differ from `s` in category `c`'s switch alone differ from it
      in entry `CategoryIndex(c)` of the list alone. */
  lemma SwitchesDiffer(s: CategorySettings, t: CategorySettings, c: Category)
    requires forall d | d != c :: t.Enabled(d) == s.Enabled(d)
    ensures Switches(t) == Switches(s)[CategoryIndex(c) := t.Enabled(c)]
  {
    var bs := Switches(s);
    forall j | 0 <= j < |bs| ensures Switches(t)[j] == bs[CategoryIndex(c) := t.Enabled(c)][j] {
      SwitchDiffers(s, t, c, j);
    }
  }

  lemma SwitchDiffers(s: CategorySettings, t: CategorySettings, c: Category, j: nat)
    requires j < |AllCategories|
    requires AllCategories[j] != c ==> t.Enabled(AllCategories[j]) == s.Enabled(AllCategories[j])
    ensures Switches(t)[j] == Switches(s)[CategoryIndex(c) := t.Enabled(c)][j]
  {
    CategoryIndexInverse(j);
    SwitchesIndex(s, j);
    SwitchesIndex(t, j);
  }

  /** Flipping one switch moves the count by exactly one. */
  lemma EnabledCountFlip(s: CategorySettings, c: Category)
    ensures EnabledCount(s.With(c, !s.Enabled(c))) == if s.Enabled(c) then EnabledCount(s) - 1 else EnabledCount(s) + 1
  {
    var bs := Switches(s);
    WithOthers(s, c, !s.Enabled(c));
    SwitchesDiffer(s, s.With(c, !s.Enabled(c)), c);
    SwitchAt(s, c);
    CountTrueFlip(bs, CategoryIndex(c));
  }

  /** The options of `config`. */
  datatype ConfigOptions = ConfigOptions(limit: Option<int>, start: Option<int>, end: Option<int>)

  datatype OptionError = LimitOutOfRange | StartOutOfRange | EndOutOfRange

  /** An option that is absent or lies in `[lo, hi]`. */
  predicate OptionIn(v: Option<int>, lo: int, hi: int) {
    v.None? || lo <= v.value <= hi
  }

  /** `config`'s `validate`: limit in 0-50, hours in 0-23, checked in that order. */
  function ValidateOptions(o: ConfigOptions): (r: Option<OptionError>)
    ensures r.None? <==> OptionIn(o.limit, 0, 50) && OptionIn(o.start, 0, 23) && OptionIn(o.end, 0, 23)
    ensures r == Some(LimitOutOfRange) <==> !OptionIn(o.limit, 0, 50)
    ensures r == Some(StartOutOfRange) <==> OptionIn(o.limit, 0, 50) && !OptionIn(o.start, 0, 23)
    ensures r == Some(EndOutOfRange) <==> OptionIn(o.limit, 0, 50) && OptionIn(o.start, 0, 23) && !OptionIn(o.end, 0, 23)
  {
    if !OptionIn(o.limit, 0, 50) then Some(LimitOutOfRange)
    else if !OptionIn(o.start, 0, 23) then Some(StartOutOfRange)
    else if !OptionIn(o.end, 0, 23) then Some(EndOutOfRange)
    else None
  }

  /** The assignments of `config`'s `run`. */
  function ApplyOptions(c: Config, o: ConfigOptions): Config {
    c.(dailyLimit := o.limit.GetOr(c.dailyLimit),
       startHour := o.start.GetOr(c.startHour),
       endHour := o.end.GetOr(c.endHour))
  }

  /** Only the given options change the record; with none given it is unchanged. */
  lemma ApplyOptionsFrame(c: Config, o: ConfigOptions)
    ensures var r := ApplyOptions(c, o);
      && r.(dailyLimit := c.dailyLimit, startHour := c.startHour, endHour := c.endHour) == c
      && (o.limit.Some? ==> r.dailyLimit == o.limit.value) && (o.limit.None? ==> r.dailyLimit == c.dailyLimit)
      && (o.start.Some? ==> r.startHour == o.start.value) && (o.start.None? ==> r.startHour == c.startHour)
      && (o.end.Some? ==> r.endHour == o.end.value) && (o.end.None? ==> r.endHour == c.endHour)
  {
  }

  /** The ranges the command line keeps. */
  predicate InCliRanges(c: Config) {
    0 <= c.dailyLimit <= 50 && 0 <= c.startHour <= 23 && 0 <= c.endHour <= 23
  }

  /** The defaults are in range, and applying validated options keeps a record in
      range. */
  lemma ValidatedOptionsKeepRanges(c: Config, o: ConfigOptions, now: Instant)
    requires InCliRanges(c)
    requires ValidateOptions(o).None?
    ensures InCliRanges(ApplyOptions(c, o))
    ensures InCliRanges(DefaultConfig(now))
  {
  }

  /** `config`: validation first (no change on failure); then assign the given
      options and always save. With no option given the current values are shown. */
  method ConfigCommand(store: ConfigStore, o: ConfigOptions, now: Instant) returns (r: Result<bool, OptionError>)
    modifies store
    ensures ValidateOptions(o).Some? ==>
      r == Failure(ValidateOptions(o).value) && store.file == old(store.file) && store.saved == old(store.saved)
    ensures ValidateOptions(o).None? ==>
      var c := ApplyOptions(Load(old(store.file), now), o);
      && r == Success(o.limit.None? && o.start.None? && o.end.None?)
      && store.saved == old(store.saved) + [c] && store.file == Some(c)
  {
    var invalid := ValidateOptions(o);
    if invalid.Some? {
      return Failure(invalid.value);
    }
    var config := Load(store.file, now);
    if o.limit.Some? {
      config := config.(dailyLimit := o.limit.value);
    }
    if o.start.Some? {
      config := config.(startHour := o.start.value);
    }
    if o.end.Some? {
      config := config.(endHour := o.end.value);
    }
    var showCurrent := o.limit.None? && o.start.None? && o.end.None?;
    store.Save(config);
    r := Success(showCurrent);
  }

  /** The flags of `config categories`: `--x` toggles category x, `--no-x` turns
      it off. */
  datatype CategoryFlags = CategoryFlags(toggle: set<Category>, off: set<Category>)

  /** One category's pair of flags: the toggle first, then the forced off. */
  function FlagResult(on: bool, toggled: bool, forcedOff: bool): bool {
    if forcedOff then false else if toggled then !on else on
  }

  /** The switches after `config categories`. */
  function ApplyFlags(s: CategorySettings, f: CategoryFlags): CategorySettings {
    CategorySettings(
      FlagResult(s.reference, Reference in f.toggle, Reference in f.off),
      FlagResult(s.weather, Weather in f.toggle, Weather in f.off),
      FlagResult(s.tech, Tech in f.toggle, Tech in f.off),
      FlagResult(s.news, News in f.toggle, News in f.off),
      FlagResult(s.finance, Finance in f.toggle, Finance in f.off),
      FlagResult(s.science, Science in f.toggle, Science in f.off),
      FlagResult(s.entertainment, Entertainment in f.toggle, Entertainment in f.off),
      FlagResult(s.lifestyle, Lifestyle in f.toggle, Lifestyle in f.off),
      FlagResult(s.sports, Sports in f.toggle, Sports in f.off),
      FlagResult(s.recipes, Recipes in f.toggle, Recipes in f.off),
      FlagResult(s.travel, Travel in f.toggle, Travel in f.off))
  }

  /** Per category: `--no-x` always wins (both flags give off), `--x` alone flips
      the switch, and a category without flags keeps its value. */
  lemma ApplyFlagsAt(s: CategorySettings, f: CategoryFlags, c: Category)
    ensures ApplyFlags(s, f).Enabled(c) == FlagResult(s.Enabled(c), c in f.toggle, c in f.off)
    ensures c in f.off ==> !ApplyFlags(s, f).Enabled(c)
    ensures c !in f.off && c in f.toggle ==> ApplyFlags(s, f).Enabled(c) == !s.Enabled(c)
    ensures c !in f.off && c !in f.toggle ==> ApplyFlags(s, f).Enabled(c) == s.Enabled(c)
  {
    match c
    case Reference =>
    case Weather =>
    case Tech =>
    case News =>
    case Finance =>
    case Science =>
    case Entertainment =>
    case Lifestyle =>
    case Sports =>
    case Recipes =>
    case Travel =>
  }

  /** One step of the chain: only category `c` = `AllCategories[i]` moves. */
  lemma FlagStep(before: CategorySettings, after: CategorySettings, c: Category, f: CategoryFlags, i: nat)
    requires i < |AllCategories| && AllCategories[i] == c
    requires after == (var t := if c in f.toggle then before.With(c, !before.Enabled(c)) else before;
                       if c in f.off then t.With(c, false) else t)
    ensures after.Enabled(c) == FlagResult(before.Enabled(c), c in f.toggle, c in f.off)
    ensures forall j | 0 <= j < |AllCategories| && j != i :: after.Enabled(AllCategories[j]) == before.Enabled(AllCategories[j])
  {
    var t := if c in f.toggle then before.With(c, !before.Enabled(c)) else before;
    WithOthers(before, c, !before.Enabled(c));
    WithOthers(t, c, false);
    forall j | 0 <= j < |AllCategories| && j != i
      ensures after.Enabled(AllCategories[j]) == before.Enabled(AllCategories[j])
    {
      CategoryIndexInverse(j);
      CategoryIndexInverse(i);
    }
  }

  /** `config categories`' chain of flag checks, one category after another in
      `allCases` order, noting whether any flag was given. */
  method ApplyCategoryFlags(s: CategorySettings, f: CategoryFlags) returns (r: CategorySettings, changed: bool)
    ensures r == ApplyFlags(s, f)
    ensures changed <==> f.toggle != {} || f.off != {}
  {
    r, changed := s, false;
    for i := 0 to |AllCategories|
      invariant forall j | 0 <= j < i ::
        r.Enabled(AllCategories[j]) == FlagResult(s.Enabled(AllCategories[j]), AllCategories[j] in f.toggle, AllCategories[j] in f.off)
      invariant forall j | i <= j < |AllCategories| :: r.Enabled(AllCategories[j]) == s.Enabled(AllCategories[j])
      invariant changed <==> exists j | 0 <= j < i :: AllCategories[j] in f.toggle || AllCategories[j] in f.off
    {
      var c := AllCategories[i];
      ghost var before := r;
      if c in f.toggle {
        r := r.With(c, !r.Enabled(c));
        changed := true;
      }
      if c in f.off {
        r := r.With(c, false);
        changed := true;
      }
      FlagStep(before, r, c, f, i);
    }
    forall c: Category ensures r.Enabled(c) == ApplyFlags(s, f).Enabled(c) {
      ApplyFlagsAt(s, f, c);
      var j := CategoryIndex(c);
    }
    SettingsExtensional(r, ApplyFlags(s, f));
    if f.toggle != {} || f.off != {} {
      var c :| c in f.toggle || c in f.off;
      var j := CategoryIndex(c);
    }
  }

  /** `config categories`: apply the flags and save iff any flag was given; the
      switches shown afterwards are returned. */
  method CategoriesCommand(store: ConfigStore, f: CategoryFlags, now: Instant) returns (shown: CategorySettings)
    modifies store
    ensures shown == ApplyFlags(Load(old(store.file), now).enabledCategories, f)
    ensures f.toggle == {} && f.off == {} ==> store.file == old(store.file) && store.saved == old(store.saved)
    ensures f.toggle != {} || f.off != {} ==>
      var c := Load(old(store.file), now).(enabledCategories := shown);
      store.saved == old(store.saved) + [c] && store.file == Some(c)
  {
    var config := Load(store.file, now);
    var settings, changed := ApplyCategoryFlags(config.enabledCategories, f);
    config := config.(enabledCategories := settings);
    if changed {
      store.Save(config);
    }
    shown := settings;
  }
}
