/** One tick of the noise daemon (`NoiseGenerator` in Sources/Shared/NoiseGenerator.swift):
    the gating order, the time arithmetic behind each deferral, the category filter
    and the request bookkeeping. The revisions in Sources/CLI instantiate the same
    tick with their own candidate pools. */
module NoiseGenerator {
  import opened Wrappers
  import opened Clock
  import opened Catalog
  import opened ConfigState

  /** Bounds of the default backoff, `TimeInterval.random(in: 3600...21600)`. */
  const MinBackoff: int := 3600
  const MaxBackoff: int := 21600

  /** Fallback of `secondsUntilActiveHours` when the calendar cannot build a date. */
  const ActiveHoursFallback: int := 3600

  /** The request timeout, in seconds. */
  const RequestTimeout: int := 30

  /** The User-Agent of the daemon's requests. */
  const CliUserAgent: string := "DigiNoise-CLI/1.0"

  /** `isWithinActiveHours`: the hour-granular window `[startHour, endHour)`, which
      wraps past midnight when `startHour > endHour`. */
  predicate IsWithinActiveHours(startHour: int, endHour: int, hour: int) {
    if startHour > endHour then hour >= startHour || hour < endHour
    else hour >= startHour && hour < endHour
  }

  /** A window whose start equals its end never opens. */
  lemma DegenerateWindowClosed(h: int, hour: int)
    ensures !IsWithinActiveHours(h, h, hour)
  {
  }

  /** An overnight window is exactly the complement of the daytime window with the
      same two hours swapped: `22-6` is active whenever `6-22` is not. */
  lemma WindowComplement(startHour: int, endHour: int, hour: int)
    requires startHour != endHour
    ensures IsWithinActiveHours(startHour, endHour, hour) <==> !IsWithinActiveHours(endHour, startHour, hour)
  {
  }

  /** The number of hours in `[0, n)` at which the window is open. */
  function ActiveHoursBelow(startHour: int, endHour: int, n: nat): (k: nat)
    ensures k <= n
  {
    if n == 0 then 0
    else ActiveHoursBelow(startHour, endHour, n - 1) + (if IsWithinActiveHours(startHour, endHour, n - 1) then 1 else 0)
  }

  /** Daytime windows count the hours from start to end. */
  lemma {:induction false} DaytimeHoursBelow(startHour: int, endHour: int, n: nat)
    requires 0 <= startHour <= endHour
    ensures ActiveHoursBelow(startHour, endHour, n) == if n <= startHour then 0 else if n <= endHour then n - startHour else endHour - startHour
  {
    if n > 0 {
      DaytimeHoursBelow(startHour, endHour, n - 1);
    }
  }

  /** Overnight windows count the hours before end plus those from start on. */
  lemma {:induction false} OvernightHoursBelow(startHour: int, endHour: int, n: nat)
    requires 0 <= endHour < startHour
    ensures ActiveHoursBelow(startHour, endHour, n) == (if n <= endHour then n else endHour) + (if n <= startHour then 0 else n - startHour)
  {
    if n > 0 {
      OvernightHoursBelow(startHour, endHour, n - 1);
    }
  }

  /** Over a whole day the window is open for `(endHour - startHour) mod 24` hours. */
  lemma ActiveHoursPerDay(startHour: int, endHour: int)
    requires 0 <= startHour < 24 && 0 <= endHour < 24
    ensures ActiveHoursBelow(startHour, endHour, 24) == (endHour - startHour) % 24
  {
    if startHour <= endHour {
      DaytimeHoursBelow(startHour, endHour, 24);
    } else {
      OvernightHoursBelow(startHour, endHour, 24);
    }
  }

  /** Seconds from `now` to `hour:00` of the same day, or the one-hour fallback. */
  function UntilToday(cal: Calendar, now: Instant, hour: int): int {
    match SetTime(cal, now, hour, 0)
    case Some(t) => Epoch(t) - Epoch(now)
    case None => ActiveHoursFallback
  }

  /** `secondsUntilActiveHours`: 0 inside the window; otherwise the time to the next
      `startHour:00` (tomorrow's once a daytime window has closed), with 3600 when
      the calendar fails. */
  function SecondsUntilActiveHours(c: Config, now: Instant, cal: Calendar): int {
    var hour := HourOf(now);
    if c.startHour > c.endHour then
      if hour >= c.startHour || hour < c.endHour then 0
      else
        var targetHour := if hour < c.endHour then 0 else c.startHour;
        UntilToday(cal, now, targetHour)
    else if hour >= c.startHour && hour < c.endHour then 0
    else if hour >= c.endHour && AddDay(cal, now).Some? && SetTime(cal, AddDay(cal, now).value, c.startHour, 0).Some? then
      Epoch(SetTime(cal, AddDay(cal, now).value, c.startHour, 0).value) - Epoch(now)
    else UntilToday(cal, now, c.startHour)
  }

  /** The wait is zero exactly inside the window and positive outside it, whenever
      the calendar can add a day (whatever the configured hours). */
  lemma ActiveHoursWaitSign(c: Config, now: Instant, cal: Calendar)
    requires cal.addDayWorks
    ensures var w := SecondsUntilActiveHours(c, now, cal);
      && (w == 0 <==> IsWithinActiveHours(c.startHour, c.endHour, HourOf(now)))
      && w >= 0
  {
  }

  /** With a working calendar and a valid start hour, waiting lands exactly at
      `startHour:00`: tomorrow once a daytime window has closed, today otherwise,
      and never more than a day away. */
  lemma ActiveHoursWaitTarget(c: Config, now: Instant)
    requires 0 <= c.startHour < 24
    requires !IsWithinActiveHours(c.startHour, c.endHour, HourOf(now))
    ensures var w := SecondsUntilActiveHours(c, now, WorkingCalendar);
      var day := if c.startHour <= c.endHour && HourOf(now) >= c.endHour then now.day + 1 else now.day;
      && After(now, w) == Moment(day, c.startHour * SecondsPerHour)
      && 0 < w <= SecondsPerDay
  {
    var w := SecondsUntilActiveHours(c, now, WorkingCalendar);
    var day := if c.startHour <= c.endHour && HourOf(now) >= c.endHour then now.day + 1 else now.day;
    assert Epoch(After(now, w)) == Epoch(Moment(day, c.startHour * SecondsPerHour));
  }

  /** `secondsUntilTomorrow`: the time to 00:01 of the next day, or a whole day when
      the calendar fails. */
  function SecondsUntilTomorrow(now: Instant, cal: Calendar): (w: int)
    ensures 61 <= w <= SecondsPerDay + 60
  {
    match AddDay(cal, now)
    case Some(tomorrow) =>
      (match SetTime(cal, tomorrow, 0, 1)
       case Some(t) => Epoch(t) - Epoch(now)
       case None => SecondsPerDay)
    case None => SecondsPerDay
  }

  /** With a working calendar the quota deferral lands at 00:01:00 of the next day. */
  lemma TomorrowTarget(now: Instant)
    ensures After(now, SecondsUntilTomorrow(now, WorkingCalendar)) == Moment(now.day + 1, 60)
  {
    assert Epoch(After(now, SecondsUntilTomorrow(now, WorkingCalendar))) == Epoch(Moment(now.day + 1, 60));
  }

  /** The category filter of the tick: the endpoints whose category is enabled,
      in their original order. */
  function EnabledOnly(endpoints: seq<Endpoint>, s: CategorySettings): (r: seq<Endpoint>)
    ensures |r| <= |endpoints|
    ensures forall e :: e in r <==> e in endpoints && s.Enabled(e.category)
  {
    if endpoints == [] then []
    else (if s.Enabled(endpoints[0].category) then [endpoints[0]] else []) + EnabledOnly(endpoints[1..], s)
  }

  /** Filtering distributes over concatenation, so it keeps relative order. */
  lemma {:induction false} EnabledOnlyConcat(a: seq<Endpoint>, b: seq<Endpoint>, s: CategorySettings)
    ensures EnabledOnly(a + b, s) == EnabledOnly(a, s) + EnabledOnly(b, s)
  {
    if a != [] {
      assert (a + b)[0] == a[0];
      assert (a + b)[1..] == a[1..] + b;
      EnabledOnlyConcat(a[1..], b, s);
    } else {
      assert a + b == b;
    }
  }

  /** When every category the list uses is enabled, the filter keeps the whole list. */
  lemma {:induction false} EnabledOnlyKeepsAll(endpoints: seq<Endpoint>, s: CategorySettings)
    requires forall e | e in endpoints :: s.Enabled(e.category)
    ensures EnabledOnly(endpoints, s) == endpoints
  {
    if endpoints != [] {
      EnabledOnlyKeepsAll(endpoints[1..], s);
    }
  }

  /** The filter is empty exactly when no endpoint's category is enabled; in
      particular with every category switched off. */
  lemma EnabledOnlyEmpty(endpoints: seq<Endpoint>, s: CategorySettings)
    ensures EnabledOnly(endpoints, s) == [] <==> forall e | e in endpoints :: !s.Enabled(e.category)
    ensures (forall c: Category :: !s.Enabled(c)) ==> EnabledOnly(endpoints, s) == []
  {
    if EnabledOnly(endpoints, s) != [] {
      var e := EnabledOnly(endpoints, s)[0];
      assert e in EnabledOnly(endpoints, s);
    }
  }

  /** The network's answer to the chosen endpoint: its URL does not parse, the
      transfer throws, or an HTTP response with a status code arrives. */
  datatype Exchange = InvalidUrl | TransportError | Response(status: int)

  /** Only a 2xx response counts against the daily quota. */
  predicate Succeeded(x: Exchange) {
    x.Response? && 200 <= x.status <= 299
  }

  datatype DeferReason = DailyLimitReached | OutsideActiveHours

  /** What a tick decides before any request is made. */
  datatype Decision =
    | Stopped
    | Defer(reason: DeferReason, seconds: int)
    | SkipNoCandidates
    | Attempt(candidates: seq<Endpoint>)

  /** The guards of `generate`, in order: stopped, quota (after the daily reset),
      active hours, then an empty candidate list. `candidates` is the revision's
      pool for the loaded configuration. */
  function Gate(c: Config, now: Instant, cal: Calendar, candidates: seq<Endpoint>): Decision {
    if !c.isRunning then Stopped
    else if !CanRunToday(c, now) then Defer(DailyLimitReached, SecondsUntilTomorrow(now, cal))
    else if !IsWithinActiveHours(c.startHour, c.endHour, HourOf(now)) then
      Defer(OutsideActiveHours, SecondsUntilActiveHours(c, now, cal))
    else if candidates == [] then SkipNoCandidates
    else Attempt(candidates)
  }

  /** True when the tick sends a request and it succeeds. */
  predicate Counts(c: Config, now: Instant, cal: Calendar, candidates: seq<Endpoint>, x: Exchange) {
    Gate(c, now, cal, candidates).Attempt? && Succeeded(x)
  }

  /** The configuration a tick ends with. */
  function TickConfig(c: Config, now: Instant, cal: Calendar, candidates: seq<Endpoint>, x: Exchange): Config {
    if !c.isRunning then c
    else
      var r := ResetDaily(c, now);
      if Counts(c, now, cal, candidates, x) then r.(requestCount := r.requestCount + 1) else r
  }

  /** The records a tick saves: the daily reset's, then the counted success's. */
  function TickWrites(c: Config, now: Instant, cal: Calendar, candidates: seq<Endpoint>, x: Exchange): seq<Config> {
    if !c.isRunning then []
    else ResetWrites(c, now) + (if Counts(c, now, cal, candidates, x) then [TickConfig(c, now, cal, candidates, x)] else [])
  }

  /** A stopped daemon decides nothing else, changes nothing and writes nothing. */
  lemma StoppedTickInert(c: Config, now: Instant, cal: Calendar, candidates: seq<Endpoint>, x: Exchange)
    requires !c.isRunning
    ensures Gate(c, now, cal, candidates) == Stopped
    ensures TickConfig(c, now, cal, candidates, x) == c
    ensures TickWrites(c, now, cal, candidates, x) == []
  {
  }

  /** With no readable config file the daemon loads `Config()`, which is stopped:
      the tick does nothing and writes nothing until `start` saves a record. */
  lemma MissingFileTickInert(now: Instant, cal: Calendar, pool: Config -> seq<Endpoint>, x: Exchange)
    ensures var c := Load(None, now);
      && Gate(c, now, cal, pool(ResetDaily(c, now))) == Stopped
      && TickWrites(c, now, cal, pool(ResetDaily(c, now)), x) == []
  {
    var c := Load(None, now);
    StoppedTickInert(c, now, cal, pool(ResetDaily(c, now)), x);
  }

  /** The guards' order: an exhausted quota defers to tomorrow whatever the hours
      and candidates; the hours are consulted only once the quota passes; the
      candidates only inside the window. */
  lemma GateOrder(c: Config, now: Instant, cal: Calendar, candidates: seq<Endpoint>)
    requires c.isRunning
    ensures !CanRunToday(c, now) ==> Gate(c, now, cal, candidates) == Defer(DailyLimitReached, SecondsUntilTomorrow(now, cal))
    ensures Gate(c, now, cal, candidates).Defer? && Gate(c, now, cal, candidates).reason == OutsideActiveHours
      <==> CanRunToday(c, now) && !IsWithinActiveHours(c.startHour, c.endHour, HourOf(now))
    ensures Gate(c, now, cal, candidates) == SkipNoCandidates
      <==> CanRunToday(c, now) && IsWithinActiveHours(c.startHour, c.endHour, HourOf(now)) && candidates == []
    ensures Gate(c, now, cal, candidates).Attempt?
      <==> CanRunToday(c, now) && IsWithinActiveHours(c.startHour, c.endHour, HourOf(now)) && candidates != []
  {
  }

  /** A tick changes the reset configuration's counter by exactly 0 or 1 (1 iff a
      request succeeded) and leaves every other field alone. */
  lemma TickCountStep(c: Config, now: Instant, cal: Calendar, candidates: seq<Endpoint>, x: Exchange)
    requires c.isRunning
    ensures var r := ResetDaily(c, now);
      var t := TickConfig(c, now, cal, candidates, x);
      && t.requestCount == r.requestCount + (if Counts(c, now, cal, candidates, x) then 1 else 0)
      && t.(requestCount := r.requestCount) == r
  {
  }

  /** A success is counted only below the limit, so a tick never pushes the counter
      past the daily limit. */
  lemma TickKeepsQuota(c: Config, now: Instant, cal: Calendar, candidates: seq<Endpoint>, x: Exchange)
    requires 0 <= c.requestCount <= c.dailyLimit
    ensures TickConfig(c, now, cal, candidates, x).requestCount <= c.dailyLimit
  {
  }

  /** The last record a tick saves is the configuration it ends with, so the file
      and the daemon agree afterwards. */
  lemma TickWritesAgree(c: Config, now: Instant, cal: Calendar, candidates: seq<Endpoint>, x: Exchange)
    ensures var w := TickWrites(c, now, cal, candidates, x);
      w != [] ==> w[|w| - 1] == TickConfig(c, now, cal, candidates, x)
    ensures |TickWrites(c, now, cal, candidates, x)| <= 2
  {
  }

  /** With a daily limit of 1: the first tick of the day inside the window sends a
      request, and after it succeeds the next tick that day defers to tomorrow. */
  lemma {:induction false} LimitOneScenario(c: Config, now: Instant, cal: Calendar, candidates: seq<Endpoint>, x: Exchange)
    requires c.isRunning && c.dailyLimit == 1 && c.requestCount == 0 && SameDay(c.lastResetDate, now)
    requires IsWithinActiveHours(c.startHour, c.endHour, HourOf(now))
    requires candidates != [] && Succeeded(x)
    ensures Gate(c, now, cal, candidates) == Attempt(candidates)
    ensures var c2 := TickConfig(c, now, cal, candidates, x);
      && c2.requestCount == 1
      && Gate(c2, now, cal, candidates) == Defer(DailyLimitReached, SecondsUntilTomorrow(now, cal))
  {
    assert ResetDaily(c, now) == c;
    var c2 := TickConfig(c, now, cal, candidates, x);
    assert c2 == c.(requestCount := 1);
    assert ResetDaily(c2, now) == c2;
  }

  /** A request as sent. */
  datatype Request = Request(endpoint: Endpoint, userAgent: string, timeoutSeconds: int)

  /** The visible result of a tick: its decision, the request it sent (none when
      it did not get that far or the URL did not parse) and the interval until the
      next run (none when stopped: nothing is rescheduled). */
  datatype Tick = Tick(decision: Decision, request: Option<Request>, nextRun: Option<int>)

  /** `scheduleNextRun(seconds:)`: the given interval, or a random one between one
      and six hours. The process exit that follows is not modelled. */
  method ScheduleNextRun(seconds: Option<int>) returns (interval: int)
    ensures seconds.Some? ==> interval == seconds.value
    ensures seconds.None? ==> MinBackoff <= interval <= MaxBackoff
  {
    if seconds.Some? {
      interval := seconds.value;
    } else {
      interval :| MinBackoff <= interval <= MaxBackoff;
    }
  }

  /** Everything one tick promises, given the store before and after. */
  ghost predicate TickSpec(fileBefore: Option<Config>, savedBefore: seq<Config>,
                           fileAfter: Option<Config>, savedAfter: seq<Config>,
                           now: Instant, cal: Calendar, pool: Config -> seq<Endpoint>,
                           userAgent: string, x: Exchange, t: Tick)
  {
    var c := Load(fileBefore, now);
    var candidates := pool(ResetDaily(c, now));
    var writes := TickWrites(c, now, cal, candidates, x);
    && t.decision == Gate(c, now, cal, candidates)
    && savedAfter == savedBefore + writes
    && fileAfter == AfterWrites(fileBefore, writes)
    && (t.request.Some? <==> t.decision.Attempt? && !x.InvalidUrl?)
    && (t.request.Some? ==> t.request.value.endpoint in candidates
                            && t.request.value.userAgent == userAgent
                            && t.request.value.timeoutSeconds == RequestTimeout)
    && (t.decision.Stopped? <==> t.nextRun.None?)
    && (t.decision.Defer? ==> t.nextRun == Some(t.decision.seconds))
    && (t.decision.SkipNoCandidates? || t.decision.Attempt? ==>
          t.nextRun.Some? && MinBackoff <= t.nextRun.value <= MaxBackoff)
  }

  /** `generate`, parameterised by the revision's candidate pool and User-Agent:
      load; stop if not running; reset the day (and again inside `canRunToday`);
      defer on quota, then on hours; skip when no candidate is left; otherwise
      request a random candidate, count and save a 2xx, and reschedule. */
  method RunTick(store: ConfigStore, now: Instant, cal: Calendar, pool: Config -> seq<Endpoint>,
                 userAgent: string, x: Exchange) returns (t: Tick)
    modifies store
    ensures TickSpec(old(store.file), old(store.saved), store.file, store.saved, now, cal, pool, userAgent, x, t)
  {
    var config := Load(store.file, now);
    ghost var c := config;
    if !config.isRunning {
      return Tick(Stopped, None, None);
    }
    config := CheckAndResetDaily(store, config, now);
    var ok;
    config, ok := CanRunTodayCheck(store, config, now);
    if !ok {
      var wait := SecondsUntilTomorrow(now, cal);
      var next := ScheduleNextRun(Some(wait));
      return Tick(Defer(DailyLimitReached, wait), None, Some(next));
    }
    if !IsWithinActiveHours(config.startHour, config.endHour, HourOf(now)) {
      var wait := SecondsUntilActiveHours(config, now, cal);
      var next := ScheduleNextRun(Some(wait));
      return Tick(Defer(OutsideActiveHours, wait), None, Some(next));
    }
    var candidates := pool(config);
    if candidates == [] {
      var next := ScheduleNextRun(None);
      return Tick(SkipNoCandidates, None, Some(next));
    }
    assert candidates[0] in candidates;
    var endpoint :| endpoint in candidates;
    if x.InvalidUrl? {
      var next := ScheduleNextRun(None);
      return Tick(Attempt(candidates), None, Some(next));
    }
    var request := Request(endpoint, userAgent, RequestTimeout);
    if Succeeded(x) {
      config := config.(requestCount := config.requestCount + 1);
      store.Save(config);
    }
    var next := ScheduleNextRun(None);
    t := Tick(Attempt(candidates), Some(request), Some(next));
  }

  /** The shared generator's pool: the general catalog or the current persona's
      list, filtered to the enabled categories. */
  function SharedPool(c: Config): seq<Endpoint> {
    EnabledOnly(if c.currentPersona == General then All() else PersonaEndpoints(c.currentPersona), c.enabledCategories)
  }

  /** The shared pool is simply the current persona's list, filtered. */
  lemma SharedPoolIsPersonaList(c: Config)
    ensures SharedPool(c) == EnabledOnly(PersonaEndpoints(c.currentPersona), c.enabledCategories)
  {
    PersonaCategoriesExact(c.currentPersona);
  }

  /** `NoiseGenerator.generate` of the shared library. */
  method Generate(store: ConfigStore, now: Instant, cal: Calendar, x: Exchange) returns (t: Tick)
    modifies store
    ensures TickSpec(old(store.file), old(store.saved), store.file, store.saved, now, cal, SharedPool, CliUserAgent, x, t)
  {
    t := RunTick(store, now, cal, SharedPool, CliUserAgent, x);
  }
}
