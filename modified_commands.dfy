/** The persona-aware tick of the command-line tool
    (`NoiseGenerator.generateForPersona` in Sources/CLI/ModifiedCommands.swift):
    the shared guards, but the candidates are the persona's whole list, unfiltered,
    and the User-Agent names the persona. */
module ModifiedCommands {
  import opened Wrappers
  import opened Clock
  import opened Catalog
  import opened ConfigState
  import opened NoiseGenerator
  import opened PersonaCommands

  /** The User-Agent of a persona's requests. */
  function PersonaUserAgent(p: Persona): string {
    CliUserAgent + " (Persona:" + RawValue(p) + ")"
  }

  /** The persona User-Agent extends the plain one, ends with `)`, and tells the
      personas apart. */
  lemma PersonaUserAgentShape(p: Persona, q: Persona)
    ensures CliUserAgent <= PersonaUserAgent(p)
    ensures PersonaUserAgent(p)[|PersonaUserAgent(p)| - 1] == ')'
    ensures PersonaUserAgent(p) == PersonaUserAgent(q) ==> p == q
  {
    var prefix := CliUserAgent + " (Persona:";
    assert PersonaUserAgent(p) == prefix + RawValue(p) + ")";
    if PersonaUserAgent(p) == PersonaUserAgent(q) {
      var n := |prefix|;
      assert |RawValue(p)| == |RawValue(q)|;
      assert RawValue(p) == PersonaUserAgent(p)[n..n + |RawValue(p)|];
      assert RawValue(q) == PersonaUserAgent(q)[n..n + |RawValue(q)|];
      LowerRawValueInjective(p, q);
    }
  }

  /** `persona.defaultEndpoints`, whatever the configuration says. */
  function PersonaPool(p: Persona): Config -> seq<Endpoint> {
    c => PersonaEndpoints(p)
  }

  /** `generateForPersona`. */
  method GenerateForPersona(store: ConfigStore, persona: Persona, now: Instant, cal: Calendar, x: Exchange)
    returns (t: Tick)
    modifies store
    ensures TickSpec(old(store.file), old(store.saved), store.file, store.saved, now, cal,
                     PersonaPool(persona), PersonaUserAgent(persona), x, t)
  {
    t := RunTick(store, now, cal, PersonaPool(persona), PersonaUserAgent(persona), x);
  }

  /** The persona's list is never empty, so once the guards pass a request is always
      attempted from the whole list (the forced `randomElement()!` cannot fail). */
  lemma PersonaTickNeverSkips(c: Config, now: Instant, cal: Calendar, p: Persona)
    ensures Gate(c, now, cal, PersonaEndpoints(p)) != SkipNoCandidates
    ensures c.isRunning && CanRunToday(c, now) && IsWithinActiveHours(c.startHour, c.endHour, HourOf(now))
      ==> Gate(c, now, cal, PersonaEndpoints(p)) == Attempt(PersonaEndpoints(p))
  {
  }

  /** Category switches have no influence on this tick: changing them changes
      neither the decision nor anything but the switches in the outcome. */
  lemma PersonaTickIgnoresCategories(c: Config, s: CategorySettings, now: Instant, cal: Calendar, p: Persona, x: Exchange)
    ensures var c2 := c.(enabledCategories := s);
      var pool := PersonaPool(p);
      && pool(ResetDaily(c2, now)) == pool(ResetDaily(c, now))
      && Gate(c2, now, cal, pool(c2)) == Gate(c, now, cal, pool(c))
      && TickConfig(c2, now, cal, pool(c2), x) == TickConfig(c, now, cal, pool(c), x).(enabledCategories := s)
  {
  }

  /** Unlike the shared tick, the persona tick still requests with every category
      switched off. */
  lemma AllOffStillRequests(c: Config, now: Instant, cal: Calendar, p: Persona)
    requires c.isRunning && CanRunToday(c, now) && IsWithinActiveHours(c.startHour, c.endHour, HourOf(now))
    requires forall k: Category :: !c.enabledCategories.Enabled(k)
    ensures Gate(c, now, cal, SharedPool(c)) == SkipNoCandidates
    ensures Gate(c, now, cal, PersonaPool(p)(c)).Attempt?
  {
    EnabledOnlyEmpty(if c.currentPersona == General then All() else PersonaEndpoints(c.currentPersona), c.enabledCategories);
  }
}
