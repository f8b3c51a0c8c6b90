/** The tick of the command-line revision in Sources/CLI/DigiNoiseCLI.swift: the
    shared catalog `APIEndpoint.all`, filtered by category, with no persona. */
module DigiNoiseCli {
  import opened Wrappers
  import opened Clock
  import opened Catalog
  import opened ConfigState
  import opened NoiseGenerator

  /** This revision's pool: `APIEndpoint.all` filtered by the enabled categories. */
  function CatalogPool(c: Config): seq<Endpoint> {
    EnabledOnly(All(), c.enabledCategories)
  }

  /** `NoiseGenerator.generate` of this revision. */
  method Generate(store: ConfigStore, now: Instant, cal: Calendar, x: Exchange) returns (t: Tick)
    modifies store
    ensures TickSpec(old(store.file), old(store.saved), store.file, store.saved, now, cal, CatalogPool, CliUserAgent, x, t)
  {
    t := RunTick(store, now, cal, CatalogPool, CliUserAgent, x);
  }

  /** The persona field is ignored: the pool is the shared generator's pool for the
      general persona, and it is empty exactly when every category is off. */
  lemma CatalogPoolIgnoresPersona(c: Config)
    ensures CatalogPool(c) == SharedPool(c.(currentPersona := General))
    ensures CatalogPool(c) == [] <==> forall k: Category :: !c.enabledCategories.Enabled(k)
  {
    EnabledOnlyEmpty(All(), c.enabledCategories);
    if CatalogPool(c) == [] {
      forall k: Category ensures !c.enabledCategories.Enabled(k) {
        var i := FirstOfCategory(k);
        assert All()[i] == DefaultEndpoints[i];
        assert All()[i] in All();
      }
    }
  }
}
