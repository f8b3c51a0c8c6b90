/** The older, self-contained command-line revision (Sources/CLI/main.swift):
    its own 49-endpoint catalog and a tick that filters that catalog by category
    and knows nothing of personas. Its `Config` has no persona field; the model's
    record carries one that this revision never reads. */
module LegacyCli {
  import opened Wrappers
  import opened Clock
  import opened Catalog
  import opened ConfigState
  import opened NoiseGenerator

  /** `APIEndpoint.all` of this revision. */
  const LegacyCatalog: seq<Endpoint> :=
    [ Endpoint("English Wikipedia", Reference)
    , Endpoint("Spanish Wikipedia", Reference)
    , Endpoint("French Wikipedia", Reference)
    , Endpoint("German Wikipedia", Reference)
    , Endpoint("Italian Wikipedia", Reference)
    , Endpoint("Portuguese Wikipedia", Reference)
    , Endpoint("London Weather", Weather)
    , Endpoint("Paris Weather", Weather)
    , Endpoint("Berlin Weather", Weather)
    , Endpoint("Rome Weather", Weather)
    , Endpoint("Moscow Weather", Weather)
    , Endpoint("Tokyo Weather", Weather)
    , Endpoint("Beijing Weather", Weather)
    , Endpoint("Singapore Weather", Weather)
    , Endpoint("Dubai Weather", Weather)
    , Endpoint("New Delhi Weather", Weather)
    , Endpoint("Jakarta Weather", Weather)
    , Endpoint("New York Weather", Weather)
    , Endpoint("Los Angeles Weather", Weather)
    , Endpoint("Mexico City Weather", Weather)
    , Endpoint("S\U{e3}o Paulo Weather", Weather)
    , Endpoint("Sydney Weather", Weather)
    , Endpoint("Toronto Weather", Weather)
    , Endpoint("Cape Town Weather", Weather)
    , Endpoint("Nairobi Weather", Weather)
    , Endpoint("Hacker News", Tech)
    , Endpoint("GitHub Activity", Tech)
    , Endpoint("World News", News)
    , Endpoint("Science News", Science)
    , Endpoint("Space News", Science)
    , Endpoint("Random Quote", Lifestyle)
    , Endpoint("Art Institute", Entertainment)
    , Endpoint("Book Search", Entertainment)
    , Endpoint("Cocktail Recipe", Lifestyle)
    , Endpoint("Dog Photo", Entertainment)
    , Endpoint("Activity Suggestion", Lifestyle)
    , Endpoint("Bitcoin Price", Finance)
    , Endpoint("Crypto Rates", Finance)
    , Endpoint("S&P 500", Finance)
    , Endpoint("Dow Jones", Finance)
    , Endpoint("NASDAQ", Finance)
    , Endpoint("Sports List", Sports)
    , Endpoint("Sports Countries", Sports)
    , Endpoint("Premier League", Sports)
    , Endpoint("Random Meal", Recipes)
    , Endpoint("Meal Selection", Recipes)
    , Endpoint("Country Facts", Travel)
    , Endpoint("Exchange Rates", Travel)
    , Endpoint("World Time", Travel)
    ]

  /** An index of an endpoint of each category in the legacy catalog. */
  function LegacyWitness(c: Category): (i: nat)
    ensures i < |LegacyCatalog| && LegacyCatalog[i].category == c
  {
    match c
    case Reference => 5
    case Weather => 6
    case Tech => 25
    case News => 27
    case Science => 28
    case Lifestyle => 30
    case Entertainment => 31
    case Finance => 36
    case Sports => 41
    case Recipes => 44
    case Travel => 46
  }

  /** This revision's pool: the whole catalog filtered by the enabled categories. */
  function LegacyPool(c: Config): seq<Endpoint> {
    EnabledOnly(LegacyCatalog, c.enabledCategories)
  }

  /** `NoiseGenerator.generate` of this revision. Its `canRunToday` is a
      `mutating get` that applies the daily reset before comparing. */
  method Generate(store: ConfigStore, now: Instant, cal: Calendar, x: Exchange) returns (t: Tick)
    modifies store
    ensures TickSpec(old(store.file), old(store.saved), store.file, store.saved, now, cal, LegacyPool, CliUserAgent, x, t)
  {
    t := RunTick(store, now, cal, LegacyPool, CliUserAgent, x);
  }

  /** The catalog covers every category, so the tick skips for lack of candidates
      exactly when every category is switched off; the persona never matters. */
  lemma LegacyPoolEmptyIff(c: Config, p: Persona)
    ensures LegacyPool(c) == [] <==> forall k: Category :: !c.enabledCategories.Enabled(k)
    ensures LegacyPool(c.(currentPersona := p)) == LegacyPool(c)
  {
    EnabledOnlyEmpty(LegacyCatalog, c.enabledCategories);
    if LegacyPool(c) == [] {
      forall k: Category ensures !c.enabledCategories.Enabled(k) {
        var i := LegacyWitness(k);
        assert LegacyCatalog[i] in LegacyCatalog;
      }
    }
  }
}
