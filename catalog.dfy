/** The endpoint catalog and the personas (Sources/Shared/Personas.swift).
    Only an endpoint's description and category matter here; URLs are data. */
module Catalog {

  /** `APIEndpoint.EndpointCategory`. */
  datatype Category =
    | Reference | Weather | Tech | News | Finance | Science
    | Entertainment | Lifestyle | Sports | Recipes | Travel

  /** `EndpointCategory.allCases`, in declaration order. */
  const AllCategories: seq<Category> :=
    [Reference, Weather, Tech, News, Finance, Science, Entertainment, Lifestyle, Sports, Recipes, Travel]

  /** The position of each category in `allCases`. */
  function CategoryIndex(c: Category): (i: nat)
    ensures i < |AllCategories| && AllCategories[i] == c
  {
    match c
    case Reference => 0
    case Weather => 1
    case Tech => 2
    case News => 3
    case Finance => 4
    case Science => 5
    case Entertainment => 6
    case Lifestyle => 7
    case Sports => 8
    case Recipes => 9
    case Travel => 10
  }

  /** `CategoryIndex` inverts indexing into `allCases`, so its eleven entries
      are distinct. */
  lemma CategoryIndexInverse(j: nat)
    requires j < |AllCategories|
    ensures CategoryIndex(AllCategories[j]) == j
  {
    if j < 4 {
      if j == 0 {} else if j == 1 {} else if j == 2 {} else {}
    } else if j < 8 {
      if j == 4 {} else if j == 5 {} else if j == 6 {} else {}
    } else {
      if j == 8 {} else if j == 9 {} else {}
    }
  }

  /** `EndpointCategory.rawValue`. */
  function CategoryName(c: Category): string {
    match c
    case Reference => "Reference"
    case Weather => "Weather"
    case Tech => "Tech"
    case News => "News"
    case Finance => "Finance"
    case Science => "Science"
    case Entertainment => "Entertainment"
    case Lifestyle => "Lifestyle"
    case Sports => "Sports"
    case Recipes => "Recipes"
    case Travel => "Travel"
  }

  /** `APIEndpoint`, without its URL. */
  datatype Endpoint = Endpoint(description: string, category: Category)

  /** `APIEndpoint.default`. */
  const DefaultEndpoints: seq<Endpoint> :=
    [ Endpoint("English Wikipedia", Reference)
    , Endpoint("Spanish Wikipedia", Reference)
    , Endpoint("French Wikipedia", Reference)
    , Endpoint("German Wikipedia", Reference)
    , Endpoint("Italian Wikipedia", Reference)
    , Endpoint("Portuguese Wikipedia", Reference)
    , Endpoint("London Weather", Weather)
    , Endpoint("Paris Weather", Weather)
    , Endpoint("New York Weather", Weather)
    , Endpoint("Tokyo Weather", Weather)
    , Endpoint("Singapore Weather", Weather)
    , Endpoint("Sydney Weather", Weather)
    , Endpoint("Hacker News", Tech)
    , Endpoint("GitHub Activity", Tech)
    , Endpoint("World News", News)
    , Endpoint("Science News", Science)
    , Endpoint("Space News", Science)
    , Endpoint("Random Quote", Lifestyle)
    , Endpoint("Art Institute", Entertainment)
    , Endpoint("Book Search", Entertainment)
    , Endpoint("Cocktail Recipe", Lifestyle)
    , Endpoint("Dog Photo", Entertainment)
    , Endpoint("Activity Suggestion", Lifestyle)
    , Endpoint("Bitcoin Price", Finance)
    , Endpoint("Crypto Rates", Finance)
    , Endpoint("S&P 500", Finance)
    , Endpoint("Dow Jones", Finance)
    , Endpoint("NASDAQ", Finance)
    , Endpoint("Sports List", Sports)
    , Endpoint("Sports Countries", Sports)
    , Endpoint("Premier League", Sports)
    , Endpoint("Random Meal", Recipes)
    , Endpoint("Meal Selection", Recipes)
    , Endpoint("Country Facts", Travel)
    , Endpoint("Exchange Rates", Travel)
    , Endpoint("World Time", Travel)
    ]

  /** The extra weather cities that `APIEndpoint.all` appends to the default list. */
  const ExtraWeather: seq<Endpoint> :=
    [ Endpoint("Berlin Weather", Weather)
    , Endpoint("Rome Weather", Weather)
    , Endpoint("Moscow Weather", Weather)
    , Endpoint("Beijing Weather", Weather)
    , Endpoint("Dubai Weather", Weather)
    , Endpoint("New Delhi Weather", Weather)
    , Endpoint("Jakarta Weather", Weather)
    , Endpoint("Mexico City Weather", Weather)
    , Endpoint("S\U{e3}o Paulo Weather", Weather)
    , Endpoint("Toronto Weather", Weather)
    , Endpoint("Cape Town Weather", Weather)
    , Endpoint("Nairobi Weather", Weather)
    ]

  /** `APIEndpoint.all`: the default list followed by the extra weather cities. */
  function All(): seq<Endpoint> {
    DefaultEndpoints + ExtraWeather
  }

  /** The categories an endpoint list touches (`Set(endpoints.map { $0.category })`). */
  function CategoriesUsed(endpoints: seq<Endpoint>): set<Category> {
    set e | e in endpoints :: e.category
  }

  /** `Persona`. */
  datatype Persona =
    | General | KoreanGymnast | TravelingEuro | TechBro | FitnessEnthusiast
    | Foodie | FinancialAnalyst | SportsFan | DigitalNomad | Student

  /** `Persona.allCases`, in declaration order. */
  const AllPersonas: seq<Persona> :=
    [General, KoreanGymnast, TravelingEuro, TechBro, FitnessEnthusiast,
     Foodie, FinancialAnalyst, SportsFan, DigitalNomad, Student]

  /** `Persona.rawValue`. */
  function RawValue(p: Persona): string {
    match p
    case General => "General"
    case KoreanGymnast => "Korean Gymnast"
    case TravelingEuro => "The Traveling Euro"
    case TechBro => "Silicon Valley Tech Bro"
    case FitnessEnthusiast => "Fitness Enthusiast"
    case Foodie => "Foodie Explorer"
    case FinancialAnalyst => "Financial Analyst"
    case SportsFan => "Sports Fan"
    case DigitalNomad => "Digital Nomad"
    case Student => "University Student"
  }

  /** `Persona.koreanGymnast.defaultEndpoints`. */
  const KoreanGymnastEndpoints: seq<Endpoint> :=
    [ Endpoint("Korean Wikipedia", Reference)
    , Endpoint("Seoul Weather", Weather)
    , Endpoint("Busan Weather", Weather)
    , Endpoint("K-Pop News", Entertainment)
    , Endpoint("Korea Subreddit", News)
    , Endpoint("Gymnastics Reddit", Sports)
    , Endpoint("Korean Movies", Entertainment)
    ]

  /** `Persona.travelingEuro.defaultEndpoints`. */
  const TravelingEuroEndpoints: seq<Endpoint> :=
    [ Endpoint("German Wikipedia", Reference)
    , Endpoint("French Wikipedia", Reference)
    , Endpoint("Italian Wikipedia", Reference)
    , Endpoint("Spanish Wikipedia", Reference)
    , Endpoint("Berlin Weather", Weather)
    , Endpoint("Paris Weather", Weather)
    , Endpoint("Rome Weather", Weather)
    , Endpoint("Madrid Weather", Weather)
    , Endpoint("Moscow Weather", Weather)
    , Endpoint("Budapest Weather", Weather)
    , Endpoint("DB Train Stations", Travel)
    , Endpoint("EUR Exchange Rates", Travel)
    , Endpoint("Europe News", News)
    , Endpoint("Ask Europe", News)
    , Endpoint("Berlin Time", Travel)
    , Endpoint("Paris Time", Travel)
    , Endpoint("Rome Time", Travel)
    ]

  /** `Persona.techBro.defaultEndpoints`. */
  const TechBroEndpoints: seq<Endpoint> :=
    [ Endpoint("Hacker News", Tech)
    , Endpoint("GitHub Activity", Tech)
    , Endpoint("Bitcoin Price", Finance)
    , Endpoint("Crypto Rates", Finance)
    , Endpoint("Ethereum Rates", Finance)
    , Endpoint("Palo Alto Weather", Weather)
    , Endpoint("San Francisco Weather", Weather)
    , Endpoint("Technology News", Tech)
    , Endpoint("Programming News", Tech)
    , Endpoint("Startup News", Tech)
    ]

  /** `Persona.fitnessEnthusiast.defaultEndpoints`. */
  const FitnessEnthusiastEndpoints: seq<Endpoint> :=
    [ Endpoint("Fitness Community", Lifestyle)
    , Endpoint("Running Community", Sports)
    , Endpoint("Yoga Community", Lifestyle)
    , Endpoint("Nutrition News", Lifestyle)
    , Endpoint("Healthy Food", Recipes)
    , Endpoint("Sports Activities", Sports)
    , Endpoint("Healthy Seafood", Recipes)
    , Endpoint("Vegetarian Meals", Recipes)
    , Endpoint("Fitness Quotes", Lifestyle)
    ]

  /** `Persona.foodie.defaultEndpoints`. */
  const FoodieEndpoints: seq<Endpoint> :=
    [ Endpoint("Random Meal", Recipes)
    , Endpoint("Meal Selection", Recipes)
    , Endpoint("Meal Categories", Recipes)
    , Endpoint("Food Community", Recipes)
    , Endpoint("Recipes", Recipes)
    , Endpoint("Cooking Tips", Recipes)
    , Endpoint("Random Cocktail", Lifestyle)
    , Endpoint("Cocktail Categories", Lifestyle)
    , Endpoint("Food Art", Entertainment)
    ]

  /** `Persona.financialAnalyst.defaultEndpoints`. */
  const FinancialAnalystEndpoints: seq<Endpoint> :=
    [ Endpoint("S&P 500", Finance)
    , Endpoint("Dow Jones", Finance)
    , Endpoint("NASDAQ", Finance)
    , Endpoint("FTSE 100", Finance)
    , Endpoint("Nikkei 225", Finance)
    , Endpoint("Bitcoin Price", Finance)
    , Endpoint("BTC Exchange Rates", Finance)
    , Endpoint("ETH Exchange Rates", Finance)
    , Endpoint("USD Exchange Rates", Finance)
    , Endpoint("EUR Exchange Rates", Finance)
    , Endpoint("Finance News", News)
    , Endpoint("Investing News", News)
    ]

  /** `Persona.sportsFan.defaultEndpoints`. */
  const SportsFanEndpoints: seq<Endpoint> :=
    [ Endpoint("All Sports", Sports)
    , Endpoint("All Leagues", Sports)
    , Endpoint("Premier League", Sports)
    , Endpoint("Champions League", Sports)
    , Endpoint("NBA Players", Sports)
    , Endpoint("Olympics News", Sports)
    , Endpoint("Sports News", Sports)
    , Endpoint("NBA News", Sports)
    , Endpoint("Soccer News", Sports)
    ]

  /** `Persona.digitalNomad.defaultEndpoints`. */
  const DigitalNomadEndpoints: seq<Endpoint> :=
    [ Endpoint("Tokyo Time", Travel)
    , Endpoint("London Time", Travel)
    , Endpoint("New York Time", Travel)
    , Endpoint("Sydney Time", Travel)
    , Endpoint("USD Exchange Rates", Travel)
    , Endpoint("EUR Exchange Rates", Travel)
    , Endpoint("GBP Exchange Rates", Travel)
    , Endpoint("Country Currencies", Travel)
    , Endpoint("Country Timezones", Travel)
    , Endpoint("Bangkok Weather", Weather)
    , Endpoint("Bali Weather", Weather)
    , Endpoint("Taipei Weather", Weather)
    , Endpoint("Digital Nomad Community", News)
    ]

  /** `Persona.student.defaultEndpoints`. */
  const StudentEndpoints: seq<Endpoint> :=
    [ Endpoint("Wikipedia Learning", Reference)
    , Endpoint("Computer Science Books", Entertainment)
    , Endpoint("Mathematics Books", Entertainment)
    , Endpoint("College Life", News)
    , Endpoint("Student Community", News)
    , Endpoint("Boston Weather", Weather)
    , Endpoint("LA Weather", Weather)
    , Endpoint("NYC Weather", Weather)
    , Endpoint("Study Motivation", Lifestyle)
    , Endpoint("Side Dishes", Recipes)
    , Endpoint("Starters", Recipes)
    ]

  /** `Persona.defaultEndpoints`. Every persona has at least one endpoint, which is
      what makes `randomElement()!` on this list safe. */
  function PersonaEndpoints(p: Persona): (r: seq<Endpoint>)
    ensures |r| > 0
  {
    match p
    case General => All()
    case KoreanGymnast => KoreanGymnastEndpoints
    case TravelingEuro => TravelingEuroEndpoints
    case TechBro => TechBroEndpoints
    case FitnessEnthusiast => FitnessEnthusiastEndpoints
    case Foodie => FoodieEndpoints
    case FinancialAnalyst => FinancialAnalystEndpoints
    case SportsFan => SportsFanEndpoints
    case DigitalNomad => DigitalNomadEndpoints
    case Student => StudentEndpoints
  }

  /** The categories each persona's list touches, read off the lists above. */
  function PersonaCategories(p: Persona): set<Category> {
    match p
    case General => set c | c in AllCategories
    case KoreanGymnast => {Reference, Weather, Entertainment, News, Sports}
    case TravelingEuro => {Reference, Weather, Travel, News}
    case TechBro => {Tech, Finance, Weather}
    case FitnessEnthusiast => {Lifestyle, Sports, Recipes}
    case Foodie => {Recipes, Lifestyle, Entertainment}
    case FinancialAnalyst => {Finance, News}
    case SportsFan => {Sports}
    case DigitalNomad => {Travel, Weather, News}
    case Student => {Reference, Entertainment, News, Weather, Lifestyle, Recipes}
  }

  /** `APIEndpoint.all` is `APIEndpoint.default` followed by twelve weather endpoints. */
  lemma AllExtendsDefault()
    ensures |All()| == |DefaultEndpoints| + 12
    ensures All()[..|DefaultEndpoints|] == DefaultEndpoints
    ensures forall i | |DefaultEndpoints| <= i < |All()| :: All()[i].category == Weather
  {
  }

  /** An endpoint list touches exactly the categories `cats` when every endpoint's
      category is in `cats` and every category of `cats` has a witness. */
  lemma UsedExactly(endpoints: seq<Endpoint>, cats: set<Category>)
    requires forall e | e in endpoints :: e.category in cats
    requires forall c | c in cats :: exists i | 0 <= i < |endpoints| :: endpoints[i].category == c
    ensures CategoriesUsed(endpoints) == cats
  {
    forall c | c in cats ensures c in CategoriesUsed(endpoints) {
      var i :| 0 <= i < |endpoints| && endpoints[i].category == c;
      assert endpoints[i] in endpoints;
    }
  }

  /** Every category is one of `EndpointCategory.allCases`. */
  lemma InAllCategories(c: Category)
    ensures c in AllCategories
  {
  }

  /** The index in `APIEndpoint.default` of the first endpoint of each category. */
  function FirstOfCategory(c: Category): (i: nat)
    ensures i < |DefaultEndpoints| && DefaultEndpoints[i].category == c
  {
    match c
    case Reference => 0
    case Weather => 6
    case Tech => 12
    case News => 14
    case Science => 15
    case Lifestyle => 17
    case Entertainment => 18
    case Finance => 23
    case Sports => 28
    case Recipes => 31
    case Travel => 33
  }

  lemma {:induction false} CategoriesOfGeneral()
    ensures CategoriesUsed(All()) == set c | c in AllCategories
  {
    var eps := All();
    forall c: Category ensures c in CategoriesUsed(eps) && c in AllCategories {
      var i := FirstOfCategory(c);
      assert eps[i] == DefaultEndpoints[i];
      assert eps[i] in eps;
      InAllCategories(c);
    }
  }

  lemma {:induction false} CategoriesOfKoreanGymnast()
    ensures CategoriesUsed(KoreanGymnastEndpoints) == {Reference, Weather, Entertainment, News, Sports}
  {
    var eps := KoreanGymnastEndpoints;
    assert eps[0].category == Reference;
    assert eps[1].category == Weather;
    assert eps[3].category == Entertainment;
    assert eps[4].category == News;
    assert eps[5].category == Sports;
    UsedExactly(eps, {Reference, Weather, Entertainment, News, Sports});
  }

  lemma {:induction false} CategoriesOfTravelingEuro()
    ensures CategoriesUsed(TravelingEuroEndpoints) == {Reference, Weather, Travel, News}
  {
    var eps := TravelingEuroEndpoints;
    assert eps[0].category == Reference;
    assert eps[4].category == Weather;
    assert eps[10].category == Travel;
    assert eps[12].category == News;
    UsedExactly(eps, {Reference, Weather, Travel, News});
  }

  lemma {:induction false} CategoriesOfTechBro()
    ensures CategoriesUsed(TechBroEndpoints) == {Tech, Finance, Weather}
  {
    var eps := TechBroEndpoints;
    assert eps[0].category == Tech;
    assert eps[2].category == Finance;
    assert eps[5].category == Weather;
    UsedExactly(eps, {Tech, Finance, Weather});
  }

  lemma {:induction false} CategoriesOfFitnessEnthusiast()
    ensures CategoriesUsed(FitnessEnthusiastEndpoints) == {Lifestyle, Sports, Recipes}
  {
    var eps := FitnessEnthusiastEndpoints;
    assert eps[0].category == Lifestyle;
    assert eps[1].category == Sports;
    assert eps[4].category == Recipes;
    UsedExactly(eps, {Lifestyle, Sports, Recipes});
  }

  lemma {:induction false} CategoriesOfFoodie()
    ensures CategoriesUsed(FoodieEndpoints) == {Recipes, Lifestyle, Entertainment}
  {
    var eps := FoodieEndpoints;
    assert eps[0].category == Recipes;
    assert eps[6].category == Lifestyle;
    assert eps[8].category == Entertainment;
    UsedExactly(eps, {Recipes, Lifestyle, Entertainment});
  }

  lemma {:induction false} CategoriesOfFinancialAnalyst()
    ensures CategoriesUsed(FinancialAnalystEndpoints) == {Finance, News}
  {
    var eps := FinancialAnalystEndpoints;
    assert eps[0].category == Finance;
    assert eps[10].category == News;
    UsedExactly(eps, {Finance, News});
  }

  lemma {:induction false} CategoriesOfSportsFan()
    ensures CategoriesUsed(SportsFanEndpoints) == {Sports}
  {
    var eps := SportsFanEndpoints;
    assert eps[0].category == Sports;
    UsedExactly(eps, {Sports});
  }

  lemma {:induction false} CategoriesOfDigitalNomad()
    ensures CategoriesUsed(DigitalNomadEndpoints) == {Travel, Weather, News}
  {
    var eps := DigitalNomadEndpoints;
    assert eps[0].category == Travel;
    assert eps[9].category == Weather;
    assert eps[12].category == News;
    UsedExactly(eps, {Travel, Weather, News});
  }

  lemma {:induction false} CategoriesOfStudent()
    ensures CategoriesUsed(StudentEndpoints) == {Reference, Entertainment, News, Weather, Lifestyle, Recipes}
  {
    var eps := StudentEndpoints;
    assert eps[0].category == Reference;
    assert eps[1].category == Entertainment;
    assert eps[3].category == News;
    assert eps[5].category == Weather;
    assert eps[8].category == Lifestyle;
    assert eps[9].category == Recipes;
    UsedExactly(eps, {Reference, Entertainment, News, Weather, Lifestyle, Recipes});
  }

  /** The general persona uses the whole catalog; each persona's list touches exactly
      the categories of the table above. */
  lemma PersonaCategoriesExact(p: Persona)
    ensures p == General ==> PersonaEndpoints(p) == All()
    ensures CategoriesUsed(PersonaEndpoints(p)) == PersonaCategories(p)
  {
    match p
    case General => CategoriesOfGeneral();
    case KoreanGymnast => CategoriesOfKoreanGymnast();
    case TravelingEuro => CategoriesOfTravelingEuro();
    case TechBro => CategoriesOfTechBro();
    case FitnessEnthusiast => CategoriesOfFitnessEnthusiast();
    case Foodie => CategoriesOfFoodie();
    case FinancialAnalyst => CategoriesOfFinancialAnalyst();
    case SportsFan => CategoriesOfSportsFan();
    case DigitalNomad => CategoriesOfDigitalNomad();
    case Student => CategoriesOfStudent();
  }
}
