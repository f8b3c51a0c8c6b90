/** The `persona` subcommands of the command-line tool
    (Sources/CLI/PersonaCommands.swift): case-insensitive lookup, `persona set`
    with its category union, the summary it prints, and `persona info`'s grouping. */
module PersonaCommands {
  import opened Wrappers
  import opened Clock
  import opened Catalog
  import opened ConfigState
  import opened NoiseGenerator

  /** ASCII lower-casing of one character. */
  function LowerChar(ch: char): char {
    if 'A' <= ch <= 'Z' then (ch as int + 32) as char else ch
  }

  /** `lowercased()`, restricted to ASCII letters. */
  function Lower(s: string): (r: string)
    ensures |r| == |s|
    ensures forall i | 0 <= i < |s| :: r[i] == LowerChar(s[i])
  {
    if s == [] then [] else [LowerChar(s[0])] + Lower(s[1..])
  }

  /** No two personas' raw names agree once lower-cased, so a case-insensitive
      lookup can match at most one persona. */
  lemma LowerRawValueInjective(p: Persona, q: Persona)
    requires Lower(RawValue(p)) == Lower(RawValue(q))
    ensures p == q
  {
    assert |RawValue(p)| == |RawValue(q)|;
    assert LowerChar(RawValue(p)[0]) == Lower(RawValue(p))[0] == Lower(RawValue(q))[0] == LowerChar(RawValue(q)[0]);
  }

  /** `Set.validate`/`Info.validate`: the name matches some persona's raw value,
      ignoring case. */
  predicate Validate(name: string) {
    exists p | p in AllPersonas :: Lower(RawValue(p)) == Lower(name)
  }

  /** `first(where:)` over a persona list. */
  function FindIn(ps: seq<Persona>, name: string): (r: Option<Persona>)
    ensures r.Some? ==> r.value in ps && Lower(RawValue(r.value)) == Lower(name)
    ensures r.None? ==> forall p | p in ps :: Lower(RawValue(p)) != Lower(name)
  {
    if ps == [] then None
    else if Lower(RawValue(ps[0])) == Lower(name) then Some(ps[0])
    else FindIn(ps[1..], name)
  }

  /** The lookup of `Set.run`/`Info.run` over `Persona.allCases`. */
  function FindPersona(name: string): Option<Persona> {
    FindIn(AllPersonas, name)
  }

  /** Validation passes exactly when the lookup finds a persona, so `run`'s
      "not found" error is unreachable after `validate`. */
  lemma ValidateFinds(name: string)
    ensures Validate(name) <==> FindPersona(name).Some?
  {
  }

  /** The lookup finds `p` exactly for the names equal to `p`'s raw value up to
      case, in particular for the raw value itself. */
  lemma FindPersonaIff(name: string, p: Persona)
    ensures FindPersona(name) == Some(p) <==> Lower(name) == Lower(RawValue(p))
    ensures FindPersona(RawValue(p)) == Some(p)
  {
    assert p in AllPersonas;
    if Lower(name) == Lower(RawValue(p)) {
      var q := FindPersona(name).value;
      LowerRawValueInjective(p, q);
    }
    var q := FindPersona(RawValue(p)).value;
    LowerRawValueInjective(p, q);
  }

  /** `categoriesToEnable`: the categories of the persona's endpoints, collected
      one endpoint at a time. */
  method CollectCategories(endpoints: seq<Endpoint>) returns (cats: set<Category>)
    ensures cats == CategoriesUsed(endpoints)
  {
    cats := {};
    for i := 0 to |endpoints|
      invariant cats == CategoriesUsed(endpoints[..i])
    {
      assert endpoints[..i + 1] == endpoints[..i] + [endpoints[i]];
      cats := cats + {endpoints[i].category};
    }
    assert endpoints[..|endpoints|] == endpoints;
  }

  /** The effect of `Set.run`'s chain of `if`s: every category in `cats` is
      switched on, and no switch is turned off. */
  function EnableUnion(s: CategorySettings, cats: set<Category>): CategorySettings {
    CategorySettings(
      s.reference || Reference in cats, s.weather || Weather in cats, s.tech || Tech in cats,
      s.news || News in cats, s.finance || Finance in cats, s.science || Science in cats,
      s.entertainment || Entertainment in cats, s.lifestyle || Lifestyle in cats,
      s.sports || Sports in cats, s.recipes || Recipes in cats, s.travel || Travel in cats)
  }

  /** The union policy: afterwards a category is on iff it was on before or the
      persona uses it. */
  lemma EnableUnionMeaning(s: CategorySettings, cats: set<Category>)
    ensures forall c: Category :: EnableUnion(s, cats).Enabled(c) == (s.Enabled(c) || c in cats)
  {
    forall c: Category
      ensures EnableUnion(s, cats).Enabled(c) == (s.Enabled(c) || c in cats)
    {
      match c
      case Reference =>
      case Weather =>
      case Tech =>
      case News =>
      case Finance =>
      case Science =>
      case Entertainment =>
      case Lifestyle =>
      case Sports =>
      case Recipes =>
      case Travel =>
    }
  }

  /** The categories of `order` that lie in `cats`, in `order`'s order. */
  function Among(order: seq<Category>, cats: set<Category>): (r: seq<Category>)
    ensures |r| <= |order|
    ensures forall c :: c in r <==> c in order && c in cats
  {
    if order == [] then []
    else (if order[0] in cats then [order[0]] else []) + Among(order[1..], cats)
  }

  /** Nothing is among the empty set. */
  lemma {:induction false} AmongNone(order: seq<Category>)
    ensures Among(order, {}) == []
  {
    if order != [] {
      AmongNone(order[1..]);
    }
  }

  /** The raw values of a list of categories, in order. */
  function NamesOf(cats: seq<Category>): (r: seq<string>)
    ensures |r| == |cats|
    ensures forall i | 0 <= i < |cats| :: r[i] == CategoryName(cats[i])
  {
    if cats == [] then [] else [CategoryName(cats[0])] + NamesOf(cats[1..])
  }

  /** `categoriesEnabled`: the names appended by the chain, in `allCases` order. */
  function EnabledNames(cats: set<Category>): seq<string> {
    NamesOf(Among(AllCategories, cats))
  }

  /** The chain appends a name exactly when some category is enabled, so
      `Set.run` saves a second time iff the persona uses any category. */
  lemma EnabledNamesEmpty(cats: set<Category>)
    ensures EnabledNames(cats) == [] <==> cats == {}
  {
    var r := Among(AllCategories, cats);
    if cats != {} {
      var c :| c in cats;
      InAllCategories(c);
      assert c in r;
    } else {
      AmongNone(AllCategories);
    }
  }

  /** The endpoints of one category, in order. */
  function OfCategory(endpoints: seq<Endpoint>, c: Category): (r: seq<Endpoint>)
    ensures |r| <= |endpoints|
    ensures forall e :: e in r <==> e in endpoints && e.category == c
  {
    if endpoints == [] then []
    else (if endpoints[0].category == c then [endpoints[0]] else []) + OfCategory(endpoints[1..], c)
  }

  /** A category has endpoints in a list iff the list uses it. */
  lemma OfCategoryNonEmpty(endpoints: seq<Endpoint>, c: Category)
    ensures OfCategory(endpoints, c) != [] <==> c in CategoriesUsed(endpoints)
  {
    if OfCategory(endpoints, c) != [] {
      assert OfCategory(endpoints, c)[0] in OfCategory(endpoints, c);
    }
  }

  /** The total of the per-category counts over the categories `cats`. */
  function SumCounts(cats: seq<Category>, endpoints: seq<Endpoint>): nat {
    if cats == [] then 0 else |OfCategory(endpoints, cats[0])| + SumCounts(cats[1..], endpoints)
  }

  /** How often `c` occurs in `cats`. */
  function Occurrences(cats: seq<Category>, c: Category): nat {
    if cats == [] then 0 else (if cats[0] == c then 1 else 0) + Occurrences(cats[1..], c)
  }

  predicate Distinct(cats: seq<Category>) {
    forall i, j | 0 <= i < j < |cats| :: cats[i] != cats[j]
  }

  lemma {:induction false} SumCountsEmpty(cats: seq<Category>)
    ensures SumCounts(cats, []) == 0
  {
    if cats != [] {
      SumCountsEmpty(cats[1..]);
    }
  }

  lemma {:induction false} SumCountsCons(cats: seq<Category>, e: Endpoint, rest: seq<Endpoint>)
    ensures SumCounts(cats, [e] + rest) == SumCounts(cats, rest) + Occurrences(cats, e.category)
  {
    assert ([e] + rest)[1..] == rest;
    if cats != [] {
      SumCountsCons(cats[1..], e, rest);
    }
  }

  lemma {:induction false} OccursOnce(cats: seq<Category>, c: Category)
    requires Distinct(cats) && c in cats
    ensures Occurrences(cats, c) == 1
  {
    if cats[0] == c {
      OccursNot(cats[1..], c);
    } else {
      OccursOnce(cats[1..], c);
    }
  }

  lemma {:induction false} OccursNot(cats: seq<Category>, c: Category)
    requires c !in cats
    ensures Occurrences(cats, c) == 0
  {
    if cats != [] {
      OccursNot(cats[1..], c);
    }
  }

  /** Counting per category over a list of distinct categories that covers every
      category used accounts for each endpoint exactly once. */
  lemma {:induction false} SumCountsTotal(cats: seq<Category>, endpoints: seq<Endpoint>)
    requires Distinct(cats)
    requires forall e | e in endpoints :: e.category in cats
    ensures SumCounts(cats, endpoints) == |endpoints|
  {
    if endpoints == [] {
      SumCountsEmpty(cats);
    } else {
      var e, rest := endpoints[0], endpoints[1..];
      assert endpoints == [e] + rest;
      SumCountsCons(cats, e, rest);
      OccursOnce(cats, e.category);
      SumCountsTotal(cats, rest);
    }
  }

  lemma {:induction false} AmongDistinct(order: seq<Category>, cats: set<Category>)
    requires Distinct(order)
    ensures Distinct(Among(order, cats))
  {
    if order != [] {
      AmongDistinct(order[1..], cats);
      assert order[0] !in order[1..];
    }
  }

  /** Strict lexicographic order on strings (Swift's `<` on ASCII strings). */
  predicate LexLess(a: string, b: string) {
    if a == [] then b != []
    else if b == [] then false
    else if a[0] != b[0] then a[0] < b[0]
    else LexLess(a[1..], b[1..])
  }

  lemma {:induction false} LexLessTransitive(a: string, b: string, c: string)
    requires LexLess(a, b) && LexLess(b, c)
    ensures LexLess(a, c)
  {
    if a != [] && b != [] && c != [] && a[0] == b[0] && b[0] == c[0] {
      LexLessTransitive(a[1..], b[1..], c[1..]);
    }
  }

  /** The category raw values in ascending string order (what `categories.sorted()`
      produces from all eleven). */
  const SortedCategories: seq<Category> :=
    [Entertainment, Finance, Lifestyle, News, Recipes, Reference, Science, Sports, Tech, Travel, Weather]

  /** Names strictly ascending along a category list. */
  predicate NamesAscending(cats: seq<Category>) {
    forall i, j | 0 <= i < j < |cats| :: LexLess(CategoryName(cats[i]), CategoryName(cats[j]))
  }

  lemma {:induction false} AdjacentAscending(cats: seq<Category>)
    requires forall i | 0 <= i < |cats| - 1 :: LexLess(CategoryName(cats[i]), CategoryName(cats[i + 1]))
    ensures NamesAscending(cats)
  {
    if |cats| > 1 {
      AdjacentAscending(cats[1..]);
      forall j | 1 < j < |cats|
        ensures LexLess(CategoryName(cats[0]), CategoryName(cats[j]))
      {
        assert cats[1..][0] == cats[1] && cats[1..][j - 1] == cats[j];
        LexLessTransitive(CategoryName(cats[0]), CategoryName(cats[1]), CategoryName(cats[j]));
      }
    }
  }

  /** Each name in the sorted order is below the next one. */
  lemma SortedCategoriesAdjacent()
    ensures forall i | 0 <= i < |SortedCategories| - 1 ::
      LexLess(CategoryName(SortedCategories[i]), CategoryName(SortedCategories[i + 1]))
  {
    assert LexLess("Entertainment", "Finance");
    assert LexLess("Finance", "Lifestyle");
    assert LexLess("Lifestyle", "News");
    assert LexLess("News", "Recipes");
    assert LexLess("Recipes", "Reference");
    assert LexLess("Reference", "Science");
    assert LexLess("Science", "Sports");
    assert LexLess("Sports", "Tech");
    assert LexLess("Tech", "Travel");
    assert LexLess("Travel", "Weather");
  }

  /** The sorted order really is ascending and lists every category once. */
  lemma SortedCategoriesAscending()
    ensures NamesAscending(SortedCategories)
  {
    SortedCategoriesAdjacent();
    AdjacentAscending(SortedCategories);
  }

  /** The sorted order lists no category twice. */
  lemma SortedCategoriesDistinct()
    ensures Distinct(SortedCategories)
  {
  }

  /** Every category appears in the sorted order. */
  lemma InSortedCategories(c: Category)
    ensures c in SortedCategories
  {
  }

  lemma {:induction false} AmongAscending(order: seq<Category>, cats: set<Category>)
    requires NamesAscending(order)
    ensures NamesAscending(Among(order, cats))
  {
    if order != [] {
      AmongAscending(order[1..], cats);
      var r := Among(order, cats);
      if order[0] in cats {
        forall j | 0 < j < |r|
          ensures LexLess(CategoryName(r[0]), CategoryName(r[j]))
        {
          assert r[j] in Among(order[1..], cats);
        }
      }
    }
  }

  /** Categories strictly in `allCases` order along a list. */
  predicate InCaseOrder(cats: seq<Category>) {
    forall i, j | 0 <= i < j < |cats| :: CategoryIndex(cats[i]) < CategoryIndex(cats[j])
  }

  /** `allCases` itself is in `allCases` order. */
  lemma AllCategoriesInCaseOrder()
    ensures InCaseOrder(AllCategories)
  {
    forall i, j | 0 <= i < j < |AllCategories|
      ensures CategoryIndex(AllCategories[i]) < CategoryIndex(AllCategories[j])
    {
      CategoryIndexInverse(i);
      CategoryIndexInverse(j);
    }
  }

  /** Picking categories out of an `allCases`-ordered list keeps that order. */
  lemma {:induction false} AmongInCaseOrder(order: seq<Category>, cats: set<Category>)
    requires InCaseOrder(order)
    ensures InCaseOrder(Among(order, cats))
  {
    if order != [] {
      AmongInCaseOrder(order[1..], cats);
      var r := Among(order, cats);
      if order[0] in cats {
        forall j | 0 < j < |r|
          ensures CategoryIndex(r[0]) < CategoryIndex(r[j])
        {
          assert r[j] in Among(order[1..], cats);
          var k :| 0 <= k < |order[1..]| && order[1..][k] == r[j];
          assert order[k + 1] == r[j];
        }
      }
    }
  }

  /** One line of `Set.run`'s summary: a category's raw value and its count. */
  datatype SummaryLine = SummaryLine(category: string, count: nat)

  /** One summary line per category of `cats`, in order. */
  function LinesFor(cats: seq<Category>, endpoints: seq<Endpoint>): (r: seq<SummaryLine>)
    ensures |r| == |cats|
    ensures forall i | 0 <= i < |cats| :: r[i] == SummaryLine(CategoryName(cats[i]), |OfCategory(endpoints, cats[i])|)
  {
    if cats == [] then []
    else [SummaryLine(CategoryName(cats[0]), |OfCategory(endpoints, cats[0])|)] + LinesFor(cats[1..], endpoints)
  }

  /** `Set.run`'s summary of the persona's endpoints: one line per category used,
      in ascending order of the category's name, with its endpoint count. */
  function Summary(endpoints: seq<Endpoint>): seq<SummaryLine> {
    LinesFor(Among(SortedCategories, CategoriesUsed(endpoints)), endpoints)
  }

  function SumLines(lines: seq<SummaryLine>): nat {
    if lines == [] then 0 else lines[0].count + SumLines(lines[1..])
  }

  lemma {:induction false} SumLinesIsSumCounts(cats: seq<Category>, endpoints: seq<Endpoint>)
    ensures SumLines(LinesFor(cats, endpoints)) == SumCounts(cats, endpoints)
  {
    if cats != [] {
      SumLinesIsSumCounts(cats[1..], endpoints);
    }
  }

  /** The summary's names are strictly ascending (the order `sorted()` gives). */
  lemma SummaryAscending(endpoints: seq<Endpoint>)
    ensures var s := Summary(endpoints);
      forall i, j | 0 <= i < j < |s| :: LexLess(s[i].category, s[j].category)
  {
    SortedCategoriesAscending();
    AmongAscending(SortedCategories, CategoriesUsed(endpoints));
  }

  /** Each summary line names a category the persona uses, with a positive count;
      every category used has a line. */
  lemma SummaryCoversUsed(endpoints: seq<Endpoint>)
    ensures var s := Summary(endpoints);
      && (forall i | 0 <= i < |s| :: s[i].count > 0)
      && (forall c | c in CategoriesUsed(endpoints) :: exists i | 0 <= i < |s| :: s[i].category == CategoryName(c))
  {
    var used := CategoriesUsed(endpoints);
    var cats := Among(SortedCategories, used);
    forall i | 0 <= i < |cats| ensures |OfCategory(endpoints, cats[i])| > 0 {
      assert cats[i] in cats;
      OfCategoryNonEmpty(endpoints, cats[i]);
    }
    forall c | c in used ensures exists i | 0 <= i < |cats| :: cats[i] == c {
      InSortedCategories(c);
      assert c in cats;
    }
  }

  /** The summary's counts add up to the number of endpoints. */
  lemma SummaryTotal(endpoints: seq<Endpoint>)
    ensures SumLines(Summary(endpoints)) == |endpoints|
  {
    var used := CategoriesUsed(endpoints);
    var cats := Among(SortedCategories, used);
    SortedCategoriesDistinct();
    AmongDistinct(SortedCategories, used);
    forall e | e in endpoints ensures e.category in cats {
      assert e.category in used;
      InSortedCategories(e.category);
    }
    SumCountsTotal(cats, endpoints);
    SumLinesIsSumCounts(cats, endpoints);
  }

  /** One group of `persona info`: a category and its endpoints. */
  datatype Group = Group(category: Category, endpoints: seq<Endpoint>)

  /** One group per category of `cats`, in order. */
  function GroupsFor(cats: seq<Category>, endpoints: seq<Endpoint>): (r: seq<Group>)
    ensures |r| == |cats|
    ensures forall i | 0 <= i < |cats| :: r[i] == Group(cats[i], OfCategory(endpoints, cats[i]))
  {
    if cats == [] then [] else [Group(cats[0], OfCategory(endpoints, cats[0]))] + GroupsFor(cats[1..], endpoints)
  }

  /** `persona info`'s grouping: the endpoints of each category, in `allCases`
      order, with categories that have none skipped. */
  function Groups(endpoints: seq<Endpoint>): seq<Group> {
    GroupsFor(Among(AllCategories, CategoriesUsed(endpoints)), endpoints)
  }

  function GroupSizes(groups: seq<Group>): nat {
    if groups == [] then 0 else |groups[0].endpoints| + GroupSizes(groups[1..])
  }

  lemma {:induction false} GroupSizesIsSumCounts(cats: seq<Category>, endpoints: seq<Endpoint>)
    ensures GroupSizes(GroupsFor(cats, endpoints)) == SumCounts(cats, endpoints)
  {
    if cats != [] {
      GroupSizesIsSumCounts(cats[1..], endpoints);
    }
  }

  /** Every group is non-empty and holds only its own category; the groups follow
      `allCases` order, each category once; together they hold every endpoint. */
  lemma GroupsProperties(endpoints: seq<Endpoint>)
    ensures var g := Groups(endpoints);
      && (forall i | 0 <= i < |g| :: g[i].endpoints != [] && forall e | e in g[i].endpoints :: e.category == g[i].category)
      && (forall i, j | 0 <= i < j < |g| :: g[i].category != g[j].category)
      && (forall i, j | 0 <= i < j < |g| :: CategoryIndex(g[i].category) < CategoryIndex(g[j].category))
      && GroupSizes(g) == |endpoints|
  {
    var used := CategoriesUsed(endpoints);
    var cats := Among(AllCategories, used);
    AllCategoriesInCaseOrder();
    AmongInCaseOrder(AllCategories, used);
    assert Distinct(AllCategories);
    AmongDistinct(AllCategories, used);
    forall i | 0 <= i < |cats| ensures OfCategory(endpoints, cats[i]) != [] {
      assert cats[i] in cats;
      OfCategoryNonEmpty(endpoints, cats[i]);
    }
    forall e | e in endpoints ensures e.category in cats {
      assert e.category in used;
      InAllCategories(e.category);
    }
    SumCountsTotal(cats, endpoints);
    GroupSizesIsSumCounts(cats, endpoints);
  }

  /** Lines 71-123 of `Set.run`: collect the categories, then switch each one on and
      note its name. A non-empty list always enables something. */
  method EnableForEndpoints(s: CategorySettings, endpoints: seq<Endpoint>) returns (r: CategorySettings, names: seq<string>)
    ensures r == EnableUnion(s, CategoriesUsed(endpoints))
    ensures names == EnabledNames(CategoriesUsed(endpoints))
    ensures names == [] <==> endpoints == []
  {
    var categoriesToEnable := CollectCategories(endpoints);
    r := EnableUnion(s, categoriesToEnable);
    names := EnabledNames(categoriesToEnable);
    EnabledNamesEmpty(categoriesToEnable);
    if endpoints != [] {
      assert endpoints[0].category in categoriesToEnable;
    }
  }

  /** What `persona set` reports: the persona, its summary and the categories the
      chain switched on. */
  datatype SetReport = SetReport(persona: Persona, summary: seq<SummaryLine>, enabled: seq<string>)

  /** `persona set <name>`: look the persona up; save it as current; then switch on
      every category its endpoints use and save again. */
  method SetRun(store: ConfigStore, name: string, now: Instant) returns (r: Result<SetReport, string>)
    modifies store
    ensures FindPersona(name).None? ==>
      r.Failure? && store.file == old(store.file) && store.saved == old(store.saved)
    ensures FindPersona(name).Some? ==>
      var p := FindPersona(name).value;
      var used := CategoriesUsed(PersonaEndpoints(p));
      var c1 := Load(old(store.file), now).(currentPersona := p);
      var c2 := c1.(enabledCategories := EnableUnion(c1.enabledCategories, used));
      && r == Success(SetReport(p, Summary(PersonaEndpoints(p)), EnabledNames(used)))
      && store.saved == old(store.saved) + [c1, c2]
      && store.file == Some(c2)
  {
    var found := FindPersona(name);
    if found.None? {
      return Failure("Persona not found: " + name);
    }
    var persona := found.value;
    var config := Load(store.file, now);
    config := config.(currentPersona := persona);
    store.Save(config);
    var endpoints := PersonaEndpoints(persona);
    var summary := Summary(endpoints);
    var settings, categoriesEnabled := EnableForEndpoints(config.enabledCategories, endpoints);
    config := config.(enabledCategories := settings);
    if categoriesEnabled != [] {
      store.Save(config);
    }
    r := Success(SetReport(persona, summary, categoriesEnabled));
  }

  /** After `persona set`, the shared generator's pool for the saved record is the
      persona's whole list: every category it uses has been switched on. */
  lemma SetMakesWholeListEligible(c: Config, p: Persona)
    ensures var s := EnableUnion(c.enabledCategories, CategoriesUsed(PersonaEndpoints(p)));
      SharedPool(c.(currentPersona := p, enabledCategories := s)) == PersonaEndpoints(p)
  {
    var used := CategoriesUsed(PersonaEndpoints(p));
    var s := EnableUnion(c.enabledCategories, used);
    EnableUnionMeaning(c.enabledCategories, used);
    SharedPoolIsPersonaList(c.(currentPersona := p, enabledCategories := s));
    forall e | e in PersonaEndpoints(p) ensures s.Enabled(e.category) {
      assert e.category in used;
    }
    EnabledOnlyKeepsAll(PersonaEndpoints(p), s);
  }

  /** What `persona info` reports. */
  datatype InfoReport = InfoReport(persona: Persona, total: nat, groups: seq<Group>, isCurrent: bool)

  /** `persona info <name>` against the stored configuration. */
  function Info(name: string, file: Option<Config>, now: Instant): (r: Result<InfoReport, string>)
    ensures r.Success? <==> Validate(name)
    ensures r.Success? ==>
      && Lower(RawValue(r.value.persona)) == Lower(name)
      && r.value.total == |PersonaEndpoints(r.value.persona)|
      && r.value.isCurrent == (Load(file, now).currentPersona == r.value.persona)
      && r.value.groups == Groups(PersonaEndpoints(r.value.persona))
  {
    match FindPersona(name)
    case None => Failure("Persona not found: " + name)
    case Some(p) =>
      var endpoints := PersonaEndpoints(p);
      Success(InfoReport(p, |endpoints|, Groups(endpoints), Load(file, now).currentPersona == p))
  }

  /** `Config.currentEndpoints`: the current persona's list, never empty, touching
      exactly the persona's categories. */
  function CurrentEndpoints(c: Config): (r: seq<Endpoint>)
    ensures |r| > 0
    ensures CategoriesUsed(r) == PersonaCategories(c.currentPersona)
    ensures c.currentPersona == General ==> r == All()
  {
    PersonaCategoriesExact(c.currentPersona);
    PersonaEndpoints(c.currentPersona)
  }
}
