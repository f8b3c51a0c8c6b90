/** The menu-bar persona picker (`PersonaSelectionView` in
    Sources/MenuBar/PersonaViews.swift): saving the chosen persona, then
    resetting the category switches before enabling the persona's categories. */
module PersonaViews {
  import opened Wrappers
  import opened Clock
  import opened Catalog
  import opened ConfigState
  import opened NoiseGenerator
  import opened PersonaCommands

  /** `updateCategoriesForPersona`: reload, reset the switches to
      `CategorySettings()`, switch on each category the persona uses, save. */
  method UpdateCategoriesForPersona(store: ConfigStore, persona: Persona, now: Instant)
    modifies store
    ensures var c := Load(old(store.file), now).(enabledCategories := AllEnabled);
      && store.saved == old(store.saved) + [c]
      && store.file == Some(c)
  {
    var config := Load(store.file, now);
    var categories := CategoriesUsed(PersonaEndpoints(persona));
    config := config.(enabledCategories := AllEnabled);
    ghost var loaded := config;
    var remaining := categories;
    while remaining != {}
      invariant config == loaded.(enabledCategories := config.enabledCategories)
      invariant forall c: Category :: config.enabledCategories.Enabled(c)
      invariant unchanged(store)
      decreases remaining
    {
      var category :| category in remaining;
      WithOthers(config.enabledCategories, category, true);
      config := config.(enabledCategories := config.enabledCategories.With(category, true));
      remaining := remaining - {category};
    }
    SettingsExtensional(config.enabledCategories, AllEnabled);
    assert config == loaded;
    store.Save(config);
  }

  /** The picker's `onChange`: save the new persona, then update the categories. */
  method OnChange(store: ConfigStore, persona: Persona, now: Instant)
    modifies store
    ensures var c1 := Load(old(store.file), now).(currentPersona := persona);
      var c2 := c1.(enabledCategories := AllEnabled);
      && store.saved == old(store.saved) + [c1, c2]
      && store.file == Some(c2)
  {
    var config := Load(store.file, now);
    config := config.(currentPersona := persona);
    store.Save(config);
    UpdateCategoriesForPersona(store, persona, now);
  }

  /** The reset-then-enable policy is the union policy applied to the defaults,
      which are all on: whatever the persona, every category ends up enabled. */
  lemma ResetThenEnableIsAllEnabled(cats: set<Category>)
    ensures EnableUnion(AllEnabled, cats) == AllEnabled
  {
    EnableUnionMeaning(AllEnabled, cats);
    SettingsExtensional(EnableUnion(AllEnabled, cats), AllEnabled);
  }

  /** The two policies differ: from all switches off, `persona set` to Sports Fan in
      the command line leaves only Sports on, while the picker turns all on. */
  lemma PoliciesDiffer(s: CategorySettings)
    requires forall c: Category :: !s.Enabled(c)
    ensures forall c: Category :: EnableUnion(s, CategoriesUsed(PersonaEndpoints(SportsFan))).Enabled(c) <==> c == Sports
    ensures forall c: Category :: AllEnabled.Enabled(c)
  {
    PersonaCategoriesExact(SportsFan);
    EnableUnionMeaning(s, CategoriesUsed(PersonaEndpoints(SportsFan)));
  }

  /** After the picker, the shared tick's pool is the persona's whole list. */
  lemma PickerMakesWholeListEligible(c: Config, p: Persona)
    ensures SharedPool(c.(currentPersona := p, enabledCategories := AllEnabled)) == PersonaEndpoints(p)
  {
    var c2 := c.(currentPersona := p, enabledCategories := AllEnabled);
    SharedPoolIsPersonaList(c2);
    EnabledOnlyKeepsAll(PersonaEndpoints(p), AllEnabled);
  }
}
