/** The theme picker's derived lists: the filtered themes shown for a shade filter, a category
    and a search query; the per-category counts on the category buttons; the recommendation
    panel; and the selected theme. */
module ThemePicker {
  import opened Wrappers
  import opened Seqs
  import opened Model
  import opened MapStyles
  import opened ThemeUtils
  import Text

  /** The dark/light toggle. */
  datatype ShadeFilter = AnyShade | DarkOnly | LightOnly

  /** The themes the shade filter starts from. */
  function ShadeBase(filter: ShadeFilter): seq<Theme> {
    match filter
    case AnyShade => AllThemes()
    case DarkOnly => DarkThemes()
    case LightOnly => LightThemes()
  }

  /** The name, description or category holds the (already lower-cased) query. */
  predicate MatchesQuery(t: Theme, query: string) {
    || Text.Contains(Text.Lower(t.name), query)
    || (t.description.Some? && Text.Contains(Text.Lower(t.description.value), query))
    || (t.category.Some? && Text.Contains(Text.Lower(t.category.value), query))
  }

  function ByCategory(themes: seq<Theme>, category: string): seq<Theme> {
    if category != "all" then Filter(themes, CategoryIs(category)) else themes
  }

  /** The search filter applies only when the query is not blank; it compares the lower-cased
      query, untrimmed. */
  function ByQuery(themes: seq<Theme>, query: string): seq<Theme> {
    if Text.Trim(query) != "" then Filter(themes, (t: Theme) => MatchesQuery(t, Text.Lower(query))) else themes
  }

  /** `filteredThemes`: shade, then category, then search. */
  function FilteredThemes(filter: ShadeFilter, category: string, query: string): seq<Theme> {
    ByQuery(ByCategory(ShadeBase(filter), category), query)
  }

  /** The shade test a theme must pass. */
  predicate ShadeOk(filter: ShadeFilter, t: Theme) {
    match filter
    case AnyShade => true
    case DarkOnly => t.isDark
    case LightOnly => !t.isDark
  }

  /** A theme is listed exactly when it is a catalog theme that passes the shade filter, belongs
      to the chosen category (unless that is `all`) and matches the lower-cased query (unless the
      query is blank). */
  lemma FilteredThemesMembers(filter: ShadeFilter, category: string, query: string, t: Theme)
    ensures t in FilteredThemes(filter, category, query) <==>
      && t in AllThemes()
      && ShadeOk(filter, t)
      && (category != "all" ==> t.category == Some(category))
      && (!Text.IsBlank(query) ==> MatchesQuery(t, Text.Lower(query)))
  {
    Text.TrimEmptyIffBlank(query);
  }

  /** The list is always the catalog with some themes left out, never reordered. */
  lemma FilteredThemesSubseq(filter: ShadeFilter, category: string, query: string)
    ensures IsSubseq(FilteredThemes(filter, category, query), AllThemes())
  {
    var base := ShadeBase(filter);
    ShadeBaseSubseq(filter);
    PipelineSubseq(base, category, query);
    IsSubseqTrans(FilteredThemes(filter, category, query), base, AllThemes());
  }

  lemma ShadeBaseSubseq(filter: ShadeFilter)
    ensures IsSubseq(ShadeBase(filter), AllThemes())
  {
    match filter
    case AnyShade => IsSubseqRefl(AllThemes());
    case DarkOnly => FilterIsSubseq(AllThemes(), IsDarkTheme);
    case LightOnly => FilterIsSubseq(AllThemes(), IsLightTheme);
  }

  /** The category and search filters only drop themes. */
  lemma PipelineSubseq(themes: seq<Theme>, category: string, query: string)
    ensures IsSubseq(ByQuery(ByCategory(themes, category), query), themes)
  {
    var byCategory := ByCategory(themes, category);
    if category != "all" {
      FilterIsSubseq(themes, CategoryIs(category));
    } else {
      IsSubseqRefl(themes);
    }
    if Text.Trim(query) != "" {
      FilterIsSubseq(byCategory, (t: Theme) => MatchesQuery(t, Text.Lower(query)));
    } else {
      IsSubseqRefl(byCategory);
    }
    IsSubseqTrans(ByQuery(byCategory, query), byCategory, themes);
  }

  /** With every filter off, the picker lists the whole catalog. */
  lemma FilteredThemesUnfiltered(query: string)
    requires Text.IsBlank(query)
    ensures FilteredThemes(AnyShade, "all", query) == AllThemes()
  {
    Text.TrimEmptyIffBlank(query);
  }

  /** The keys of the category buttons, in display order. */
  const CategoryKeys: seq<string> := ["all", "standard", "dark", "colorful", "minimal", "vintage", "nature"]

  /** The count shown on a category button. */
  function CategoryCount(key: string): nat {
    if key == "all" then |AllThemes()| else |Filter(AllThemes(), CategoryIs(key))|
  }

  /** `categoriesWithCounts`: each button key with its count. */
  function CategoriesWithCounts(): (r: seq<(string, nat)>)
    ensures |r| == |CategoryKeys|
    ensures forall i :: 0 <= i < |r| ==> r[i] == (CategoryKeys[i], CategoryCount(CategoryKeys[i]))
  {
    Map(CategoryKeys, (key: string) => (key, CategoryCount(key)))
  }

  /** The `all` button counts the catalog; any other button counts the catalog keys of its
      category. */
  lemma CategoryCountOfKeys(key: string)
    ensures key == "all" ==> CategoryCount(key) == |AllKeys|
    ensures key != "all" ==> CategoryCount(key) == CountIf(AllKeys, InCategory(key))
  {
    ThemesByCategoryAreCatalogKeys(key);
    FilterLength(AllKeys, InCategory(key));
  }

  /** The counts of the six category buttons, over a list of catalog keys. */
  function CategoryTotal(keys: seq<StyleKey>): nat {
    CountIf(keys, InCategory("standard")) + CountIf(keys, InCategory("dark"))
    + CountIf(keys, InCategory("colorful")) + CountIf(keys, InCategory("minimal"))
    + CountIf(keys, InCategory("vintage")) + CountIf(keys, InCategory("nature"))
  }

  /** Every key belongs to exactly one of the six categories, so their counts add up to the
      length of the list. */
  lemma {:induction false} CategoryTotalIsLength(keys: seq<StyleKey>)
    ensures CategoryTotal(keys) == |keys|
  {
    if keys != [] {
      CategoryTotalIsLength(keys[1..]);
      match CategoryOf(keys[0])
      case Standard =>
      case Dark =>
      case Colorful =>
      case Minimal =>
      case Vintage =>
      case Nature =>
    }
  }

  /** The six category buttons together count every theme once: their counts add up to the
      count on the `all` button. */
  lemma CategoryCountsAddUp()
    ensures CategoryCount("standard") + CategoryCount("dark") + CategoryCount("colorful")
      + CategoryCount("minimal") + CategoryCount("vintage") + CategoryCount("nature") == CategoryCount("all")
  {
    CategoryCountOfKeys("all");
    CategoryCountOfKeys("standard");
    CategoryCountOfKeys("dark");
    CategoryCountOfKeys("colorful");
    CategoryCountOfKeys("minimal");
    CategoryCountOfKeys("vintage");
    CategoryCountOfKeys("nature");
    CategoryTotalIsLength(AllKeys);
  }

  /** The use cases of the recommendation panel, in display order. */
  const PanelUseCases: seq<UseCase> := [Business, Travel, Creative, MinimalUse]

  /** The panel shows when recommendations are switched on, the query is empty (not merely
      blank) and no category is chosen. */
  predicate RecommendationGate(enabled: bool, query: string, category: string) {
    enabled && query == "" && category == "all"
  }

  /** The recommendation panel: for each use case, the first two of its recommended themes. */
  function RecommendationPanel(enabled: bool, query: string, category: string): (r: seq<(UseCase, seq<Theme>)>)
    ensures r != [] <==> RecommendationGate(enabled, query, category)
    ensures r != [] ==> |r| == 4 && forall i :: 0 <= i < 4 ==>
      && r[i].0 == PanelUseCases[i]
      && |r[i].1| == 2
      && r[i].1 == RecommendedThemes(PanelUseCases[i])[..2]
  {
    if RecommendationGate(enabled, query, category) then
      Map(PanelUseCases, (u: UseCase) => (u, SliceTo(RecommendedThemes(u), 2)))
    else []
  }

  /** Each panel entry shows the first two ids its use case recommends. */
  lemma RecommendationPanelIds(i: nat)
    requires i < 4
    ensures var panel := RecommendationPanel(true, "", "all");
      Ids(panel[i].1) == RecommendedIds(PanelUseCases[i])[..2]
  {
    var u := PanelUseCases[i];
    RecommendedThemeIds(u);
    var shown := RecommendationPanel(true, "", "all")[i].1;
    assert Ids(shown) == Ids(RecommendedThemes(u))[..2];
  }

  /** `selectedTheme`: the current theme, or the default theme when there is none. */
  function SelectedTheme(current: Option<Theme>): (r: Theme)
    ensures current.Some? ==> r == current.value
    ensures current.None? ==> r.id == "default" && ThemeById("default") == Some(r)
  {
    current.GetOr(DefaultTheme())
  }
}
