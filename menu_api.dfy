/**
 * The read-only API views of menu/api_views.py: `category_list`,
 * `menu_list` with its category and diet filters, and `featured_items`.
 * Each view is a query over the tables followed by a serializer; the
 * request is passed in for the absolute image URLs.
 */
module MenuApi {
  import opened Wrappers
  import opened Text
  import opened Sorting
  import opened MenuModels
  import opened MenuSerializers

  // ------------------------------------------------------------------
  // GET /api/categories
  // ------------------------------------------------------------------

  /** `Category.objects.all()` under the default ordering. */
  function CategoryQuery(categories: seq<Category>): (qs: seq<Category>) {
    Sort(CategoryOrder(), categories)
  }

  /** `category_list`: one flat row per category. */
  function CategoryList(categories: seq<Category>): (rows: seq<CategoryRow>)
    ensures |rows| == |CategoryQuery(categories)|
  {
    var qs := CategoryQuery(categories);
    seq(|qs|, k requires 0 <= k < |qs| => SerializeCategoryRow(qs[k]))
  }

  /** Every category is listed, none twice and none dropped, ordered by (display_order, name). */
  lemma CategoryListComplete(categories: seq<Category>)
    ensures multiset(CategoryQuery(categories)) == multiset(categories)
    ensures |CategoryList(categories)| == |categories|
    ensures forall c :: c in categories ==> SerializeCategoryRow(c) in CategoryList(categories)
    ensures forall i, j :: 0 <= i < j < |CategoryList(categories)| ==>
              || CategoryList(categories)[i].displayOrder < CategoryList(categories)[j].displayOrder
              || (&& CategoryList(categories)[i].displayOrder == CategoryList(categories)[j].displayOrder
                  && StrLe(CategoryList(categories)[i].name, CategoryList(categories)[j].name))
  {
    CategoryOrderIsTotalPreorder();
    SortCorrect(CategoryOrder(), categories);
    var qs := CategoryQuery(categories);
    var rows := CategoryList(categories);
    assert |qs| == |multiset(qs)| == |multiset(categories)| == |categories|;
    forall c | c in categories ensures SerializeCategoryRow(c) in rows {
      assert c in multiset(qs);
      var k :| 0 <= k < |qs| && qs[k] == c;
      assert rows[k] == SerializeCategoryRow(c);
    }
    forall i, j | 0 <= i < j < |rows|
      ensures rows[i].displayOrder < rows[j].displayOrder
           || (rows[i].displayOrder == rows[j].displayOrder && StrLe(rows[i].name, rows[j].name))
    {
      assert CategoryLe(qs[i], qs[j]);
    }
  }

  // ------------------------------------------------------------------
  // GET /api/menu
  // ------------------------------------------------------------------

  /** `filter(veg=True, egg=False)`. */
  function VegOnly(): MenuItem -> bool {
    (m: MenuItem) => m.veg && !m.egg
  }

  /** `filter(egg=True)`. */
  function EggOnly(): MenuItem -> bool {
    (m: MenuItem) => m.egg
  }

  /** `filter(veg=False, egg=False)`. */
  function NonVegOnly(): MenuItem -> bool {
    (m: MenuItem) => !m.veg && !m.egg
  }

  /** The filter a `diet` value selects; any other value selects none. */
  function DietFilter(diet: string): (f: Option<MenuItem -> bool>) {
    if diet == "veg" then Some(VegOnly())
    else if diet == "egg" then Some(EggOnly())
    else if diet == "nonveg" then Some(NonVegOnly())
    else None
  }

  /** An item passes the `diet` parameter, absent or present. */
  predicate DietAccepts(diet: Option<string>, m: MenuItem) {
    match diet
    case None => true
    case Some(d) =>
      if d == "veg" then m.veg && !m.egg
      else if d == "egg" then m.egg
      else if d == "nonveg" then !m.veg && !m.egg
      else true
  }

  /**
   * The queryset `menu_list` builds: available items in the default order,
   * narrowed by the `category` id when one is given (absent and empty are
   * both None), then by the diet filter when the value is one of the three.
   */
  function MenuQuery(categories: seq<Category>, items: seq<MenuItem>, category: Option<nat>, diet: Option<string>): (qs: seq<MenuItem>) {
    var available := Select(ItemOrder(categories), Available(), items);
    var inCategory := if category.Some? then Filter(InCategory(category.value), available) else available;
    if diet.Some? && DietFilter(diet.value).Some? then Filter(DietFilter(diet.value).value, inCategory) else inCategory
  }

  /** `menu_list`: the serialized rows of the query. */
  function MenuList(request: Request, categories: seq<Category>, items: seq<MenuItem>, category: Option<nat>, diet: Option<string>): (rows: seq<ItemJson>) {
    SerializeItems(categories, MenuQuery(categories, items, category, diet), Some(request))
  }

  /**
   * The query holds exactly the available items that pass both parameters;
   * without parameters it holds every available row, each as often as stored.
   */
  lemma MenuQueryMembership(categories: seq<Category>, items: seq<MenuItem>, category: Option<nat>, diet: Option<string>)
    ensures forall m :: m in MenuQuery(categories, items, category, diet) <==>
              && m in items
              && m.isAvailable
              && (category.None? || m.categoryId == category.value)
              && DietAccepts(diet, m)
    ensures multiset(MenuQuery(categories, items, None, None)) == multiset(Filter(Available(), items))
  {
    ItemOrderIsTotalPreorder(categories);
    var available := Select(ItemOrder(categories), Available(), items);
    SelectCorrect(ItemOrder(categories), Available(), items);
    var inCategory := if category.Some? then Filter(InCategory(category.value), available) else available;
    forall m ensures m in inCategory <==> m in available && (category.None? || m.categoryId == category.value) {
      if category.Some? {
        FilterMembership(InCategory(category.value), available, m);
      }
    }
    forall m ensures m in MenuQuery(categories, items, category, diet) <==> m in inCategory && DietAccepts(diet, m) {
      if diet.Some? && DietFilter(diet.value).Some? {
        FilterMembership(DietFilter(diet.value).value, inCategory, m);
      }
    }
  }

  /** The query is ordered by (category display_order, name) whatever the parameters. */
  lemma MenuQuerySorted(categories: seq<Category>, items: seq<MenuItem>, category: Option<nat>, diet: Option<string>)
    ensures SortedBy(ItemOrder(categories), MenuQuery(categories, items, category, diet))
  {
    var le := ItemOrder(categories);
    ItemOrderIsTotalPreorder(categories);
    var available := Select(le, Available(), items);
    SelectCorrect(le, Available(), items);
    var inCategory := if category.Some? then Filter(InCategory(category.value), available) else available;
    if category.Some? {
      FilterSorted(le, InCategory(category.value), available);
    }
    if diet.Some? && DietFilter(diet.value).Some? {
      FilterSorted(le, DietFilter(diet.value).value, inCategory);
    }
  }

  /** A `diet` value other than veg, egg and nonveg is ignored. */
  lemma UnknownDietIgnored(categories: seq<Category>, items: seq<MenuItem>, category: Option<nat>, diet: string)
    requires diet != "veg" && diet != "egg" && diet != "nonveg"
    ensures MenuQuery(categories, items, category, Some(diet)) == MenuQuery(categories, items, category, None)
  {
  }

  /**
   * The three diets partition the menu: no item is in two of the results, and
   * together they hold the unfiltered result, row for row.
   */
  lemma DietPartition(categories: seq<Category>, items: seq<MenuItem>, category: Option<nat>)
    ensures multiset(MenuQuery(categories, items, category, Some("veg")))
          + multiset(MenuQuery(categories, items, category, Some("egg")))
          + multiset(MenuQuery(categories, items, category, Some("nonveg")))
         == multiset(MenuQuery(categories, items, category, None))
    ensures forall m :: m in MenuQuery(categories, items, category, Some("veg")) ==> m !in MenuQuery(categories, items, category, Some("egg"))
    ensures forall m :: m in MenuQuery(categories, items, category, Some("veg")) ==> m !in MenuQuery(categories, items, category, Some("nonveg"))
    ensures forall m :: m in MenuQuery(categories, items, category, Some("egg")) ==> m !in MenuQuery(categories, items, category, Some("nonveg"))
  {
    var all := MenuQuery(categories, items, category, None);
    assert MenuQuery(categories, items, category, Some("veg")) == Filter(VegOnly(), all);
    assert MenuQuery(categories, items, category, Some("egg")) == Filter(EggOnly(), all);
    assert MenuQuery(categories, items, category, Some("nonveg")) == Filter(NonVegOnly(), all);
    FilterPartition3(VegOnly(), EggOnly(), NonVegOnly(), all);
    MenuQueryMembership(categories, items, category, Some("veg"));
    MenuQueryMembership(categories, items, category, Some("egg"));
    MenuQueryMembership(categories, items, category, Some("nonveg"));
  }

  /** Every row `menu_list` returns is an available item, of the requested category when one is given. */
  lemma MenuListRows(request: Request, categories: seq<Category>, items: seq<MenuItem>, category: Option<nat>, diet: Option<string>)
    ensures |MenuList(request, categories, items, category, diet)| == |MenuQuery(categories, items, category, diet)|
    ensures forall j :: j in MenuList(request, categories, items, category, diet) ==>
              j.isAvailable && (category.None? || j.category == category.value)
  {
    MenuQueryMembership(categories, items, category, diet);
    var q := MenuQuery(categories, items, category, diet);
    var rows := MenuList(request, categories, items, category, diet);
    forall j | j in rows ensures j.isAvailable && (category.None? || j.category == category.value) {
      var k :| 0 <= k < |rows| && rows[k] == j;
      assert q[k] in q;
    }
  }

  // ------------------------------------------------------------------
  // GET /api/featured
  // ------------------------------------------------------------------

  /** The `featured_items` queryset: featured, available items under the default item order. */
  function FeaturedQuery(categories: seq<Category>, items: seq<MenuItem>): (qs: seq<MenuItem>) {
    Select(ItemOrder(categories), FeaturedAndAvailable(), items)
  }

  function FeaturedItems(request: Request, categories: seq<Category>, items: seq<MenuItem>): (rows: seq<ItemJson>) {
    SerializeItems(categories, FeaturedQuery(categories, items), Some(request))
  }

  /** Exactly the featured and available items, each row once, in the default order. */
  lemma FeaturedQueryExact(categories: seq<Category>, items: seq<MenuItem>)
    ensures forall m :: m in FeaturedQuery(categories, items) <==> m in items && m.featured && m.isAvailable
    ensures multiset(FeaturedQuery(categories, items)) == multiset(Filter(FeaturedAndAvailable(), items))
    ensures SortedBy(ItemOrder(categories), FeaturedQuery(categories, items))
  {
    ItemOrderIsTotalPreorder(categories);
    SelectCorrect(ItemOrder(categories), FeaturedAndAvailable(), items);
  }
}
