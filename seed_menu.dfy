/**
 * The `seed_menu` management command (menu/management/commands/seed_menu.py):
 * a dry-run preview, and a full replace of the catalog inside one atomic
 * transaction: wipe items, wipe categories, insert every group, then check the
 * row counts against the expected totals. The transaction is modelled by
 * restoring the tables saved at its start whenever the block fails.
 */
module SeedMenu {
  import opened Wrappers
  import opened MenuModels
  import opened Catalog
  import opened SeedData

  /** A line of the dry-run listing: `[order] name (n items)`. */
  datatype PreviewLine = PreviewLine(displayOrder: nat, name: string, itemCount: nat)

  /** The dry-run report: one line per group, then the two totals. */
  datatype Preview = Preview(lines: seq<PreviewLine>, categories: nat, items: nat)

  /** A failed count check: what was expected and what the table held. */
  datatype CountError =
    | CategoryCountMismatch(expected: nat, got: nat)
    | ItemCountMismatch(expected: nat, got: nat)

  /** What `_insert_menu` returns, or the unique-name IntegrityError that interrupts it. */
  datatype InsertResult = Inserted(categories: nat, items: nat) | DuplicateName(name: string)

  /** How the command ends. */
  datatype SeedResult =
    | Seeded(categories: nat, items: nat)
    | IntegrityError(name: string)
    | VerificationFailed(errors: seq<CountError>)  // SystemExit(1) after one message per error
    | DryRun(preview: Preview)

  /** The data of the `MenuItem(...)` the seeder builds for one dataset entry. */
  function SeededData(spec: ItemSpec): (d: ItemData)
    ensures d.isAvailable && !d.featured && !d.egg
    ensures d.name == spec.name && d.veg == spec.veg && d.needsVerification == spec.needsVerification
    ensures d.priceRegular == spec.priceRegular && d.priceHalf == spec.priceHalf && d.priceFull == spec.priceFull
  {
    ItemData(spec.name, "", spec.veg, false, spec.priceHalf, spec.priceFull, spec.priceRegular,
             "", false, spec.needsVerification, true)
  }

  /** The unsaved rows of one group, all pointing at `categoryId`. */
  function SeededRows(categoryId: nat, specs: seq<ItemSpec>): (rows: seq<NewItem>) {
    seq(|specs|, k requires 0 <= k < |specs| => NewItem(categoryId, SeededData(specs[k])))
  }

  /** What a seeded category holds. */
  function GroupContent(g: Group): (content: CategoryContent) {
    CategoryContent(g.name, g.displayOrder, seq(|g.items|, k requires 0 <= k < |g.items| => SeededData(g.items[k])))
  }

  /** The catalog a dataset describes, group by group. */
  function Expected(data: seq<Group>): (content: seq<CategoryContent>) {
    seq(|data|, i requires 0 <= i < |data| => GroupContent(data[i]))
  }

  function NamesOf(data: seq<Group>): (names: set<string>) {
    set g | g in data :: g.name
  }

  /** The groups can be inserted beside `existing` names without breaking name uniqueness. */
  predicate NamesFresh(existing: set<string>, data: seq<Group>) {
    (forall i :: 0 <= i < |data| ==> data[i].name !in existing) && DistinctNames(data)
  }

  // ------------------------------------------------------------------
  // Dry run
  // ------------------------------------------------------------------

  function PreviewLines(data: seq<Group>): (lines: seq<PreviewLine>)
    ensures |lines| == |data|
  {
    seq(|data|, i requires 0 <= i < |data| => PreviewLine(data[i].displayOrder, data[i].name, |data[i].items|))
  }

  /** `_print_preview`: the listing of MENU_DATA followed by EXPECTED_CATEGORIES and EXPECTED_ITEMS. */
  function PrintPreview(): (preview: Preview) {
    Preview(PreviewLines(MenuData), ExpectedCategories, ExpectedItems)
  }

  function LineTotal(lines: seq<PreviewLine>): (total: nat) {
    if |lines| == 0 then 0 else LineTotal(lines[..|lines| - 1]) + lines[|lines| - 1].itemCount
  }

  lemma {:induction false} LineTotalIsTotalItems(data: seq<Group>)
    ensures LineTotal(PreviewLines(data)) == TotalItems(data)
  {
    if |data| > 0 {
      var init := data[..|data| - 1];
      LineTotalIsTotalItems(init);
      assert PreviewLines(data)[..|data| - 1] == PreviewLines(init);
    }
  }

  /** The dry-run totals agree with its own lines: one line per category, the counts summing to the item total. */
  lemma PreviewTotalsAgree()
    ensures |PrintPreview().lines| == PrintPreview().categories == 12
    ensures LineTotal(PrintPreview().lines) == PrintPreview().items == 109
  {
    MenuDataTotals();
    LineTotalIsTotalItems(MenuData);
  }

  // ------------------------------------------------------------------
  // The replace
  // ------------------------------------------------------------------

  /** `_wipe_existing`: items first, so the PROTECT rule never blocks the category delete. */
  method WipeExisting(store: CatalogStore) returns (deletedItems: nat, deletedCategories: nat)
    requires store.Valid()
    modifies store
    ensures store.Valid()
    ensures store.categories == [] && store.items == []
    ensures deletedItems == |old(store.items)| && deletedCategories == |old(store.categories)|
    ensures store.nextCategoryId == old(store.nextCategoryId) && store.nextItemId == old(store.nextItemId)
  {
    deletedItems := store.DeleteAllItems();
    var r := store.DeleteAllCategories();
    deletedCategories := r.value;
  }

  lemma ContentAppendCategory(categories: seq<Category>, items: seq<MenuItem>, c: Category)
    ensures Content(categories + [c], items)
         == Content(categories, items) + [CategoryContent(c.name, c.displayOrder, ItemsOf(items, c.id))]
  {
  }

  lemma {:induction false} ItemsOfOwn(items: seq<MenuItem>, id: nat)
    requires forall k :: 0 <= k < |items| ==> items[k].categoryId == id
    ensures ItemsOf(items, id) == seq(|items|, k requires 0 <= k < |items| => DataOf(items[k]))
  {
    if |items| > 0 {
      ItemsOfOwn(items[1..], id);
    }
  }

  /** After the category of group `g` is created, bulk-inserting its rows extends the content by exactly that group. */
  lemma GroupStep(categories: seq<Category>, items: seq<MenuItem>, c: Category, saved: seq<MenuItem>, g: Group)
    requires forall k :: 0 <= k < |items| ==> items[k].categoryId in CategoryIds(categories)
    requires c.id !in CategoryIds(categories)
    requires c.name == g.name && c.displayOrder == g.displayOrder
    requires |saved| == |g.items|
    requires forall k :: 0 <= k < |saved| ==> saved[k].categoryId == c.id && DataOf(saved[k]) == SeededData(g.items[k])
    ensures Content(categories + [c], items + saved) == Content(categories, items) + [GroupContent(g)]
  {
    ContentAppendCategory(categories, items + saved, c);
    assert forall item :: item in saved ==> item.categoryId !in CategoryIds(categories);
    ContentIgnoresOtherItems(categories, items, saved);
    ItemsOfAppend(items, saved, c.id);
    assert !Referenced(items, c.id) by {
      forall item | item in items ensures item.categoryId != c.id {
        var k :| 0 <= k < |items| && items[k] == item;
      }
    }
    ItemsOfUnreferenced(items, c.id);
    ItemsOfOwn(saved, c.id);
    assert ItemsOf(items + saved, c.id) == GroupContent(g).items;
  }

  lemma ExtendPrefix(data: seq<Group>, i: nat)
    requires i < |data|
    ensures Expected(data[..i + 1]) == Expected(data[..i]) + [GroupContent(data[i])]
    ensures TotalItems(data[..i + 1]) == TotalItems(data[..i]) + |data[i].items|
    ensures NamesOf(data[..i + 1]) == NamesOf(data[..i]) + {data[i].name}
  {
    assert data[..i + 1][..i] == data[..i];
    assert data[..i + 1] == data[..i] + [data[i]];
  }

  /** Inserting group `i` keeps the names unique exactly when its name is not taken yet. */
  lemma {:induction false} FreshStep(names0: set<string>, data: seq<Group>, i: nat)
    requires i < |data| && NamesFresh(names0, data[..i])
    ensures data[i].name !in names0 + NamesOf(data[..i]) ==> NamesFresh(names0, data[..i + 1])
    ensures data[i].name in names0 + NamesOf(data[..i]) ==> !NamesFresh(names0, data)
  {
    var name := data[i].name;
    if name in names0 {
      assert data[i].name in names0;
    } else if name in NamesOf(data[..i]) {
      var g :| g in data[..i] && g.name == name;
      var j :| 0 <= j < i && data[..i][j] == g;
      assert data[j].name == data[i].name;
    } else {
      forall j | 0 <= j < i ensures data[j].name != name {
        assert data[..i][j] in data[..i];
      }
    }
  }

  /**
   * One iteration of `_insert_menu`: create the group's category, then
   * bulk-insert its items under it. Fails, changing nothing, on a taken name.
   */
  method InsertGroup(store: CatalogStore, g: Group, now: int) returns (ok: bool)
    requires store.Valid()
    modifies store
    ensures store.Valid()
    ensures ok <==> g.name !in CategoryNames(old(store.categories))
    ensures !ok ==> store.categories == old(store.categories) && store.items == old(store.items)
    ensures ok ==> Content(store.categories, store.items) == Content(old(store.categories), old(store.items)) + [GroupContent(g)]
    ensures ok ==> CategoryNames(store.categories) == CategoryNames(old(store.categories)) + {g.name}
    ensures ok ==> |store.categories| == |old(store.categories)| + 1
    ensures ok ==> |store.items| == |old(store.items)| + |g.items|
  {
    ghost var cats, items := store.categories, store.items;
    var created := store.CreateCategory(g.name, g.displayOrder, now);
    if created.None? {
      return false;
    }
    var category := created.value;
    var rows := SeededRows(category.id, g.items);
    var bulk := store.BulkCreate(rows, now);
    assert bulk;
    ghost var saved := store.items[|items|..];
    assert store.items == items + saved;
    GroupStep(cats, items, category, saved, g);
    assert CategoryNames(store.categories) == CategoryNames(cats) + {g.name};
    ok := true;
  }

  /**
   * `_insert_menu`: one category per group with that group's name and display
   * order, its items bulk-inserted available and not featured; returns the
   * number of categories and of items created.
   */
  method InsertMenu(store: CatalogStore, data: seq<Group>, now: int) returns (r: InsertResult)
    requires store.Valid()
    modifies store
    ensures store.Valid()
    ensures r.Inserted? <==> NamesFresh(CategoryNames(old(store.categories)), data)
    ensures r.Inserted? ==> r.categories == |data| && r.items == TotalItems(data)
    ensures r.Inserted? ==> Content(store.categories, store.items) == Content(old(store.categories), old(store.items)) + Expected(data)
    ensures r.Inserted? ==> |store.categories| == |old(store.categories)| + |data|
    ensures r.Inserted? ==> |store.items| == |old(store.items)| + TotalItems(data)
  {
    ghost var cats0, items0 := store.categories, store.items;
    ghost var names0 := CategoryNames(cats0);
    var catCount, itemCount := 0, 0;
    var i := 0;
    while i < |data|
      invariant 0 <= i <= |data|
      invariant store.Valid()
      invariant NamesFresh(names0, data[..i])
      invariant CategoryNames(store.categories) == names0 + NamesOf(data[..i])
      invariant catCount == i && itemCount == TotalItems(data[..i])
      invariant |store.categories| == |cats0| + i
      invariant |store.items| == |items0| + TotalItems(data[..i])
      invariant Content(store.categories, store.items) == Content(cats0, items0) + Expected(data[..i])
    {
      var g := data[i];
      ExtendPrefix(data, i);
      FreshStep(names0, data, i);
      ghost var before := Content(store.categories, store.items);
      var ok := InsertGroup(store, g, now);
      if !ok {
        return DuplicateName(g.name);
      }
      assert Content(store.categories, store.items) == Content(cats0, items0) + Expected(data[..i + 1]) by {
        assert before + [GroupContent(g)] == Content(cats0, items0) + (Expected(data[..i]) + [GroupContent(g)]);
      }
      catCount, itemCount := catCount + 1, itemCount + |g.items|;
      i := i + 1;
    }
    assert data[..i] == data;
    r := Inserted(catCount, itemCount);
  }

  /** `_verify_counts`: one error per table whose row count differs from its expected total. */
  method VerifyCounts(store: CatalogStore, expectedCategories: nat, expectedItems: nat) returns (errors: seq<CountError>)
    ensures |errors| == 0 <==> |store.categories| == expectedCategories && |store.items| == expectedItems
    ensures CategoryCountMismatch(expectedCategories, |store.categories|) in errors <==> |store.categories| != expectedCategories
    ensures ItemCountMismatch(expectedItems, |store.items|) in errors <==> |store.items| != expectedItems
    ensures |errors| == (if |store.categories| != expectedCategories then 1 else 0) + (if |store.items| != expectedItems then 1 else 0)
  {
    var dbCategories := |store.categories|;
    var dbItems := |store.items|;
    errors := [];
    if dbCategories != expectedCategories {
      errors := errors + [CategoryCountMismatch(expectedCategories, dbCategories)];
    }
    if dbItems != expectedItems {
      errors := errors + [ItemCountMismatch(expectedItems, dbItems)];
    }
  }

  /**
   * The statements of the `transaction.atomic()` block, in order, without the
   * rollback: wipe, insert, count. Stops at the first failure.
   */
  method ReplaceCatalog(store: CatalogStore, data: seq<Group>, expectedCategories: nat, expectedItems: nat, now: int)
    returns (r: SeedResult)
    requires store.Valid()
    modifies store
    ensures store.Valid()
    ensures r.IntegrityError? <==> !DistinctNames(data)
    ensures r.Seeded? <==> DistinctNames(data) && |data| == expectedCategories && TotalItems(data) == expectedItems
    ensures r.Seeded? ==> r.categories == |data| && r.items == TotalItems(data)
    ensures r.Seeded? ==> Content(store.categories, store.items) == Expected(data)
    ensures r.Seeded? ==> |store.categories| == |data| && |store.items| == TotalItems(data)
    ensures r.VerificationFailed? ==>
              && (CategoryCountMismatch(expectedCategories, |data|) in r.errors <==> |data| != expectedCategories)
              && (ItemCountMismatch(expectedItems, TotalItems(data)) in r.errors <==> TotalItems(data) != expectedItems)
    ensures !r.DryRun?
  {
    var _, _ := WipeExisting(store);
    assert CategoryNames(store.categories) == {};
    assert Content(store.categories, store.items) == [];
    var inserted := InsertMenu(store, data, now);
    if inserted.DuplicateName? {
      return IntegrityError(inserted.name);
    }
    assert NamesFresh({}, data);
    var errors := VerifyCounts(store, expectedCategories, expectedItems);
    if |errors| > 0 {
      return VerificationFailed(errors);
    }
    assert [] + Expected(data) == Expected(data);
    r := Seeded(inserted.categories, inserted.items);
  }

  /**
   * The `transaction.atomic()` block of `handle`, for any dataset and expected
   * totals: on success the tables hold exactly the dataset, whatever they held
   * before; on any failure they are rolled back to what they were.
   */
  method Reseed(store: CatalogStore, data: seq<Group>, expectedCategories: nat, expectedItems: nat, now: int)
    returns (r: SeedResult)
    requires store.Valid()
    modifies store
    ensures store.Valid()
    ensures r.IntegrityError? <==> !DistinctNames(data)
    ensures r.Seeded? <==> DistinctNames(data) && |data| == expectedCategories && TotalItems(data) == expectedItems
    ensures r.Seeded? ==> r.categories == |data| && r.items == TotalItems(data)
    ensures r.Seeded? ==> Content(store.categories, store.items) == Expected(data)
    ensures r.Seeded? ==> |store.categories| == |data| && |store.items| == TotalItems(data)
    ensures r.VerificationFailed? ==>
              && (CategoryCountMismatch(expectedCategories, |data|) in r.errors <==> |data| != expectedCategories)
              && (ItemCountMismatch(expectedItems, TotalItems(data)) in r.errors <==> TotalItems(data) != expectedItems)
    ensures !r.Seeded? ==> store.categories == old(store.categories) && store.items == old(store.items)
    ensures !r.Seeded? ==> store.nextCategoryId == old(store.nextCategoryId) && store.nextItemId == old(store.nextItemId)
    ensures !r.DryRun?
  {
    var savedCategories, savedItems := store.categories, store.items;
    var savedNextCategory, savedNextItem := store.nextCategoryId, store.nextItemId;
    r := ReplaceCatalog(store, data, expectedCategories, expectedItems, now);
    if !r.Seeded? {
      store.categories, store.items := savedCategories, savedItems;
      store.nextCategoryId, store.nextItemId := savedNextCategory, savedNextItem;
    }
  }

  /**
   * `Command.handle`: the dry run writes nothing and reports the preview; the
   * real run replaces the catalog by MENU_DATA and its count check cannot fail.
   */
  method Handle(store: CatalogStore, dryRun: bool, now: int) returns (r: SeedResult)
    requires store.Valid()
    modifies store
    ensures store.Valid()
    ensures dryRun ==> r == DryRun(PrintPreview())
    ensures dryRun ==> store.categories == old(store.categories) && store.items == old(store.items)
    ensures !dryRun ==> r == Seeded(ExpectedCategories, ExpectedItems)
    ensures !dryRun ==> Content(store.categories, store.items) == Expected(MenuData)
    ensures !dryRun ==> |store.categories| == 12 && |store.items| == 109
  {
    if dryRun {
      return DryRun(PrintPreview());
    }
    MenuDataTotals();
    MenuDataNamesDistinct();
    r := Reseed(store, MenuData, ExpectedCategories, ExpectedItems, now);
  }

  /** Running the command twice leaves the same catalog as running it once. */
  method SeedIsIdempotent(store: CatalogStore, now1: int, now2: int)
    requires store.Valid()
    modifies store
    ensures store.Valid()
    ensures Content(store.categories, store.items) == Expected(MenuData)
  {
    var first := Handle(store, false, now1);
    ghost var once := Content(store.categories, store.items);
    var second := Handle(store, false, now2);
    assert first == second;
    assert Content(store.categories, store.items) == once;
  }
}
