/**
 * The Category and MenuItem tables as the ORM keeps them: rows in insertion
 * order, auto-increment ids, the unique constraint on category names and the
 * PROTECT rule of the item -> category foreign key (menu/models.py).
 */
module Catalog {
  import opened Wrappers
  import opened MenuModels

  /** Every column of an item row except its id, its category and its timestamps. */
  datatype ItemData = ItemData(
    name: string,
    description: string,
    veg: bool,
    egg: bool,
    priceHalf: Option<nat>,
    priceFull: Option<nat>,
    priceRegular: Option<nat>,
    image: string,
    featured: bool,
    needsVerification: bool,
    isAvailable: bool)

  /** An unsaved `MenuItem(...)` as passed to bulk_create: its category and its data. */
  datatype NewItem = NewItem(categoryId: nat, data: ItemData)

  function DataOf(item: MenuItem): ItemData {
    ItemData(item.name, item.description, item.veg, item.egg, item.priceHalf, item.priceFull,
             item.priceRegular, item.image, item.featured, item.needsVerification, item.isAvailable)
  }

  /** The row that saving `n` with primary key `id` at time `now` produces. */
  function Saved(n: NewItem, id: nat, now: int): (item: MenuItem)
    ensures DataOf(item) == n.data && item.id == id && item.categoryId == n.categoryId
  {
    MenuItem(id, n.categoryId, n.data.name, n.data.description, n.data.veg, n.data.egg,
             n.data.priceHalf, n.data.priceFull, n.data.priceRegular, n.data.image,
             n.data.featured, n.data.needsVerification, n.data.isAvailable, now, now)
  }

  function CategoryIds(categories: seq<Category>): set<nat> {
    set c | c in categories :: c.id
  }

  function CategoryNames(categories: seq<Category>): set<string> {
    set c | c in categories :: c.name
  }

  /** Some item points at category `id`. */
  predicate Referenced(items: seq<MenuItem>, id: nat) {
    exists item :: item in items && item.categoryId == id
  }

  /** The data of the items of category `id`, in table order. */
  function ItemsOf(items: seq<MenuItem>, id: nat): seq<ItemData> {
    if |items| == 0 then []
    else (if items[0].categoryId == id then [DataOf(items[0])] else []) + ItemsOf(items[1..], id)
  }

  /** What a category holds, ids and timestamps aside. */
  datatype CategoryContent = CategoryContent(name: string, displayOrder: nat, items: seq<ItemData>)

  /** The catalog as data: each category in table order with the items that reference it. */
  function Content(categories: seq<Category>, items: seq<MenuItem>): seq<CategoryContent> {
    seq(|categories|, k requires 0 <= k < |categories| =>
      CategoryContent(categories[k].name, categories[k].displayOrder, ItemsOf(items, categories[k].id)))
  }

  lemma {:induction false} ItemsOfAppend(xs: seq<MenuItem>, ys: seq<MenuItem>, id: nat)
    ensures ItemsOf(xs + ys, id) == ItemsOf(xs, id) + ItemsOf(ys, id)
  {
    if |xs| == 0 {
      assert xs + ys == ys;
    } else {
      ItemsOfAppend(xs[1..], ys, id);
      assert (xs + ys)[0] == xs[0];
      assert (xs + ys)[1..] == xs[1..] + ys;
    }
  }

  lemma {:induction false} ItemsOfUnreferenced(items: seq<MenuItem>, id: nat)
    requires !Referenced(items, id)
    ensures ItemsOf(items, id) == []
  {
    if |items| > 0 {
      assert items[0] in items;
      assert forall item :: item in items[1..] ==> item in items;
      ItemsOfUnreferenced(items[1..], id);
    }
  }

  /** Items appended under category ids the table does not hold leave every listed category as it was. */
  lemma ContentIgnoresOtherItems(categories: seq<Category>, items: seq<MenuItem>, extra: seq<MenuItem>)
    requires forall item :: item in extra ==> item.categoryId !in CategoryIds(categories)
    ensures Content(categories, items + extra) == Content(categories, items)
  {
    forall k | 0 <= k < |categories|
      ensures ItemsOf(items + extra, categories[k].id) == ItemsOf(items, categories[k].id)
    {
      assert categories[k] in categories;
      ItemsOfAppend(items, extra, categories[k].id);
      ItemsOfUnreferenced(extra, categories[k].id);
    }
  }

  /** The two tables. */
  class CatalogStore {
    var categories: seq<Category>
    var items: seq<MenuItem>
    var nextCategoryId: nat
    var nextItemId: nat

    /**
     * Ids are handed out in increasing order and never reused, category
     * names are unique, and every item references a stored category.
     */
    ghost predicate Valid()
      reads this
    {
      && (forall i, j :: 0 <= i < j < |categories| ==> categories[i].id < categories[j].id)
      && (forall i :: 0 <= i < |categories| ==> categories[i].id < nextCategoryId)
      && (forall i, j :: 0 <= i < j < |categories| ==> categories[i].name != categories[j].name)
      && (forall i, j :: 0 <= i < j < |items| ==> items[i].id < items[j].id)
      && (forall i :: 0 <= i < |items| ==> items[i].id < nextItemId)
      && (forall i :: 0 <= i < |items| ==> items[i].categoryId in CategoryIds(categories))
    }

    constructor ()
      ensures Valid()
      ensures categories == [] && items == []
    {
      categories, items := [], [];
      nextCategoryId, nextItemId := 1, 1;
    }

    /** `Category.objects.create(name=..., display_order=...)`; None is the unique-name IntegrityError. */
    method CreateCategory(name: string, displayOrder: nat, now: int) returns (r: Option<Category>)
      requires Valid()
      modifies this
      ensures Valid()
      ensures r.None? <==> name in CategoryNames(old(categories))
      ensures r.None? ==> unchanged(this)
      ensures r.Some? ==> r.value.id == old(nextCategoryId) && r.value.id !in CategoryIds(old(categories))
      ensures r.Some? ==> r.value.name == name && r.value.displayOrder == displayOrder
      ensures r.Some? ==> categories == old(categories) + [r.value] && items == old(items)
      ensures r.Some? ==> nextCategoryId == old(nextCategoryId) + 1 && nextItemId == old(nextItemId)
    {
      if name in CategoryNames(categories) {
        return None;
      }
      var c := Category(nextCategoryId, name, displayOrder, now);
      assert forall i :: 0 <= i < |categories| ==> categories[i].name != name by {
        forall i | 0 <= i < |categories| ensures categories[i].name != name {
          assert categories[i] in categories;
        }
      }
      categories := categories + [c];
      nextCategoryId := nextCategoryId + 1;
      r := Some(c);
    }

    /** `MenuItem.objects.bulk_create(rows)`: refused, with nothing saved, if a row names a missing category. */
    method BulkCreate(rows: seq<NewItem>, now: int) returns (ok: bool)
      requires Valid()
      modifies this
      ensures Valid()
      ensures ok <==> forall k :: 0 <= k < |rows| ==> rows[k].categoryId in CategoryIds(old(categories))
      ensures !ok ==> unchanged(this)
      ensures ok ==> categories == old(categories) && nextCategoryId == old(nextCategoryId)
      ensures ok ==> nextItemId == old(nextItemId) + |rows|
      ensures ok ==> items == old(items) + seq(|rows|, k requires 0 <= k < |rows| => Saved(rows[k], old(nextItemId) + k, now))
    {
      ok := forall k :: 0 <= k < |rows| ==> rows[k].categoryId in CategoryIds(categories);
      if ok {
        var first := nextItemId;
        var saved := seq(|rows|, k requires 0 <= k < |rows| => Saved(rows[k], first + k, now));
        assert forall k :: 0 <= k < |saved| ==> saved[k].id == first + k;
        items := items + saved;
        nextItemId := first + |rows|;
      }
    }

    /** `MenuItem.objects.all().delete()`: item rows are not protected. */
    method DeleteAllItems() returns (deleted: nat)
      requires Valid()
      modifies this
      ensures Valid()
      ensures deleted == |old(items)|
      ensures items == [] && categories == old(categories)
      ensures nextCategoryId == old(nextCategoryId) && nextItemId == old(nextItemId)
    {
      deleted := |items|;
      items := [];
    }

    /** `Category.objects.all().delete()`: a ProtectedError (None) while any item remains. */
    method DeleteAllCategories() returns (r: Option<nat>)
      requires Valid()
      modifies this
      ensures Valid()
      ensures r.None? <==> |old(items)| > 0
      ensures r.None? ==> unchanged(this)
      ensures r.Some? ==> r.value == |old(categories)| && categories == [] && items == []
      ensures nextCategoryId == old(nextCategoryId) && nextItemId == old(nextItemId)
    {
      if |items| > 0 {
        return None;
      }
      r := Some(|categories|);
      categories := [];
    }

    /** Deleting one category: refused (false), with both tables unchanged, while an item references it. */
    method DeleteCategory(id: nat) returns (ok: bool)
      requires Valid()
      modifies this
      ensures Valid()
      ensures ok <==> !Referenced(old(items), id)
      ensures !ok ==> unchanged(this)
      ensures ok ==> items == old(items)
      ensures ok ==> categories == Sorting.Filter(OtherThan(id), old(categories))
      ensures nextCategoryId == old(nextCategoryId) && nextItemId == old(nextItemId)
    {
      ok := !Referenced(items, id);
      if ok {
        var kept := Sorting.Filter(OtherThan(id), categories);
        KeptCategories(categories, id);
        forall i | 0 <= i < |kept| ensures kept[i].id < nextCategoryId {
          assert kept[i] in kept;
        }
        forall i | 0 <= i < |items| ensures items[i].categoryId in CategoryIds(kept) {
          assert items[i] in items;
          var c :| c in categories && c.id == items[i].categoryId;
          Sorting.FilterMembership(OtherThan(id), categories, c);
        }
        categories := kept;
      }
    }
  }

  /** The filter that keeps every category but the one with key `id`. */
  function OtherThan(id: nat): Category -> bool {
    (c: Category) => c.id != id
  }

  /** Dropping the categories with one id keeps the others in order. */
  lemma {:induction false} KeptCategories(categories: seq<Category>, id: nat)
    requires forall i, j :: 0 <= i < j < |categories| ==> categories[i].id < categories[j].id
    requires forall i, j :: 0 <= i < j < |categories| ==> categories[i].name != categories[j].name
    ensures forall i, j :: 0 <= i < j < |Sorting.Filter(OtherThan(id), categories)| ==>
              Sorting.Filter(OtherThan(id), categories)[i].id < Sorting.Filter(OtherThan(id), categories)[j].id
    ensures forall i, j :: 0 <= i < j < |Sorting.Filter(OtherThan(id), categories)| ==>
              Sorting.Filter(OtherThan(id), categories)[i].name != Sorting.Filter(OtherThan(id), categories)[j].name
    ensures forall c :: c in Sorting.Filter(OtherThan(id), categories) ==> c in categories
  {
    var p := OtherThan(id);
    var kept := Sorting.Filter(p, categories);
    forall k | 0 <= k < |kept| ensures kept[k] in categories {
      Sorting.FilterMembership(p, categories, kept[k]);
    }
    if |categories| > 0 {
      var rest := categories[1..];
      KeptCategories(rest, id);
      var keptRest := Sorting.Filter(p, rest);
      forall k | 0 <= k < |keptRest|
        ensures categories[0].id < keptRest[k].id && categories[0].name != keptRest[k].name
      {
        Sorting.FilterMembership(p, rest, keptRest[k]);
        var j :| 0 <= j < |rest| && rest[j] == keptRest[k];
        assert categories[j + 1] == keptRest[k];
      }
    }
  }
}
