/**
 * The catalog records of menu/models.py: Category and MenuItem, the two
 * derived helpers `display_price` and `has_half_full`, and the two default
 * orderings (Meta.ordering) the queries fall back on.
 *
 * Prices are whole rupees (nat); `None` is a NULL column. Timestamps are
 * abstract integers supplied by the caller.
 */
module MenuModels {
  import opened Wrappers
  import opened Text
  import opened Sorting

  /** A row of the Category table. */
  datatype Category = Category(id: nat, name: string, displayOrder: nat, createdAt: int)

  /** A row of the MenuItem table; `categoryId` is the PROTECTed foreign key, `image` "" when unset. */
  datatype MenuItem = MenuItem(
    id: nat,
    categoryId: nat,
    name: string,
    description: string,
    veg: bool,
    egg: bool,
    priceHalf: Option<nat>,
    priceFull: Option<nat>,
    priceRegular: Option<nat>,
    image: string,
    featured: bool,
    needsVerification: bool,
    isAvailable: bool,
    createdAt: int,
    updatedAt: int)

  /** The three nullable price columns, as a triple. */
  datatype PriceFields = PriceFields(regular: Option<nat>, half: Option<nat>, full: Option<nat>)

  const Rupee: string := "\U{20B9}"
  const HalfLabel: string := "Half " + Rupee
  const FullLabel: string := "Full " + Rupee
  const Separator: string := "  /  "
  const OnRequest: string := "Price on request"

  /** How a price amount is written after the rupee sign. */
  function PriceText(p: nat): (s: string) {
    DecimalString(p)
  }

  /** The `parts` list display_price builds before joining. */
  function PriceParts(item: MenuItem): (parts: seq<string>) {
    if item.priceRegular.Some? then [Rupee + PriceText(item.priceRegular.value)]
    else
      (if item.priceHalf.Some? then [HalfLabel + PriceText(item.priceHalf.value)] else [])
      + (if item.priceFull.Some? then [FullLabel + PriceText(item.priceFull.value)] else [])
  }

  /**
   * `MenuItem.display_price`: a regular price wins outright; otherwise the
   * half and full parts that are present, half first; otherwise a fixed text.
   */
  function DisplayPrice(item: MenuItem): (s: string)
    ensures item.priceRegular.Some? ==> s == Rupee + PriceText(item.priceRegular.value)
    ensures item.priceRegular.None? && item.priceHalf.Some? && item.priceFull.Some? ==>
              s == HalfLabel + PriceText(item.priceHalf.value) + Separator + FullLabel + PriceText(item.priceFull.value)
    ensures item.priceRegular.None? && item.priceHalf.Some? && item.priceFull.None? ==>
              s == HalfLabel + PriceText(item.priceHalf.value)
    ensures item.priceRegular.None? && item.priceHalf.None? && item.priceFull.Some? ==>
              s == FullLabel + PriceText(item.priceFull.value)
    ensures s == OnRequest <==> item.priceRegular.None? && item.priceHalf.None? && item.priceFull.None?
    ensures |s| > 0
  {
    var parts := PriceParts(item);
    if |parts| > 0 then JoinedPartsShape(item); Join(Separator, parts) else OnRequest
  }

  /** What joining the parts gives, case by case; it never reads as the on-request text. */
  lemma JoinedPartsShape(item: MenuItem)
    requires |PriceParts(item)| > 0
    ensures var s := Join(Separator, PriceParts(item));
      && (item.priceRegular.Some? ==> s == Rupee + PriceText(item.priceRegular.value))
      && (item.priceRegular.None? && item.priceHalf.Some? && item.priceFull.Some? ==>
            s == HalfLabel + PriceText(item.priceHalf.value) + Separator + FullLabel + PriceText(item.priceFull.value))
      && (item.priceRegular.None? && item.priceHalf.Some? && item.priceFull.None? ==>
            s == HalfLabel + PriceText(item.priceHalf.value))
      && (item.priceRegular.None? && item.priceHalf.None? && item.priceFull.Some? ==>
            s == FullLabel + PriceText(item.priceFull.value))
      && s != OnRequest
  {
    var parts := PriceParts(item);
    var s := Join(Separator, parts);
    if item.priceRegular.None? && item.priceHalf.Some? && item.priceFull.Some? {
      assert parts == [HalfLabel + PriceText(item.priceHalf.value), FullLabel + PriceText(item.priceFull.value)];
      assert parts[1..] == [parts[1]];
      assert Join(Separator, parts[1..]) == parts[1];
      assert s == parts[0] + Separator + parts[1];
      assert s == HalfLabel + PriceText(item.priceHalf.value) + Separator + FullLabel + PriceText(item.priceFull.value);
    }
    assert s[0] == parts[0][0];
    assert s[0] != OnRequest[0];
  }

  /** `MenuItem.has_half_full`. */
  predicate HasHalfFull(item: MenuItem) {
    item.priceHalf.Some? && item.priceFull.Some?
  }

  /** The prices display_price actually shows: half and full are hidden behind a regular price. */
  function ShownPrices(item: MenuItem): (shown: PriceFields) {
    if item.priceRegular.Some? then PriceFields(item.priceRegular, None, None)
    else PriceFields(None, item.priceHalf, item.priceFull)
  }

  /** Reads a display string back into the prices it shows; None if it has none of the four shapes. */
  function ParseDisplayPrice(s: string): (r: Option<PriceFields>)
  {
    if s == OnRequest then Some(PriceFields(None, None, None))
    else if StartsWith(s, Rupee) then
      var t := s[|Rupee|..];
      if DigitRun(t) > 0 && ParseAmount(t).1 == "" then Some(PriceFields(Some(ParseAmount(t).0), None, None))
      else None
    else if StartsWith(s, HalfLabel) then
      var t := s[|HalfLabel|..];
      if DigitRun(t) == 0 then None
      else
        var (h, rest) := ParseAmount(t);
        if rest == "" then Some(PriceFields(None, Some(h), None))
        else if StartsWith(rest, Separator + FullLabel) then
          var u := rest[|Separator + FullLabel|..];
          if DigitRun(u) > 0 && ParseAmount(u).1 == "" then Some(PriceFields(None, Some(h), Some(ParseAmount(u).0)))
          else None
        else None
    else if StartsWith(s, FullLabel) then
      var t := s[|FullLabel|..];
      if DigitRun(t) > 0 && ParseAmount(t).1 == "" then Some(PriceFields(None, None, Some(ParseAmount(t).0)))
      else None
    else None
  }

  lemma ParseRegular(n: nat)
    ensures ParseDisplayPrice(Rupee + PriceText(n)) == Some(PriceFields(Some(n), None, None))
  {
    var s := Rupee + PriceText(n);
    assert s[0] != OnRequest[0];
    assert s[..|Rupee|] == Rupee;
    assert s[|Rupee|..] == PriceText(n) + "";
    ParseAmountOf(n, "");
  }

  lemma ParseFull(f: nat)
    ensures ParseDisplayPrice(FullLabel + PriceText(f)) == Some(PriceFields(None, None, Some(f)))
  {
    var s := FullLabel + PriceText(f);
    assert s[0] == 'F';
    assert s[0] != OnRequest[0] && s[0] != Rupee[0] && s[0] != HalfLabel[0];
    assert s[..|FullLabel|] == FullLabel;
    assert s[|FullLabel|..] == PriceText(f) + "";
    ParseAmountOf(f, "");
  }

  lemma ParseHalf(h: nat)
    ensures ParseDisplayPrice(HalfLabel + PriceText(h)) == Some(PriceFields(None, Some(h), None))
  {
    var s := HalfLabel + PriceText(h);
    assert s[0] == 'H';
    assert s[0] != OnRequest[0] && s[0] != Rupee[0];
    assert s[..|HalfLabel|] == HalfLabel;
    assert s[|HalfLabel|..] == PriceText(h) + "";
    ParseAmountOf(h, "");
  }

  lemma ParseHalfFull(h: nat, f: nat)
    ensures ParseDisplayPrice(HalfLabel + PriceText(h) + Separator + FullLabel + PriceText(f))
            == Some(PriceFields(None, Some(h), Some(f)))
  {
    var marker := Separator + FullLabel;
    var rest := marker + PriceText(f);
    var s := HalfLabel + PriceText(h) + Separator + FullLabel + PriceText(f);
    assert s == HalfLabel + (PriceText(h) + rest);
    assert s[0] == 'H';
    assert s[0] != OnRequest[0] && s[0] != Rupee[0];
    assert s[..|HalfLabel|] == HalfLabel;
    assert s[|HalfLabel|..] == PriceText(h) + rest;
    assert rest[0] == ' ';
    ParseAmountOf(h, rest);
    assert rest[..|marker|] == marker;
    assert rest[|marker|..] == PriceText(f) + "";
    ParseAmountOf(f, "");
  }

  /** The display string determines exactly the prices it shows. */
  lemma DisplayPriceRoundTrip(item: MenuItem)
    ensures ParseDisplayPrice(DisplayPrice(item)) == Some(ShownPrices(item))
  {
    match (item.priceRegular, item.priceHalf, item.priceFull)
    case (Some(n), _, _) => ParseRegular(n);
    case (None, Some(h), Some(f)) => ParseHalfFull(h, f);
    case (None, Some(h), None) => ParseHalf(h);
    case (None, None, Some(f)) => ParseFull(f);
    case (None, None, None) =>
  }

  /** Two items read the same price text exactly when they show the same prices. */
  lemma DisplayPriceDistinguishes(a: MenuItem, b: MenuItem)
    ensures DisplayPrice(a) == DisplayPrice(b) <==> ShownPrices(a) == ShownPrices(b)
  {
    DisplayPriceRoundTrip(a);
    DisplayPriceRoundTrip(b);
  }

  /** has_half_full holds whatever the regular price; the display shows both portions only without one. */
  lemma HasHalfFullShown(item: MenuItem)
    ensures forall regular :: HasHalfFull(item.(priceRegular := regular)) == HasHalfFull(item)
    ensures ParseDisplayPrice(DisplayPrice(item)).Some?
    ensures HasHalfFull(item) && item.priceRegular.None? <==>
              ParseDisplayPrice(DisplayPrice(item)).value.half.Some? && ParseDisplayPrice(DisplayPrice(item)).value.full.Some?
  {
    DisplayPriceRoundTrip(item);
  }

  // ------------------------------------------------------------------
  // Default orderings (Meta.ordering)
  // ------------------------------------------------------------------

  /** Category ordering: by display_order, then by name. */
  predicate CategoryLe(a: Category, b: Category) {
    a.displayOrder < b.displayOrder || (a.displayOrder == b.displayOrder && StrLe(a.name, b.name))
  }

  /** `category__display_order` of an item: the display order of the first category with its id. */
  function DisplayOrderOf(categories: seq<Category>, id: nat): (order: nat) {
    if |categories| == 0 then 0
    else if categories[0].id == id then categories[0].displayOrder
    else DisplayOrderOf(categories[1..], id)
  }

  /** MenuItem ordering: by the owning category's display_order, then by item name. */
  predicate ItemLe(categories: seq<Category>, a: MenuItem, b: MenuItem) {
    var oa, ob := DisplayOrderOf(categories, a.categoryId), DisplayOrderOf(categories, b.categoryId);
    oa < ob || (oa == ob && StrLe(a.name, b.name))
  }

  function CategoryOrder(): (Category, Category) -> bool {
    (a, b) => CategoryLe(a, b)
  }

  function ItemOrder(categories: seq<Category>): (MenuItem, MenuItem) -> bool {
    (a, b) => ItemLe(categories, a, b)
  }

  lemma CategoryOrderIsTotalPreorder()
    ensures TotalPreorder(CategoryOrder())
  {
    var le := CategoryOrder();
    forall a, b ensures le(a, b) || le(b, a) {
      StrLeTotal(a.name, b.name);
    }
    forall a, b, c | le(a, b) && le(b, c) ensures le(a, c) {
      if a.displayOrder == b.displayOrder == c.displayOrder {
        StrLeTransitive(a.name, b.name, c.name);
      }
    }
  }

  lemma ItemOrderIsTotalPreorder(categories: seq<Category>)
    ensures TotalPreorder(ItemOrder(categories))
  {
    var le := ItemOrder(categories);
    forall a, b ensures le(a, b) || le(b, a) {
      StrLeTotal(a.name, b.name);
    }
    forall a, b, c | le(a, b) && le(b, c) ensures le(a, c) {
      if DisplayOrderOf(categories, a.categoryId) == DisplayOrderOf(categories, b.categoryId) == DisplayOrderOf(categories, c.categoryId) {
        StrLeTransitive(a.name, b.name, c.name);
      }
    }
  }

  // ------------------------------------------------------------------
  // Query filters
  // ------------------------------------------------------------------

  /** `filter(is_available=True)`. */
  function Available(): MenuItem -> bool {
    (m: MenuItem) => m.isAvailable
  }

  /** `filter(featured=True, is_available=True)`. */
  function FeaturedAndAvailable(): MenuItem -> bool {
    (m: MenuItem) => m.featured && m.isAvailable
  }

  /** `filter(category_id=id)`. */
  function InCategory(id: nat): MenuItem -> bool {
    (m: MenuItem) => m.categoryId == id
  }

  /** `obj.items.filter(is_available=True)`: the available items of one category. */
  function AvailableIn(id: nat): MenuItem -> bool {
    (m: MenuItem) => m.categoryId == id && m.isAvailable
  }
}
