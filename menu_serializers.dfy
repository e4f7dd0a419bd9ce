/**
 * The REST projections of menu/serializers.py: the fourteen fields of
 * MenuItemSerializer with the image URL rule, CategorySerializer with its
 * nested available items, and the flat CategoryListSerializer.
 */
module MenuSerializers {
  import opened Wrappers
  import opened Text
  import opened Sorting
  import opened MenuModels

  /** MEDIA_URL: where uploaded images are served from. */
  const MediaUrl: string := "/media/"

  /** What `build_absolute_uri` takes from the incoming request: its scheme and host. */
  datatype Request = Request(scheme: string, host: string)

  /** `request.build_absolute_uri(location)` for a server-relative location. */
  function BuildAbsoluteUri(request: Request, location: string): (uri: string)
    ensures EndsWith(uri, location)
    ensures StartsWith(uri, request.scheme + "://" + request.host)
  {
    var origin := request.scheme + "://" + request.host;
    assert (origin + location)[..|origin|] == origin;
    assert (origin + location)[|origin + location| - |location|..] == location;
    origin + location
  }

  /** `obj.image.url`: the stored file name under MEDIA_URL. */
  function FileUrl(image: string): (url: string) {
    MediaUrl + image
  }

  /**
   * `get_image_url`: no URL for an item without an image; the absolute URL
   * when the serializer has a request in its context, the raw URL otherwise.
   */
  function ImageUrl(item: MenuItem, request: Option<Request>): (r: Option<string>)
    ensures r.None? <==> item.image == ""
    ensures r.Some? ==> EndsWith(r.value, FileUrl(item.image))
  {
    if item.image == "" then None
    else if request.Some? then Some(BuildAbsoluteUri(request.value, FileUrl(item.image)))
    else Some(FileUrl(item.image))
  }

  /** With a request the URL is the raw one behind the request's origin; without one it is the raw one. */
  lemma ImageUrlForms(item: MenuItem, request: Request)
    requires item.image != ""
    ensures ImageUrl(item, None) == Some(MediaUrl + item.image)
    ensures ImageUrl(item, Some(request)) == Some(request.scheme + "://" + request.host + ImageUrl(item, None).value)
  {
  }

  /** Two image URLs under the same request are equal exactly when the images are. */
  lemma ImageUrlInjective(a: MenuItem, b: MenuItem, request: Option<Request>)
    ensures ImageUrl(a, request) == ImageUrl(b, request) <==> a.image == b.image
  {
    if ImageUrl(a, request) == ImageUrl(b, request) && a.image != "" && b.image != "" {
      var u := ImageUrl(a, request).value;
      var prefix := if request.Some? then request.value.scheme + "://" + request.value.host + MediaUrl else MediaUrl;
      assert u == prefix + a.image && u == prefix + b.image;
      assert a.image == u[|prefix|..] == b.image;
    }
  }

  /** `category.name` of an item: the name of the first category with its id, "" if there is none. */
  function CategoryNameOf(categories: seq<Category>, id: nat): (name: string) {
    if |categories| == 0 then ""
    else if categories[0].id == id then categories[0].name
    else CategoryNameOf(categories[1..], id)
  }

  /** With unique ids, the looked-up name is the name of the category the key points at. */
  lemma {:induction false} CategoryNameOfOwner(categories: seq<Category>, c: Category)
    requires forall i, j :: 0 <= i < j < |categories| ==> categories[i].id != categories[j].id
    requires c in categories
    ensures CategoryNameOf(categories, c.id) == c.name
  {
    if categories[0] != c {
      assert c in categories[1..];
      var k :| 0 <= k < |categories[1..]| && categories[1..][k] == c;
      assert categories[0].id != categories[k + 1].id;
      CategoryNameOfOwner(categories[1..], c);
    }
  }

  /** The fourteen fields of MenuItemSerializer, in Meta.fields order. */
  datatype ItemJson = ItemJson(
    id: nat,
    name: string,
    description: string,
    category: nat,
    categoryName: string,
    veg: bool,
    priceRegular: Option<nat>,
    priceHalf: Option<nat>,
    priceFull: Option<nat>,
    displayPrice: string,
    hasHalfFull: bool,
    imageUrl: Option<string>,
    featured: bool,
    isAvailable: bool)

  /** MenuItemSerializer(item).data. */
  function SerializeItem(categories: seq<Category>, item: MenuItem, request: Option<Request>): (j: ItemJson) {
    ItemJson(item.id, item.name, item.description, item.categoryId, CategoryNameOf(categories, item.categoryId),
             item.veg, item.priceRegular, item.priceHalf, item.priceFull,
             DisplayPrice(item), HasHalfFull(item), ImageUrl(item, request), item.featured, item.isAvailable)
  }

  /** The stored columns a serialized item is computed from. */
  datatype ListedColumns = ListedColumns(
    id: nat, name: string, description: string, categoryId: nat, veg: bool,
    priceRegular: Option<nat>, priceHalf: Option<nat>, priceFull: Option<nat>,
    image: string, featured: bool, isAvailable: bool)

  function Listed(item: MenuItem): (cols: ListedColumns) {
    ListedColumns(item.id, item.name, item.description, item.categoryId, item.veg,
                  item.priceRegular, item.priceHalf, item.priceFull, item.image, item.featured, item.isAvailable)
  }

  /**
   * The projection exposes exactly the listed columns: two items serialize
   * alike iff they agree on them, so `egg`, `needs_verification` and the
   * timestamps are never visible.
   */
  lemma SerializeItemExposesListed(categories: seq<Category>, request: Option<Request>, a: MenuItem, b: MenuItem)
    ensures SerializeItem(categories, a, request) == SerializeItem(categories, b, request) <==> Listed(a) == Listed(b)
  {
    ImageUrlInjective(a, b, request);
  }

  /** The derived fields agree with the model helpers and with the owning category. */
  lemma SerializeItemDerived(categories: seq<Category>, item: MenuItem, request: Option<Request>, owner: Category)
    requires forall i, j :: 0 <= i < j < |categories| ==> categories[i].id != categories[j].id
    requires owner in categories && owner.id == item.categoryId
    ensures SerializeItem(categories, item, request).categoryName == owner.name
    ensures SerializeItem(categories, item, request).displayPrice == DisplayPrice(item)
    ensures SerializeItem(categories, item, request).hasHalfFull <==> item.priceHalf.Some? && item.priceFull.Some?
    ensures SerializeItem(categories, item, request).imageUrl.None? <==> item.image == ""
  {
    CategoryNameOfOwner(categories, owner);
  }

  /** `many=True`: one row per item, in query order. */
  function SerializeItems(categories: seq<Category>, items: seq<MenuItem>, request: Option<Request>): (rows: seq<ItemJson>)
    ensures |rows| == |items|
  {
    seq(|items|, k requires 0 <= k < |items| => SerializeItem(categories, items[k], request))
  }

  /** CategoryListSerializer: id, name and display_order only. */
  datatype CategoryRow = CategoryRow(id: nat, name: string, displayOrder: nat)

  function SerializeCategoryRow(c: Category): (row: CategoryRow) {
    CategoryRow(c.id, c.name, c.displayOrder)
  }

  /** The flat row determines the category up to its creation time, and nothing more. */
  lemma CategoryRowExposesListed(a: Category, b: Category)
    ensures SerializeCategoryRow(a) == SerializeCategoryRow(b) <==> a.(createdAt := b.createdAt) == b
  {
  }

  /** CategorySerializer: the flat fields plus the nested available items. */
  datatype CategoryJson = CategoryJson(id: nat, name: string, displayOrder: nat, items: seq<ItemJson>)

  /** The query behind `get_items`: the category's available items in the default item order. */
  function AvailableItemsOf(categories: seq<Category>, items: seq<MenuItem>, id: nat): (nested: seq<MenuItem>) {
    Select(ItemOrder(categories), AvailableIn(id), items)
  }

  /** `get_items` selects exactly the category's available items, each once per row, in the default order. */
  lemma AvailableItemsOfCorrect(categories: seq<Category>, items: seq<MenuItem>, id: nat)
    ensures forall m :: m in AvailableItemsOf(categories, items, id) <==> m in items && m.categoryId == id && m.isAvailable
    ensures multiset(AvailableItemsOf(categories, items, id)) == multiset(Filter(AvailableIn(id), items))
    ensures SortedBy(ItemOrder(categories), AvailableItemsOf(categories, items, id))
  {
    ItemOrderIsTotalPreorder(categories);
    SelectCorrect(ItemOrder(categories), AvailableIn(id), items);
  }

  function SerializeCategory(categories: seq<Category>, items: seq<MenuItem>, c: Category, request: Option<Request>): (j: CategoryJson) {
    CategoryJson(c.id, c.name, c.displayOrder, SerializeItems(categories, AvailableItemsOf(categories, items, c.id), request))
  }

  /** Every nested item belongs to the category and is available; every available item of it is nested. */
  lemma SerializeCategoryItems(categories: seq<Category>, items: seq<MenuItem>, c: Category, request: Option<Request>)
    ensures forall j :: j in SerializeCategory(categories, items, c, request).items ==> j.category == c.id && j.isAvailable
    ensures forall m :: m in items && m.categoryId == c.id && m.isAvailable ==>
              SerializeItem(categories, m, request) in SerializeCategory(categories, items, c, request).items
  {
    AvailableItemsOfCorrect(categories, items, c.id);
    var q := AvailableItemsOf(categories, items, c.id);
    var rows := SerializeCategory(categories, items, c, request).items;
    forall j | j in rows ensures j.category == c.id && j.isAvailable {
      var k :| 0 <= k < |rows| && rows[k] == j;
      assert q[k] in q;
    }
    forall m | m in items && m.categoryId == c.id && m.isAvailable
      ensures SerializeItem(categories, m, request) in rows
    {
      var k :| 0 <= k < |q| && q[k] == m;
      assert rows[k] == SerializeItem(categories, m, request);
    }
  }
}
