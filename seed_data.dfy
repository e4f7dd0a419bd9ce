/**
 * The seeder's dataset (menu/management/commands/seed_menu.py): the `_item`
 * helper, the twelve groups of MENU_DATA exactly as written, and the two
 * expected totals the seeder checks its work against.
 */
module SeedData {
  import opened Wrappers

  /** The dict `_item` returns: a dish as the menu card lists it. */
  datatype ItemSpec = ItemSpec(
    name: string,
    veg: bool,
    priceRegular: Option<nat>,
    priceHalf: Option<nat>,
    priceFull: Option<nat>,
    needsVerification: bool)

  /** One MENU_DATA tuple: (category_name, display_order, items). */
  datatype Group = Group(name: string, displayOrder: nat, items: seq<ItemSpec>)

  /** `_item(name, *, veg=True, price_regular=None, price_half=None, price_full=None, needs_verification=False)`. */
  function Item(
    name: string,
    veg: bool := true,
    priceRegular: Option<nat> := None,
    priceHalf: Option<nat> := None,
    priceFull: Option<nat> := None,
    needsVerification: bool := false): ItemSpec
  {
    ItemSpec(name, veg, priceRegular, priceHalf, priceFull, needsVerification)
  }

  /** An omitted keyword gives veg, no prices and no verification flag. */
  lemma ItemDefaults(name: string)
    ensures Item(name) == ItemSpec(name, true, None, None, None, false)
  {
  }

  /** `sum(len(items) for _, _, items in data)`. */
  function TotalItems(data: seq<Group>): nat {
    if |data| == 0 then 0 else TotalItems(data[..|data| - 1]) + |data[|data| - 1].items|
  }

  /** No two groups share a category name (the Category.name unique constraint). */
  predicate DistinctNames(data: seq<Group>) {
    forall i, j :: 0 <= i < j < |data| ==> data[i].name != data[j].name
  }

  /** MENU_DATA: the twelve groups, in display order. */
  const MenuData: seq<Group> := [
    GroupSpecialAppetizersVeg,
    GroupSpecialAppetizersNonVeg,
    GroupSpecialPaneerMainCourse,
    GroupSpecialChickenMainCourse,
    GroupSpecialVegMainCourse,
    GroupSpecialRice,
    GroupPasta,
    GroupSnacks,
    GroupRolls,
    GroupSizzler,
    GroupMaggie,
    GroupBeveragesDessertsJuice
  ]

  const GroupSpecialAppetizersVeg: Group := Group("Special Appetizers Veg", 1, GroupSpecialAppetizersVegItems)

  const GroupSpecialAppetizersVegItems: seq<ItemSpec> := [
      Item("Cheese Garlic Paneer", veg := true, priceRegular := Some(179)),
      Item("Burnt Garlic Cheese Paneer", veg := true, priceRegular := Some(189)),
      Item("Paneer Satay", veg := true, priceRegular := Some(199)),
      Item("Paneer Banjara Kabab", veg := true, priceRegular := Some(230)),
      Item("Paneer Angara Tikka", veg := true, priceRegular := Some(230)),
      Item("Paneer Pahadi Tikka", veg := true, priceRegular := Some(230))
    ]

  const GroupSpecialAppetizersNonVeg: Group := Group("Special Appetizers Non-Veg", 2, GroupSpecialAppetizersNonVegItems)

  const GroupSpecialAppetizersNonVegItems: seq<ItemSpec> := [
      Item("Cheese Garlic Chicken (Bone/BL)", veg := false, priceRegular := Some(199)),
      Item("Chicken Banjara Kabab", veg := false, priceRegular := Some(220)),
      Item("Tandoori Lollipop (8 pcs)", veg := false, priceRegular := Some(220)),
      Item("Chicken Angara Kabab", veg := false, priceRegular := Some(249)),
      Item("Chicken Pahadi Tikka", veg := false, priceRegular := Some(239)),
      Item("Chicken Reshmi Kabab", veg := false, priceRegular := Some(269)),
      Item("Burnt Garlic Cheese Chicken", veg := false, priceRegular := Some(229)),
      Item("Chicken Satay", veg := false, priceRegular := Some(199)),
      Item("Mohini Fish Tikka", veg := false, priceRegular := Some(259)),
      Item("Cheese Girlk Prawn", veg := false, priceRegular := Some(249), needsVerification := true),
      Item("Spicy Chicken Pepper Wings", veg := false, priceRegular := Some(199))
    ]

  const GroupSpecialPaneerMainCourse: Group := Group("Special Paneer Main Course", 3, GroupSpecialPaneerMainCourseItems)

  const GroupSpecialPaneerMainCourseItems: seq<ItemSpec> := [
      Item("Paneer Majedar", veg := true, priceHalf := Some(179), priceFull := Some(249)),
      Item("Paneer Lababdar", veg := true, priceHalf := Some(179), priceFull := Some(249)),
      Item("Paneer Chatpata", veg := true, priceHalf := Some(179), priceFull := Some(249)),
      Item("Pind Da Paneer", veg := true, priceHalf := Some(179), priceFull := Some(249)),
      Item("Paneer Patiyala", veg := true, priceHalf := Some(179), priceFull := Some(249)),
      Item("Paneer Chingari", veg := true, priceHalf := Some(179), priceFull := Some(249)),
      Item("Paneer Tufani", veg := true, priceHalf := Some(179), priceFull := Some(249)),
      Item("Dum Handi Paneer", veg := true, priceHalf := Some(189), priceFull := Some(259)),
      Item("Lasooni Paneer Masala", veg := true, priceHalf := Some(189), priceFull := Some(259)),
      Item("Paneer Lahore", veg := true, priceHalf := Some(189), priceFull := Some(259)),
      Item("Paneer Malai Masala", veg := true, priceHalf := Some(199), priceFull := Some(259)),
      Item("Paneer Hariyali Masala", veg := true, priceHalf := Some(179), priceFull := Some(259)),
      Item("Paneer Maharaja", veg := true, priceHalf := Some(179), priceFull := Some(239), needsVerification := true)
    ]

  const GroupSpecialChickenMainCourse: Group := Group("Special Chicken Main Course", 4, GroupSpecialChickenMainCourseItems)

  const GroupSpecialChickenMainCourseItems: seq<ItemSpec> := [
      Item("Chicken Lababdar", veg := false, priceHalf := Some(179), priceFull := Some(249)),
      Item("Chicken Majeedar", veg := false, priceHalf := Some(179), priceFull := Some(249)),
      Item("Chicken Rara", veg := false, priceHalf := Some(189), priceFull := Some(269)),
      Item("Chicken Keema", veg := false, priceHalf := Some(179), priceFull := Some(249)),
      Item("Chicken Chatpata", veg := false, priceHalf := Some(179), priceFull := Some(249)),
      Item("Murgh Musallam", veg := false, priceHalf := Some(249), priceFull := Some(429)),
      Item("Chicken Lazeez", veg := false, priceHalf := Some(179), priceFull := Some(249)),
      Item("Pind Da Chicken", veg := false, priceHalf := Some(199), priceFull := Some(269)),
      Item("Chicken Chingari", veg := false, priceHalf := Some(199), priceFull := Some(269)),
      Item("Chicken Tufani", veg := false, priceHalf := Some(199), priceFull := Some(269)),
      Item("Chicken Leg Piece Masala", veg := false, priceHalf := Some(180), priceFull := Some(240)),
      Item("Chicken Kalmi Kosha", veg := false, priceHalf := Some(180), priceFull := Some(249)),
      Item("Chicken Afghani", veg := false, priceHalf := Some(170), priceFull := Some(249))
    ]

  const GroupSpecialVegMainCourse: Group := Group("Special Veg Main Course", 5, GroupSpecialVegMainCourseItems)

  const GroupSpecialVegMainCourseItems: seq<ItemSpec> := [
      Item("Matka Sabzi", veg := true, priceHalf := Some(159), priceFull := Some(199)),
      Item("Veg Chilli Milli", veg := true, priceHalf := Some(149), priceFull := Some(199)),
      Item("Veg Lajawab", veg := true, priceHalf := Some(149), priceFull := Some(199)),
      Item("Rajasthani Sabzi", veg := true, priceHalf := Some(149), priceFull := Some(199)),
      Item("Veg Patiyala", veg := true, priceHalf := Some(149), priceFull := Some(199)),
      Item("Veg Tufani", veg := true, priceHalf := Some(149), priceFull := Some(199)),
      Item("Veg Majedaar", veg := true, priceHalf := Some(149), priceFull := Some(199)),
      Item("Veg Hariyali Masala", veg := true, priceHalf := Some(149), priceFull := Some(199))
    ]

  const GroupSpecialRice: Group := Group("Special Rice", 6, GroupSpecialRiceItems)

  const GroupSpecialRiceItems: seq<ItemSpec> := [
      Item("Veg Yakni Pulao", veg := true, priceRegular := Some(149)),
      Item("Nasi Goreng Chicken Fried Rice", veg := false, priceRegular := Some(189)),
      Item("Chicken Yakhni Pulao", veg := false, priceRegular := Some(189)),
      Item("Mutton Yakhni Pulao", veg := false, priceRegular := Some(250)),
      Item("Domli Masala Papad", veg := true, priceRegular := Some(149), needsVerification := true)
    ]

  const GroupPasta: Group := Group("Pasta", 7, GroupPastaItems)

  const GroupPastaItems: seq<ItemSpec> := [
      Item("Veg Penne Arrabita", veg := true, priceRegular := Some(180)),
      Item("Veg Penne with Cream Sauce", veg := true, priceRegular := Some(180)),
      Item("Chicken Penne Arrabita", veg := false, priceRegular := Some(220)),
      Item("Chicken Penne with Cream Sauce", veg := false, priceRegular := Some(220))
    ]

  const GroupSnacks: Group := Group("Snacks", 8, GroupSnacksItems)

  const GroupSnacksItems: seq<ItemSpec> := [
      Item("Puri Sabbi (5 pcs)", veg := true, priceRegular := Some(110)),
      Item("Plain Kachori (5 pcs)", veg := true, priceRegular := Some(110)),
      Item("Chola Bhatura (5 pcs)", veg := true, priceRegular := Some(130)),
      Item("Extra Pav", veg := true, priceRegular := Some(15)),
      Item("Per Pc Puri", veg := true, priceRegular := Some(20))
    ]

  const GroupRolls: Group := Group("Rolls", 9, GroupRollsItems)

  const GroupRollsItems: seq<ItemSpec> := [
      Item("Veg Roll", veg := true, priceRegular := Some(60)),
      Item("Veg Cheese Roll", veg := true, priceRegular := Some(70)),
      Item("Paneer Roll", veg := true, priceRegular := Some(80)),
      Item("Paneer Cheese Roll", veg := true, priceRegular := Some(90)),
      Item("Paneer Tikka Roll", veg := true, priceRegular := Some(100)),
      Item("Egg Roll", veg := false, priceRegular := Some(70)),
      Item("Egg Cheese Roll", veg := false, priceRegular := Some(80)),
      Item("Double Egg Roll", veg := false, priceRegular := Some(90)),
      Item("Double Egg Cheese Roll", veg := false, priceRegular := Some(100)),
      Item("Chicken Roll", veg := false, priceRegular := Some(90)),
      Item("Chicken Egg Roll", veg := false, priceRegular := Some(100)),
      Item("Chicken Cheese Roll", veg := false, priceRegular := Some(110)),
      Item("Chicken Tikka Roll", veg := false, priceRegular := Some(110)),
      Item("Chicken Tikka Cheese Roll", veg := false, priceRegular := Some(120)),
      Item("Chicken Tikka Egg Cheese Roll", veg := false, priceRegular := Some(130))
    ]

  const GroupSizzler: Group := Group("Sizzler", 10, GroupSizzlerItems)

  const GroupSizzlerItems: seq<ItemSpec> := [
      Item("Veg Grill Sizzler", veg := true, priceRegular := Some(210)),
      Item("Veg Cheese Sizzler", veg := true, priceRegular := Some(250)),
      Item("Paneer Sizzler", veg := true, priceRegular := Some(250)),
      Item("Chicken Grill Sizzler", veg := false, priceRegular := Some(250)),
      Item("Chicken Cheese Grill Sizzler", veg := false, priceRegular := Some(250))
    ]

  const GroupMaggie: Group := Group("Maggie", 11, GroupMaggieItems)

  const GroupMaggieItems: seq<ItemSpec> := [
      Item("Plain Maggie", veg := true, priceRegular := Some(60)),
      Item("Veg Maggie", veg := true, priceRegular := Some(70)),
      Item("Cheese Maggie", veg := true, priceRegular := Some(80)),
      Item("Egg Maggie", veg := false, priceRegular := Some(100)),
      Item("Double Egg Cheese Maggie", veg := false, priceRegular := Some(120)),
      Item("Chicken Maggie", veg := false, priceRegular := Some(120)),
      Item("Chicken Cheese Maggie", veg := false, priceRegular := Some(130))
    ]

  const GroupBeveragesDessertsJuice: Group := Group("Beverages | Desserts | Juice", 12, GroupBeveragesDessertsJuiceItems)

  const GroupBeveragesDessertsJuiceItems: seq<ItemSpec> := [
      Item("Butter Milk", veg := true, priceRegular := Some(40)),
      Item("Lassi", veg := true, priceRegular := Some(50)),
      Item("Nimboo Pani", veg := true, priceRegular := Some(30)),
      Item("Masala Cold Drinks", veg := true, priceRegular := Some(40)),
      Item("Virgin Mojito Lemon", veg := true, priceRegular := Some(70)),
      Item("Mineral Water", veg := true, priceHalf := Some(20), priceFull := Some(10), needsVerification := true),
      Item("Cold Drinks", veg := true, priceRegular := Some(20)),
      Item("Gulab Jamun (1 pc)", veg := true, priceRegular := Some(20)),
      Item("Lime Soda", veg := true, priceRegular := Some(50)),
      Item("Watermelon Juice", veg := true, priceRegular := Some(89)),
      Item("Mosambi Juice", veg := true, priceRegular := Some(69)),
      Item("Apple Juice", veg := true, priceRegular := Some(99)),
      Item("Pineapple Juice", veg := true, priceRegular := Some(69)),
      Item("Mango Juice", veg := true, priceRegular := Some(99)),
      Item("Pomegranate Juice", veg := true, priceRegular := Some(99)),
      Item("Chocolate Milk Shake", veg := true, priceRegular := Some(99)),
      Item("Chikku Milk Shake", veg := true, priceRegular := Some(119), needsVerification := true)
    ]

  const ExpectedCategories: nat := 12
  const ExpectedItems: nat := TotalItems(MenuData)

  /** EXPECTED_CATEGORIES is the number of groups; EXPECTED_ITEMS, their item count, is 109. */
  lemma MenuDataTotals()
    ensures |MenuData| == ExpectedCategories
    ensures ExpectedItems == 109
  {
    assert MenuData[..0] == [];
    assert TotalItems(MenuData[..1]) == 6 by { assert MenuData[..1][..0] == []; }
    assert TotalItems(MenuData[..2]) == 17 by { assert MenuData[..2][..1] == MenuData[..1]; }
    assert TotalItems(MenuData[..3]) == 30 by { assert MenuData[..3][..2] == MenuData[..2]; }
    assert TotalItems(MenuData[..4]) == 43 by { assert MenuData[..4][..3] == MenuData[..3]; }
    assert TotalItems(MenuData[..5]) == 51 by { assert MenuData[..5][..4] == MenuData[..4]; }
    assert TotalItems(MenuData[..6]) == 56 by { assert MenuData[..6][..5] == MenuData[..5]; }
    assert TotalItems(MenuData[..7]) == 60 by { assert MenuData[..7][..6] == MenuData[..6]; }
    assert TotalItems(MenuData[..8]) == 65 by { assert MenuData[..8][..7] == MenuData[..7]; }
    assert TotalItems(MenuData[..9]) == 80 by { assert MenuData[..9][..8] == MenuData[..8]; }
    assert TotalItems(MenuData[..10]) == 85 by { assert MenuData[..10][..9] == MenuData[..9]; }
    assert TotalItems(MenuData[..11]) == 92 by { assert MenuData[..11][..10] == MenuData[..10]; }
    assert MenuData[..12] == MenuData;
    assert MenuData[..11] == MenuData[..|MenuData| - 1];
  }

  /** The category names of MENU_DATA, in order. */
  const MenuNames: seq<string> := [
    "Special Appetizers Veg",
    "Special Appetizers Non-Veg",
    "Special Paneer Main Course",
    "Special Chicken Main Course",
    "Special Veg Main Course",
    "Special Rice",
    "Pasta",
    "Snacks",
    "Rolls",
    "Sizzler",
    "Maggie",
    "Beverages | Desserts | Juice"]

  lemma MenuNamesAreGroupNames()
    ensures |MenuData| == |MenuNames|
    ensures forall i :: 0 <= i < |MenuData| ==> MenuData[i].name == MenuNames[i]
  {
  }

  lemma MenuNamesDistinct()
    ensures forall i, j :: 0 <= i < j < |MenuNames| ==> MenuNames[i] != MenuNames[j]
  {
    // Two names differ in length, or else in their first or ninth letter.
    assert forall i, j :: 0 <= i < j < |MenuNames| ==>
      |MenuNames[i]| != |MenuNames[j]| || MenuNames[i][0] != MenuNames[j][0] || MenuNames[i][8] != MenuNames[j][8];
  }

  /** The twelve category names are pairwise different. */
  lemma MenuDataNamesDistinct()
    ensures DistinctNames(MenuData)
  {
    MenuNamesAreGroupNames();
    MenuNamesDistinct();
  }

  /** Mineral Water is kept as written: half 20, full 10, flagged for verification. */
  lemma MineralWaterAsWritten()
    ensures MenuData[11].name == "Beverages | Desserts | Juice"
    ensures MenuData[11].items[5] == ItemSpec("Mineral Water", true, None, Some(20), Some(10), true)
  {
  }
}
