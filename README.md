# Dilli Da Dhaba menu and review catalog, in Dafny

This project models the catalog logic of the Dilli Da Dhaba restaurant site (a Django project) and proves what it promises. It covers:

- the Category and MenuItem records, with the `display_price` / `has_half_full` helpers, the PROTECT foreign key and the default orderings (`menu/models.py`);
- the read-only REST views `category_list`, `menu_list` and `featured_items` (`menu/api_views.py`);
- the serializers behind them (`menu/serializers.py`);
- the `seed_menu` management command that replaces the whole catalog with the photographed menu (`menu/management/commands/seed_menu.py`);
- the Review record and the bulk "approve selected reviews" admin action (`reviews/models.py`, `reviews/admin.py`);
- the query half of the `home` view (`core/views.py`).

Layout, one module per file:

| file | module | models |
|---|---|---|
| wrappers.dfy | Wrappers | `Option` (a NULL column, an absent parameter) |
| text.dfy | Text | decimal text of a number (`str(n)`), its parser, `join`, code-point string order |
| sorting.dfy | Sorting | query-set building blocks: `filter`, `order_by` (a stable insertion sort), `filter`+`order_by` as `Select`, slicing `[:n]` |
| menu_models.dfy | MenuModels | Category, MenuItem, `display_price`, `has_half_full`, the two Meta orderings, the item filters |
| catalog.dfy | Catalog | the two tables as a class: auto-increment ids, unique category names, PROTECT |
| menu_serializers.dfy | MenuSerializers | MenuItemSerializer, `get_image_url`, CategorySerializer, CategoryListSerializer |
| menu_api.dfy | MenuApi | `category_list`, `menu_list`, `featured_items` |
| seed_data.dfy | SeedData | `_item`, MENU_DATA (all 12 groups, 109 items, exactly as written), EXPECTED_* |
| seed_menu.dfy | SeedMenu | `Command.handle`, `_print_preview`, `_wipe_existing`, `_insert_menu`, `_verify_counts` |
| review_models.dfy | ReviewModels | Review, rating validators and choices, defaults, newest-first order |
| review_admin.dfy | ReviewAdmin | `approve_reviews` on a review table class |
| core_views.dfy | CoreViews | `home`: featured items and testimonials |

Modelling choices:

- Queries are pure functions over sequences of rows. `filter` keeps table order, and `order_by` is a stable sort under a proved total preorder.
- Where the code has no `order_by` (`featured_items`, `home`'s featured items, `get_items`), the query is sorted by the model's `Meta.ordering`, which Django applies by default.
- The catalog store is a class. Its methods change the tables in place and state the new contents exactly.
- The seeder's `transaction.atomic()` block is a method that either completes or restores the tables it saved on entry.
- Prices are whole rupees (`nat`), and `None` is NULL. An empty `image` string is "no image". Timestamps are integers passed in by the caller.
- The request in a serializer context is its scheme and host. `build_absolute_uri` of a server-relative path is `scheme://host` followed by the path, and MEDIA_URL is `/media/`.

Two places where the code's behaviour is easy to miss:

- `featured_items` (menu/api_views.py:65-70) has no `order_by`. The queryset falls back on `MenuItem.Meta.ordering`, so the model sorts it by category display order, then name.
- `_verify_counts` (menu/management/commands/seed_menu.py:383-402) ignores its `cat_count` / `item_count` arguments and compares fresh table counts against EXPECTED_*. `SeedMenu.VerifyCounts` therefore takes the table and the expected totals only.

## Model

| member | source | states |
|---|---|---|
| MenuModels.DisplayPrice | menu/models.py:92-103 | A regular price gives "₹" + price and hides half/full. Otherwise the result is the half part, the full part, or both joined by "  /  " with half first. With no price it is "Price on request", which happens exactly when all three prices are NULL. The result is never empty. |
| MenuModels.DisplayPriceRoundTrip | menu/models.py:92-103 | Parsing the display string gives back exactly the prices it shows: the regular price alone, or else the half/full pair. |
| MenuModels.DisplayPriceDistinguishes | menu/models.py:92-103 | Two items have the same display string iff they show the same prices. |
| MenuModels.HasHalfFullShown | menu/models.py:92-107 | `has_half_full` holds iff both half and full are set, whatever the regular price. The display shows both portions exactly when that holds and there is no regular price. |
| MenuModels.CategoryOrderIsTotalPreorder | menu/models.py:15 | Ordering by (display_order, name) is total and transitive, so category queries have a well-defined sorted order. |
| MenuModels.ItemOrderIsTotalPreorder | menu/models.py:80 | Ordering items by (their category's display_order, name) is total and transitive. |
| Catalog.CatalogStore.CreateCategory | menu/models.py:8-9 | Creating a category fails, changing nothing, iff its name is already taken. Otherwise it appends one row with a fresh id, advances the category id counter by one and keeps names unique. |
| Catalog.CatalogStore.BulkCreate | menu/models.py:25-29 | Bulk insert succeeds iff every row names a stored category. It then appends the rows with consecutive fresh ids and advances the item id counter past them, so every item keeps referencing a stored category. |
| Catalog.CatalogStore.DeleteAllItems | menu/management/commands/seed_menu.py:342 | Deleting all items empties the item table and reports how many rows it held. Categories are untouched. |
| Catalog.CatalogStore.DeleteAllCategories | menu/models.py:25-29 | Deleting all categories is refused (ProtectedError), changing nothing, iff some item remains. Otherwise it empties the category table and reports its size. |
| Catalog.CatalogStore.DeleteCategory | menu/models.py:25-29 | Deleting a category is refused, with both tables unchanged, iff an item references it. Otherwise exactly the rows with that id are removed and the order of the rest is kept. Neither id counter moves, so ids are never reused. |
| Catalog.KeptCategories | menu/models.py:8 | Removing the categories with one id keeps ids increasing and names unique among the rest. |
| MenuSerializers.BuildAbsoluteUri | menu/serializers.py:35 | The absolute URI begins with the request's `scheme://host` and ends with the location. |
| MenuSerializers.ImageUrl | menu/serializers.py:30-36 | `image_url` is None iff the item has no image. Otherwise it ends with the media URL of the file. |
| MenuSerializers.ImageUrlForms | menu/serializers.py:33-36 | Without a request `image_url` is "/media/" + file. With one it is the request's origin followed by that raw URL. |
| MenuSerializers.ImageUrlInjective | menu/serializers.py:30-36 | Under the same request, two items get the same `image_url` iff they have the same image. |
| MenuSerializers.CategoryNameOfOwner | menu/serializers.py:6 | With unique category ids, `category_name` is the name of the category the item references. |
| MenuSerializers.SerializeItemExposesListed | menu/serializers.py:11-28 | Two items serialize alike iff they agree on the listed columns. `egg`, `needs_verification` and the timestamps never show. |
| MenuSerializers.SerializeItemDerived | menu/serializers.py:5-9 | In the projection, `category_name` is the owner's name and `display_price` is the model helper. `has_half_full` holds iff half and full are set, and `image_url` is None iff there is no image. |
| MenuSerializers.CategoryRowExposesListed | menu/serializers.py:52-57 | The flat category row determines id, name and display_order, and nothing else. |
| MenuSerializers.AvailableItemsOfCorrect | menu/serializers.py:47-48 | `get_items` selects exactly the category's available items, each row once, in item order. |
| MenuSerializers.SerializeCategoryItems | menu/serializers.py:39-49 | Every nested item belongs to the category and is available, and every available item of the category is nested. |
| MenuApi.CategoryListComplete | menu/api_views.py:20-24 | `category_list` returns every category exactly once (a permutation), one row each, ordered by (display_order, name). |
| MenuApi.MenuQueryMembership | menu/api_views.py:38-54 | An item is in `menu_list` iff it is stored and available, matches the category id when one is given, and passes the diet filter. The diet filters are veg ∧ ¬egg, egg, and ¬veg ∧ ¬egg. Without parameters the result is a permutation of the available rows. |
| MenuApi.MenuQuerySorted | menu/api_views.py:38-54 | `menu_list` is sorted by (category display_order, name) for every combination of parameters. |
| MenuApi.UnknownDietIgnored | menu/api_views.py:48-54 | A `diet` value other than veg, egg and nonveg gives the same result as no `diet`. |
| MenuApi.DietPartition | menu/api_views.py:48-54 | The veg, egg and nonveg results are pairwise disjoint, and their multiset union is the unfiltered result. |
| MenuApi.MenuListRows | menu/api_views.py:56-57 | The response has one row per queried item. Every row is available and in the requested category. |
| MenuApi.FeaturedQueryExact | menu/api_views.py:65-70 | `featured_items` holds exactly the featured and available items, each row once, in item order. |
| SeedData.ItemDefaults | menu/management/commands/seed_menu.py:40-56 | An `_item` with omitted keywords is veg, has no prices and is not flagged for verification. |
| SeedData.MenuDataTotals | menu/management/commands/seed_menu.py:293-294 | MENU_DATA has EXPECTED_CATEGORIES = 12 groups, and EXPECTED_ITEMS, the sum of their item counts, is 109. |
| SeedData.MenuDataNamesDistinct | menu/management/commands/seed_menu.py:59-290 | The twelve category names in MENU_DATA are pairwise different. |
| SeedData.MineralWaterAsWritten | menu/management/commands/seed_menu.py:272-273 | Mineral Water is kept as written: half 20, full 10, flagged for verification. |
| SeedMenu.SeededData | menu/management/commands/seed_menu.py:358-370 | A seeded item is available, not featured and egg-free, with its name, veg flag, three prices and verification flag copied verbatim. |
| SeedMenu.LineTotalIsTotalItems | menu/management/commands/seed_menu.py:330-339 | The item counts on the preview lines add up to the dataset's item total, for any dataset. |
| SeedMenu.PreviewTotalsAgree | menu/management/commands/seed_menu.py:330-339 | The dry-run report has one line per category (12). Its line counts sum to the reported item total (109). |
| SeedMenu.WipeExisting | menu/management/commands/seed_menu.py:341-343 | The wipe always succeeds because items go before categories. Both tables end empty, and the deleted counts are the old table sizes. |
| SeedMenu.InsertGroup | menu/management/commands/seed_menu.py:353-375 | One group is inserted, or refused unchanged iff its name is taken. Success adds one category with the group's name, order and items, and the catalog content grows by exactly that group. |
| SeedMenu.InsertMenu | menu/management/commands/seed_menu.py:349-381 | Insertion succeeds iff the group names are distinct and not yet stored. The content then grows by the dataset, and the returned counts are the number of groups and of items. |
| SeedMenu.VerifyCounts | menu/management/commands/seed_menu.py:383-402 | There is one error per table whose count differs from its expected total, carrying both numbers. There are no errors iff both counts match. |
| SeedMenu.ReplaceCatalog | menu/management/commands/seed_menu.py:317-320 | Wipe, insert and count succeed iff the names are distinct and both totals match. The tables then hold exactly the dataset. A duplicate name is reported as an integrity error and a count mismatch as the errors. |
| SeedMenu.Reseed | menu/management/commands/seed_menu.py:317-320 | The atomic block has the same outcome as ReplaceCatalog. On any failure the tables and id counters are restored to their state before the block. |
| SeedMenu.Handle | menu/management/commands/seed_menu.py:310-320 | A dry run reports the preview and writes nothing. A real run always succeeds with (12, 109), the count check is unreachable, and the tables hold exactly MENU_DATA whatever they held before. |
| SeedMenu.SeedIsIdempotent | menu/management/commands/seed_menu.py:317-320 | Seeding twice leaves the same catalog as seeding once. |
| ReviewModels.ValidateRating | reviews/models.py:11-14 | MinValueValidator(1) fails iff the rating is below 1, and MaxValueValidator(5) fails iff it is above 5. At most one fails. |
| ReviewModels.ValidRatings | reviews/models.py:11-14 | Validation accepts exactly the ratings 1 to 5. |
| ReviewModels.RatingChoicesMatchValidators | reviews/models.py:8-14 | RATING_CHOICES covers exactly the valid ratings, in increasing order. Each label is the one-digit decimal text of its value. |
| ReviewModels.NewReviewDefaults | reviews/models.py:11-23 | A review created without explicit values has rating 5, which is valid, and is not approved. |
| ReviewModels.NewestFirstIsTotalPreorder | reviews/models.py:26-27 | Newest-first ordering by `created_at` is total and transitive. |
| ReviewAdmin.ApproveEffect | reviews/admin.py:14-16 | After the update every selected review is approved. Unselected reviews are unchanged, and a selected one differs only in `is_approved`. |
| ReviewAdmin.ApproveIdempotent | reviews/admin.py:16 | Approving the same selection twice gives the same table as approving it once. |
| ReviewAdmin.MatchedCountIsSelectedRows | reviews/admin.py:16 | With unique keys, the update count is the number of selected keys that name a stored review. |
| ReviewAdmin.ApprovedMessageCount | reviews/admin.py:17 | The confirmation message starts with the decimal count, which reads back as that count, followed by " review(s) approved.". |
| ReviewAdmin.ReviewStore.ApproveSelected | reviews/admin.py:16 | The in-place update loop leaves exactly the approved table and returns the number of matched rows. |
| ReviewAdmin.ReviewStore.ApproveReviews | reviews/admin.py:14-17 | The action approves the selection and reports the number of selected reviews in the message. |
| CoreViews.HomeFeatured | core/views.py:6-10 | Exactly min(8, number of featured available items) are shown, all featured and available, as a prefix of the featured list in item order. When 8 or fewer qualify, all of them are shown. |
| CoreViews.HomeTestimonials | core/views.py:11 | Exactly min(6, number of approved reviews) testimonials are shown, all approved, as a prefix of the approved reviews newest first. |
| CoreViews.TestimonialsAreNewest | core/views.py:11 | No approved review left out is newer than any testimonial shown. |

## Left out

- Prices as decimals: prices are whole rupees. The two stored decimal places and `Decimal.__str__` formatting are not modelled; the price text is the decimal digits of the number.
- `display_order` is a PositiveSmallIntegerField; its upper bound of 32767 is not modelled. Names are not limited to 100/200 characters.
- Name order: names compare by code point, as SQLite's default BINARY collation does (dilli_da_dhaba/settings.py:115-120). A database chosen through `DATABASE_URL` may collate by locale; that order is not modelled.
- Price size: prices are unbounded naturals. `max_digits=8` (menu/models.py:42-53) is not modelled.
- Clocks: `created_at` / `updated_at` are caller-supplied integers, and `auto_now` is not modelled.
- URL quoting by `build_absolute_uri` and storage `url()` is not modelled; file names are used as given.
- SeedMenu.VerifyCounts and SeedMenu.Handle: stdout and stderr messages are left out. Outcomes, counts and errors are return values; `SystemExit(1)` is the `VerificationFailed` outcome.
- SeedMenu.Reseed: concurrent readers and database isolation are not modelled. The rollback restores the saved tables, including the id counters.
- MenuApi.MenuQuery: the `category` parameter is an optional number. An absent or empty parameter is None. A non-numeric value is passed to the ORM and fails there, which is framework behaviour this model does not describe.
- Ties: rows equal under an ordering keep table order. The database does not promise any particular order for them.
- The anonymous rate limit, JWT authentication and CORS: framework configuration with no logic in the repository.
- Admin list configuration, the admin HTML helpers, `menu/views.py`, `about` / `contact` and template rendering: presentation only.
- `egg` implying not `veg` is a help-text convention, not enforced; the model does not assume it.
- Rating validators run only on model validation, not on a raw save. The model states them as the validation function `ValidateRating`; a stored review may hold any integer rating.
- The hosted image file itself (upload, resizing, storage) is not modelled; `image` is its stored name.
