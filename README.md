# Inventory queries and aggregates, modelled in Dafny

This project models the query and aggregation layer of a multi-tenant
inventory API built on Django REST Framework. Users own categories, and
categories hold products. Every read is scoped to the caller through the
ownership chain User → Category → Product. Products carry two derived flags,
`is_low_stock` and `has_expiry`. The dashboard computes counts, stock, three
money figures and a breakdown of stock value by category name. Product
writes check that the target category belongs to the requesting user.

The ORM querysets become pure functions over a `seq<Product>` and a
`seq<Category>`:

- `wrappers.dfy` (`Wrappers`): `Option` (SQL NULL) and `Result` (error responses).
- `text.dfy` (`Text`): substring search and the case folding used by `icontains`.
- `domain.dfy` (`Domain`): `Category` and `Product`, the ORM lookups, the two flags, and the ownership filters.
  - Lookups are evaluated in SQL's three-valued logic, so a NULL `expiration_date` drops out of both `WHERE` and `CASE WHEN`.
- `aggregates.dfy` (`Aggregates`): `SUM` with its NULL over no rows, `value or 0`, and the `values('category__name')` group-by sorted by descending total.
- `ordering.dfy` (`Ordering`): the whitelisted `ordering` parameter and the sort it selects.
- `pagination.dfy` (`Pagination`): `StandardResultsSetPagination`.
- `serializers.py` is modelled in `serializers.dfy` (`Serializers`): the declared and read-only field sets, the output representations, `validate_category`, and the records that a create or update produces.
- `views.dfy` (`Views`): the category and product views, the product list, the alerts and the dashboard.

Modelling choices:

- Money is integer cents: `DecimalField(decimal_places=2)` becomes a whole number of cents.
- Dates are day numbers and creation times are integer timestamps.
- `today` is a parameter; the views read it from `timezone.now().date()`. The key `id` and creation time `now` of a create are parameters too: they are assigned when the row is saved.
- A `Product` value holds the `Category` row it references. This is the join that `select_related('category')` and every `category__…` lookup perform.
- Primary-key uniqueness is a precondition only where a lemma needs it (`UniqueProductIds`, `UniqueCategoryIds`).
- Non-negative price, quantity and threshold (`WellFormed`) are assumed, as a precondition, only where a bound needs them. The Product model's field definitions are not part of this model.

Behaviour of the code worth noting:

- `value_by_category` groups by `values('category__name')` (accounts/views.py:145), so by category **name**, not by category row. Two categories of the same owner with equal names become one entry (`SameNameCategoriesMerge`).
- A foreign category on a product write is refused by `validate_category` raising `ValidationError` (accounts/serializers.py:42-44). DRF answers that with HTTP 400, not with a permission error.
- The list's pagination class (accounts/views.py:19-22) is a `PageNumberPagination`. A page number past the last page gives `NotFound`, not an empty page.
- `OrderingFilter` with `ordering_fields` (accounts/views.py:63-66) ignores a term outside those fields. The list then keeps the queryset's own `order_by('-created_at')` (accounts/views.py:81).

## Model

| member | source | states |
|---|---|---|
| `Text.Contains` | accounts/views.py:65 | true exactly when the term occurs at some position of the name |
| `Text.ContainsIgnoringCase` | accounts/views.py:65 | true exactly when the case-folded term occurs somewhere in the case-folded name |
| `Text.SearchIgnoresCase` | accounts/views.py:65 | "milk" matches "Whole MILK" ignoring case, but not as a case-sensitive substring |
| `Domain.IsLowStock` | accounts/views.py:73-76 | the `is_low_stock` annotation holds iff quantity <= min_threshold |
| `Domain.HasExpiry` | accounts/views.py:77-80 | `has_expiry` holds iff an expiration date is present and on or before today; no date gives false |
| `Domain.Annotated` | accounts/views.py:72-81 | each row is paired with exactly the flags of `IsLowStock` and `HasExpiry`; the annotated rows are exactly the input rows |
| `Domain.AnnotatedCounts` | accounts/views.py:72-81 | annotating keeps every row exactly as often as it occurs |
| `Domain.Where` | accounts/views.py:70-71 | `filter` keeps exactly the rows whose condition is TRUE (NULL rows dropped), never more rows than given |
| `Domain.WhereCounts` | accounts/views.py:70-71 | `filter` keeps each row whose condition is TRUE exactly as often as it is stored, and no other row |
| `Domain.Excluding` | accounts/views.py:161 | the complement of `Where`: exactly the rows whose condition is not TRUE |
| `Domain.ExcludingCounts` | accounts/views.py:161 | the complement keeps each row whose condition is not TRUE exactly as often as it is stored |
| `Domain.OwnedProducts` | accounts/views.py:70-71 | exactly the products whose category's owner is the caller |
| `Domain.OwnedProductsCounts` | accounts/views.py:129 | the caller's products are each kept as often as stored, other users' never, so `total_products` counts exactly the owned rows |
| `Domain.OwnedCategories` | accounts/views.py:46 | exactly the categories whose owner is the caller |
| `Domain.OwnedCategoriesCounts` | accounts/views.py:130 | the caller's categories are each kept as often as stored, other users' never, so `total_categories` counts exactly the owned categories |
| `Domain.FindProduct` | accounts/views.py:92-95 | the row with the key, or NotFound exactly when no row has it |
| `Domain.FindCategory` | accounts/views.py:53-54 | the row with the key, or NotFound exactly when no row has it |
| `Aggregates.SqlSum` | accounts/views.py:132-138 | SUM is NULL exactly over no rows, and `or 0` turns it into the plain sum (0 when empty) |
| `Aggregates.CountIfIsSize` | accounts/views.py:135-136 | summing `Case(When(cond, then=1), default=0)` gives the number of rows `filter(cond)` keeps |
| `Aggregates.TotalSplits` | accounts/views.py:140-142 | the sum over the rows matching a lookup plus the sum over the others equals the whole sum |
| `Aggregates.TotalNonNegative` | accounts/views.py:137 | over products with non-negative price and quantity, every sum is non-negative |
| `Aggregates.CategoryNamesAre` | accounts/views.py:145 | a grouping key is exactly a category name carried by some product |
| `Aggregates.AddToGroup` | accounts/views.py:145-146 | adding a value to a name adds the name, keeps names distinct, and adds the value to that name's total and to the overall sum |
| `Aggregates.GroupByCategoryName` | accounts/views.py:144-146 | one entry per distinct category name; each name's total equals the stock value of the products under that name; totals add up to the whole stock value |
| `Aggregates.DistinctTotals` | accounts/views.py:145-146 | with distinct names, the total recorded for a name is that of its single entry |
| `Aggregates.InsertByValuePermutes` | accounts/views.py:147 | inserting an entry adds exactly that entry to the multiset |
| `Aggregates.InsertByValueSorted` | accounts/views.py:147 | inserting into a list sorted by descending total keeps it sorted |
| `Aggregates.InsertKeepsGroups` | accounts/views.py:147 | insertion adds the entry's name, total and per-name value, and keeps names distinct |
| `Aggregates.SortByValueDesc` | accounts/views.py:147 | `order_by('-total_value')` is non-increasing in total and a permutation of the groups |
| `Aggregates.SortKeepsNames` | accounts/views.py:147 | sorting keeps the set of names |
| `Aggregates.SortKeepsDistinct` | accounts/views.py:147 | sorting keeps the names distinct |
| `Aggregates.SortKeepsTotals` | accounts/views.py:147 | sorting keeps the overall sum and every name's total |
| `Aggregates.ValueByCategory` | accounts/views.py:144-148 | `value_by_category`: one entry per distinct product category name (empty categories absent), each with its group's stock value, non-increasing, summing to the total value |
| `Ordering.ParseOrder` | accounts/views.py:66 | an accepted term (price, quantity, created_at, optionally prefixed by '-') selects that order; anything else leaves newest-first |
| `Ordering.OrderTermAccepted` | accounts/views.py:66 | every selectable order is spelled by one of the six accepted terms |
| `Ordering.OrderTermRoundTrip` | accounts/views.py:66 | parsing an order's term gives the order back |
| `Ordering.InsertProductPermutes` | accounts/views.py:81 | inserting a row adds exactly that row |
| `Ordering.InsertProductSorted` | accounts/views.py:81 | inserting into a sorted list keeps it sorted |
| `Ordering.SortProducts` | accounts/views.py:81 | `order_by` yields the same rows (as a multiset) sorted by the chosen key and direction |
| `Pagination.PageSize` | accounts/views.py:19-22 | page size is 20 by default or for a non-positive request, the request capped at 100 otherwise, always 1..100 |
| `Pagination.Paginate` | accounts/views.py:19-22 | page n is the slice starting at (n-1)*size with at most size rows; NotFound past the last page; count and next/previous links as DRF reports them |
| `Pagination.PagesBound` | accounts/views.py:19-22 | a page number is valid iff it is 1 or its first row exists; a next page exists iff rows remain after this one |
| `Serializers.ProductWritableFields` | accounts/serializers.py:21-31 | the writable product fields are exactly name, price, quantity, min_threshold, expiration_date and category |
| `Serializers.CategoryWritableFields` | accounts/serializers.py:16-17 | the writable category fields are exactly name and description |
| `Serializers.AcceptedData` | accounts/serializers.py:26-31 | the serializer reads only declared, non-read-only keys of the submitted body, with their submitted values |
| `Serializers.ReadOnlyFieldsIgnored` | accounts/serializers.py:21-31 | two bodies that agree on the writable fields are read identically, whatever id, created_at or the flags hold |
| `Serializers.ProductRepresentation` | accounts/serializers.py:26-30 | product output has exactly the ten declared fields, the two flags from the annotation, the category by key |
| `Serializers.CategoryRepresentation` | accounts/serializers.py:16 | category output has exactly id, name, description and created_at, never owner |
| `Serializers.ValidateCategory` | accounts/serializers.py:34-45 | without a request the category passes unchanged; with one it passes, unchanged, iff the requesting user owns it, else a validation error |
| `Serializers.ResolveCategory` | accounts/serializers.py:26-29 | the submitted category key resolves among all categories, or fails exactly when no category has it |
| `Serializers.CreateProduct` | accounts/views.py:83-84 | a create succeeds iff the key resolves and passes `validate_category`; the record holds the input fields, the resolved category, and the database's id and time |
| `Serializers.UpdateProduct` | accounts/views.py:89-91 | an update keeps id and created_at, applies submitted fields, and re-checks ownership iff a category is submitted |
| `Serializers.CreateCategory` | accounts/views.py:47-48 | a created category's owner is the creating user, never the input |
| `Serializers.UpdateCategory` | accounts/serializers.py:13-17 | an update rewrites only name and description; id, owner and created_at stay |
| `Views.RetrieveCategory` | accounts/views.py:50-54 | category detail returns the caller's category with the key, or NotFound exactly when the caller has none with it |
| `Views.PerformCategoryUpdate` | accounts/views.py:50-54 | NotFound exactly when the caller owns no category with the key; otherwise the caller's stored category with the submitted name and description applied, still the caller's |
| `Views.CreatedCategoryOwnedByCreator` | accounts/views.py:45-48 | a created category is listed for its creator and for no other user |
| `Views.RequestContext` | accounts/views.py:86-87 | the list-create view always puts the request in the serializer context |
| `Views.RetrieveProduct` | accounts/views.py:89-105 | product detail returns the caller's product with the key, with the shared annotations, or NotFound exactly when the caller has none |
| `Views.PerformProductCreate` | accounts/views.py:83-87 | create through the list view succeeds iff the key names a category the caller owns; the saved record holds the submitted fields, that category, and the assigned id and creation time; a refusal is a validation error |
| `Views.ForeignCategoryRejected` | accounts/serializers.py:40-44 | a product create naming another user's category is refused with the access-denied validation error |
| `Views.PerformProductUpdate` | accounts/views.py:89-95 | NotFound exactly when the caller owns no product with the key; otherwise the serializer update of the caller's product with that key, which stays the caller's |
| `Views.FilterCategory` | accounts/views.py:64 | the `category` filter keeps exactly the products with that category key, each as often as stored |
| `Views.Search` | accounts/views.py:65 | `search` keeps exactly the products whose name contains every term, ignoring case, each as often as stored |
| `Views.ListRows` | accounts/views.py:63-71 | filter, search and ownership together keep exactly the selected products, each as often as stored |
| `Views.ListResults` | accounts/views.py:63-81 | the list holds each of the caller's products matching the filter and search exactly as often as stored, annotated, in the requested order, so DRF's `count` is the number of selected rows |
| `Views.QueryPage` | accounts/views.py:19-22 | the page `?page` (default 1) of `?page_size` rows: NotFound unless it is page 1 or its first row exists; otherwise the slice from (page-1)*size, at most 100 rows, with the full count and next/previous flags |
| `Views.ListProducts` | accounts/views.py:57-60 | the list response is exactly that slice of `ListResults`: NotFound unless page 1 or its first row exists, at most the page size (never more than 100) rows, the list's full count, and next/previous as DRF reports them |
| `Views.ListIsolation` | accounts/views.py:70-71 | no page row belongs to another user, and each carries the shared annotations |
| `Views.ListDetailAgree` | accounts/views.py:72-105 | with unique keys, the detail view returns a listed row with exactly the same flags |
| `Views.ProductAlerts` | accounts/views.py:110-121 | `low_stock` holds each of the caller's low-stock products and `expired` each of the caller's expired ones exactly as often as stored, annotated |
| `Views.AlertsOverlap` | accounts/views.py:118-121 | a product both low and expired appears in both lists |
| `Views.DashboardOf` | accounts/views.py:126-166 | the dashboard's counts are the sizes of the caller's querysets, every `Sum(...) or 0` is the plain total over the caller's rows (0 when there are none), and expired + real = total |
| `Views.DashboardCounts` | accounts/views.py:129-157 | total_products, total_categories, low_stock and expired_products equal the sizes of the owned lists and of the two alert lists; total_stock is the quantity sum; neither flag count exceeds total_products |
| `Views.DashboardFinancials` | accounts/views.py:137-161 | expired + real = total exactly; expired is the value of exactly the expired products, real that of the others; with non-negative inputs 0 <= expired <= total |
| `Views.DashboardAnalytics` | accounts/views.py:144-166 | the breakdown has one entry per product category name, is non-increasing, and sums to total_inventory_value |
| `Views.EmptyDashboard` | accounts/views.py:150-161 | a caller with no products gets zeros in every product figure and an empty breakdown |
| `Views.ScenarioQuerysets` | accounts/views.py:129-140 | in the worked scenario both products are the caller's, one is low in stock and the other expired |
| `Views.ScenarioAnalytics` | accounts/views.py:144-148 | in the worked scenario the breakdown is the single entry C1 with 70.00 |
| `Views.DashboardScenario` | accounts/views.py:126-161 | with products (5 of min 10 at 2.00, no expiry) and (20 of min 5 at 3.00, expired yesterday): 2 products, 1 low, 1 expired, 70.00 total, 60.00 expired, 10.00 real |
| `Views.SameNameCategoriesMerge` | accounts/views.py:144-148 | two categories with different keys and equal names give a single breakdown entry with the combined value |
| `Views.PageOfHundred` | accounts/views.py:19-22 | with 150 rows and page_size=100, the first page has exactly 100 rows and a next page |
| `Views.PageSizeCapped` | accounts/views.py:19-22 | a page_size above 100 still yields at most 100 rows |

## Left out

- Registration and login (`RegisterView`, `LoginView`, `UserRegisterSerializer`): password hashing, `authenticate` and token creation are external authentication calls.
- Authentication and permission classes: the model starts from an authenticated caller's id.
- URL routing. The routes do not include the alerts and dashboard views; that is wiring, not behaviour.
- Settings: the database URL, middleware, and the global `PAGE_SIZE` of 10. The product list overrides it with its own pagination class. The category list sets none and is paged by it, and that paging is not modelled: `OwnedCategories` is the queryset, not the paged response.
- Persistence: `serializer.save()` produces a record and does not write to a store. Deletes and the cascade from category to products are not modelled. The detail lookup models the 404 that guards them.
- The `float(...)` conversions in the dashboard response. Money stays in integer cents.
- `DecimalField(max_digits=15)` overflow of `price * quantity` and of the sums. Integers here are unbounded.
- Unicode case folding: `icontains` on PostgreSQL compares `UPPER(...)` values. The model folds ASCII letters only.
- Search term splitting: DRF splits `search` on whitespace and commas. The model takes the terms already split.
- Multi-field ordering: DRF accepts a comma-separated `ordering` list. The model takes a single term.
- Surrounding whitespace in an `ordering` term is not stripped in the model.
- Order among equal sort keys:
  - SQL leaves it unspecified. The model's sorts keep input order.
  - `ListResults`, `SortProducts` and `ValueByCategory` promise only sortedness and content, not an order among ties.
  - The alert lists have no `order_by`. They keep the input order.
- Query-string parsing: `page` and `page_size` arrive already parsed into integers.
- The `page=last` keyword is not modelled.
- django-filter rejects a `category` value that names no category at all (HTTP 400). The model filters by the key and returns no rows.
- Field validation of the input body: required fields, decimal parsing, and type errors. `ProductInput` and `ProductPatch` hold already-typed values.
- `Serializers.ResolveCategory`: DRF's message names the key in the text. The model uses a fixed message.
- `Serializers.ProductRepresentation` models annotated rows only: list, detail GET and alerts. The create response serializes the instance `save()` returns, which carries no annotation, so DRF leaves out the two read-only flags there. The update response carries the flags computed before the write. Neither of these two responses is modelled.
- Concurrency between requests and the atomicity of check-then-write: the storage layer provides them.
