/**
 * The views: the category and product querysets scoped to the caller, the
 * product list with its filter, search, ordering and pagination, the
 * detail lookups and writes, the alerts and the dashboard. `today` is a
 * parameter: the views read it from `timezone.now().date()`. The key `id`
 * and creation time `now` of a create are parameters too: they are
 * assigned when the row is saved.
 */
module Views {
  import opened Wrappers
  import opened Text
  import opened Domain
  import opened Aggregates
  import opened Ordering
  import opened Pagination
  import opened Serializers

  // ---------------------------------------------------------------------------
  // Categories
  // ---------------------------------------------------------------------------

  /** Category detail: the caller's category with that key, or NotFound even when another user's exists. */
  function RetrieveCategory(categories: seq<Category>, user: UserId, id: int): (r: Result<Category, Error>)
    ensures r.Ok? ==> r.value in categories && r.value.owner == user && r.value.id == id
    ensures r.Err? <==> forall c :: c in categories && c.owner == user ==> c.id != id
    ensures r.Err? ==> r.error == NotFound
  {
    FindCategory(OwnedCategories(categories, user), id)
  }

  /** Category update (PUT/PATCH) through the caller-scoped queryset. */
  function PerformCategoryUpdate(categories: seq<Category>, user: UserId, id: int, patch: CategoryPatch)
    : (r: Result<Category, Error>)
    ensures r.Ok? ==> r.value.owner == user && r.value.id == id
    ensures r.Err? <==> forall c :: c in categories && c.owner == user ==> c.id != id
    ensures RetrieveCategory(categories, user, id).Ok? ==>
      r == Ok(UpdateCategory(RetrieveCategory(categories, user, id).value, patch))
  {
    match RetrieveCategory(categories, user, id)
    case Err(e) => Err(e)
    case Ok(c) => Ok(UpdateCategory(c, patch))
  }

  /** A category created by `user` is listed for `user` and for no one else. */
  lemma CreatedCategoryOwnedByCreator(categories: seq<Category>, user: UserId, input: CategoryInput,
                                      id: int, now: Timestamp, other: UserId)
    ensures CreateCategory(user, input, id, now) in OwnedCategories(categories + [CreateCategory(user, input, id, now)], user)
    ensures other != user ==>
      CreateCategory(user, input, id, now) !in OwnedCategories(categories + [CreateCategory(user, input, id, now)], other)
  {
  }

  // ---------------------------------------------------------------------------
  // Product detail and writes
  // ---------------------------------------------------------------------------

  /** Both product views hand the request to the serializer, so `validate_category` always checks ownership. */
  function RequestContext(user: UserId): (ctx: Context)
    ensures ctx.request == Some(user)
  {
    Context(Some(user))
  }

  /** Product detail: the caller's product with that key, annotated, or NotFound. */
  function RetrieveProduct(products: seq<Product>, user: UserId, today: Date, id: int)
    : (r: Result<AnnotatedProduct, Error>)
    ensures r.Ok? ==> r.value.product in products && r.value.product.category.owner == user
    ensures r.Ok? ==> r.value.product.id == id && r.value == Annotate(r.value.product, today)
    ensures r.Err? <==> forall p :: p in products && p.category.owner == user ==> p.id != id
    ensures r.Err? ==> r.error == NotFound
  {
    match FindProduct(OwnedProducts(products, user), id)
    case Ok(p) => Ok(Annotate(p, today))
    case Err(e) => Err(e)
  }

  /**
   * Product create through the list view: accepted exactly when the key
   * names a category the caller owns, and the new product is the caller's.
   */
  function PerformProductCreate(categories: seq<Category>, user: UserId, input: ProductInput, id: int, now: Timestamp)
    : (r: Result<Product, Error>)
    ensures r.Ok? <==> ResolveCategory(categories, input.category).Ok?
                       && ResolveCategory(categories, input.category).value.owner == user
    ensures r.Ok? ==> r.value.category.owner == user && r.value.id == id && r.value.createdAt == now
    ensures r.Ok? ==> r.value.category in categories && r.value.category.id == input.category
    ensures r.Ok? ==> r.value == Product(id, input.name, input.price, input.quantity, input.minThreshold,
                                         input.expirationDate, r.value.category, now)
    ensures r.Err? ==> r.error.ValidationError?
  {
    CreateProduct(RequestContext(user), categories, input, id, now)
  }

  /** Assigning a product to another user's category is refused, whatever key the client guesses. */
  lemma ForeignCategoryRejected(categories: seq<Category>, user: UserId, input: ProductInput, id: int, now: Timestamp)
    requires UniqueCategoryIds(categories)
    requires exists c :: c in categories && c.id == input.category && c.owner != user
    ensures PerformProductCreate(categories, user, input, id, now) == Err(ValidationError(AccessDenied))
  {
    var c :| c in categories && c.id == input.category && c.owner != user;
    var found := ResolveCategory(categories, input.category);
    assert found.Ok?;
    assert found.value == c by {
      var i :| 0 <= i < |categories| && categories[i] == c;
      var j :| 0 <= j < |categories| && categories[j] == found.value;
    }
  }

  /** Product update through the detail view: only the caller's products, and they stay the caller's. */
  function PerformProductUpdate(products: seq<Product>, categories: seq<Category>, user: UserId, id: int,
                                patch: ProductPatch)
    : (r: Result<Product, Error>)
    ensures r == Err(NotFound) <==> forall p :: p in products && p.category.owner == user ==> p.id != id
    ensures FindProduct(OwnedProducts(products, user), id).Ok? ==>
      r == UpdateProduct(RequestContext(user), categories, FindProduct(OwnedProducts(products, user), id).value, patch)
    ensures r.Ok? ==> r.value.id == id && r.value.category.owner == user
  {
    match FindProduct(OwnedProducts(products, user), id)
    case Err(e) => Err(e)
    case Ok(p) => UpdateProduct(RequestContext(user), categories, p, patch)
  }

  // ---------------------------------------------------------------------------
  // Product list
  // ---------------------------------------------------------------------------

  /** The query parameters of the product list. */
  datatype ListQuery = ListQuery(
    category: Option<int>,    // ?category=<id>
    search: seq<string>,      // the terms of ?search=...
    ordering: Option<string>, // ?ordering=...
    page: Option<int>,        // ?page=...
    pageSize: Option<int>)    // ?page_size=...

  /** `filterset_fields = ['category']`: equality on the category key when given. */
  function FilterCategory(ps: seq<Product>, category: Option<int>): (r: seq<Product>)
    ensures forall p :: p in r <==> p in ps && (category.Some? ==> p.category.id == category.value)
    ensures forall p :: multiset(r)[p] == if category.Some? ==> p.category.id == category.value then multiset(ps)[p] else 0
  {
    if category.None? then ps
    else
      assert forall p :: multiset(Where(ps, CategoryIs(category.value)))[p]
                      == if p.category.id == category.value then multiset(ps)[p] else 0 by {
        forall p ensures multiset(Where(ps, CategoryIs(category.value)))[p]
                      == if p.category.id == category.value then multiset(ps)[p] else 0 {
          WhereCounts(ps, CategoryIs(category.value), p);
        }
      }
      Where(ps, CategoryIs(category.value))
  }

  /** Every search term occurs in the product's name, ignoring case. */
  predicate Matching(p: Product, terms: seq<string>) {
    forall t :: t in terms ==> ContainsIgnoringCase(p.name, t)
  }

  /** A product matches all terms iff it matches the first and all the others. */
  lemma MatchingSplit(terms: seq<string>)
    requires terms != []
    ensures forall p :: Matching(p, terms) <==> ContainsIgnoringCase(p.name, terms[0]) && Matching(p, terms[1..])
  {
    assert terms == [terms[0]] + terms[1..];
  }

  /** `search_fields = ['name']`: every search term occurs in the name, ignoring case. */
  function Search(ps: seq<Product>, terms: seq<string>): (r: seq<Product>)
    ensures forall p :: p in r <==> p in ps && Matching(p, terms)
    ensures forall p :: multiset(r)[p] == if Matching(p, terms) then multiset(ps)[p] else 0
    decreases |terms|
  {
    if terms == [] then ps
    else
      var kept := Where(ps, NameIContains(terms[0]));
      assert forall p :: multiset(kept)[p] == if ContainsIgnoringCase(p.name, terms[0]) then multiset(ps)[p] else 0 by {
        forall p ensures multiset(kept)[p] == if ContainsIgnoringCase(p.name, terms[0]) then multiset(ps)[p] else 0 {
          WhereCounts(ps, NameIContains(terms[0]), p);
        }
      }
      MatchingSplit(terms);
      Search(kept, terms[1..])
  }

  /** What the list shows of a product: the caller's, in the requested category, matching every term. */
  ghost predicate Selected(p: Product, user: UserId, q: ListQuery) {
    && p.category.owner == user
    && (q.category.Some? ==> p.category.id == q.category.value)
    && Matching(p, q.search)
  }

  /** The three filter steps of the list, before ordering: each selected product as often as it is stored. */
  function ListRows(products: seq<Product>, user: UserId, q: ListQuery): (r: seq<Product>)
    ensures forall p :: p in r <==> p in products && Selected(p, user, q)
    ensures forall p :: multiset(r)[p] == if Selected(p, user, q) then multiset(products)[p] else 0
  {
    var owned := OwnedProducts(products, user);
    assert forall p :: multiset(owned)[p] == if p.category.owner == user then multiset(products)[p] else 0 by {
      forall p ensures multiset(owned)[p] == if p.category.owner == user then multiset(products)[p] else 0 {
        OwnedProductsCounts(products, user, p);
      }
    }
    Search(FilterCategory(owned, q.category), q.search)
  }

  /**
   * The list queryset before pagination: exactly the selected products,
   * each with its annotations, in the requested order.
   */
  function ListResults(products: seq<Product>, user: UserId, today: Date, q: ListQuery)
    : (r: seq<AnnotatedProduct>)
    ensures forall p :: Annotate(p, today) in r <==> p in products && Selected(p, user, q)
    ensures forall a :: a in r ==> a == Annotate(a.product, today) && a.product in products && Selected(a.product, user, q)
    ensures forall i, j :: 0 <= i < j < |r| ==> Before(r[i].product, r[j].product, ParseOrder(q.ordering))
    ensures forall p :: multiset(r)[Annotate(p, today)] == if Selected(p, user, q) then multiset(products)[p] else 0
  {
    var rows := ListRows(products, user, q);
    var sorted := SortProducts(rows, ParseOrder(q.ordering));
    assert forall p :: p in sorted <==> p in rows by {
      forall p ensures p in sorted <==> p in rows {
        assert p in sorted <==> p in multiset(sorted);
      }
    }
    assert forall p :: multiset(Annotated(sorted, today))[Annotate(p, today)] == multiset(rows)[p] by {
      forall p ensures multiset(Annotated(sorted, today))[Annotate(p, today)] == multiset(rows)[p] {
        AnnotatedCounts(sorted, today, p);
      }
    }
    Annotated(sorted, today)
  }

  /**
   * The page a list query asks for: page `?page` (1 when absent) of
   * `?page_size` rows, with the outcome `Paginate` promises for it.
   */
  function QueryPage<T>(rows: seq<T>, q: ListQuery): (r: Result<Page<T>, Error>)
    ensures r.Ok? ==> |r.value.results| <= PageSize(q.pageSize) <= MaxPageSize
    ensures r.Ok? ==> r.value.count == |rows|
    ensures r.Err? ==> r.error == NotFound
    ensures var n, s := q.page.GetOr(1), PageSize(q.pageSize);
      r.Ok? <==> n == 1 || (1 <= n && PageStart(n, s) < |rows|)
    ensures var n, s := q.page.GetOr(1), PageSize(q.pageSize);
      r.Ok? ==> 0 <= PageStart(n, s) <= PageEnd(|rows|, n, s) <= |rows|
    ensures var n, s := q.page.GetOr(1), PageSize(q.pageSize);
      r.Ok? ==> && r.value.results == rows[PageStart(n, s)..PageEnd(|rows|, n, s)]
                && (r.value.hasNext <==> PageStart(n, s) + s < |rows|)
                && (r.value.hasPrevious <==> n > 1)
  {
    Paginate(rows, q.page.GetOr(1), PageSize(q.pageSize))
  }

  /** The product list response: one page of `ListResults`. */
  function ListProducts(products: seq<Product>, user: UserId, today: Date, q: ListQuery)
    : (r: Result<Page<AnnotatedProduct>, Error>)
    ensures r.Ok? ==> |r.value.results| <= PageSize(q.pageSize) <= MaxPageSize
    ensures r.Ok? ==> r.value.count == |ListResults(products, user, today, q)|
    ensures r.Err? ==> r.error == NotFound
    ensures var rows, n, s := ListResults(products, user, today, q), q.page.GetOr(1), PageSize(q.pageSize);
      r.Ok? <==> n == 1 || (1 <= n && PageStart(n, s) < |rows|)
    ensures var rows, n, s := ListResults(products, user, today, q), q.page.GetOr(1), PageSize(q.pageSize);
      r.Ok? ==> 0 <= PageStart(n, s) <= PageEnd(|rows|, n, s) <= |rows|
    ensures var rows, n, s := ListResults(products, user, today, q), q.page.GetOr(1), PageSize(q.pageSize);
      r.Ok? ==> && r.value.results == rows[PageStart(n, s)..PageEnd(|rows|, n, s)]
                && (r.value.hasNext <==> PageStart(n, s) + s < |rows|)
                && (r.value.hasPrevious <==> n > 1)
  {
    QueryPage(ListResults(products, user, today, q), q)
  }

  /** Nothing on any page belongs to another user, and every row carries the shared annotations. */
  lemma ListIsolation(products: seq<Product>, user: UserId, today: Date, q: ListQuery)
    requires ListProducts(products, user, today, q).Ok?
    ensures forall a :: a in ListProducts(products, user, today, q).value.results ==>
      a.product in products && a.product.category.owner == user && a == Annotate(a.product, today)
  {
  }

  /** With unique keys, the detail view returns a listed product with the very same annotations. */
  lemma ListDetailAgree(products: seq<Product>, user: UserId, today: Date, q: ListQuery, a: AnnotatedProduct)
    requires UniqueProductIds(products)
    requires a in ListResults(products, user, today, q)
    ensures RetrieveProduct(products, user, today, a.product.id) == Ok(a)
  {
    var r := RetrieveProduct(products, user, today, a.product.id);
    assert r.Ok?;
    assert r.value.product == a.product by {
      var i :| 0 <= i < |products| && products[i] == a.product;
      var j :| 0 <= j < |products| && products[j] == r.value.product;
    }
  }

  // ---------------------------------------------------------------------------
  // Alerts
  // ---------------------------------------------------------------------------

  datatype Alerts = Alerts(lowStock: seq<AnnotatedProduct>, expired: seq<AnnotatedProduct>)

  /**
   * The alerts response: the caller's products filtered on each flag
   * separately. Filtering on the lookup and on the annotation it defines
   * keep the same rows.
   */
  function ProductAlerts(products: seq<Product>, user: UserId, today: Date): (r: Alerts)
    ensures forall p :: Annotate(p, today) in r.lowStock <==>
      p in products && p.category.owner == user && IsLowStock(p)
    ensures forall p :: Annotate(p, today) in r.expired <==>
      p in products && p.category.owner == user && HasExpiry(p, today)
    ensures forall p :: multiset(r.lowStock)[Annotate(p, today)]
                     == if p.category.owner == user && IsLowStock(p) then multiset(products)[p] else 0
    ensures forall p :: multiset(r.expired)[Annotate(p, today)]
                     == if p.category.owner == user && HasExpiry(p, today) then multiset(products)[p] else 0
    ensures forall a :: a in r.lowStock ==> a.isLowStock && a == Annotate(a.product, today)
    ensures forall a :: a in r.expired ==> a.hasExpiry && a == Annotate(a.product, today)
  {
    var base := OwnedProducts(products, user);
    var low := Where(base, QuantityLteMinThreshold);
    var expired := Where(base, ExpirationLte(today));
    assert forall p :: multiset(Annotated(low, today))[Annotate(p, today)]
                    == if p.category.owner == user && IsLowStock(p) then multiset(products)[p] else 0 by {
      forall p ensures multiset(Annotated(low, today))[Annotate(p, today)]
                    == if p.category.owner == user && IsLowStock(p) then multiset(products)[p] else 0 {
        AnnotatedCounts(low, today, p);
        WhereCounts(base, QuantityLteMinThreshold, p);
        OwnedProductsCounts(products, user, p);
      }
    }
    assert forall p :: multiset(Annotated(expired, today))[Annotate(p, today)]
                    == if p.category.owner == user && HasExpiry(p, today) then multiset(products)[p] else 0 by {
      forall p ensures multiset(Annotated(expired, today))[Annotate(p, today)]
                    == if p.category.owner == user && HasExpiry(p, today) then multiset(products)[p] else 0 {
        AnnotatedCounts(expired, today, p);
        WhereCounts(base, ExpirationLte(today), p);
        OwnedProductsCounts(products, user, p);
      }
    }
    Alerts(Annotated(low, today), Annotated(expired, today))
  }

  /** The two lists are independent: a product low in stock and expired is in both. */
  lemma AlertsOverlap(products: seq<Product>, user: UserId, today: Date, p: Product)
    requires p in products && p.category.owner == user
    requires p.quantity <= p.minThreshold && p.expirationDate.Some? && p.expirationDate.value <= today
    ensures Annotate(p, today) in ProductAlerts(products, user, today).lowStock
    ensures Annotate(p, today) in ProductAlerts(products, user, today).expired
  {
  }

  // ---------------------------------------------------------------------------
  // Dashboard
  // ---------------------------------------------------------------------------

  datatype Dashboard = Dashboard(
    totalProducts: int,
    totalCategories: int,
    lowStock: int,
    expiredProducts: int,
    totalStock: int,
    totalInventoryValue: int,    // cents
    expiredInventoryValue: int,  // cents
    realInventoryValue: int,     // cents
    analytics: seq<CategoryValue>)

  /**
   * The dashboard response, before money is converted to floating point:
   * the counts are the sizes of the caller's querysets, every `Sum(...) or 0`
   * is the plain total over the caller's rows, and the real value is what
   * remains of the total once the expired value is taken out.
   */
  function DashboardOf(products: seq<Product>, categories: seq<Category>, user: UserId, today: Date): (d: Dashboard)
    ensures d.totalProducts == |OwnedProducts(products, user)|
    ensures d.totalCategories == |OwnedCategories(categories, user)|
    ensures d.lowStock == |Where(OwnedProducts(products, user), QuantityLteMinThreshold)|
    ensures d.expiredProducts == |Where(OwnedProducts(products, user), ExpirationLte(today))|
    ensures d.totalStock == Total(OwnedProducts(products, user), QuantityColumn)
    ensures d.totalInventoryValue == Total(OwnedProducts(products, user), StockValue)
    ensures d.expiredInventoryValue == Total(Where(OwnedProducts(products, user), ExpirationLte(today)), StockValue)
    ensures d.expiredInventoryValue + d.realInventoryValue == d.totalInventoryValue
  {
    var owned := OwnedProducts(products, user);
    CountIfIsSize(owned, QuantityLteMinThreshold);
    CountIfIsSize(owned, ExpirationLte(today));
    var totalValue := OrZero(SqlSum(owned, StockValue));
    var expiredValue := OrZero(SqlSum(Where(owned, ExpirationLte(today)), StockValue));
    Dashboard(
      totalProducts := |owned|,
      totalCategories := |OwnedCategories(categories, user)|,
      lowStock := OrZero(SqlSum(owned, CountIf(QuantityLteMinThreshold))),
      expiredProducts := OrZero(SqlSum(owned, CountIf(ExpirationLte(today)))),
      totalStock := OrZero(SqlSum(owned, QuantityColumn)),
      totalInventoryValue := totalValue,
      expiredInventoryValue := expiredValue,
      realInventoryValue := totalValue - expiredValue,
      analytics := ValueByCategory(owned))
  }

  /** The counts agree with the list of the caller's products, the alert lists and the caller's categories. */
  lemma DashboardCounts(products: seq<Product>, categories: seq<Category>, user: UserId, today: Date)
    ensures DashboardOf(products, categories, user, today).totalProducts == |OwnedProducts(products, user)|
    ensures DashboardOf(products, categories, user, today).totalCategories == |OwnedCategories(categories, user)|
    ensures DashboardOf(products, categories, user, today).lowStock == |ProductAlerts(products, user, today).lowStock|
    ensures DashboardOf(products, categories, user, today).expiredProducts == |ProductAlerts(products, user, today).expired|
    ensures DashboardOf(products, categories, user, today).totalStock == Total(OwnedProducts(products, user), QuantityColumn)
    ensures var d := DashboardOf(products, categories, user, today);
      d.lowStock <= d.totalProducts && d.expiredProducts <= d.totalProducts && d.totalProducts <= |products|
  {
  }

  /**
   * The three money figures: the expired value is the stock value of exactly
   * the expired products, the real value that of the others, and the two
   * add up to the total; with non-negative prices and quantities the
   * expired value lies between 0 and the total.
   */
  lemma DashboardFinancials(products: seq<Product>, categories: seq<Category>, user: UserId, today: Date)
    ensures var d := DashboardOf(products, categories, user, today);
      d.expiredInventoryValue + d.realInventoryValue == d.totalInventoryValue
    ensures DashboardOf(products, categories, user, today).totalInventoryValue
         == Total(OwnedProducts(products, user), StockValue)
    ensures DashboardOf(products, categories, user, today).expiredInventoryValue
         == Total(Where(OwnedProducts(products, user), ExpirationLte(today)), StockValue)
    ensures DashboardOf(products, categories, user, today).realInventoryValue
         == Total(Excluding(OwnedProducts(products, user), ExpirationLte(today)), StockValue)
    ensures (forall p :: p in products ==> WellFormed(p)) ==>
      var d := DashboardOf(products, categories, user, today);
      0 <= d.expiredInventoryValue <= d.totalInventoryValue
  {
    var owned := OwnedProducts(products, user);
    TotalSplits(owned, ExpirationLte(today), StockValue);
    if forall p :: p in products ==> WellFormed(p) {
      TotalNonNegative(Where(owned, ExpirationLte(today)), StockValue);
      TotalNonNegative(Excluding(owned, ExpirationLte(today)), StockValue);
    }
  }

  /** The category breakdown covers the caller's products by category name and adds up to the total value. */
  lemma DashboardAnalytics(products: seq<Product>, categories: seq<Category>, user: UserId, today: Date)
    ensures var d := DashboardOf(products, categories, user, today);
      && EntryNames(d.analytics) == CategoryNames(OwnedProducts(products, user))
      && DistinctNames(d.analytics)
      && SortedByValueDesc(d.analytics)
      && SumTotals(d.analytics) == d.totalInventoryValue
      && forall g :: g in d.analytics ==> g.totalValue == GroupTotal(OwnedProducts(products, user), g.category)
  {
  }

  /** A caller without products gets zeros and an empty breakdown, never a missing value. */
  lemma EmptyDashboard(products: seq<Product>, categories: seq<Category>, user: UserId, today: Date)
    requires forall p :: p in products ==> p.category.owner != user
    ensures var d := DashboardOf(products, categories, user, today);
      && d.totalProducts == 0 && d.lowStock == 0 && d.expiredProducts == 0 && d.totalStock == 0
      && d.totalInventoryValue == 0 && d.expiredInventoryValue == 0 && d.realInventoryValue == 0
      && d.analytics == []
  {
  }

  // ---------------------------------------------------------------------------
  // Worked scenarios
  // ---------------------------------------------------------------------------

  /** The one category of the worked scenario. */
  function ScenarioCategory(user: UserId): Category {
    Category(1, "C1", None, user, 0)
  }

  /** 5 in stock against a minimum of 10, at 2.00, with no expiration date. */
  function ScenarioLow(user: UserId): Product {
    Product(1, "P1", 200, 5, 10, None, ScenarioCategory(user), 0)
  }

  /** 20 in stock against a minimum of 5, at 3.00, expired yesterday. */
  function ScenarioExpired(user: UserId, today: Date): Product {
    Product(2, "P2", 300, 20, 5, Some(today - 1), ScenarioCategory(user), 1)
  }

  lemma ScenarioQuerysets(user: UserId, today: Date)
    ensures var ps := [ScenarioLow(user), ScenarioExpired(user, today)];
      && OwnedProducts(ps, user) == ps
      && OwnedCategories([ScenarioCategory(user)], user) == [ScenarioCategory(user)]
      && Where(ps, QuantityLteMinThreshold) == [ScenarioLow(user)]
      && Where(ps, ExpirationLte(today)) == [ScenarioExpired(user, today)]
  {
    var ps := [ScenarioLow(user), ScenarioExpired(user, today)];
    assert ps[1..] == [ScenarioExpired(user, today)];
    assert [ScenarioCategory(user)][1..] == [];
  }

  lemma ScenarioAnalytics(user: UserId, today: Date)
    ensures ValueByCategory([ScenarioLow(user), ScenarioExpired(user, today)]) == [CategoryValue("C1", 7000)]
  {
    var ps := [ScenarioLow(user), ScenarioExpired(user, today)];
    assert ps[1..] == [ScenarioExpired(user, today)];
    assert GroupByCategoryName(ps) == [CategoryValue("C1", 7000)];
  }

  /**
   * One category holding a product below its threshold and an expired one:
   * 2 products, 1 low, 1 expired, 25 units, 70.00 in stock of which 60.00
   * expired, leaving 10.00.
   */
  lemma DashboardScenario(user: UserId, today: Date)
    ensures
      var d := DashboardOf([ScenarioLow(user), ScenarioExpired(user, today)], [ScenarioCategory(user)], user, today);
      && d.totalProducts == 2 && d.totalCategories == 1
      && d.lowStock == 1 && d.expiredProducts == 1 && d.totalStock == 25
      && d.totalInventoryValue == 7000 && d.expiredInventoryValue == 6000 && d.realInventoryValue == 1000
      && d.analytics == [CategoryValue("C1", 7000)]
  {
    var ps := [ScenarioLow(user), ScenarioExpired(user, today)];
    ScenarioQuerysets(user, today);
    ScenarioAnalytics(user, today);
    assert ps[1..] == [ScenarioExpired(user, today)];
    assert Total([ScenarioExpired(user, today)], StockValue) == 6000;
    assert Total([ScenarioExpired(user, today)], QuantityColumn) == 20;
  }

  /** Two categories with the same name but different keys share a single breakdown entry. */
  lemma SameNameCategoriesMerge(products: seq<Product>, categories: seq<Category>, user: UserId, today: Date,
                                p1: Product, p2: Product)
    requires p1.category.owner == user && p2.category.owner == user
    requires p1.category.id != p2.category.id && p1.category.name == p2.category.name
    requires products == [p1, p2]
    ensures DashboardOf(products, categories, user, today).analytics
         == [CategoryValue(p1.category.name, p1.price * p1.quantity + p2.price * p2.quantity)]
  {
    assert [p1, p2][1..] == [p2];
    assert OwnedProducts([p1, p2], user) == [p1, p2];
    assert GroupByCategoryName([p1, p2]) == [CategoryValue(p1.category.name, p2.price * p2.quantity + p1.price * p1.quantity)];
  }

  /** Asking for 100 rows out of 150 gives a full first page of 100 with a next page. */
  lemma PageOfHundred(products: seq<Product>, user: UserId, today: Date, q: ListQuery)
    requires |ListResults(products, user, today, q)| == 150
    requires q.pageSize == Some(100) && q.page == None
    ensures ListProducts(products, user, today, q).Ok?
    ensures |ListProducts(products, user, today, q).value.results| == 100
    ensures ListProducts(products, user, today, q).value.hasNext
  {
  }

  /** Asking for more than 100 rows per page still gives at most 100. */
  lemma PageSizeCapped(products: seq<Product>, user: UserId, today: Date, q: ListQuery)
    requires q.pageSize.Some? && q.pageSize.value > MaxPageSize
    requires ListProducts(products, user, today, q).Ok?
    ensures |ListProducts(products, user, today, q).value.results| <= 100
  {
  }
}
