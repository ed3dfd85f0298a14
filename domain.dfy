/**
 * Categories and products, the ORM lookups the views filter on, the two
 * derived status flags, and the ownership filter shared by every view.
 *
 * A product carries the category row it references (the join that
 * `select_related('category')` and every `category__...` lookup perform),
 * so the ownership chain User -> Category -> Product is read as
 * `p.category.owner`. Money is in integer cents, dates are day numbers and
 * creation times are integer timestamps.
 */
module Domain {
  import opened Wrappers
  import opened Text

  type UserId = int
  type Date = int
  type Timestamp = int

  datatype Category = Category(
    id: int,
    name: string,
    description: Option<string>,
    owner: UserId,
    createdAt: Timestamp)

  datatype Product = Product(
    id: int,
    name: string,
    price: int,                    // cents
    quantity: int,
    minThreshold: int,
    expirationDate: Option<Date>,  // None is SQL NULL
    category: Category,
    createdAt: Timestamp)

  /** The errors the views and the serializer report. */
  datatype Error =
    | NotFound                         // object outside the caller's queryset: 404
    | ValidationError(message: string) // serializer rejection: 400

  /** Non-negative price, quantity and threshold: assumed as a precondition wherever a bound needs it. */
  predicate WellFormed(p: Product) {
    p.price >= 0 && p.quantity >= 0 && p.minThreshold >= 0
  }

  // ---------------------------------------------------------------------------
  // ORM lookups evaluated in SQL's three-valued logic
  // ---------------------------------------------------------------------------

  datatype SqlBool = SqlTrue | SqlFalse | SqlNull

  function FromBool(b: bool): SqlBool {
    if b then SqlTrue else SqlFalse
  }

  /** `column <= value` in SQL: NULL when the column is NULL. */
  function SqlLte(column: Option<int>, value: int): SqlBool {
    if column.None? then SqlNull else FromBool(column.value <= value)
  }

  datatype Lookup =
    | OwnerIs(user: UserId)          // category__owner=user
    | CategoryIs(categoryId: int)    // category=<id>
    | NameIContains(term: string)    // name__icontains=term
    | CategoryNameIs(name: string)   // category__name=name, the grouping key of value_by_category
    | QuantityLteMinThreshold        // quantity__lte=F('min_threshold')
    | ExpirationLte(today: Date)     // expiration_date__lte=today

  function SqlEval(p: Product, l: Lookup): SqlBool {
    match l
    case OwnerIs(u) => FromBool(p.category.owner == u)
    case CategoryIs(id) => FromBool(p.category.id == id)
    case NameIContains(t) => FromBool(ContainsIgnoringCase(p.name, t))
    case CategoryNameIs(n) => FromBool(p.category.name == n)
    case QuantityLteMinThreshold => FromBool(p.quantity <= p.minThreshold)
    case ExpirationLte(today) => SqlLte(p.expirationDate, today)
  }

  /**
   * A row satisfies a lookup only when the condition is TRUE: this is what a
   * WHERE clause keeps and what `Case(When(cond, then=True), default=False)`
   * turns into `true`; FALSE and NULL both give the default.
   */
  predicate Matches(p: Product, l: Lookup) {
    SqlEval(p, l) == SqlTrue
  }

  // ---------------------------------------------------------------------------
  // Derived flags, defined once for list, detail, alerts and dashboard
  // ---------------------------------------------------------------------------

  /** The `is_low_stock` annotation. */
  function IsLowStock(p: Product): (r: bool)
    ensures r <==> p.quantity <= p.minThreshold
  {
    Matches(p, QuantityLteMinThreshold)
  }

  /** The `has_expiry` annotation: a date on or before today; no date never counts. */
  function HasExpiry(p: Product, today: Date): (r: bool)
    ensures r <==> p.expirationDate.Some? && p.expirationDate.value <= today
    ensures p.expirationDate.None? ==> !r
  {
    Matches(p, ExpirationLte(today))
  }

  /** A product row together with the two annotations the views attach. */
  datatype AnnotatedProduct = AnnotatedProduct(product: Product, isLowStock: bool, hasExpiry: bool)

  function Annotate(p: Product, today: Date): AnnotatedProduct {
    AnnotatedProduct(p, IsLowStock(p), HasExpiry(p, today))
  }

  /** The `.annotate(is_low_stock=..., has_expiry=...)` step over a queryset. */
  function Annotated(ps: seq<Product>, today: Date): (r: seq<AnnotatedProduct>)
    ensures |r| == |ps|
    ensures forall i :: 0 <= i < |ps| ==> r[i] == Annotate(ps[i], today)
    ensures forall p :: Annotate(p, today) in r <==> p in ps
    ensures forall a :: a in r ==> a == Annotate(a.product, today) && a.product in ps
  {
    if ps == [] then [] else [Annotate(ps[0], today)] + Annotated(ps[1..], today)
  }

  /** Annotating keeps every row as often as it occurs: the annotation is one-to-one. */
  lemma {:induction false} AnnotatedCounts(ps: seq<Product>, today: Date, p: Product)
    ensures multiset(Annotated(ps, today))[Annotate(p, today)] == multiset(ps)[p]
  {
    if ps != [] {
      AnnotatedCounts(ps[1..], today, p);
      var x, rest := ps[0], ps[1..];
      assert ps == [x] + rest;
      assert Annotated(ps, today) == [Annotate(x, today)] + Annotated(rest, today);
      assert (Annotate(x, today) == Annotate(p, today)) == (x == p);
      CountCons(x, rest, p);
      CountCons(Annotate(x, today), Annotated(rest, today), Annotate(p, today));
    }
  }

  // ---------------------------------------------------------------------------
  // Querysets
  // ---------------------------------------------------------------------------

  /** `queryset.filter(l)`: the rows satisfying `l` (`WhereCounts` says how often each is kept). */
  function Where(ps: seq<Product>, l: Lookup): (r: seq<Product>)
    ensures |r| <= |ps|
    ensures forall p :: p in r <==> p in ps && Matches(p, l)
  {
    if ps == [] then []
    else if Matches(ps[0], l) then [ps[0]] + Where(ps[1..], l)
    else Where(ps[1..], l)
  }

  /** The rows that do not satisfy `l`; the complement of `Where`. */
  function Excluding(ps: seq<Product>, l: Lookup): (r: seq<Product>)
    ensures forall p :: p in r <==> p in ps && !Matches(p, l)
  {
    if ps == [] then []
    else if Matches(ps[0], l) then Excluding(ps[1..], l)
    else [ps[0]] + Excluding(ps[1..], l)
  }

  /** The ownership filter on products: `filter(category__owner=user)`. */
  function OwnedProducts(ps: seq<Product>, user: UserId): (r: seq<Product>)
    ensures forall p :: p in r <==> p in ps && p.category.owner == user
  {
    Where(ps, OwnerIs(user))
  }

  /** The ownership filter on categories: `Category.objects.filter(owner=user)`. */
  function OwnedCategories(cs: seq<Category>, user: UserId): (r: seq<Category>)
    ensures |r| <= |cs|
    ensures forall c :: c in r <==> c in cs && c.owner == user
  {
    if cs == [] then []
    else if cs[0].owner == user then [cs[0]] + OwnedCategories(cs[1..], user)
    else OwnedCategories(cs[1..], user)
  }

  // ---------------------------------------------------------------------------
  // Row counts: a filter keeps each matching row as often as it is stored
  // ---------------------------------------------------------------------------

  /** How often `y` occurs in a sequence that starts with `x`. */
  lemma CountCons<T>(x: T, s: seq<T>, y: T)
    ensures multiset([x] + s)[y] == (if x == y then 1 else 0) + multiset(s)[y]
  {
    assert multiset([x] + s) == multiset([x]) + multiset(s);
  }

  lemma {:induction false} WhereCounts(ps: seq<Product>, l: Lookup, p: Product)
    ensures multiset(Where(ps, l))[p] == if Matches(p, l) then multiset(ps)[p] else 0
  {
    if ps != [] {
      var x, rest := ps[0], ps[1..];
      WhereCounts(rest, l, p);
      assert ps == [x] + rest;
      CountCons(x, rest, p);
      if Matches(x, l) {
        assert Where(ps, l) == [x] + Where(rest, l);
        CountCons(x, Where(rest, l), p);
      } else {
        assert Where(ps, l) == Where(rest, l);
      }
    }
  }

  lemma {:induction false} ExcludingCounts(ps: seq<Product>, l: Lookup, p: Product)
    ensures multiset(Excluding(ps, l))[p] == if Matches(p, l) then 0 else multiset(ps)[p]
  {
    if ps != [] {
      var x, rest := ps[0], ps[1..];
      ExcludingCounts(rest, l, p);
      assert ps == [x] + rest;
      CountCons(x, rest, p);
      if Matches(x, l) {
        assert Excluding(ps, l) == Excluding(rest, l);
      } else {
        assert Excluding(ps, l) == [x] + Excluding(rest, l);
        CountCons(x, Excluding(rest, l), p);
      }
    }
  }

  /** `total_products` counts every owned row, duplicates included, and nothing else. */
  lemma OwnedProductsCounts(ps: seq<Product>, user: UserId, p: Product)
    ensures multiset(OwnedProducts(ps, user))[p] == if p.category.owner == user then multiset(ps)[p] else 0
  {
    WhereCounts(ps, OwnerIs(user), p);
  }

  /** `total_categories` counts every owned category and nothing else. */
  lemma {:induction false} OwnedCategoriesCounts(cs: seq<Category>, user: UserId, c: Category)
    ensures multiset(OwnedCategories(cs, user))[c] == if c.owner == user then multiset(cs)[c] else 0
  {
    if cs != [] {
      var x, rest := cs[0], cs[1..];
      OwnedCategoriesCounts(rest, user, c);
      assert cs == [x] + rest;
      CountCons(x, rest, c);
      if x.owner == user {
        CountCons(x, OwnedCategories(rest, user), c);
      }
    }
  }

  /** Primary keys are unique, as the database guarantees. */
  ghost predicate UniqueProductIds(ps: seq<Product>) {
    forall i, j :: 0 <= i < |ps| && 0 <= j < |ps| && ps[i].id == ps[j].id ==> i == j
  }

  ghost predicate UniqueCategoryIds(cs: seq<Category>) {
    forall i, j :: 0 <= i < |cs| && 0 <= j < |cs| && cs[i].id == cs[j].id ==> i == j
  }

  /** `queryset.get(pk=id)` on products: the row with that key, or NotFound. */
  function FindProduct(ps: seq<Product>, id: int): (r: Result<Product, Error>)
    ensures r.Ok? ==> r.value in ps && r.value.id == id
    ensures r.Err? <==> forall p :: p in ps ==> p.id != id
    ensures r.Err? ==> r.error == NotFound
  {
    if ps == [] then Err(NotFound)
    else if ps[0].id == id then Ok(ps[0])
    else FindProduct(ps[1..], id)
  }

  /** `queryset.get(pk=id)` on categories: the row with that key, or NotFound. */
  function FindCategory(cs: seq<Category>, id: int): (r: Result<Category, Error>)
    ensures r.Ok? ==> r.value in cs && r.value.id == id
    ensures r.Err? <==> forall c :: c in cs ==> c.id != id
    ensures r.Err? ==> r.error == NotFound
  {
    if cs == [] then Err(NotFound)
    else if cs[0].id == id then Ok(cs[0])
    else FindCategory(cs[1..], id)
  }
}
