/**
 * The `ordering` query parameter of the product list: a whitelist of three
 * fields, an optional leading '-' for descending order, and the view's own
 * `order_by('-created_at')` when no accepted term is given.
 */
module Ordering {
  import opened Wrappers
  import opened Domain

  datatype OrderField = Price | Quantity | CreatedAt

  datatype Order = Order(field: OrderField, descending: bool)

  /** Newest first: the queryset's own `order_by('-created_at')`. */
  const DefaultOrder := Order(CreatedAt, true)

  function FieldName(f: OrderField): string {
    match f
    case Price => "price"
    case Quantity => "quantity"
    case CreatedAt => "created_at"
  }

  /** The query-string term that selects `o`. */
  function OrderTerm(o: Order): string {
    (if o.descending then "-" else "") + FieldName(o.field)
  }

  /** The six terms `ordering_fields = ['price', 'quantity', 'created_at']` admits. */
  const AcceptedTerms: set<string> :=
    {"price", "-price", "quantity", "-quantity", "created_at", "-created_at"}

  function ParseField(name: string): (r: Option<OrderField>)
    ensures r.Some? ==> FieldName(r.value) == name
    ensures r.None? <==> name !in {"price", "quantity", "created_at"}
  {
    if name == "price" then Some(Price)
    else if name == "quantity" then Some(Quantity)
    else if name == "created_at" then Some(CreatedAt)
    else None
  }

  /**
   * An accepted term selects its field and direction; no term, or a term
   * naming any other field, leaves the default order in place.
   */
  function ParseOrder(param: Option<string>): (o: Order)
    ensures param.Some? && param.value in AcceptedTerms ==> OrderTerm(o) == param.value
    ensures !(param.Some? && param.value in AcceptedTerms) ==> o == DefaultOrder
  {
    if param.None? then DefaultOrder
    else
      var term := param.value;
      var descending := |term| > 0 && term[0] == '-';
      var name := if descending then term[1..] else term;
      match ParseField(name)
      case Some(f) =>
        assert term == OrderTerm(Order(f, descending));
        OrderTermAccepted(Order(f, descending));
        Order(f, descending)
      case None => DefaultOrder
  }

  /** Every order's term is one of the accepted ones. */
  lemma OrderTermAccepted(o: Order)
    ensures OrderTerm(o) in AcceptedTerms
  {
    match o.field
    case Price =>
      assert OrderTerm(o) == if o.descending then "-price" else "price";
    case Quantity =>
      assert OrderTerm(o) == if o.descending then "-quantity" else "quantity";
    case CreatedAt =>
      assert OrderTerm(o) == if o.descending then "-created_at" else "created_at";
  }

  /** Parsing the term of an order gives that order back. */
  lemma OrderTermRoundTrip(o: Order)
    ensures ParseOrder(Some(OrderTerm(o))) == o
  {
    var t := OrderTerm(o);
    if o.descending {
      assert t[0] == '-' && t[1..] == FieldName(o.field);
    } else {
      assert t == FieldName(o.field);
      assert |t| > 0 && t[0] != '-' by {
        match o.field
        case Price => assert t[0] == 'p';
        case Quantity => assert t[0] == 'q';
        case CreatedAt => assert t[0] == 'c';
      }
    }
  }

  function SortKey(p: Product, f: OrderField): int {
    match f
    case Price => p.price
    case Quantity => p.quantity
    case CreatedAt => p.createdAt
  }

  /** `a` may come before `b` under `o`. */
  predicate Before(a: Product, b: Product, o: Order) {
    if o.descending then SortKey(a, o.field) >= SortKey(b, o.field)
    else SortKey(a, o.field) <= SortKey(b, o.field)
  }

  ghost predicate SortedBy(ps: seq<Product>, o: Order) {
    forall i, j :: 0 <= i < j < |ps| ==> Before(ps[i], ps[j], o)
  }

  lemma ConsSorted(h: Product, rest: seq<Product>, o: Order)
    requires SortedBy(rest, o)
    requires forall x :: x in rest ==> Before(h, x, o)
    ensures SortedBy([h] + rest, o)
  {
    var r := [h] + rest;
    forall i, j | 0 <= i < j < |r| ensures Before(r[i], r[j], o) {
      if i > 0 {
        assert r[i] == rest[i - 1] && r[j] == rest[j - 1];
      } else {
        assert r[j] == rest[j - 1];
      }
    }
  }

  /** Inserts `p` before the first row it may precede. */
  function InsertProduct(p: Product, ps: seq<Product>, o: Order): seq<Product> {
    if ps == [] || Before(p, ps[0], o) then [p] + ps
    else [ps[0]] + InsertProduct(p, ps[1..], o)
  }

  /** Insertion adds `p` and keeps every row. */
  lemma {:induction false} InsertProductPermutes(p: Product, ps: seq<Product>, o: Order)
    ensures multiset(InsertProduct(p, ps, o)) == multiset(ps) + multiset{p}
    ensures forall x :: x in InsertProduct(p, ps, o) <==> x == p || x in ps
  {
    if !(ps == [] || Before(p, ps[0], o)) {
      InsertProductPermutes(p, ps[1..], o);
      assert ps == [ps[0]] + ps[1..];
    }
  }

  /** Insertion into a sorted list keeps it sorted. */
  lemma {:induction false} InsertProductSorted(p: Product, ps: seq<Product>, o: Order)
    requires SortedBy(ps, o)
    ensures SortedBy(InsertProduct(p, ps, o), o)
  {
    if ps == [] || Before(p, ps[0], o) {
      ConsSorted(p, ps, o);
    } else {
      var rest := InsertProduct(p, ps[1..], o);
      InsertProductSorted(p, ps[1..], o);
      InsertProductPermutes(p, ps[1..], o);
      assert forall x :: x in ps[1..] ==> Before(ps[0], x, o) by {
        forall x | x in ps[1..] ensures Before(ps[0], x, o) {
          var j :| 0 <= j < |ps[1..]| && ps[1..][j] == x;
          assert ps[j + 1] == x;
        }
      }
      ConsSorted(ps[0], rest, o);
    }
  }

  /** `queryset.order_by(field)`: the same rows, sorted by `o`; rows with equal keys keep their order. */
  function SortProducts(ps: seq<Product>, o: Order): (r: seq<Product>)
    ensures SortedBy(r, o)
    ensures multiset(r) == multiset(ps)
  {
    if ps == [] then []
    else
      var rest := SortProducts(ps[1..], o);
      InsertProductSorted(ps[0], rest, o);
      InsertProductPermutes(ps[0], rest, o);
      assert ps == [ps[0]] + ps[1..];
      InsertProduct(ps[0], rest, o)
  }
}
