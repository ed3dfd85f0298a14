/**
 * The aggregates of the dashboard: SQL SUM with its NULL over no rows, the
 * `value or 0` defaulting, and the `values('category__name')` group-by of
 * stock value sorted by descending total.
 */
module Aggregates {
  import opened Wrappers
  import opened Domain

  /** The expressions summed by `products.aggregate(...)`. */
  datatype Expr =
    | QuantityColumn      // 'quantity'
    | StockValue          // F('price') * F('quantity'), in cents
    | CountIf(l: Lookup)  // Case(When(l, then=1), default=0)

  function Eval(p: Product, e: Expr): int {
    match e
    case QuantityColumn => p.quantity
    case StockValue => p.price * p.quantity
    case CountIf(l) => if Matches(p, l) then 1 else 0
  }

  /** The mathematical sum of `e` over the rows; 0 when there are none. */
  function Total(ps: seq<Product>, e: Expr): int {
    if ps == [] then 0 else Eval(ps[0], e) + Total(ps[1..], e)
  }

  /** Python's `value or 0`, which turns a NULL aggregate into 0. */
  function OrZero(v: Option<int>): int {
    v.GetOr(0)
  }

  /** SQL `SUM(e)`: NULL over no rows, the sum of the rows otherwise. */
  function SqlSum(ps: seq<Product>, e: Expr): (r: Option<int>)
    ensures r.None? <==> ps == []
    ensures OrZero(r) == Total(ps, e)
  {
    if ps == [] then None else Some(Eval(ps[0], e) + OrZero(SqlSum(ps[1..], e)))
  }

  /** Summing the indicator `Case(When(l, then=1), default=0)` counts the rows `filter(l)` keeps. */
  lemma {:induction false} CountIfIsSize(ps: seq<Product>, l: Lookup)
    ensures Total(ps, CountIf(l)) == |Where(ps, l)|
  {
    if ps != [] {
      CountIfIsSize(ps[1..], l);
    }
  }

  /** Every row either satisfies `l` or not, so the two sums add up to the whole. */
  lemma {:induction false} TotalSplits(ps: seq<Product>, l: Lookup, e: Expr)
    ensures Total(ps, e) == Total(Where(ps, l), e) + Total(Excluding(ps, l), e)
  {
    if ps != [] {
      TotalSplits(ps[1..], l, e);
    }
  }

  /** Over well-formed products, every summed expression is non-negative. */
  lemma {:induction false} TotalNonNegative(ps: seq<Product>, e: Expr)
    requires forall p :: p in ps ==> WellFormed(p)
    ensures Total(ps, e) >= 0
  {
    if ps != [] {
      assert WellFormed(ps[0]);
      TotalNonNegative(ps[1..], e);
    }
  }

  // ---------------------------------------------------------------------------
  // value_by_category
  // ---------------------------------------------------------------------------

  /** One row of `values('category__name').annotate(total_value=...)`. */
  datatype CategoryValue = CategoryValue(category: string, totalValue: int)

  /** The category names of the products: the grouping keys. */
  function CategoryNames(ps: seq<Product>): set<string> {
    if ps == [] then {} else {ps[0].category.name} + CategoryNames(ps[1..])
  }

  /** The names of the groups. */
  function EntryNames(gs: seq<CategoryValue>): set<string> {
    if gs == [] then {} else {gs[0].category} + EntryNames(gs[1..])
  }

  /** A name is a grouping key exactly when some product's category carries it. */
  lemma {:induction false} CategoryNamesAre(ps: seq<Product>, n: string)
    ensures n in CategoryNames(ps) <==> exists p :: p in ps && p.category.name == n
  {
    if ps != [] {
      CategoryNamesAre(ps[1..], n);
      assert forall p :: p in ps <==> p == ps[0] || p in ps[1..];
    }
  }

  lemma {:induction false} EntryNameOf(gs: seq<CategoryValue>, g: CategoryValue)
    requires g in gs
    ensures g.category in EntryNames(gs)
  {
    if g != gs[0] {
      EntryNameOf(gs[1..], g);
    }
  }

  /** No two groups share a name: each entry's name appears in no later entry. */
  ghost predicate DistinctNames(gs: seq<CategoryValue>) {
    gs == [] || (gs[0].category !in EntryNames(gs[1..]) && DistinctNames(gs[1..]))
  }

  function SumTotals(gs: seq<CategoryValue>): int {
    if gs == [] then 0 else gs[0].totalValue + SumTotals(gs[1..])
  }

  /** The summed totals of the groups named `n` (0 when there is none). */
  function TotalFor(gs: seq<CategoryValue>, n: string): int {
    if gs == [] then 0
    else (if gs[0].category == n then gs[0].totalValue else 0) + TotalFor(gs[1..], n)
  }

  /** The reference value of a group: the stock value of the products whose category is named `n`. */
  function GroupTotal(ps: seq<Product>, n: string): int {
    Total(Where(ps, CategoryNameIs(n)), StockValue)
  }

  lemma {:induction false} TotalForAbsent(gs: seq<CategoryValue>, n: string)
    requires n !in EntryNames(gs)
    ensures TotalFor(gs, n) == 0
  {
    if gs != [] {
      TotalForAbsent(gs[1..], n);
    }
  }

  /** When names are distinct, the total recorded for a name is that of its single entry. */
  lemma {:induction false} DistinctTotals(gs: seq<CategoryValue>, g: CategoryValue)
    requires DistinctNames(gs) && g in gs
    ensures TotalFor(gs, g.category) == g.totalValue
  {
    if g == gs[0] {
      TotalForAbsent(gs[1..], g.category);
    } else {
      EntryNameOf(gs[1..], g);
      DistinctTotals(gs[1..], g);
    }
  }

  /** Adds `v` to the group named `n`, opening a new group at the end when there is none. */
  function AddToGroup(gs: seq<CategoryValue>, n: string, v: int): (r: seq<CategoryValue>)
    ensures EntryNames(r) == EntryNames(gs) + {n}
    ensures DistinctNames(gs) ==> DistinctNames(r)
    ensures SumTotals(r) == SumTotals(gs) + v
    ensures forall m :: TotalFor(r, m) == TotalFor(gs, m) + (if m == n then v else 0)
  {
    if gs == [] then [CategoryValue(n, v)]
    else if gs[0].category == n then
      assert [CategoryValue(n, gs[0].totalValue + v)][1..] + gs[1..] == gs[1..];
      [CategoryValue(n, gs[0].totalValue + v)] + gs[1..]
    else
      var rest := AddToGroup(gs[1..], n, v);
      assert ([gs[0]] + rest)[1..] == rest;
      [gs[0]] + rest
  }

  /** `products.values('category__name').annotate(total_value=Sum(F('price') * F('quantity')))`. */
  function GroupByCategoryName(ps: seq<Product>): (r: seq<CategoryValue>)
    ensures EntryNames(r) == CategoryNames(ps)
    ensures DistinctNames(r)
    ensures SumTotals(r) == Total(ps, StockValue)
    ensures forall m :: TotalFor(r, m) == GroupTotal(ps, m)
  {
    if ps == [] then []
    else AddToGroup(GroupByCategoryName(ps[1..]), ps[0].category.name, Eval(ps[0], StockValue))
  }

  ghost predicate SortedByValueDesc(gs: seq<CategoryValue>) {
    forall i, j :: 0 <= i < j < |gs| ==> gs[i].totalValue >= gs[j].totalValue
  }

  lemma ConsSortedByValue(h: CategoryValue, rest: seq<CategoryValue>)
    requires SortedByValueDesc(rest)
    requires forall x :: x in rest ==> h.totalValue >= x.totalValue
    ensures SortedByValueDesc([h] + rest)
  {
    var r := [h] + rest;
    forall i, j | 0 <= i < j < |r| ensures r[i].totalValue >= r[j].totalValue {
      if i > 0 {
        assert r[i] == rest[i - 1] && r[j] == rest[j - 1];
      } else {
        assert r[j] == rest[j - 1];
      }
    }
  }

  /** Inserts `g` before the first entry whose total it reaches. */
  function InsertByValue(g: CategoryValue, gs: seq<CategoryValue>): seq<CategoryValue> {
    if gs == [] || g.totalValue >= gs[0].totalValue then [g] + gs
    else [gs[0]] + InsertByValue(g, gs[1..])
  }

  /** Insertion adds `g` and keeps every entry. */
  lemma {:induction false} InsertByValuePermutes(g: CategoryValue, gs: seq<CategoryValue>)
    ensures multiset(InsertByValue(g, gs)) == multiset(gs) + multiset{g}
    ensures forall x :: x in InsertByValue(g, gs) <==> x == g || x in gs
  {
    if !(gs == [] || g.totalValue >= gs[0].totalValue) {
      InsertByValuePermutes(g, gs[1..]);
      assert gs == [gs[0]] + gs[1..];
    }
  }

  /** Insertion into a list sorted by descending total keeps it sorted. */
  lemma {:induction false} InsertByValueSorted(g: CategoryValue, gs: seq<CategoryValue>)
    requires SortedByValueDesc(gs)
    ensures SortedByValueDesc(InsertByValue(g, gs))
  {
    if gs == [] || g.totalValue >= gs[0].totalValue {
      ConsSortedByValue(g, gs);
    } else {
      var rest := InsertByValue(g, gs[1..]);
      InsertByValueSorted(g, gs[1..]);
      InsertByValuePermutes(g, gs[1..]);
      assert forall x :: x in gs[1..] ==> gs[0].totalValue >= x.totalValue by {
        forall x | x in gs[1..] ensures gs[0].totalValue >= x.totalValue {
          var j :| 0 <= j < |gs[1..]| && gs[1..][j] == x;
          assert gs[j + 1] == x;
        }
      }
      ConsSortedByValue(gs[0], rest);
    }
  }

  /** Inserting an entry adds its name, its total and, for its name, its value, to the groups. */
  lemma {:induction false} InsertKeepsGroups(g: CategoryValue, gs: seq<CategoryValue>)
    ensures EntryNames(InsertByValue(g, gs)) == EntryNames(gs) + {g.category}
    ensures DistinctNames(gs) && g.category !in EntryNames(gs) ==> DistinctNames(InsertByValue(g, gs))
    ensures SumTotals(InsertByValue(g, gs)) == SumTotals(gs) + g.totalValue
    ensures forall m :: TotalFor(InsertByValue(g, gs), m) == TotalFor(gs, m) + (if m == g.category then g.totalValue else 0)
  {
    var r := InsertByValue(g, gs);
    if gs == [] || g.totalValue >= gs[0].totalValue {
      assert r[1..] == gs;
    } else {
      var rest := InsertByValue(g, gs[1..]);
      InsertKeepsGroups(g, gs[1..]);
      assert r[1..] == rest;
    }
  }

  /** `.order_by('-total_value')`; among equal totals the grouping order is kept. */
  function SortByValueDesc(gs: seq<CategoryValue>): (r: seq<CategoryValue>)
    ensures SortedByValueDesc(r)
    ensures multiset(r) == multiset(gs)
  {
    if gs == [] then []
    else
      var rest := SortByValueDesc(gs[1..]);
      InsertByValueSorted(gs[0], rest);
      InsertByValuePermutes(gs[0], rest);
      assert gs == [gs[0]] + gs[1..];
      InsertByValue(gs[0], rest)
  }

  /** Sorting keeps the set of group names. */
  lemma {:induction false} SortKeepsNames(gs: seq<CategoryValue>)
    ensures EntryNames(SortByValueDesc(gs)) == EntryNames(gs)
  {
    if gs != [] {
      SortKeepsNames(gs[1..]);
      InsertKeepsGroups(gs[0], SortByValueDesc(gs[1..]));
    }
  }

  /** Sorting keeps the group names distinct. */
  lemma {:induction false} SortKeepsDistinct(gs: seq<CategoryValue>)
    requires DistinctNames(gs)
    ensures DistinctNames(SortByValueDesc(gs))
  {
    if gs != [] {
      SortKeepsNames(gs[1..]);
      SortKeepsDistinct(gs[1..]);
      InsertKeepsGroups(gs[0], SortByValueDesc(gs[1..]));
    }
  }

  /** Sorting keeps the overall sum and the total recorded for every name. */
  lemma {:induction false} SortKeepsTotals(gs: seq<CategoryValue>)
    ensures SumTotals(SortByValueDesc(gs)) == SumTotals(gs)
    ensures forall m :: TotalFor(SortByValueDesc(gs), m) == TotalFor(gs, m)
  {
    if gs != [] {
      SortKeepsTotals(gs[1..]);
      InsertKeepsGroups(gs[0], SortByValueDesc(gs[1..]));
    }
  }

  /**
   * `value_by_category`: one entry per distinct category name among the
   * products (two categories with the same name share one entry), each
   * holding the stock value of the products under that name, in
   * non-increasing order of value, the entries adding up to the total
   * stock value.
   */
  function ValueByCategory(ps: seq<Product>): (r: seq<CategoryValue>)
    ensures EntryNames(r) == CategoryNames(ps)
    ensures DistinctNames(r)
    ensures forall g :: g in r ==> g.totalValue == GroupTotal(ps, g.category)
    ensures SortedByValueDesc(r)
    ensures SumTotals(r) == Total(ps, StockValue)
  {
    var r := SortByValueDesc(GroupByCategoryName(ps));
    SortKeepsNames(GroupByCategoryName(ps));
    SortKeepsDistinct(GroupByCategoryName(ps));
    SortKeepsTotals(GroupByCategoryName(ps));
    assert forall g :: g in r ==> g.totalValue == GroupTotal(ps, g.category) by {
      forall g | g in r ensures g.totalValue == GroupTotal(ps, g.category) {
        DistinctTotals(r, g);
      }
    }
    r
  }
}
