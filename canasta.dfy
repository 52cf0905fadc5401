/** The basket service (service/CanastaService.java): an ordered list of
    items kept in memory, a fail-fast check run before every insertion, and
    the aggregates shown to the user (total, average unit price, the three
    most expensive lines). */
module Canasta {
  import opened Items
  import opened Text
  import opened PriceOrder

  /** The three reasons for refusing an item, in the order they are checked. */
  datatype AddError = BlankName | NonPositivePrice | NonPositiveQuantity {

    /** The message of the IllegalArgumentException the service throws; it
        names the field at fault. */
    function Message(): (m: string)
      ensures this == BlankName ==> "El nombre" <= m
      ensures this == NonPositivePrice ==> "El precio" <= m
      ensures this == NonPositiveQuantity ==> "La cantidad" <= m
    {
      match this
      case BlankName => "El nombre del producto no puede estar vac\U{ed}o"
      case NonPositivePrice => "El precio debe ser mayor a cero"
      case NonPositiveQuantity => "La cantidad debe ser mayor a cero"
    }
  }

  /** Each message names one cause only. */
  lemma MessagesDistinguishCauses(a: AddError, b: AddError)
    ensures a.Message() == b.Message() <==> a == b
  {
    if a != b {
      var ma, mb := a.Message(), b.Message();
      assert ma[0] != mb[0] || ma[3] != mb[3];
    }
  }

  /** Success, or the exception `agregarItem` would throw. */
  datatype Outcome = Pass | Fail(error: AddError)

  /** An item the basket accepts: a non-null name that is not all blanks,
      a positive price and a positive quantity. This is exactly the item on
      which none of the three guards of `validarItem` fires, with the name
      guard written as the source writes it, `trim().isEmpty()`. */
  predicate IsValid(it: Item)
    ensures IsValid(it) <==>
              it.name.Some? && Trim(it.name.value) != [] && it.price > 0.0 && it.qty > 0
  {
    match it.name
    case None => false
    case Some(n) =>
      TrimEmptyIffBlank(n);
      !IsBlank(n) && it.price > 0.0 && it.qty > 0
  }

  predicate AllValid(s: seq<Item>) {
    forall i :: 0 <= i < |s| ==> IsValid(s[i])
  }

  lemma AllValidAppend(s: seq<Item>, x: Item)
    requires AllValid(s) && IsValid(x)
    ensures AllValid(s + [x])
  {
    forall i | 0 <= i < |s + [x]| ensures IsValid((s + [x])[i]) {
      if i < |s| {
        assert (s + [x])[i] == s[i];
      }
    }
  }

  /** `validarItem`: the name, then the price, then the quantity; the first
      check that fails decides the error. */
  function Validate(it: Item): (r: Outcome)
    ensures r == Pass <==> IsValid(it)
    ensures it.name.None? || IsBlank(it.name.value) ==> r == Fail(BlankName)
    ensures it.name.Some? && !IsBlank(it.name.value) && it.price <= 0.0 ==>
              r == Fail(NonPositivePrice)
    ensures it.name.Some? && !IsBlank(it.name.value) && it.price > 0.0 && it.qty <= 0 ==>
              r == Fail(NonPositiveQuantity)
  {
    match it.name
    case None => Fail(BlankName)
    case Some(n) =>
      TrimEmptyIffBlank(n);
      if Trim(n) == [] then Fail(BlankName)
      else if it.price <= 0.0 then Fail(NonPositivePrice)
      else if it.qty <= 0 then Fail(NonPositiveQuantity)
      else Pass
  }

  /** An item left as the no-argument constructor made it is refused for
      its name. */
  lemma DefaultItemRejected()
    ensures Validate(Item(None, 0.0, 0)) == Fail(BlankName)
  {
  }

  // ---------------------------------------------------------------- total

  /** The sum of the subtotals, taken left to right as the stream does;
      0 for an empty list, and never negative when no subtotal is. */
  function SumSubtotals(s: seq<Item>): (r: real)
    ensures s == [] ==> r == 0.0
    ensures (forall i :: 0 <= i < |s| ==> s[i].Subtotal() >= 0.0) ==> r >= 0.0
  {
    if s == [] then 0.0
    else
      var init := s[..|s| - 1];
      assert forall i :: 0 <= i < |init| ==> init[i] == s[i];
      SumSubtotals(init) + s[|s| - 1].Subtotal()
  }

  lemma {:induction false} SumSubtotalsConcat(a: seq<Item>, b: seq<Item>)
    ensures SumSubtotals(a + b) == SumSubtotals(a) + SumSubtotals(b)
  {
    if b == [] {
      assert a + b == a;
    } else {
      assert (a + b)[..|a + b| - 1] == a + b[..|b| - 1];
      SumSubtotalsConcat(a, b[..|b| - 1]);
    }
  }

  // ---------------------------------------------------------------- average

  /** The sum of the unit prices (not the subtotals); 0 for an empty list.
      Its bounds are `SumPricesBounds`. */
  function SumPrices(s: seq<Item>): (r: real)
    ensures s == [] ==> r == 0.0
  {
    if s == [] then 0.0 else SumPrices(s[..|s| - 1]) + s[|s| - 1].price
  }

  /** The mean unit price; exactly 0 for an empty list. */
  function MeanPrice(s: seq<Item>): (m: real)
    ensures s == [] ==> m == 0.0
    ensures s != [] ==> m * |s| as real == SumPrices(s)
  {
    if s == [] then 0.0 else SumPrices(s) / |s| as real
  }

  /** Each line of a stored basket costs at least its unit price, so the
      total is never below the sum of the unit prices, which is positive
      once there is an item. */
  lemma {:induction false} TotalCoversPrices(s: seq<Item>)
    requires AllValid(s)
    ensures SumSubtotals(s) >= SumPrices(s) >= 0.0
    ensures s != [] ==> SumPrices(s) > 0.0
  {
    if s != [] {
      var init := s[..|s| - 1];
      assert AllValid(init) by {
        forall i | 0 <= i < |init| ensures IsValid(init[i]) {
          assert init[i] == s[i];
        }
      }
      TotalCoversPrices(init);
      assert IsValid(s[|s| - 1]);
      SubtotalAtLeastPrice(s[|s| - 1]);
    }
  }

  lemma {:induction false} SumPricesBounds(s: seq<Item>, lo: real, hi: real)
    requires forall i :: 0 <= i < |s| ==> lo <= s[i].price <= hi
    ensures |s| as real * lo <= SumPrices(s) <= |s| as real * hi
  {
    if s != [] {
      var init := s[..|s| - 1];
      assert forall i :: 0 <= i < |init| ==> init[i] == s[i];
      SumPricesBounds(init, lo, hi);
      var n := |init| as real;
      assert |s| as real * lo == n * lo + lo;
      assert |s| as real * hi == n * hi + hi;
    }
  }

  /** Multiplying by a positive factor keeps the order of two reals. */
  lemma ScaleCancel(a: real, b: real, n: real)
    requires n > 0.0
    ensures a * n <= b * n <==> a <= b
  {
    assert b * n - a * n == (b - a) * n;
  }

  /** The average lies between the cheapest and the dearest unit price. */
  lemma MeanBetween(s: seq<Item>, lo: real, hi: real)
    requires s != []
    requires forall i :: 0 <= i < |s| ==> lo <= s[i].price <= hi
    ensures lo <= MeanPrice(s) <= hi
  {
    SumPricesBounds(s, lo, hi);
    var n, m := |s| as real, MeanPrice(s);
    ScaleCancel(lo, m, n);
    ScaleCancel(m, hi, n);
  }

  /** A stored basket with at least one line has a positive average. */
  lemma MeanOfValidPositive(s: seq<Item>)
    requires AllValid(s) && s != []
    ensures MeanPrice(s) > 0.0
  {
    TotalCoversPrices(s);
    MeanOfPositiveSum(s);
  }

  /** A positive sum of unit prices has a positive mean. */
  lemma MeanOfPositiveSum(s: seq<Item>)
    requires s != [] && SumPrices(s) > 0.0
    ensures MeanPrice(s) > 0.0
  {
    ScaleCancel(MeanPrice(s), 0.0, |s| as real);
  }

  // ---------------------------------------------------------------- top three

  /** How many lines `obtenerProductosMasCostosos` keeps. */
  const TopCount: nat := 3

  /** The first `n` items of the stable most-expensive-first order: as many
      as `n` allows and the list holds, all drawn from the list. */
  function TopByPrice(s: seq<Item>, n: nat): (r: seq<Item>)
    ensures |r| == if n < |s| then n else |s|
    ensures multiset(r) <= multiset(s)
  {
    SortSpec(s);
    var sorted, k := SortByPriceDesc(s), if n < |s| then n else |s|;
    assert sorted == sorted[..k] + sorted[k..];
    sorted[..k]
  }

  /** In a list sorted dearest first, nothing after position `k` is dearer
      than anything before it. */
  lemma CutKeepsDearest(sorted: seq<Item>, k: nat)
    requires SortedDesc(sorted) && k <= |sorted|
    ensures forall x: Item, y: Item ::
              x in multiset(sorted[k..]) && y in sorted[..k] ==> x.price <= y.price
  {
    var top, rest := sorted[..k], sorted[k..];
    forall x: Item, y: Item | x in multiset(rest) && y in top ensures x.price <= y.price {
      var j :| 0 <= j < |rest| && rest[j] == x;
      var i :| 0 <= i < |top| && top[i] == y;
      assert sorted[i] == y && sorted[k + j] == x;
    }
  }

  /** The top list is dearest first. */
  lemma TopByPriceSorted(s: seq<Item>, n: nat)
    ensures SortedDesc(TopByPrice(s, n))
  {
    SortSpec(s);
  }

  /** No item left out of the top list is dearer than an item in it. */
  lemma TopByPriceLeavesNoDearer(s: seq<Item>, n: nat)
    ensures forall x: Item, y: Item ::
              x in multiset(s) - multiset(TopByPrice(s, n)) && y in TopByPrice(s, n) ==>
              x.price <= y.price
  {
    var sorted := SortByPriceDesc(s);
    SortSpec(s);
    var k := if n < |s| then n else |s|;
    var top, rest := sorted[..k], sorted[k..];
    assert sorted == top + rest;
    assert multiset(s) - multiset(top) == multiset(rest);
    CutKeepsDearest(sorted, k);
  }

  /** Items of equal price enter the top list in insertion order: for each
      price, the top list holds the first ones added, in the order added. */
  lemma TopByPriceKeepsTieOrder(s: seq<Item>, n: nat)
    ensures forall p :: WithPrice(TopByPrice(s, n), p) <= WithPrice(s, p)
  {
    var k := if n < |s| then n else |s|;
    SortSpec(s);
    forall p ensures WithPrice(TopByPrice(s, n), p) <= WithPrice(s, p) {
      WithPricePrefix(SortByPriceDesc(s), k, p);
      SortIsStable(s, p);
    }
  }

  // ---------------------------------------------------------------- the service

  /** The Spring service object: its one field is the list of stored items. */
  class CanastaService {
    var items: seq<Item>

    /** Every stored item passed validation. */
    ghost predicate Valid()
      reads this
    {
      AllValid(items)
    }

    constructor ()
      ensures items == [] && Valid()
    {
      items := [];
    }

    /** `agregarItem`: validate, then append a snapshot of the item. A refused
        item leaves the list exactly as it was. */
    method AddItem(item: ItemCanasta) returns (r: Outcome)
      requires Valid()
      modifies this
      ensures Valid()
      ensures r == Validate(item.Value())
      ensures r.Pass? ==> items == old(items) + [item.Value()]
      ensures r.Fail? ==> items == old(items)
      ensures r.Pass? ==> |items| == old(|items|) + 1
      ensures r.Pass? ==> SumSubtotals(items) == old(SumSubtotals(items)) + item.Subtotal()
    {
      r := Validate(item.Value());
      if r.Pass? {
        var v := item.Value();
        SumSubtotalsConcat(items, [v]);
        AllValidAppend(items, v);
        items := items + [v];
      }
    }

    /** `obtenerItems`: a copy of the list, in insertion order. */
    method Items() returns (s: seq<Item>)
      ensures s == items
    {
      s := items;
    }

    /** `obtenerCantidadItems`. */
    method Count() returns (n: nat)
      ensures n == |items|
    {
      n := |items|;
    }

    /** `calcularTotal`: the sum of the subtotals, 0 for an empty basket. */
    method Total() returns (t: real)
      ensures t == SumSubtotals(items)
      ensures items == [] ==> t == 0.0
      ensures Valid() ==> t >= SumPrices(items) >= 0.0
    {
      t := SumSubtotals(items);
      if Valid() {
        TotalCoversPrices(items);
      }
    }

    /** `calcularPromedio`: the mean unit price, 0 for an empty basket. */
    method Average() returns (m: real)
      ensures m == MeanPrice(items)
      ensures items == [] ==> m == 0.0
      ensures Valid() && items != [] ==> m > 0.0
    {
      if items == [] {
        return 0.0;
      }
      m := SumPrices(items) / |items| as real;
      if Valid() {
        MeanOfValidPositive(items);
      }
    }

    /** `obtenerProductosMasCostosos`: the three dearest items, dearest first. */
    method MostExpensive() returns (r: seq<Item>)
      ensures r == TopByPrice(items, TopCount)
      ensures |r| == if |items| < TopCount then |items| else TopCount
      ensures SortedDesc(r) && multiset(r) <= multiset(items)
    {
      r := TopByPrice(items, TopCount);
      TopByPriceSorted(items, TopCount);
    }

    /** `limpiarCanasta`: empties the list; clearing an empty basket changes
        nothing. */
    method Clear()
      modifies this
      ensures items == [] && Valid()
      ensures SumSubtotals(items) == 0.0
    {
      items := [];
    }
  }
}
