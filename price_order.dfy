/** Ordering items by unit price, most expensive first, as a stable sort:
    the order of `items.stream().sorted(comparingDouble(getPrecio).reversed())`
    in service/CanastaService.java. Stream sorting of an ordered stream is
    stable, so items of equal price keep their insertion order. */
module PriceOrder {
  import opened Items

  /** Non-increasing by price. */
  predicate SortedDesc(s: seq<Item>) {
    forall i, j :: 0 <= i < j < |s| ==> s[i].price >= s[j].price
  }

  /** The items of `s` priced exactly `p`, in their order in `s`. */
  function WithPrice(s: seq<Item>, p: real): (r: seq<Item>)
    ensures |r| <= |s|
    ensures forall i :: 0 <= i < |r| ==> r[i].price == p && r[i] in s
  {
    if s == [] then []
    else if s[0].price == p then [s[0]] + WithPrice(s[1..], p)
    else WithPrice(s[1..], p)
  }

  /** Putting an item no cheaper than the head in front keeps the order. */
  lemma SortedCons(h: Item, s: seq<Item>)
    ensures SortedDesc(s) && (s == [] || h.price >= s[0].price) ==> SortedDesc([h] + s)
  {
    if SortedDesc(s) && (s == [] || h.price >= s[0].price) {
      forall i, j | 0 <= i < j < |[h] + s| ensures ([h] + s)[i].price >= ([h] + s)[j].price {
        if i == 0 && j > 1 {
          assert s[0].price >= s[j - 1].price;
        }
      }
    }
  }

  /** Puts `x` in front of the first element of `t` that is not dearer
      than `x`, so that `x` precedes every element of its own price. */
  function Insert(x: Item, t: seq<Item>): (r: seq<Item>)
    ensures |r| == |t| + 1
  {
    if t == [] || t[0].price <= x.price then [x] + t
    else [t[0]] + Insert(x, t[1..])
  }

  /** Insertion sort by price, most expensive first. */
  function SortByPriceDesc(s: seq<Item>): (r: seq<Item>)
    ensures |r| == |s|
  {
    if s == [] then [] else Insert(s[0], SortByPriceDesc(s[1..]))
  }

  /** Inserting adds `x` and nothing else, starts with `x` or with the old
      head, and keeps a sorted list sorted. */
  lemma {:induction false} InsertSpec(x: Item, t: seq<Item>)
    ensures multiset(Insert(x, t)) == multiset(t) + multiset{x}
    ensures Insert(x, t)[0] == x || (t != [] && Insert(x, t)[0] == t[0])
    ensures SortedDesc(t) ==> SortedDesc(Insert(x, t))
  {
    if t == [] || t[0].price <= x.price {
      SortedCons(x, t);
    } else {
      assert t == [t[0]] + t[1..];
      assert SortedDesc(t) ==> SortedDesc(t[1..]) && (|t| == 1 || t[0].price >= t[1].price);
      InsertSpec(x, t[1..]);
      SortedCons(t[0], Insert(x, t[1..]));
    }
  }

  /** The sort returns a permutation of its input, non-increasing by price. */
  lemma {:induction false} SortSpec(s: seq<Item>)
    ensures multiset(SortByPriceDesc(s)) == multiset(s)
    ensures SortedDesc(SortByPriceDesc(s))
  {
    if s != [] {
      assert s == [s[0]] + s[1..];
      SortSpec(s[1..]);
      InsertSpec(s[0], SortByPriceDesc(s[1..]));
    }
  }

  lemma {:induction false} WithPriceConcat(a: seq<Item>, b: seq<Item>, p: real)
    ensures WithPrice(a + b, p) == WithPrice(a, p) + WithPrice(b, p)
  {
    if a == [] {
      assert a + b == b;
    } else {
      assert (a + b)[0] == a[0];
      assert (a + b)[1..] == a[1..] + b;
      WithPriceConcat(a[1..], b, p);
    }
  }

  /** Inserting `x` places it, among the items of its own price, first. */
  lemma {:induction false} InsertKeepsTies(x: Item, t: seq<Item>, p: real)
    ensures WithPrice(Insert(x, t), p) == WithPrice([x] + t, p)
  {
    if t != [] && t[0].price > x.price {
      var rest := Insert(x, t[1..]);
      InsertKeepsTies(x, t[1..], p);
      assert ([t[0]] + rest)[1..] == rest;
      assert ([x] + t)[1..] == t;
      assert ([x] + t[1..])[1..] == t[1..];
      if t[0].price == p {
        assert WithPrice([x] + t, p) == WithPrice(t, p);
      }
    }
  }

  /** Stability: the items of any one price come out of the sort in the
      order they went in. */
  lemma {:induction false} SortIsStable(s: seq<Item>, p: real)
    ensures WithPrice(SortByPriceDesc(s), p) == WithPrice(s, p)
  {
    if s != [] {
      InsertKeepsTies(s[0], SortByPriceDesc(s[1..]), p);
      SortIsStable(s[1..], p);
      WithPriceConcat([s[0]], SortByPriceDesc(s[1..]), p);
    }
  }

  /** Filtering a prefix gives a prefix of the filtered sequence. */
  lemma {:induction false} WithPricePrefix(s: seq<Item>, k: nat, p: real)
    requires k <= |s|
    ensures WithPrice(s[..k], p) <= WithPrice(s, p)
  {
    assert s == s[..k] + s[k..];
    WithPriceConcat(s[..k], s[k..], p);
  }
}
