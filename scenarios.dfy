/** The unit-test scenarios of service/CanastaServiceTest.java, driven
    through the service's contracts only. */
module Scenarios {
  import opened Items
  import opened PriceOrder
  import opened Canasta

  /** Adds a fresh item built with the three-argument constructor. */
  method AddNew(c: CanastaService, name: string, price: real, qty: int) returns (r: Outcome)
    requires c.Valid()
    modifies c
    ensures c.Valid()
    ensures r == Validate(Item(Some(name), price, qty))
    ensures r.Pass? ==> c.items == old(c.items) + [Item(Some(name), price, qty)]
    ensures r.Fail? ==> c.items == old(c.items)
  {
    var item := new ItemCanasta(Some(name), price, qty);
    r := c.AddItem(item);
  }

  /** A name whose first character is above a space is not blank. */
  lemma NotBlankByHead(name: string)
    requires name != [] && name[0] > ' '
    ensures !Text.IsBlank(name)
  {
  }

  /** A named item with a positive price and quantity is accepted. */
  lemma Accepted(name: string, price: real, qty: int)
    requires name != [] && name[0] > ' ' && price > 0.0 && qty > 0
    ensures Validate(Item(Some(name), price, qty)) == Pass
  {
    NotBlankByHead(name);
  }

  lemma TotalExample(a: Item, b: Item)
    requires a.price == 5000.0 && a.qty == 2 && b.price == 3000.0 && b.qty == 1
    ensures SumSubtotals([a, b]) == 13000.0
  {
    assert [a, b][..1] == [a];
    assert [a][..0] == [];
    assert SumSubtotals([a]) == 10000.0;
  }

  /** Two valid lines: the count is 2 and the total 5000*2 + 3000*1. */
  method TotalScenario()
  {
    var c := new CanastaService();
    var a, b := Item(Some("Arroz"), 5000.0, 2), Item(Some("Frijol"), 3000.0, 1);
    Accepted("Arroz", 5000.0, 2);
    Accepted("Frijol", 3000.0, 1);
    var r := AddNew(c, "Arroz", 5000.0, 2);
    r := AddNew(c, "Frijol", 3000.0, 1);
    assert c.items == [a, b];
    var n := c.Count();
    assert n == 2;
    var t := c.Total();
    TotalExample(a, b);
    assert t == 13000.0;
  }

  /** A bad price is reported with its own message and nothing is stored. */
  method BadPriceScenario()
  {
    var c := new CanastaService();
    NotBlankByHead("Producto");
    var r := AddNew(c, "Producto", -100.0, 1);
    assert r == Fail(NonPositivePrice);
    assert r.error.Message() == "El precio debe ser mayor a cero";
    var n := c.Count();
    assert n == 0;
  }

  /** A bad quantity is reported after a good name and price. */
  method BadQuantityScenario()
  {
    var c := new CanastaService();
    NotBlankByHead("Producto");
    var r := AddNew(c, "Producto", 1000.0, -5);
    assert r == Fail(NonPositiveQuantity);
    var n := c.Count();
    assert n == 0;
  }

  /** A blank or missing name wins over a bad price and quantity. */
  method BadNameScenario()
  {
    var c := new CanastaService();
    var r := AddNew(c, "", 1000.0, 1);
    assert r == Fail(BlankName);
    r := AddNew(c, " \t", -1.0, 0);
    assert r == Fail(BlankName);
    var empty := new ItemCanasta.Empty();
    r := c.AddItem(empty);
    assert r == Fail(BlankName);
    var n := c.Count();
    assert n == 0;
  }

  lemma AverageExample(s: seq<Item>)
    requires |s| == 3 && s[0].price == 1000.0 && s[1].price == 2000.0 && s[2].price == 3000.0
    ensures MeanPrice(s) == 2000.0
  {
    assert s[..2][..1] == [s[0]];
    assert s[..2][..1][..0] == [];
    assert SumPrices(s[..2][..1]) == 1000.0;
    assert SumPrices(s[..2]) == 3000.0;
    assert SumPrices(s) == 6000.0;
  }

  /** An item cheaper than everything in `t` goes to the end. */
  lemma {:induction false} InsertCheapest(x: Item, t: seq<Item>)
    requires forall k :: 0 <= k < |t| ==> t[k].price > x.price
    ensures Insert(x, t) == t + [x]
  {
    if t != [] {
      InsertCheapest(x, t[1..]);
      assert t == [t[0]] + t[1..];
    }
  }

  /** Sorting a list with a given head inserts that head into the sorted tail. */
  lemma SortCons(x: Item, rest: seq<Item>)
    ensures SortByPriceDesc([x] + rest) == Insert(x, SortByPriceDesc(rest))
  {
    assert ([x] + rest)[1..] == rest;
  }

  lemma SortLastTwo(p3: Item, p4: Item)
    requires p3.price == 3000.0 && p4.price == 8000.0
    ensures SortByPriceDesc([p3, p4]) == [p4, p3]
  {
    SortCons(p4, []);
    assert [p4] + [] == [p4];
    InsertCheapest(p3, [p4]);
    SortCons(p3, [p4]);
    assert [p3] + [p4] == [p3, p4];
  }

  lemma InsertSecond(p2: Item, p3: Item, p4: Item)
    requires p2.price == 5000.0 && p3.price == 3000.0 && p4.price == 8000.0
    ensures Insert(p2, [p4, p3]) == [p4, p2, p3]
  {
    assert [p4, p3][1..] == [p3];
    assert Insert(p2, [p3]) == [p2, p3];
  }

  lemma SortLastThree(p2: Item, p3: Item, p4: Item)
    requires p2.price == 5000.0 && p3.price == 3000.0 && p4.price == 8000.0
    ensures SortByPriceDesc([p2, p3, p4]) == [p4, p2, p3]
  {
    SortLastTwo(p3, p4);
    InsertSecond(p2, p3, p4);
    SortCons(p2, [p3, p4]);
    assert [p2] + [p3, p4] == [p2, p3, p4];
  }

  lemma InsertFirst(p1: Item, p2: Item, p3: Item, p4: Item)
    requires p1.price == 1000.0 && p2.price == 5000.0 && p3.price == 3000.0 && p4.price == 8000.0
    ensures Insert(p1, [p4, p2, p3]) == [p4, p2, p3, p1]
  {
    InsertCheapest(p1, [p4, p2, p3]);
  }

  lemma SortExample(p1: Item, p2: Item, p3: Item, p4: Item)
    requires p1.price == 1000.0 && p2.price == 5000.0 && p3.price == 3000.0 && p4.price == 8000.0
    ensures SortByPriceDesc([p1, p2, p3, p4]) == [p4, p2, p3, p1]
  {
    SortLastThree(p2, p3, p4);
    InsertFirst(p1, p2, p3, p4);
    var s := [p1, p2, p3, p4];
    assert s[1..] == [p2, p3, p4];
    assert SortByPriceDesc(s) == Insert(p1, SortByPriceDesc(s[1..]));
  }

  lemma TopExample(p1: Item, p2: Item, p3: Item, p4: Item)
    requires p1.price == 1000.0 && p2.price == 5000.0 && p3.price == 3000.0 && p4.price == 8000.0
    ensures TopByPrice([p1, p2, p3, p4], TopCount) == [p4, p2, p3]
  {
    SortExample(p1, p2, p3, p4);
    assert [p4, p2, p3, p1][..3] == [p4, p2, p3];
  }

  /** Clearing empties the basket and zeroes the total; clearing again is
      harmless. */
  method ClearScenario()
  {
    var c := new CanastaService();
    var r := AddNew(c, "Producto1", 1000.0, 1);
    r := AddNew(c, "Producto2", 2000.0, 1);
    c.Clear();
    var n := c.Count();
    var t := c.Total();
    assert n == 0 && t == 0.0;
    c.Clear();
    n := c.Count();
    assert n == 0;
  }

  /** An empty basket: every aggregate is zero or empty. */
  method EmptyScenario()
  {
    var c := new CanastaService();
    var t := c.Total();
    var m := c.Average();
    var top := c.MostExpensive();
    assert t == 0.0 && m == 0.0 && top == [];
  }
}
