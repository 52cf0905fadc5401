/** One line of the family basket: a product name, a unit price and a
    quantity (model/ItemCanasta.java). */
module Items {

  datatype Option<T> = None | Some(value: T)

  /** The value of an item at one moment. `name` is `None` where the Java
      field is `null`; `price` is exact (a `real`, not an IEEE double). */
  datatype Item = Item(name: Option<string>, price: real, qty: int) {

    /** Unit price times quantity: never negative when neither factor is,
        and zero for a quantity of zero. */
    function Subtotal(): (r: real)
      ensures price >= 0.0 && qty >= 0 ==> r >= 0.0
      ensures qty == 0 ==> r == 0.0
    {
      price * qty as real
    }
  }

  /** A line with a positive price and a positive quantity costs at least
      its unit price, so its subtotal is positive. */
  lemma SubtotalAtLeastPrice(it: Item)
    requires it.price > 0.0 && it.qty > 0
    ensures it.Subtotal() >= it.price > 0.0
  {
    var q := it.qty as real;
    assert q >= 1.0;
    assert it.price * q - it.price == it.price * (q - 1.0);
    assert it.price * (q - 1.0) >= 0.0;
  }

  /** The mutable item object that a form fills in field by field before
      it is handed to the basket. No field is checked here. */
  class ItemCanasta {
    var name: Option<string>
    var price: real
    var qty: int

    /** The no-argument constructor: Java's defaults, a null name and zeros. */
    constructor Empty()
      ensures name == None && price == 0.0 && qty == 0
    {
      name := None;
      price := 0.0;
      qty := 0;
    }

    /** The three-argument constructor stores its arguments as given. */
    constructor (name: Option<string>, price: real, qty: int)
      ensures this.name == name && this.price == price && this.qty == qty
    {
      this.name := name;
      this.price := price;
      this.qty := qty;
    }

    /** The current field values as an `Item`. */
    function Value(): (v: Item)
      reads this
      ensures v.name == name && v.price == price && v.qty == qty
    {
      Item(name, price, qty)
    }

    /** The subtotal of the current field values, recomputed on every call. */
    function Subtotal(): (r: real)
      reads this
      ensures r == Value().Subtotal()
    {
      price * qty as real
    }

    method SetName(name: Option<string>)
      modifies this
      ensures this.name == name && price == old(price) && qty == old(qty)
    {
      this.name := name;
    }

    /** Changing the price changes the subtotal with it. */
    method SetPrice(price: real)
      modifies this
      ensures this.price == price && name == old(name) && qty == old(qty)
      ensures Subtotal() == price * old(qty) as real
    {
      this.price := price;
    }

    /** Changing the quantity changes the subtotal with it. */
    method SetQty(qty: int)
      modifies this
      ensures this.qty == qty && name == old(name) && price == old(price)
      ensures Subtotal() == old(price) * qty as real
    {
      this.qty := qty;
    }
  }

  /** The subtotal scenario of the unit tests: 5000 times 3 is 15000. */
  method SubtotalScenario()
  {
    var item := new ItemCanasta(Some("Producto"), 5000.0, 3);
    var s := item.Subtotal();
    assert s == 15000.0;
    item.SetQty(2);
    s := item.Subtotal();
    assert s == 10000.0;
  }
}
