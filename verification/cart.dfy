/**
  The cart component's state and handlers: the ordered rows, the settlement
  currency chosen for the displayed total, and the cached total string.
 */
module CartComponent {
  import opened LineItems
  import opened Totals

  /** What "Save" hands to the log: the formatted total and the rows it was computed from. */
  datatype Payload = Payload(total: string, cart: seq<Item>)

  class Cart {
    /** The rows, in display order. */
    var items: seq<Item>
    /** The settlement currency: used to format the total, never to convert. */
    var selected: Currency
    /** The total last shown to the user. */
    var total: string

    /** A new cart shows one blank USD row, settles in USD and displays "0.00". */
    constructor ()
      ensures items == [Blank(USD)]
      ensures selected == USD
      ensures total == "0.00"
    {
      var initial := USD;
      total := "0.00";
      selected := initial;
      items := [Blank(initial)];
    }

    /** "Add Item": one blank row in the settlement currency goes at the end. */
    method AddItem()
      modifies this`items
      ensures items == old(items) + [Blank(selected)]
      ensures |items| == |old(items)| + 1
      ensures items[..|old(items)|] == old(items)
      ensures TotalOf(items) == TotalOf(old(items))
    {
      items := items + [Blank(selected)];
      assert items[..|old(items)|] == old(items);
      TotalOfAddBlank(old(items), selected);
    }

    /**
      Changes one field of the row at `index`. When `index` names no row the
      source's assignment fails before the cart is replaced; here that is
      `ok == false` with the cart left as it was.
     */
    method UpdateCartItem(index: int, edit: Edit) returns (ok: bool)
      modifies this`items
      ensures ok <==> 0 <= index < |old(items)|
      ensures ok ==> items == old(items)[index := Apply(old(items)[index], edit)]
      ensures !ok ==> items == old(items)
      ensures |items| == |old(items)|
      ensures forall j :: 0 <= j < |items| && j != index ==> items[j] == old(items)[j]
    {
      ok := 0 <= index < |items|;
      if ok {
        items := items[index := Apply(items[index], edit)];
      }
    }

    /** Chooses the settlement currency; no row's own currency changes. */
    method SetSelectedCurrency(c: Currency)
      modifies this`selected
      ensures selected == c
    {
      selected := c;
    }

    /**
      Converts every row at the rate of its own currency, sums in cart order,
      and formats the sum in the settlement currency; the result is also what
      the cart now displays. Rows and settlement currency are untouched.
     */
    method CalculateTotal(format: (real, Currency) -> string) returns (formatted: string)
      modifies this`total
      ensures formatted == format(TotalOf(items), selected)
      ensures total == formatted
    {
      var runningTotal := 0.0;
      for i := 0 to |items|
        invariant runningTotal == TotalOf(items[..i])
      {
        var it := items[i];
        var rate := 1.0;
        match it.currency {
          case EUR => rate := 0.91;
          case JPY => rate := 132.87;
          case USD =>
        }
        var value := it.quantity * rate;
        runningTotal := runningTotal + value;
        assert items[..i + 1][..i] == items[..i];
      }
      assert items[..|items|] == items;
      formatted := format(runningTotal, selected);
      total := formatted;
    }

    /** "Save": computes the total once and bundles exactly that string with the current rows. */
    method Save(format: (real, Currency) -> string) returns (payload: Payload)
      modifies this`total
      ensures payload.cart == items
      ensures payload.total == format(TotalOf(items), selected)
      ensures total == payload.total
    {
      var t := CalculateTotal(format);
      payload := Payload(t, items);
    }
  }
}
