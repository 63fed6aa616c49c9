/**
  The numeric cart total: the sum, in cart order, of each row's quantity times
  the rate of that row's own currency, and what it does under the cart's edits.
 */
module Totals {
  import opened LineItems

  /** The total of a cart, accumulated from the first row to the last. */
  function TotalOf(items: seq<Item>): real {
    if items == [] then 0.0
    else TotalOf(items[..|items| - 1]) + Converted(items[|items| - 1])
  }

  /** The plain sum of the quantities, with no conversion. */
  function QuantitySum(items: seq<Item>): real {
    if items == [] then 0.0
    else QuantitySum(items[..|items| - 1]) + items[|items| - 1].quantity
  }

  /** A cart of one row totals that row's converted amount. */
  lemma TotalOfSingle(it: Item)
    ensures TotalOf([it]) == it.quantity * Rate(it.currency)
  {
  }

  /** The total is additive over concatenation of carts. */
  lemma {:induction false} TotalOfAppend(a: seq<Item>, b: seq<Item>)
    ensures TotalOf(a + b) == TotalOf(a) + TotalOf(b)
    decreases |b|
  {
    if b == [] {
      assert a + b == a;
    } else {
      var front := b[..|b| - 1];
      assert (a + b)[..|a + b| - 1] == a + front;
      assert (a + b)[|a + b| - 1] == b[|b| - 1];
      TotalOfAppend(a, front);
    }
  }

  /** Appending a blank row, in any currency, leaves the total as it was. */
  lemma TotalOfAddBlank(items: seq<Item>, c: Currency)
    ensures TotalOf(items + [Blank(c)]) == TotalOf(items)
  {
    TotalOfAppend(items, [Blank(c)]);
    TotalOfSingle(Blank(c));
  }

  /** Replacing one row changes the total by exactly the difference of the two rows' amounts. */
  lemma TotalOfUpdate(items: seq<Item>, i: nat, it: Item)
    requires i < |items|
    ensures TotalOf(items[i := it]) == TotalOf(items) - Converted(items[i]) + Converted(it)
  {
    var pre, post := items[..i], items[i + 1..];
    assert items == pre + [items[i]] + post;
    assert items[i := it] == pre + [it] + post;
    TotalOfAppend(pre + [items[i]], post);
    TotalOfAppend(pre, [items[i]]);
    TotalOfAppend(pre + [it], post);
    TotalOfAppend(pre, [it]);
    TotalOfSingle(items[i]);
    TotalOfSingle(it);
  }

  /** Renaming a row never changes the total. */
  lemma TotalOfRename(items: seq<Item>, i: nat, name: string)
    requires i < |items|
    ensures TotalOf(items[i := Apply(items[i], SetName(name))]) == TotalOf(items)
  {
    TotalOfUpdate(items, i, Apply(items[i], SetName(name)));
  }

  /** Setting a row's quantity moves the total by the change in quantity at that row's rate. */
  lemma TotalOfRequantify(items: seq<Item>, i: nat, q: real)
    requires i < |items|
    ensures TotalOf(items[i := Apply(items[i], SetQuantity(q))])
         == TotalOf(items) + (q - items[i].quantity) * Rate(items[i].currency)
  {
    TotalOfUpdate(items, i, Apply(items[i], SetQuantity(q)));
  }

  /** Changing a row's currency moves the total by its quantity times the change of rate. */
  lemma TotalOfRecurrency(items: seq<Item>, i: nat, c: Currency)
    requires i < |items|
    ensures TotalOf(items[i := Apply(items[i], SetCurrency(c))])
         == TotalOf(items) + items[i].quantity * (Rate(c) - Rate(items[i].currency))
  {
    TotalOfUpdate(items, i, Apply(items[i], SetCurrency(c)));
  }

  /**
    The total reads only each row's quantity and currency: two carts that agree
    on those, row by row, have the same total whatever the names.
   */
  lemma {:induction false} TotalOfIgnoresNames(a: seq<Item>, b: seq<Item>)
    requires |a| == |b|
    requires forall i :: 0 <= i < |a| ==> a[i].quantity == b[i].quantity && a[i].currency == b[i].currency
    ensures TotalOf(a) == TotalOf(b)
  {
    if a != [] {
      TotalOfIgnoresNames(a[..|a| - 1], b[..|b| - 1]);
    }
  }

  /** With every row in USD the total is the plain sum of the quantities. */
  lemma {:induction false} TotalOfAllUsd(items: seq<Item>)
    requires forall i :: 0 <= i < |items| ==> items[i].currency == USD
    ensures TotalOf(items) == QuantitySum(items)
  {
    if items != [] {
      TotalOfAllUsd(items[..|items| - 1]);
    }
  }

  /** When no quantity is negative, neither is the total. */
  lemma {:induction false} TotalOfNonNegative(items: seq<Item>)
    requires forall i :: 0 <= i < |items| ==> items[i].quantity >= 0.0
    ensures TotalOf(items) >= 0.0
  {
    if items != [] {
      TotalOfNonNegative(items[..|items| - 1]);
    }
  }

  /** The worked totals: an empty cart, one row of 100 EUR, and one row of 1 JPY. */
  lemma SampleTotals(name: string)
    ensures TotalOf([]) == 0.0
    ensures TotalOf([Item(name, 100.0, EUR)]) == 91.0
    ensures TotalOf([Item(name, 1.0, JPY)]) == 132.87
  {
    TotalOfSingle(Item(name, 100.0, EUR));
    TotalOfSingle(Item(name, 1.0, JPY));
  }
}
