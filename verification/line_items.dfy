/**
  Line items of the shopping cart: the three supported currencies, the shape of one
  cart row, the typed edits that replace the source's dynamic field-keyed update,
  and the fixed conversion rate of each currency.
 */
module LineItems {

  /** The supported currencies. */
  datatype Currency = USD | EUR | JPY

  /** One row of the cart; its identity is its position in the cart. */
  datatype Item = Item(name: string, quantity: real, currency: Currency)

  /** The row appended by "Add Item": no name, nothing ordered, in the given currency. */
  function Blank(c: Currency): Item {
    Item("", 0.0, c)
  }

  /** A change to exactly one field of a row, one constructor per field key. */
  datatype Edit =
    | SetName(name: string)
    | SetQuantity(quantity: real)
    | SetCurrency(currency: Currency)

  /** The row after the edit: the edited field takes the new value, the other two keep theirs. */
  function Apply(it: Item, e: Edit): (r: Item)
    ensures e.SetName? ==> r.name == e.name
    ensures e.SetQuantity? ==> r.quantity == e.quantity
    ensures e.SetCurrency? ==> r.currency == e.currency
    ensures !e.SetName? ==> r.name == it.name
    ensures !e.SetQuantity? ==> r.quantity == it.quantity
    ensures !e.SetCurrency? ==> r.currency == it.currency
  {
    match e
    case SetName(n) => it.(name := n)
    case SetQuantity(q) => it.(quantity := q)
    case SetCurrency(c) => it.(currency := c)
  }

  /** Applying the same edit twice is the same as applying it once. */
  lemma ApplyIdempotent(it: Item, e: Edit)
    ensures Apply(Apply(it, e), e) == Apply(it, e)
  {
  }

  /** Of two edits to the same field only the later one is seen. */
  lemma ApplyLastWins(it: Item, e1: Edit, e2: Edit)
    requires e1.SetName? == e2.SetName? && e1.SetQuantity? == e2.SetQuantity?
    ensures Apply(Apply(it, e1), e2) == Apply(it, e2)
  {
  }

  /** Edits to different fields may be applied in either order. */
  lemma ApplyCommutes(it: Item, e1: Edit, e2: Edit)
    requires e1.SetName? != e2.SetName? || e1.SetQuantity? != e2.SetQuantity?
    ensures Apply(Apply(it, e1), e2) == Apply(Apply(it, e2), e1)
  {
  }

  /**
    The multiplier applied to a row's quantity, chosen by the row's own
    currency: 0.91 for EUR, 132.87 for JPY, and 1 for USD, the default branch.
   */
  function Rate(c: Currency): (r: real)
    ensures r > 0.0
    ensures r == 1.0 <==> c == USD
    ensures c == EUR ==> r == 91.0 / 100.0
    ensures c == JPY ==> r == 13287.0 / 100.0
  {
    match c
    case EUR => 0.91
    case JPY => 132.87
    case USD => 1.0
  }

  /** What one row adds to the cart total. */
  function Converted(it: Item): real {
    it.quantity * Rate(it.currency)
  }
}
