/**
 * The cart line: a catalog entry together with the number of units of it in
 * the cart. Only `id` and `amount` take part in the cart logic; the other
 * catalog fields travel along unchanged in `details`.
 */
module CartItem {

  /** The descriptive fields of a catalog entry, never inspected by the cart. */
  datatype Details = Details(
    title: string,
    description: string,
    category: string,
    image: string,
    price: real)

  datatype Line = Line(id: int, amount: int, details: Details)

  /** Some line of the cart carries `id`. */
  predicate HasId(cart: seq<Line>, id: int) {
    exists i :: 0 <= i < |cart| && cart[i].id == id
  }

  /** No two lines of the cart share an id. */
  predicate UniqueIds(cart: seq<Line>) {
    forall i, j :: 0 <= i < j < |cart| ==> cart[i].id != cart[j].id
  }

  /** Every line holds at least one unit. */
  predicate PositiveAmounts(cart: seq<Line>) {
    forall i :: 0 <= i < |cart| ==> cart[i].amount >= 1
  }

  /** The invariant the cart keeps: one line per id, none of them empty. */
  predicate Valid(cart: seq<Line>) {
    UniqueIds(cart) && PositiveAmounts(cart)
  }
}
