/**
 * The cart updaters of the application component. Each takes the current cart
 * and returns a new one; the reactive state binding that stores the result is
 * not modelled.
 */
module App {
  import opened CartItem

  datatype Option<T> = None | Some(value: T)

  /** `Array.prototype.find` on the line ids: the first line carrying `id`. */
  function Find(cart: seq<Line>, id: int): (r: Option<Line>)
    ensures r.None? <==> !HasId(cart, id)
    ensures r.Some? ==> r.value.id == id
    ensures r.Some? ==> exists k :: 0 <= k < |cart| && cart[k] == r.value && !HasId(cart[..k], id)
  {
    if cart == [] then None
    else if cart[0].id == id then
      assert cart[..0] == [];
      Some(cart[0])
    else
      var r := Find(cart[1..], id);
      if r.Some? then
        var k :| 0 <= k < |cart[1..]| && cart[1..][k] == r.value && !HasId(cart[1..][..k], id);
        assert cart[..k + 1] == [cart[0]] + cart[1..][..k];
        r
      else
        r
  }

  /** The `map` of the add updater: every line carrying `id` gets one more unit. */
  function IncrementMatching(cart: seq<Line>, id: int): (r: seq<Line>)
    ensures |r| == |cart|
    ensures forall i :: 0 <= i < |cart| && cart[i].id != id ==> r[i] == cart[i]
    ensures forall i :: 0 <= i < |cart| && cart[i].id == id ==>
              r[i] == cart[i].(amount := cart[i].amount + 1)
  {
    if cart == [] then []
    else
      var head := if cart[0].id == id then cart[0].(amount := cart[0].amount + 1) else cart[0];
      [head] + IncrementMatching(cart[1..], id)
  }

  /**
   * `handleAddToCart`: a line already carrying the clicked item's id is
   * incremented in place, keeping its own fields; otherwise the clicked item
   * is appended with one unit.
   */
  function Add(cart: seq<Line>, item: Line): seq<Line> {
    if Find(cart, item.id).Some? then IncrementMatching(cart, item.id)
    else cart + [item.(amount := 1)]
  }

  /** The reducer callback of `handleRemoveToCart`, applied to one line. */
  function RemoveStep(acc: seq<Line>, item: Line, id: int): seq<Line> {
    if item.id == id then
      if item.amount == 1 then acc
      else acc + [item.(amount := item.amount - 1)]
    else acc + [item]
  }

  /** `reduce` of RemoveStep over `rest`, starting from the accumulator `acc`. */
  function RemoveFold(acc: seq<Line>, rest: seq<Line>, id: int): seq<Line>
    decreases |rest|
  {
    if rest == [] then acc
    else RemoveFold(RemoveStep(acc, rest[0], id), rest[1..], id)
  }

  /** `handleRemoveToCart`: the reduce started from the empty array. */
  function RemoveOne(cart: seq<Line>, id: int): seq<Line> {
    RemoveFold([], cart, id)
  }

  /** `reduce` adding up the amounts, starting from the accumulator `acc`. */
  function SumFold(acc: int, rest: seq<Line>): int
    decreases |rest|
  {
    if rest == [] then acc
    else SumFold(acc + rest[0].amount, rest[1..])
  }

  /** `getTotalItems`: the number shown on the cart badge. */
  function TotalItems(cart: seq<Line>): int {
    SumFold(0, cart)
  }
}
