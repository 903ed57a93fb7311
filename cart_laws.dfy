/**
 * What the cart updaters promise: where a line lands, what happens to the
 * other lines, the invariant the cart keeps, how the item count moves, and
 * that a remove undoes an add.
 */
module CartLaws {
  import opened CartItem
  import opened App

  // ---------------------------------------------------------------------
  // getTotalItems
  // ---------------------------------------------------------------------

  /** Folding from any accumulator adds the cart's total to it. */
  lemma {:induction false} SumFoldFrom(acc: int, rest: seq<Line>)
    ensures SumFold(acc, rest) == acc + TotalItems(rest)
    decreases |rest|
  {
    if rest != [] {
      SumFoldFrom(acc + rest[0].amount, rest[1..]);
      SumFoldFrom(rest[0].amount, rest[1..]);
    }
  }

  /** The item count of a cart is the count of its two halves. */
  lemma {:induction false} TotalItemsConcat(a: seq<Line>, b: seq<Line>)
    ensures TotalItems(a + b) == TotalItems(a) + TotalItems(b)
    decreases |a|
  {
    if a == [] {
      assert a + b == b;
    } else {
      assert (a + b)[1..] == a[1..] + b;
      SumFoldFrom(a[0].amount, a[1..] + b);
      SumFoldFrom(a[0].amount, a[1..]);
      TotalItemsConcat(a[1..], b);
    }
  }

  /** One line contributes its amount. */
  lemma TotalItemsSingle(line: Line)
    ensures TotalItems([line]) == line.amount
  {
    assert [line][1..] == [];
    assert SumFold(line.amount, []) == line.amount;
  }

  /** The count split around line `k`. */
  lemma TotalItemsAround(cart: seq<Line>, k: int)
    requires 0 <= k < |cart|
    ensures TotalItems(cart) == TotalItems(cart[..k]) + cart[k].amount + TotalItems(cart[k + 1..])
  {
    assert cart == cart[..k] + [cart[k]] + cart[k + 1..];
    TotalItemsConcat(cart[..k] + [cart[k]], cart[k + 1..]);
    TotalItemsConcat(cart[..k], [cart[k]]);
    TotalItemsSingle(cart[k]);
  }

  /**
   * The badge shows 0 for an empty cart, and on a cart whose lines all hold
   * at least one unit it is at least the number of lines.
   */
  lemma {:induction false} TotalItemsBounds(cart: seq<Line>)
    ensures cart == [] ==> TotalItems(cart) == 0
    ensures PositiveAmounts(cart) ==> TotalItems(cart) >= |cart|
    decreases |cart|
  {
    if cart != [] {
      assert cart == [cart[0]] + cart[1..];
      TotalItemsConcat([cart[0]], cart[1..]);
      TotalItemsSingle(cart[0]);
      TotalItemsBounds(cart[1..]);
    }
  }

  // ---------------------------------------------------------------------
  // handleRemoveToCart: the reduce in terms of concatenation
  // ---------------------------------------------------------------------

  /** The reduce keeps whatever the accumulator already holds, in front. */
  lemma {:induction false} RemoveFoldFrom(acc: seq<Line>, rest: seq<Line>, id: int)
    ensures RemoveFold(acc, rest, id) == acc + RemoveOne(rest, id)
    decreases |rest|
  {
    if rest != [] {
      var step := RemoveStep([], rest[0], id);
      assert RemoveStep(acc, rest[0], id) == acc + step;
      RemoveFoldFrom(acc + step, rest[1..], id);
      RemoveFoldFrom(step, rest[1..], id);
    }
  }

  /** Removing from a cart removes from each half independently. */
  lemma {:induction false} RemoveOneConcat(a: seq<Line>, b: seq<Line>, id: int)
    ensures RemoveOne(a + b, id) == RemoveOne(a, id) + RemoveOne(b, id)
    decreases |a|
  {
    if a == [] {
      assert a + b == b;
    } else {
      var step := RemoveStep([], a[0], id);
      assert (a + b)[1..] == a[1..] + b;
      RemoveFoldFrom(step, a[1..] + b, id);
      RemoveFoldFrom(step, a[1..], id);
      RemoveOneConcat(a[1..], b, id);
    }
  }

  /** Removing an id that no line carries gives back the same cart. */
  lemma {:induction false} RemoveAbsent(cart: seq<Line>, id: int)
    requires !HasId(cart, id)
    ensures RemoveOne(cart, id) == cart
    decreases |cart|
  {
    if cart != [] {
      assert cart[0].id != id;
      assert RemoveStep([], cart[0], id) == [cart[0]];
      assert !HasId(cart[1..], id) by {
        forall i | 0 <= i < |cart[1..]| ensures cart[1..][i].id != id {
          assert cart[1..][i] == cart[i + 1];
        }
      }
      RemoveFoldFrom([cart[0]], cart[1..], id);
      RemoveAbsent(cart[1..], id);
    }
  }

  /** One line goes through one step of the reduce. */
  lemma RemoveOneSingle(line: Line, id: int)
    ensures RemoveOne([line], id) == RemoveStep([], line, id)
  {
    assert [line][1..] == [];
    assert RemoveFold(RemoveStep([], line, id), [], id) == RemoveStep([], line, id);
  }

  /** With unique ids, only the line carrying `id` is touched, by one step. */
  lemma RemoveAt(cart: seq<Line>, id: int, k: int)
    requires UniqueIds(cart)
    requires 0 <= k < |cart| && cart[k].id == id
    ensures RemoveOne(cart, id) == cart[..k] + RemoveStep([], cart[k], id) + cart[k + 1..]
  {
    assert !HasId(cart[..k], id) by {
      forall i | 0 <= i < |cart[..k]| ensures cart[..k][i].id != id {
        assert cart[..k][i] == cart[i];
      }
    }
    assert !HasId(cart[k + 1..], id) by {
      forall j | k + 1 <= j < |cart| ensures cart[j].id != id {
      }
    }
    assert cart == cart[..k] + [cart[k]] + cart[k + 1..];
    RemoveOneConcat(cart[..k] + [cart[k]], cart[k + 1..], id);
    RemoveOneConcat(cart[..k], [cart[k]], id);
    RemoveOneSingle(cart[k], id);
    RemoveAbsent(cart[..k], id);
    RemoveAbsent(cart[k + 1..], id);
  }

  /** A line holding exactly one unit is dropped; the others keep their order. */
  lemma RemoveDeletesLine(cart: seq<Line>, id: int, k: int)
    requires UniqueIds(cart)
    requires 0 <= k < |cart| && cart[k].id == id && cart[k].amount == 1
    ensures RemoveOne(cart, id) == cart[..k] + cart[k + 1..]
  {
    RemoveAt(cart, id, k);
  }

  /** Any other amount is decremented in place; nothing else changes. */
  lemma RemoveDecrementsLine(cart: seq<Line>, id: int, k: int)
    requires UniqueIds(cart)
    requires 0 <= k < |cart| && cart[k].id == id && cart[k].amount != 1
    ensures RemoveOne(cart, id) == cart[k := cart[k].(amount := cart[k].amount - 1)]
  {
    RemoveAt(cart, id, k);
    assert cart[..k] + [cart[k].(amount := cart[k].amount - 1)] + cart[k + 1..]
        == cart[k := cart[k].(amount := cart[k].amount - 1)];
  }

  // ---------------------------------------------------------------------
  // handleAddToCart
  // ---------------------------------------------------------------------

  /** An item not yet in the cart is appended with one unit. */
  lemma AddNew(cart: seq<Line>, item: Line)
    requires !HasId(cart, item.id)
    ensures Add(cart, item) == cart + [item.(amount := 1)]
  {
  }

  /**
   * An item already in the cart keeps the length; every line carrying its id
   * gets one more unit and keeps its own fields; other lines are unchanged.
   */
  lemma AddExisting(cart: seq<Line>, item: Line)
    requires HasId(cart, item.id)
    ensures |Add(cart, item)| == |cart|
    ensures forall i :: 0 <= i < |cart| ==>
              Add(cart, item)[i] ==
                if cart[i].id == item.id then cart[i].(amount := cart[i].amount + 1) else cart[i]
  {
  }

  /** With unique ids, the add increments exactly the line at its position. */
  lemma AddIncrementsLine(cart: seq<Line>, item: Line, k: int)
    requires UniqueIds(cart)
    requires 0 <= k < |cart| && cart[k].id == item.id
    ensures Add(cart, item) == cart[k := cart[k].(amount := cart[k].amount + 1)]
  {
    AddExisting(cart, item);
  }

  // ---------------------------------------------------------------------
  // The cart invariant
  // ---------------------------------------------------------------------

  lemma AddPreservesValid(cart: seq<Line>, item: Line)
    requires Valid(cart)
    ensures Valid(Add(cart, item))
  {
    if HasId(cart, item.id) {
      AddExisting(cart, item);
    } else {
      AddNew(cart, item);
    }
  }

  lemma RemovePreservesValid(cart: seq<Line>, id: int)
    requires Valid(cart)
    ensures Valid(RemoveOne(cart, id))
  {
    if HasId(cart, id) {
      var k :| 0 <= k < |cart| && cart[k].id == id;
      if cart[k].amount == 1 {
        RemoveDeletesLine(cart, id, k);
        var r := cart[..k] + cart[k + 1..];
        forall i | 0 <= i < |r| ensures r[i] == cart[if i < k then i else i + 1] {
        }
      } else {
        RemoveDecrementsLine(cart, id, k);
      }
    } else {
      RemoveAbsent(cart, id);
    }
  }

  // ---------------------------------------------------------------------
  // The badge count across the updaters
  // ---------------------------------------------------------------------

  /** Every add puts exactly one more unit in the cart. */
  lemma TotalAfterAdd(cart: seq<Line>, item: Line)
    requires UniqueIds(cart)
    ensures TotalItems(Add(cart, item)) == TotalItems(cart) + 1
  {
    if HasId(cart, item.id) {
      var k :| 0 <= k < |cart| && cart[k].id == item.id;
      AddIncrementsLine(cart, item, k);
      var r := Add(cart, item);
      assert r[..k] == cart[..k] && r[k + 1..] == cart[k + 1..];
      TotalItemsAround(cart, k);
      TotalItemsAround(r, k);
    } else {
      AddNew(cart, item);
      TotalItemsConcat(cart, [item.(amount := 1)]);
      TotalItemsSingle(item.(amount := 1));
    }
  }

  /** A remove takes one unit out when the id is in the cart, none otherwise. */
  lemma TotalAfterRemove(cart: seq<Line>, id: int)
    requires UniqueIds(cart)
    ensures TotalItems(RemoveOne(cart, id)) == TotalItems(cart) - (if HasId(cart, id) then 1 else 0)
  {
    if HasId(cart, id) {
      var k :| 0 <= k < |cart| && cart[k].id == id;
      TotalItemsAround(cart, k);
      RemoveAt(cart, id, k);
      var step := RemoveStep([], cart[k], id);
      TotalItemsConcat(cart[..k] + step, cart[k + 1..]);
      TotalItemsConcat(cart[..k], step);
      if cart[k].amount != 1 {
        assert step == [cart[k].(amount := cart[k].amount - 1)];
        TotalItemsSingle(step[0]);
      } else {
        assert step == [];
        TotalItemsBounds(step);
      }
    } else {
      RemoveAbsent(cart, id);
    }
  }

  // ---------------------------------------------------------------------
  // Add and remove undo each other
  // ---------------------------------------------------------------------

  /** On a valid cart, the "-" button undoes the "+" button. */
  lemma RemoveUndoesAdd(cart: seq<Line>, item: Line)
    requires Valid(cart)
    ensures RemoveOne(Add(cart, item), item.id) == cart
  {
    if HasId(cart, item.id) {
      var k :| 0 <= k < |cart| && cart[k].id == item.id;
      AddIncrementsLine(cart, item, k);
      var r := Add(cart, item);
      RemoveDecrementsLine(r, item.id, k);
      assert r[k := r[k].(amount := r[k].amount - 1)] == cart;
    } else {
      AddNew(cart, item);
      var line := item.(amount := 1);
      RemoveOneConcat(cart, [line], item.id);
      RemoveAbsent(cart, item.id);
      RemoveOneSingle(line, item.id);
    }
  }

  /**
   * Taking a unit off a line whose amount is not 1 and adding the item back
   * restores the cart.
   */
  lemma AddUndoesRemove(cart: seq<Line>, item: Line, k: int)
    requires UniqueIds(cart)
    requires 0 <= k < |cart| && cart[k].id == item.id && cart[k].amount != 1
    ensures Add(RemoveOne(cart, item.id), item) == cart
  {
    RemoveDecrementsLine(cart, item.id, k);
    var r := RemoveOne(cart, item.id);
    assert UniqueIds(r);
    AddIncrementsLine(r, item, k);
    assert r[k := r[k].(amount := r[k].amount + 1)] == cart;
  }

  // ---------------------------------------------------------------------
  // A session
  // ---------------------------------------------------------------------

  /**
   * Start empty; add entry 1 twice and entry 2 once (badge 3); then press "-"
   * on entry 1 three times: 2 units, 1 unit, line gone, and finally a no-op.
   * Whatever amount a catalog entry happens to carry is ignored.
   */
  lemma Session(d1: Details, d2: Details, a1: int, a2: int)
    ensures Add([], Line(1, a1, d1)) == [Line(1, 1, d1)]
    ensures Add([Line(1, 1, d1)], Line(1, a1, d1)) == [Line(1, 2, d1)]
    ensures Add([Line(1, 2, d1)], Line(2, a2, d2)) == [Line(1, 2, d1), Line(2, 1, d2)]
    ensures TotalItems([Line(1, 2, d1), Line(2, 1, d2)]) == 3
    ensures RemoveOne([Line(1, 2, d1), Line(2, 1, d2)], 1) == [Line(1, 1, d1), Line(2, 1, d2)]
    ensures RemoveOne([Line(1, 1, d1), Line(2, 1, d2)], 1) == [Line(2, 1, d2)]
    ensures RemoveOne([Line(2, 1, d2)], 1) == [Line(2, 1, d2)]
  {
    var c1 := [Line(1, 1, d1)];
    var c2 := [Line(1, 2, d1)];
    var c3 := [Line(1, 2, d1), Line(2, 1, d2)];
    var c4 := [Line(1, 1, d1), Line(2, 1, d2)];
    var c5 := [Line(2, 1, d2)];
    AddNew([], Line(1, a1, d1));
    AddIncrementsLine(c1, Line(1, a1, d1), 0);
    assert !HasId(c2, 2);
    AddNew(c2, Line(2, a2, d2));
    TotalItemsAround(c3, 1);
    TotalItemsSingle(c2[0]);
    RemoveDecrementsLine(c3, 1, 0);
    RemoveDeletesLine(c4, 1, 0);
    assert c4[1..] == c5;
    assert !HasId(c5, 1);
    RemoveAbsent(c5, 1);
  }
}
