/**
 * The bill of lib/totals.ts: subtotal, a flat platform fee, a delivery fee
 * waived from 399 upwards, 5% GST rounded half up, and a total clamped at 0.
 * Prices and quantities are whole currency units.
 */
module Totals {
  import opened Cart

  const PlatformFee: int := 5
  const DeliveryFee: int := 29
  const FreeDeliveryThreshold: int := 399

  datatype Totals = Totals(subTotal: int, platformFee: int, deliveryFee: int, gst: int, total: int)

  /** `lines.reduce((s, l) => s + price * qty, 0)`, folded from the left. */
  function SubTotal(lines: seq<CartLine>): int {
    if lines == [] then 0
    else SubTotal(lines[..|lines| - 1]) + lines[|lines| - 1].item.price * lines[|lines| - 1].qty
  }

  /**
   * `Math.round(n * 0.05)`: the integer nearest to n / 20, halves going up.
   * `Math.round(x)` is `floor(x + 1/2)`, and Dafny's `/` on a positive divisor is floor division.
   */
  function RoundFivePercent(n: int): (r: int)
    ensures 20 * r - 10 <= n < 20 * r + 10
  {
    (n + 10) / 20
  }

  /** `calculateTotals(lines)`. */
  function CalculateTotals(lines: seq<CartLine>): (t: Totals)
    ensures t.subTotal == SubTotal(lines)
    ensures t.platformFee == PlatformFee
    ensures t.deliveryFee == 0 <==> t.subTotal >= FreeDeliveryThreshold
    ensures t.deliveryFee == 0 || t.deliveryFee == DeliveryFee
    ensures var base := t.subTotal + t.platformFee + t.deliveryFee;
            20 * t.gst - 10 <= base < 20 * t.gst + 10
    ensures t.total >= 0
    ensures t.total == Max(0, t.subTotal + t.platformFee + t.deliveryFee + t.gst)
  {
    var subTotal := SubTotal(lines);
    var deliveryFee := if subTotal >= FreeDeliveryThreshold then 0 else DeliveryFee;
    var gst := RoundFivePercent(subTotal + PlatformFee + deliveryFee);
    var sum := subTotal + PlatformFee + deliveryFee + gst;
    Totals(subTotal, PlatformFee, deliveryFee, gst, Max(0, sum))
  }

  ghost predicate NonNegativeLines(lines: seq<CartLine>) {
    forall i :: 0 <= i < |lines| ==> lines[i].item.price >= 0 && lines[i].qty >= 0
  }

  lemma {:induction false} SubTotalNonNegative(lines: seq<CartLine>)
    requires NonNegativeLines(lines)
    ensures SubTotal(lines) >= 0
  {
    if lines != [] {
      var last := lines[|lines| - 1];
      assert last.item.price * last.qty >= 0;
      SubTotalNonNegative(lines[..|lines| - 1]);
    }
  }

  /** The subtotal of two carts put together is the sum of their subtotals. */
  lemma {:induction false} SubTotalConcat(a: seq<CartLine>, b: seq<CartLine>)
    ensures SubTotal(a + b) == SubTotal(a) + SubTotal(b)
    decreases |b|
  {
    if b == [] {
      assert a + b == a;
    } else {
      assert (a + b)[..|a + b| - 1] == a + b[..|b| - 1];
      SubTotalConcat(a, b[..|b| - 1]);
    }
  }

  /** An empty cart still pays the platform fee, the delivery fee and their GST. */
  lemma EmptyCartTotals()
    ensures CalculateTotals([]) == Totals(0, 5, 29, 2, 36)
  {
  }

  /** With non-negative prices and quantities the total never drops below subtotal plus platform fee. */
  lemma TotalCoversSubTotalAndFee(lines: seq<CartLine>)
    requires NonNegativeLines(lines)
    ensures CalculateTotals(lines).total >= CalculateTotals(lines).subTotal + PlatformFee
    ensures CalculateTotals(lines).gst >= 0
  {
    SubTotalNonNegative(lines);
  }

  /** One line at 100 x 2: subtotal 200, delivery 29, GST round(11.7) = 12, total 246. */
  lemma WorkedExample()
    ensures CalculateTotals([CartLine("r", "Cafe", CartItem("i", "Thali", 100, JsValues.None), 2)]) ==
            Totals(200, 5, 29, 12, 246)
  {
    var lines := [CartLine("r", "Cafe", CartItem("i", "Thali", 100, JsValues.None), 2)];
    assert lines[..0] == [];
  }

  /**
   * Adding an item raises the subtotal by the quantity the line gained times
   * the line's price; an existing line keeps the price it was added with.
   */
  lemma AddItemRaisesSubTotal(lines: seq<CartLine>, restaurantId: string, restaurantName: string, item: CartItem, qty: int)
    ensures var idx := FindIndex(lines, restaurantId, item.id);
            SubTotal(AddItem(lines, restaurantId, restaurantName, item, qty)) ==
            SubTotal(lines) + (if idx >= 0 then lines[idx].item.price * qty else item.price * Max(1, qty))
  {
    var idx := FindIndex(lines, restaurantId, item.id);
    var r := AddItem(lines, restaurantId, restaurantName, item, qty);
    if idx < 0 {
      var added := CartLine(restaurantId, restaurantName, item, Max(1, qty));
      assert r == lines + [added];
      assert r[..|r| - 1] == lines;
      assert SubTotal(r) == SubTotal(lines) + added.item.price * added.qty;
    } else {
      var was := lines[idx];
      var now := was.(qty := was.qty + qty);
      assert r == lines[idx := now];
      SubTotalReplace(lines, idx, now);
      assert was.item.price * (was.qty + qty) == was.item.price * was.qty + was.item.price * qty;
    }
  }

  /** Replacing one line changes the subtotal by the difference of the two line amounts. */
  lemma SubTotalReplace(lines: seq<CartLine>, i: nat, l: CartLine)
    requires i < |lines|
    ensures SubTotal(lines[i := l]) ==
            SubTotal(lines) - lines[i].item.price * lines[i].qty + l.item.price * l.qty
  {
    var pre, post := lines[..i], lines[i + 1..];
    assert lines == (pre + [lines[i]]) + post;
    assert lines[i := l] == (pre + [l]) + post;
    SubTotalConcat(pre + [lines[i]], post);
    SubTotalConcat(pre + [l], post);
    assert (pre + [lines[i]])[..i] == pre;
    assert (pre + [l])[..i] == pre;
  }
}
