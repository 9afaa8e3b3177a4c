/**
  The random-draw primitive of the greeting selector (`getRandomItem`).

  Every call of `Math.random()` is supplied by the caller as a `draw`: a real
  number in [0, 1). An item is then chosen as `items[floor(draw * |items|)]`,
  exactly as the source computes its index.
 */
module RandomPick {

  /** A value `Math.random()` can return. */
  predicate IsDraw(draw: real) {
    0.0 <= draw < 1.0
  }

  /** `Math.floor(Math.random() * array.length)`: always a valid index, and
      the integer part of the scaled draw. */
  function PickIndex(n: nat, draw: real): (i: nat)
    requires n > 0 && IsDraw(draw)
    ensures i < n
    ensures i as real <= draw * (n as real) < i as real + 1.0
  {
    assert draw * (n as real) < 1.0 * (n as real);
    (draw * (n as real)).Floor
  }

  /** `getRandomItem`: the chosen item always belongs to the table. */
  function Pick<T>(items: seq<T>, draw: real): (x: T)
    requires |items| > 0 && IsDraw(draw)
    ensures x in items
  {
    items[PickIndex(|items|, draw)]
  }

  /** The draws that select index `i` are exactly those in [i/n, (i+1)/n):
      every index owns an interval of width 1/n, so the pick is uniform. */
  lemma PickIndexInterval(n: nat, draw: real, i: nat)
    requires n > 0 && IsDraw(draw)
    ensures PickIndex(n, draw) == i <==>
              (i as real) / (n as real) <= draw < (i as real + 1.0) / (n as real)
  {
    var x := draw * (n as real);
    DivisionBound(i as real, draw, n);
    DivisionBound(i as real + 1.0, draw, n);
    var k := PickIndex(n, draw);
    assert k as real <= x < k as real + 1.0;
    if i as real <= x < i as real + 1.0 {
      assert k <= i && i <= k;
    }
  }

  /** Comparing a draw with `a / n` is comparing the scaled draw with `a`. */
  lemma DivisionBound(a: real, draw: real, n: nat)
    requires n > 0
    ensures a / (n as real) <= draw <==> a <= draw * (n as real)
    ensures draw < a / (n as real) <==> draw * (n as real) < a
  {
    var m := n as real;
    assert (a / m) * m == a;
    ScalePreservesOrder(a / m, draw, m);
    ScalePreservesOrder(draw, a / m, m);
  }

  /** Multiplying by a positive factor preserves both orders. */
  lemma ScalePreservesOrder(a: real, b: real, m: real)
    requires m > 0.0
    ensures a <= b <==> a * m <= b * m
    ensures a < b <==> a * m < b * m
  {
  }

  /** Every item of a table can be drawn. */
  lemma EveryItemReachable<T>(items: seq<T>, i: nat)
    requires i < |items|
    ensures exists draw :: IsDraw(draw) && Pick(items, draw) == items[i]
  {
    var n := |items|;
    var draw := (i as real) / (n as real);
    DivisionBound(i as real, draw, n);
    DivisionBound(n as real, draw, n);
    assert draw * (n as real) == i as real;
    assert IsDraw(draw);
    PickIndexInterval(n, draw, i);
    assert Pick(items, draw) == items[i];
  }
}
