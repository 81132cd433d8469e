/** The bancor relay: a trade keeps the product of the two reserves from falling.
    The contract computes in double; here the quotients are exact and then truncated. */
module Bancor {
  import opened Tables

  /** Tokens received from `outReserve` for `inp` tokens paid into `inpReserve`. The contract calls it with
      non-negative reserves and a positive input; the first branch only keeps the function total. */
  function Output(inpReserve: int, outReserve: int, inp: int): int {
    if inpReserve + inp == 0 then 0 else Max(0, (inp * outReserve) / (inpReserve + inp))
  }

  /** Tokens to pay into `inpReserve` for `out` tokens of `outReserve`. */
  function Input(outReserve: int, inpReserve: int, out: int): int {
    if outReserve - out == 0 then 0 else Max(0, (inpReserve * out) / (outReserve - out))
  }

  lemma DivBounds(a: int, b: int)
    requires 0 < b
    ensures a / b * b <= a < a / b * b + b
    ensures 0 <= a ==> 0 <= a / b
  {
    assert a == a / b * b + a % b;
  }

  /** The output never exceeds the reserve, and is strictly less while the input reserve is not empty. */
  lemma OutputBounds(ib: int, ob: int, inp: int)
    requires 0 <= ib && 0 <= ob && 0 < inp
    ensures 0 <= Output(ib, ob, inp) <= ob
    ensures 0 < ib && 0 < ob ==> Output(ib, ob, inp) < ob
    ensures Output(ib, ob, inp) * (ib + inp) <= inp * ob < Output(ib, ob, inp) * (ib + inp) + (ib + inp)
  {
    var d, n := ib + inp, inp * ob;
    assert 0 <= n;
    DivBounds(n, d);
    var q := n / d;
    assert d * ob == ib * ob + n;
    assert 0 <= ib * ob;
    QuotientAtMost(n, d, ob);
    if 0 < ib && 0 < ob {
      assert 0 < ib * ob;
      QuotientBelow(n, d, ob);
    }
  }

  /** What `inp` buys: the most that does not lower the product of the reserves. */
  predicate IsOutput(inpReserve: int, outReserve: int, inp: int, out: int) {
    out * (inpReserve + inp) <= inp * outReserve < (out + 1) * (inpReserve + inp)
  }

  lemma OutputExactly(ib: int, ob: int, inp: int, out: int)
    requires 0 <= ib && 0 <= ob && 0 < inp
    ensures IsOutput(ib, ob, inp, out) <==> Output(ib, ob, inp) == out
  {
    OutputBounds(ib, ob, inp);
    if IsOutput(ib, ob, inp, out) {
      QuotientIs(inp * ob, ib + inp, out);
      QuotientIs(inp * ob, ib + inp, Output(ib, ob, inp));
    }
  }

  lemma FloorOf(a: int, b: int) returns (q: int)
    requires 0 < b
    ensures q * b <= a < (q + 1) * b
  {
    q := a / b;
    DivBounds(a, b);
  }

  lemma QuotientIs(a: int, b: int, q: int)
    requires 0 < b && q * b <= a < (q + 1) * b
    ensures a / b == q
  {
    QuotientAtLeast(a, b, q);
    QuotientBelow(a, b, q + 1);
  }

  /** No trade lowers the product of the reserves. */
  lemma ProductNeverFalls(ib: int, ob: int, inp: int)
    requires 0 <= ib && 0 <= ob && 0 < inp
    ensures ib * ob <= (ib + inp) * (ob - Output(ib, ob, inp))
  {
    OutputBounds(ib, ob, inp);
    var out := Output(ib, ob, inp);
    assert (ib + inp) * (ob - out) == ib * ob + inp * ob - out * (ib + inp);
  }

  /** Quoting `out` tokens and then paying the quote never yields more than `out`, and one more
      unit of payment always yields at least `out`. */
  lemma QuoteIsTight(ob: int, ib: int, out: int)
    requires 0 <= out < ob && 0 <= ib
    ensures 0 < Input(ob, ib, out) ==> Output(ib, ob, Input(ob, ib, out)) <= out
    ensures out <= Output(ib, ob, Input(ob, ib, out) + 1)
  {
    var d, n := ob - out, ib * out;
    assert 0 <= n;
    DivBounds(n, d);
    var cost := Input(ob, ib, out);
    assert cost == n / d;
    // cost * (ob - out) <= ib * out < (cost + 1) * (ob - out)
    assert cost * ob <= out * (ib + cost) by {
      assert cost * d == cost * ob - cost * out;
      assert out * (ib + cost) == n + cost * out;
    }
    assert out * (ib + cost + 1) <= (cost + 1) * ob by {
      assert (cost + 1) * d == (cost + 1) * ob - (cost + 1) * out;
      assert out * (ib + cost + 1) == n + (cost + 1) * out;
    }
    if 0 < cost {
      QuotientAtMost(cost * ob, ib + cost, out);
    }
    QuotientAtLeast((cost + 1) * ob, ib + cost + 1, out);
  }

  /** The quote is the price that keeps the product, rounded down. */
  lemma InputBounds(ob: int, ib: int, out: int)
    requires 0 <= out < ob && 0 <= ib
    ensures Input(ob, ib, out) * (ob - out) <= ib * out < (Input(ob, ib, out) + 1) * (ob - out)
  {
    assert 0 <= ib * out;
    DivBounds(ib * out, ob - out);
  }

  lemma Scaled(x: int, y: int, c: int)
    requires 0 <= c
    ensures x <= y ==> x * c <= y * c
  {
  }

  /** The floor of a share `part / whole` of `amount`. */
  lemma ShareOf(part: int, whole: int, amount: int)
    requires 0 <= part <= whole && 0 < whole && 0 < amount
    ensures 0 <= part * amount / whole <= amount
    ensures part < whole ==> part * amount / whole < amount
  {
    var n := part * amount;
    assert 0 <= n;
    Scaled(part, whole, amount);
    Commutes(whole, amount);
    DivBounds(n, whole);
    QuotientAtMost(n, whole, amount);
    if part < whole {
      Scaled(part + 1, whole, amount);
      assert (part + 1) * amount == n + amount;
      QuotientBelow(n, whole, amount);
    }
  }

  lemma Commutes(x: int, y: int)
    ensures x * y == y * x
  {
  }

  lemma QuotientAtMost(a: int, b: int, q: int)
    requires 0 < b && a <= q * b && 0 <= q
    ensures a / b <= q
  {
    DivBounds(a, b);
    Scaled(q + 1, a / b, b);
  }

  lemma QuotientBelow(a: int, b: int, q: int)
    requires 0 < b && a < q * b
    ensures a / b < q
  {
    DivBounds(a, b);
    Scaled(q, a / b, b);
  }

  lemma QuotientAtLeast(a: int, b: int, q: int)
    requires 0 < b && q * b <= a
    ensures q <= a / b
  {
    DivBounds(a, b);
    Scaled(a / b + 1, q, b);
  }
}
