/** Splitting an amount into banknotes of the machine's denominations.

    The machine's own decomposition is not part of this model; the tests only fix that
    10 is an amount that can be paid out and 3 is not. The model uses a greedy split:
    denominations are tried in the order given, as many notes of each as fit, and the
    amount can be paid out when nothing is left over. The split is complete (it accepts
    every amount notes can make up) when every denomination is a multiple of the last
    one, which `RepresentableMultiples` shows; the machine keeps to such lists. */
module Banknotes {
  import opened AtmValues

  /** A face value a machine can dispense. */
  type Denomination = v: int | v > 0 witness 10

  /** `n` copies of one banknote. */
  function Repeat(n: nat, note: Banknote): (r: seq<Banknote>)
    ensures |r| == n
    ensures forall i :: 0 <= i < |r| ==> r[i] == note
    ensures SumValues(r) == n * note.value
  {
    if n == 0 then []
    else
      var rest := Repeat(n - 1, note);
      assert ([note] + rest)[1..] == rest;
      [note] + rest
  }

  /** The greedy split of `amount` into notes of the given denominations and currency,
      or None when some remainder is left. */
  function Decompose(amount: nat, denominations: seq<Denomination>, currency: Currency): (r: Option<seq<Banknote>>)
    ensures r.Some? ==> SumValues(r.value) == amount
    ensures r.Some? ==> AllCurrency(r.value, currency)
    ensures r.Some? ==> forall i :: 0 <= i < |r.value| ==> r.value[i].value in denominations
    decreases |denominations|
  {
    if denominations == [] then
      if amount == 0 then Some([]) else None
    else
      var d := denominations[0];
      match Decompose(amount % d, denominations[1..], currency)
      case None => None
      case Some(rest) =>
        var notes := Repeat(amount / d, Banknote(d, currency));
        SumValuesConcat(notes, rest);
        Some(notes + rest)
  }

  /** The amounts the machine accepts: the greedy split leaves nothing over. */
  predicate Representable(amount: nat, denominations: seq<Denomination>)
  {
    Decompose(amount, denominations, PL).Some?
  }

  /** Every denomination is a multiple of the smallest one, which comes last. */
  predicate MultiplesOfLast(denominations: seq<Denomination>)
  {
    denominations != [] &&
    forall i :: 0 <= i < |denominations| ==> (denominations[i] as int) % (denominations[|denominations| - 1] as int) == 0
  }

  /** Whether the split succeeds does not depend on the currency. */
  lemma {:induction false} DecomposeCurrencyIndependent(amount: nat, denominations: seq<Denomination>, c1: Currency, c2: Currency)
    ensures Decompose(amount, denominations, c1).Some? == Decompose(amount, denominations, c2).Some?
    decreases |denominations|
  {
    if denominations != [] {
      DecomposeCurrencyIndependent(amount % denominations[0], denominations[1..], c1, c2);
    }
  }

  /** Euclidean division is unique: a quotient and a remainder in range are the ones `/` and `%` give. */
  lemma DivModUnique(a: int, u: Denomination, q: int, r: int)
    requires a == q * u + r && 0 <= r < u
    ensures a % u == r
  {
    var q', r' := a / u, a % u;
    assert a == q' * u + r';
    assert (q - q') * u == r' - r;
    // a nonzero multiple of u cannot lie strictly between -u and u
    if q - q' >= 1 || q - q' <= -1 {
      assert false;
    }
  }

  /** Taking the remainder by a multiple of `u` keeps the remainder by `u`. */
  lemma ModOfMultiple(a: nat, d: Denomination, u: Denomination)
    requires (d as int) % (u as int) == 0
    ensures (a % d) % u == a % u
  {
    var q, k := a / d, d / u;
    var r := a % d;
    var s, t := r / u, r % u;
    assert d == k * u;
    assert a == q * d + r;
    assert r == s * u + t;
    assert q * d == (q * k) * u;
    assert a == (q * k + s) * u + t;
    DivModUnique(a, u, q * k + s, t);
  }

  /** When every denomination is a multiple of the smallest one `u`, the greedy split
      succeeds exactly for the multiples of `u`. */
  lemma {:induction false} RepresentableMultiples(amount: nat, denominations: seq<Denomination>, currency: Currency)
    requires MultiplesOfLast(denominations)
    ensures Decompose(amount, denominations, currency).Some? <==> amount % denominations[|denominations| - 1] == 0
    decreases |denominations|
  {
    var d := denominations[0];
    var u := denominations[|denominations| - 1];
    var tail := denominations[1..];
    if |denominations| == 1 {
      assert u == d;
      assert (amount % d == 0) == (amount % u == 0);
    } else {
      assert tail[|tail| - 1] == u;
      assert MultiplesOfLast(tail) by {
        forall i | 0 <= i < |tail| ensures (tail[i] as int) % (u as int) == 0 {
          assert tail[i] == denominations[i + 1];
        }
      }
      RepresentableMultiples(amount % d, tail, currency);
      assert (d as int) % (u as int) == 0;
      ModOfMultiple(amount, d, u);
    }
  }
}
