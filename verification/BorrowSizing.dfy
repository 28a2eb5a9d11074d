/** How much USDO the deployment borrows against an amount of ETH. */
module BorrowSizing {
  import opened Evm

  const ETHER: nat := 1_000000000_000000000            // 10^18
  const ETHER_SQUARED: nat := ETHER * ETHER            // 10^36

  /** BigNumber's division truncates towards zero. */
  function Div(a: int, b: int): int
    requires b > 0
  {
    if a >= 0 then a / b else -((-a) / b)
  }

  /** The amount before the safety margin: the inverted rate, rounded down, times the amount
      of ETH, rounded down. */
  function FullAmount(rate: nat, amount: nat): nat
    requires rate > 0
  {
    ETHER_SQUARED / rate * amount / ETHER
  }

  /** The amount to borrow. A zero rate throws. */
  function BorrowAmount(rate: nat, amount: nat, delta: int): Result<int> {
    if rate == 0 then Revert(Panic)
    else
      var full := FullAmount(rate, amount);
      Ok(full - Div(full * delta, 100))
  }

  lemma DivBounds(a: nat, b: nat)
    requires b > 0
    ensures a / b * b <= a < a / b * b + b
  {
  }

  lemma DivMonotone(a: nat, b: nat, c: nat)
    requires a <= b && c > 0
    ensures a / c <= b / c
  {
    DivBounds(a, c);
    DivBounds(b, c);
    assert (b / c + 1) * c == b / c * c + c;
    if a / c > b / c {
      MulMonotone(b / c + 1, a / c, c);
    }
  }

  lemma DivAntitone(a: nat, b: nat, c: nat)
    requires 0 < b <= c
    ensures a / c <= a / b
  {
    DivBounds(a, b);
    DivBounds(a, c);
    assert (a / b + 1) * b == a / b * b + b;
    MulMonotone(b, c, a / c);
    if a / c > a / b {
      MulMonotone(a / b + 1, a / c, b);
    }
  }

  lemma MulMonotone(a: nat, b: nat, c: nat)
    requires a <= b
    ensures a * c <= b * c && c * a <= c * b
  {
  }

  /** Two roundings: never too much, and too little by less than one unit of each. */
  lemma FullAmountBounds(rate: nat, amount: nat)
    requires rate > 0
    ensures FullAmount(rate, amount) * rate <= amount * 1_000000000_000000000
    ensures 1_000000000_000000000 * (amount * 1_000000000_000000000 - FullAmount(rate, amount) * rate)
            <= rate * amount + rate * 1_000000000_000000000
  {
    var q := ETHER_SQUARED / rate;
    var full := FullAmount(rate, amount);
    DivBounds(ETHER_SQUARED, rate);
    DivBounds(q * amount, ETHER);
    Lower(q, rate, amount, full);
    Upper(q, rate, amount, full);
  }

  /** Rounding twice, not once: the inverted rate is the largest q with q * rate <= 10^36, and
      the amount the largest f with f * 10^18 <= q * amount; no other f fits. */
  lemma FullAmountRoundsTwice(rate: nat, amount: nat, q: nat, f: nat)
    requires rate > 0
    requires q * rate <= 1_000000000_000000000_000000000_000000000 < (q + 1) * rate
    ensures f == FullAmount(rate, amount) <==>
              f * 1_000000000_000000000 <= q * amount < (f + 1) * 1_000000000_000000000
  {
    DivIsLargest(ETHER_SQUARED, rate, q);
    DivBounds(q * amount, ETHER);
    if f * ETHER <= q * amount < (f + 1) * ETHER {
      DivIsLargest(q * amount, ETHER, f);
    }
  }

  lemma DivIsLargest(a: nat, b: nat, q: nat)
    requires b > 0 && q * b <= a < (q + 1) * b
    ensures a / b == q
  {
    DivBounds(a, b);
    if a / b < q {
      MulMonotone(a / b + 1, q, b);
    } else if a / b > q {
      MulMonotone(q + 1, a / b, b);
    }
  }

  lemma Lower(q: nat, rate: nat, amount: nat, full: nat)
    requires q * rate <= ETHER_SQUARED && full * ETHER <= q * amount
    ensures full * rate <= amount * ETHER
  {
    MulMonotone(full * ETHER, q * amount, rate);
    MulMonotone(q * rate, ETHER_SQUARED, amount);
    assert full * ETHER * rate == full * rate * ETHER;
    assert q * amount * rate == q * rate * amount;
    assert ETHER_SQUARED * amount == amount * ETHER * ETHER;
    assert full * rate * ETHER <= amount * ETHER * ETHER;
  }

  lemma Upper(q: nat, rate: nat, amount: nat, full: nat)
    requires ETHER_SQUARED < q * rate + rate && q * amount < full * ETHER + ETHER
    ensures ETHER * (amount * ETHER - full * rate) <= rate * amount + rate * ETHER
  {
    MulMonotone(q * amount, full * ETHER + ETHER, rate);
    MulMonotone(ETHER_SQUARED, q * rate + rate, amount);
    assert q * amount * rate == q * rate * amount;
    assert (q * rate + rate) * amount == q * rate * amount + rate * amount;
    assert (full * ETHER + ETHER) * rate == full * rate * ETHER + rate * ETHER;
    assert ETHER_SQUARED * amount == ETHER * (amount * ETHER);
    assert ETHER * (full * rate) == full * rate * ETHER;
    assert ETHER * (amount * ETHER - full * rate) == ETHER * (amount * ETHER) - ETHER * (full * rate);
  }

  lemma MarginBounds(full: nat, delta: nat)
    ensures var y := full - Div(full * delta, 100);
            && full * (100 - delta) <= 100 * y < full * (100 - delta) + 100
            && y <= full
            && (y < 0 <==> full * (delta - 100) >= 100)
  {
    MulMonotone(0, delta, full);
    var cut := full * delta;
    DivBounds(cut, 100);
    assert full * (100 - delta) == 100 * full - cut;
    assert full * (delta - 100) == cut - 100 * full;
  }

  /** A negative margin adds to the amount, and the addition is rounded down. */
  lemma SurchargeBounds(full: nat, delta: int)
    requires delta < 0
    ensures var y := full - Div(full * delta, 100);
            full * (100 - delta) - 100 < 100 * y <= full * (100 - delta)
  {
    var extra := full * -delta;
    assert full * delta == -extra;
    assert extra >= 0 by { MulMonotone(0, -delta, full); }
    DivBounds(extra, 100);
    if extra == 0 {
      assert Div(full * delta, 100) == 0;
    } else {
      assert Div(full * delta, 100) == -(extra / 100);
    }
    assert full * (100 - delta) == 100 * full + extra;
  }

  lemma ScaleDown(y: int, full: nat, rate: nat)
    requires y <= full
    ensures y * rate <= full * rate
  {
    MulMonotone(0, full - y, rate);
    assert (full - y) * rate == full * rate - y * rate;
  }

  /** The margin is exact up to rounding in the borrower's favour, and a surcharge up to
      rounding against him. With a margin the value of the loan never exceeds the collateral,
      and only a margin above 100% makes it negative. A zero rate throws. */
  lemma BorrowAmountBounds(rate: nat, amount: nat, delta: int)
    ensures rate == 0 ==> BorrowAmount(rate, amount, delta).Revert?
    ensures rate > 0 ==>
              && BorrowAmount(rate, amount, delta).Ok?
              && var full, y := FullAmount(rate, amount), BorrowAmount(rate, amount, delta).value;
                 if delta >= 0 then
                   && y * rate <= amount * 1_000000000_000000000
                   && full * (100 - delta) <= 100 * y < full * (100 - delta) + 100
                   && (y < 0 <==> full * (delta - 100) >= 100)
                 else
                   full * (100 - delta) - 100 < 100 * y <= full * (100 - delta)
  {
    if rate > 0 {
      FullAmountBounds(rate, amount);
      if delta >= 0 {
        MarginBounds(FullAmount(rate, amount), delta);
        ScaleDown(BorrowAmount(rate, amount, delta).value, FullAmount(rate, amount), rate);
      } else {
        SurchargeBounds(FullAmount(rate, amount), delta);
      }
    }
  }

  /** The loan is covered at every rate and amount exactly when the margin is not negative. */
  lemma CoveredExactly(delta: int)
    ensures (forall rate: nat, amount: nat :: rate > 0 ==>
               BorrowAmount(rate, amount, delta).value * rate <= amount * ETHER)
            <==> delta >= 0
  {
    if delta >= 0 {
      forall rate: nat, amount: nat | rate > 0
        ensures BorrowAmount(rate, amount, delta).value * rate <= amount * ETHER
      {
        BorrowAmountBounds(rate, amount, delta);
      }
    } else {
      var amount := 100 * ETHER;
      assert FullAmount(ETHER, amount) == amount;
      assert amount * delta == 100 * (ETHER * delta);
      assert Div(amount * delta, 100) == ETHER * delta;
      assert BorrowAmount(ETHER, amount, delta).value == amount - ETHER * delta > amount;
    }
  }

  /** More collateral never borrows less; a higher rate or a larger margin never borrows
      more. */
  lemma BorrowAmountOrder(rate: nat, rate': nat, amount: nat, amount': nat, delta: int, delta': int)
    requires 0 < rate' <= rate && amount <= amount' && 0 <= delta' <= delta <= 100
    ensures BorrowAmount(rate, amount, delta).value <= BorrowAmount(rate', amount', delta').value
  {
    var f, f' := FullAmount(rate, amount), FullAmount(rate', amount');
    DivAntitone(ETHER_SQUARED, rate', rate);
    MulMonotone(ETHER_SQUARED / rate, ETHER_SQUARED / rate', amount);
    MulMonotone(amount, amount', ETHER_SQUARED / rate');
    DivMonotone(ETHER_SQUARED / rate * amount, ETHER_SQUARED / rate' * amount', ETHER);
    BorrowAmountBounds(rate, amount, delta);
    BorrowAmountBounds(rate', amount', delta');
    var y, y' := BorrowAmount(rate, amount, delta).value, BorrowAmount(rate', amount', delta').value;
    MulMonotone(f, f', 100 - delta);
    MulMonotone(100 - delta, 100 - delta', f');
    // 100 y < f (100 - delta) + 100 <= f' (100 - delta') + 100 <= 100 y' + 100
    assert 100 * y < 100 * y' + 100;
  }
}
