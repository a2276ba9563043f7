/**
 The share rule of the distribution: a holder of `amount` tokens out of a
 supply of `supply` receives `floor(amount * revenue / supply)`. The
 program computes it in `u64`, so the product can overflow and the supply
 can be zero; both abort the instruction.
 */
module Share {
  import opened Types

  /**
   The mathematical share, characterised as the floor of the exact ratio:
   its multiple of the supply falls short of `amount * revenue` by less
   than one supply, and the shortfall is the remainder of the division.
   */
  function ProportionalShare(amount: nat, supply: nat, revenue: nat): (s: nat)
    requires supply > 0
    ensures s * supply <= amount * revenue < (s + 1) * supply
    ensures s * supply + amount * revenue % supply == amount * revenue
  {
    var product := amount * revenue;
    assert product == (product / supply) * supply + product % supply;
    product / supply
  }

  /**
   `calculate_share` with Rust's checked `u64` arithmetic: the product is
   formed first, so an overflowing product panics even when the supply is
   zero; a zero supply then panics on the division.
   */
  function CalculateShare(holderAmount: U64, totalSupply: U64, totalRevenue: U64): (r: Result<U64>)
    ensures r.Ok? <==> holderAmount * totalRevenue <= U64_MAX && totalSupply > 0
    ensures holderAmount * totalRevenue > U64_MAX ==> r == Err(MultiplyOverflow)
    ensures holderAmount * totalRevenue <= U64_MAX && totalSupply == 0 ==> r == Err(DivideByZero)
    ensures r.Ok? ==> r.value == ProportionalShare(holderAmount, totalSupply, totalRevenue)
  {
    var product := holderAmount * totalRevenue;
    if product > U64_MAX then Err(MultiplyOverflow)
    else if totalSupply == 0 then Err(DivideByZero)
    else
      ShareAtMostProduct(holderAmount, totalSupply, totalRevenue);
      Ok(ProportionalShare(holderAmount, totalSupply, totalRevenue))
  }

  /** `a * c <= b * c` for `a <= b`, the one step of ordered-field reasoning used below. */
  lemma MulLeftMonotone(a: nat, b: nat, c: nat)
    requires a <= b
    ensures a * c <= b * c
  {
    assert b * c == a * c + (b - a) * c;
  }

  /** Multiplication distributes over addition on the left factor. */
  lemma MulDistributes(a: nat, b: nat, c: nat)
    ensures (a + b) * c == a * c + b * c
  {
  }

  /** If `x * d <= y * d` with `d > 0`, then `x <= y`. */
  lemma CancelPositive(x: nat, y: nat, d: nat)
    requires d > 0
    requires x * d <= y * d
    ensures x <= y
  {
    if x > y {
      MulDistributes(y, 1, d);
      MulLeftMonotone(y + 1, x, d);
    }
  }

  /** If `x * d < (y + 1) * d`, then `x <= y`. */
  lemma CancelStrict(x: nat, y: nat, d: nat)
    requires x * d < (y + 1) * d
    ensures x <= y
  {
    if x > y {
      MulLeftMonotone(y + 1, x, d);
    }
  }

  /** The share never exceeds the product it divides. */
  lemma ShareAtMostProduct(amount: nat, supply: nat, revenue: nat)
    requires supply > 0
    ensures ProportionalShare(amount, supply, revenue) <= amount * revenue
  {
    var s := ProportionalShare(amount, supply, revenue);
    MulLeftMonotone(1, supply, s);
  }

  /** A holder never receives more than the revenue while it holds at most the supply. */
  lemma ShareAtMostRevenue(amount: nat, supply: nat, revenue: nat)
    requires supply > 0
    requires amount <= supply
    ensures ProportionalShare(amount, supply, revenue) <= revenue
  {
    var s := ProportionalShare(amount, supply, revenue);
    MulLeftMonotone(amount, supply, revenue);
    assert s * supply <= revenue * supply;
    CancelPositive(s, revenue, supply);
  }

  /** The holder of the whole supply receives the whole revenue. */
  lemma WholeSupplyTakesAll(supply: nat, revenue: nat)
    requires supply > 0
    ensures ProportionalShare(supply, supply, revenue) == revenue
  {
    var s := ProportionalShare(supply, supply, revenue);
    ShareAtMostRevenue(supply, supply, revenue);
    assert revenue * supply < (s + 1) * supply;
    CancelStrict(revenue, s, supply);
  }

  /** A larger holding never earns a smaller share. */
  lemma ShareMonotone(a1: nat, a2: nat, supply: nat, revenue: nat)
    requires supply > 0
    requires a1 <= a2
    ensures ProportionalShare(a1, supply, revenue) <= ProportionalShare(a2, supply, revenue)
  {
    var s1 := ProportionalShare(a1, supply, revenue);
    var s2 := ProportionalShare(a2, supply, revenue);
    MulLeftMonotone(a1, a2, revenue);
    CancelStrict(s1, s2, supply);
  }

  /**
   The checked computation is monotone too: when a holding's share can be
   computed, so can every smaller holding's, and it is no larger.
   */
  lemma CalculateShareMonotone(a1: U64, a2: U64, supply: U64, revenue: U64)
    requires a1 <= a2
    requires CalculateShare(a2, supply, revenue).Ok?
    ensures CalculateShare(a1, supply, revenue).Ok?
    ensures CalculateShare(a1, supply, revenue).value <= CalculateShare(a2, supply, revenue).value
  {
    MulLeftMonotone(a1, a2, revenue);
    ShareMonotone(a1, a2, supply, revenue);
  }

  /** A computed share is at most the revenue when the holding is at most the supply. */
  lemma CalculateShareBounded(amount: U64, supply: U64, revenue: U64)
    requires amount <= supply
    requires CalculateShare(amount, supply, revenue).Ok?
    ensures CalculateShare(amount, supply, revenue).value <= revenue
  {
    ShareAtMostRevenue(amount, supply, revenue);
  }

  // ---------------- shares of a list of holdings ----------------

  function Sum(xs: seq<nat>): nat
  {
    if |xs| == 0 then 0 else xs[0] + Sum(xs[1..])
  }

  /** The share of every holding in the list. */
  function SharesOf(balances: seq<nat>, supply: nat, revenue: nat): seq<nat>
    requires supply > 0
  {
    seq(|balances|, i requires 0 <= i < |balances| => ProportionalShare(balances[i], supply, revenue))
  }

  /** What truncation drops from each holding's exact share, scaled by the supply. */
  function Remainders(balances: seq<nat>, supply: nat, revenue: nat): seq<nat>
    requires supply > 0
  {
    seq(|balances|, i requires 0 <= i < |balances| => balances[i] * revenue % supply)
  }

  /** A sum of naturals is zero exactly when every term is. */
  lemma {:induction false} SumZeroIff(xs: seq<nat>)
    ensures Sum(xs) == 0 <==> forall i :: 0 <= i < |xs| ==> xs[i] == 0
  {
    if |xs| > 0 {
      SumZeroIff(xs[1..]);
      assert forall i :: 1 <= i < |xs| ==> xs[i] == xs[1..][i - 1];
    }
  }

  /** The sum of a prefix is at most the sum of the whole list. */
  lemma {:induction false} SumPrefix(xs: seq<nat>, k: nat)
    requires k <= |xs|
    ensures Sum(xs[..k]) <= Sum(xs)
  {
    if k > 0 {
      assert xs[..k][1..] == xs[1..][..k - 1];
      SumPrefix(xs[1..], k - 1);
    }
  }

  /**
   Exact accounting of the truncation: the shares times the supply plus the
   dropped remainders give back the listed holdings times the revenue.
   */
  lemma {:induction false} SharesAccountForRevenue(balances: seq<nat>, supply: nat, revenue: nat)
    requires supply > 0
    ensures Sum(SharesOf(balances, supply, revenue)) * supply + Sum(Remainders(balances, supply, revenue))
            == Sum(balances) * revenue
  {
    if |balances| > 0 {
      var shares := SharesOf(balances, supply, revenue);
      var rems := Remainders(balances, supply, revenue);
      var tail := balances[1..];
      assert shares[1..] == SharesOf(tail, supply, revenue);
      assert rems[1..] == Remainders(tail, supply, revenue);
      SharesAccountForRevenue(tail, supply, revenue);
      assert shares[0] * supply + rems[0] == balances[0] * revenue;
      AccountingStep(shares[0], rems[0], balances[0], Sum(shares[1..]), Sum(rems[1..]), Sum(tail), supply, revenue);
    }
  }

  /** One step of `SharesAccountForRevenue`: the accounting identity is additive. */
  lemma AccountingStep(share: nat, rem: nat, balance: nat, shares: nat, rems: nat, balances: nat, supply: nat, revenue: nat)
    requires share * supply + rem == balance * revenue
    requires shares * supply + rems == balances * revenue
    ensures (share + shares) * supply + (rem + rems) == (balance + balances) * revenue
  {
    MulDistributes(share, shares, supply);
    MulDistributes(balance, balances, revenue);
  }

  /**
   Conservation: when the listed holdings add up to at most the supply,
   the shares add up to at most the revenue.
   */
  lemma SharesConserveRevenue(balances: seq<nat>, supply: nat, revenue: nat)
    requires supply > 0
    requires Sum(balances) <= supply
    ensures Sum(SharesOf(balances, supply, revenue)) <= revenue
  {
    SharesAccountForRevenue(balances, supply, revenue);
    var total := Sum(SharesOf(balances, supply, revenue));
    MulLeftMonotone(Sum(balances), supply, revenue);
    assert total * supply <= revenue * supply;
    CancelPositive(total, revenue, supply);
  }

  /**
   No dust exactly when the listed holdings are the whole supply and the
   supply divides every holding's scaled revenue.
   */
  lemma SharesExhaustRevenueIff(balances: seq<nat>, supply: nat, revenue: nat)
    requires supply > 0
    requires revenue > 0
    requires Sum(balances) <= supply
    ensures Sum(SharesOf(balances, supply, revenue)) == revenue
            <==> Sum(balances) == supply
                 && forall i :: 0 <= i < |balances| ==> balances[i] * revenue % supply == 0
  {
    SharesAccountForRevenue(balances, supply, revenue);
    var rems := Remainders(balances, supply, revenue);
    SumZeroIff(rems);
    assert |rems| == |balances|;
    assert forall i :: 0 <= i < |balances| ==> rems[i] == balances[i] * revenue % supply;
    ExhaustArithmetic(Sum(SharesOf(balances, supply, revenue)), Sum(balances), Sum(rems), supply, revenue);
  }

  /** The arithmetic core of `SharesExhaustRevenueIff`, over the sums alone. */
  lemma ExhaustArithmetic(total: nat, held: nat, dropped: nat, supply: nat, revenue: nat)
    requires supply > 0 && revenue > 0
    requires held <= supply
    requires total * supply + dropped == held * revenue
    ensures total == revenue <==> held == supply && dropped == 0
  {
    MulLeftMonotone(held, supply, revenue);
    if total == revenue {
      CancelPositive(supply, held, revenue);
    }
    if held == supply && dropped == 0 {
      CancelPositive(total, revenue, supply);
      CancelPositive(revenue, total, supply);
    }
  }
}
