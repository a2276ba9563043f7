/**
 Revenue distribution (`distribute_revenue`). The lot's owner pays each
 listed holder, in list order, `floor(balance * revenue / supply)` out of
 the owner's token account. The supply is read once; each holder's balance
 is read from the ledger as it stands when that holder's turn comes. The
 first failing step ends the call: transfers already made stay made and no
 event is emitted.
 */
module Distribution {
  import opened Types
  import opened TokenLedger
  import opened Share
  import opened LotRegistry

  /** One transfer issued from the owner's token account to a holder. */
  datatype Payment = Payment(to: Pubkey, amount: U64)

  /** One holder paid: the share computed for it and the ledger after its transfer. */
  datatype Step = Step(share: U64, ledger: Balances)

  /**
   Where the holder loop stopped: the ledger at that point, the transfers
   issued so far, and the failure that ended the loop early, if any.
   */
  datatype Payout = Payout(ledger: Balances, paid: seq<Payment>, failure: Option<ProgramError>)

  /** The accounts `distribute_revenue` is given, reduced to what its logic reads. */
  datatype DistributeAccounts = DistributeAccounts(
    lotAddress: Pubkey,
    lot: Lot,
    signer: Pubkey,
    farmerTokenAccount: Pubkey,
    mintSupply: U64)

  /** The outcome of one `distribute_revenue` call. */
  datatype Receipt = Receipt(
    ledger: Balances,
    paid: seq<Payment>,
    events: seq<Event>,
    failure: Option<ProgramError>)

  function Amounts(paid: seq<Payment>): seq<nat>
  {
    seq(|paid|, i requires 0 <= i < |paid| => paid[i].amount)
  }

  function TotalPaid(paid: seq<Payment>): nat
  {
    Sum(Amounts(paid))
  }

  /** The balances of the listed holders as the ledger records them. */
  function EntryBalances(ledger: Balances, holders: seq<Pubkey>): seq<nat>
  {
    seq(|holders|, i requires 0 <= i < |holders| => BalanceOf(ledger, holders[i]))
  }

  predicate Distinct(holders: seq<Pubkey>)
  {
    forall i, j :: 0 <= i < j < |holders| ==> holders[i] != holders[j]
  }

  /**
   One turn of the loop: read the holder as a token account, compute its
   share of the revenue, and transfer that share from the source.
   */
  function PayOne(ledger: Balances, source: Pubkey, holder: Pubkey, supply: U64, revenue: U64): Result<Step>
    requires source in ledger
  {
    if holder !in ledger then Err(AccountNotTokenAccount)
    else match CalculateShare(ledger[holder], supply, revenue)
      case Err(e) => Err(e)
      case Ok(share) =>
        match Transfer(ledger, source, holder, share)
        case Err(e) => Err(e)
        case Ok(next) => Ok(Step(share, next))
  }

  /** A successful turn keeps the accounts, never credits the source and touches no third account. */
  lemma PayOneKeepsOthers(ledger: Balances, source: Pubkey, holder: Pubkey, supply: U64, revenue: U64)
    requires source in ledger
    requires PayOne(ledger, source, holder, supply, revenue).Ok?
    ensures var next := PayOne(ledger, source, holder, supply, revenue).value.ledger;
      && supply > 0
      && next.Keys == ledger.Keys
      && next[source] <= ledger[source]
      && forall a :: a in ledger && a != source && a != holder ==> next[a] == ledger[a]
  {
    var step := PayOne(ledger, source, holder, supply, revenue).value;
    assert CalculateShare(ledger[holder], supply, revenue) == Ok(step.share);
    assert Transfer(ledger, source, holder, step.share) == Ok(step.ledger);
  }

  /**
   The holder loop. Exactly one transfer per listed holder, in list order,
   zero shares included, until the first failing turn; that turn's failure
   ends the loop with the ledger as it was before the turn.
   */
  function PayHolders(ledger: Balances, source: Pubkey, holders: seq<Pubkey>, supply: U64, revenue: U64): (p: Payout)
    requires source in ledger
    ensures p.ledger.Keys == ledger.Keys
    ensures |p.paid| <= |holders|
    ensures forall i :: 0 <= i < |p.paid| ==> p.paid[i].to == holders[i]
    ensures p.failure.None? <==> |p.paid| == |holders|
    ensures p.failure.Some? ==>
      PayOne(p.ledger, source, holders[|p.paid|], supply, revenue) == Err(p.failure.value)
    ensures supply == 0 ==> p.paid == []
    ensures p.ledger[source] <= ledger[source]
    ensures forall a :: a in ledger && a != source && a !in holders ==> p.ledger[a] == ledger[a]
    decreases |holders|
  {
    if |holders| == 0 then Payout(ledger, [], None)
    else
      match PayOne(ledger, source, holders[0], supply, revenue)
      case Err(e) => Payout(ledger, [], Some(e))
      case Ok(step) =>
        PayOneKeepsOthers(ledger, source, holders[0], supply, revenue);
        var rest := PayHolders(step.ledger, source, holders[1..], supply, revenue);
        Payout(rest.ledger, [Payment(holders[0], step.share)] + rest.paid, rest.failure)
  }

  /**
   `distribute_revenue`. The owner constraint on the lot is an account
   constraint, so it is checked before the handler's revenue check; both
   fail before anything moves. Then the holders are paid and, only if every
   transfer went through, `RevenueDistributed` is emitted.
   */
  function DistributeRevenue(
    accounts: DistributeAccounts,
    totalRevenue: U64,
    holders: seq<Pubkey>,
    ledger: Balances,
    now: I64): (r: Receipt)
    requires accounts.farmerTokenAccount in ledger
    ensures accounts.signer != accounts.lot.owner ==>
      r == Receipt(ledger, [], [], Some(Custom(InvalidOwner)))
    ensures accounts.signer == accounts.lot.owner && totalRevenue == 0 ==>
      r == Receipt(ledger, [], [], Some(Custom(InvalidRevenueAmount)))
    ensures r.failure.None? <==>
      accounts.signer == accounts.lot.owner && totalRevenue > 0 && |r.paid| == |holders|
    ensures |r.paid| <= |holders|
    ensures forall i :: 0 <= i < |r.paid| ==> r.paid[i].to == holders[i]
    ensures r.failure.None? ==> r.events == [RevenueDistributed(accounts.lotAddress, totalRevenue, now)]
    ensures r.failure.Some? ==> r.events == []
    ensures accounts.mintSupply == 0 ==> r.paid == []
    ensures r.ledger.Keys == ledger.Keys
    ensures r.ledger[accounts.farmerTokenAccount] <= ledger[accounts.farmerTokenAccount]
    ensures forall a :: a in ledger && a != accounts.farmerTokenAccount && a !in holders ==>
      r.ledger[a] == ledger[a]
  {
    if accounts.signer != accounts.lot.owner then
      Receipt(ledger, [], [], Some(Custom(InvalidOwner)))
    else if totalRevenue == 0 then
      Receipt(ledger, [], [], Some(Custom(InvalidRevenueAmount)))
    else
      var p := PayHolders(ledger, accounts.farmerTokenAccount, holders, accounts.mintSupply, totalRevenue);
      if p.failure.Some? then Receipt(p.ledger, p.paid, [], p.failure)
      else Receipt(p.ledger, p.paid, [RevenueDistributed(accounts.lotAddress, totalRevenue, now)], None)
  }

  lemma TotalPaidCons(payment: Payment, rest: seq<Payment>)
    ensures TotalPaid([payment] + rest) == payment.amount + TotalPaid(rest)
  {
    assert Amounts([payment] + rest)[1..] == Amounts(rest);
  }

  /** A successful turn for a holder other than the source moves its share of the holder's balance. */
  lemma PayOneMovesShare(ledger: Balances, source: Pubkey, holder: Pubkey, supply: U64, revenue: U64)
    requires source in ledger
    requires holder != source
    requires PayOne(ledger, source, holder, supply, revenue).Ok?
    ensures var step := PayOne(ledger, source, holder, supply, revenue).value;
      && holder in ledger
      && supply > 0
      && step.share == ProportionalShare(ledger[holder], supply, revenue)
      && step.ledger.Keys == ledger.Keys
      && step.ledger[source] == ledger[source] - step.share
      && step.ledger[holder] == ledger[holder] + step.share
      && forall a :: a in ledger && a != source && a != holder ==> step.ledger[a] == ledger[a]
  {
    var step := PayOne(ledger, source, holder, supply, revenue).value;
    assert CalculateShare(ledger[holder], supply, revenue) == Ok(step.share);
    assert Transfer(ledger, source, holder, step.share) == Ok(step.ledger);
  }

  /** Under distinct holders other than the source, each paid amount is the share of the starting balance. */
  lemma {:induction false} PaidSharesOfEntryBalances(
    ledger: Balances, source: Pubkey, holders: seq<Pubkey>, supply: U64, revenue: U64)
    requires source in ledger
    requires Distinct(holders)
    requires forall i :: 0 <= i < |holders| ==> holders[i] != source
    ensures var p := PayHolders(ledger, source, holders, supply, revenue);
      forall i :: 0 <= i < |p.paid| ==>
        && holders[i] in ledger
        && supply > 0
        && p.paid[i].amount == ProportionalShare(ledger[holders[i]], supply, revenue)
    decreases |holders|
  {
    if |holders| > 0 && PayOne(ledger, source, holders[0], supply, revenue).Ok? {
      var h := holders[0];
      var step := PayOne(ledger, source, h, supply, revenue).value;
      PayOneMovesShare(ledger, source, h, supply, revenue);
      var tail := holders[1..];
      assert forall i :: 0 <= i < |tail| ==> tail[i] == holders[i + 1] && tail[i] != h;
      PaidSharesOfEntryBalances(step.ledger, source, tail, supply, revenue);
    }
  }

  /** Under distinct holders other than the source, the source loses exactly the total paid. */
  lemma {:induction false} SourceLosesTotalPaid(
    ledger: Balances, source: Pubkey, holders: seq<Pubkey>, supply: U64, revenue: U64)
    requires source in ledger
    requires forall i :: 0 <= i < |holders| ==> holders[i] != source
    ensures var p := PayHolders(ledger, source, holders, supply, revenue);
      p.ledger[source] + TotalPaid(p.paid) == ledger[source]
    decreases |holders|
  {
    if |holders| > 0 && PayOne(ledger, source, holders[0], supply, revenue).Ok? {
      var h := holders[0];
      var step := PayOne(ledger, source, h, supply, revenue).value;
      PayOneMovesShare(ledger, source, h, supply, revenue);
      var tail := holders[1..];
      assert forall i :: 0 <= i < |tail| ==> tail[i] == holders[i + 1];
      SourceLosesTotalPaid(step.ledger, source, tail, supply, revenue);
      var rest := PayHolders(step.ledger, source, tail, supply, revenue);
      TotalPaidCons(Payment(h, step.share), rest.paid);
    }
  }

  /** The holder at position `i` is listed nowhere else. */
  predicate ListedOnceAt(holders: seq<Pubkey>, i: nat)
    requires i < |holders|
  {
    forall j :: 0 <= j < |holders| && j != i ==> holders[j] != holders[i]
  }

  /**
   When the `i`-th holder is listed only once and no holder is the source,
   the `i`-th paid holder gains exactly its payment.
   */
  lemma {:induction false} PaidHolderGains(
    ledger: Balances, source: Pubkey, holders: seq<Pubkey>, supply: U64, revenue: U64, i: nat)
    requires source in ledger
    requires forall j :: 0 <= j < |holders| ==> holders[j] != source
    requires i < |PayHolders(ledger, source, holders, supply, revenue).paid|
    requires ListedOnceAt(holders, i)
    ensures var p := PayHolders(ledger, source, holders, supply, revenue);
      holders[i] in ledger && p.ledger[holders[i]] == ledger[holders[i]] + p.paid[i].amount
    decreases |holders|
  {
    var p := PayHolders(ledger, source, holders, supply, revenue);
    var h := holders[0];
    assert PayOne(ledger, source, h, supply, revenue).Ok?;
    var step := PayOne(ledger, source, h, supply, revenue).value;
    PayOneMovesShare(ledger, source, h, supply, revenue);
    var tail := holders[1..];
    var rest := PayHolders(step.ledger, source, tail, supply, revenue);
    PayHoldersStep(ledger, source, holders, supply, revenue);
    if i == 0 {
      assert h !in tail by {
        forall j | 0 <= j < |tail|
          ensures tail[j] != h
        {
          assert tail[j] == holders[j + 1];
        }
      }
    } else {
      assert holders[i] == tail[i - 1] && holders[i] != h;
      forall j | 0 <= j < |tail|
        ensures tail[j] != source && (j != i - 1 ==> tail[j] != tail[i - 1])
      {
        assert tail[j] == holders[j + 1];
      }
      PaidHolderGains(step.ledger, source, tail, supply, revenue, i - 1);
      assert p.paid[i] == rest.paid[i - 1];
    }
  }

  /** One unfolding of the holder loop after a successful first turn. */
  lemma PayHoldersStep(ledger: Balances, source: Pubkey, holders: seq<Pubkey>, supply: U64, revenue: U64)
    requires source in ledger
    requires |holders| > 0
    requires PayOne(ledger, source, holders[0], supply, revenue).Ok?
    ensures var step := PayOne(ledger, source, holders[0], supply, revenue).value;
      var rest := PayHolders(step.ledger, source, holders[1..], supply, revenue);
      PayHolders(ledger, source, holders, supply, revenue)
        == Payout(rest.ledger, [Payment(holders[0], step.share)] + rest.paid, rest.failure)
  {
  }

  /** An account other than the source that none of the paid turns named keeps its balance. */
  lemma {:induction false} UnpaidAccountKeeps(
    ledger: Balances, source: Pubkey, holders: seq<Pubkey>, supply: U64, revenue: U64, a: Pubkey)
    requires source in ledger
    requires a in ledger && a != source
    requires a !in holders[..|PayHolders(ledger, source, holders, supply, revenue).paid|]
    ensures PayHolders(ledger, source, holders, supply, revenue).ledger[a] == ledger[a]
    decreases |holders|
  {
    if |holders| > 0 && PayOne(ledger, source, holders[0], supply, revenue).Ok? {
      var step := PayOne(ledger, source, holders[0], supply, revenue).value;
      UnpaidAccountKeepsStep(ledger, source, holders, supply, revenue, a);
      UnpaidAccountKeeps(step.ledger, source, holders[1..], supply, revenue, a);
    }
  }

  /** The inductive step of `UnpaidAccountKeeps`: the first turn leaves the account alone and passes it on unpaid. */
  lemma UnpaidAccountKeepsStep(
    ledger: Balances, source: Pubkey, holders: seq<Pubkey>, supply: U64, revenue: U64, a: Pubkey)
    requires source in ledger
    requires a in ledger && a != source
    requires |holders| > 0 && PayOne(ledger, source, holders[0], supply, revenue).Ok?
    requires a !in holders[..|PayHolders(ledger, source, holders, supply, revenue).paid|]
    ensures var step := PayOne(ledger, source, holders[0], supply, revenue).value;
      var rest := PayHolders(step.ledger, source, holders[1..], supply, revenue);
      && a in step.ledger
      && step.ledger[a] == ledger[a]
      && a !in holders[1..][..|rest.paid|]
      && PayHolders(ledger, source, holders, supply, revenue).ledger == rest.ledger
  {
    var h := holders[0];
    var step := PayOne(ledger, source, h, supply, revenue).value;
    var tail := holders[1..];
    var rest := PayHolders(step.ledger, source, tail, supply, revenue);
    PayHoldersStep(ledger, source, holders, supply, revenue);
    var k := |rest.paid|;
    assert a != h by {
      assert holders[..k + 1][0] == h;
    }
    assert a !in tail[..k] by {
      forall j | 0 <= j < k
        ensures tail[..k][j] == holders[..k + 1][j + 1]
      {
      }
    }
    PayOneKeepsOthers(ledger, source, h, supply, revenue);
  }

  /**
   When the `i`-th holder is listed only once, that holder keeps its
   balance if the loop did not reach it.
   */
  lemma UnreachedHolderKeeps(
    ledger: Balances, source: Pubkey, holders: seq<Pubkey>, supply: U64, revenue: U64, i: nat)
    requires source in ledger
    requires |PayHolders(ledger, source, holders, supply, revenue).paid| <= i < |holders|
    requires holders[i] != source
    requires ListedOnceAt(holders, i)
    requires holders[i] in ledger
    ensures PayHolders(ledger, source, holders, supply, revenue).ledger[holders[i]] == ledger[holders[i]]
  {
    var p := PayHolders(ledger, source, holders, supply, revenue);
    var paid := holders[..|p.paid|];
    assert forall j :: 0 <= j < |paid| ==> paid[j] == holders[j];
    UnpaidAccountKeeps(ledger, source, holders, supply, revenue, holders[i]);
  }

  /**
   Under distinct holders other than the source, each paid holder gains
   exactly its payment and the holders not reached keep their balance.
   */
  lemma HoldersGainTheirPayments(
    ledger: Balances, source: Pubkey, holders: seq<Pubkey>, supply: U64, revenue: U64)
    requires source in ledger
    requires Distinct(holders)
    requires forall i :: 0 <= i < |holders| ==> holders[i] != source
    ensures var p := PayHolders(ledger, source, holders, supply, revenue);
      && (forall i :: 0 <= i < |p.paid| ==>
            holders[i] in ledger && p.ledger[holders[i]] == ledger[holders[i]] + p.paid[i].amount)
      && (forall i :: |p.paid| <= i < |holders| && holders[i] in ledger ==>
            p.ledger[holders[i]] == ledger[holders[i]])
  {
    var p := PayHolders(ledger, source, holders, supply, revenue);
    forall i | 0 <= i < |p.paid|
      ensures holders[i] in ledger && p.ledger[holders[i]] == ledger[holders[i]] + p.paid[i].amount
    {
      PaidHolderGains(ledger, source, holders, supply, revenue, i);
    }
    forall i | |p.paid| <= i < |holders| && holders[i] in ledger
      ensures p.ledger[holders[i]] == ledger[holders[i]]
    {
      UnreachedHolderKeeps(ledger, source, holders, supply, revenue, i);
    }
  }

  /**
   With distinct holders that do not include the source, reading each
   balance at its turn is the same as reading it at the start: every paid
   holder gets the share of its starting balance, the source loses exactly
   what was paid, each paid holder gains exactly its share, and holders not
   reached keep their balance.
   */
  lemma PayHoldersReadsEntryBalances(
    ledger: Balances, source: Pubkey, holders: seq<Pubkey>, supply: U64, revenue: U64)
    requires source in ledger
    requires Distinct(holders)
    requires forall i :: 0 <= i < |holders| ==> holders[i] != source
    ensures var p := PayHolders(ledger, source, holders, supply, revenue);
      && (forall i :: 0 <= i < |p.paid| ==>
            && holders[i] in ledger
            && supply > 0
            && p.paid[i].amount == ProportionalShare(ledger[holders[i]], supply, revenue))
      && p.ledger[source] + TotalPaid(p.paid) == ledger[source]
      && (forall i :: 0 <= i < |p.paid| ==> p.ledger[holders[i]] == ledger[holders[i]] + p.paid[i].amount)
      && (forall i :: |p.paid| <= i < |holders| && holders[i] in ledger ==>
            p.ledger[holders[i]] == ledger[holders[i]])
  {
    PaidSharesOfEntryBalances(ledger, source, holders, supply, revenue);
    SourceLosesTotalPaid(ledger, source, holders, supply, revenue);
    HoldersGainTheirPayments(ledger, source, holders, supply, revenue);
  }

  /**
   When the listed holders are distinct token accounts other than the
   source, the supply is positive, no holder's product overflows, no holder
   overflows on receipt, and the source covers the sum of the shares, every
   holder is paid.
   */
  lemma {:induction false} PayHoldersCompletes(
    ledger: Balances, source: Pubkey, holders: seq<Pubkey>, supply: U64, revenue: U64)
    requires source in ledger
    requires Distinct(holders)
    requires forall i :: 0 <= i < |holders| ==> holders[i] != source && holders[i] in ledger
    requires supply > 0
    requires forall i :: 0 <= i < |holders| ==> ledger[holders[i]] * revenue <= U64_MAX
    requires forall i :: 0 <= i < |holders| ==>
      ledger[holders[i]] + ProportionalShare(ledger[holders[i]], supply, revenue) <= U64_MAX
    requires Sum(SharesOf(EntryBalances(ledger, holders), supply, revenue)) <= ledger[source]
    ensures PayHolders(ledger, source, holders, supply, revenue).failure == None
    decreases |holders|
  {
    if |holders| > 0 {
      var h := holders[0];
      var tail := holders[1..];
      var shares := SharesOf(EntryBalances(ledger, holders), supply, revenue);
      var share := ProportionalShare(ledger[h], supply, revenue);
      assert shares[0] == share;
      assert CalculateShare(ledger[h], supply, revenue) == Ok(share);
      assert Transfer(ledger, source, h, share).Ok?;
      var step := PayOne(ledger, source, h, supply, revenue).value;
      PayOneMovesShare(ledger, source, h, supply, revenue);
      assert forall i :: 0 <= i < |tail| ==> tail[i] == holders[i + 1] && tail[i] != h;
      assert shares[1..] == SharesOf(EntryBalances(step.ledger, tail), supply, revenue);
      PayHoldersCompletes(step.ledger, source, tail, supply, revenue);
    }
  }

  /**
   Under distinct holders other than the source, the amounts paid are the
   shares of the starting balances of the holders reached.
   */
  lemma PaidAmountsAreEntryShares(
    ledger: Balances, source: Pubkey, holders: seq<Pubkey>, supply: U64, revenue: U64)
    requires source in ledger
    requires Distinct(holders)
    requires forall i :: 0 <= i < |holders| ==> holders[i] != source
    ensures var p := PayHolders(ledger, source, holders, supply, revenue);
      |p.paid| > 0 ==>
        supply > 0 && Amounts(p.paid) == SharesOf(EntryBalances(ledger, holders)[..|p.paid|], supply, revenue)
  {
    var p := PayHolders(ledger, source, holders, supply, revenue);
    PaidSharesOfEntryBalances(ledger, source, holders, supply, revenue);
    if |p.paid| > 0 {
      var prefix := EntryBalances(ledger, holders)[..|p.paid|];
      var amounts := Amounts(p.paid);
      var shares := SharesOf(prefix, supply, revenue);
      forall i | 0 <= i < |p.paid|
        ensures amounts[i] == shares[i]
      {
        assert prefix[i] == ledger[holders[i]];
      }
      assert amounts == shares;
    }
  }

  /**
   Conservation. When the listed holders are distinct, exclude the owner's
   token account and together hold at most the supply, the call pays out
   at most the revenue, the owner's account loses exactly what was paid,
   and the undistributed remainder stays in the owner's account. This
   holds whether the call completes or stops at a failing transfer.
   */
  lemma DistributeConservesRevenue(
    accounts: DistributeAccounts,
    totalRevenue: U64,
    holders: seq<Pubkey>,
    ledger: Balances,
    now: I64)
    requires accounts.farmerTokenAccount in ledger
    requires Distinct(holders)
    requires forall i :: 0 <= i < |holders| ==> holders[i] != accounts.farmerTokenAccount
    requires Sum(EntryBalances(ledger, holders)) <= accounts.mintSupply
    ensures var r := DistributeRevenue(accounts, totalRevenue, holders, ledger, now);
      && TotalPaid(r.paid) <= totalRevenue
      && r.ledger[accounts.farmerTokenAccount] + TotalPaid(r.paid) == ledger[accounts.farmerTokenAccount]
  {
    var source := accounts.farmerTokenAccount;
    var supply := accounts.mintSupply;
    if accounts.signer == accounts.lot.owner && totalRevenue > 0 {
      var p := PayHolders(ledger, source, holders, supply, totalRevenue);
      SourceLosesTotalPaid(ledger, source, holders, supply, totalRevenue);
      PaidAmountsAreEntryShares(ledger, source, holders, supply, totalRevenue);
      var k := |p.paid|;
      if k > 0 {
        var entry := EntryBalances(ledger, holders);
        SumPrefix(entry, k);
        SharesConserveRevenue(entry[..k], supply, totalRevenue);
      }
    }
  }

  /**
   A completed distribution leaves no dust in the owner's account exactly
   when the listed holders hold the whole supply and the supply divides
   every holder's balance times the revenue.
   */
  lemma DistributeNoDustIff(
    accounts: DistributeAccounts,
    totalRevenue: U64,
    holders: seq<Pubkey>,
    ledger: Balances,
    now: I64)
    requires accounts.farmerTokenAccount in ledger
    requires Distinct(holders)
    requires forall i :: 0 <= i < |holders| ==> holders[i] != accounts.farmerTokenAccount
    requires accounts.mintSupply > 0
    requires Sum(EntryBalances(ledger, holders)) <= accounts.mintSupply
    requires DistributeRevenue(accounts, totalRevenue, holders, ledger, now).failure.None?
    ensures var entry := EntryBalances(ledger, holders);
      TotalPaid(DistributeRevenue(accounts, totalRevenue, holders, ledger, now).paid) == totalRevenue
      <==> Sum(entry) == accounts.mintSupply
           && forall i :: 0 <= i < |entry| ==> entry[i] * totalRevenue % accounts.mintSupply == 0
  {
    var source := accounts.farmerTokenAccount;
    var supply := accounts.mintSupply;
    var p := PayHolders(ledger, source, holders, supply, totalRevenue);
    var entry := EntryBalances(ledger, holders);
    PaidAmountsAreEntryShares(ledger, source, holders, supply, totalRevenue);
    assert |p.paid| == |entry|;
    assert entry[..|p.paid|] == entry;
    SharesExhaustRevenueIff(entry, supply, totalRevenue);
  }

  /**
   Because balances are read at each holder's turn, a holder listed twice
   is paid a second time on its already increased balance, and the call
   then pays out more than the revenue even though the listed balances add
   up to the supply: supply 2, one holder with balance 1 listed twice,
   revenue 2, pays 1 and then 2.
   */
  lemma DuplicateHolderOverpays()
    ensures var accounts := DistributeAccounts(0, Lot(7, "lot", 1, 1, 3), 7, 1, 2);
      var ledger := map[1 := 10, 2 := 1];
      var r := DistributeRevenue(accounts, 2, [2, 2], ledger, 0);
      && Sum(EntryBalances(ledger, [2, 2])) <= accounts.mintSupply
      && r.failure == None
      && r.paid == [Payment(2, 1), Payment(2, 2)]
      && TotalPaid(r.paid) == 3 > 2
  {
    var ledger: Balances := map[1 := 10, 2 := 1];
    assert EntryBalances(ledger, [2, 2]) == [1, 1];
    assert [1, 1][1..] == [1];
    assert Sum([1, 1]) == 2;
    assert CalculateShare(1, 2, 2) == Ok(1);
    var l1: Balances := ledger[1 := 9][2 := 2];
    assert Transfer(ledger, 1, 2, 1) == Ok(l1);
    assert CalculateShare(2, 2, 2) == Ok(2);
    assert Transfer(l1, 1, 2, 2) == Ok(l1[1 := 7][2 := 4]);
    assert TotalPaid([Payment(2, 1), Payment(2, 2)]) == 3 by {
      TotalPaidCons(Payment(2, 1), [Payment(2, 2)]);
      TotalPaidCons(Payment(2, 2), []);
    }
  }

  /**
   Only the farmer who registered a lot can distribute for it: any other
   signer presenting that lot is refused before a single transfer.
   */
  lemma OnlyRegisteringFarmerDistributes(
    registry: Registry,
    farmer: Pubkey,
    lotName: string,
    yieldEstimate: U64,
    harvestTime: I64,
    tokenMint: Pubkey,
    registeredAt: I64,
    accounts: DistributeAccounts,
    totalRevenue: U64,
    holders: seq<Pubkey>,
    ledger: Balances,
    now: I64)
    requires InitializeLot(registry, farmer, lotName, yieldEstimate, harvestTime, tokenMint, registeredAt).Ok?
    requires accounts.lot
      == InitializeLot(registry, farmer, lotName, yieldEstimate, harvestTime, tokenMint, registeredAt).value.registry[farmer]
    requires accounts.signer != farmer
    requires accounts.farmerTokenAccount in ledger
    ensures DistributeRevenue(accounts, totalRevenue, holders, ledger, now)
      == Receipt(ledger, [], [], Some(Custom(InvalidOwner)))
  {
  }
}
