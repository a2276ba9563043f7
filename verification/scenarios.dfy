/**
 Worked distributions: an exact split and a split that leaves dust in the
 owner's token account.
 */
module Scenarios {
  import opened Types
  import opened TokenLedger
  import opened Share
  import opened LotRegistry
  import opened Distribution

  const Farmer: Pubkey := 7
  const FarmerTokens: Pubkey := 1

  function FarmersLot(): Lot
  {
    Lot(Farmer, "north field", 500, 1_800_000_000, 3)
  }

  function Accounts(supply: U64): DistributeAccounts
  {
    DistributeAccounts(100, FarmersLot(), Farmer, FarmerTokens, supply)
  }

  /** Supply 1000 held 600 / 400; revenue 100 splits 60 / 40 with no dust. */
  lemma ExactSplit()
    ensures var ledger := map[FarmerTokens := 100, 2 := 600, 3 := 400];
      var r := DistributeRevenue(Accounts(1000), 100, [2, 3], ledger, 1_700_000_000);
      && r.failure == None
      && r.paid == [Payment(2, 60), Payment(3, 40)]
      && r.ledger == map[FarmerTokens := 0, 2 := 660, 3 := 440]
      && r.events == [RevenueDistributed(100, 100, 1_700_000_000)]
  {
    var ledger: Balances := map[FarmerTokens := 100, 2 := 600, 3 := 400];
    assert CalculateShare(600, 1000, 100) == Ok(60);
    var l1: Balances := ledger[FarmerTokens := 40][2 := 660];
    assert Transfer(ledger, FarmerTokens, 2, 60) == Ok(l1);
    assert CalculateShare(400, 1000, 100) == Ok(40);
    var l2: Balances := l1[FarmerTokens := 0][3 := 440];
    assert Transfer(l1, FarmerTokens, 3, 40) == Ok(l2);
    assert l2 == map[FarmerTokens := 0, 2 := 660, 3 := 440];
  }

  /** The ledgers of the dust scenario: before the call and after each of the three transfers. */
  const DustStart: Balances := map[FarmerTokens := 10, 2 := 1, 3 := 1, 4 := 1]
  const DustAfter1: Balances := DustStart[FarmerTokens := 7][2 := 4]
  const DustAfter2: Balances := DustAfter1[FarmerTokens := 4][3 := 4]
  const DustAfter3: Balances := DustAfter2[FarmerTokens := 1][4 := 4]

  /** The last turn of the dust scenario. */
  lemma DustThirdTurn()
    ensures PayHolders(DustAfter2, FarmerTokens, [4], 3, 10) == Payout(DustAfter3, [Payment(4, 3)], None)
  {
    assert CalculateShare(1, 3, 10) == Ok(3);
    assert Transfer(DustAfter2, FarmerTokens, 4, 3) == Ok(DustAfter3);
    assert PayOne(DustAfter2, FarmerTokens, 4, 3, 10) == Ok(Step(3, DustAfter3));
    assert [4][1..] == [];
  }

  /** The last two turns of the dust scenario. */
  lemma DustSecondTurn()
    ensures PayHolders(DustAfter1, FarmerTokens, [3, 4], 3, 10)
         == Payout(DustAfter3, [Payment(3, 3), Payment(4, 3)], None)
  {
    assert CalculateShare(1, 3, 10) == Ok(3);
    assert Transfer(DustAfter1, FarmerTokens, 3, 3) == Ok(DustAfter2);
    assert PayOne(DustAfter1, FarmerTokens, 3, 3, 10) == Ok(Step(3, DustAfter2));
    assert [3, 4][1..] == [4];
    DustThirdTurn();
  }

  /** All three turns of the dust scenario. */
  lemma DustFirstTurn()
    ensures PayHolders(DustStart, FarmerTokens, [2, 3, 4], 3, 10)
         == Payout(DustAfter3, [Payment(2, 3), Payment(3, 3), Payment(4, 3)], None)
  {
    assert CalculateShare(1, 3, 10) == Ok(3);
    assert Transfer(DustStart, FarmerTokens, 2, 3) == Ok(DustAfter1);
    assert PayOne(DustStart, FarmerTokens, 2, 3, 10) == Ok(Step(3, DustAfter1));
    assert [2, 3, 4][1..] == [3, 4];
    DustSecondTurn();
  }

  /** Supply 3 held 1 / 1 / 1 (`DustStart`); revenue 10 pays 3 each and 1 stays with the owner. */
  lemma RoundingLeavesDust()
    ensures var r := DistributeRevenue(Accounts(3), 10, [2, 3, 4], DustStart, 1_700_000_000);
      && r.failure == None
      && r.paid == [Payment(2, 3), Payment(3, 3), Payment(4, 3)]
      && r.ledger[FarmerTokens] == 1
  {
    DustFirstTurn();
  }

  /**
   An owner account that runs dry part-way stops the call at that holder:
   the first holder stays paid, the second is not, and no event is emitted.
   */
  lemma InsufficientFundsStopsMidway()
    ensures var ledger := map[FarmerTokens := 70, 2 := 600, 3 := 400];
      var r := DistributeRevenue(Accounts(1000), 100, [2, 3], ledger, 1_700_000_000);
      && r.failure == Some(InsufficientFunds)
      && r.paid == [Payment(2, 60)]
      && r.ledger == map[FarmerTokens := 10, 2 := 660, 3 := 400]
      && r.events == []
  {
    var ledger: Balances := map[FarmerTokens := 70, 2 := 600, 3 := 400];
    assert CalculateShare(600, 1000, 100) == Ok(60);
    var l1: Balances := ledger[FarmerTokens := 10][2 := 660];
    assert Transfer(ledger, FarmerTokens, 2, 60) == Ok(l1);
    assert CalculateShare(400, 1000, 100) == Ok(40);
    assert Transfer(l1, FarmerTokens, 3, 40) == Err(InsufficientFunds);
    assert l1 == map[FarmerTokens := 10, 2 := 660, 3 := 400];
  }
}
