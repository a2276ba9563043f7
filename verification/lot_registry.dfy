/**
 Lot registration. A lot lives at an address derived from the farmer's key
 and the tag "lot", so the registry is keyed by the farmer: one lot per
 farmer, created once and never updated or removed.
 */
module LotRegistry {
  import opened Types

  /** The stored lot record (`LotAccount`). */
  datatype Lot = Lot(
    owner: Pubkey,
    lotName: string,
    yieldEstimate: U64,
    harvestTime: I64,
    tokenMint: Pubkey)

  /** Lot records by the farmer whose derived address holds them. */
  type Registry = map<Pubkey, Lot>

  /** What a successful registration leaves behind. */
  datatype Registered = Registered(registry: Registry, events: seq<Event>)

  /** Every stored lot sits at its owner's address and was registered with a positive yield. */
  ghost predicate WellFormed(registry: Registry)
  {
    forall farmer :: farmer in registry ==>
      registry[farmer].owner == farmer && registry[farmer].yieldEstimate > 0
  }

  /**
   `initialize_lot`: the lot address must be free (the account constraint
   is checked before the handler runs), then the yield estimate must be
   positive, then the harvest time must lie strictly after the clock
   reading `now`. On success the farmer's lot holds exactly the inputs and
   a `LotInitialized` event is emitted.
   */
  function InitializeLot(
    registry: Registry,
    farmer: Pubkey,
    lotName: string,
    yieldEstimate: U64,
    harvestTime: I64,
    tokenMint: Pubkey,
    now: I64): (r: Result<Registered>)
    ensures farmer in registry ==> r == Err(AccountAlreadyInUse)
    ensures farmer !in registry && yieldEstimate == 0 ==> r == Err(Custom(InsufficientYield))
    ensures farmer !in registry && yieldEstimate > 0 && harvestTime <= now ==>
      r == Err(Custom(InvalidHarvestTime))
    ensures r.Ok? <==> farmer !in registry && yieldEstimate > 0 && harvestTime > now
    ensures r.Ok? ==> r.value.registry.Keys == registry.Keys + {farmer}
    ensures r.Ok? ==> forall other :: other in registry ==> r.value.registry[other] == registry[other]
    ensures r.Ok? ==>
      var lot := r.value.registry[farmer];
      && lot.owner == farmer
      && lot.lotName == lotName
      && lot.yieldEstimate == yieldEstimate
      && lot.harvestTime == harvestTime
      && lot.tokenMint == tokenMint
    ensures r.Ok? ==> r.value.events == [LotInitialized(lotName, farmer, yieldEstimate, harvestTime)]
  {
    if farmer in registry then Err(AccountAlreadyInUse)
    else if yieldEstimate == 0 then Err(Custom(InsufficientYield))
    else if harvestTime <= now then Err(Custom(InvalidHarvestTime))
    else
      var lot := Lot(farmer, lotName, yieldEstimate, harvestTime, tokenMint);
      Ok(Registered(registry[farmer := lot], [LotInitialized(lotName, farmer, yieldEstimate, harvestTime)]))
  }

  /** Registration keeps the registry well formed. */
  lemma InitializePreservesWellFormed(
    registry: Registry,
    farmer: Pubkey,
    lotName: string,
    yieldEstimate: U64,
    harvestTime: I64,
    tokenMint: Pubkey,
    now: I64)
    requires WellFormed(registry)
    ensures var r := InitializeLot(registry, farmer, lotName, yieldEstimate, harvestTime, tokenMint, now);
      r.Ok? ==> WellFormed(r.value.registry)
  {
  }

  /** A farmer registers at most once: a second registration fails whatever its inputs. */
  lemma SecondRegistrationFails(
    registry: Registry,
    farmer: Pubkey,
    lotName: string,
    yieldEstimate: U64,
    harvestTime: I64,
    tokenMint: Pubkey,
    now: I64,
    lotName2: string,
    yieldEstimate2: U64,
    harvestTime2: I64,
    tokenMint2: Pubkey,
    now2: I64)
    requires InitializeLot(registry, farmer, lotName, yieldEstimate, harvestTime, tokenMint, now).Ok?
    ensures var first := InitializeLot(registry, farmer, lotName, yieldEstimate, harvestTime, tokenMint, now).value;
      InitializeLot(first.registry, farmer, lotName2, yieldEstimate2, harvestTime2, tokenMint2, now2)
        == Err(AccountAlreadyInUse)
  {
  }
}
