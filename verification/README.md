# Agriculture tokenization: lot registration and revenue distribution

A Dafny model of the logical core of the `agriculture_tokenization`
Solana/Anchor program. A farmer registers an agricultural lot (a name, a
positive yield estimate, a future harvest time and the mint of the token
that represents shares in the lot). Later the farmer distributes sale
revenue: every listed token holder receives
`floor(balance * revenue / supply)` out of the farmer's token account.

Modules:

- `Types` (`types.dfy`): `u64`/`i64` as bounded integers, addresses, the
  program's `AgricultureError` codes, the other failures an instruction can
  end with, `Result`/`Option`, and the two events.
- `TokenLedger` (`token_ledger.dfy`): the token program reduced to a map of
  token-account balances and an atomic `Transfer` that moves the whole
  amount or fails without effect.
- `Share` (`share.dfy`): `calculate_share` with checked `u64` arithmetic,
  and the arithmetic of floor shares over a list of holdings (bound,
  monotonicity, conservation, when no dust is left).
- `LotRegistry` (`lot_registry.dfy`): `initialize_lot` over a registry
  keyed by the farmer, since a lot's address is derived from the farmer's
  key.
- `Distribution` (`distribution.dfy`): `distribute_revenue`, its holder
  loop, and conservation.
- `Scenarios` (`scenarios.dfy`): worked distributions.

The clock reading is the parameter `now`. Authorization is a comparison of
the signer's address with the lot's `owner`. A failed instruction is
reported with the ledger as it stood when the failure happened, so the
transfers made before it are visible in the model.

Behaviour of the code that the model keeps, although a reader might
expect otherwise:

- Holder balances are read when each holder's turn comes
  (`lib.rs:46`), not from a snapshot taken at the start. The two agree
  when the listed holders are distinct and do not include the farmer's
  token account (`PayHoldersReadsEntryBalances`). When a holder is listed
  twice, its second share is computed on its already increased balance,
  and the call can pay out more than the revenue (`DuplicateHolderOverpays`).
- A zero supply is not guarded by the program, so the call fails at the
  first listed holder: `AccountNotTokenAccount` if it is not a token
  account, `MultiplyOverflow` if its product overflows, `DivideByZero`
  otherwise. No later holder is reached. With an empty holder list and a
  zero supply the call succeeds and emits its event.
- The owner check is an account constraint, so it runs before the
  handler's revenue check. With a wrong signer and zero revenue the error
  is `InvalidOwner`.

Where the model follows the evident intent rather than the code as written:

- In `initialize_lot`, `lot_name` is moved into the record (`lib.rs:25`)
  and then used again for the event (`lib.rs:31`). Rust would reject that
  use after the move. The model emits the event with the name, which is
  evidently what was meant.

## Model

| member | source | states |
|---|---|---|
| `Share.ProportionalShare` | agriculture_tokenization/src/lib.rs:80 | the share times the supply is at most `amount * revenue` and falls short of it by less than one supply, the shortfall being the remainder (floor division) |
| `Share.CalculateShare` | agriculture_tokenization/src/lib.rs:79-81 | succeeds exactly when the product fits in `u64` and the supply is positive; an overflowing product panics before the division is reached, a zero supply panics on the division; a success is the floor share |
| `Share.ShareAtMostRevenue` | agriculture_tokenization/src/lib.rs:80 | a holding of at most the supply earns at most the revenue |
| `Share.WholeSupplyTakesAll` | agriculture_tokenization/src/lib.rs:80 | the holder of the whole supply receives exactly the revenue |
| `Share.ShareMonotone` | agriculture_tokenization/src/lib.rs:80 | the share is non-decreasing in the holding |
| `Share.CalculateShareMonotone` | agriculture_tokenization/src/lib.rs:79-81 | if a holding's share can be computed without panicking, so can any smaller holding's, and it is no larger |
| `Share.CalculateShareBounded` | agriculture_tokenization/src/lib.rs:79-81 | a computed share is at most the revenue when the holding is at most the supply |
| `Share.SharesAccountForRevenue` | agriculture_tokenization/src/lib.rs:45-47 | summed over a list of holdings, shares times supply plus the truncated remainders equal the holdings times the revenue |
| `Share.SharesConserveRevenue` | agriculture_tokenization/src/lib.rs:45-47 | holdings summing to at most the supply get shares summing to at most the revenue |
| `Share.SharesExhaustRevenueIff` | agriculture_tokenization/src/lib.rs:45-47 | for holdings summing to at most a positive supply, the shares add up to the whole (positive) revenue if and only if the holdings are the whole supply and the supply divides every holding times the revenue |
| `TokenLedger.Transfer` | agriculture_tokenization/src/lib.rs:49-56 | succeeds exactly when the source covers the amount and the destination does not overflow; insufficient funds are reported first; on success the source loses and the destination gains the amount (nothing for a self-transfer), every other balance and the set of accounts are unchanged |
| `LotRegistry.InitializeLot` | agriculture_tokenization/src/lib.rs:11-38 | an occupied lot address fails first, then a zero yield fails with `InsufficientYield` (also when the harvest time is past), then a harvest time not after `now` fails with `InvalidHarvestTime`; it succeeds exactly when all three pass, storing owner = farmer and the four inputs, leaving every other lot untouched and emitting `LotInitialized` |
| `LotRegistry.InitializePreservesWellFormed` | agriculture_tokenization/src/lib.rs:17-28 | registration keeps every stored lot at its owner's address with a positive yield estimate |
| `LotRegistry.SecondRegistrationFails` | agriculture_tokenization/src/lib.rs:113-119 | once a farmer has registered, any further registration by that farmer fails with the address already in use |
| `Distribution.PayHolders` | agriculture_tokenization/src/lib.rs:45-57 | one transfer per listed holder, in list order, zero shares included, until the first failing turn; the loop completes exactly when every holder was paid; a failure is the failure of the next holder's turn on the ledger as it stood then; a zero supply pays no one; the source never gains; accounts that are neither the source nor listed keep their balance |
| `Distribution.DistributeRevenue` | agriculture_tokenization/src/lib.rs:41-66 | a signer other than the lot's owner fails with `InvalidOwner`, then a zero revenue fails with `InvalidRevenueAmount`, both with no transfer, no event and an unchanged ledger; it succeeds exactly when both gates pass and every listed holder is paid; transfers follow the list order; `RevenueDistributed` is emitted once on success and never on failure |
| `Distribution.PayHoldersReadsEntryBalances` | agriculture_tokenization/src/lib.rs:45-57 | with distinct holders other than the source, each paid holder receives the share of its starting balance and gains exactly that, the source loses exactly the total paid, and holders not reached keep their balance |
| `Distribution.UnpaidAccountKeeps` | agriculture_tokenization/src/lib.rs:45-57 | an account other than the owner's token account that none of the completed turns paid keeps its balance, also when the loop stops early |
| `Distribution.PayHoldersCompletes` | agriculture_tokenization/src/lib.rs:45-57 | with distinct holder token accounts other than the source, a positive supply, no overflowing product, no holder overflowing on receipt, and a source covering the sum of the shares of the starting balances, every holder is paid |
| `Distribution.DistributeConservesRevenue` | agriculture_tokenization/src/lib.rs:43-57 | with distinct holders other than the source whose balances sum to at most the supply, the total paid is at most the revenue and the farmer's account decreases by exactly the total paid, so the dust stays there; this holds also when a transfer fails part-way |
| `Distribution.DistributeNoDustIff` | agriculture_tokenization/src/lib.rs:43-57 | for distinct holders other than the owner's account holding at most a positive supply, a completed call pays out the whole revenue if and only if the holders hold the whole supply and the supply divides each balance times the revenue |
| `Distribution.DuplicateHolderOverpays` | agriculture_tokenization/src/lib.rs:45-47 | a holder listed twice is paid 1 and then 2 from a revenue of 2, although the listed balances add up to the supply, because its balance is re-read after the first payment |
| `Distribution.OnlyRegisteringFarmerDistributes` | agriculture_tokenization/src/lib.rs:133-135 | for a lot registered by a farmer, any other signer is refused with `InvalidOwner` and nothing moves |
| `Scenarios.ExactSplit` | agriculture_tokenization/src/lib.rs:41-66 | supply 1000 held 600 and 400, revenue 100: the holders receive 60 and 40, the owner's account is emptied and the event is emitted |
| `Scenarios.RoundingLeavesDust` | agriculture_tokenization/src/lib.rs:41-66 | supply 3 held 1, 1 and 1, revenue 10: each holder receives 3 and 1 stays in the owner's account |
| `Scenarios.InsufficientFundsStopsMidway` | agriculture_tokenization/src/lib.rs:45-63 | an owner account that cannot cover the second share stops the call there: the first holder stays paid, the second is not, no event is emitted |

## Left out

- `fetch_weather_data` and `OracleProgram` (`lib.rs:69-74`, `lib.rs:170`): a stub that only logs a message and succeeds; it has no logic to model.
- Program-derived addresses, `init`, `space`, rent and account discriminators, and `LotAccount::MAX_SIZE`: the registry is keyed by the farmer's address, which is what deriving the lot address from the tag "lot" and the farmer's key achieves. No bound on the name length is modelled, since it is only implied by the account size.
- Signature checks: the signer is an address compared with the lot's `owner`.
- The token program's own checks beyond balances: mint agreement between the two token accounts, the transfer authority, delegates and frozen accounts. A transfer fails only for insufficient funds or a destination overflow.
- `Distribution.DistributeRevenue`: requires that the farmer's token account exists in the ledger, because the framework deserializes that typed account before the handler runs; a missing one never reaches this logic.
- The `token_mint` account given to `distribute_revenue` is not tied to the lot's `token_mint` by the program; the model takes the supply of whatever mint is given (`mintSupply`), which is faithful, and proves nothing about which mint it is.
- Holder accounts are not checked to belong to the lot's mint by the program; the model likewise reads any token account's balance.
- `Share.CalculateShare`: treats an overflowing `u64` product as a panic, which assumes the release profile enables overflow checks (the Anchor workspace default). Without them the product would wrap modulo 2^64. `Cargo.toml` is not part of this model.
- Transaction rollback: the Solana runtime discards every change of a failed instruction. The model reports the ledger at the failing step, as the holder loop itself leaves it, and does not model the enclosing transaction.
- The `Clock` sysvar: `now` is a parameter, and the second clock read for the event (`lib.rs:62`) is taken to return the same reading. A failing clock read is not modelled.
- Event serialization: events are values in the returned record.
- Determinism needs no statement: every operation is a function of its inputs.
- No check that the harvest time has passed before distributing, because the program performs none.
