/**
 The token program as this program sees it: a ledger of token-account
 balances and an atomic transfer that either moves the whole amount or
 fails without effect.
 */
module TokenLedger {
  import opened Types

  /** Balances of the token accounts that exist, by address. */
  type Balances = map<Pubkey, U64>

  /** The balance of an address, zero when it holds no token account. */
  function BalanceOf(ledger: Balances, account: Pubkey): nat
  {
    if account in ledger then ledger[account] else 0
  }

  /**
   Moves `amount` from `from` to `to`. A transfer from an account to itself
   only checks the funds and changes nothing; otherwise the source must
   cover the amount and the destination must not overflow.
   */
  function Transfer(ledger: Balances, from: Pubkey, to: Pubkey, amount: U64): (r: Result<Balances>)
    requires from in ledger && to in ledger
    ensures r.Ok? <==> ledger[from] >= amount && (from == to || ledger[to] + amount <= U64_MAX)
    ensures ledger[from] < amount ==> r == Err(InsufficientFunds)
    ensures ledger[from] >= amount && r.Err? ==> r.error == TokenOverflow
    ensures r.Ok? ==> r.value.Keys == ledger.Keys
    ensures r.Ok? && from != to ==>
      r.value[from] == ledger[from] - amount && r.value[to] == ledger[to] + amount
    ensures r.Ok? ==> r.value[from] + (if from == to then 0 else amount) == ledger[from]
    ensures r.Ok? ==> forall a :: a in ledger && a != from && a != to ==> r.value[a] == ledger[a]
  {
    if ledger[from] < amount then Err(InsufficientFunds)
    else if from == to then Ok(ledger)
    else if ledger[to] + amount > U64_MAX then Err(TokenOverflow)
    else Ok(ledger[from := ledger[from] - amount][to := ledger[to] + amount])
  }
}
