/** One store payment, one credit on whichever channel reports it first. */
module SingleGrant {
  import opened Base
  import opened Database
  import opened Wallet

  /** A dated event may not rewrite an active dated row that ends later. */
  predicate IsStale(row: Option<Subscription>, incoming: Option<Instant>) {
    && row.Some?
    && row.value.status.Active?
    && row.value.expiresAt.Some?
    && incoming.Some?
    && incoming.value < row.value.expiresAt.value
  }

  predicate AnyTaken(t: Tables, u: UserId, keys: seq<IdemKey>) {
    exists i :: 0 <= i < |keys| && (u, keys[i]) in t.ledger
  }

  /** `Ok(true)`: newly credited. `Ok(false)`: already credited. `Err`: the failure propagates. */
  function GrantOnceResult(t: Tables, u: UserId, key: IdemKey, checks: seq<IdemKey>, amount: int)
    : Result<bool, WalletError>
  {
    if AnyTaken(t, u, checks) then Ok(false)
    else match GrantResult(t, u, key, amount)
      case Ok(receipt) => Ok(!receipt.replay)
      case Err(e) => if (u, key) in t.ledger then Ok(false) else Err(e)
  }

  function GrantOnceTables(t: Tables, u: UserId, key: IdemKey, checks: seq<IdemKey>, amount: int): (r: Tables)
    ensures r == t.(ledger := r.ledger, balances := r.balances, audit := r.audit)
  {
    if AnyTaken(t, u, checks) then t else GrantTables(t, u, key, amount)
  }

  method GrantOnce(wallet: WalletService, u: UserId, key: IdemKey, checks: seq<IdemKey>, amount: int)
    returns (r: Result<bool, WalletError>)
    modifies wallet.session
    ensures r == GrantOnceResult(old(wallet.session.View()), u, key, checks, amount)
    ensures wallet.session.View() == GrantOnceTables(old(wallet.session.View()), u, key, checks, amount)
  {
    for i := 0 to |checks|
      invariant wallet.session.View() == old(wallet.session.View())
      invariant forall j :: 0 <= j < i ==> (u, checks[j]) !in wallet.session.ledger
    {
      var taken := wallet.HasIdempotencyKey(u, checks[i]);
      if taken {
        return Ok(false);
      }
    }
    var result := wallet.Grant(u, key, amount);
    match result
    case Err(e) =>
      var taken := wallet.HasIdempotencyKey(u, key);
      r := if taken then Ok(false) else Err(e);
    case Ok(receipt) =>
      r := Ok(!receipt.replay);
  }

  /** What `GrantOnce` promises: it credits exactly when every key is free and the amount is
      positive; it fails exactly when every key is free and the amount is not positive (a taken key,
      whatever its amount, is never a failure); and when it does not credit, no row and no balance moves. */
  lemma GrantOnceMeaning(t: Tables, u: UserId, key: IdemKey, checks: seq<IdemKey>, amount: int)
    ensures var r := GrantOnceResult(t, u, key, checks, amount);
            var after := GrantOnceTables(t, u, key, checks, amount);
            var free := !AnyTaken(t, u, checks) && (u, key) !in t.ledger;
            && (r == Ok(true) <==> free && amount > 0)
            && (r.Err? <==> free && amount <= 0)
            && (r == Ok(true) ==> after.ledger == t.ledger[(u, key) := Tx(Credit, amount)]
                                  && after.Balance(u) == t.Balance(u) + amount)
            && (r != Ok(true) ==> after.ledger == t.ledger && forall v: UserId :: after.Balance(v) == t.Balance(v))
  {
  }
}
