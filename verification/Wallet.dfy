/** WalletService: idempotent credit and debit, and the conservation law of the ledger. */
module Wallet {
  import opened Base
  import opened Database

  datatype WalletError = AmountNotPositive | KeyReused | InsufficientCredits

  datatype Receipt = Receipt(newBalance: int, replay: bool)

  /** `INSERT INTO wallets ... ON CONFLICT DO NOTHING`. */
  function Provisioned(t: Tables, u: UserId): Tables {
    if u in t.balances then t else t.(balances := t.balances[u := 0])
  }

  /** One new ledger row together with its balance change and audit record. */
  function Posted(t: Tables, u: UserId, key: IdemKey, tx: Tx): Tables {
    var balance := t.Balance(u) + Signed(tx);
    t.(ledger := t.ledger[(u, key) := tx],
       balances := t.balances[u := balance],
       audit := t.audit + [if tx.kind.Credit? then BillingCredit(u, tx.amount, balance)
                           else BillingDebit(u, tx.amount, balance)])
  }

  function Signed(tx: Tx): int {
    if tx.kind.Credit? then tx.amount else -tx.amount
  }

  function GrantResult(t: Tables, u: UserId, key: IdemKey, amount: int): Result<Receipt, WalletError> {
    if amount <= 0 then Err(AmountNotPositive)
    else if (u, key) !in t.ledger then Ok(Receipt(t.Balance(u) + amount, false))
    else if t.ledger[(u, key)] == Tx(Credit, amount) then Ok(Receipt(t.Balance(u), true))
    else Err(KeyReused)
  }

  function GrantTables(t: Tables, u: UserId, key: IdemKey, amount: int): Tables {
    if amount <= 0 then t
    else if (u, key) in t.ledger then Provisioned(t, u)
    else Posted(t, u, key, Tx(Credit, amount))
  }

  function ConsumeResult(t: Tables, u: UserId, key: IdemKey, amount: int): Result<Receipt, WalletError> {
    if amount <= 0 then Err(AmountNotPositive)
    else if (u, key) in t.ledger then
      if t.ledger[(u, key)] == Tx(Debit, amount) then Ok(Receipt(t.Balance(u), true)) else Err(KeyReused)
    else if t.Balance(u) < amount then Err(InsufficientCredits)
    else Ok(Receipt(t.Balance(u) - amount, false))
  }

  /** A refused debit fails its transaction, so it leaves nothing behind. */
  function ConsumeTables(t: Tables, u: UserId, key: IdemKey, amount: int): Tables {
    if ConsumeResult(t, u, key, amount).Err? then t
    else if (u, key) in t.ledger then Provisioned(t, u)
    else Posted(t, u, key, Tx(Debit, amount))
  }

  class WalletService {
    const session: Session

    constructor (session: Session)
      ensures this.session == session
    {
      this.session := session;
    }

    method HasIdempotencyKey(u: UserId, key: IdemKey) returns (taken: bool)
      ensures taken <==> (u, key) in session.ledger
    {
      taken := (u, key) in session.ledger;
    }

    method EnsureWallet(u: UserId)
      modifies session
      ensures session.View() == Provisioned(old(session.View()), u)
    {
      if u !in session.balances {
        session.balances := session.balances[u := 0];
      }
    }

    method Grant(u: UserId, key: IdemKey, amount: int) returns (r: Result<Receipt, WalletError>)
      modifies session
      ensures r == GrantResult(old(session.View()), u, key, amount)
      ensures session.View() == GrantTables(old(session.View()), u, key, amount)
    {
      if amount <= 0 {
        return Err(AmountNotPositive);
      }
      EnsureWallet(u);
      if (u, key) in session.ledger {
        var existing := session.ledger[(u, key)];
        if existing.kind != Credit || existing.amount != amount {
          return Err(KeyReused);
        }
        return Ok(Receipt(session.balances[u], true));
      }
      session.ledger := session.ledger[(u, key) := Tx(Credit, amount)];
      var newBalance := session.balances[u] + amount;
      session.balances := session.balances[u := newBalance];
      session.Record(BillingCredit(u, amount, newBalance));
      r := Ok(Receipt(newBalance, false));
    }

    method Consume(u: UserId, key: IdemKey, amount: int) returns (r: Result<Receipt, WalletError>)
      modifies session
      ensures r == ConsumeResult(old(session.View()), u, key, amount)
      ensures session.View() == ConsumeTables(old(session.View()), u, key, amount)
    {
      if amount <= 0 {
        return Err(AmountNotPositive);
      }
      var start := session.View();
      EnsureWallet(u);
      if (u, key) in session.ledger {
        var existing := session.ledger[(u, key)];
        if existing.kind != Debit || existing.amount != amount {
          session.Rollback(start);
          return Err(KeyReused);
        }
        return Ok(Receipt(session.balances[u], true));
      }
      session.ledger := session.ledger[(u, key) := Tx(Debit, amount)];
      if session.balances[u] < amount {
        session.Rollback(start);
        return Err(InsufficientCredits);
      }
      var newBalance := session.balances[u] - amount;
      session.balances := session.balances[u := newBalance];
      session.Record(BillingDebit(u, amount, newBalance));
      r := Ok(Receipt(newBalance, false));
    }
  }

  // ----- Conservation -----

  function Weight(k: LedgerKey, tx: Tx, u: UserId): int {
    if k.0 == u then Signed(tx) else 0
  }

  /** Credits minus debits of one user over the whole ledger. */
  ghost function Total(ledger: Ledger, u: UserId): int
    decreases |ledger|
  {
    if ledger == map[] then 0
    else
      var k := Pick(ledger);
      Weight(k, ledger[k], u) + Total(ledger - {k}, u)
  }

  ghost function Pick(ledger: Ledger): (k: LedgerKey)
    requires ledger != map[]
    ensures k in ledger
  {
    var k :| k in ledger; k
  }

  lemma {:induction false} TotalInsert(ledger: Ledger, k: LedgerKey, tx: Tx, u: UserId)
    requires k !in ledger
    ensures Total(ledger[k := tx], u) == Total(ledger, u) + Weight(k, tx, u)
    decreases |ledger|
  {
    var bigger := ledger[k := tx];
    assert k in bigger;
    var j := Pick(bigger);
    if j == k {
      assert bigger - {j} == ledger;
    } else {
      assert bigger - {j} == (ledger - {j})[k := tx];
      TotalInsert(ledger - {j}, k, tx, u);
      TotalRemove(ledger, j, u);
    }
  }

  lemma {:induction false} TotalRemove(ledger: Ledger, j: LedgerKey, u: UserId)
    requires j in ledger
    ensures Total(ledger, u) == Weight(j, ledger[j], u) + Total(ledger - {j}, u)
    decreases |ledger|, 0
  {
    var i := Pick(ledger);
    if i != j {
      TotalRemove(ledger - {i}, j, u);
      TotalRemove(ledger - {j}, i, u);
      assert ledger - {i} - {j} == ledger - {j} - {i};
    }
  }

  /** Every balance is what the ledger says, and no balance is negative. */
  ghost predicate Consistent(t: Tables) {
    forall u: UserId :: t.Balance(u) == Total(t.ledger, u) && 0 <= t.Balance(u)
  }

  /** Consistency only reads the ledger and the balances. */
  lemma ConsistentFrame(t: Tables, t': Tables)
    requires Consistent(t) && t'.ledger == t.ledger && t'.balances == t.balances
    ensures Consistent(t')
  {
    forall u: UserId ensures t'.Balance(u) == Total(t'.ledger, u) && 0 <= t'.Balance(u) {
      assert t.Balance(u) == Total(t.ledger, u) && 0 <= t.Balance(u);
    }
  }

  lemma PostedKeepsConsistent(t: Tables, u: UserId, key: IdemKey, tx: Tx)
    requires Consistent(t) && (u, key) !in t.ledger
    requires 0 <= t.Balance(u) + Signed(tx)
    ensures Consistent(Posted(t, u, key, tx))
  {
    forall v: UserId
      ensures Posted(t, u, key, tx).Balance(v) == Total(Posted(t, u, key, tx).ledger, v)
      ensures 0 <= Posted(t, u, key, tx).Balance(v)
    {
      TotalInsert(t.ledger, (u, key), tx, v);
      assert t.Balance(v) == Total(t.ledger, v) && 0 <= t.Balance(v);
    }
  }

  datatype WalletOp =
    | DoGrant(user: UserId, key: IdemKey, amount: int)
    | DoConsume(user: UserId, key: IdemKey, amount: int)

  function RunOps(t: Tables, ops: seq<WalletOp>): Tables
    decreases |ops|
  {
    if ops == [] then t
    else
      var before := RunOps(t, ops[..|ops| - 1]);
      match ops[|ops| - 1]
      case DoGrant(u, k, a) => GrantTables(before, u, k, a)
      case DoConsume(u, k, a) => ConsumeTables(before, u, k, a)
  }

  /** Conservation over every run: balances stay equal to credits minus debits and never go
      negative, no ledger row is ever changed or removed, and every row added has a positive amount. */
  lemma {:induction false} RunConserves(t: Tables, ops: seq<WalletOp>)
    requires Consistent(t)
    ensures Consistent(RunOps(t, ops))
    ensures forall k :: k in t.ledger ==> k in RunOps(t, ops).ledger && RunOps(t, ops).ledger[k] == t.ledger[k]
    ensures forall k :: k in RunOps(t, ops).ledger && k !in t.ledger ==> RunOps(t, ops).ledger[k].amount > 0
    decreases |ops|
  {
    if ops != [] {
      var before := RunOps(t, ops[..|ops| - 1]);
      RunConserves(t, ops[..|ops| - 1]);
      var op := ops[|ops| - 1];
      if op.amount > 0 && (op.user, op.key) !in before.ledger {
        if op.DoGrant? {
          PostedKeepsConsistent(before, op.user, op.key, Tx(Credit, op.amount));
        } else if before.Balance(op.user) >= op.amount {
          PostedKeepsConsistent(before, op.user, op.key, Tx(Debit, op.amount));
        }
      }
    }
  }

  /** Replay: repeating an operation that was accepted changes no balance and no ledger row. */
  lemma ReplayIsFree(t: Tables, u: UserId, key: IdemKey, amount: int)
    requires GrantResult(t, u, key, amount).Ok?
    ensures var once := GrantTables(t, u, key, amount);
            && GrantResult(once, u, key, amount) == Ok(Receipt(once.Balance(u), true))
            && GrantTables(once, u, key, amount).ledger == once.ledger
            && forall v: UserId :: GrantTables(once, u, key, amount).Balance(v) == once.Balance(v)
  {
  }

  // ----- What one call does -----

  /** A grant is refused exactly for an amount that is not positive, or for a key that holds anything but a
      credit of this amount. One that is neither refused nor a repetition adds its row, its amount to the
      balance and one audit record; no other call moves any of them. */
  lemma GrantMeaning(t: Tables, u: UserId, key: IdemKey, amount: int)
    ensures var r := GrantResult(t, u, key, amount);
            var after := GrantTables(t, u, key, amount);
            var held := (u, key) in t.ledger;
            && (r == Err(AmountNotPositive) <==> amount <= 0)
            && (r == Err(KeyReused) <==> amount > 0 && held && t.ledger[(u, key)] != Tx(Credit, amount))
            && (r.Ok? ==> r.value == Receipt(after.Balance(u), held))
            && (r.Ok? && !held ==>
                  && after.ledger == t.ledger[(u, key) := Tx(Credit, amount)]
                  && after.Balance(u) == t.Balance(u) + amount
                  && after.audit == t.audit + [BillingCredit(u, amount, after.Balance(u))])
            && (!(r.Ok? && !held) ==> after.ledger == t.ledger && after.Balance(u) == t.Balance(u) && after.audit == t.audit)
            && forall v: UserId :: v != u ==> after.Balance(v) == t.Balance(v)
  {
  }

  /** A debit is refused for the same reasons, and exactly then for want of credits when its key is free and
      the balance is below the amount; the last credit can be spent. */
  lemma ConsumeMeaning(t: Tables, u: UserId, key: IdemKey, amount: int)
    ensures var r := ConsumeResult(t, u, key, amount);
            var after := ConsumeTables(t, u, key, amount);
            var held := (u, key) in t.ledger;
            && (r == Err(AmountNotPositive) <==> amount <= 0)
            && (r == Err(KeyReused) <==> amount > 0 && held && t.ledger[(u, key)] != Tx(Debit, amount))
            && (r == Err(InsufficientCredits) <==> amount > 0 && !held && t.Balance(u) < amount)
            && (r.Ok? ==> r.value == Receipt(after.Balance(u), held))
            && (r.Ok? && !held ==>
                  && after.ledger == t.ledger[(u, key) := Tx(Debit, amount)]
                  && after.Balance(u) == t.Balance(u) - amount
                  && after.audit == t.audit + [BillingDebit(u, amount, after.Balance(u))])
            && (r.Err? ==> after == t)
            && (r.Ok? && held ==> after.ledger == t.ledger && after.Balance(u) == t.Balance(u) && after.audit == t.audit)
            && forall v: UserId :: v != u ==> after.Balance(v) == t.Balance(v)
  {
  }
}
