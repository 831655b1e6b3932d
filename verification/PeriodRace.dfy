/** Several channels crediting one store period at the same time.

    Each caller runs `grant_once` inside its own database transaction, one statement per step: two key
    look-ups, the conflict-ignoring insert, and the re-check after an amount conflict. A look-up sees
    committed rows; an insert waits while another open transaction holds the same key. Any caller may
    be rolled back at any point before it commits. */
module PeriodRace {
  import opened Base
  import opened Database
  import opened SingleGrant
  import opened Wallet

  type CallerId = nat

  datatype Stage =
    | CheckShared
    | CheckHistorical
    | Insert
    | Recheck
    | Finishing(credited: bool)
    | Committed(credited: bool)
    | Raised
    | RolledBack

  datatype Caller = Caller(user: UserId, txn: string, amount: int, stage: Stage)
  {
    function Shared(): LedgerKey { (user, SubGrant(txn)) }
    function Historical(): LedgerKey { (user, AdaptyTxn(txn)) }
    predicate Open() { !stage.Committed? && !stage.Raised? && !stage.RolledBack? }
  }

  /** `open` rows belong to transactions that have not ended; `owner` is `None` for rows of the start state. */
  datatype CreditRow = CreditRow(amount: int, owner: Option<CallerId>)

  datatype State = State(
    ledger: map<LedgerKey, CreditRow>,
    open: map<LedgerKey, CallerId>,
    callers: map<CallerId, Caller>)
  {
    function Goto(c: CallerId, stage: Stage): State
      requires c in callers
    {
      this.(callers := callers[c := callers[c].(stage := stage)])
    }

    /** The state without the uncommitted row of `c`. */
    function Released(c: CallerId): State {
      this.(open := map k | k in open && open[k] != c :: open[k])
    }
  }

  function Inserted(s: State, c: CallerId): State
    requires c in s.callers
  {
    s.(open := s.open[s.callers[c].Shared() := c]).Goto(c, Finishing(true))
  }

  /** One statement of caller `c`; a statement that must wait leaves the state as it is. */
  function Step(s: State, c: CallerId): State
    requires c in s.callers
  {
    var me := s.callers[c];
    match me.stage
    case CheckShared => s.Goto(c, if me.Shared() in s.ledger then Finishing(false) else CheckHistorical)
    case CheckHistorical => s.Goto(c, if me.Historical() in s.ledger then Finishing(false) else Insert)
    case Insert =>
      if me.amount <= 0 then s.Goto(c, Recheck)
      else if me.Shared() in s.ledger then
        s.Goto(c, if s.ledger[me.Shared()].amount == me.amount then Finishing(false) else Recheck)
      else if me.Shared() in s.open then s
      else Inserted(s, c)
    case Recheck => s.Goto(c, if me.Shared() in s.ledger then Finishing(false) else Raised)
    case Finishing(credited) =>
      if credited && me.Shared() in s.open && s.open[me.Shared()] == c then
        s.(ledger := s.ledger[me.Shared() := CreditRow(me.amount, Some(c))]).Released(c).Goto(c, Committed(true))
      else s.Goto(c, Committed(credited))
    case _ => s
  }

  function Abort(s: State, c: CallerId): State
    requires c in s.callers
  {
    if s.callers[c].Open() then s.Released(c).Goto(c, RolledBack) else s
  }

  datatype Move = Statement(caller: CallerId) | RollBack(caller: CallerId)

  /** Any interleaving of statements and roll-backs. */
  function Run(s: State, moves: seq<Move>): State
    decreases |moves|
  {
    if moves == [] then s
    else
      var before := Run(s, moves[..|moves| - 1]);
      var move := moves[|moves| - 1];
      if move.caller !in before.callers then before
      else if move.Statement? then Step(before, move.caller)
      else Abort(before, move.caller)
  }

  ghost predicate Initial(s: State) {
    && s.open == map[]
    && (forall k :: k in s.ledger ==> s.ledger[k].owner.None?)
    && (forall c :: c in s.callers ==> s.callers[c].stage == CheckShared)
  }

  /** What the stage of caller `c` says about the ledger. */
  ghost predicate StageFacts(s0: State, s: State, c: CallerId, me: Caller) {
    && (me.stage == Finishing(true) ==> me.Shared() in s.open && s.open[me.Shared()] == c)
    && (me.stage == Finishing(false) || me.stage == Committed(false) ==>
          me.Shared() in s.ledger || me.Historical() in s.ledger)
    && (me.stage == Committed(true) ==>
          me.Shared() in s.ledger && s.ledger[me.Shared()] == CreditRow(me.amount, Some(c)))
    && (me.stage == Recheck && me.amount > 0 ==> me.Shared() in s.ledger)
    && (me.stage == Raised ==> me.amount <= 0)
    && (me.stage == Insert || me.stage == Finishing(true) || me.stage == Committed(true) ==>
          me.Historical() !in s0.ledger && me.Shared() !in s0.ledger)
    && (me.stage == CheckHistorical ==> me.Shared() !in s0.ledger)
  }

  ghost predicate CallersInv(s0: State, s: State) {
    && s.callers.Keys == s0.callers.Keys
    && (forall c :: c in s.callers ==> s.callers[c].(stage := CheckShared) == s0.callers[c])
    && (forall c :: c in s.callers ==> StageFacts(s0, s, c, s.callers[c]))
  }

  ghost predicate LedgerInv(s0: State, s: State) {
    && (forall k :: k in s0.ledger ==> k in s.ledger && s.ledger[k] == s0.ledger[k])
    && (forall k :: k in s.ledger && k !in s0.ledger ==> NewRow(s, k))
  }

  ghost predicate OpenInv(s: State) {
    forall k :: k in s.open ==> k !in s.ledger && OpenRow(s, k)
  }

  ghost predicate Inv(s0: State, s: State) {
    CallersInv(s0, s) && LedgerInv(s0, s) && OpenInv(s)
  }

  /** A row that was not there at the start was committed by a caller for its own period. */
  ghost predicate NewRow(s: State, k: LedgerKey)
    requires k in s.ledger
  {
    && s.ledger[k].owner.Some?
    && var c := s.ledger[k].owner.value;
    && c in s.callers && s.callers[c].Shared() == k && s.callers[c].stage == Committed(true)
  }

  ghost predicate OpenRow(s: State, k: LedgerKey)
    requires k in s.open
  {
    var c := s.open[k];
    c in s.callers && s.callers[c].Shared() == k && s.callers[c].stage == Finishing(true)
  }

  /** A statement that only moves its caller on, away from a stage that owns no row. */
  lemma GotoKeepsInv(s0: State, s: State, c: CallerId, stage: Stage)
    requires Inv(s0, s) && c in s.callers
    requires s.callers[c].stage != Finishing(true) && s.callers[c].stage != Committed(true)
    requires StageFacts(s0, s, c, s.callers[c].(stage := stage))
    ensures Inv(s0, s.Goto(c, stage))
  {
    hide StageFacts, NewRow, OpenRow;
    GotoKeepsCallers(s0, s, c, stage);
    GotoKeepsRows(s, c, stage);
  }

  lemma GotoKeepsCallers(s0: State, s: State, c: CallerId, stage: Stage)
    requires CallersInv(s0, s) && c in s.callers && StageFacts(s0, s, c, s.callers[c].(stage := stage))
    ensures CallersInv(s0, s.Goto(c, stage))
  {
    var s' := s.Goto(c, stage);
    forall d | d in s'.callers ensures StageFacts(s0, s', d, s'.callers[d]) {
      assert StageFacts(s0, s, d, s'.callers[d]);
    }
  }

  /** A caller that owns no row can move without touching the rows of others. */
  lemma GotoKeepsRows(s: State, c: CallerId, stage: Stage)
    requires c in s.callers && s.callers[c].stage != Finishing(true) && s.callers[c].stage != Committed(true)
    ensures forall k :: k in s.open && OpenRow(s, k) ==> OpenRow(s.Goto(c, stage), k)
    ensures forall k :: k in s.ledger && NewRow(s, k) ==> NewRow(s.Goto(c, stage), k)
  {
  }

  lemma InsertKeepsInv(s0: State, s: State, c: CallerId)
    requires Inv(s0, s) && c in s.callers && s.callers[c].stage == Insert
    requires s.callers[c].Shared() !in s.ledger && s.callers[c].Shared() !in s.open
    ensures Inv(s0, Inserted(s, c))
  {
    InsertKeepsCallers(s0, s, c);
    InsertKeepsOpen(s, c);
    var s' := Inserted(s, c);
    forall k | k in s'.ledger && k !in s0.ledger ensures NewRow(s', k) {
      assert NewRow(s, k);
    }
  }

  lemma InsertKeepsCallers(s0: State, s: State, c: CallerId)
    requires CallersInv(s0, s) && c in s.callers && s.callers[c].stage == Insert
    requires s.callers[c].Shared() !in s.open
    ensures CallersInv(s0, Inserted(s, c))
  {
    var s' := Inserted(s, c);
    assert StageFacts(s0, s, c, s.callers[c]);
    forall d | d in s'.callers ensures StageFacts(s0, s', d, s'.callers[d]) {
      assert StageFacts(s0, s, d, s.callers[d]);
    }
  }

  lemma InsertKeepsOpen(s: State, c: CallerId)
    requires OpenInv(s) && c in s.callers && s.callers[c].stage == Insert
    requires s.callers[c].Shared() !in s.ledger && s.callers[c].Shared() !in s.open
    ensures OpenInv(Inserted(s, c))
  {
    var s' := Inserted(s, c);
    forall k | k in s'.open ensures k !in s'.ledger && OpenRow(s', k) {
      assert k in s.open ==> OpenRow(s, k);
    }
  }

  /** Ending a transaction: its open row goes, and becomes a ledger row when it commits. */
  lemma ReleaseKeepsInv(s0: State, s: State, c: CallerId)
    requires Inv(s0, s) && c in s.callers && s.callers[c].Open()
    ensures Inv(s0, s.Released(c).Goto(c, RolledBack))
  {
    hide StageFacts, NewRow, OpenRow;
    ReleaseKeepsCallers(s0, s, c);
    ReleaseKeepsRows(s, c);
  }

  lemma ReleaseKeepsCallers(s0: State, s: State, c: CallerId)
    requires CallersInv(s0, s) && OpenInv(s) && c in s.callers
    ensures CallersInv(s0, s.Released(c).Goto(c, RolledBack))
  {
    var s' := s.Released(c).Goto(c, RolledBack);
    forall d | d in s'.callers ensures StageFacts(s0, s', d, s'.callers[d]) {
      assert StageFacts(s0, s, d, s.callers[d]);
    }
  }

  lemma ReleaseKeepsRows(s: State, c: CallerId)
    requires c in s.callers && s.callers[c].Open()
    ensures forall k :: k in s.open && s.open[k] != c && OpenRow(s, k) ==> OpenRow(s.Released(c).Goto(c, RolledBack), k)
    ensures forall k :: k in s.ledger && NewRow(s, k) ==> NewRow(s.Released(c).Goto(c, RolledBack), k)
  {
  }

  lemma CommitKeepsInv(s0: State, s: State, c: CallerId)
    requires Inv(s0, s) && c in s.callers && s.callers[c].stage == Finishing(true)
    ensures Inv(s0, Step(s, c))
  {
    assert StageFacts(s0, s, c, s.callers[c]);
    CommitKeepsCallers(s0, s, c);
    CommitKeepsOpen(s, c);
    CommitKeepsLedger(s0, s, c);
  }

  lemma CommitKeepsCallers(s0: State, s: State, c: CallerId)
    requires CallersInv(s0, s) && OpenInv(s) && c in s.callers && s.callers[c].stage == Finishing(true)
    ensures CallersInv(s0, Step(s, c))
  {
    var me, s' := s.callers[c], Step(s, c);
    assert StageFacts(s0, s, c, me);
    forall d | d in s'.callers ensures StageFacts(s0, s', d, s'.callers[d]) {
      assert StageFacts(s0, s, d, s.callers[d]);
    }
  }

  lemma CommitKeepsOpen(s: State, c: CallerId)
    requires OpenInv(s) && c in s.callers && s.callers[c].stage == Finishing(true)
    requires s.callers[c].Shared() in s.open && s.open[s.callers[c].Shared()] == c
    ensures OpenInv(Step(s, c))
  {
    var s' := Step(s, c);
    forall k | k in s'.open ensures k !in s'.ledger && OpenRow(s', k) {
      assert OpenRow(s, k);
    }
  }

  lemma CommitKeepsLedger(s0: State, s: State, c: CallerId)
    requires LedgerInv(s0, s) && OpenInv(s) && c in s.callers && s.callers[c].stage == Finishing(true)
    requires s.callers[c].Shared() in s.open && s.open[s.callers[c].Shared()] == c
    ensures LedgerInv(s0, Step(s, c))
  {
    var s' := Step(s, c);
    forall k | k in s'.ledger && k !in s0.ledger ensures NewRow(s', k) {
      assert k in s.ledger ==> NewRow(s, k);
    }
  }

  lemma StepKeepsInv(s0: State, s: State, c: CallerId)
    requires Inv(s0, s) && c in s.callers
    ensures Inv(s0, Step(s, c))
  {
    var me := s.callers[c];
    assert StageFacts(s0, s, c, me);
    if me.stage == Insert && me.amount > 0 && me.Shared() !in s.ledger {
      hide Inv;
      if me.Shared() !in s.open {
        InsertKeepsInv(s0, s, c);
      }
    } else if me.stage == Finishing(true) {
      hide Inv, Step;
      CommitKeepsInv(s0, s, c);
    } else if me.Open() {
      StepMovesOn(s0, s, c);
      hide Inv, StageFacts, Step;
      GotoKeepsInv(s0, s, c, Step(s, c).callers[c].stage);
    }
  }

  /** Every other statement of an open caller only moves it to a stage its look-up has justified. */
  lemma StepMovesOn(s0: State, s: State, c: CallerId)
    requires LedgerInv(s0, s) && c in s.callers && StageFacts(s0, s, c, s.callers[c]) && s.callers[c].Open()
    requires s.callers[c].stage != Finishing(true)
    requires s.callers[c].stage == Insert && s.callers[c].amount > 0 ==> s.callers[c].Shared() in s.ledger
    ensures c in Step(s, c).callers && Step(s, c) == s.Goto(c, Step(s, c).callers[c].stage)
    ensures StageFacts(s0, s, c, s.callers[c].(stage := Step(s, c).callers[c].stage))
  {
    StartRowsStay(s0, s, s.callers[c].Shared());
    StartRowsStay(s0, s, s.callers[c].Historical());
    hide LedgerInv;
  }

  lemma StartRowsStay(s0: State, s: State, k: LedgerKey)
    requires LedgerInv(s0, s)
    ensures k in s0.ledger ==> k in s.ledger
  {
  }

  lemma {:induction false} RunKeepsInv(s0: State, moves: seq<Move>)
    requires Initial(s0)
    ensures Inv(s0, Run(s0, moves))
    decreases |moves|
  {
    if moves != [] {
      var before := Run(s0, moves[..|moves| - 1]);
      RunKeepsInv(s0, moves[..|moves| - 1]);
      var move := moves[|moves| - 1];
      if move.caller in before.callers {
        StepKeepsInv(s0, before, move.caller);
        if before.callers[move.caller].Open() {
          ReleaseKeepsInv(s0, before, move.caller);
        }
      }
    }
  }

  /** One period, one credit, over every interleaving: of the callers of one user and transaction at
      most one is told it credited; none is, if the period was held under either key at the start; a
      caller that committed without crediting leaves the period credited by someone; and a caller with
      a positive amount never fails, whatever amounts the others bring. */
  lemma OnePeriodOneCredit(s0: State, moves: seq<Move>, a: CallerId, b: CallerId)
    requires Initial(s0) && a in s0.callers && b in s0.callers
    requires s0.callers[a].Shared() == s0.callers[b].Shared()
    ensures var s := Run(s0, moves);
            && a in s.callers && b in s.callers
            && var x, y := s.callers[a], s.callers[b];
            && (x.stage == Committed(true) && y.stage == Committed(true) ==> a == b)
            && (x.stage == Committed(true) ==> x.Shared() !in s0.ledger && x.Historical() !in s0.ledger)
            && (x.stage.Committed? ==> x.Shared() in s.ledger || x.Historical() in s.ledger)
            && (x.stage == Raised ==> x.amount <= 0)
  {
    RunKeepsInv(s0, moves);
    var s := Run(s0, moves);
    assert StageFacts(s0, s, a, s.callers[a]) && StageFacts(s0, s, b, s.callers[b]);
  }

  /** The ledger gains nothing else: no start row changes, every new row is one `sub-grant:` row owned
      by a caller that reported it with its own amount, and a historical key never appears. */
  lemma LedgerGainsOnlyReportedCredits(s0: State, moves: seq<Move>, k: LedgerKey)
    requires Initial(s0)
    requires k in Run(s0, moves).ledger
    ensures var s := Run(s0, moves);
            if k in s0.ledger then s.ledger[k] == s0.ledger[k]
            else exists c :: c in s.callers && s.callers[c].stage == Committed(true)
                             && k == s.callers[c].Shared() && k.1.SubGrant?
                             && s.ledger[k] == CreditRow(s.callers[c].amount, Some(c))
  {
    RunKeepsInv(s0, moves);
    var s := Run(s0, moves);
    if k !in s0.ledger {
      assert NewRow(s, k);
      var c := s.ledger[k].owner.value;
      assert StageFacts(s0, s, c, s.callers[c]);
    }
  }

  // ----- One caller alone -----

  /** The committed rows as the wallet's ledger. */
  function LedgerOf(s: State): Ledger {
    map k | k in s.ledger :: Tx(Credit, s.ledger[k].amount)
  }

  function FourSteps(s: State, c: CallerId): State
    requires c in s.callers
  {
    var s1 := Step(s, c);
    var s2 := if c in s1.callers then Step(s1, c) else s1;
    var s3 := if c in s2.callers then Step(s2, c) else s2;
    if c in s3.callers then Step(s3, c) else s3
  }

  lemma FourStepsAreARun(s: State, c: CallerId)
    requires c in s.callers
    ensures Run(s, [Statement(c), Statement(c), Statement(c), Statement(c)]) == FourSteps(s, c)
  {
    hide Step;
    var m := [Statement(c), Statement(c), Statement(c), Statement(c)];
    assert m[..3][..2] == m[..2] && m[..2][..1] == m[..1] && m[..1][..0] == [];
    assert Run(s, m[..1]) == Step(s, c);
    assert Run(s, m[..2]) == if c in Step(s, c).callers then Step(Step(s, c), c) else Step(s, c);
    var s2 := Run(s, m[..2]);
    assert Run(s, m[..3]) == if c in s2.callers then Step(s2, c) else s2;
  }

  /** With nobody else at work its four statements are `grant_once`: credited, already credited or failed exactly
      as that is, and with the same ledger. */
  lemma AloneIsGrantOnce(s: State, c: CallerId, t: Tables)
    requires c in s.callers && s.callers[c].stage == CheckShared && s.open == map[] && t.ledger == LedgerOf(s)
    ensures var me := s.callers[c];
            var checks := [SubGrant(me.txn), AdaptyTxn(me.txn)];
            var r := GrantOnceResult(t, me.user, SubGrant(me.txn), checks, me.amount);
            var after := FourSteps(s, c);
            && c in after.callers && after.open == map[]
            && (r == Ok(true) <==> after.callers[c].stage == Committed(true))
            && (r == Ok(false) <==> after.callers[c].stage == Committed(false))
            && (r.Err? <==> after.callers[c].stage == Raised)
            && LedgerOf(after) == GrantOnceTables(t, me.user, SubGrant(me.txn), checks, me.amount).ledger
  {
    var me := s.callers[c];
    var checks := [SubGrant(me.txn), AdaptyTxn(me.txn)];
    assert checks[0] == SubGrant(me.txn) && checks[1] == AdaptyTxn(me.txn);
    assert AnyTaken(t, me.user, checks) <==> me.Shared() in s.ledger || me.Historical() in s.ledger;
    GrantOnceMeaning(t, me.user, SubGrant(me.txn), checks, me.amount);
    hide GrantOnceResult, GrantOnceTables, AnyTaken;
    if me.Shared() in s.ledger {
      assert Step(s, c) == s.Goto(c, Finishing(false));
    } else if me.Historical() in s.ledger {
      AlreadyHistorical(s, c);
    } else {
      Fresh(s, c);
    }
  }

  lemma AlreadyHistorical(s: State, c: CallerId)
    requires c in s.callers && s.callers[c].stage == CheckShared && s.callers[c].Shared() !in s.ledger && s.callers[c].Historical() in s.ledger
    ensures FourSteps(s, c) == s.Goto(c, Committed(false))
  {
    var s1, s2 := s.Goto(c, CheckHistorical), s.Goto(c, Finishing(false));
    assert Step(s, c) == s1;
    assert Step(s1, c) == s2;
    assert Step(s2, c) == s.Goto(c, Committed(false));
  }

  lemma Fresh(s: State, c: CallerId)
    requires c in s.callers && s.callers[c].stage == CheckShared && s.open == map[]
    requires s.callers[c].Shared() !in s.ledger && s.callers[c].Historical() !in s.ledger
    ensures var me := s.callers[c];
            FourSteps(s, c) ==
              if me.amount > 0
              then s.(ledger := s.ledger[me.Shared() := CreditRow(me.amount, Some(c))]).Goto(c, Committed(true))
              else s.Goto(c, Raised)
  {
    var me := s.callers[c];
    var s1, s2 := s.Goto(c, CheckHistorical), s.Goto(c, Insert);
    assert Step(s, c) == s1;
    assert Step(s1, c) == s2;
    if me.amount > 0 {
      var s3 := s2.(open := map[me.Shared() := c]).Goto(c, Finishing(true));
      assert Step(s2, c) == s3;
      assert s3.(ledger := s.ledger[me.Shared() := CreditRow(me.amount, Some(c))]).Released(c).open == map[];
      assert Step(s3, c) == s.(ledger := s.ledger[me.Shared() := CreditRow(me.amount, Some(c))]).Goto(c, Committed(true));
    } else {
      var s3 := s.Goto(c, Recheck);
      assert Step(s2, c) == s3;
      assert Step(s3, c) == s.Goto(c, Raised);
    }
  }
}
