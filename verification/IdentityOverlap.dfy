/** When interleaved Apple sign-ins give one user two Apple identities: exactly when one of them commits its
    link while the other is already past the check that the account has none. */
module IdentityOverlap {
  import opened Base
  import Auth
  import opened IdentityRace

  /** The call has passed the has-no-Apple-identity check for `u` and has not ended: it is about to insert
      the link, or holds its uncommitted row. */
  predicate Claims(s: State, c: CallId, u: Auth.UserId) {
    && c in s.calls && s.calls[c].kind.AppleKind? && s.calls[c].Open()
    && (s.calls[c].stage == InsertIdentity(u) || Holds(s, c, u))
  }

  predicate Holds(s: State, c: CallId, u: Auth.UserId) {
    && c in s.calls && s.calls[c].kind.AppleKind?
    && s.calls[c].kind.subject in s.pendingIdentities
    && s.pendingIdentities[s.calls[c].kind.subject] == Pending(c, u)
  }

  /** Two open sign-ins of different subjects are past the check for the same user. */
  predicate Overlap(s: State, c: CallId, d: CallId, u: Auth.UserId) {
    Claims(s, c, u) && Claims(s, d, u) && s.calls[c].kind.subject != s.calls[d].kind.subject
  }

  // ----- Generated ids are new -----

  function StageUsers(stage: Stage): set<Auth.UserId> {
    match stage
    case TouchDevice(u) => {u}
    case CheckApple(u) => {u}
    case InsertIdentity(u) => {u}
    case UpsertDevice(u) => {u}
    case Ready(u) => {u}
    case Returned(u) => {u}
    case _ => {}
  }

  /** Every user id in a row or in a call's hands has a users row. */
  ghost predicate Known(s: State) {
    && (forall d :: d in s.devices ==> s.devices[d] in s.users)
    && (forall x :: x in s.identities ==> s.identities[x] in s.users)
    && (forall d :: d in s.pendingDevices ==> s.pendingDevices[d].user in s.users)
    && (forall x :: x in s.pendingIdentities ==> s.pendingIdentities[x].user in s.users)
    && (forall c :: c in s.calls ==> StageUsers(s.calls[c].stage) <= s.users)
  }

  /** The start respects the foreign keys of devices and identities. */
  ghost predicate Start(s0: State) {
    && Initial(s0) && OneSubjectPerUser(s0.identities)
    && (forall d :: d in s0.devices ==> s0.devices[d] in s0.users)
    && (forall x :: x in s0.identities ==> s0.identities[x] in s0.users)
  }

  ghost predicate EffectKnown(s: State, e: Effect) {
    match e
    case MoveOn(stage, draws) => StageUsers(stage) <= s.users + draws
    case PutDevice(u, stage, draws) => u in s.users + draws && StageUsers(stage) <= s.users + draws
    case PutIdentity(u, stage) => u in s.users && StageUsers(stage) <= s.users
    case Commit(result) => result in s.users
    case _ => true
  }

  lemma EffectsAreKnown(s: State, move: Move)
    requires Known(s) && move.call in s.calls
    ensures EffectKnown(s, MoveEffect(s, move))
  {
    assert StageUsers(s.calls[move.call].stage) <= s.users;
  }

  lemma ApplyKeepsKnown(s: State, c: CallId, e: Effect)
    requires Known(s) && c in s.calls && EffectKnown(s, e) && (e.PutIdentity? ==> s.calls[c].kind.AppleKind?)
    ensures Known(Apply(s, c, e))
  {
  }

  lemma {:induction false} RunKeepsKnown(s0: State, moves: seq<Move>)
    requires Start(s0)
    ensures Known(Run(s0, moves))
    decreases |moves|
  {
    hide EffectOf, Apply, EffectKnown;
    if moves != [] {
      var n := |moves| - 1;
      RunKeepsKnown(s0, moves[..n]);
      var s := Run(s0, moves[..n]);
      if moves[n].call in s.calls {
        EffectsAreKnown(s, moves[n]);
        EffectsAreAllowed(s, moves[n]);
        ApplyKeepsKnown(s, moves[n].call, MoveEffect(s, moves[n]));
      }
    }
  }

  // ----- Claims -----

  /** Claims come from two statements: the negative check (or a fresh user), and the insert that it led to. */
  lemma ClaimingEffects(s: State, move: Move)
    requires PendingInv(s) && Known(s) && move.call in s.calls
    ensures var e := MoveEffect(s, move); var me := s.calls[move.call];
            && (e.PutIdentity? ==> me.kind.AppleKind? && me.stage == InsertIdentity(e.user))
            && (e.PutDevice? ==> !e.stage.InsertIdentity?)
            && (e.MoveOn? && e.stage.InsertIdentity? ==> forall y :: y in s.identities ==> s.identities[y] != e.stage.linkTo)
  {
    var me := s.calls[move.call];
    if me.stage.CheckApple? && !s.SeesApple(move.call, me.stage.deviceUser) {
      NothingSeen(s, move.call, me.stage.deviceUser);
    }
  }

  lemma ClaimsOfOthers(s: State, c: CallId, e: Effect, d: CallId, u: Auth.UserId)
    requires c in s.calls && c != d && PendingInv(s) && Allowed(s, c, e) && Claims(Apply(s, c, e), d, u)
    ensures Claims(s, d, u)
  {
  }

  lemma ClaimsOfMover(s: State, c: CallId, e: Effect, u: Auth.UserId)
    requires c in s.calls && Allowed(s, c, e) && Claims(Apply(s, c, e), c, u)
    requires e.PutIdentity? ==> s.calls[c].stage == InsertIdentity(e.user)
    requires e.PutDevice? ==> !e.stage.InsertIdentity?
    ensures Claims(s, c, u) || e.MoveOn?
    ensures Claims(s, c, u) || e.stage == InsertIdentity(u)
  {
  }

  /** A claim after a move was there before it, or begins with a check that saw no identity of that user. */
  lemma ClaimBegins(s: State, move: Move, c: CallId, u: Auth.UserId)
    requires PendingInv(s) && Known(s) && Claims(Moved(s, move), c, u)
    ensures Claims(s, c, u) || forall y :: y in s.identities ==> s.identities[y] != u
    ensures !Claims(s, c, u) ==> Moved(s, move).identities == s.identities
  {
    hide Claims, EffectOf, MoveEffect, Known, PendingInv, Allowed;
    if move.call in s.calls {
      EffectsAreAllowed(s, move);
      ClaimingEffects(s, move);
      if c == move.call {
        ClaimsOfMover(s, c, MoveEffect(s, move), u);
      } else {
        ClaimsOfOthers(s, move.call, MoveEffect(s, move), c, u);
      }
    }
  }

  /** The check looks at every committed identity. */
  lemma NothingSeen(s: State, c: CallId, u: Auth.UserId)
    requires PendingInv(s) && !s.SeesApple(c, u)
    ensures forall y :: y in s.identities ==> s.identities[y] != u
  {
    forall y | y in s.identities ensures s.identities[y] != u {
      assert y in s.identities.Keys + s.pendingIdentities.Keys;
      assert s.SeenIdentity(c, y) == Some(s.identities[y]);
    }
  }

  /** Move `m` commits the own identity row of call `c`, linking its subject to `u`. */
  ghost predicate Links(s0: State, moves: seq<Move>, m: nat, c: CallId, u: Auth.UserId) {
    && m < |moves|
    && var s := Run(s0, moves[..m]);
    && moves[m].Statement? && moves[m].call == c && c in s.calls && s.calls[c].stage.Ready? && Holds(s, c, u)
  }

  /** Call `d` linked its subject to `u` while `c`, of another subject, was past its check for `u`. */
  ghost predicate LinksMeanwhile(s0: State, moves: seq<Move>, m: nat, d: CallId, c: CallId, u: Auth.UserId) {
    Links(s0, moves, m, d, u) && Overlap(Run(s0, moves[..m]), c, d, u)
  }

  lemma LinksLater(s0: State, moves: seq<Move>, n: nat, m: nat, d: CallId, c: CallId, u: Auth.UserId)
    requires n <= |moves| && LinksMeanwhile(s0, moves[..n], m, d, c, u)
    ensures LinksMeanwhile(s0, moves, m, d, c, u)
  {
    assert moves[..n][..m] == moves[..m];
    hide Run, Overlap, Holds;
  }

  /** A linking move binds the call's subject, for good. */
  lemma LinkLasts(s0: State, moves: seq<Move>, m: nat, c: CallId, u: Auth.UserId)
    requires Initial(s0) && Links(s0, moves, m, c, u)
    ensures c in s0.calls && s0.calls[c].kind.AppleKind?
    ensures var x := s0.calls[c].kind.subject;
            x in Run(s0, moves).identities && Run(s0, moves).identities[x] == u
  {
    RunKeepsInv(s0, moves[..m]);
    var s := Run(s0, moves[..m]);
    assert moves[..m + 1][..m] == moves[..m];
    LinkBinds(s, moves[m], c, u);
    hide Moved, Holds;
    assert Run(s0, moves[..m + 1]) == Moved(s, moves[m]);
    IdentitiesAreWriteOnce(s0, moves, m + 1);
  }

  lemma LinkBinds(s: State, move: Move, c: CallId, u: Auth.UserId)
    requires PendingInv(s) && move.Statement? && move.call == c && Holds(s, c, u) && s.calls[c].stage.Ready?
    ensures var x := s.calls[c].kind.subject;
            x in Moved(s, move).identities && Moved(s, move).identities[x] == u
  {
    CommitAddsOwn(s, c);
  }

  /** A row that appears is the mover's own. */
  lemma NewLink(s: State, move: Move, y: Auth.Subject)
    requires PendingInv(s) && y in Moved(s, move).identities && y !in s.identities
    ensures var u := Moved(s, move).identities[y];
            && move.Statement? && Holds(s, move.call, u) && s.calls[move.call].stage.Ready?
            && s.calls[move.call].kind.subject == y
  {
    ReadyCommits(s, move);
    CommitAddsOwn(s, move.call);
  }

  /** Wherever a claim meets a committed identity of its user, that identity was linked during the claim. */
  ghost predicate Explained(s0: State, moves: seq<Move>) {
    forall c, y, u :: Claims(Run(s0, moves), c, u) && Meets(Run(s0, moves), c, y, u) ==>
      exists m: nat, d :: LinksMeanwhile(s0, moves, m, d, c, u)
  }

  predicate Meets(s: State, c: CallId, y: Auth.Subject, u: Auth.UserId) {
    && y in s.identities && s.identities[y] == u
    && c in s.calls && s.calls[c].kind.AppleKind? && s.calls[c].kind.subject != y
  }

  lemma {:induction false} ClaimsAreExplained(s0: State, moves: seq<Move>)
    requires Start(s0)
    ensures Explained(s0, moves)
    decreases |moves|
  {
    hide Moved, Claims, LinksMeanwhile, PendingInv, CallsInv, Known;
    if moves == [] {
      NoClaimsAtStart(s0);
    } else {
      var n := |moves| - 1;
      ClaimsAreExplained(s0, moves[..n]);
      RunKeepsInv(s0, moves[..n]);
      RunKeepsKnown(s0, moves[..n]);
      var s := Run(s0, moves[..n]);
      forall c, y, u | Claims(Run(s0, moves), c, u) && Meets(Run(s0, moves), c, y, u)
        ensures exists m: nat, d :: LinksMeanwhile(s0, moves, m, d, c, u)
      {
        ClaimBegins(s, moves[n], c, u);
        MoveKeepsInv(s, moves[n]);
        if y in s.identities {
          assert Meets(s, c, y, u);
          var m: nat, d :| LinksMeanwhile(s0, moves[..n], m, d, c, u);
          LinksLater(s0, moves, n, m, d, c, u);
        } else {
          LinkedNow(s0, moves, c, y, u);
        }
      }
    }
  }

  lemma NoClaimsAtStart(s0: State)
    requires Start(s0)
    ensures forall c, u :: !Claims(s0, c, u)
  {
  }

  lemma LinkedNow(s0: State, moves: seq<Move>, c: CallId, y: Auth.Subject, u: Auth.UserId)
    requires moves != []
    requires var s := Run(s0, moves[..|moves| - 1]);
             && PendingInv(s) && Claims(s, c, u) && s.calls[c].kind.subject != y
             && y !in s.identities && y in Run(s0, moves).identities && Run(s0, moves).identities[y] == u
    ensures LinksMeanwhile(s0, moves, |moves| - 1, moves[|moves| - 1].call, c, u)
  {
    var n := |moves| - 1;
    NewLink(Run(s0, moves[..n]), moves[n], y);
    hide Moved, PendingInv;
  }

  // ----- Exactly when a user has two subjects -----

  /** Two sign-ins of different subjects both commit a link to `u`, and the second was already past its
      check when the first committed. */
  ghost predicate DoubleLink(s0: State, moves: seq<Move>, first: nat, second: nat, d: CallId, c: CallId, u: Auth.UserId) {
    first < second && LinksMeanwhile(s0, moves, first, d, c, u) && Links(s0, moves, second, c, u)
  }

  /** Over every interleaving, from a start with one subject per user: a user has two Apple identities iff
      two sign-ins overlapped past the check for that user and both committed their link. */
  lemma SecondSubjectIff(s0: State, moves: seq<Move>)
    requires Start(s0)
    ensures !OneSubjectPerUser(Run(s0, moves).identities) <==>
            exists first: nat, second: nat, d, c, u :: DoubleLink(s0, moves, first, second, d, c, u)
  {
    hide OneSubjectPerUser;
    if first: nat, second: nat, d, c, u :| DoubleLink(s0, moves, first, second, d, c, u) {
      DoubleLinkShares(s0, moves, first, second, d, c, u);
    }
    if !OneSubjectPerUser(Run(s0, moves).identities) {
      var first, second, d, c, u := SharedByDoubleLink(s0, moves);
    }
  }

  lemma DoubleLinkShares(s0: State, moves: seq<Move>, first: nat, second: nat, d: CallId, c: CallId, u: Auth.UserId)
    requires Initial(s0) && DoubleLink(s0, moves, first, second, d, c, u)
    ensures !OneSubjectPerUser(Run(s0, moves).identities)
  {
    LinkLasts(s0, moves, first, d, u);
    LinkLasts(s0, moves, second, c, u);
    RunKeepsInv(s0, moves[..first]);
    hide Run, Links, PendingInv, CallsInv;
    var x, y := s0.calls[c].kind.subject, s0.calls[d].kind.subject;
    assert x != y;
    var ids := Run(s0, moves).identities;
    assert x in ids && y in ids && ids[x] == ids[y];
  }

  lemma {:induction false} SharedByDoubleLink(s0: State, moves: seq<Move>)
    returns (first: nat, second: nat, d: CallId, c: CallId, u: Auth.UserId)
    requires Start(s0) && !OneSubjectPerUser(Run(s0, moves).identities)
    ensures DoubleLink(s0, moves, first, second, d, c, u)
    decreases |moves|
  {
    hide Moved, LinksMeanwhile, OneSubjectPerUser, CommitsSharedUser, PendingInv, CallsInv;
    var n := |moves| - 1;
    var s := Run(s0, moves[..n]);
    if !OneSubjectPerUser(s.identities) {
      first, second, d, c, u := SharedByDoubleLink(s0, moves[..n]);
      LinksLater(s0, moves, n, first, d, c, u);
      assert moves[..n][..second] == moves[..second];
    } else {
      SharedOnlyByCommit(s0, moves[..n], moves[n]);
      RunKeepsInv(s0, moves[..n]);
      ClaimsAreExplained(s0, moves[..n]);
      var y: Auth.Subject;
      c, y, u := CommitterClaims(s, moves[n]);
      var m: nat, e :| LinksMeanwhile(s0, moves[..n], m, e, c, u);
      LinksLater(s0, moves, n, m, e, c, u);
      first, second, d := m, n, e;
      MeanwhileIsEarlier(s0, moves[..n], m, e, c, u);
    }
  }

  lemma MeanwhileIsEarlier(s0: State, moves: seq<Move>, m: nat, d: CallId, c: CallId, u: Auth.UserId)
    requires LinksMeanwhile(s0, moves, m, d, c, u)
    ensures m < |moves|
  {
  }

  lemma CommitterClaims(s: State, move: Move) returns (c: CallId, y: Auth.Subject, u: Auth.UserId)
    requires PendingInv(s) && CommitsSharedUser(s, move)
    ensures c == move.call && move.Statement? && Claims(s, c, u) && Meets(s, c, y, u) && Holds(s, c, u) && s.calls[c].stage.Ready?
  {
    c := move.call;
    var x := s.calls[c].kind.subject;
    u := s.pendingIdentities[x].user;
    y :| y in s.identities && s.identities[y] == u;
  }

  /** So the check suffices wherever no two sign-ins of different subjects are past it for the same user. */
  lemma NoOverlapKeepsOne(s0: State, moves: seq<Move>)
    requires Start(s0)
    requires forall n: nat, c, d, u :: n <= |moves| ==> !Overlap(Run(s0, moves[..n]), c, d, u)
    ensures OneSubjectPerUser(Run(s0, moves).identities)
  {
    SecondSubjectIff(s0, moves);
    hide Run, OneSubjectPerUser, Overlap, Links;
    if first: nat, second: nat, d, c, u :| DoubleLink(s0, moves, first, second, d, c, u) {
      MeanwhileIsEarlier(s0, moves, first, d, c, u);
      assert false;
    }
  }
}
