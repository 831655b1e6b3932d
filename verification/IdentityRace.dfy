/** Registrations and Apple sign-ins interleaved statement by statement.

    Each call is one database transaction. A read sees committed rows and the call's own rows; a write
    waits while another open transaction holds the row's key; any call may be rolled back before it
    commits. A generated user id is one nobody has used. Refreshing `last_seen_at` of a known device is a
    write: the call holds the device's row from then on, and goes on with the user it read before. */
module IdentityRace {
  import opened Base
  import opened Auth

  type CallId = nat

  datatype Kind = RegisterKind(device: DeviceId) | AppleKind(subject: Subject, device: DeviceId)

  datatype Stage =
    | FindIdentity
    | FindDevice
    | TouchDevice(found: UserId)
    | InsertDevice
    | RereadDevice
    | CheckApple(deviceUser: UserId)
    | InsertIdentity(linkTo: UserId)
    | RereadIdentity
    | UpsertDevice(target: UserId)
    | Ready(result: UserId)
    | Returned(result: UserId)
    | Ended

  datatype Active = Active(kind: Kind, stage: Stage)
  {
    predicate Open() { !stage.Returned? && !stage.Ended? }
  }

  /** A row a transaction wrote and has not committed. */
  datatype Pending = Pending(call: CallId, user: UserId)

  datatype State = State(
    devices: map<DeviceId, UserId>,
    identities: map<Subject, UserId>,
    pendingDevices: map<DeviceId, Pending>,
    pendingIdentities: map<Subject, Pending>,
    users: set<UserId>,
    calls: map<CallId, Active>)
  {
    function Goto(c: CallId, stage: Stage): State
      requires c in calls
    {
      this.(calls := calls[c := calls[c].(stage := stage)])
    }

    function SeenDevice(c: CallId, d: DeviceId): Option<UserId> {
      if d in pendingDevices && pendingDevices[d].call == c then Some(pendingDevices[d].user)
      else if d in devices then Some(devices[d]) else None
    }

    function SeenIdentity(c: CallId, x: Subject): Option<UserId> {
      if x in pendingIdentities && pendingIdentities[x].call == c then Some(pendingIdentities[x].user)
      else if x in identities then Some(identities[x]) else None
    }

    predicate SeesApple(c: CallId, u: UserId) {
      exists x :: x in identities.Keys + pendingIdentities.Keys && SeenIdentity(c, x) == Some(u)
    }

    predicate DeviceHeld(c: CallId, d: DeviceId) {
      d in pendingDevices && pendingDevices[d].call != c
    }

    predicate IdentityHeld(c: CallId, x: Subject) {
      x in pendingIdentities && pendingIdentities[x].call != c
    }

    /** The end of a transaction, without its uncommitted rows. */
    function Released(c: CallId): State {
      this.(pendingDevices := map d | d in pendingDevices && pendingDevices[d].call != c :: pendingDevices[d],
            pendingIdentities := map x | x in pendingIdentities && pendingIdentities[x].call != c :: pendingIdentities[x])
    }

    function CommittedRows(c: CallId): State {
      this.(devices := devices + map d | d in pendingDevices && pendingDevices[d].call == c :: pendingDevices[d].user,
            identities := identities + map x | x in pendingIdentities && pendingIdentities[x].call == c :: pendingIdentities[x].user)
    }
  }

  /** What one statement does: it waits, moves on (drawing user ids), writes a row, or ends the call. */
  datatype Effect =
    | Wait
    | MoveOn(stage: Stage, draws: set<UserId>)
    | PutDevice(user: UserId, stage: Stage, draws: set<UserId>)
    | PutIdentity(user: UserId, stage: Stage)
    | Commit(result: UserId)
    | Abort

  /** The next statement of call `c`; `newUser` is the id it draws if it needs one. */
  function EffectOf(s: State, c: CallId, newUser: UserId): Effect
    requires c in s.calls
  {
    var me := s.calls[c];
    match me.kind
    case RegisterKind(d) =>
      (match me.stage
       case FindIdentity => MoveOn(FindDevice, {})
       case FindDevice =>
         var found := s.SeenDevice(c, d);
         MoveOn(if found.None? then InsertDevice else TouchDevice(found.value), {})
       case TouchDevice(found) => TouchEffect(s, c, d, Ready(found))
       case InsertDevice => InsertDeviceEffect(s, c, d, newUser)
       case RereadDevice =>
         var found := s.SeenDevice(c, d);
         if found.None? then Abort else MoveOn(Ready(found.value), {})
       case Ready(result) => Commit(result)
       case _ => Wait)
    case AppleKind(x, d) =>
      (match me.stage
       case FindIdentity =>
         var found := s.SeenIdentity(c, x);
         MoveOn(if found.Some? then UpsertDevice(found.value) else FindDevice, {})
       case FindDevice =>
         var found := s.SeenDevice(c, d);
         MoveOn(if found.None? then InsertDevice else TouchDevice(found.value), {})
       case TouchDevice(found) => TouchEffect(s, c, d, CheckApple(found))
       case InsertDevice => InsertDeviceEffect(s, c, d, newUser)
       case RereadDevice =>
         var found := s.SeenDevice(c, d);
         if found.None? then Abort else MoveOn(CheckApple(found.value), {})
       case CheckApple(deviceUser) =>
         if !s.SeesApple(c, deviceUser) then MoveOn(InsertIdentity(deviceUser), {})
         else if newUser in s.users then Wait
         else MoveOn(InsertIdentity(newUser), {newUser})
       case InsertIdentity(linkTo) =>
         if s.IdentityHeld(c, x) then Wait
         else if x in s.identities || x in s.pendingIdentities then MoveOn(RereadIdentity, {})
         else PutIdentity(linkTo, RereadIdentity)
       case RereadIdentity =>
         var found := s.SeenIdentity(c, x);
         if found.None? then Abort else MoveOn(UpsertDevice(found.value), {})
       case UpsertDevice(target) =>
         if s.DeviceHeld(c, d) then Wait else PutDevice(target, Ready(target), {})
       case Ready(result) => Commit(result)
       case _ => Wait)
  }

  /** The update of a found device's row, which keeps the user the row has by then. */
  function TouchEffect(s: State, c: CallId, d: DeviceId, next: Stage): Effect {
    var row := s.SeenDevice(c, d);
    if s.DeviceHeld(c, d) then Wait else if row.None? then MoveOn(next, {}) else PutDevice(row.value, next, {})
  }

  /** The users row, then the conflict-ignoring device row. */
  function InsertDeviceEffect(s: State, c: CallId, d: DeviceId, newUser: UserId): Effect {
    if s.DeviceHeld(c, d) || newUser in s.users then Wait
    else if d in s.devices || d in s.pendingDevices then MoveOn(RereadDevice, {newUser})
    else PutDevice(newUser, RereadDevice, {newUser})
  }

  function Apply(s: State, c: CallId, e: Effect): State
    requires c in s.calls && (e.PutIdentity? ==> s.calls[c].kind.AppleKind?)
  {
    match e
    case Wait => s
    case MoveOn(stage, draws) => s.(users := s.users + draws).Goto(c, stage)
    case PutDevice(u, stage, draws) =>
      s.(users := s.users + draws, pendingDevices := s.pendingDevices[s.calls[c].kind.device := Pending(c, u)]).Goto(c, stage)
    case PutIdentity(u, stage) =>
      s.(pendingIdentities := s.pendingIdentities[s.calls[c].kind.subject := Pending(c, u)]).Goto(c, stage)
    case Commit(result) => s.CommittedRows(c).Released(c).Goto(c, Returned(result))
    case Abort => s.Released(c).Goto(c, Ended)
  }

  datatype Move = Statement(call: CallId, newUser: UserId) | RollBack(call: CallId)

  /** A move of a call that is not there, or of one that has ended, changes nothing. */
  function MoveEffect(s: State, move: Move): Effect
    requires move.call in s.calls
  {
    if move.Statement? then EffectOf(s, move.call, move.newUser)
    else if s.calls[move.call].Open() then Abort
    else Wait
  }

  function Moved(s: State, move: Move): State {
    if move.call in s.calls then Apply(s, move.call, MoveEffect(s, move)) else s
  }

  function Run(s: State, moves: seq<Move>): State
    decreases |moves|
  {
    if moves == [] then s else Moved(Run(s, moves[..|moves| - 1]), moves[|moves| - 1])
  }

  ghost predicate Initial(s: State) {
    && s.pendingDevices == map[] && s.pendingIdentities == map[]
    && forall c :: c in s.calls ==> s.calls[c].stage == FindIdentity
  }

  // ----- Invariants -----

  /** The call's own subject is bound to `u`, for everyone or for this call. */
  predicate Bound(s: State, c: CallId, x: Subject, u: UserId) {
    || (x in s.identities && s.identities[x] == u)
    || (x in s.pendingIdentities && s.pendingIdentities[x] == Pending(c, u))
  }

  ghost predicate CallInv(s: State, c: CallId, me: Active) {
    me.kind.AppleKind? ==>
      match me.stage
      case UpsertDevice(u) => Bound(s, c, me.kind.subject, u)
      case Ready(u) => Bound(s, c, me.kind.subject, u)
      case Returned(u) => me.kind.subject in s.identities && s.identities[me.kind.subject] == u
      case _ => true
  }

  ghost predicate CallsInv(s: State) {
    forall c :: c in s.calls ==> CallInv(s, c, s.calls[c])
  }

  ghost predicate PendingInv(s: State) {
    forall x :: x in s.pendingIdentities ==>
      && x !in s.identities
      && var c := s.pendingIdentities[x].call;
      c in s.calls && s.calls[c].kind.AppleKind? && s.calls[c].kind.subject == x
  }

  ghost predicate SameOrMore<K, V>(m: map<K, V>, m': map<K, V>) {
    forall k :: k in m ==> k in m' && m'[k] == m[k]
  }

  /** When a statement may have the effect `e`: an identity is written only where nobody holds one, a
      device is adopted only with its subject bound, and a call commits what it was ready with. */
  ghost predicate Allowed(s: State, c: CallId, e: Effect)
    requires c in s.calls
  {
    var me := s.calls[c];
    && (!e.Wait? ==> me.Open())
    && (e.PutIdentity? ==> me.kind.AppleKind? && !me.stage.UpsertDevice? && !me.stage.Ready?
                           && me.kind.subject !in s.identities && me.kind.subject !in s.pendingIdentities
                           && e.stage.RereadIdentity?)
    && (e.MoveOn? && me.kind.AppleKind? ==>
          !e.stage.Ready? && !e.stage.Returned? && (e.stage.UpsertDevice? ==> Bound(s, c, me.kind.subject, e.stage.target)))
    && (e.PutDevice? && me.kind.AppleKind? ==>
          && !e.stage.UpsertDevice? && !e.stage.Returned?
          && (e.stage.Ready? ==> me.stage == UpsertDevice(e.stage.result)))
    && (e.Commit? ==> me.stage == Ready(e.result))
  }

  lemma EffectsAreAllowed(s: State, move: Move)
    requires move.call in s.calls
    ensures Allowed(s, move.call, MoveEffect(s, move))
  {
  }

  lemma ApplyKeepsPending(s: State, c: CallId, e: Effect)
    requires c in s.calls && PendingInv(s) && Allowed(s, c, e)
    ensures PendingInv(Apply(s, c, e))
    ensures SameOrMore(s.identities, Apply(s, c, e).identities)
    ensures Apply(s, c, e).calls.Keys == s.calls.Keys
    ensures forall d :: d in s.calls ==> Apply(s, c, e).calls[d].kind == s.calls[d].kind
    ensures forall d :: d in s.calls && d != c ==> Apply(s, c, e).calls[d] == s.calls[d]
  {
  }

  lemma ApplyKeepsBinding(s: State, c: CallId, e: Effect, d: CallId, x: Subject, u: UserId)
    requires c in s.calls && PendingInv(s) && Allowed(s, c, e) && Bound(s, d, x, u)
    requires d == c ==> !e.Abort?
    ensures Bound(Apply(s, c, e), d, x, u)
    ensures d == c && e.Commit? ==> x in Apply(s, c, e).identities && Apply(s, c, e).identities[x] == u
  {
  }

  lemma ApplyKeepsCall(s: State, c: CallId, e: Effect, d: CallId)
    requires c in s.calls && d in s.calls && PendingInv(s) && Allowed(s, c, e)
    requires CallInv(s, d, s.calls[d])
    requires SameOrMore(s.identities, Apply(s, c, e).identities)
    requires d in Apply(s, c, e).calls
    ensures CallInv(Apply(s, c, e), d, Apply(s, c, e).calls[d])
  {
    var me := s.calls[d];
    if me.kind.AppleKind? && !(d == c && e.Abort?) {
      if me.stage.UpsertDevice? {
        ApplyKeepsBinding(s, c, e, d, me.kind.subject, me.stage.target);
      } else if me.stage.Ready? {
        ApplyKeepsBinding(s, c, e, d, me.kind.subject, me.stage.result);
      } else if d == c && e.MoveOn? && e.stage.UpsertDevice? {
        ApplyKeepsBinding(s, c, e, d, me.kind.subject, e.stage.target);
      }
    }
  }

  lemma MoveKeepsInv(s: State, move: Move)
    requires PendingInv(s) && CallsInv(s)
    ensures PendingInv(Moved(s, move)) && CallsInv(Moved(s, move))
    ensures SameOrMore(s.identities, Moved(s, move).identities)
    ensures Moved(s, move).calls.Keys == s.calls.Keys
    ensures forall d :: d in s.calls ==> Moved(s, move).calls[d].kind == s.calls[d].kind
  {
    hide EffectOf, Apply, Allowed;
    if move.call in s.calls {
      var c, e := move.call, MoveEffect(s, move);
      EffectsAreAllowed(s, move);
      ApplyKeepsPending(s, c, e);
      forall d | d in s.calls ensures CallInv(Apply(s, c, e), d, Apply(s, c, e).calls[d]) {
        assert CallInv(s, d, s.calls[d]);
        ApplyKeepsCall(s, c, e, d);
      }
    }
  }

  lemma {:induction false} RunKeepsInv(s0: State, moves: seq<Move>)
    requires Initial(s0)
    ensures PendingInv(Run(s0, moves)) && CallsInv(Run(s0, moves))
    ensures Run(s0, moves).calls.Keys == s0.calls.Keys
    ensures forall c :: c in s0.calls ==> Run(s0, moves).calls[c].kind == s0.calls[c].kind
    decreases |moves|
  {
    hide Moved, PendingInv, CallsInv;
    if moves == [] {
      InitialInv(s0);
    } else {
      var n := |moves| - 1;
      RunKeepsInv(s0, moves[..n]);
      MoveKeepsInv(Run(s0, moves[..n]), moves[n]);
    }
  }

  lemma InitialInv(s0: State)
    requires Initial(s0)
    ensures PendingInv(s0) && CallsInv(s0)
  {
  }

  /** The subject-to-user map is write-once along every run. */
  lemma {:induction false} IdentitiesAreWriteOnce(s0: State, moves: seq<Move>, n: nat)
    requires Initial(s0) && n <= |moves|
    ensures SameOrMore(Run(s0, moves[..n]).identities, Run(s0, moves).identities)
    decreases |moves|
  {
    hide Moved, PendingInv, CallsInv;
    if n == |moves| {
      assert moves[..n] == moves;
    } else {
      var m := |moves| - 1;
      assert moves[..m][..n] == moves[..n];
      IdentitiesAreWriteOnce(s0, moves[..m], n);
      RunKeepsInv(s0, moves[..m]);
      MoveKeepsInv(Run(s0, moves[..m]), moves[m]);
    }
  }

  /** Identity convergence: over every interleaving and every roll-back, all sign-ins of one Apple
      subject that return, return the same user, and that is the subject's committed user. */
  lemma SignInsConverge(s0: State, moves: seq<Move>, a: CallId, b: CallId)
    requires Initial(s0) && a in s0.calls && b in s0.calls
    requires s0.calls[a].kind.AppleKind? && s0.calls[b].kind.AppleKind?
    requires s0.calls[a].kind.subject == s0.calls[b].kind.subject
    requires var s := Run(s0, moves);
             a in s.calls && b in s.calls && s.calls[a].stage.Returned? && s.calls[b].stage.Returned?
    ensures var s := Run(s0, moves);
            && s.calls[a].stage.result == s.calls[b].stage.result
            && s0.calls[a].kind.subject in s.identities
            && s.identities[s0.calls[a].kind.subject] == s.calls[a].stage.result
  {
    RunKeepsInv(s0, moves);
    var s := Run(s0, moves);
    assert CallInv(s, a, s.calls[a]) && CallInv(s, b, s.calls[b]);
  }

  // ----- Registrations only -----

  /** What the stage of a registration says about its device; device rows are then write-once too. */
  ghost predicate RegisterInv(s: State, c: CallId, me: Active) {
    && me.kind.RegisterKind?
    && match me.stage
       case TouchDevice(u) => s.SeenDevice(c, me.kind.device) == Some(u)
       case Ready(u) => s.SeenDevice(c, me.kind.device) == Some(u)
       case Returned(u) => me.kind.device in s.devices && s.devices[me.kind.device] == u
       case _ => true
  }

  ghost predicate RegistersOnly(s: State) {
    && (forall c :: c in s.calls ==> RegisterInv(s, c, s.calls[c]))
    && RowsAgree(s)
  }

  /** An uncommitted device row is new, or refreshes the committed one. */
  ghost predicate RowsAgree(s: State) {
    forall d :: d in s.pendingDevices && d in s.devices ==> s.pendingDevices[d].user == s.devices[d]
  }

  ghost predicate RegisterAllowed(s: State, c: CallId, e: Effect)
    requires c in s.calls
  {
    var me := s.calls[c];
    && (!e.Wait? ==> me.Open())
    && !e.PutIdentity?
    && (e.MoveOn? ==>
          && !e.stage.Returned?
          && (e.stage.TouchDevice? ==> s.SeenDevice(c, me.kind.device) == Some(e.stage.found))
          && (e.stage.Ready? ==> s.SeenDevice(c, me.kind.device) == Some(e.stage.result)))
    && (e.PutDevice? ==>
          if e.stage.RereadDevice? then me.kind.device !in s.devices && me.kind.device !in s.pendingDevices
          else !s.DeviceHeld(c, me.kind.device) && s.SeenDevice(c, me.kind.device) == Some(e.user) && e.stage == Ready(e.user))
    && (e.Commit? ==> me.stage == Ready(e.result))
  }

  lemma RegisterEffects(s: State, move: Move)
    requires move.call in s.calls && RegisterInv(s, move.call, s.calls[move.call])
    ensures RegisterAllowed(s, move.call, MoveEffect(s, move))
  {
  }

  lemma ApplyKeepsDevices(s: State, c: CallId, e: Effect)
    requires c in s.calls && RegisterAllowed(s, c, e)
    requires RowsAgree(s)
    ensures RowsAgree(Apply(s, c, e))
    ensures SameOrMore(s.devices, Apply(s, c, e).devices)
  {
  }

  lemma ApplyKeepsSeen(s: State, c: CallId, e: Effect, b: CallId, d: DeviceId)
    requires c in s.calls && RegisterAllowed(s, c, e) && s.SeenDevice(b, d).Some?
    requires RowsAgree(s)
    requires b == c ==> !e.Abort?
    ensures Apply(s, c, e).SeenDevice(b, d) == s.SeenDevice(b, d)
    ensures b == c && e.Commit? ==> d in Apply(s, c, e).devices && Apply(s, c, e).devices[d] == s.SeenDevice(b, d).value
  {
  }

  lemma ApplyKeepsRegister(s: State, c: CallId, e: Effect, b: CallId)
    requires c in s.calls && b in s.calls && RegisterAllowed(s, c, e) && RegistersOnly(s)
    requires SameOrMore(s.devices, Apply(s, c, e).devices)
    ensures b in Apply(s, c, e).calls && RegisterInv(Apply(s, c, e), b, Apply(s, c, e).calls[b])
  {
    var me := s.calls[b];
    assert RegisterInv(s, b, me);
    if !(b == c && e.Abort?) {
      if me.stage.TouchDevice? || me.stage.Ready? || (b == c && e.MoveOn? && (e.stage.TouchDevice? || e.stage.Ready?)) {
        ApplyKeepsSeen(s, c, e, b, me.kind.device);
      }
    }
  }

  lemma {:induction false} RunKeepsRegistersOnly(s0: State, moves: seq<Move>)
    requires Initial(s0) && forall c :: c in s0.calls ==> s0.calls[c].kind.RegisterKind?
    ensures RegistersOnly(Run(s0, moves))
    ensures Run(s0, moves).calls.Keys == s0.calls.Keys
    decreases |moves|
  {
    hide Apply, MoveEffect, RegisterAllowed;
    if moves != [] {
      var n := |moves| - 1;
      RunKeepsRegistersOnly(s0, moves[..n]);
      RunKeepsInv(s0, moves[..n]);
      var s, move := Run(s0, moves[..n]), moves[n];
      MoveKeepsInv(s, move);
      if move.call in s.calls {
        var e := MoveEffect(s, move);
        assert RegisterInv(s, move.call, s.calls[move.call]);
        RegisterEffects(s, move);
        ApplyKeepsDevices(s, move.call, e);
        forall b | b in s.calls ensures RegisterInv(Apply(s, move.call, e), b, Apply(s, move.call, e).calls[b]) {
          ApplyKeepsRegister(s, move.call, e, b);
        }
      }
    }
  }

  /** With register and token calls only, all callers for one device that return, return the same user. */
  lemma RegistrationsConverge(s0: State, moves: seq<Move>, a: CallId, b: CallId)
    requires Initial(s0) && a in s0.calls && b in s0.calls
    requires forall c :: c in s0.calls ==> s0.calls[c].kind.RegisterKind?
    requires s0.calls[a].kind.device == s0.calls[b].kind.device
    requires var s := Run(s0, moves);
             a in s.calls && b in s.calls && s.calls[a].stage.Returned? && s.calls[b].stage.Returned?
    ensures Run(s0, moves).calls[a].stage.result == Run(s0, moves).calls[b].stage.result
  {
    RunKeepsRegistersOnly(s0, moves);
    RunKeepsInv(s0, moves);
    var s := Run(s0, moves);
    assert RegisterInv(s, a, s.calls[a]) && RegisterInv(s, b, s.calls[b]);
  }

  // ----- Where interleaving breaks a serial property -----

  predicate OneSubjectPerUser(identities: map<Subject, UserId>) {
    forall x, y :: x in identities && y in identities && identities[x] == identities[y] ==> x == y
  }

  /** The call is about to commit a link to a user that another committed subject already has. */
  ghost predicate CommitsSharedUser(s: State, move: Move) {
    && move.Statement? && move.call in s.calls
    && s.calls[move.call].kind.AppleKind? && s.calls[move.call].stage.Ready?
    && var x := s.calls[move.call].kind.subject;
    && x in s.pendingIdentities && s.pendingIdentities[x].call == move.call
    && exists y :: y in s.identities && s.identities[y] == s.pendingIdentities[x].user
  }

  /** In a reachable state, that commit is the only move after which a user has two subjects. */
  lemma SharedOnlyByCommit(s0: State, moves: seq<Move>, move: Move)
    requires Initial(s0) && OneSubjectPerUser(Run(s0, moves).identities)
    ensures !OneSubjectPerUser(Moved(Run(s0, moves), move).identities) <==> CommitsSharedUser(Run(s0, moves), move)
  {
    hide EffectOf, Run;
    RunKeepsInv(s0, moves);
    var s := Run(s0, moves);
    if move.call in s.calls {
      EffectsAreAllowed(s, move);
      if MoveEffect(s, move).Commit? {
        CommitAddsOwn(s, move.call);
        CommitSharesIff(s, move);
      } else {
        assert Moved(s, move).identities == s.identities;
        assert !CommitsSharedUser(s, move) by { ReadyCommits(s, move); }
      }
    }
  }

  lemma ReadyCommits(s: State, move: Move)
    requires move.call in s.calls
    ensures MoveEffect(s, move).Commit? <==> move.Statement? && s.calls[move.call].stage.Ready?
  {
  }

  lemma CommitAddsOwn(s: State, c: CallId)
    requires PendingInv(s) && c in s.calls
    ensures var me := s.calls[c];
            s.CommittedRows(c).identities ==
              if me.kind.AppleKind? && me.kind.subject in s.pendingIdentities && s.pendingIdentities[me.kind.subject].call == c
              then s.identities[me.kind.subject := s.pendingIdentities[me.kind.subject].user] else s.identities
  {
  }

  lemma CommitSharesIff(s: State, move: Move)
    requires PendingInv(s) && move.call in s.calls && OneSubjectPerUser(s.identities) && MoveEffect(s, move).Commit?
    ensures !OneSubjectPerUser(Moved(s, move).identities) <==> CommitsSharedUser(s, move)
  {
    CommitAddsOwn(s, move.call);
    ReadyCommits(s, move);
    hide EffectOf;
    var ids := Moved(s, move).identities;
    if CommitsSharedUser(s, move) {
      var x := s.calls[move.call].kind.subject;
      var y :| y in s.identities && s.identities[y] == s.pendingIdentities[x].user;
      assert x in ids && y in ids && ids[x] == ids[y] && x != y;
    }
  }
}
