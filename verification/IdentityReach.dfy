/** Which sets of calls can give one user two Apple identities, said of the calls and tables before the
    first statement: two new subjects on two devices of one identity-less account, or two new subjects and a
    registration on one device that is not registered yet. A registered device's row is held from the
    moment a sign-in finds it, so on one registered device sign-ins take turns. */
module IdentityReach {
  import opened Base
  import Auth
  import opened IdentityRace
  import opened IdentityOverlap

  predicate Linked(s: State, u: Auth.UserId) {
    exists x :: x in s.identities && s.identities[x] == u
  }

  /** The call signs in a subject that nobody has linked. */
  predicate NewSubject(s: State, c: CallId) {
    c in s.calls && s.calls[c].kind.AppleKind? && s.calls[c].kind.subject !in s.identities
  }

  predicate Registers(s: State, d: Auth.DeviceId) {
    exists r :: r in s.calls && s.calls[r].kind == RegisterKind(d)
  }

  /** Two devices of one account without an Apple identity. */
  predicate SharedAccount(s: State, d: Auth.DeviceId, e: Auth.DeviceId) {
    d != e && d in s.devices && e in s.devices && s.devices[d] == s.devices[e] && !Linked(s, s.devices[d])
  }

  /** A device without a row, and a registration of it among the calls. */
  predicate Raced(s: State, d: Auth.DeviceId) {
    d !in s.devices && Registers(s, d)
  }

  predicate RiskyPair(s: State, c: CallId, d: CallId) {
    && NewSubject(s, c) && NewSubject(s, d) && s.calls[c].kind.subject != s.calls[d].kind.subject
    && var a, b := s.calls[c].kind.device, s.calls[d].kind.device;
       SharedAccount(s, a, b) || (a == b && Raced(s, a))
  }

  ghost predicate Risky(s: State) {
    exists c, d :: RiskyPair(s, c, d)
  }

  // ----- Where a user without an Apple identity is known -----

  datatype Place = Row(device: Auth.DeviceId) | PendingRow(device: Auth.DeviceId) | Hand(call: CallId)

  predicate UserAt(s: State, p: Place, u: Auth.UserId) {
    match p
    case Row(d) => d in s.devices && s.devices[d] == u
    case PendingRow(d) => d in s.pendingDevices && s.pendingDevices[d].user == u
    case Hand(c) => c in s.calls && s.calls[c].kind.AppleKind? && s.calls[c].Open()
                    && (u in StageUsers(s.calls[c].stage) || Holds(s, c, u))
  }

  function DeviceAt(s: State, p: Place): Auth.DeviceId {
    match p
    case Hand(c) => if c in s.calls then s.calls[c].kind.device else ""
    case _ => p.device
  }

  /** What the call itself can read or write of devices and accounts. */
  predicate Own(s: State, c: CallId, p: Place)
    requires c in s.calls
  {
    match p
    case Row(d) => d == s.calls[c].kind.device
    case PendingRow(d) => d == s.calls[c].kind.device && d in s.pendingDevices && s.pendingDevices[d].call == c
    case Hand(e) => e == c
  }

  /** An open call owns the uncommitted device rows, each the row of its device. */
  ghost predicate Owned(s: State) {
    forall d :: d in s.pendingDevices ==>
      var c := s.pendingDevices[d].call; c in s.calls && s.calls[c].kind.device == d && s.calls[c].Open()
  }

  /** The call got `u` from its own device's row or its own hands, drew it, or found it linked. */
  ghost predicate Readable(s: State, c: CallId, u: Auth.UserId)
    requires c in s.calls
  {
    u !in s.users || Linked(s, u) || exists p :: Own(s, c, p) && UserAt(s, p, u)
  }

  ghost predicate Sourced(s: State, c: CallId, e: Effect)
    requires c in s.calls
  {
    var apple := s.calls[c].kind.AppleKind?;
    && (e.PutDevice? ==> Readable(s, c, e.user) && !s.DeviceHeld(c, s.calls[c].kind.device))
    && (e.PutIdentity? ==> Readable(s, c, e.user))
    && (apple && (e.MoveOn? || e.PutDevice? || e.PutIdentity?) ==>
          forall u :: u in StageUsers(e.stage) ==> Readable(s, c, u))
  }

  lemma RowIsReadable(s: State, c: CallId)
    requires c in s.calls
    ensures var found := s.SeenDevice(c, s.calls[c].kind.device); found.Some? ==> Readable(s, c, found.value)
  {
    var d := s.calls[c].kind.device;
    var found := s.SeenDevice(c, d);
    if found.Some? {
      var p := if d in s.pendingDevices && s.pendingDevices[d].call == c then PendingRow(d) else Row(d);
      assert Own(s, c, p) && UserAt(s, p, found.value);
    }
  }

  lemma HandIsReadable(s: State, c: CallId, u: Auth.UserId)
    requires c in s.calls && s.calls[c].kind.AppleKind? && s.calls[c].Open()
    requires u in StageUsers(s.calls[c].stage) || Holds(s, c, u)
    ensures Readable(s, c, u)
  {
    assert Own(s, c, Hand(c)) && UserAt(s, Hand(c), u);
  }

  lemma IdentityIsReadable(s: State, c: CallId)
    requires c in s.calls && s.calls[c].kind.AppleKind? && s.calls[c].Open()
    ensures var found := s.SeenIdentity(c, s.calls[c].kind.subject); found.Some? ==> Readable(s, c, found.value)
  {
    var x := s.calls[c].kind.subject;
    var found := s.SeenIdentity(c, x);
    if found.Some? {
      if x in s.pendingIdentities && s.pendingIdentities[x].call == c {
        HandIsReadable(s, c, found.value);
      } else {
        assert s.identities[x] == found.value;
      }
    }
  }

  lemma EffectsAreSourced(s: State, move: Move)
    requires move.call in s.calls
    ensures Sourced(s, move.call, MoveEffect(s, move))
  {
    var c := move.call;
    var me := s.calls[c];
    RowIsReadable(s, c);
    if me.kind.AppleKind? && me.Open() {
      IdentityIsReadable(s, c);
      forall u | u in StageUsers(me.stage) ensures Readable(s, c, u) {
        HandIsReadable(s, c, u);
      }
    }
    hide Readable, Linked;
  }

  /** A place that knows `u` after a move knew it before, or the mover put it there from what it could read. */
  lemma Origin(s: State, c: CallId, e: Effect, p: Place, u: Auth.UserId)
    requires c in s.calls && Allowed(s, c, e) && Sourced(s, c, e) && Owned(s) && PendingInv(s)
    requires UserAt(Apply(s, c, e), p, u) && !Linked(s, u)
    ensures UserAt(s, p, u) || (Own(Apply(s, c, e), c, p) && Readable(s, c, u) && (p.Row? ==> e.Commit?))
  {
    if !UserAt(s, p, u) {
      match p {
        case Row(d) => RowOrigin(s, c, e, d, u);
        case PendingRow(d) => hide Readable, Linked;
        case Hand(b) => HandOrigin(s, c, e, b, u);
      }
    }
  }

  lemma RowOrigin(s: State, c: CallId, e: Effect, d: Auth.DeviceId, u: Auth.UserId)
    requires c in s.calls && Allowed(s, c, e) && Owned(s)
    requires UserAt(Apply(s, c, e), Row(d), u) && !UserAt(s, Row(d), u)
    ensures Own(Apply(s, c, e), c, Row(d)) && Readable(s, c, u) && e.Commit?
  {
    assert Own(s, c, PendingRow(d)) && UserAt(s, PendingRow(d), u);
  }

  lemma HandOrigin(s: State, c: CallId, e: Effect, b: CallId, u: Auth.UserId)
    requires c in s.calls && Allowed(s, c, e) && Sourced(s, c, e) && PendingInv(s)
    requires UserAt(Apply(s, c, e), Hand(b), u) && !UserAt(s, Hand(b), u)
    ensures b == c && Readable(s, c, u)
  {
    hide Readable;
  }

  // ----- One home per account without an Apple identity -----

  /** Places that know such an account belong to one device, or to devices that shared it from the start. */
  ghost predicate Homes(s0: State, s: State) {
    forall p, q, u :: UserAt(s, p, u) && UserAt(s, q, u) && !Linked(s, u) ==> SameHome(s0, DeviceAt(s, p), DeviceAt(s, q), u)
  }

  predicate SameHome(s0: State, d: Auth.DeviceId, e: Auth.DeviceId, u: Auth.UserId) {
    d == e || (d in s0.devices && e in s0.devices && s0.devices[d] == u && s0.devices[e] == u)
  }

  lemma StartHomes(s0: State)
    requires Initial(s0)
    ensures Homes(s0, s0)
  {
  }

  lemma NobodyKnows(s: State, u: Auth.UserId)
    requires Known(s) && u !in s.users
    ensures !Linked(s, u) && forall p :: !UserAt(s, p, u)
  {
  }

  /** A place after the move stands for one on the same device before it, or holds a user just drawn. */
  lemma Home(s: State, c: CallId, e: Effect, p: Place, u: Auth.UserId) returns (before: Place)
    requires c in s.calls && Allowed(s, c, e) && Sourced(s, c, e) && Owned(s) && PendingInv(s)
    requires UserAt(Apply(s, c, e), p, u) && !Linked(s, u)
    requires forall b :: b in s.calls ==> b in Apply(s, c, e).calls && Apply(s, c, e).calls[b].kind == s.calls[b].kind
    ensures u in s.users ==> UserAt(s, before, u) && DeviceAt(s, before) == DeviceAt(Apply(s, c, e), p)
    ensures u !in s.users ==> UserAt(s, before, u) || DeviceAt(Apply(s, c, e), p) == s.calls[c].kind.device
  {
    Origin(s, c, e, p, u);
    before := p;
    hide Apply, Allowed, Sourced, Owned, PendingInv, Holds, Linked;
    if !UserAt(s, p, u) && u in s.users {
      before :| Own(s, c, before) && UserAt(s, before, u);
    }
  }

  lemma MoveKeepsHomes(s0: State, s: State, c: CallId, e: Effect)
    requires c in s.calls && Allowed(s, c, e) && Sourced(s, c, e) && Owned(s) && PendingInv(s) && Known(s)
    requires Homes(s0, s) && SameOrMore(s.identities, Apply(s, c, e).identities)
    requires forall b :: b in s.calls ==> b in Apply(s, c, e).calls && Apply(s, c, e).calls[b].kind == s.calls[b].kind
    ensures Homes(s0, Apply(s, c, e))
  {
    var s' := Apply(s, c, e);
    hide Apply, Allowed, Sourced, Owned, PendingInv, UserAt, DeviceAt, Known;
    forall p, q, u | UserAt(s', p, u) && UserAt(s', q, u) && !Linked(s', u)
      ensures SameHome(s0, DeviceAt(s', p), DeviceAt(s', q), u)
    {
      if Linked(s, u) {
        LinkedLater(s, s', u);
      }
      hide Linked, SameHome;
      var p1 := Home(s, c, e, p, u);
      var q1 := Home(s, c, e, q, u);
      if u in s.users {
        assert SameHome(s0, DeviceAt(s, p1), DeviceAt(s, q1), u);
      } else {
        NobodyKnows(s, u);
        SameDevice(s0, DeviceAt(s', p), u);
      }
    }
  }

  lemma SameDevice(s0: State, d: Auth.DeviceId, u: Auth.UserId)
    ensures SameHome(s0, d, d, u)
  {
  }

  lemma LinkedLater(s: State, s': State, u: Auth.UserId)
    requires SameOrMore(s.identities, s'.identities) && Linked(s, u)
    ensures Linked(s', u)
  {
    var x :| x in s.identities && s.identities[x] == u;
    assert s'.identities[x] == u;
  }

  // ----- Who holds what -----

  /** The sign-in holds its device's row. */
  predicate Locked(s: State, c: CallId)
    requires c in s.calls
  {
    var d := s.calls[c].kind.device;
    d in s.pendingDevices && s.pendingDevices[d].call == c
  }

  predicate BeforeLink(stage: Stage) {
    stage.FindDevice? || stage.TouchDevice? || stage.InsertDevice? || stage.RereadDevice? || stage.CheckApple? || stage.InsertIdentity?
  }

  /** What a sign-in's stage says of its subject and its device, against the start `s0`. */
  ghost predicate SignInInv(s0: State, s: State, c: CallId)
    requires c in s.calls
  {
    var me := s.calls[c];
    var d := me.kind.device;
    me.kind.AppleKind? ==>
      && (BeforeLink(me.stage) ==> me.kind.subject !in s0.identities)
      && (me.stage.InsertDevice? || me.stage.RereadDevice? ==> d !in s0.devices)
      && (me.stage.TouchDevice? ==> d in s.devices || Locked(s, c))
      && (me.stage.CheckApple? ==> Locked(s, c) || Linked(s, me.stage.deviceUser) || Raced(s0, d))
      && (me.stage.Ready? ==> d in s.pendingDevices && s.pendingDevices[d] == Pending(c, me.stage.result))
  }

  /** No row vanishes; a row that sign-ins alone put there belongs to an account with an Apple identity. */
  ghost predicate RowsInv(s0: State, s: State) {
    && s0.devices.Keys <= s.devices.Keys
    && forall d :: d in s.devices && d !in s0.devices && !Registers(s0, d) ==> Linked(s, s.devices[d])
  }

  ghost predicate Kinds(s0: State, s: State) {
    && s.calls.Keys == s0.calls.Keys && SameOrMore(s0.identities, s.identities)
    && forall c :: c in s.calls ==> s.calls[c].kind == s0.calls[c].kind
  }

  lemma MoveKeepsOwned(s: State, c: CallId, e: Effect)
    requires c in s.calls && Owned(s) && Allowed(s, c, e) && PendingInv(s) && (e.MoveOn? ==> !e.stage.Returned? && !e.stage.Ended?)
    requires e.PutDevice? || e.PutIdentity? ==> !e.stage.Returned? && !e.stage.Ended?
    ensures Owned(Apply(s, c, e))
  {
  }

  lemma EffectsStayOpen(s: State, move: Move)
    requires move.call in s.calls
    ensures var e := MoveEffect(s, move);
            e.MoveOn? || e.PutDevice? || e.PutIdentity? ==> !e.stage.Returned? && !e.stage.Ended?
  {
  }

  lemma LockLasts(s: State, c: CallId, e: Effect, b: CallId)
    requires c in s.calls && b in s.calls && b != c && Locked(s, b)
    requires e.PutDevice? ==> !s.DeviceHeld(c, s.calls[c].kind.device)
    requires e.PutIdentity? ==> s.calls[c].kind.AppleKind?
    ensures var d := s.calls[b].kind.device; var s' := Apply(s, c, e);
            d in s'.pendingDevices && s'.pendingDevices[d] == s.pendingDevices[d]
  {
  }

  lemma OthersKeep(s0: State, s: State, c: CallId, e: Effect, b: CallId)
    requires c in s.calls && b in s.calls && b != c && SignInInv(s0, s, b)
    requires e.PutDevice? ==> !s.DeviceHeld(c, s.calls[c].kind.device)
    requires e.PutIdentity? ==> s.calls[c].kind.AppleKind?
    requires SameOrMore(s.identities, Apply(s, c, e).identities) && s.devices.Keys <= Apply(s, c, e).devices.Keys
    ensures b in Apply(s, c, e).calls && SignInInv(s0, Apply(s, c, e), b)
  {
    var s' := Apply(s, c, e);
    assert s'.calls[b] == s.calls[b];
    if Locked(s, b) {
      LockLasts(s, c, e, b);
    }
    hide Apply;
    if s.calls[b].stage.CheckApple? && Linked(s, s.calls[b].stage.deviceUser) {
      LinkedLater(s, s', s.calls[b].stage.deviceUser);
    }
    hide Linked;
  }

  /** What a statement of a sign-in may lead to. */
  ghost predicate StageGained(s0: State, s: State, c: CallId, e: Effect)
    requires c in s.calls
  {
    var me := s.calls[c];
    var d := me.kind.device;
    me.kind.AppleKind? && (e.MoveOn? || e.PutDevice? || e.PutIdentity?) ==>
      && (BeforeLink(e.stage) ==> me.kind.subject !in s0.identities)
      && (e.stage.InsertDevice? || e.stage.RereadDevice? ==> d !in s0.devices)
      && (e.stage.TouchDevice? ==> e.MoveOn? && (d in s.devices || Locked(s, c)))
      && (e.stage.CheckApple? && !e.PutDevice? ==> e.MoveOn? && (Locked(s, c) || Linked(s, e.stage.deviceUser) || Raced(s0, d)))
      && (e.stage.Ready? ==> e.PutDevice? && e.user == e.stage.result)
  }

  lemma StagesAreGained(s0: State, s: State, move: Move)
    requires move.call in s.calls && SignInInv(s0, s, move.call) && RowsInv(s0, s) && Kinds(s0, s)
    ensures StageGained(s0, s, move.call, MoveEffect(s, move))
  {
    hide Linked, Registers;
  }

  lemma GainIsKept(s0: State, s: State, c: CallId, e: Effect)
    requires c in s.calls && SignInInv(s0, s, c) && StageGained(s0, s, c, e) && Allowed(s, c, e)
    ensures c in Apply(s, c, e).calls && SignInInv(s0, Apply(s, c, e), c)
  {
    var s' := Apply(s, c, e);
    if s'.calls[c].stage.CheckApple? && s'.identities == s.identities {
      SameLinks(s, s', s'.calls[c].stage.deviceUser);
    }
    hide Linked, Raced;
  }

  lemma MoverKeeps(s0: State, s: State, move: Move)
    requires move.call in s.calls && SignInInv(s0, s, move.call) && RowsInv(s0, s) && Kinds(s0, s)
    ensures move.call in Moved(s, move).calls && SignInInv(s0, Moved(s, move), move.call)
  {
    hide MoveEffect, Apply, SignInInv, RowsInv, Kinds, StageGained, Allowed;
    EffectsAreAllowed(s, move);
    StagesAreGained(s0, s, move);
    GainIsKept(s0, s, move.call, MoveEffect(s, move));
  }

  lemma RowsGrow(s: State, c: CallId, e: Effect)
    requires c in s.calls && Allowed(s, c, e)
    ensures s.devices.Keys <= Apply(s, c, e).devices.Keys
    ensures forall d :: d in Apply(s, c, e).devices && !(d in s.devices && Apply(s, c, e).devices[d] == s.devices[d]) ==>
              e.Commit? && d in s.pendingDevices && s.pendingDevices[d].call == c && Apply(s, c, e).devices[d] == s.pendingDevices[d].user
  {
    var s' := Apply(s, c, e);
    if e.Commit? {
      var own := map d | d in s.pendingDevices && s.pendingDevices[d].call == c :: s.pendingDevices[d].user;
      assert s'.devices == s.devices + own;
      assert forall d :: d in s'.devices && d !in own ==> d in s.devices && s'.devices[d] == s.devices[d];
    } else {
      assert s'.devices == s.devices;
    }
  }

  /** What a sign-in commits is the row of an account its subject is linked to. */
  lemma CommittedRowIsLinked(s0: State, s: State, c: CallId, e: Effect, d: Auth.DeviceId)
    requires c in s.calls && Allowed(s, c, e) && PendingInv(s) && CallsInv(s) && Owned(s) && SignInInv(s0, s, c)
    requires s.calls[c].kind.AppleKind? && e.Commit? && d in s.pendingDevices && s.pendingDevices[d].call == c
    ensures Linked(Apply(s, c, e), s.pendingDevices[d].user)
  {
    var x, u := s.calls[c].kind.subject, s.calls[c].stage.result;
    assert CallInv(s, c, s.calls[c]);
    ApplyKeepsBinding(s, c, e, c, x, u);
    assert Apply(s, c, e).identities[x] == u;
  }

  lemma MoveKeepsRows(s0: State, s: State, c: CallId, e: Effect)
    requires c in s.calls && Allowed(s, c, e) && PendingInv(s) && CallsInv(s) && Owned(s) && SignInInv(s0, s, c)
    requires Kinds(s0, s) && RowsInv(s0, s) && SameOrMore(s.identities, Apply(s, c, e).identities)
    ensures RowsInv(s0, Apply(s, c, e))
  {
    var s' := Apply(s, c, e);
    RowsGrow(s, c, e);
    hide Apply, PendingInv, CallsInv, Allowed, SignInInv, Linked;
    forall d | d in s'.devices && d !in s0.devices && !Registers(s0, d) ensures Linked(s', s'.devices[d]) {
      if d in s.devices && s'.devices[d] == s.devices[d] {
        LinkedLater(s, s', s.devices[d]);
      } else {
        assert s.calls[c].kind.device == d && s0.calls[c].kind == s.calls[c].kind;
        CommittedRowIsLinked(s0, s, c, e, d);
      }
    }
  }

  // ----- Claims -----

  predicate Mine(s: State, c: CallId, p: Place) {
    p == Hand(c) || (p.PendingRow? && p.device in s.pendingDevices && s.pendingDevices[p.device].call == c)
  }

  /** Nobody else can know the account the call is about to link to: it drew the id itself. */
  ghost predicate Private(s: State, c: CallId, u: Auth.UserId) {
    !Linked(s, u) && forall p :: UserAt(s, p, u) ==> Mine(s, c, p)
  }

  /** A call past its check holds its device's row, or raced for a device that was not registered, or links
      to an account of its own. */
  ghost predicate ClaimsInv(s0: State, s: State) {
    forall c, u :: Claims(s, c, u) ==> Locked(s, c) || Raced(s0, s.calls[c].kind.device) || Private(s, c, u)
  }

  /** Privacy lasts as long as the claim. */
  lemma PrivateLasts(s: State, c: CallId, e: Effect, b: CallId, u: Auth.UserId)
    requires c in s.calls && Allowed(s, c, e) && Sourced(s, c, e) && Owned(s) && PendingInv(s)
    requires Private(s, b, u) && Claims(s, b, u) && u in s.users && Claims(Apply(s, c, e), b, u)
    ensures Private(Apply(s, c, e), b, u)
  {
    var s' := Apply(s, c, e);
    assert UserAt(s, Hand(b), u);
    assert c == b ==> !e.Commit? && !e.Abort?;
    StaysUnlinked(s, c, e, b, u);
    forall p | UserAt(s', p, u) ensures Mine(s', b, p) {
      Origin(s, c, e, p, u);
      PrivatePlace(s, c, e, b, u, p);
    }
  }

  lemma StaysUnlinked(s: State, c: CallId, e: Effect, b: CallId, u: Auth.UserId)
    requires c in s.calls && Allowed(s, c, e) && PendingInv(s) && Private(s, b, u) && (c == b ==> !e.Commit?)
    ensures !Linked(Apply(s, c, e), u)
  {
    var s' := Apply(s, c, e);
    CommitAddsOwn(s, c);
    if x :| x in s'.identities && s'.identities[x] == u {
      if x in s.identities && s.identities[x] == u {
        assert Linked(s, u);
        assert false;
      } else {
        CommitterKnows(s, c, e, x);
        assert false;
      }
    }
  }

  lemma CommitterKnows(s: State, c: CallId, e: Effect, x: Auth.Subject)
    requires c in s.calls && Allowed(s, c, e) && PendingInv(s) && x in Apply(s, c, e).identities
    ensures (x in s.identities && Apply(s, c, e).identities[x] == s.identities[x])
            || (e.Commit? && UserAt(s, Hand(c), Apply(s, c, e).identities[x]))
  {
    CommitAddsOwn(s, c);
  }

  lemma PrivatePlace(s: State, c: CallId, e: Effect, b: CallId, u: Auth.UserId, p: Place)
    requires c in s.calls && Allowed(s, c, e) && Sourced(s, c, e) && Private(s, b, u) && u in s.users
    requires UserAt(Apply(s, c, e), p, u)
    requires UserAt(s, p, u) || (Own(Apply(s, c, e), c, p) && Readable(s, c, u) && (p.Row? ==> e.Commit?))
    requires c == b ==> !e.Commit? && !e.Abort?
    ensures Mine(Apply(s, c, e), b, p)
  {
    hide Linked;
    if !UserAt(s, p, u) && c != b {
      assert false;
    }
  }

  lemma LockStays(s: State, c: CallId, e: Effect, b: CallId)
    requires c in s.calls && b in s.calls && Locked(s, b) && Allowed(s, c, e) && Sourced(s, c, e)
    requires c == b ==> !e.Commit? && !e.Abort?
    ensures b in Apply(s, c, e).calls && Locked(Apply(s, c, e), b)
  {
    hide Readable;
    if b != c {
      LockLasts(s, c, e, b);
    }
  }

  lemma NewClaim(s0: State, s: State, move: Move, u: Auth.UserId)
    requires move.call in s.calls && Claims(Moved(s, move), move.call, u) && !Claims(s, move.call, u)
    requires PendingInv(s) && Known(s) && Owned(s) && SignInInv(s0, s, move.call) && Kinds(s0, s)
    ensures Locked(Moved(s, move), move.call) || Raced(s0, s.calls[move.call].kind.device) || Private(Moved(s, move), move.call, u)
  {
    var c := move.call;
    var e := MoveEffect(s, move);
    EffectsAreAllowed(s, move);
    EffectsAreSourced(s, move);
    ClaimingEffects(s, move);
    ClaimsOfMover(s, c, e, u);
    NewClaimIs(s, move, u);
    if u in s.users {
      hide EffectOf;
      if Locked(s, c) {
        LockStays(s, c, e, c);
      }
    } else {
      hide EffectOf;
      DrawnIsPrivate(s, c, e, u);
    }
  }

  /** The check that saw nothing, or the draw. */
  lemma NewClaimIs(s: State, move: Move, u: Auth.UserId)
    requires move.call in s.calls && PendingInv(s) && MoveEffect(s, move).MoveOn? && MoveEffect(s, move).stage == InsertIdentity(u)
    ensures var me := s.calls[move.call];
            && me.kind.AppleKind? && me.stage.CheckApple?
            && (u in s.users ==> me.stage.deviceUser == u && !Linked(s, u))
  {
    var me := s.calls[move.call];
    if me.kind.AppleKind? && me.stage.CheckApple? && !s.SeesApple(move.call, me.stage.deviceUser) {
      NothingSeen(s, move.call, me.stage.deviceUser);
    }
  }

  lemma DrawnIsPrivate(s: State, c: CallId, e: Effect, u: Auth.UserId)
    requires c in s.calls && Allowed(s, c, e) && Sourced(s, c, e) && Owned(s) && PendingInv(s) && Known(s)
    requires u !in s.users && e.MoveOn?
    ensures Private(Apply(s, c, e), c, u)
  {
    NobodyKnows(s, u);
    hide Linked, Known, Readable;
    assert Apply(s, c, e).identities == s.identities;
    SameLinks(s, Apply(s, c, e), u);
    forall p | UserAt(Apply(s, c, e), p, u) ensures Mine(Apply(s, c, e), c, p) {
      Origin(s, c, e, p, u);
    }
  }

  lemma SameLinks(s: State, s': State, u: Auth.UserId)
    requires s.identities == s'.identities
    ensures Linked(s, u) <==> Linked(s', u)
  {
  }

  lemma OldClaim(s0: State, s: State, c: CallId, e: Effect, b: CallId, u: Auth.UserId)
    requires c in s.calls && Allowed(s, c, e) && Sourced(s, c, e) && Owned(s) && PendingInv(s) && Known(s) && ClaimsInv(s0, s)
    requires Claims(s, b, u) && Claims(Apply(s, c, e), b, u)
    ensures Locked(Apply(s, c, e), b) || Raced(s0, s.calls[b].kind.device) || Private(Apply(s, c, e), b, u)
  {
    assert c == b ==> !e.Commit? && !e.Abort?;
    assert u in s.users;
    if Locked(s, b) {
      hide *;
      LockStays(s, c, e, b);
    } else if Private(s, b, u) {
      hide *;
      PrivateLasts(s, c, e, b, u);
    }
  }

  lemma MoveKeepsClaims(s0: State, s: State, move: Move)
    requires move.call in s.calls && PendingInv(s) && CallsInv(s) && Known(s) && Owned(s) && Kinds(s0, s) && ClaimsInv(s0, s)
    requires SignInInv(s0, s, move.call)
    ensures ClaimsInv(s0, Moved(s, move))
  {
    var c, e := move.call, MoveEffect(s, move);
    EffectsAreAllowed(s, move);
    EffectsAreSourced(s, move);
    MoveKeepsInv(s, move);
    hide EffectOf, Apply, Allowed, Sourced, Owned, PendingInv, CallsInv, Known, SignInInv, Claims, Private, Raced;
    var s' := Moved(s, move);
    forall b, u | Claims(s', b, u) ensures Locked(s', b) || Raced(s0, s'.calls[b].kind.device) || Private(s', b, u) {
      if b != c {
        ClaimsOfOthers(s, c, e, b, u);
      }
      if Claims(s, b, u) {
        OldClaim(s0, s, c, e, b, u);
      } else {
        NewClaim(s0, s, move, u);
      }
    }
  }

  // ----- Over whole runs -----

  ghost predicate Inv(s0: State, s: State) {
    && PendingInv(s) && CallsInv(s) && Known(s) && Kinds(s0, s)
    && Homes(s0, s) && Owned(s) && RowsInv(s0, s) && ClaimsInv(s0, s)
    && forall c :: c in s.calls ==> SignInInv(s0, s, c)
  }

  lemma StartInv(s0: State)
    requires Start(s0)
    ensures Inv(s0, s0)
  {
    InitialInv(s0);
    StartHomes(s0);
    RunKeepsKnown(s0, []);
    hide Homes;
  }

  lemma MoveKeepsAll(s0: State, s: State, move: Move)
    requires Inv(s0, s) && Known(Moved(s, move))
    ensures Inv(s0, Moved(s, move))
  {
    if move.call in s.calls {
      var c, e, s' := move.call, MoveEffect(s, move), Moved(s, move);
      EffectsAreAllowed(s, move);
      EffectsAreSourced(s, move);
      EffectsStayOpen(s, move);
      MoveKeepsInv(s, move);
      hide EffectOf, Apply, Known, PendingInv, CallsInv, Homes, Owned, RowsInv, ClaimsInv, SignInInv;
      MoveKeepsHomes(s0, s, c, e);
      MoveKeepsOwned(s, c, e);
      MoveKeepsRows(s0, s, c, e);
      MoveKeepsClaims(s0, s, move);
      RowsGrow(s, c, e);
      hide MoveEffect, Moved;
      forall b | b in s'.calls ensures SignInInv(s0, s', b) {
        if b == c {
          MoverKeeps(s0, s, move);
        } else {
          OthersKeep(s0, s, c, e, b);
        }
      }
    }
  }

  lemma {:induction false} RunKeepsAll(s0: State, moves: seq<Move>)
    requires Start(s0)
    ensures Inv(s0, Run(s0, moves))
    decreases |moves|
  {
    hide Inv, Moved, Known;
    if moves == [] {
      StartInv(s0);
    } else {
      var n := |moves| - 1;
      RunKeepsAll(s0, moves[..n]);
      RunKeepsKnown(s0, moves);
      MoveKeepsAll(s0, Run(s0, moves[..n]), moves[n]);
    }
  }

  // ----- Without such a pair every user keeps one Apple identity -----

  lemma ClaimsAreHands(s: State, c: CallId, u: Auth.UserId)
    requires Claims(s, c, u)
    ensures UserAt(s, Hand(c), u)
  {
  }

  lemma ClaimsAreNew(s0: State, s: State, c: CallId, u: Auth.UserId)
    requires PendingInv(s) && Kinds(s0, s) && Claims(s, c, u) && SignInInv(s0, s, c)
    ensures NewSubject(s0, c)
  {
    hide Linked, Raced, Locked;
  }

  /** Two calls past the check for an account without an Apple identity are such a pair. */
  lemma OverlapIsRisky(s0: State, s: State, c: CallId, d: CallId, u: Auth.UserId)
    requires Inv(s0, s) && Overlap(s, c, d, u) && !Linked(s, u)
    ensures RiskyPair(s0, c, d)
  {
    ClaimsAreHands(s, c, u);
    ClaimsAreHands(s, d, u);
    ClaimsAreNew(s0, s, c, u);
    ClaimsAreNew(s0, s, d, u);
    assert Homes(s0, s) && ClaimsInv(s0, s);
    if Linked(s0, u) {
      LinkedLater(s0, s, u);
    }
    hide Inv, Linked, NewSubject, UserAt, Holds, Registers;
    assert SameHome(s0, DeviceAt(s, Hand(c)), DeviceAt(s, Hand(d)), u);
    assert !Private(s, c, u) && !Private(s, d, u);
    assert c != d;
  }

  lemma {:induction false} SafeHasNoOverlap(s0: State, moves: seq<Move>)
    requires Start(s0) && !Risky(s0)
    ensures forall c, d, u :: !Overlap(Run(s0, moves), c, d, u)
    decreases |moves|
  {
    hide Risky, RiskyPair, Moved, Inv, PendingInv, CallsInv, Known, OneSubjectPerUser;
    if moves == [] {
      NoClaimsAtStart(s0);
    } else {
      var n := |moves| - 1;
      var s, s' := Run(s0, moves[..n]), Run(s0, moves);
      SafeHasNoOverlap(s0, moves[..n]);
      RunKeepsInv(s0, moves[..n]);
      RunKeepsKnown(s0, moves[..n]);
      RunKeepsInv(s0, moves);
      RunKeepsAll(s0, moves);
      hide Claims;
      forall c, d, u | Overlap(s', c, d, u) ensures false {
        ClaimBegins(s, moves[n], c, u);
        ClaimBegins(s, moves[n], d, u);
        assert Claims(s, c, u) && Claims(s, d, u) ==> Overlap(s, c, d, u);
        assert !Linked(s', u);
        OverlapIsRisky(s0, s', c, d, u);
        PairIsRisky(s0, c, d);
      }
    }
  }

  lemma PairIsRisky(s0: State, c: CallId, d: CallId)
    requires RiskyPair(s0, c, d)
    ensures Risky(s0)
  {
  }

  lemma SafeKeepsOne(s0: State, moves: seq<Move>)
    requires Start(s0) && !Risky(s0)
    ensures OneSubjectPerUser(Run(s0, moves).identities)
  {
    hide Risky, Run, Overlap, OneSubjectPerUser;
    forall n: nat, c, d, u | n <= |moves| ensures !Overlap(Run(s0, moves[..n]), c, d, u) {
      SafeHasNoOverlap(s0, moves[..n]);
    }
    NoOverlapKeepsOne(s0, moves);
  }

  // ----- With such a pair some interleaving shares a user -----

  /** Some moves lead from `a` to `b`. */
  ghost predicate Reaches(a: State, b: State) {
    exists moves :: Run(a, moves) == b
  }

  lemma ReachesSelf(a: State)
    ensures Reaches(a, a)
  {
    assert Run(a, []) == a;
  }

  lemma Extend(a: State, b: State, m: Move)
    requires Reaches(a, b)
    ensures Reaches(a, Moved(b, m))
  {
    hide Moved;
    var moves :| Run(a, moves) == b;
    assert (moves + [m])[..|moves|] == moves;
    assert Run(a, moves + [m]) == Moved(b, m);
  }

  lemma {:induction false} Unused(users: set<Auth.UserId>) returns (w: Auth.UserId)
    ensures forall u :: u in users ==> u < w
    decreases users
  {
    w := 0;
    if users != {} {
      var u :| u in users;
      var rest := Unused(users - {u});
      w := if u < rest then rest else u + 1;
      assert forall v :: v in users ==> v == u || v in users - {u};
    }
  }

  /** Nobody has linked or is linking the subject, and the call has written no identity. */
  ghost predicate Unlinkable(s: State, c: CallId, x: Auth.Subject) {
    && x !in s.identities && x !in s.pendingIdentities
    && forall y :: y in s.pendingIdentities ==> s.pendingIdentities[y].call != c
  }

  lemma SeesNone(s: State, c: CallId, x: Auth.Subject, u: Auth.UserId)
    requires Unlinkable(s, c, x) && !Linked(s, u)
    ensures !s.SeesApple(c, u)
  {
    if y :| y in s.identities.Keys + s.pendingIdentities.Keys && s.SeenIdentity(c, y) == Some(u) {
      assert false;
    }
  }

  // Single statements, on the states the interleaving passes through.

  lemma LooksUp(s: State, c: CallId, x: Auth.Subject, d: Auth.DeviceId)
    requires c in s.calls && s.calls[c] == Active(AppleKind(x, d), FindIdentity) && x !in s.identities && x !in s.pendingIdentities
    ensures Moved(s, Statement(c, 0)) == s.Goto(c, FindDevice)
  {
    assert s.users + {} == s.users;
  }

  lemma FindsRow(s: State, c: CallId, d: Auth.DeviceId)
    requires c in s.calls && s.calls[c].kind.AppleKind? && s.calls[c].kind.device == d && s.calls[c].stage == FindDevice
    requires d !in s.pendingDevices
    ensures Moved(s, Statement(c, 0)) == s.Goto(c, if d in s.devices then TouchDevice(s.devices[d]) else InsertDevice)
  {
    assert s.users + {} == s.users;
  }

  lemma TakesRow(s: State, c: CallId, d: Auth.DeviceId, u: Auth.UserId)
    requires c in s.calls && s.calls[c].kind.AppleKind? && s.calls[c].kind.device == d && s.calls[c].stage == TouchDevice(u)
    requires d !in s.pendingDevices && d in s.devices && s.devices[d] == u
    ensures Moved(s, Statement(c, 0)) == s.(pendingDevices := s.pendingDevices[d := Pending(c, u)]).Goto(c, CheckApple(u))
  {
    assert s.users + {} == s.users;
  }

  lemma Passes(s: State, c: CallId, u: Auth.UserId)
    requires c in s.calls && s.calls[c].kind.AppleKind? && s.calls[c].stage == CheckApple(u) && !s.SeesApple(c, u)
    ensures Moved(s, Statement(c, 0)) == s.Goto(c, InsertIdentity(u))
  {
    assert s.users + {} == s.users;
  }

  lemma Conflicts(s: State, c: CallId, d: Auth.DeviceId, w: Auth.UserId)
    requires c in s.calls && s.calls[c].kind.AppleKind? && s.calls[c].kind.device == d && s.calls[c].stage == InsertDevice
    requires d !in s.pendingDevices && d in s.devices && w !in s.users
    ensures Moved(s, Statement(c, w)) == s.(users := s.users + {w}).Goto(c, RereadDevice)
  {
  }

  lemma Rereads(s: State, c: CallId, d: Auth.DeviceId)
    requires c in s.calls && s.calls[c].kind.AppleKind? && s.calls[c].kind.device == d && s.calls[c].stage == RereadDevice
    requires d !in s.pendingDevices && d in s.devices
    ensures Moved(s, Statement(c, 0)) == s.Goto(c, CheckApple(s.devices[d]))
  {
    assert s.users + {} == s.users;
  }

  lemma WritesLink(s: State, c: CallId, x: Auth.Subject, u: Auth.UserId)
    requires c in s.calls && s.calls[c].kind.AppleKind? && s.calls[c].kind.subject == x && s.calls[c].stage == InsertIdentity(u)
    requires x !in s.identities && x !in s.pendingIdentities
    ensures Moved(s, Statement(c, 0)) == s.(pendingIdentities := s.pendingIdentities[x := Pending(c, u)]).Goto(c, RereadIdentity)
  {
  }

  lemma FindsLink(s: State, c: CallId, x: Auth.Subject, u: Auth.UserId)
    requires c in s.calls && s.calls[c].kind.AppleKind? && s.calls[c].kind.subject == x && s.calls[c].stage == RereadIdentity
    requires x in s.pendingIdentities && s.pendingIdentities[x] == Pending(c, u)
    ensures Moved(s, Statement(c, 0)) == s.Goto(c, UpsertDevice(u))
  {
    assert s.users + {} == s.users;
  }

  lemma Repoints(s: State, c: CallId, d: Auth.DeviceId, u: Auth.UserId)
    requires c in s.calls && s.calls[c].kind.AppleKind? && s.calls[c].kind.device == d && s.calls[c].stage == UpsertDevice(u)
    requires !s.DeviceHeld(c, d)
    ensures Moved(s, Statement(c, 0)) == s.(pendingDevices := s.pendingDevices[d := Pending(c, u)]).Goto(c, Ready(u))
  {
    assert s.users + {} == s.users;
  }

  /** The commit of a sign-in adds its link and releases its rows. */
  lemma Commits(s: State, c: CallId, u: Auth.UserId)
    requires c in s.calls && s.calls[c].kind.AppleKind? && s.calls[c].stage == Ready(u) && PendingInv(s)
    requires s.calls[c].kind.subject in s.pendingIdentities && s.pendingIdentities[s.calls[c].kind.subject] == Pending(c, u)
    ensures var s' := Moved(s, Statement(c, 0));
            && s'.identities == s.identities[s.calls[c].kind.subject := u]
            && s'.calls == s.calls[c := s.calls[c].(stage := Returned(u))]
            && s'.pendingIdentities == s.pendingIdentities - {s.calls[c].kind.subject}
            && s'.pendingDevices == map d | d in s.pendingDevices && s.pendingDevices[d].call != c :: s.pendingDevices[d]
  {
    CommitAddsOwn(s, c);
    var x := s.calls[c].kind.subject;
    assert s.Released(c).pendingIdentities == s.pendingIdentities - {x};
  }

  // Runs of one call.

  /** From its first statement past the check, on a registered device, whose row it then holds. */
  lemma ClaimsHolding(s: State, c: CallId, x: Auth.Subject, d: Auth.DeviceId, u: Auth.UserId)
    requires c in s.calls && s.calls[c] == Active(AppleKind(x, d), FindIdentity) && Unlinkable(s, c, x)
    requires d in s.devices && s.devices[d] == u && d !in s.pendingDevices && !Linked(s, u)
    ensures Reaches(s, s.(pendingDevices := s.pendingDevices[d := Pending(c, u)]).Goto(c, InsertIdentity(u)))
  {
    hide Moved, Reaches, Linked;
    var m := Statement(c, 0);
    ReachesSelf(s);
    LooksUp(s, c, x, d);
    Extend(s, s, m);
    var s1 := s.Goto(c, FindDevice);
    FindsRow(s1, c, d);
    Extend(s, s1, m);
    var s2 := s1.Goto(c, TouchDevice(u));
    TakesRow(s2, c, d, u);
    Extend(s, s2, m);
    var s3 := s2.(pendingDevices := s.pendingDevices[d := Pending(c, u)]).Goto(c, CheckApple(u));
    SameLinks(s, s3, u);
    SeesNone(s3, c, x, u);
    Passes(s3, c, u);
    Extend(s, s3, m);
    assert s3.Goto(c, InsertIdentity(u)) == s.(pendingDevices := s.pendingDevices[d := Pending(c, u)]).Goto(c, InsertIdentity(u));
  }

  /** Identity rows of other calls, in the states one call passes through. */
  lemma PendingFrame(s: State, s': State, c: CallId, x: Auth.Subject, u: Auth.UserId)
    requires PendingInv(s) && c in s.calls && s.calls[c].kind.AppleKind? && s.calls[c].kind.subject == x && x !in s.identities
    requires s'.identities == s.identities && s'.pendingIdentities == s.pendingIdentities[x := Pending(c, u)]
    requires s'.calls == s.calls[c := s.calls[c].(stage := Ready(u))]
    ensures PendingInv(s')
  {
  }

  lemma PendingAfter(s: State, s': State, c: CallId, x: Auth.Subject, u: Auth.UserId)
    requires PendingInv(s) && c in s.calls && x !in s.pendingIdentities
    requires s'.identities == s.identities[x := u] && s'.pendingIdentities == s.pendingIdentities
    requires s'.calls == s.calls[c := s.calls[c].(stage := Returned(u))]
    ensures PendingInv(s')
  {
  }

  /** From past the check to its commit. */
  lemma Finishes(s: State, c: CallId, x: Auth.Subject, d: Auth.DeviceId, u: Auth.UserId) returns (s': State)
    requires c in s.calls && s.calls[c] == Active(AppleKind(x, d), InsertIdentity(u)) && PendingInv(s)
    requires x !in s.identities && x !in s.pendingIdentities && !s.DeviceHeld(c, d)
    ensures Reaches(s, s') && PendingInv(s')
    ensures s'.identities == s.identities[x := u] && s'.pendingIdentities == s.pendingIdentities
    ensures s'.calls == s.calls[c := Active(AppleKind(x, d), Returned(u))]
    ensures forall e :: e in s'.pendingDevices ==> e in s.pendingDevices && s'.pendingDevices[e] == s.pendingDevices[e]
  {
    hide Moved, Reaches, PendingInv;
    var m := Statement(c, 0);
    var s3 := Repointed(s, c, x, d, u);
    PendingFrame(s, s3, c, x, u);
    Commits(s3, c, u);
    Extend(s, s3, m);
    s' := Moved(s3, m);
    assert s.pendingIdentities[x := Pending(c, u)] - {x} == s.pendingIdentities;
    PendingAfter(s, s', c, x, u);
  }

  lemma Repointed(s: State, c: CallId, x: Auth.Subject, d: Auth.DeviceId, u: Auth.UserId) returns (s': State)
    requires c in s.calls && s.calls[c] == Active(AppleKind(x, d), InsertIdentity(u))
    requires x !in s.identities && x !in s.pendingIdentities && !s.DeviceHeld(c, d)
    ensures s' == s.(pendingIdentities := s.pendingIdentities[x := Pending(c, u)],
                     pendingDevices := s.pendingDevices[d := Pending(c, u)]).Goto(c, Ready(u))
    ensures Reaches(s, s')
  {
    hide Moved, Reaches;
    var m := Statement(c, 0);
    ReachesSelf(s);
    WritesLink(s, c, x, u);
    Extend(s, s, m);
    var s1 := s.(pendingIdentities := s.pendingIdentities[x := Pending(c, u)]).Goto(c, RereadIdentity);
    FindsLink(s1, c, x, u);
    Extend(s, s1, m);
    var s2 := s1.Goto(c, UpsertDevice(u));
    Repoints(s2, c, d, u);
    Extend(s, s2, m);
    s' := s2.(pendingDevices := s.pendingDevices[d := Pending(c, u)]).Goto(c, Ready(u));
    assert s' == s.(pendingIdentities := s.pendingIdentities[x := Pending(c, u)],
                    pendingDevices := s.pendingDevices[d := Pending(c, u)]).Goto(c, Ready(u));
  }

  /** Its first two statements find neither its subject nor its device. */
  lemma FindsNothing(s: State, c: CallId, x: Auth.Subject, d: Auth.DeviceId)
    requires c in s.calls && s.calls[c] == Active(AppleKind(x, d), FindIdentity) && x !in s.identities && x !in s.pendingIdentities
    requires d !in s.devices && d !in s.pendingDevices
    ensures Reaches(s, s.Goto(c, InsertDevice))
  {
    hide Moved, Reaches;
    var m := Statement(c, 0);
    ReachesSelf(s);
    LooksUp(s, c, x, d);
    Extend(s, s, m);
    var s1 := s.Goto(c, FindDevice);
    FindsRow(s1, c, d);
    Extend(s, s1, m);
    assert s1.Goto(c, InsertDevice) == s.Goto(c, InsertDevice);
  }

  /** It meets the row that another call has committed since, and passes its check without holding that row. */
  lemma ClaimsLoose(s: State, c: CallId, x: Auth.Subject, d: Auth.DeviceId, w: Auth.UserId, n: Auth.UserId)
    requires c in s.calls && s.calls[c] == Active(AppleKind(x, d), InsertDevice) && Unlinkable(s, c, x)
    requires d in s.devices && s.devices[d] == w && d !in s.pendingDevices && !Linked(s, w) && n !in s.users
    ensures Reaches(s, s.(users := s.users + {n}).Goto(c, InsertIdentity(w)))
  {
    hide Moved, Reaches, Linked;
    ReachesSelf(s);
    Conflicts(s, c, d, n);
    Extend(s, s, Statement(c, n));
    var s1 := s.(users := s.users + {n}).Goto(c, RereadDevice);
    Rereads(s1, c, d);
    Extend(s, s1, Statement(c, 0));
    var s2 := s1.Goto(c, CheckApple(w));
    SameLinks(s, s2, w);
    SeesNone(s2, c, x, w);
    Passes(s2, c, w);
    Extend(s, s2, Statement(c, 0));
    assert s2.Goto(c, InsertIdentity(w)) == s.(users := s.users + {n}).Goto(c, InsertIdentity(w));
  }

  /** A whole registration of a new device. */
  lemma RegistersDevice(s: State, r: CallId, d: Auth.DeviceId, w: Auth.UserId)
    requires r in s.calls && s.calls[r] == Active(RegisterKind(d), FindIdentity)
    requires d !in s.devices && s.pendingDevices == map[] && s.pendingIdentities == map[] && w !in s.users
    ensures Reaches(s, s.(devices := s.devices[d := w], users := s.users + {w}).Goto(r, Returned(w)))
  {
    hide Moved, Reaches;
    var m := Statement(r, w);
    ReachesSelf(s);
    RegisterLooks(s, r, d, w);
    Extend(s, s, m);
    var s1 := s.Goto(r, FindDevice);
    RegisterLooks(s1, r, d, w);
    Extend(s, s1, m);
    var s2 := s1.Goto(r, InsertDevice);
    RegisterInserts(s2, r, d, w);
    Extend(s, s2, m);
    var s3 := s2.(users := s.users + {w}, pendingDevices := map[d := Pending(r, w)]).Goto(r, RereadDevice);
    RegisterRereads(s3, r, d, w);
    Extend(s, s3, m);
    var s4 := s3.Goto(r, Ready(w));
    RegisterCommits(s4, r, d, w);
    Extend(s, s4, m);
    var s5 := s4.(devices := s.devices[d := w], pendingDevices := map[]).Goto(r, Returned(w));
    assert s5 == s.(devices := s.devices[d := w], users := s.users + {w}).Goto(r, Returned(w));
  }

  lemma RegisterLooks(s: State, r: CallId, d: Auth.DeviceId, w: Auth.UserId)
    requires r in s.calls && s.calls[r].kind == RegisterKind(d) && (s.calls[r].stage == FindIdentity || s.calls[r].stage == FindDevice)
    requires d !in s.devices && d !in s.pendingDevices
    ensures Moved(s, Statement(r, w)) == s.Goto(r, if s.calls[r].stage == FindIdentity then FindDevice else InsertDevice)
  {
    assert s.users + {} == s.users;
  }

  lemma RegisterInserts(s: State, r: CallId, d: Auth.DeviceId, w: Auth.UserId)
    requires r in s.calls && s.calls[r] == Active(RegisterKind(d), InsertDevice)
    requires d !in s.devices && s.pendingDevices == map[] && w !in s.users
    ensures Moved(s, Statement(r, w)) == s.(users := s.users + {w}, pendingDevices := map[d := Pending(r, w)]).Goto(r, RereadDevice)
  {
  }

  lemma RegisterRereads(s: State, r: CallId, d: Auth.DeviceId, w: Auth.UserId)
    requires r in s.calls && s.calls[r] == Active(RegisterKind(d), RereadDevice) && s.pendingDevices == map[d := Pending(r, w)]
    ensures Moved(s, Statement(r, w)) == s.Goto(r, Ready(w))
  {
    assert s.users + {} == s.users;
  }

  lemma RegisterCommits(s: State, r: CallId, d: Auth.DeviceId, w: Auth.UserId)
    requires r in s.calls && s.calls[r] == Active(RegisterKind(d), Ready(w))
    requires s.pendingDevices == map[d := Pending(r, w)] && s.pendingIdentities == map[]
    ensures Moved(s, Statement(r, w)) == s.(devices := s.devices[d := w], pendingDevices := map[]).Goto(r, Returned(w))
  {
    var s1 := s.CommittedRows(r);
    assert s1.devices == s.devices[d := w] && s1.identities == s.identities;
    assert s1.Released(r).pendingDevices == map[] && s1.Released(r).pendingIdentities == map[];
  }

  // The two interleavings.

  lemma ReachesOn(a: State, b: State, c: State)
    requires Reaches(a, b) && Reaches(b, c)
    ensures Reaches(a, c)
  {
    hide Run;
    var first :| Run(a, first) == b;
    var second :| Run(b, second) == c;
    RunConcat(a, first, second);
  }

  lemma {:induction false} RunConcat(s: State, a: seq<Move>, b: seq<Move>)
    ensures Run(s, a + b) == Run(Run(s, a), b)
    decreases |b|
  {
    hide Moved;
    if b == [] {
      assert a + b == a;
    } else {
      assert (a + b)[..|a + b| - 1] == a + b[..|b| - 1];
      RunConcat(s, a, b[..|b| - 1]);
    }
  }

  /** Two calls past the check for `u`, neither kept waiting by the other, both commit. */
  lemma BothFinish(s: State, c: CallId, d: CallId, u: Auth.UserId) returns (s': State)
    requires c in s.calls && d in s.calls && s.pendingIdentities == map[]
    requires NewSubject(s, c) && NewSubject(s, d) && s.calls[c].kind.subject != s.calls[d].kind.subject
    requires s.calls[c].stage == InsertIdentity(u) && s.calls[d].stage == InsertIdentity(u)
    requires !s.DeviceHeld(c, s.calls[c].kind.device) && !s.DeviceHeld(d, s.calls[d].kind.device)
    ensures Reaches(s, s') && !OneSubjectPerUser(s'.identities)
  {
    hide Reaches;
    var a, b := s.calls[c].kind, s.calls[d].kind;
    var s1 := Finishes(s, c, a.subject, a.device, u);
    s' := Finishes(s1, d, b.subject, b.device, u);
    ReachesOn(s, s1, s');
    assert s'.identities[a.subject] == u && s'.identities[b.subject] == u;
  }

  lemma SharedAccountShares(s0: State, c: CallId, d: CallId) returns (s': State)
    requires Start(s0) && RiskyPair(s0, c, d) && SharedAccount(s0, s0.calls[c].kind.device, s0.calls[d].kind.device)
    ensures Reaches(s0, s') && !OneSubjectPerUser(s'.identities)
  {
    hide Reaches, Linked, OneSubjectPerUser;
    var a, b := s0.calls[c].kind, s0.calls[d].kind;
    var u := s0.devices[a.device];
    ClaimsHolding(s0, c, a.subject, a.device, u);
    var s1 := s0.(pendingDevices := s0.pendingDevices[a.device := Pending(c, u)]).Goto(c, InsertIdentity(u));
    SameLinks(s0, s1, u);
    ClaimsHolding(s1, d, b.subject, b.device, u);
    var s2 := s1.(pendingDevices := s1.pendingDevices[b.device := Pending(d, u)]).Goto(d, InsertIdentity(u));
    s' := BothFinish(s2, c, d, u);
    ReachesOn(s0, s1, s2);
    ReachesOn(s0, s2, s');
  }

  lemma RacedDeviceShares(s0: State, c: CallId, d: CallId, r: CallId) returns (s': State)
    requires Start(s0) && RiskyPair(s0, c, d) && s0.calls[c].kind.device == s0.calls[d].kind.device
    requires s0.calls[c].kind.device !in s0.devices && r in s0.calls && s0.calls[r].kind == RegisterKind(s0.calls[c].kind.device)
    ensures Reaches(s0, s') && !OneSubjectPerUser(s'.identities)
  {
    hide Reaches, Linked, OneSubjectPerUser;
    var a, b := s0.calls[c].kind, s0.calls[d].kind;
    var w := Unused(s0.users);
    FindsNothing(s0, c, a.subject, a.device);
    var s1 := s0.Goto(c, InsertDevice);
    FindsNothing(s1, d, b.subject, b.device);
    var s2 := s1.Goto(d, InsertDevice);
    RegistersDevice(s2, r, a.device, w);
    var s3 := s2.(devices := s2.devices[a.device := w], users := s2.users + {w}).Goto(r, Returned(w));
    NewIsUnlinked(s0, s3, w);
    ClaimsLoose(s3, c, a.subject, a.device, w, w + 1);
    var s4 := s3.(users := s3.users + {w + 1}).Goto(c, InsertIdentity(w));
    SameLinks(s3, s4, w);
    ClaimsLoose(s4, d, b.subject, b.device, w, w + 2);
    var s5 := s4.(users := s4.users + {w + 2}).Goto(d, InsertIdentity(w));
    s' := BothFinish(s5, c, d, w);
    ReachesOn(s0, s1, s2);
    ReachesOn(s0, s2, s3);
    ReachesOn(s0, s3, s4);
    ReachesOn(s0, s4, s5);
    ReachesOn(s0, s5, s');
  }

  lemma NewIsUnlinked(s0: State, s: State, w: Auth.UserId)
    requires Start(s0) && s.identities == s0.identities && w !in s0.users
    ensures !Linked(s, w)
  {
  }

  // ----- The exact condition, before the first statement -----

  /** Some interleaving of the calls gives a user two Apple identities. */
  ghost predicate CanShare(s0: State) {
    exists moves :: !OneSubjectPerUser(Run(s0, moves).identities)
  }

  /** It does iff two of the sign-ins carry different subjects nobody has linked, and either their devices
      share an account without an Apple identity, or they have one device, not registered, that another of
      the calls registers. */
  lemma CanShareIff(s0: State)
    requires Start(s0)
    ensures CanShare(s0) <==> Risky(s0)
  {
    hide OneSubjectPerUser, Run, Start;
    if CanShare(s0) {
      var moves :| !OneSubjectPerUser(Run(s0, moves).identities);
      if !Risky(s0) {
        SafeKeepsOne(s0, moves);
        assert false;
      }
    }
    if Risky(s0) {
      var c, d :| RiskyPair(s0, c, d);
      var a, b := s0.calls[c].kind.device, s0.calls[d].kind.device;
      var s';
      if SharedAccount(s0, a, b) {
        s' := SharedAccountShares(s0, c, d);
      } else {
        var r :| r in s0.calls && s0.calls[r].kind == RegisterKind(a);
        s' := RacedDeviceShares(s0, c, d, r);
      }
      var moves :| Run(s0, moves) == s';
    }
  }

  /** Sign-ins on registered devices, no two of which share an account without an Apple identity, keep one
      subject per user over every interleaving, among registrations of any devices. */
  lemma RegisteredDevicesKeepOne(s0: State, moves: seq<Move>)
    requires Start(s0)
    requires forall c :: c in s0.calls && s0.calls[c].kind.AppleKind? ==> s0.calls[c].kind.device in s0.devices
    requires forall d, e :: d in s0.devices && e in s0.devices ==> !SharedAccount(s0, d, e)
    ensures OneSubjectPerUser(Run(s0, moves).identities)
  {
    hide SharedAccount, Run, OneSubjectPerUser;
    SafeKeepsOne(s0, moves);
  }

  /** A device registers while two subjects sign in on it: both find it unregistered, both read the row the
      registration then commits without holding it, both see an account without an Apple identity, and both
      link to it. With whole calls this cannot happen (`Auth.RunKeepsOneAppleEach`). */
  lemma ConcurrentSignInsShareAUser(x: Auth.Subject, y: Auth.Subject, d: Auth.DeviceId)
    requires x != y
    ensures CanShare(State(map[], map[], map[], map[], {},
                           map[1 := Active(AppleKind(x, d), FindIdentity), 2 := Active(AppleKind(y, d), FindIdentity),
                               3 := Active(RegisterKind(d), FindIdentity)]))
  {
    var s0 := State(map[], map[], map[], map[], {},
                    map[1 := Active(AppleKind(x, d), FindIdentity), 2 := Active(AppleKind(y, d), FindIdentity),
                        3 := Active(RegisterKind(d), FindIdentity)]);
    CanShareIff(s0);
    assert s0.calls[3].kind == RegisterKind(d);
    assert RiskyPair(s0, 1, 2);
    hide CanShare;
  }
}
