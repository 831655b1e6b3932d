/** The statements of one call, run with no other call in between, are the whole call. */
module IdentitySolo {
  import opened Base
  import Auth
  import opened IdentityRace
  import opened IdentityOverlap
  import opened IdentityReach

  /** The committed tables. Tokens play no part here. */
  function StoreOf(s: State): Auth.Store {
    Auth.Store(s.users, s.devices, s.identities, map[])
  }

  /** Statements of call `c` alone lead from `a` to `b`. */
  ghost predicate Alone(a: State, b: State, c: CallId) {
    exists moves: seq<Move> :: Run(a, moves) == b && forall i :: 0 <= i < |moves| ==> moves[i].Statement? && moves[i].call == c
  }

  lemma AloneSelf(a: State, c: CallId)
    ensures Alone(a, a, c)
  {
    assert Run(a, []) == a;
  }

  lemma AloneOn(a: State, b: State, c: CallId, n: Auth.UserId)
    requires Alone(a, b, c)
    ensures Alone(a, Moved(b, Statement(c, n)), c)
  {
    hide Moved;
    var moves: seq<Move> :| Run(a, moves) == b && forall i :: 0 <= i < |moves| ==> moves[i].Statement? && moves[i].call == c;
    var more := moves + [Statement(c, n)];
    assert more[..|moves|] == moves;
    assert Run(a, more) == Moved(b, Statement(c, n));
  }

  predicate Quiet(s: State) {
    s.pendingDevices == map[] && s.pendingIdentities == map[]
  }

  // ----- A registration -----

  lemma RegisterTouches(s: State, r: CallId, d: Auth.DeviceId)
    requires r in s.calls && s.calls[r].kind == RegisterKind(d) && d in s.devices && s.pendingDevices == map[]
    ensures s.calls[r].stage == FindIdentity ==> Moved(s, Statement(r, 0)) == s.Goto(r, FindDevice)
    ensures s.calls[r].stage == FindDevice ==> Moved(s, Statement(r, 0)) == s.Goto(r, TouchDevice(s.devices[d]))
    ensures s.calls[r].stage == TouchDevice(s.devices[d]) ==>
              Moved(s, Statement(r, 0)) == s.(pendingDevices := map[d := Pending(r, s.devices[d])]).Goto(r, Ready(s.devices[d]))
  {
    assert s.users + {} == s.users;
  }

  /** It ends as the whole call does: the device's user, created if the device had none. */
  lemma RegistrationAlone(s: State, r: CallId, d: Auth.DeviceId, w: Auth.UserId)
    requires r in s.calls && s.calls[r] == Active(RegisterKind(d), FindIdentity) && Quiet(s) && w !in s.users
    ensures var after := Auth.Provisioned(StoreOf(s), d, w);
            Alone(s, s.(users := after.users, devices := after.devices).Goto(r, Returned(Auth.DeviceUser(StoreOf(s), d, w))), r)
  {
    hide Moved, Alone;
    AloneSelf(s, r);
    if d in s.devices {
      var u := s.devices[d];
      RegisterTouches(s, r, d);
      AloneOn(s, s, r, 0);
      var s1 := s.Goto(r, FindDevice);
      RegisterTouches(s1, r, d);
      AloneOn(s, s1, r, 0);
      var s2 := s1.Goto(r, TouchDevice(u));
      RegisterTouches(s2, r, d);
      AloneOn(s, s2, r, 0);
      var s3 := s2.(pendingDevices := map[d := Pending(r, u)]).Goto(r, Ready(u));
      RegisterCommits(s3, r, d, u);
      AloneOn(s, s3, r, u);
      assert s.devices[d := u] == s.devices;
      assert s3.(devices := s.devices[d := u], pendingDevices := map[]).Goto(r, Returned(u)) == s.Goto(r, Returned(u));
    } else {
      RegisterLooks(s, r, d, w);
      AloneOn(s, s, r, w);
      var s1 := s.Goto(r, FindDevice);
      RegisterLooks(s1, r, d, w);
      AloneOn(s, s1, r, w);
      var s2 := s1.Goto(r, InsertDevice);
      RegisterInserts(s2, r, d, w);
      AloneOn(s, s2, r, w);
      var s3 := s2.(users := s2.users + {w}, pendingDevices := map[d := Pending(r, w)]).Goto(r, RereadDevice);
      RegisterRereads(s3, r, d, w);
      AloneOn(s, s3, r, w);
      var s4 := s3.Goto(r, Ready(w));
      RegisterCommits(s4, r, d, w);
      AloneOn(s, s4, r, w);
      assert s4.(devices := s.devices[d := w], pendingDevices := map[]).Goto(r, Returned(w))
             == s.(devices := s.devices[d := w], users := s.users + {w}).Goto(r, Returned(w));
    }
  }

  // ----- A sign-in -----

  lemma KnownSubject(s: State, c: CallId, x: Auth.Subject, d: Auth.DeviceId)
    requires c in s.calls && s.calls[c] == Active(AppleKind(x, d), FindIdentity) && Quiet(s) && x in s.identities
    ensures Moved(s, Statement(c, 0)) == s.Goto(c, UpsertDevice(s.identities[x]))
  {
    assert s.users + {} == s.users;
  }

  lemma InsertsDevice(s: State, c: CallId, x: Auth.Subject, d: Auth.DeviceId, w: Auth.UserId)
    requires c in s.calls && s.calls[c] == Active(AppleKind(x, d), InsertDevice) && Quiet(s) && d !in s.devices && w !in s.users
    ensures Moved(s, Statement(c, w)) == s.(users := s.users + {w}, pendingDevices := map[d := Pending(c, w)]).Goto(c, RereadDevice)
  {
  }

  lemma RereadsOwn(s: State, c: CallId, x: Auth.Subject, d: Auth.DeviceId, w: Auth.UserId)
    requires c in s.calls && s.calls[c] == Active(AppleKind(x, d), RereadDevice) && s.pendingDevices == map[d := Pending(c, w)]
    ensures Moved(s, Statement(c, 0)) == s.Goto(c, CheckApple(w))
  {
    assert s.users + {} == s.users;
  }

  lemma DrawsSpare(s: State, c: CallId, u: Auth.UserId, p: Auth.UserId)
    requires c in s.calls && s.calls[c].kind.AppleKind? && s.calls[c].stage == CheckApple(u)
    requires s.pendingIdentities == map[] && Linked(s, u) && p !in s.users
    ensures Moved(s, Statement(c, p)) == s.(users := s.users + {p}).Goto(c, InsertIdentity(p))
  {
    var y :| y in s.identities && s.identities[y] == u;
    assert y in s.identities.Keys + s.pendingIdentities.Keys && s.SeenIdentity(c, y) == Some(u);
  }

  lemma DeviceCommitted(s: State, c: CallId, d: Auth.DeviceId, u: Auth.UserId)
    requires s.pendingDevices == map[d := Pending(c, u)]
    ensures s.CommittedRows(c).devices == s.devices[d := u] && s.Released(c).pendingDevices == map[]
  {
  }

  lemma IdentityCommitted(s: State, c: CallId, x: Auth.Subject, u: Auth.UserId)
    requires s.pendingIdentities == map[x := Pending(c, u)]
    ensures s.CommittedRows(c).identities == s.identities[x := u] && s.Released(c).pendingIdentities == map[]
  {
  }

  lemma NoneCommitted(s: State, c: CallId)
    requires s.pendingIdentities == map[]
    ensures s.CommittedRows(c).identities == s.identities && s.Released(c).pendingIdentities == map[]
  {
  }

  lemma ReadyStatement(s: State, c: CallId, x: Auth.Subject, d: Auth.DeviceId, u: Auth.UserId)
    requires c in s.calls && s.calls[c] == Active(AppleKind(x, d), Ready(u))
    ensures Moved(s, Statement(c, 0)) == s.CommittedRows(c).Released(c).Goto(c, Returned(u))
  {
  }

  lemma CommitsAll(s: State, c: CallId, x: Auth.Subject, d: Auth.DeviceId, u: Auth.UserId)
    requires c in s.calls && s.calls[c] == Active(AppleKind(x, d), Ready(u)) && s.pendingDevices == map[d := Pending(c, u)]
    requires s.pendingIdentities == map[x := Pending(c, u)] || (s.pendingIdentities == map[] && x in s.identities && s.identities[x] == u)
    ensures Moved(s, Statement(c, 0))
            == s.(devices := s.devices[d := u], identities := s.identities[x := u],
                  pendingDevices := map[], pendingIdentities := map[]).Goto(c, Returned(u))
  {
    var s1 := s.CommittedRows(c);
    DeviceCommitted(s, c, d, u);
    DeviceCommitted(s1, c, d, u);
    if s.pendingIdentities == map[] {
      NoneCommitted(s, c);
      NoneCommitted(s1, c);
      assert s.identities[x := u] == s.identities;
    } else {
      IdentityCommitted(s, c, x, u);
      IdentityCommitted(s1, c, x, u);
    }
    ReadyStatement(s, c, x, d, u);
    hide Moved;
    assert s1 == s.(devices := s.devices[d := u], identities := s.identities[x := u]);
  }

  /** From the check on, holding the device's row: link, re-read, point the device to the user, commit. */
  lemma LinksAlone(start: State, s: State, c: CallId, x: Auth.Subject, d: Auth.DeviceId, u: Auth.UserId)
    requires c in s.calls && s.calls[c] == Active(AppleKind(x, d), InsertIdentity(u)) && Alone(start, s, c)
    requires s.pendingIdentities == map[] && x !in s.identities && (forall e :: e in s.pendingDevices ==> e == d && s.pendingDevices[e].call == c)
    ensures Alone(start, s.(devices := s.devices[d := u], identities := s.identities[x := u], pendingDevices := map[]).Goto(c, Returned(u)), c)
  {
    hide Moved, Alone;
    WritesLink(s, c, x, u);
    AloneOn(start, s, c, 0);
    var s1 := s.(pendingIdentities := map[x := Pending(c, u)]).Goto(c, RereadIdentity);
    FindsLink(s1, c, x, u);
    AloneOn(start, s1, c, 0);
    var s2 := s1.Goto(c, UpsertDevice(u));
    Repoints(s2, c, d, u);
    AloneOn(start, s2, c, 0);
    assert s.pendingDevices[d := Pending(c, u)] == map[d := Pending(c, u)];
    var s3 := s2.(pendingDevices := map[d := Pending(c, u)]).Goto(c, Ready(u));
    CommitsAll(s3, c, x, d, u);
    AloneOn(start, s3, c, 0);
    assert s3.(devices := s.devices[d := u], identities := s.identities[x := u], pendingDevices := map[], pendingIdentities := map[])
             .Goto(c, Returned(u))
           == s.(devices := s.devices[d := u], identities := s.identities[x := u], pendingDevices := map[]).Goto(c, Returned(u));
  }

  /** The state a whole sign-in leaves. */
  function SignedInAlone(s: State, c: CallId, x: Auth.Subject, d: Auth.DeviceId, w: Auth.UserId, p: Auth.UserId): State
    requires c in s.calls
  {
    var (after, u) := Auth.Resolved(StoreOf(s), x, d, w, p);
    s.(users := after.users, devices := after.devices[d := u], identities := after.identities).Goto(c, Returned(u))
  }

  lemma LinkedAlone(s: State, c: CallId, x: Auth.Subject, d: Auth.DeviceId, w: Auth.UserId, p: Auth.UserId)
    requires c in s.calls && s.calls[c] == Active(AppleKind(x, d), FindIdentity) && Quiet(s) && x in s.identities
    ensures Alone(s, SignedInAlone(s, c, x, d, w, p), c)
  {
    hide Moved, Alone;
    var u := s.identities[x];
    AloneSelf(s, c);
    KnownSubject(s, c, x, d);
    AloneOn(s, s, c, 0);
    var s1 := s.Goto(c, UpsertDevice(u));
    Repoints(s1, c, d, u);
    AloneOn(s, s1, c, 0);
    var s2 := s1.(pendingDevices := map[d := Pending(c, u)]).Goto(c, Ready(u));
    CommitsAll(s2, c, x, d, u);
    AloneOn(s, s2, c, 0);
    assert s.identities[x := u] == s.identities;
    assert s2.(devices := s.devices[d := u], identities := s.identities, pendingDevices := map[], pendingIdentities := map[])
             .Goto(c, Returned(u)) == SignedInAlone(s, c, x, d, w, p);
  }

  /** To the check, on a registered device. */
  lemma ChecksAlone(s: State, c: CallId, x: Auth.Subject, d: Auth.DeviceId) returns (s': State)
    requires c in s.calls && s.calls[c] == Active(AppleKind(x, d), FindIdentity) && Quiet(s) && x !in s.identities && d in s.devices
    ensures Alone(s, s', c) && s' == s.(pendingDevices := map[d := Pending(c, s.devices[d])]).Goto(c, CheckApple(s.devices[d]))
  {
    hide Moved, Alone;
    AloneSelf(s, c);
    LooksUp(s, c, x, d);
    AloneOn(s, s, c, 0);
    var s1 := s.Goto(c, FindDevice);
    FindsRow(s1, c, d);
    AloneOn(s, s1, c, 0);
    var s2 := s1.Goto(c, TouchDevice(s.devices[d]));
    TakesRow(s2, c, d, s.devices[d]);
    AloneOn(s, s2, c, 0);
    s' := s2.(pendingDevices := map[d := Pending(c, s.devices[d])]).Goto(c, CheckApple(s.devices[d]));
  }

  lemma RegisteredAlone(s: State, c: CallId, x: Auth.Subject, d: Auth.DeviceId, w: Auth.UserId, p: Auth.UserId)
    requires c in s.calls && s.calls[c] == Active(AppleKind(x, d), FindIdentity) && Quiet(s) && x !in s.identities && d in s.devices
    requires p !in s.users
    ensures Alone(s, SignedInAlone(s, c, x, d, w, p), c)
  {
    hide Moved, Alone;
    var u := s.devices[d];
    var s3 := ChecksAlone(s, c, x, d);
    SameLinks(s, s3, u);
    assert Linked(s, u) <==> Auth.HasApple(StoreOf(s), u);
    if Linked(s, u) {
      DrawsSpare(s3, c, u, p);
      AloneOn(s, s3, c, p);
      var s4 := s3.(users := s.users + {p}).Goto(c, InsertIdentity(p));
      LinksAlone(s, s4, c, x, d, p);
      assert s4.(devices := s.devices[d := p], identities := s.identities[x := p], pendingDevices := map[]).Goto(c, Returned(p))
             == SignedInAlone(s, c, x, d, w, p);
    } else {
      SeesNone(s3, c, x, u);
      Passes(s3, c, u);
      AloneOn(s, s3, c, 0);
      var s4 := s3.Goto(c, InsertIdentity(u));
      LinksAlone(s, s4, c, x, d, u);
      assert s4.(devices := s.devices[d := u], identities := s.identities[x := u], pendingDevices := map[]).Goto(c, Returned(u))
             == SignedInAlone(s, c, x, d, w, p);
    }
  }

  lemma UnregisteredAlone(s: State, c: CallId, x: Auth.Subject, d: Auth.DeviceId, w: Auth.UserId, p: Auth.UserId)
    requires c in s.calls && s.calls[c] == Active(AppleKind(x, d), FindIdentity) && Quiet(s) && x !in s.identities && d !in s.devices
    requires w !in s.users && !Linked(s, w)
    ensures Alone(s, SignedInAlone(s, c, x, d, w, p), c)
  {
    hide Moved, Alone;
    AloneSelf(s, c);
    LooksUp(s, c, x, d);
    AloneOn(s, s, c, 0);
    var s1 := s.Goto(c, FindDevice);
    FindsRow(s1, c, d);
    AloneOn(s, s1, c, 0);
    var s2 := s1.Goto(c, InsertDevice);
    InsertsDevice(s2, c, x, d, w);
    AloneOn(s, s2, c, w);
    var s3 := s2.(users := s.users + {w}, pendingDevices := map[d := Pending(c, w)]).Goto(c, RereadDevice);
    RereadsOwn(s3, c, x, d, w);
    AloneOn(s, s3, c, 0);
    var s4 := s3.Goto(c, CheckApple(w));
    SameLinks(s, s4, w);
    SeesNone(s4, c, x, w);
    Passes(s4, c, w);
    AloneOn(s, s4, c, 0);
    var s5 := s4.Goto(c, InsertIdentity(w));
    LinksAlone(s, s5, c, x, d, w);
    assert Linked(s, w) <==> Auth.HasApple(StoreOf(s), w);
    assert s.devices[d := w][d := w] == s.devices[d := w];
    assert s5.(devices := s.devices[d := w], identities := s.identities[x := w], pendingDevices := map[]).Goto(c, Returned(w))
           == SignedInAlone(s, c, x, d, w, p);
  }

  /** A sign-in whose statements no other call comes between ends as the whole call does: same users, devices
      and identities, same user returned. */
  lemma SignInAlone(s: State, c: CallId, x: Auth.Subject, d: Auth.DeviceId, w: Auth.UserId, p: Auth.UserId)
    requires c in s.calls && s.calls[c] == Active(AppleKind(x, d), FindIdentity) && Quiet(s)
    requires w !in s.users && p !in s.users && forall y :: y in s.identities ==> s.identities[y] in s.users
    ensures Alone(s, SignedInAlone(s, c, x, d, w, p), c)
  {
    hide Alone, SignedInAlone;
    if x in s.identities {
      LinkedAlone(s, c, x, d, w, p);
    } else if d in s.devices {
      RegisteredAlone(s, c, x, d, w, p);
    } else {
      UnregisteredAlone(s, c, x, d, w, p);
    }
  }
}
