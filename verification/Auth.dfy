/** AuthService: device and Apple identities, refresh-token rotation and chain revocation.

    Random values (`uuid4`, the refresh token) are parameters that nobody has used before. A token is
    identified with its hash: sha256 is taken to be injective. Calls are whole here, so refreshing
    `last_seen_at` has no effect; `IdentityRace` has the row lock it takes. */
module Auth {
  import opened Base

  type UserId = nat
  type DeviceId = string
  type Subject = string
  type TokenHash = string
  type Instant = int

  datatype TokenRow = TokenRow(user: UserId, device: DeviceId, expiresAt: Instant, used: bool, revoked: bool)

  datatype Store = Store(
    users: set<UserId>,
    devices: map<DeviceId, UserId>,
    identities: map<Subject, UserId>,
    tokens: map<TokenHash, TokenRow>)

  datatype Refusal = UnknownToken | ReuseDetected | Revoked | ExpiredToken

  // ----- Specification -----

  function Provisioned(s: Store, device: DeviceId, newUser: UserId): Store {
    if device in s.devices then s
    else s.(users := s.users + {newUser}, devices := s.devices[device := newUser])
  }

  function DeviceUser(s: Store, device: DeviceId, newUser: UserId): UserId {
    if device in s.devices then s.devices[device] else newUser
  }

  predicate HasApple(s: Store, u: UserId) {
    exists subject :: subject in s.identities && s.identities[subject] == u
  }

  /** The user an Apple subject resolves to, and the store after linking it. */
  function Resolved(s: Store, subject: Subject, device: DeviceId, newUser: UserId, spareUser: UserId): (Store, UserId) {
    if subject in s.identities then (s, s.identities[subject])
    else
      var s1 := Provisioned(s, device, newUser);
      var owner := DeviceUser(s, device, newUser);
      if HasApple(s1, owner)
      then (s1.(users := s1.users + {spareUser}, identities := s1.identities[subject := spareUser]), spareUser)
      else (s1.(identities := s1.identities[subject := owner]), owner)
  }

  function Issued(s: Store, u: UserId, device: DeviceId, hash: TokenHash, expiresAt: Instant): Store {
    s.(tokens := s.tokens[hash := TokenRow(u, device, expiresAt, false, false)])
  }

  function SignedIn(s: Store, subject: Subject, device: DeviceId, newUser: UserId, spareUser: UserId, hash: TokenHash, expiresAt: Instant): Store {
    var (s1, u) := Resolved(s, subject, device, newUser, spareUser);
    Issued(s1.(devices := s1.devices[device := u]), u, device, hash, expiresAt)
  }

  function Registered(s: Store, device: DeviceId, newUser: UserId, hash: TokenHash, expiresAt: Instant): Store {
    Issued(Provisioned(s, device, newUser), DeviceUser(s, device, newUser), device, hash, expiresAt)
  }

  function ChainRevoked(s: Store, u: UserId, device: DeviceId): Store {
    s.(tokens := map h | h in s.tokens ::
                   if s.tokens[h].user == u && s.tokens[h].device == device then s.tokens[h].(revoked := true) else s.tokens[h])
  }

  function RefreshRefusal(s: Store, hash: TokenHash, now: Instant): Option<Refusal> {
    if hash !in s.tokens then Some(UnknownToken)
    else if s.tokens[hash].used then Some(ReuseDetected)
    else if s.tokens[hash].revoked then Some(Revoked)
    else if s.tokens[hash].expiresAt <= now then Some(ExpiredToken)
    else None
  }

  function Refreshed(s: Store, hash: TokenHash, now: Instant, newHash: TokenHash, expiresAt: Instant): Store {
    match RefreshRefusal(s, hash, now)
    case None =>
      var row := s.tokens[hash];
      Issued(s.(tokens := s.tokens[hash := row.(used := true)]), row.user, row.device, newHash, expiresAt)
    case Some(ReuseDetected) => ChainRevoked(s, s.tokens[hash].user, s.tokens[hash].device)
    case Some(_) => s
  }

  // ----- The service -----

  class AuthService {
    var users: set<UserId>
    var devices: map<DeviceId, UserId>
    var identities: map<Subject, UserId>
    var tokens: map<TokenHash, TokenRow>
    const refreshTtl: int

    constructor (s: Store, refreshTtl: int)
      ensures View() == s && this.refreshTtl == refreshTtl
    {
      users, devices, identities, tokens := s.users, s.devices, s.identities, s.tokens;
      this.refreshTtl := refreshTtl;
    }

    function View(): Store
      reads this
    {
      Store(users, devices, identities, tokens)
    }

    method FindOrCreateIdentity(device: DeviceId, newUser: UserId) returns (u: UserId)
      requires newUser !in users
      modifies this`users, this`devices
      ensures View() == Provisioned(old(View()), device, newUser)
      ensures u == DeviceUser(old(View()), device, newUser)
    {
      if device in devices {
        return devices[device];
      }
      users := users + {newUser};
      if device !in devices {
        devices := devices[device := newUser];
      }
      u := devices[device];
    }

    method ResolveAppleUser(subject: Subject, device: DeviceId, newUser: UserId, spareUser: UserId) returns (u: UserId)
      requires newUser !in users && spareUser !in users && newUser != spareUser
      modifies this`users, this`devices, this`identities
      ensures (View(), u) == Resolved(old(View()), subject, device, newUser, spareUser)
    {
      if subject in identities {
        return identities[subject];
      }
      var deviceUser := FindOrCreateIdentity(device, newUser);
      var linkTo := deviceUser;
      if HasApple(View(), deviceUser) {
        linkTo := spareUser;
        users := users + {spareUser};
      }
      if subject !in identities {
        identities := identities[subject := linkTo];
      }
      u := identities[subject];
    }

    method UpsertDevice(device: DeviceId, u: UserId)
      modifies this`devices
      ensures devices == old(devices)[device := u]
      ensures forall newUser :: DeviceUser(View(), device, newUser) == u
      ensures forall d, newUser :: d != device ==> DeviceUser(View(), d, newUser) == DeviceUser(old(View()), d, newUser)
    {
      devices := devices[device := u];
    }

    method IssuePair(u: UserId, device: DeviceId, hash: TokenHash, now: Instant)
      requires hash !in tokens
      modifies this`tokens
      ensures View() == Issued(old(View()), u, device, hash, now + refreshTtl)
      ensures forall at :: RefreshRefusal(View(), hash, at).None? <==> at < now + refreshTtl
      ensures forall h :: h in old(tokens) ==> h in tokens && tokens[h] == old(tokens)[h]
      ensures forall v, d :: |Live(View(), v, d)| == |Live(old(View()), v, d)| + if v == u && d == device then 1 else 0
    {
      forall v, d ensures |Live(Issued(View(), u, device, hash, now + refreshTtl), v, d)|
                          == |Live(View(), v, d)| + if v == u && d == device then 1 else 0
      {
        IssueAddsOne(View(), u, device, hash, now + refreshTtl, v, d);
      }
      tokens := tokens[hash := TokenRow(u, device, now + refreshTtl, false, false)];
    }

    method RegisterOrToken(device: DeviceId, newUser: UserId, hash: TokenHash, now: Instant) returns (u: UserId)
      requires newUser !in users && hash !in tokens
      modifies this
      ensures View() == Registered(old(View()), device, newUser, hash, now + refreshTtl)
      ensures u == DeviceUser(old(View()), device, newUser)
    {
      u := FindOrCreateIdentity(device, newUser);
      IssuePair(u, device, hash, now);
    }

    method SignInWithApple(subject: Subject, device: DeviceId, newUser: UserId, spareUser: UserId, hash: TokenHash, now: Instant)
      returns (u: UserId)
      requires newUser !in users && spareUser !in users && newUser != spareUser && hash !in tokens
      modifies this
      ensures View() == SignedIn(old(View()), subject, device, newUser, spareUser, hash, now + refreshTtl)
      ensures u == Resolved(old(View()), subject, device, newUser, spareUser).1
    {
      u := ResolveAppleUser(subject, device, newUser, spareUser);
      UpsertDevice(device, u);
      IssuePair(u, device, hash, now);
    }

    method RevokeChain(u: UserId, device: DeviceId)
      modifies this`tokens
      ensures View() == ChainRevoked(old(View()), u, device)
      ensures tokens.Keys == old(tokens).Keys && Live(View(), u, device) == {}
      ensures forall h :: h in tokens ==> tokens[h].(revoked := old(tokens)[h].revoked) == old(tokens)[h]
      ensures forall h :: h in tokens && old(tokens)[h].user == u && old(tokens)[h].device == device ==> tokens[h].revoked
      ensures forall h :: h in tokens && !(old(tokens)[h].user == u && old(tokens)[h].device == device) ==>
                tokens[h] == old(tokens)[h]
    {
      tokens := map h | h in tokens ::
        if tokens[h].user == u && tokens[h].device == device then tokens[h].(revoked := true) else tokens[h];
    }

    method Refresh(hash: TokenHash, now: Instant, newHash: TokenHash) returns (refusal: Option<Refusal>)
      requires newHash !in tokens
      modifies this`tokens
      ensures refusal == RefreshRefusal(old(View()), hash, now)
      ensures View() == Refreshed(old(View()), hash, now, newHash, now + refreshTtl)
    {
      if hash !in tokens {
        return Some(UnknownToken);
      }
      var row := tokens[hash];
      if row.used {
        RevokeChain(row.user, row.device);
        return Some(ReuseDetected);
      }
      if row.revoked {
        return Some(Revoked);
      }
      if row.expiresAt <= now {
        return Some(ExpiredToken);
      }
      tokens := tokens[hash := row.(used := true)];
      IssuePair(row.user, row.device, newHash, now);
      refusal := None;
    }
  }

  // ----- Runs of whole calls -----

  datatype Call =
    | Register(device: DeviceId, newUser: UserId, hash: TokenHash, expiresAt: Instant)
    | SignIn(subject: Subject, device: DeviceId, newUser: UserId, spareUser: UserId, hash: TokenHash, expiresAt: Instant)
    | RefreshCall(presented: TokenHash, now: Instant, hash: TokenHash, expiresAt: Instant)

  /** Random values never collide with anything issued before. */
  predicate FreshFor(s: Store, c: Call) {
    && c.hash !in s.tokens
    && (c.Register? || c.SignIn? ==> c.newUser !in s.users)
    && (c.SignIn? ==> c.spareUser !in s.users && c.spareUser != c.newUser)
  }

  function Called(s: Store, c: Call): Store {
    match c
    case Register(device, newUser, hash, expiresAt) => Registered(s, device, newUser, hash, expiresAt)
    case SignIn(subject, device, newUser, spareUser, hash, expiresAt) => SignedIn(s, subject, device, newUser, spareUser, hash, expiresAt)
    case RefreshCall(presented, now, hash, expiresAt) => Refreshed(s, presented, now, hash, expiresAt)
  }

  function Run(s: Store, calls: seq<Call>): Store
    decreases |calls|
  {
    if calls == [] then s else Called(Run(s, calls[..|calls| - 1]), calls[|calls| - 1])
  }

  ghost predicate Fresh(s: Store, calls: seq<Call>) {
    forall i :: 0 <= i < |calls| ==> FreshFor(Run(s, calls[..i]), calls[i])
  }

  lemma FreshPrefix(s: Store, calls: seq<Call>, n: nat)
    requires Fresh(s, calls) && n <= |calls|
    ensures Fresh(s, calls[..n])
  {
    forall i | 0 <= i < n ensures FreshFor(Run(s, calls[..n][..i]), calls[..n][i]) {
      assert calls[..n][..i] == calls[..i];
    }
  }

  // ----- Apple identities -----

  /** Every user mentioned has a row, and no user holds two Apple identities. */
  ghost predicate OneAppleEach(s: Store) {
    && (forall d :: d in s.devices ==> s.devices[d] in s.users)
    && (forall x :: x in s.identities ==> s.identities[x] in s.users)
    && forall x, y :: x in s.identities && y in s.identities && s.identities[x] == s.identities[y] ==> x == y
  }

  lemma CallKeepsOneAppleEach(s: Store, c: Call)
    requires OneAppleEach(s) && FreshFor(s, c)
    ensures OneAppleEach(Called(s, c))
    ensures forall x :: x in s.identities ==> x in Called(s, c).identities && Called(s, c).identities[x] == s.identities[x]
  {
  }

  /** With whole calls, a user never holds two Apple identities, and a linked subject keeps its user. */
  lemma {:induction false} RunKeepsOneAppleEach(s: Store, calls: seq<Call>)
    requires OneAppleEach(s) && Fresh(s, calls)
    ensures OneAppleEach(Run(s, calls))
    ensures forall x :: x in s.identities ==> x in Run(s, calls).identities && Run(s, calls).identities[x] == s.identities[x]
    decreases |calls|
  {
    hide OneAppleEach, Called;
    if calls != [] {
      var n := |calls| - 1;
      FreshPrefix(s, calls, n);
      RunKeepsOneAppleEach(s, calls[..n]);
      CallKeepsOneAppleEach(Run(s, calls[..n]), calls[n]);
    }
  }

  // ----- Refresh tokens -----

  predicate IsLive(row: TokenRow, u: UserId, device: DeviceId) {
    row.user == u && row.device == device && !row.used && !row.revoked
  }

  ghost function Live(s: Store, u: UserId, device: DeviceId): set<TokenHash> {
    set h | h in s.tokens && IsLive(s.tokens[h], u, device)
  }

  /** Sign-ins (register, token or Apple) on the pair since its last detected reuse. */
  ghost function SignInsSinceReuse(s: Store, calls: seq<Call>, u: UserId, device: DeviceId): nat
    decreases |calls|
  {
    if calls == [] then 0
    else
      var n := |calls| - 1;
      var before, earlier := Run(s, calls[..n]), SignInsSinceReuse(s, calls[..n], u, device);
      match calls[n]
      case RefreshCall(presented, now, _, _) =>
        if RefreshRefusal(before, presented, now) == Some(ReuseDetected)
           && before.tokens[presented].user == u && before.tokens[presented].device == device then 0 else earlier
      case Register(d, newUser, _, _) =>
        if d == device && DeviceUser(before, d, newUser) == u then earlier + 1 else earlier
      case SignIn(subject, d, newUser, spareUser, _, _) =>
        if d == device && Resolved(before, subject, d, newUser, spareUser).1 == u then earlier + 1 else earlier
  }

  lemma IssueAddsOne(s: Store, v: UserId, d: DeviceId, hash: TokenHash, expiresAt: Instant, u: UserId, device: DeviceId)
    requires hash !in s.tokens
    ensures |Live(Issued(s, v, d, hash, expiresAt), u, device)| == |Live(s, u, device)| + if v == u && d == device then 1 else 0
  {
    assert Live(Issued(s, v, d, hash, expiresAt), u, device) ==
           Live(s, u, device) + if v == u && d == device then {hash} else {};
  }

  lemma RotationKeepsCount(s: Store, hash: TokenHash, now: Instant, newHash: TokenHash, expiresAt: Instant, u: UserId, device: DeviceId)
    requires newHash !in s.tokens && RefreshRefusal(s, hash, now).None?
    ensures |Live(Refreshed(s, hash, now, newHash, expiresAt), u, device)| == |Live(s, u, device)|
  {
    var row := s.tokens[hash];
    var marked := s.(tokens := s.tokens[hash := row.(used := true)]);
    assert Live(marked, u, device) == Live(s, u, device) - if IsLive(row, u, device) then {hash} else {};
    IssueAddsOne(marked, row.user, row.device, newHash, expiresAt, u, device);
  }

  lemma ReuseEmptiesThePair(s: Store, v: UserId, d: DeviceId, u: UserId, device: DeviceId)
    ensures Live(ChainRevoked(s, v, d), u, device) == if v == u && d == device then {} else Live(s, u, device)
  {
  }

  /** Conservation: the live tokens of a user and device are as many as the sign-ins since the last
      detected reuse on that pair, over every run. */
  lemma {:induction false} LiveTokensAreSignIns(s: Store, calls: seq<Call>, u: UserId, device: DeviceId)
    requires s.tokens == map[] && Fresh(s, calls)
    ensures |Live(Run(s, calls), u, device)| == SignInsSinceReuse(s, calls, u, device)
    decreases |calls|
  {
    hide Live, Resolved;
    if calls == [] {
      EmptyHasNoLive(s, u, device);
    } else {
      var n := |calls| - 1;
      FreshPrefix(s, calls, n);
      LiveTokensAreSignIns(s, calls[..n], u, device);
      var before := Run(s, calls[..n]);
      LiveStep(before, calls[n], u, device);
    }
  }

  lemma EmptyHasNoLive(s: Store, u: UserId, device: DeviceId)
    requires s.tokens == map[]
    ensures Live(s, u, device) == {}
  {
  }

  /** What one call does to the number of live tokens of a pair. */
  lemma LiveStep(s: Store, c: Call, u: UserId, device: DeviceId)
    requires FreshFor(s, c)
    ensures var after := |Live(Called(s, c), u, device)|;
            match c
            case RefreshCall(presented, now, _, _) =>
              if RefreshRefusal(s, presented, now) == Some(ReuseDetected)
                 && s.tokens[presented].user == u && s.tokens[presented].device == device then after == 0
              else after == |Live(s, u, device)|
            case Register(d, newUser, _, _) =>
              after == |Live(s, u, device)| + if d == device && DeviceUser(s, d, newUser) == u then 1 else 0
            case SignIn(subject, d, newUser, spareUser, _, _) =>
              after == |Live(s, u, device)| + if d == device && Resolved(s, subject, d, newUser, spareUser).1 == u then 1 else 0
  {
    match c
    case RefreshCall(presented, now, hash, expiresAt) =>
      if RefreshRefusal(s, presented, now).None? {
        RotationKeepsCount(s, presented, now, hash, expiresAt, u, device);
      } else if RefreshRefusal(s, presented, now) == Some(ReuseDetected) {
        ReuseEmptiesThePair(s, s.tokens[presented].user, s.tokens[presented].device, u, device);
      }
    case Register(d, newUser, hash, expiresAt) =>
      var s1 := Provisioned(s, d, newUser);
      assert Live(s1, u, device) == Live(s, u, device);
      IssueAddsOne(s1, DeviceUser(s, d, newUser), d, hash, expiresAt, u, device);
    case SignIn(subject, d, newUser, spareUser, hash, expiresAt) =>
      var (s1, v) := Resolved(s, subject, d, newUser, spareUser);
      var s2 := s1.(devices := s1.devices[d := v]);
      assert s2.tokens == s.tokens;
      assert Live(s2, u, device) == Live(s, u, device);
      IssueAddsOne(s2, v, d, hash, expiresAt, u, device);
  }

  /** A token that can never succeed again. */
  predicate Dead(s: Store, hash: TokenHash) {
    hash in s.tokens && (s.tokens[hash].used || s.tokens[hash].revoked)
  }

  lemma {:induction false} DeadStaysDead(s: Store, calls: seq<Call>, hash: TokenHash)
    requires Dead(s, hash) && Fresh(s, calls)
    ensures Dead(Run(s, calls), hash)
    decreases |calls|
  {
    hide Resolved;
    if calls != [] {
      var n := |calls| - 1;
      FreshPrefix(s, calls, n);
      DeadStaysDead(s, calls[..n], hash);
      assert FreshFor(Run(s, calls[..n]), calls[n]);
      TokensOnlyAge(Run(s, calls[..n]), calls[n], hash);
    }
  }

  lemma TokensOnlyAge(s: Store, c: Call, hash: TokenHash)
    requires FreshFor(s, c) && hash in s.tokens
    ensures hash in Called(s, c).tokens
    ensures var before, after := s.tokens[hash], Called(s, c).tokens[hash];
            && after.user == before.user && after.device == before.device
            && (before.used ==> after.used) && (before.revoked ==> after.revoked)
  {
    if c.SignIn? {
      assert Resolved(s, c.subject, c.device, c.newUser, c.spareUser).0.tokens == s.tokens;
    }
  }

  predicate Rotates(s: Store, c: Call, hash: TokenHash) {
    c.RefreshCall? && c.presented == hash && RefreshRefusal(s, hash, c.now).None?
  }

  /** A token dead after one call of a run is dead at every later one. */
  lemma DeadInRun(s: Store, calls: seq<Call>, i: nat, j: nat, hash: TokenHash)
    requires Fresh(s, calls) && i < j < |calls| && Dead(Called(Run(s, calls[..i]), calls[i]), hash)
    ensures Dead(Run(s, calls[..j]), hash)
  {
    hide Dead, Called, FreshFor, Fresh;
    assert calls[..i + 1][..i] == calls[..i];
    assert Run(s, calls[..i + 1]) == Called(Run(s, calls[..i]), calls[i]);
    hide Run;
    RunSplits(s, calls[..j], i + 1);
    assert calls[..j][..i + 1] == calls[..i + 1];
    FreshPrefix(s, calls, j);
    FreshSuffix(s, calls[..j], i + 1);
    DeadStaysDead(Run(s, calls[..i + 1]), calls[..j][i + 1..], hash);
  }

  lemma DeadNeverRotates(s: Store, c: Call, hash: TokenHash)
    requires Dead(s, hash)
    ensures !Rotates(s, c, hash)
  {
  }

  lemma RotationKills(s: Store, c: Call, hash: TokenHash)
    requires FreshFor(s, c) && Rotates(s, c, hash)
    ensures Dead(Called(s, c), hash)
  {
  }

  lemma ReuseKills(s: Store, c: Call, hash: TokenHash)
    requires c.RefreshCall? && RefreshRefusal(s, c.presented, c.now) == Some(ReuseDetected) && hash in s.tokens
    requires s.tokens[hash].user == s.tokens[c.presented].user && s.tokens[hash].device == s.tokens[c.presented].device
    ensures Dead(Called(s, c), hash)
  {
  }

  /** Single use: over every run a token is rotated at most once, so it has at most one successor. */
  lemma AtMostOneSuccessor(s: Store, calls: seq<Call>, i: nat, j: nat, hash: TokenHash)
    requires Fresh(s, calls) && i < j < |calls|
    requires Rotates(Run(s, calls[..i]), calls[i], hash)
    ensures !Rotates(Run(s, calls[..j]), calls[j], hash)
  {
    hide Dead, Called, FreshFor, Run, Rotates;
    RotationKills(Run(s, calls[..i]), calls[i], hash);
    DeadInRun(s, calls, i, j, hash);
    DeadNeverRotates(Run(s, calls[..j]), calls[j], hash);
  }

  /** After a detected reuse no token that then existed for the pair ever succeeds again. */
  lemma ReuseKillsTheChain(s: Store, calls: seq<Call>, i: nat, j: nat, hash: TokenHash)
    requires Fresh(s, calls) && i < j < |calls|
    requires calls[i].RefreshCall?
    requires var before := Run(s, calls[..i]);
             && RefreshRefusal(before, calls[i].presented, calls[i].now) == Some(ReuseDetected)
             && hash in before.tokens
             && before.tokens[hash].user == before.tokens[calls[i].presented].user
             && before.tokens[hash].device == before.tokens[calls[i].presented].device
    ensures !Rotates(Run(s, calls[..j]), calls[j], hash)
  {
    hide Dead, Called, FreshFor, Run, Rotates, Fresh;
    ReuseKills(Run(s, calls[..i]), calls[i], hash);
    DeadInRun(s, calls, i, j, hash);
    DeadNeverRotates(Run(s, calls[..j]), calls[j], hash);
  }

  lemma {:induction false} RunSplits(s: Store, calls: seq<Call>, n: nat)
    requires n <= |calls|
    ensures Run(s, calls) == Run(Run(s, calls[..n]), calls[n..])
    decreases |calls|
  {
    hide Called;
    if n == |calls| {
      assert calls[..n] == calls && calls[n..] == [];
    } else {
      var m := |calls| - 1;
      var tail := calls[n..];
      assert tail[|tail| - 1] == calls[m] && tail[..|tail| - 1] == calls[n..][..m - n];
      RunSplits(s, calls[..m], n);
      assert calls[..m][..n] == calls[..n] && calls[..m][n..] == calls[n..][..m - n];
    }
  }

  lemma FreshSuffix(s: Store, calls: seq<Call>, n: nat)
    requires Fresh(s, calls) && n <= |calls|
    ensures Fresh(Run(s, calls[..n]), calls[n..])
  {
    hide Run, FreshFor;
    forall i | 0 <= i < |calls| - n ensures FreshFor(Run(Run(s, calls[..n]), calls[n..][..i]), calls[n..][i]) {
      RunSplits(s, calls[..n + i], n);
      assert calls[..n + i][..n] == calls[..n] && calls[..n + i][n..] == calls[n..][..i];
      assert FreshFor(Run(s, calls[..n + i]), calls[n + i]);
    }
  }

  // ----- What whole calls do, over the tables alone -----

  /** A linked subject is its user's; a new one becomes the device's user if no identity points to that user,
      and the spare user otherwise; on a device without a row it becomes the new user. Nothing else is added. */
  lemma SignInResolves(s: Store, subject: Subject, device: DeviceId, newUser: UserId, spareUser: UserId)
    requires forall x :: x in s.identities ==> s.identities[x] != newUser
    ensures var r := Resolved(s, subject, device, newUser, spareUser);
            var owned := device in s.devices && exists x :: x in s.identities && s.identities[x] == s.devices[device];
            if subject in s.identities then r == (s, s.identities[subject])
            else if owned then
              r == (s.(users := s.users + {spareUser}, identities := s.identities[subject := spareUser]), spareUser)
            else if device in s.devices then
              r == (s.(identities := s.identities[subject := s.devices[device]]), s.devices[device])
            else
              r == (s.(users := s.users + {newUser}, devices := s.devices[device := newUser],
                       identities := s.identities[subject := newUser]), newUser)
  {
  }

  /** A sign-in leaves the device with the resolved user and adds one token of that user and device. */
  lemma SignInWrites(s: Store, subject: Subject, device: DeviceId, newUser: UserId, spareUser: UserId, hash: TokenHash,
                     expiresAt: Instant)
    ensures var (resolved, u) := Resolved(s, subject, device, newUser, spareUser);
            var after := SignedIn(s, subject, device, newUser, spareUser, hash, expiresAt);
            && after.users == resolved.users && after.identities == resolved.identities
            && after.devices == resolved.devices[device := u]
            && after.tokens == s.tokens[hash := TokenRow(u, device, expiresAt, false, false)]
  {
    hide HasApple;
  }

  /** A registration keeps a known device's user and gives a new device the new user, and adds one token. */
  lemma RegistrationWrites(s: Store, device: DeviceId, newUser: UserId, hash: TokenHash, expiresAt: Instant)
    ensures var after := Registered(s, device, newUser, hash, expiresAt);
            var known := device in s.devices;
            && after.users == (if known then s.users else s.users + {newUser})
            && after.devices == (if known then s.devices else s.devices[device := newUser])
            && after.identities == s.identities
            && after.tokens == s.tokens[hash := TokenRow(if known then s.devices[device] else newUser, device, expiresAt, false, false)]
  {
  }

  /** A token is exchanged iff it is known, unused, not revoked and not past its end: it is used up, and the new
      token has its user and device. A used one revokes its pair, even if it is revoked or past its end. */
  lemma RefreshWrites(s: Store, hash: TokenHash, now: Instant, newHash: TokenHash, expiresAt: Instant)
    ensures var after := Refreshed(s, hash, now, newHash, expiresAt);
            && after.(tokens := s.tokens) == s
            && (RefreshRefusal(s, hash, now).None? <==>
                  hash in s.tokens && !s.tokens[hash].used && !s.tokens[hash].revoked && now < s.tokens[hash].expiresAt)
            && (RefreshRefusal(s, hash, now) == Some(ReuseDetected) <==> hash in s.tokens && s.tokens[hash].used)
            && (RefreshRefusal(s, hash, now) == Some(UnknownToken) <==> hash !in s.tokens)
            && (RefreshRefusal(s, hash, now) == Some(Revoked) <==> hash in s.tokens && !s.tokens[hash].used && s.tokens[hash].revoked)
            && match RefreshRefusal(s, hash, now)
               case None =>
                 var TokenRow(u, device, end, _, _) := s.tokens[hash];
                 after.tokens == s.tokens[hash := TokenRow(u, device, end, true, false)][newHash := TokenRow(u, device, expiresAt, false, false)]
               case Some(ReuseDetected) =>
                 && after.tokens.Keys == s.tokens.Keys
                 && forall h :: h in s.tokens ==>
                      var TokenRow(u, device, end, used, revoked) := s.tokens[h];
                      var samePair := u == s.tokens[hash].user && device == s.tokens[hash].device;
                      after.tokens[h] == TokenRow(u, device, end, used, revoked || samePair)
               case _ => after == s
  {
  }
}
