/** Reusable checkout links: a shared hash per user, and the timed lock that serialises their issue. */
module LinkCache {
  import opened Base

  /** Microseconds. */
  type Time = int

  const SECOND: int := 1_000_000
  const LOCK_TTL: int := 20 * SECOND
  const EXPIRY_MARGIN_SECONDS: int := 60

  /** Product and address: one reusable link each. */
  type Field = string

  /** `expires` is the provider's own expiry when it is a parseable instant. */
  datatype Link = Link(paymentId: string, url: string, expires: Option<Time>)

  datatype Entry = Entry(link: Link, exp: Time)

  /** The user's hash; the whole key lapses at `until`. */
  datatype Hash = Hash(entries: map<Field, Entry>, until: Time)

  // ----- The field -----

  function LinkField(product: string, digest: string): Field {
    product + ":" + digest
  }

  /** Digests have one length, so a field names its product and its digest. */
  lemma FieldIsIdentity(product: string, digest: string, product': string, digest': string)
    requires |digest| == |digest'| && LinkField(product, digest) == LinkField(product', digest')
    ensures product == product' && digest == digest'
  {
    var f := LinkField(product, digest);
    var n := |product|;
    assert f == product + ([':'] + digest) && f == product' + ([':'] + digest');
    assert |product| == |product'|;
    assert f[..n] == product && f[..n] == product';
    assert f[n + 1..] == digest && f[n + 1..] == digest';
  }

  // ----- The hash -----

  function Cached(h: Hash, f: Field, now: Time): Option<Link> {
    if now < h.until && f in h.entries && now < h.entries[f].exp && h.entries[f].link.url != ""
    then Some(h.entries[f].link) else None
  }

  function Stored(h: Hash, f: Field, link: Link, ttl: int, reuse: int, now: Time): Hash {
    Hash((if now < h.until then h.entries else map[])[f := Entry(link, now + ttl * SECOND)], now + reuse * SECOND)
  }

  /** `int(seconds)` truncates toward zero. */
  function WholeSeconds(left: Time): int {
    if left >= 0 then left / SECOND else -(-left / SECOND)
  }

  /** The reuse window, capped by the provider's expiry less a margin. */
  function ReuseTtl(link: Link, reuse: int, now: Time): int {
    if link.expires.None? then reuse
    else
      var left := WholeSeconds(link.expires.value - now) - EXPIRY_MARGIN_SECONDS;
      if reuse < left then reuse else left
  }

  /** The margin covers the time between pricing and storing: an entry written within it lapses before the
      provider's link does. For an entry capped by that expiry the bound is exact, to the second. */
  lemma EntryLapsesFirst(link: Link, reuse: int, priced: Time, stored: Time)
    requires link.expires.Some? && priced <= stored && ReuseTtl(link, reuse, priced) > 0
    ensures var exp := stored + ReuseTtl(link, reuse, priced) * SECOND;
            && (stored - priced <= EXPIRY_MARGIN_SECONDS * SECOND ==> exp <= link.expires.value)
            && (ReuseTtl(link, reuse, priced) < reuse ==>
                  (exp <= link.expires.value <==>
                     stored - priced <= EXPIRY_MARGIN_SECONDS * SECOND + (link.expires.value - priced) % SECOND))
  {
  }

  /** A link without a provider's expiry is reused for the whole window, and none for longer. */
  lemma UndatedForTheWindow(link: Link, reuse: int, now: Time)
    ensures link.expires == None ==> ReuseTtl(link, reuse, now) == reuse
    ensures ReuseTtl(link, reuse, now) <= reuse
  {
  }

  class LinkStore {
    var hash: Hash

    constructor ()
      ensures hash == Hash(map[], 0)
    {
      hash := Hash(map[], 0);
    }

    method CachedLink(f: Field, now: Time) returns (link: Option<Link>)
      ensures link == Cached(hash, f, now)
    {
      if hash.until <= now || f !in hash.entries {
        return None;
      }
      var entry := hash.entries[f];
      if entry.exp <= now || entry.link.url == "" {
        return None;
      }
      return Some(entry.link);
    }

    method StoreLink(f: Field, link: Link, ttl: int, reuse: int, now: Time)
      modifies this
      ensures hash == Stored(old(hash), f, link, ttl, reuse, now)
      ensures 0 < ttl <= reuse && link.url != "" ==>
                forall at :: at >= now ==> Cached(hash, f, at) == if at < now + ttl * SECOND then Some(link) else None
      ensures forall g :: g != f && Cached(old(hash), g, now).None? ==> forall at :: at >= now ==> Cached(hash, g, at).None?
      ensures forall g :: g != f && Cached(old(hash), g, now).Some? ==>
                forall at :: now <= at < now + reuse * SECOND ==>
                  Cached(hash, g, at) == if at < old(hash).entries[g].exp then Cached(old(hash), g, now) else None
    {
      var live := if now < hash.until then hash.entries else map[];
      hash := Hash(live[f := Entry(link, now + ttl * SECOND)], now + reuse * SECOND);
    }

    method ForgetReusableLinks()
      modifies this
      ensures hash == Hash(map[], old(hash).until)
      ensures forall f, now :: Cached(hash, f, now) == None
    {
      hash := Hash(map[], hash.until);
    }
  }

  // ----- Callers as a state machine -----

  type Pid = nat

  /** Where a caller is. `lockedAt` is set while it believes it holds the lock; `turn` counts the event by
      which it went to the provider. */
  datatype Caller =
    | Waiting(field: Field, began: Time)
    | Trying(field: Field, began: Time)
    | Issuing(field: Field, began: Time, lockedAt: Option<Time>, turn: nat)
    | Storing(field: Field, began: Time, lockedAt: Option<Time>, turn: nat, link: Link, ttl: int, priced: Time)
    | Releasing(field: Field, began: Time, lockedAt: Option<Time>)
    | Finished

  datatype Event =
    | Begin(p: Pid, field: Field)
    | Hit(p: Pid) | Miss(p: Pid)
    | Acquire(p: Pid) | Sleep(p: Pid) | GiveUp(p: Pid)
    | Answer(p: Pid, link: Link) | Fail(p: Pid)
    | Store(p: Pid) | Release(p: Pid)
    | Forget

  datatype Timed = Timed(event: Event, now: Time)

  datatype State = State(hash: Hash, locks: map<Field, Time>, callers: map<Pid, Caller>, count: nat)

  const START: State := State(Hash(map[], 0), map[], map[], 0)

  predicate LockFree(s: State, f: Field, now: Time) {
    f !in s.locks || s.locks[f] <= now
  }

  predicate At(s: State, p: Pid) {
    p in s.callers
  }

  /** An answer without a link is a failure. */
  predicate Enabled(s: State, t: Timed) {
    match t.event
    case Begin(p, _) => p !in s.callers
    case Hit(p) => At(s, p) && s.callers[p].Waiting? && Cached(s.hash, s.callers[p].field, t.now).Some?
    case Miss(p) => At(s, p) && s.callers[p].Waiting? && Cached(s.hash, s.callers[p].field, t.now).None?
    case Acquire(p) => At(s, p) && s.callers[p].Trying? && LockFree(s, s.callers[p].field, t.now)
    case Sleep(p) => At(s, p) && s.callers[p].Trying? && !LockFree(s, s.callers[p].field, t.now)
                     && t.now < s.callers[p].began + LOCK_TTL
    case GiveUp(p) => At(s, p) && s.callers[p].Trying? && !LockFree(s, s.callers[p].field, t.now)
                      && t.now >= s.callers[p].began + LOCK_TTL
    case Answer(p, link) => At(s, p) && s.callers[p].Issuing? && link.url != ""
    case Fail(p) => At(s, p) && s.callers[p].Issuing?
    case Store(p) => At(s, p) && s.callers[p].Storing?
    case Release(p) => At(s, p) && s.callers[p].Releasing?
    case Forget => true
  }

  function Moved(s: State, p: Pid, c: Caller): State {
    s.(callers := s.callers[p := c], count := s.count + 1)
  }

  /** The effect of an enabled event, for a reuse window of `reuse` seconds. */
  function Next(s: State, t: Timed, reuse: int): State
    requires Enabled(s, t)
  {
    match t.event
    case Begin(p, f) => Moved(s, p, Waiting(f, t.now))
    case Hit(p) => Moved(s, p, Finished)
    case Miss(p) => Moved(s, p, Trying(s.callers[p].field, s.callers[p].began))
    case Acquire(p) =>
      var c := s.callers[p];
      Moved(s.(locks := s.locks[c.field := t.now + LOCK_TTL]), p, Issuing(c.field, c.began, Some(t.now), s.count))
    case Sleep(p) => Moved(s, p, Waiting(s.callers[p].field, s.callers[p].began))
    case GiveUp(p) => Moved(s, p, Issuing(s.callers[p].field, s.callers[p].began, None, s.count))
    case Answer(p, link) =>
      var c := s.callers[p];
      var ttl := ReuseTtl(link, reuse, t.now);
      Moved(s, p, if ttl > 0 then Storing(c.field, c.began, c.lockedAt, c.turn, link, ttl, t.now)
                  else Releasing(c.field, c.began, c.lockedAt))
    case Fail(p) => Moved(s, p, Releasing(s.callers[p].field, s.callers[p].began, s.callers[p].lockedAt))
    case Store(p) =>
      var c := s.callers[p];
      Moved(s.(hash := Stored(s.hash, c.field, c.link, c.ttl, reuse, t.now)), p, Releasing(c.field, c.began, c.lockedAt))
    case Release(p) =>
      var c := s.callers[p];
      Moved(if c.lockedAt.Some? then s.(locks := s.locks - {c.field}) else s, p, Finished)
    case Forget => s.(hash := Hash(map[], s.hash.until), count := s.count + 1)
  }

  /** Every event of the run was enabled, and time did not go back. */
  ghost predicate Valid(run: seq<Timed>, reuse: int) {
    run == [] ||
    (var n := |run| - 1;
     && Valid(run[..n], reuse)
     && Enabled(After(run[..n], reuse), run[n])
     && (n > 0 ==> run[n - 1].now <= run[n].now))
  }

  ghost function After(run: seq<Timed>, reuse: int): State {
    if run == [] then START
    else
      var before := After(run[..|run| - 1], reuse);
      if Enabled(before, run[|run| - 1]) then Next(before, run[|run| - 1], reuse) else before
  }

  // ----- Mutual exclusion -----

  /** The caller believes it holds the lock. */
  predicate Holds(s: State, p: Pid) {
    At(s, p) && (s.callers[p].Issuing? || s.callers[p].Storing? || s.callers[p].Releasing?)
    && s.callers[p].lockedAt.Some?
  }

  /** No holder overstays: as long as a caller holds the lock, less than the TTL has passed. */
  ghost predicate Timely(run: seq<Timed>, reuse: int) {
    forall n: nat, p :: n < |run| && Holds(After(run[..n], reuse), p) ==>
      run[n].now < After(run[..n], reuse).callers[p].lockedAt.value + LOCK_TTL
  }

  ghost predicate OneHolder(s: State) {
    && (forall p :: Holds(s, p) ==>
          s.callers[p].field in s.locks && s.locks[s.callers[p].field] == s.callers[p].lockedAt.value + LOCK_TTL)
    && (forall p, q :: Holds(s, p) && Holds(s, q) && s.callers[p].field == s.callers[q].field ==> p == q)
  }

  /** What an event does to locks and holders, apart from taking and releasing: nothing. */
  lemma HoldersFrame(s: State, t: Timed, reuse: int)
    requires Enabled(s, t) && !t.event.Acquire? && !t.event.Release?
    ensures var s' := Next(s, t, reuse);
            && s'.locks == s.locks
            && forall p :: Holds(s', p) ==> Holds(s, p) && s'.callers[p].field == s.callers[p].field
                                            && s'.callers[p].lockedAt == s.callers[p].lockedAt
  {
    MovesOne(s, t, reuse);
    hide Enabled, Next;
    if !t.event.Forget? {
      var s' := Next(s, t, reuse);
      forall p | Holds(s', p)
        ensures Holds(s, p) && s'.callers[p].field == s.callers[p].field && s'.callers[p].lockedAt == s.callers[p].lockedAt
      {
        if p != t.event.p {
          assert s'.callers[p] == s.callers[p];
        }
      }
    }
  }

  /** Such an event moves one caller, and hands the lock to nobody. */
  lemma MovesOne(s: State, t: Timed, reuse: int)
    requires Enabled(s, t) && !t.event.Acquire? && !t.event.Release?
    ensures Next(s, t, reuse).locks == s.locks
    ensures t.event.Forget? ==> Next(s, t, reuse).callers == s.callers
    ensures !t.event.Forget? ==>
              var p := t.event.p; var s' := Next(s, t, reuse);
              && p in s'.callers && s'.callers == s.callers[p := s'.callers[p]]
              && (Holds(s', p) ==> Holds(s, p) && s'.callers[p].field == s.callers[p].field && s'.callers[p].lockedAt == s.callers[p].lockedAt)
  {
    hide ReuseTtl, Stored, Cached, LockFree;
  }

  lemma AcquireKeepsOneHolder(s: State, t: Timed, reuse: int)
    requires Enabled(s, t) && OneHolder(s) && t.event.Acquire?
    requires forall p :: Holds(s, p) ==> t.now < s.callers[p].lockedAt.value + LOCK_TTL
    ensures OneHolder(Next(s, t, reuse))
  {
    var f := s.callers[t.event.p].field;
    assert forall p :: Holds(s, p) ==> s.callers[p].field != f;
    var s' := Next(s, t, reuse);
    assert forall p :: p != t.event.p ==> (Holds(s', p) <==> Holds(s, p));
    assert forall p :: p != t.event.p && At(s, p) ==> s'.callers[p] == s.callers[p];
  }

  lemma ReleaseKeepsOneHolder(s: State, t: Timed, reuse: int)
    requires Enabled(s, t) && OneHolder(s) && t.event.Release?
    ensures OneHolder(Next(s, t, reuse))
  {
    var s' := Next(s, t, reuse);
    assert forall p :: Holds(s', p) ==> p != t.event.p && Holds(s, p) && s'.callers[p] == s.callers[p];
  }

  lemma StepKeepsOneHolder(s: State, t: Timed, reuse: int)
    requires Enabled(s, t) && OneHolder(s)
    requires forall p :: Holds(s, p) ==> t.now < s.callers[p].lockedAt.value + LOCK_TTL
    ensures OneHolder(Next(s, t, reuse))
  {
    hide Enabled, Next, Holds;
    if t.event.Acquire? {
      AcquireKeepsOneHolder(s, t, reuse);
    } else if t.event.Release? {
      ReleaseKeepsOneHolder(s, t, reuse);
    } else {
      HoldersFrame(s, t, reuse);
    }
  }

  /** If every holder finishes within the lock's TTL, no two callers that hold a lock for the same product
      and address overlap, at any point of any run. */
  lemma {:induction false} HoldersNeverOverlap(run: seq<Timed>, reuse: int)
    requires Valid(run, reuse) && Timely(run, reuse)
    ensures OneHolder(After(run, reuse))
    decreases |run|
  {
    hide OneHolder, Enabled, Next;
    StartHasNone();
    if run != [] {
      var n := |run| - 1;
      assert Timely(run[..n], reuse) by {
        forall m: nat, p | m < n && Holds(After(run[..n][..m], reuse), p)
          ensures run[..n][m].now < After(run[..n][..m], reuse).callers[p].lockedAt.value + LOCK_TTL
        {
          assert run[..n][..m] == run[..m];
        }
      }
      HoldersNeverOverlap(run[..n], reuse);
      StepKeepsOneHolder(After(run[..n], reuse), run[n], reuse);
    }
  }

  lemma StartHasNone()
    ensures OneHolder(START)
  {
  }

  /** The hypothesis is needed: once a holder has outstayed the TTL, a second caller can take the lock. */
  lemma LateHolderOverlaps(s: State, p: Pid, q: Pid, now: Time, reuse: int)
    requires OneHolder(s) && Holds(s, p) && now >= s.callers[p].lockedAt.value + LOCK_TTL
    requires At(s, q) && s.callers[q].Trying? && s.callers[q].field == s.callers[p].field
    ensures Enabled(s, Timed(Acquire(q), now))
    ensures Holds(Next(s, Timed(Acquire(q), now), reuse), p) && Holds(Next(s, Timed(Acquire(q), now), reuse), q)
  {
  }

  predicate Unlocked(s: State, p: Pid) {
    At(s, p) && (s.callers[p].Issuing? || s.callers[p].Storing? || s.callers[p].Releasing?)
    && s.callers[p].lockedAt.None?
  }

  /** A caller that goes to the provider without the lock has waited the lock's whole TTL. */
  ghost predicate WaitedEnough(s: State, now: Time) {
    forall p :: Unlocked(s, p) ==> s.callers[p].began + LOCK_TTL <= now
  }

  lemma {:induction false} UnlockedOnlyAfterWait(run: seq<Timed>, reuse: int)
    requires Valid(run, reuse) && run != []
    ensures WaitedEnough(After(run, reuse), run[|run| - 1].now)
    decreases |run|
  {
    hide WaitedEnough, Enabled, Next;
    var n := |run| - 1;
    var before := After(run[..n], reuse);
    if n > 0 {
      UnlockedOnlyAfterWait(run[..n], reuse);
    } else {
      StartHasWaited(run[n].now);
    }
    StepKeepsWaited(before, if n > 0 then run[n - 1].now else run[n].now, run[n], reuse);
  }

  lemma StartHasWaited(now: Time)
    ensures WaitedEnough(START, now)
  {
  }

  lemma StepKeepsWaited(s: State, before: Time, t: Timed, reuse: int)
    requires Enabled(s, t) && WaitedEnough(s, before) && before <= t.now
    ensures WaitedEnough(Next(s, t, reuse), t.now)
  {
    hide ReuseTtl, Stored, Cached, LockFree;
  }

  // ----- What a cached link is -----

  /** Event `k` stored this entry: its caller asked for this field, and was given this link. */
  ghost predicate StoredBy(run: seq<Timed>, k: nat, f: Field, entry: Entry, reuse: int)
    requires k < |run|
  {
    var before := After(run[..k], reuse);
    && run[k].event.Store? && At(before, run[k].event.p)
    && var c := before.callers[run[k].event.p];
       && c.Storing? && c.field == f && c.link == entry.link
       && entry.exp == run[k].now + c.ttl * SECOND
       && c.ttl == ReuseTtl(c.link, reuse, c.priced) > 0
       && c.priced <= run[k].now
  }

  predicate NoForget(run: seq<Timed>, from: nat, to: nat)
    requires to <= |run|
  {
    forall i :: from <= i < to ==> !run[i].event.Forget?
  }

  ghost predicate Explained(run: seq<Timed>, reuse: int) {
    forall f :: f in After(run, reuse).hash.entries ==> Source(run, f, After(run, reuse).hash.entries[f], reuse)
  }

  ghost predicate Source(run: seq<Timed>, f: Field, entry: Entry, reuse: int) {
    exists k: nat :: k < |run| && StoredBy(run, k, f, entry, reuse) && NoForget(run, k, |run|)
  }

  /** A caller about to store has priced its link, in the past. */
  ghost predicate Priced(s: State, now: Time, reuse: int) {
    forall p :: At(s, p) && s.callers[p].Storing? ==>
      var c := s.callers[p]; c.ttl == ReuseTtl(c.link, reuse, c.priced) > 0 && c.priced <= now
  }

  lemma {:induction false} StaysPriced(run: seq<Timed>, reuse: int, now: Time)
    requires Valid(run, reuse) && (run != [] ==> run[|run| - 1].now <= now)
    ensures Priced(After(run, reuse), now, reuse)
    decreases |run|
  {
    hide ReuseTtl, Stored, Cached, LockFree;
    if run != [] {
      StaysPriced(run[..|run| - 1], reuse, run[|run| - 1].now);
    }
  }

  lemma SourceLater(run: seq<Timed>, t: Timed, f: Field, entry: Entry, reuse: int)
    requires Source(run, f, entry, reuse) && !t.event.Forget?
    ensures Source(run + [t], f, entry, reuse)
  {
    var longer := run + [t];
    hide After, ReuseTtl;
    var k: nat :| k < |run| && StoredBy(run, k, f, entry, reuse) && NoForget(run, k, |run|);
    assert longer[..k] == run[..k] && longer[k] == run[k];
    assert StoredBy(longer, k, f, entry, reuse);
    assert NoForget(longer, k, |longer|);
  }

  lemma StoreExplains(run: seq<Timed>, t: Timed, reuse: int)
    requires Valid(run + [t], reuse) && t.event.Store?
    ensures var c := After(run, reuse).callers[t.event.p];
            Enabled(After(run, reuse), t) && Source(run + [t], c.field, Entry(c.link, t.now + c.ttl * SECOND), reuse)
  {
    hide After, ReuseTtl, Next, Stored, Cached, LockFree;
    var longer := run + [t];
    var n := |run|;
    assert longer[..n] == run;
    StaysPriced(run, reuse, t.now);
    var c := After(run, reuse).callers[t.event.p];
    assert StoredBy(longer, n, c.field, Entry(c.link, t.now + c.ttl * SECOND), reuse);
  }

  lemma {:induction false} EntriesAreExplained(run: seq<Timed>, reuse: int)
    requires Valid(run, reuse)
    ensures Explained(run, reuse)
    decreases |run|
  {
    hide Source, ReuseTtl, Cached, LockFree;
    if run != [] {
      var n := |run| - 1;
      EntriesAreExplained(run[..n], reuse);
      assert run == run[..n] + [run[n]];
      var before := After(run[..n], reuse);
      forall f | f in After(run, reuse).hash.entries ensures Source(run, f, After(run, reuse).hash.entries[f], reuse) {
        if run[n].event.Store? && before.callers[run[n].event.p].field == f {
          StoreExplains(run[..n], run[n], reuse);
        } else {
          SourceLater(run[..n], run[n], f, before.hash.entries[f], reuse);
        }
      }
    }
  }

  /** The store step came soon enough after the link was priced. */
  ghost predicate InTime(run: seq<Timed>, k: nat, reuse: int)
    requires k < |run| && run[k].event.Store?
  {
    var before := After(run[..k], reuse);
    var p := run[k].event.p;
    At(before, p) && before.callers[p].Storing? && run[k].now - before.callers[p].priced <= EXPIRY_MARGIN_SECONDS * SECOND
  }

  /** Event `k` is where the entry comes from: nothing invalidated it since, and stored in time it lapses
      before the provider's own expiry. */
  ghost predicate SoundSource(run: seq<Timed>, k: nat, n: nat, f: Field, entry: Entry, reuse: int)
    requires n <= |run|
  {
    && k < n && StoredBy(run, k, f, entry, reuse) && NoForget(run, k, n)
    && (InTime(run, k, reuse) && entry.link.expires.Some? ==> entry.exp <= entry.link.expires.value)
  }

  /** Whatever a caller is handed from the cache was issued for the same product and address and stored
      after the last invalidation; and it is handed out before the provider's own expiry, if it was stored
      within the margin after it was priced. */
  lemma HitIsSound(run: seq<Timed>, reuse: int)
    requires run != [] && Valid(run, reuse) && run[|run| - 1].event.Hit?
    ensures var n := |run| - 1;
            var s := After(run[..n], reuse);
            && At(s, run[n].event.p) && s.callers[run[n].event.p].Waiting?
            && var f := s.callers[run[n].event.p].field;
               && f in s.hash.entries && Cached(s.hash, f, run[n].now) == Some(s.hash.entries[f].link)
               && run[n].now < s.hash.entries[f].exp
               && exists k: nat :: SoundSource(run, k, n, f, s.hash.entries[f], reuse)
  {
    var n := |run| - 1;
    var before := After(run[..n], reuse);
    var f := before.callers[run[n].event.p].field;
    var entry := before.hash.entries[f];
    EntriesAreExplained(run[..n], reuse);
    assert Source(run[..n], f, entry, reuse);
    hide After, Enabled, Next, ReuseTtl, StoredBy, NoForget;
    var k: nat :| k < n && StoredBy(run[..n], k, f, entry, reuse) && NoForget(run[..n], k, n);
    SoundFrom(run, n, f, entry, reuse, k);
  }

  lemma SoundFrom(run: seq<Timed>, n: nat, f: Field, entry: Entry, reuse: int, k: nat)
    requires k < n <= |run| && StoredBy(run[..n], k, f, entry, reuse) && NoForget(run[..n], k, n)
    ensures SoundSource(run, k, n, f, entry, reuse)
  {
    hide After, ReuseTtl;
    assert run[..n][..k] == run[..k] && run[..n][k] == run[k];
    assert StoredBy(run, k, f, entry, reuse);
    assert NoForget(run, k, n);
    if entry.link.expires.Some? {
      EntryLapsesFirst(entry.link, reuse, After(run[..k], reuse).callers[run[k].event.p].priced, run[k].now);
    }
  }

  // ----- Links issued before an invalidation -----

  predicate InFlight(s: State, p: Pid) {
    At(s, p) && (s.callers[p].Issuing? || s.callers[p].Storing?)
  }

  /** The guarantee is about storing, not issuing. When no caller was at the provider at the invalidation,
      every caller there later went to it afterwards; */
  lemma {:induction false} LaterIssuesAreNewer(run: seq<Timed>, i: nat, reuse: int)
    requires Valid(run, reuse) && i <= |run|
    requires forall p :: !InFlight(After(run[..i], reuse), p)
    ensures After(run, reuse).count == |run|
    ensures forall p :: InFlight(After(run, reuse), p) ==> After(run, reuse).callers[p].turn >= i
    decreases |run|
  {
    hide InFlight, Enabled, Next;
    CountIs(run, reuse);
    if i == |run| {
      assert run[..i] == run;
    } else {
      var n := |run| - 1;
      assert run[..n][..i] == run[..i];
      LaterIssuesAreNewer(run[..n], i, reuse);
      CountIs(run[..n], reuse);
      StepIssuesNewer(After(run[..n], reuse), run[n], reuse, i);
    }
  }

  lemma {:induction false} ValidPrefix(run: seq<Timed>, k: nat, reuse: int)
    requires Valid(run, reuse) && k <= |run|
    ensures Valid(run[..k], reuse)
    decreases |run|
  {
    hide After, Enabled;
    if k == |run| {
      assert run[..k] == run;
    } else {
      ValidPrefix(run[..|run| - 1], k, reuse);
      assert run[..|run| - 1][..k] == run[..k];
    }
  }

  /** so a link handed out after such an invalidation was asked for after it; */
  lemma HitIsNewer(run: seq<Timed>, i: nat, reuse: int)
    requires run != [] && Valid(run, reuse) && run[|run| - 1].event.Hit?
    requires i < |run| && run[i].event.Forget? && forall p :: !InFlight(After(run[..i], reuse), p)
    ensures var n := |run| - 1;
            var s := After(run[..n], reuse);
            && At(s, run[n].event.p) && s.callers[run[n].event.p].Waiting?
            && var f := s.callers[run[n].event.p].field;
               && f in s.hash.entries
               && exists k: nat :: i < k < n && StoredBy(run, k, f, s.hash.entries[f], reuse)
                                   && After(run[..k], reuse).callers[run[k].event.p].turn >= i
  {
    HitIsSound(run, reuse);
    hide After, Enabled, Next, ReuseTtl, InFlight;
    var n := |run| - 1;
    var s := After(run[..n], reuse);
    var f := s.callers[run[n].event.p].field;
    var k: nat :| SoundSource(run, k, n, f, s.hash.entries[f], reuse);
    assert i < k;
    ValidPrefix(run, k, reuse);
    assert run[..k][..i] == run[..i];
    LaterIssuesAreNewer(run[..k], i, reuse);
    AtProvider(After(run[..k], reuse), run[k].event.p);
  }

  lemma AtProvider(s: State, p: Pid)
    requires At(s, p) && s.callers[p].Storing?
    ensures InFlight(s, p)
  {
  }

  lemma StepIssuesNewer(s: State, t: Timed, reuse: int, i: nat)
    requires Enabled(s, t) && s.count >= i && forall p :: InFlight(s, p) ==> s.callers[p].turn >= i
    ensures forall p :: InFlight(Next(s, t, reuse), p) ==> Next(s, t, reuse).callers[p].turn >= i
  {
    hide ReuseTtl, Stored, Cached, LockFree;
  }

  lemma {:induction false} CountIs(run: seq<Timed>, reuse: int)
    requires Valid(run, reuse)
    ensures After(run, reuse).count == |run|
    decreases |run|
  {
    hide ReuseTtl, Stored, Cached, LockFree, Enabled;
    if run != [] {
      CountIs(run[..|run| - 1], reuse);
    }
  }

  /** but a link whose issue was under way can be stored after it and handed out. So stale hand-outs are
      possible exactly if someone was at the provider. The last event hands out a link stored after event
      `i`, by a caller that went to the provider before it. */
  ghost predicate HandsOutOlder(run: seq<Timed>, i: nat, reuse: int) {
    && i + 1 < |run| && Valid(run, reuse) && run[i].event.Forget? && run[|run| - 1].event.Hit?
    && var n := |run| - 1;
       var s := After(run[..n], reuse);
       && At(s, run[n].event.p) && !s.callers[run[n].event.p].Finished?
       && var f := s.callers[run[n].event.p].field;
          && f in s.hash.entries
          && exists k: nat :: OlderSource(run, k, i, f, s.hash.entries[f], reuse)
  }

  ghost predicate OlderSource(run: seq<Timed>, k: nat, i: nat, f: Field, entry: Entry, reuse: int) {
    i < k < |run| - 1 && StoredBy(run, k, f, entry, reuse) && After(run[..k], reuse).callers[run[k].event.p].turn < i
  }

  ghost predicate Leaks(run: seq<Timed>, now: Time, more: seq<Timed>, reuse: int) {
    HandsOutOlder(run + [Timed(Forget, now)] + more, |run|, reuse)
  }

  /** For every run and every moment of an invalidation: some continuation hands out a link asked for
      before it iff a caller is at the provider, its answer still to come or still to be stored. */
  lemma ForgetLeaksIff(run: seq<Timed>, now: Time, reuse: int)
    requires Valid(run, reuse) && reuse > 0 && (run != [] ==> run[|run| - 1].now <= now)
    ensures (exists more :: Leaks(run, now, more, reuse)) <==> exists p :: InFlight(After(run, reuse), p)
  {
    hide Valid, After, HandsOutOlder, InFlight;
    if more :| Leaks(run, now, more, reuse) {
      OlderWasInFlight(run, run + [Timed(Forget, now)] + more, reuse);
    }
    if p :| InFlight(After(run, reuse), p) {
      var more := Leak(run, now, p, reuse);
      assert Leaks(run, now, more, reuse);
    }
  }

  lemma OlderWasInFlight(run: seq<Timed>, longer: seq<Timed>, reuse: int)
    requires run <= longer && HandsOutOlder(longer, |run|, reuse)
    ensures exists p :: InFlight(After(run, reuse), p)
  {
    hide Enabled, Next, ReuseTtl, Valid, After, InFlight;
    var i, n := |run|, |longer| - 1;
    var s := After(longer[..n], reuse);
    var f := s.callers[longer[n].event.p].field;
    var k: nat :| OlderSource(longer, k, i, f, s.hash.entries[f], reuse);
    if forall p :: !InFlight(After(run, reuse), p) {
      ValidPrefix(longer, k, reuse);
      assert longer[..k][..i] == run;
      LaterIssuesAreNewer(longer[..k], i, reuse);
      AtProvider(After(longer[..k], reuse), longer[k].event.p);
    }
  }

  /** One more event, at the same moment. */
  lemma Then(run: seq<Timed>, t: Timed, reuse: int)
    requires Valid(run, reuse) && Enabled(After(run, reuse), t) && (run != [] ==> run[|run| - 1].now <= t.now)
    ensures Valid(run + [t], reuse) && After(run + [t], reuse) == Next(After(run, reuse), t, reuse)
  {
    hide Enabled, Next;
    assert (run + [t])[..|run|] == run;
  }

  lemma {:induction false} TurnsArePast(run: seq<Timed>, reuse: int)
    requires Valid(run, reuse)
    ensures forall p :: InFlight(After(run, reuse), p) ==> After(run, reuse).callers[p].turn < After(run, reuse).count
    decreases |run|
  {
    hide ReuseTtl, Stored, Cached, LockFree;
    if run != [] {
      TurnsArePast(run[..|run| - 1], reuse);
    }
  }

  /** There is always a caller who has not begun. */
  lemma {:induction false} Largest(pids: set<Pid>) returns (q: Pid)
    ensures forall p :: p in pids ==> p < q
    decreases pids
  {
    q := 0;
    if pids != {} {
      var p :| p in pids;
      var rest := Largest(pids - {p});
      q := if p < rest then rest else p + 1;
      assert forall x :: x in pids ==> x == p || x in pids - {p};
    }
  }

  lemma {:induction false} StaysReadable(run: seq<Timed>, reuse: int)
    requires Valid(run, reuse)
    ensures forall p :: At(After(run, reuse), p) && After(run, reuse).callers[p].Storing? ==>
              After(run, reuse).callers[p].link.url != ""
    decreases |run|
  {
    hide ReuseTtl, Stored, Cached, LockFree;
    if run != [] {
      StaysReadable(run[..|run| - 1], reuse);
    }
  }

  /** What the store and a later caller's look-up make of the entry. */
  lemma StoredIsHit(s: State, p: Pid, q: Pid, now: Time, reuse: int)
    requires At(s, p) && s.callers[p].Storing? && !At(s, q) && p != q && reuse > 0
    requires s.callers[p].ttl > 0 && s.callers[p].link.url != ""
    ensures Enabled(s, Timed(Store(p), now))
    ensures var c := s.callers[p];
            var s1 := Next(s, Timed(Store(p), now), reuse);
            && Enabled(s1, Timed(Begin(q, c.field), now))
            && var s2 := Next(s1, Timed(Begin(q, c.field), now), reuse);
            && At(s2, q) && s2.callers[q] == Waiting(c.field, now) && c.field in s2.hash.entries
            && s2.hash.entries[c.field] == Entry(c.link, now + c.ttl * SECOND)
            && Enabled(s2, Timed(Hit(q), now))
  {
    hide ReuseTtl;
  }

  /** From a caller about to store: it stores, and another caller hits, all at one moment. */
  lemma LeakStored(run: seq<Timed>, now: Time, p: Pid, i: nat, reuse: int) returns (more: seq<Timed>)
    requires Valid(run, reuse) && reuse > 0 && i < |run| && run[i].event.Forget? && run[|run| - 1].now <= now
    requires var s := After(run, reuse); At(s, p) && s.callers[p].Storing? && s.callers[p].turn < i
    ensures HandsOutOlder(run + more, i, reuse)
  {
    var s := After(run, reuse);
    var c := s.callers[p];
    StaysPriced(run, reuse, now);
    StaysReadable(run, reuse);
    var q := Largest(s.callers.Keys);
    hide Valid, After, Next, Enabled, ReuseTtl;
    StoredIsHit(s, p, q, now, reuse);
    var stored := run + [Timed(Store(p), now)];
    var begun := stored + [Timed(Begin(q, c.field), now)];
    var hit := begun + [Timed(Hit(q), now)];
    Then(run, stored[|run|], reuse);
    Then(stored, begun[|run| + 1], reuse);
    Then(begun, hit[|run| + 2], reuse);
    more := [stored[|run|], begun[|run| + 1], hit[|run| + 2]];
    assert run + more == hit && hit[..|run|] == run && hit[..|begun|] == begun;
    assert StoredBy(hit, |run|, c.field, Entry(c.link, now + c.ttl * SECOND), reuse);
    assert OlderSource(hit, |run|, i, c.field, Entry(c.link, now + c.ttl * SECOND), reuse);
  }

  const PAGE: Link := Link("pay", "https://pay", None)

  lemma AnswerIsPriced(s: State, p: Pid, now: Time, reuse: int)
    requires At(s, p) && s.callers[p].Issuing? && reuse > 0
    ensures Enabled(s, Timed(Answer(p, PAGE), now))
    ensures var s' := Next(s, Timed(Answer(p, PAGE), now), reuse);
            At(s', p) && s'.callers[p].Storing? && s'.callers[p].turn == s.callers[p].turn
  {
  }

  /** The continuation: the invalidation, then the caller's answer if it is still to come, then its store. */
  lemma Leak(run: seq<Timed>, now: Time, p: Pid, reuse: int) returns (more: seq<Timed>)
    requires Valid(run, reuse) && reuse > 0 && (run != [] ==> run[|run| - 1].now <= now)
    requires InFlight(After(run, reuse), p)
    ensures Leaks(run, now, more, reuse)
  {
    TurnsArePast(run, reuse);
    CountIs(run, reuse);
    var forgotten := run + [Timed(Forget, now)];
    Then(run, Timed(Forget, now), reuse);
    hide Valid, After, HandsOutOlder, ReuseTtl;
    if After(run, reuse).callers[p].Storing? {
      more := LeakStored(forgotten, now, p, |run|, reuse);
    } else {
      AnswerIsPriced(After(forgotten, reuse), p, now, reuse);
      hide Enabled, Next;
      Then(forgotten, Timed(Answer(p, PAGE), now), reuse);
      var answered := forgotten + [Timed(Answer(p, PAGE), now)];
      var rest := LeakStored(answered, now, p, |run|, reuse);
      more := [Timed(Answer(p, PAGE), now)] + rest;
      assert forgotten + more == answered + rest;
    }
  }
}
