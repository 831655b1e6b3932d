/** The sliding-window limiter over pruned, expiring sorted sets, against the full request history.

    Scores are the attempts' timestamps. Members carry a fresh uuid, so adding one never replaces another
    and a sorted set is the sequence of its scores in order of arrival. */
module RateLimit {
  import opened Base

  type Time = real

  /** Every attempt ever made on each key, admitted or refused. */
  type History = map<string, seq<Time>>

  function Attempts(h: History, key: string): seq<Time> {
    if key in h then h[key] else []
  }

  /** The attempts later than `cutoff`. */
  function Recent(times: seq<Time>, cutoff: Time): (r: seq<Time>)
    ensures |r| <= |times|
  {
    if times == [] then []
    else
      var n := |times| - 1;
      Recent(times[..n], cutoff) + if times[n] > cutoff then [times[n]] else []
  }

  predicate Ordered(times: seq<Time>, now: Time) {
    && (forall i, j :: 0 <= i < j < |times| ==> times[i] <= times[j])
    && forall i :: 0 <= i < |times| ==> 0.0 <= times[i] <= now
  }

  lemma {:induction false} RecentAppend(a: seq<Time>, b: seq<Time>, cutoff: Time)
    ensures Recent(a + b, cutoff) == Recent(a, cutoff) + Recent(b, cutoff)
    decreases |b|
  {
    if b == [] {
      assert a + b == a;
    } else {
      assert (a + b)[..|a + b| - 1] == a + b[..|b| - 1];
      RecentAppend(a, b[..|b| - 1], cutoff);
    }
  }

  lemma {:induction false} RecentTwice(times: seq<Time>, early: Time, late: Time)
    requires early <= late
    ensures Recent(Recent(times, early), late) == Recent(times, late)
    decreases |times|
  {
    if times != [] {
      var n := |times| - 1;
      RecentTwice(times[..n], early, late);
      RecentAppend(Recent(times[..n], early), if times[n] > early then [times[n]] else [], late);
    }
  }

  lemma {:induction false} RecentNone(times: seq<Time>, cutoff: Time)
    requires forall i :: 0 <= i < |times| ==> times[i] <= cutoff
    ensures Recent(times, cutoff) == []
    decreases |times|
  {
    if times != [] {
      RecentNone(times[..|times| - 1], cutoff);
    }
  }

  /** An earlier cutoff sees at least as many attempts. */
  lemma {:induction false} RecentMonotone(times: seq<Time>, early: Time, late: Time)
    requires early <= late
    ensures |Recent(times, late)| <= |Recent(times, early)|
    decreases |times|
  {
    if times != [] {
      RecentMonotone(times[..|times| - 1], early, late);
    }
  }

  /** One bucket of a call: a Redis key and its limit. */
  datatype Bucket = Bucket(key: string, limit: int)

  /** The decision on the full history: this attempt and the attempts in `(now - window, now]`. */
  predicate Admits(h: History, b: Bucket, window: Time, now: Time) {
    |Recent(Attempts(h, b.key), now - window)| + 1 <= b.limit
  }

  function Recorded(h: History, key: string, now: Time): History {
    h[key := Attempts(h, key) + [now]]
  }

  /** Buckets are tried in order; the first refusal ends the call, later buckets see no attempt. */
  function Enforced(h: History, buckets: seq<Bucket>, window: Time, now: Time): (History, bool)
    decreases |buckets|
  {
    if buckets == [] then (h, true)
    else
      var n := |buckets| - 1;
      var (before, passed) := Enforced(h, buckets[..n], window, now);
      if passed then (Recorded(before, buckets[n].key, now), Admits(before, buckets[n], window, now))
      else (before, false)
  }

  lemma EnforcedStep(h: History, buckets: seq<Bucket>, i: nat, window: Time, now: Time)
    requires i < |buckets|
    ensures var (before, passed) := Enforced(h, buckets[..i], window, now);
            Enforced(h, buckets[..i + 1], window, now) ==
              if passed then (Recorded(before, buckets[i].key, now), Admits(before, buckets[i], window, now)) else (before, false)
  {
    assert buckets[..i + 1][..i] == buckets[..i];
  }

  datatype SortedSet = SortedSet(scores: seq<Time>, expiresAt: Time)

  /** What a stored set keeps of the attempts on its key: what the last call left, expiring a window
      after that call. */
  ghost predicate Stored(times: seq<Time>, z: SortedSet, window: Time) {
    && times != []
    && var n := |times| - 1;
    && Ordered(times, times[n])
    && z == SortedSet(Recent(times[..n], times[n] - window) + [times[n]], times[n] + window)
  }

  /** The members a command sees at `now`: none once the key has expired. */
  function Live(z: SortedSet, now: Time): seq<Time> {
    if now < z.expiresAt then z.scores else []
  }

  /** What the pruned, expiring set still holds is exactly the recent part of the full history. */
  lemma LiveIsRecent(times: seq<Time>, z: SortedSet, window: Time, now: Time)
    requires Stored(times, z, window) && Ordered(times, now)
    ensures Recent(Live(z, now), now - window) == Recent(times, now - window)
  {
    hide Recent;
    var n := |times| - 1;
    var last := times[n];
    assert times == times[..n] + [last];
    if now < z.expiresAt {
      RecentAppend(Recent(times[..n], last - window), [last], now - window);
      RecentTwice(times[..n], last - window, now - window);
      RecentAppend(times[..n], [last], now - window);
    } else {
      RecentNone(times, now - window);
    }
  }

  lemma StoredAfter(times: seq<Time>, window: Time, now: Time)
    requires Ordered(times, now) && 0.0 <= now
    ensures Stored(times + [now], SortedSet(Recent(times, now - window) + [now], now + window), window)
    ensures Ordered(times + [now], now)
  {
    hide Recent;
    assert (times + [now])[..|times|] == times;
  }

  lemma EmptyOrdered(now: Time)
    ensures Ordered([], now)
  {
  }

  class Limiter {
    const window: Time
    var zsets: map<string, SortedSet>
    ghost var history: History

    constructor (window: Time)
      ensures this.window == window && history == map[] && Valid()
    {
      this.window := window;
      zsets := map[];
      history := map[];
    }

    ghost predicate Valid()
      reads this
    {
      zsets.Keys == history.Keys && forall key :: key in history ==> Stored(history[key], zsets[key], window)
    }

    /** Timestamps do not run backwards on any key. */
    ghost predicate NotBefore(now: Time)
      reads this
    {
      0.0 <= now && forall key :: key in history ==> Ordered(history[key], now)
    }

    /** Drop the expired scores, add this attempt, count, and renew the expiry, in one transaction. */
    method Allow(b: Bucket, now: Time) returns (ok: bool)
      requires Valid() && NotBefore(now)
      modifies this
      ensures Valid() && NotBefore(now)
      ensures history == Recorded(old(history), b.key, now)
      ensures ok == Admits(old(history), b, window, now)
    {
      hide Recent, Stored, Ordered;
      ghost var before := Attempts(history, b.key);
      var live := if b.key in zsets then Live(zsets[b.key], now) else [];
      if b.key in zsets {
        LiveIsRecent(history[b.key], zsets[b.key], window, now);
      }
      assert Ordered(before, now) by { EmptyOrdered(now); }
      var scores := Recent(live, now - window) + [now];
      StoredAfter(before, window, now);
      zsets := zsets[b.key := SortedSet(scores, now + window)];
      history := Recorded(history, b.key, now);
      ok := |scores| <= b.limit;
    }

    method EnforceChatLimits(user: string, device: Option<string>, ip: Option<string>, limits: (int, int, int), now: Time)
      returns (allowed: bool)
      requires Valid() && NotBefore(now)
      modifies this
      ensures Valid() && NotBefore(now)
      ensures (history, allowed) == Enforced(old(history), ChatBuckets(user, device, ip, limits), window, now)
    {
      hide ChatBuckets, Admits, Stored, Ordered;
      var checks := ChatBuckets(user, device, ip, limits);
      for i := 0 to |checks|
        invariant Valid() && NotBefore(now)
        invariant (history, true) == Enforced(old(history), checks[..i], window, now)
      {
        EnforcedStep(old(history), checks, i, window, now);
        var ok := Allow(checks[i], now);
        if !ok {
          RefusalEnds(old(history), checks, i + 1, window, now);
          return false;
        }
      }
      assert checks[..|checks|] == checks;
      allowed := true;
    }
  }

  lemma {:induction false} RefusalEnds(h: History, buckets: seq<Bucket>, i: nat, window: Time, now: Time)
    requires i <= |buckets| && !Enforced(h, buckets[..i], window, now).1
    ensures Enforced(h, buckets, window, now) == Enforced(h, buckets[..i], window, now)
    decreases |buckets|
  {
    if i == |buckets| {
      assert buckets[..i] == buckets;
    } else {
      assert buckets[..|buckets| - 1][..i] == buckets[..i];
      RefusalEnds(h, buckets[..|buckets| - 1], i, window, now);
    }
  }

  /** Absent or empty device and address are not limited. */
  function ChatBuckets(user: string, device: Option<string>, ip: Option<string>, limits: (int, int, int)): seq<Bucket> {
    [Bucket("rl:user:" + user, limits.0)]
    + (if device.Some? && device.value != "" then [Bucket("rl:dev:" + device.value, limits.1)] else [])
    + (if ip.Some? && ip.value != "" then [Bucket("rl:ip:" + ip.value, limits.2)] else [])
  }

  // ----- The bound over a whole run -----

  datatype Request = Request(buckets: seq<Bucket>, time: Time)

  function HistoryAfter(requests: seq<Request>, window: Time): History
    decreases |requests|
  {
    if requests == [] then map[]
    else
      var n := |requests| - 1;
      Enforced(HistoryAfter(requests[..n], window), requests[n].buckets, window, requests[n].time).0
  }

  predicate AdmittedAt(requests: seq<Request>, n: nat, window: Time)
    requires n < |requests|
  {
    Enforced(HistoryAfter(requests[..n], window), requests[n].buckets, window, requests[n].time).1
  }

  predicate Uses(r: Request, key: string) {
    exists i :: 0 <= i < |r.buckets| && r.buckets[i].key == key
  }

  /** Admitted requests on `key` with a time in `(after, upTo]`. */
  function AdmittedCount(requests: seq<Request>, window: Time, key: string, after: Time, upTo: Time): nat
    decreases |requests|
  {
    if requests == [] then 0
    else
      var n := |requests| - 1;
      AdmittedCount(requests[..n], window, key, after, upTo)
      + if AdmittedAt(requests, n, window) && Uses(requests[n], key) && after < requests[n].time <= upTo then 1 else 0
  }

  lemma RecordedMeaning(h: History, at: string, now: Time, key: string, cutoff: Time)
    ensures |Recent(Attempts(Recorded(h, at, now), key), cutoff)|
            == |Recent(Attempts(h, key), cutoff)| + if at == key && cutoff < now then 1 else 0
  {
    RecentAppend(Attempts(h, at), [now], cutoff);
  }

  /** A call never removes attempts, and an admitted one is recorded on each of its buckets. */
  lemma {:induction false} EnforcedRecords(h: History, buckets: seq<Bucket>, window: Time, now: Time, key: string, cutoff: Time)
    ensures var (h', ok) := Enforced(h, buckets, window, now);
            && |Recent(Attempts(h, key), cutoff)| <= |Recent(Attempts(h', key), cutoff)|
            && (ok && (exists i :: 0 <= i < |buckets| && buckets[i].key == key) && cutoff < now ==>
                |Recent(Attempts(h, key), cutoff)| + 1 <= |Recent(Attempts(h', key), cutoff)|)
    decreases |buckets|
  {
    hide Recent, Attempts, Recorded, Admits;
    if buckets != [] {
      var n := |buckets| - 1;
      EnforcedRecords(h, buckets[..n], window, now, key, cutoff);
      RecordedMeaning(Enforced(h, buckets[..n], window, now).0, buckets[n].key, now, key, cutoff);
      assert forall i :: 0 <= i < n ==> buckets[..n][i] == buckets[i];
    }
  }

  /** An admitted call was within the limit of each of its buckets. */
  lemma {:induction false} EnforcedWithin(h: History, buckets: seq<Bucket>, window: Time, now: Time, i: nat)
    requires i < |buckets| && Enforced(h, buckets, window, now).1
    ensures |Recent(Attempts(h, buckets[i].key), now - window)| + 1 <= buckets[i].limit
    decreases |buckets|
  {
    hide Recent, Attempts, Recorded;
    var n := |buckets| - 1;
    if i == n {
      EnforcedRecords(h, buckets[..n], window, now, buckets[n].key, now - window);
    } else {
      EnforcedWithin(h, buckets[..n], window, now, i);
    }
  }

  /** Every admitted request is among the recorded attempts. */
  lemma {:induction false} AdmittedAreRecorded(requests: seq<Request>, window: Time, key: string, after: Time, upTo: Time)
    ensures AdmittedCount(requests, window, key, after, upTo) <= |Recent(Attempts(HistoryAfter(requests, window), key), after)|
    decreases |requests|
  {
    if requests != [] {
      var n := |requests| - 1;
      AdmittedAreRecorded(requests[..n], window, key, after, upTo);
      EnforcedRecords(HistoryAfter(requests[..n], window), requests[n].buckets, window, requests[n].time, key, after);
    }
  }

  /** The numeric bound: whatever requests arrive, any interval `(t - window, t]` holds at most `limit`
      admitted requests on a key (a user, a device or an address) that is limited to `limit`. */
  lemma {:induction false} WindowBound(requests: seq<Request>, window: Time, key: string, limit: int, t: Time)
    requires forall i, j :: 0 <= i < |requests| && 0 <= j < |requests[i].buckets| && requests[i].buckets[j].key == key ==>
               requests[i].buckets[j].limit == limit
    ensures AdmittedCount(requests, window, key, t - window, t) <= Max(0, limit)
    decreases |requests|
  {
    hide Recent, Attempts, Enforced;
    if requests != [] {
      var n := |requests| - 1;
      var r := requests[n];
      WindowBound(requests[..n], window, key, limit, t);
      if AdmittedAt(requests, n, window) && Uses(r, key) && t - window < r.time <= t {
        var before := HistoryAfter(requests[..n], window);
        AdmittedAreRecorded(requests[..n], window, key, t - window, t);
        RecentMonotone(Attempts(before, key), r.time - window, t - window);
        var i :| 0 <= i < |r.buckets| && r.buckets[i].key == key;
        assert requests[n].buckets[i].limit == limit;
        EnforcedWithin(before, r.buckets, window, r.time, i);
      }
    }
  }

  // ----- The same, counted by the calls' own users, devices and addresses -----

  datatype ChatCall = ChatCall(user: string, device: Option<string>, ip: Option<string>, time: Time)

  datatype Who = User(name: string) | Device(name: string) | Address(name: string)

  /** The call is this user's, comes from this device, or from this address; the empty text names none. */
  predicate Of(c: ChatCall, who: Who) {
    match who
    case User(name) => c.user == name
    case Device(name) => c.device == Some(name) && name != ""
    case Address(name) => c.ip == Some(name) && name != ""
  }

  function LimitOf(limits: (int, int, int), who: Who): int {
    match who
    case User(_) => limits.0
    case Device(_) => limits.1
    case Address(_) => limits.2
  }

  function Requests(calls: seq<ChatCall>, limits: (int, int, int)): (requests: seq<Request>)
    ensures |requests| == |calls|
  {
    seq(|calls|, i requires 0 <= i < |calls| =>
      Request(ChatBuckets(calls[i].user, calls[i].device, calls[i].ip, limits), calls[i].time))
  }

  predicate CallAdmitted(calls: seq<ChatCall>, n: nat, limits: (int, int, int), window: Time)
    requires n < |calls|
  {
    AdmittedAt(Requests(calls, limits), n, window)
  }

  /** Admitted calls of `who` with a time in `(after, upTo]`. */
  function AdmittedOf(calls: seq<ChatCall>, limits: (int, int, int), window: Time, who: Who, after: Time, upTo: Time): nat
    decreases |calls|
  {
    if calls == [] then 0
    else
      var n := |calls| - 1;
      AdmittedOf(calls[..n], limits, window, who, after, upTo)
      + if CallAdmitted(calls, n, limits, window) && Of(calls[n], who) && after < calls[n].time <= upTo then 1 else 0
  }

  /** All calls of `who` later than `after`, refused ones included. */
  function CallsOf(calls: seq<ChatCall>, who: Who, after: Time): nat
    decreases |calls|
  {
    if calls == [] then 0
    else CallsOf(calls[..|calls| - 1], who, after)
         + if Of(calls[|calls| - 1], who) && after < calls[|calls| - 1].time then 1 else 0
  }

  function KeyOf(who: Who): string {
    match who
    case User(name) => "rl:user:" + name
    case Device(name) => "rl:dev:" + name
    case Address(name) => "rl:ip:" + name
  }

  /** Keys of different users, devices or addresses never coincide, not even across the kinds. */
  lemma KeysDiffer(a: Who, b: Who)
    requires KeyOf(a) == KeyOf(b)
    ensures a == b
  {
    var key := KeyOf(a);
    assert key[3] == KeyOf(b)[3];
    var n := if a.User? then 8 else if a.Device? then 7 else 6;
    assert key[n..] == a.name && KeyOf(b)[n..] == b.name;
  }

  lemma BucketsOf(c: ChatCall, limits: (int, int, int), who: Who)
    ensures var r := Request(ChatBuckets(c.user, c.device, c.ip, limits), c.time);
            && (Uses(r, KeyOf(who)) <==> Of(c, who))
            && (forall j :: 0 <= j < |r.buckets| && r.buckets[j].key == KeyOf(who) ==> r.buckets[j].limit == LimitOf(limits, who))
  {
    hide KeyOf;
    var buckets := ChatBuckets(c.user, c.device, c.ip, limits);
    var device := c.device.Some? && c.device.value != "";
    var ip := c.ip.Some? && c.ip.value != "";
    BucketsAre(c, limits);
    if buckets[0].key == KeyOf(who) { KeysDiffer(User(c.user), who); }
    if device && buckets[1].key == KeyOf(who) { KeysDiffer(Device(c.device.value), who); }
    if ip && buckets[|buckets| - 1].key == KeyOf(who) { KeysDiffer(Address(c.ip.value), who); }
  }

  /** One bucket for the user, one for a named device, one for a named address. */
  lemma BucketsAre(c: ChatCall, limits: (int, int, int))
    ensures var buckets := ChatBuckets(c.user, c.device, c.ip, limits);
            var device := c.device.Some? && c.device.value != "";
            var ip := c.ip.Some? && c.ip.value != "";
            && |buckets| == 1 + (if device then 1 else 0) + (if ip then 1 else 0)
            && buckets[0] == Bucket(KeyOf(User(c.user)), limits.0)
            && (device ==> buckets[1] == Bucket(KeyOf(Device(c.device.value)), limits.1))
            && (ip ==> buckets[|buckets| - 1] == Bucket(KeyOf(Address(c.ip.value)), limits.2))
  {
  }

  lemma {:induction false} CountsAgree(calls: seq<ChatCall>, limits: (int, int, int), window: Time, who: Who, after: Time, upTo: Time)
    ensures AdmittedOf(calls, limits, window, who, after, upTo)
            == AdmittedCount(Requests(calls, limits), window, KeyOf(who), after, upTo)
    decreases |calls|
  {
    hide ChatBuckets, KeyOf, Enforced, HistoryAfter, Uses, Of;
    if calls != [] {
      var n := |calls| - 1;
      assert Requests(calls[..n], limits) == Requests(calls, limits)[..n];
      CountsAgree(calls[..n], limits, window, who, after, upTo);
      BucketsOf(calls[n], limits, who);
    }
  }

  /** Whatever calls arrive, in any interval of one window at most `limits.0` calls of a user, `limits.1` of a
      device and `limits.2` of an address are admitted. */
  lemma ChatBound(calls: seq<ChatCall>, limits: (int, int, int), window: Time, who: Who, t: Time)
    ensures AdmittedOf(calls, limits, window, who, t - window, t) <= Max(0, LimitOf(limits, who))
  {
    hide ChatBuckets, KeyOf, AdmittedCount, AdmittedOf;
    var requests := Requests(calls, limits);
    CountsAgree(calls, limits, window, who, t - window, t);
    forall i, j | 0 <= i < |requests| && 0 <= j < |requests[i].buckets| && requests[i].buckets[j].key == KeyOf(who)
      ensures requests[i].buckets[j].limit == LimitOf(limits, who)
    {
      BucketsOf(calls[i], limits, who);
    }
    WindowBound(requests, window, KeyOf(who), LimitOf(limits, who), t);
  }

  // ----- And no call is refused without cause -----

  predicate DistinctKeys(buckets: seq<Bucket>) {
    forall i, j :: 0 <= i < j < |buckets| ==> buckets[i].key != buckets[j].key
  }

  /** A call leaves a key's attempts alone, or adds itself; only to its own keys, and always to the first. */
  lemma {:induction false} EnforcedAdds(h: History, buckets: seq<Bucket>, window: Time, now: Time, key: string)
    requires DistinctKeys(buckets)
    ensures var after := Attempts(Enforced(h, buckets, window, now).0, key);
            && (after == Attempts(h, key) || after == Attempts(h, key) + [now])
            && (after != Attempts(h, key) ==> exists i :: 0 <= i < |buckets| && buckets[i].key == key)
            && (buckets != [] && buckets[0].key == key ==> after == Attempts(h, key) + [now])
    decreases |buckets|
  {
    hide Admits;
    if buckets != [] {
      var n := |buckets| - 1;
      EnforcedAdds(h, buckets[..n], window, now, key);
      assert forall i :: 0 <= i < n ==> buckets[..n][i] == buckets[i];
    }
  }

  /** A call is admitted iff every one of its buckets has room for it. */
  lemma {:induction false} EnforcedIff(h: History, buckets: seq<Bucket>, window: Time, now: Time)
    requires DistinctKeys(buckets)
    ensures Enforced(h, buckets, window, now).1 <==> forall i :: 0 <= i < |buckets| ==> Admits(h, buckets[i], window, now)
    decreases |buckets|
  {
    if buckets != [] {
      var n := |buckets| - 1;
      EnforcedIff(h, buckets[..n], window, now);
      assert forall i :: 0 <= i < n ==> buckets[..n][i] == buckets[i];
      EnforcedAdds(h, buckets[..n], window, now, buckets[n].key);
      assert Attempts(Enforced(h, buckets[..n], window, now).0, buckets[n].key) == Attempts(h, buckets[n].key);
      hide Recent, Attempts;
    }
  }

  lemma BucketsDistinct(c: ChatCall, limits: (int, int, int))
    ensures DistinctKeys(ChatBuckets(c.user, c.device, c.ip, limits))
  {
    hide KeyOf;
    BucketsAre(c, limits);
    var buckets := ChatBuckets(c.user, c.device, c.ip, limits);
    forall i, j | 0 <= i < j < |buckets| ensures buckets[i].key != buckets[j].key {
      if buckets[i].key == buckets[j].key {
        KeysDiffer(if i == 0 then User(c.user) else Device(c.device.value),
                   if j == |buckets| - 1 && c.ip.Some? && c.ip.value != "" then Address(c.ip.value) else Device(c.device.value));
      }
    }
  }

  /** No more attempts are on record than calls were made, and for a user every call is. */
  lemma {:induction false} RecordedAreCalls(calls: seq<ChatCall>, limits: (int, int, int), window: Time, who: Who, after: Time)
    ensures var recorded := |Recent(Attempts(HistoryAfter(Requests(calls, limits), window), KeyOf(who)), after)|;
            recorded <= CallsOf(calls, who, after) && (who.User? ==> recorded == CallsOf(calls, who, after))
    decreases |calls|
  {
    hide ChatBuckets, KeyOf, Of;
    if calls != [] {
      var n := |calls| - 1;
      var c := calls[n];
      var before := HistoryAfter(Requests(calls[..n], limits), window);
      var buckets := ChatBuckets(c.user, c.device, c.ip, limits);
      assert Requests(calls, limits)[..n] == Requests(calls[..n], limits);
      RecordedAreCalls(calls[..n], limits, window, who, after);
      BucketsDistinct(c, limits);
      BucketsOf(c, limits, who);
      EnforcedAdds(before, buckets, window, c.time, KeyOf(who));
      RecentAppend(Attempts(before, KeyOf(who)), [c.time], after);
      UserIsFirst(c, limits, who);
      hide Enforced, Recent, Attempts;
      OneRecent(c.time, after);
    }
  }

  lemma OneRecent(time: Time, after: Time)
    ensures Recent([time], after) == if after < time then [time] else []
  {
    assert [time][..0] == [];
  }

  lemma UserIsFirst(c: ChatCall, limits: (int, int, int), who: Who)
    ensures ChatBuckets(c.user, c.device, c.ip, limits) != []
    ensures who.User? && Of(c, who) ==> ChatBuckets(c.user, c.device, c.ip, limits)[0].key == KeyOf(who)
  {
  }

  /** A call that, with all earlier calls of its user, of its device if it names one, and of its address if it
      names one, stays within each limit in its window, is admitted: an absent or empty device or address
      refuses nothing. */
  lemma QuietCallIsAdmitted(calls: seq<ChatCall>, n: nat, limits: (int, int, int), window: Time)
    requires n < |calls|
    requires forall who :: Of(calls[n], who) ==> CallsOf(calls[..n], who, calls[n].time - window) + 1 <= LimitOf(limits, who)
    ensures CallAdmitted(calls, n, limits, window)
  {
    var c := calls[n];
    var h := HistoryAfter(Requests(calls[..n], limits), window);
    var buckets := ChatBuckets(c.user, c.device, c.ip, limits);
    assert Requests(calls, limits)[..n] == Requests(calls[..n], limits);
    BucketsDistinct(c, limits);
    EnforcedIff(h, buckets, window, c.time);
    hide ChatBuckets, CallsOf, Enforced, HistoryAfter, Admits, Of, LimitOf;
    forall i | 0 <= i < |buckets| ensures Admits(h, buckets[i], window, c.time) {
      RoomInBucket(calls, n, limits, window, i);
    }
  }

  lemma RoomInBucket(calls: seq<ChatCall>, n: nat, limits: (int, int, int), window: Time, i: nat)
    requires n < |calls|
    requires forall who :: Of(calls[n], who) ==> CallsOf(calls[..n], who, calls[n].time - window) + 1 <= LimitOf(limits, who)
    requires i < |ChatBuckets(calls[n].user, calls[n].device, calls[n].ip, limits)|
    ensures Admits(HistoryAfter(Requests(calls[..n], limits), window),
                   ChatBuckets(calls[n].user, calls[n].device, calls[n].ip, limits)[i], window, calls[n].time)
  {
    var c := calls[n];
    BucketsAre(c, limits);
    hide ChatBuckets, KeyOf, CallsOf, HistoryAfter, Recent, Attempts, Requests;
    var who := if i == 0 then User(c.user)
               else if i == |ChatBuckets(c.user, c.device, c.ip, limits)| - 1 && c.ip.Some? && c.ip.value != "" then Address(c.ip.value)
               else Device(c.device.value);
    assert Of(c, who);
    RecordedAreCalls(calls[..n], limits, window, who, c.time - window);
  }

  /** For the user the decision is exact: refused attempts count too, so a call beyond the user's limit in its
      window is refused, and one without device and address is refused only then. */
  lemma UserLimitIsExact(calls: seq<ChatCall>, n: nat, limits: (int, int, int), window: Time)
    requires n < |calls|
    ensures CallAdmitted(calls, n, limits, window) ==>
              CallsOf(calls[..n], User(calls[n].user), calls[n].time - window) + 1 <= limits.0
    ensures calls[n].device == None && calls[n].ip == None ==>
              (CallAdmitted(calls, n, limits, window) <==>
               CallsOf(calls[..n], User(calls[n].user), calls[n].time - window) + 1 <= limits.0)
  {
    var c := calls[n];
    var h := HistoryAfter(Requests(calls[..n], limits), window);
    assert Requests(calls, limits)[..n] == Requests(calls[..n], limits);
    BucketsDistinct(c, limits);
    EnforcedIff(h, ChatBuckets(c.user, c.device, c.ip, limits), window, c.time);
    BucketsAre(c, limits);
    RecordedAreCalls(calls[..n], limits, window, User(c.user), c.time - window);
    hide ChatBuckets, KeyOf, CallsOf, Enforced, HistoryAfter, Recent, Attempts;
  }
}
