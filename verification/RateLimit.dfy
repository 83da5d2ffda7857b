/** The fixed-window rate limiter: one that sweeps expired buckets answers like one
    that never forgets, and what that one admits. */
module RateLimit {
  import opened Options

  // ---- Clients ----

  type Segment = s: nat | s < 0x10000

  datatype Ip = V4(high: Segment, low: Segment) | V6(s: seq<Segment>)

  predicate WellFormed(ip: Ip) { ip.V6? ==> |ip.s| == 8 }

  /** An IPv4-mapped address is the IPv4 address it maps. */
  function Canonical(ip: Ip): Ip
    requires WellFormed(ip)
  {
    if ip.V6? && ip.s[..6] == [0, 0, 0, 0, 0, 0xffff] then V4(ip.s[6], ip.s[7]) else ip
  }

  /** The bucket an address counts against. */
  function BucketKey(ip: Ip): Ip
    requires WellFormed(ip)
  {
    var c := Canonical(ip);
    if c.V6? then V6(c.s[..4] + [0, 0, 0, 0]) else c
  }

  /** Two addresses share a budget exactly when they are one IPv4 client, mapped or
      not, or lie in one IPv6 /64. */
  lemma OneBudgetPerSubscriber(a: Ip, b: Ip)
    requires WellFormed(a) && WellFormed(b)
    ensures BucketKey(a) == BucketKey(b) <==>
      Canonical(a) == Canonical(b) ||
      (Canonical(a).V6? && Canonical(b).V6? && Canonical(a).s[..4] == Canonical(b).s[..4])
  {
    if Canonical(a).V6? && Canonical(b).V6? && BucketKey(a) == BucketKey(b) {
      assert BucketKey(a).s[..4] == Canonical(a).s[..4] && BucketKey(b).s[..4] == Canonical(b).s[..4];
    }
  }

  // ---- The limiter ----

  datatype Bucket = Bucket(start: nat, count: nat)

  datatype Limiter = Limiter(buckets: map<Ip, Bucket>, sweepAt: nat)

  /** At least one request per window. */
  datatype Limit = Limit(max: nat, window: nat) {
    predicate Valid() { max >= 1 }

    predicate Expired(b: Bucket, now: nat) { (if now >= b.start then now - b.start else 0) >= window }
  }

  function Unexpired(l: Limit, buckets: map<Ip, Bucket>, now: nat): map<Ip, Bucket> {
    map k | k in buckets && !l.Expired(buckets[k], now) :: buckets[k]
  }

  function Swept(l: Limit, s: Limiter, now: nat): Limiter {
    if |s.buckets| >= s.sweepAt then Limiter(Unexpired(l, s.buckets, now), |Unexpired(l, s.buckets, now)| * 2 + 64) else s
  }

  /** The bucket a request counts against, opened anew when its window is over. */
  function Current(l: Limit, buckets: map<Ip, Bucket>, key: Ip, now: nat): Bucket {
    if key in buckets && !l.Expired(buckets[key], now) then buckets[key] else Bucket(now, 0)
  }

  function Admit(l: Limit, buckets: map<Ip, Bucket>, key: Ip, now: nat): (map<Ip, Bucket>, bool) {
    var b := Current(l, buckets, key, now);
    if b.count >= l.max then (buckets[key := b], false) else (buckets[key := b.(count := b.count + 1)], true)
  }

  function CheckAt(l: Limit, s: Limiter, key: Ip, now: nat): (Limiter, bool) {
    var swept := Swept(l, s, now);
    var (buckets, ok) := Admit(l, swept.buckets, key, now);
    (swept.(buckets := buckets), ok)
  }

  // ---- A history of requests ----

  datatype Request = Request(key: Ip, now: nat)

  predicate InOrder(reqs: seq<Request>) {
    forall i, j :: 0 <= i < j < |reqs| ==> reqs[i].now <= reqs[j].now
  }

  function Limited(l: Limit, reqs: seq<Request>): (Limiter, seq<bool>) {
    if reqs == [] then (Limiter(map[], 0), [])
    else
      var (s, answers) := Limited(l, reqs[..|reqs| - 1]);
      var (s', ok) := CheckAt(l, s, reqs[|reqs| - 1].key, reqs[|reqs| - 1].now);
      (s', answers + [ok])
  }

  /** The same without ever sweeping. */
  function Remembered(l: Limit, reqs: seq<Request>): (map<Ip, Bucket>, seq<bool>) {
    if reqs == [] then (map[], [])
    else
      var (buckets, answers) := Remembered(l, reqs[..|reqs| - 1]);
      var (buckets', ok) := Admit(l, buckets, reqs[|reqs| - 1].key, reqs[|reqs| - 1].now);
      (buckets', answers + [ok])
  }

  /** What the sweeping limiter forgot had expired. */
  predicate Forgets(l: Limit, swept: map<Ip, Bucket>, all: map<Ip, Bucket>, now: nat) {
    (forall k :: k in swept ==> k in all && all[k] == swept[k]) &&
    (forall k :: k in all && k !in swept ==> l.Expired(all[k], now))
  }

  lemma ForgottenStaysForgotten(l: Limit, swept: map<Ip, Bucket>, all: map<Ip, Bucket>, now: nat, later: nat)
    requires Forgets(l, swept, all, now) && now <= later
    ensures Forgets(l, swept, all, later)
  {
  }

  /** One request gets the same answer from both. */
  lemma OneAnswer(l: Limit, s: Limiter, all: map<Ip, Bucket>, key: Ip, now: nat)
    requires Forgets(l, s.buckets, all, now)
    ensures CheckAt(l, s, key, now).1 == Admit(l, all, key, now).1
    ensures Forgets(l, CheckAt(l, s, key, now).0.buckets, Admit(l, all, key, now).0, now)
  {
    var swept := Swept(l, s, now).buckets;
    assert Forgets(l, swept, all, now);
    assert Current(l, swept, key, now) == Current(l, all, key, now);
  }

  lemma {:induction false} SweepingForgetsOnlyTheExpired(l: Limit, reqs: seq<Request>)
    requires InOrder(reqs)
    ensures Forgets(l, Limited(l, reqs).0.buckets, Remembered(l, reqs).0, if reqs == [] then 0 else reqs[|reqs| - 1].now)
    ensures Limited(l, reqs).1 == Remembered(l, reqs).1
  {
    if reqs != [] {
      var init, last := reqs[..|reqs| - 1], reqs[|reqs| - 1];
      SweepingForgetsOnlyTheExpired(l, init);
      var s, all := Limited(l, init).0, Remembered(l, init).0;
      var then_ := if init == [] then 0 else init[|init| - 1].now;
      ForgottenStaysForgotten(l, s.buckets, all, then_, last.now);
      OneAnswer(l, s, all, last.key, last.now);
    }
  }

  /** For every clock that never goes back, a limiter that sweeps gives the answers of
      one that never forgets. */
  lemma SweepingChangesNoAnswer(l: Limit, reqs: seq<Request>)
    requires InOrder(reqs)
    ensures Limited(l, reqs).1 == Remembered(l, reqs).1
  {
    SweepingForgetsOnlyTheExpired(l, reqs);
  }

  lemma {:induction false} OneAnswerEach(l: Limit, reqs: seq<Request>)
    ensures |Remembered(l, reqs).1| == |reqs|
  {
    if reqs != [] {
      OneAnswerEach(l, reqs[..|reqs| - 1]);
    }
  }

  // ---- What is admitted ----

  /** The requests of a key that were admitted from `from` on and before `to`. */
  function Admitted(reqs: seq<Request>, answers: seq<bool>, key: Ip, from: int, to: int): nat
    requires |answers| == |reqs|
  {
    if reqs == [] then 0
    else
      var n := |reqs| - 1;
      Admitted(reqs[..n], answers[..n], key, from, to) +
      (if answers[n] && reqs[n].key == key && from <= reqs[n].now < to then 1 else 0)
  }

  function AdmittedBy(l: Limit, reqs: seq<Request>, key: Ip, from: int, to: int): nat {
    OneAnswerEach(l, reqs);
    Admitted(reqs, Remembered(l, reqs).1, key, from, to)
  }

  lemma LastRequest(l: Limit, reqs: seq<Request>, key: Ip, from: int, to: int)
    requires reqs != []
    ensures var init, last := reqs[..|reqs| - 1], reqs[|reqs| - 1];
      var (buckets, ok) := Admit(l, Remembered(l, init).0, last.key, last.now);
      Remembered(l, reqs).0 == buckets &&
      AdmittedBy(l, reqs, key, from, to) ==
        AdmittedBy(l, init, key, from, to) + (if ok && last.key == key && from <= last.now < to then 1 else 0)
  {
    var init := reqs[..|reqs| - 1];
    OneAnswerEach(l, init);
    OneAnswerEach(l, reqs);
    assert Remembered(l, reqs).1[..|reqs| - 1] == Remembered(l, init).1;
  }

  lemma {:induction false} NoneAfterTheEnd(l: Limit, reqs: seq<Request>, key: Ip, from: int, to: int)
    requires forall i :: 0 <= i < |reqs| ==> reqs[i].now < from
    ensures AdmittedBy(l, reqs, key, from, to) == 0
  {
    if reqs != [] {
      LastRequest(l, reqs, key, from, to);
      NoneAfterTheEnd(l, reqs[..|reqs| - 1], key, from, to);
    }
  }

  lemma {:induction false} WiderAdmitsMore(l: Limit, reqs: seq<Request>, key: Ip, from: int, from': int, to: int)
    requires from' <= from
    ensures AdmittedBy(l, reqs, key, from, to) <= AdmittedBy(l, reqs, key, from', to)
  {
    if reqs != [] {
      LastRequest(l, reqs, key, from, to);
      LastRequest(l, reqs, key, from', to);
      WiderAdmitsMore(l, reqs[..|reqs| - 1], key, from, from', to);
    }
  }

  /** A bucket's count is what was admitted since its window began, never more than
      the limit, and nothing was admitted after the window ended. */
  lemma {:induction false} BucketsCountTheirWindow(l: Limit, reqs: seq<Request>, key: Ip, to: int)
    requires l.Valid() && l.window > 0 && InOrder(reqs) && forall i :: 0 <= i < |reqs| ==> reqs[i].now < to
    ensures var buckets := Remembered(l, reqs).0;
      if key in buckets then
        (exists i :: 0 <= i < |reqs| && reqs[i].now == buckets[key].start) && buckets[key].count <= l.max &&
        AdmittedBy(l, reqs, key, buckets[key].start, to) == buckets[key].count &&
        AdmittedBy(l, reqs, key, buckets[key].start + l.window, to) == 0
      else AdmittedBy(l, reqs, key, 0, to) == 0
  {
    if reqs != [] {
      var init, last := reqs[..|reqs| - 1], reqs[|reqs| - 1];
      BucketsCountTheirWindow(l, init, key, to);
      var before, after := Remembered(l, init).0, Remembered(l, reqs).0;
      LastRequest(l, reqs, key, 0, to);
      if key in after {
        LastRequest(l, reqs, key, after[key].start, to);
        LastRequest(l, reqs, key, after[key].start + l.window, to);
        if key !in before {
          WiderAdmitsMore(l, init, key, last.now, 0, to);
          WiderAdmitsMore(l, init, key, last.now + l.window, 0, to);
        } else {
          assert before[key].start <= last.now;
          if last.key == key && l.Expired(before[key], last.now) {
            WiderAdmitsMore(l, init, key, last.now, before[key].start + l.window, to);
            WiderAdmitsMore(l, init, key, last.now + l.window, before[key].start + l.window, to);
          }
        }
        if i :| 0 <= i < |init| && init[i].now == after[key].start {
          assert reqs[i] == init[i];
        } else {
          assert reqs[|reqs| - 1].now == after[key].start;
        }
      }
    }
  }

  /** A refused request finds its whole budget admitted within the last window. */
  lemma RefusalsAreEarned(l: Limit, reqs: seq<Request>, key: Ip, now: nat)
    requires l.Valid() && InOrder(reqs) && forall i :: 0 <= i < |reqs| ==> reqs[i].now <= now
    ensures !Admit(l, Remembered(l, reqs).0, key, now).1 ==> AdmittedBy(l, reqs, key, now - l.window + 1, now + 1) >= l.max
  {
    if l.window > 0 && !Admit(l, Remembered(l, reqs).0, key, now).1 {
      BucketsCountTheirWindow(l, reqs, key, now + 1);
      WiderAdmitsMore(l, reqs, key, Remembered(l, reqs).0[key].start, now - l.window + 1, now + 1);
    }
  }

  /** What is known about the bucket of a key, having seen `reqs`, and the requests
      admitted in the interval of one window's length from `t`. */
  predicate Within(l: Limit, reqs: seq<Request>, key: Ip, t: nat) {
    var buckets, admitted := Remembered(l, reqs).0, AdmittedBy(l, reqs, key, t, t + l.window);
    admitted <= 2 * l.max &&
    if key !in buckets then admitted == 0
    else
      buckets[key].count <= l.max &&
      (reqs != [] && buckets[key].start <= reqs[|reqs| - 1].now) &&
      (buckets[key].start < t ==> admitted <= buckets[key].count) &&
      (t <= buckets[key].start < t + l.window ==> admitted <= l.max + buckets[key].count)
  }

  lemma {:induction false} TwoBucketsAtMost(l: Limit, reqs: seq<Request>, key: Ip, t: nat)
    requires l.Valid() && InOrder(reqs)
    ensures Within(l, reqs, key, t)
  {
    if reqs != [] {
      var init, last := reqs[..|reqs| - 1], reqs[|reqs| - 1];
      TwoBucketsAtMost(l, init, key, t);
      LastRequest(l, reqs, key, t, t + l.window);
      if last.now < t {
        NoneAfterTheEnd(l, init, key, t, t + l.window);
      }
    }
  }

  /** At most twice the limit in any interval of one window's length, whatever the
      sequence of requests, and the sweeping limiter admits no more. */
  lemma AtMostTwicePerInterval(l: Limit, reqs: seq<Request>, key: Ip, t: nat)
    requires l.Valid() && InOrder(reqs)
    ensures |Limited(l, reqs).1| == |reqs| && Admitted(reqs, Limited(l, reqs).1, key, t, t + l.window) <= 2 * l.max
  {
    TwoBucketsAtMost(l, reqs, key, t);
    SweepingChangesNoAnswer(l, reqs);
    OneAnswerEach(l, reqs);
  }

  // ---- In place ----

  class RateLimiter {
    const limit: Limit
    var buckets: map<Ip, Bucket>
    var sweepAt: nat

    ghost function State(): Limiter
      reads this
    {
      Limiter(buckets, sweepAt)
    }

    constructor (max: nat, window: nat)
      ensures limit == Limit(if max < 1 then 1 else max, window) && limit.Valid()
      ensures State() == Limited(limit, []).0
    {
      limit, buckets, sweepAt := Limit(if max < 1 then 1 else max, window), map[], 0;
    }

    /** Whether a request now would be refused, without spending any of the budget. */
    method IsExhausted(ip: Ip, now: nat) returns (exhausted: bool)
      requires limit.Valid() && WellFormed(ip)
      ensures exhausted <==> !CheckAt(limit, State(), BucketKey(ip), now).1
    {
      var key := BucketKey(ip);
      exhausted := key in buckets && !limit.Expired(buckets[key], now) && buckets[key].count >= limit.max;
    }

    method Check(ip: Ip, now: nat) returns (ok: bool)
      requires WellFormed(ip)
      modifies this
      ensures (State(), ok) == CheckAt(limit, old(State()), BucketKey(ip), now)
    {
      var key := BucketKey(ip);
      if |buckets| >= sweepAt {
        buckets := map k | k in buckets && !limit.Expired(buckets[k], now) :: buckets[k];
        sweepAt := |buckets| * 2 + 64;
      }
      assert State() == Swept(limit, old(State()), now);
      ghost var swept := buckets;
      if key !in buckets {
        buckets := buckets[key := Bucket(now, 0)];
      }
      if limit.Expired(buckets[key], now) {
        buckets := buckets[key := Bucket(now, 0)];
      }
      assert buckets == swept[key := Current(limit, swept, key, now)];
      if buckets[key].count >= limit.max {
        return false;
      }
      var spent := buckets[key].(count := buckets[key].count + 1);
      buckets := buckets[key := spent];
      assert buckets == swept[key := spent];
      ok := true;
    }
  }

  // ---- Who a request is throttled as ----

  /** The hops right of `n` parse and are trusted proxies. */
  predicate Vouched(chain: seq<Option<Ip>>, trusted: set<Ip>, n: nat)
    requires n <= |chain|
  {
    forall i :: n <= i < |chain| ==> chain[i].Some? && chain[i].value in trusted
  }

  /** The walk from the right ends before hop `n`, at the hop that does not parse or is
      not trusted, if there is one. */
  predicate EndsAt(chain: seq<Option<Ip>>, trusted: set<Ip>, peer: Ip, client: Ip, n: nat)
    requires n <= |chain|
  {
    Vouched(chain, trusted, n) &&
    if n > 0 && chain[n - 1].Some? then chain[n - 1].value !in trusted && client == chain[n - 1].value
    else client == if n < |chain| && chain[n].Some? then chain[n].value else peer
  }

  /** The client is the last address, read from the right, that is written by a proxy
      we trust: the first untrusted one, or the last hop when an entry does not parse
      or none is left. */
  method ClientIp(chain: seq<Option<Ip>>, realIp: Option<Ip>, peer: Ip, trusted: set<Ip>) returns (client: Ip)
    ensures peer !in trusted ==> client == peer
    ensures peer in trusted && chain == [] ==> client == realIp.GetOr(peer)
    ensures peer in trusted && chain != [] ==> exists n: nat | n <= |chain| :: EndsAt(chain, trusted, peer, client, n)
  {
    if peer !in trusted {
      return peer;
    }
    if chain == [] {
      return realIp.GetOr(peer);
    }
    client := peer;
    var n: nat := |chain|;
    while n > 0
      invariant n <= |chain| && Vouched(chain, trusted, n)
      invariant client == if n < |chain| then chain[n].value else peer
    {
      if chain[n - 1].None? {
        break;
      }
      client := chain[n - 1].value;
      if client !in trusted {
        break;
      }
      n := n - 1;
    }
    assert EndsAt(chain, trusted, peer, client, n);
  }
}
