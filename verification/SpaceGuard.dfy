/** Shares of the promised total, and the writer that keeps measuring while it takes what
    it writes off a share. */
module SpaceGuard {
  import opened Space

  const RESERVE_CHECK_INTERVAL: nat := 64 * 1024 * 1024

  class Reservations {
    var promised: nat

    constructor ()
      ensures promised == 0
    {
      promised := 0;
    }

    /** The cap keeps the sum of a few promises from wrapping. */
    method ReserveShare(bytes: nat) returns (share: Reservation)
      modifies this
      ensures fresh(share) && share.pool == this && share.held == Min(bytes, I64_MAX)
      ensures promised == (old(promised) + share.held) % U64
    {
      share := new Reservation(this, if bytes < I64_MAX then bytes else I64_MAX);
      promised := (promised + share.held) % U64;
    }
  }

  class Reservation {
    const pool: Reservations
    var held: nat

    constructor (pool: Reservations, held: nat)
      ensures this.pool == pool && this.held == held
    {
      this.pool, this.held := pool, held;
    }

    /** Never takes off more than its own share. */
    method Consumed(n: nat)
      modifies this, pool
      ensures held == old(held) - Min(n, old(held))
      ensures pool.promised == (old(pool.promised) - (old(held) - held)) % U64
    {
      var take := if n < held then n else held;
      held := held - take;
      pool.promised := (pool.promised - take) % U64;
    }

    method Dropped()
      modifies this, pool
      ensures held == 0 && pool.promised == (old(pool.promised) - old(held)) % U64
    {
      pool.promised := (pool.promised - held) % U64;
      held := 0;
    }
  }

  /** What a measurement on the blocking pool, and a write to the file below, answer when
      they are polled. A volume that cannot be measured is let through. */
  datatype Measured = NotMeasured | Free(bytes: nat) | Unmeasurable

  datatype Inner = NotReady | Took(bytes: nat) | Broke

  datatype Polled = Pending | Full | Broken | Written(bytes: nat)

  class DiskReserve {
    const reserve: nat
    const share: Reservation?
    var unchecked: nat
    var measuring: bool

    constructor (reserve: nat, share: Reservation?)
      ensures this.reserve == reserve && this.share == share && unchecked == 0 && !measuring
    {
      this.reserve, this.share, unchecked, measuring := reserve, share, 0, false;
    }

    ghost predicate Due() reads this { reserve > 0 && (measuring || unchecked >= RESERVE_CHECK_INTERVAL) }

    ghost function Below(): set<object> { if share == null then {} else {share, share.pool} }

    /** A measurement that is due is waited for, without a write, and one that shows less
        than the reserve ends the copy. What is written counts towards the next
        measurement and comes off the share. */
    method PollWrite(measured: Measured, inner: Inner) returns (r: Polled)
      modifies this`unchecked, this`measuring, Below()
      ensures r.Full? <==> old(Due()) && measured.Free? && measured.bytes < reserve
      ensures r.Written? <==> (old(Due()) ==> !measured.NotMeasured? && !r.Full?) && inner.Took?
      ensures r.Written? ==> inner == Took(r.bytes)
      ensures r.Broken? <==> (old(Due()) ==> !measured.NotMeasured? && !r.Full?) && inner.Broke?
      ensures measuring <==> (old(Due()) && measured.NotMeasured?) || (old(measuring) && reserve == 0)
      ensures unchecked == (if old(Due()) && !old(measuring) then 0 else old(unchecked)) + if r.Written? then r.bytes else 0
      ensures share != null ==>
        share.held == old(share.held) - (if r.Written? then Min(r.bytes, old(share.held)) else 0) &&
        share.pool.promised % U64 == (old(share.pool.promised) - (old(share.held) - share.held)) % U64
    {
      if reserve != 0 {
        if !measuring && unchecked >= RESERVE_CHECK_INTERVAL {
          unchecked, measuring := 0, true;
        }
        if measuring {
          if measured.NotMeasured? {
            return Pending;
          }
          measuring := false;
          if measured.Free? && measured.bytes < reserve {
            return Full;
          }
        }
      }
      match inner {
        case NotReady => r := Pending;
        case Broke => r := Broken;
        case Took(n) =>
          unchecked := unchecked + n;
          if share != null {
            share.Consumed(n);
          }
          r := Written(n);
      }
    }
  }

  function Bytes(rs: seq<Polled>): nat {
    if rs == [] then 0 else Bytes(rs[..|rs| - 1]) + if rs[|rs| - 1].Written? then rs[|rs| - 1].bytes else 0
  }

  /** No measurement that ends in this stretch of polls shows as much as the reserve. */
  predicate Low(measured: seq<Measured>, reserve: nat, a: nat, b: nat)
    requires a <= b <= |measured|
  {
    forall i :: a <= i < b ==> measured[i].NotMeasured? || (measured[i].Free? && measured[i].bytes < reserve)
  }

  /** If the volume has been low since poll `a`, at most `limit` bytes went through. */
  predicate AtMost(rs: seq<Polled>, measured: seq<Measured>, reserve: nat, a: nat, limit: nat)
    requires a <= |rs| <= |measured|
  {
    Low(measured, reserve, a, |rs|) ==> Bytes(rs[a..]) <= limit
  }

  lemma TakenOff(promised: int, before: nat, held: nat, n: nat, left: nat, after: nat)
    requires left <= held <= before && after % U64 == (promised - (held - left)) % U64
    ensures promised % U64 == (n - (before - held)) % U64 ==> after % U64 == (n - (before - left)) % U64
  {
    var d := held - left;
    if promised % U64 == (n - (before - held)) % U64 {
      assert (promised - (n - (before - held))) % U64 == 0;
      assert (promised - d) - (n - (before - left)) == promised - (n - (before - held));
      assert ((promised - d) - (n - (before - left))) % U64 == 0;
    }
  }

  /** One more poll that ends without a measurement under way. */
  lemma OnePoll(rs: seq<Polled>, r: Polled, measured: seq<Measured>, reserve: nat, a: nat, due: bool, was: nat, now: nat)
    requires a <= |rs| < |measured|
    requires due ==> !Low(measured, reserve, |rs|, |rs| + 1)
    requires !due ==> was < RESERVE_CHECK_INTERVAL && now == was + if r.Written? then r.bytes else 0
    requires !due && a < |rs| ==> AtMost(rs, measured, reserve, a, was)
    ensures AtMost(rs + [r], measured, reserve, a, now)
    ensures Low(measured, reserve, a, |rs| + 1) ==> Bytes(rs[a..]) < RESERVE_CHECK_INTERVAL
  {
    if Low(measured, reserve, a, |rs| + 1) {
      assert Low(measured, reserve, a, |rs|) && Low(measured, reserve, |rs|, |rs| + 1);
      assert (rs + [r])[a..][..|rs| - a] == rs[a..];
    }
  }

  /** Before no write of the stretch have as many bytes as an interval gone through. */
  predicate Bounded(rs: seq<Polled>, measured: seq<Measured>, reserve: nat)
    requires |rs| <= |measured|
  {
    forall a, b :: 0 <= a < b <= |rs| && rs[b - 1].Written? && Low(measured, reserve, a, b) ==>
      Bytes(rs[a..b - 1]) < RESERVE_CHECK_INTERVAL
  }

  lemma StaysBounded(rs: seq<Polled>, r: Polled, measured: seq<Measured>, reserve: nat)
    requires |rs| < |measured| && Bounded(rs, measured, reserve)
    requires r.Written? ==> forall a :: 0 <= a <= |rs| && Low(measured, reserve, a, |rs| + 1) ==> Bytes(rs[a..]) < RESERVE_CHECK_INTERVAL
    ensures Bounded(rs + [r], measured, reserve)
  {
    var all := rs + [r];
    forall a, b | 0 <= a < b <= |all| && all[b - 1].Written? && Low(measured, reserve, a, b)
      ensures Bytes(all[a..b - 1]) < RESERVE_CHECK_INTERVAL
    {
      assert b <= |rs| ==> all[b - 1] == rs[b - 1];
      assert all[a..b - 1] == rs[a..b - 1];
      assert b == |rs| + 1 ==> rs[a..b - 1] == rs[a..];
    }
  }

  /** What one more poll keeps. */
  lemma AfterPoll(rs: seq<Polled>, r: Polled, measured: seq<Measured>, reserve: nat, due: bool, was: nat, now: nat, measuring: bool)
    requires |rs| < |measured| && Bounded(rs, measured, reserve)
    requires !measuring && !r.Full? && due ==> !Low(measured, reserve, |rs|, |rs| + 1)
    requires !due ==> was < RESERVE_CHECK_INTERVAL && now == was + if r.Written? then r.bytes else 0
    requires !due ==> forall a | 0 <= a < |rs| :: AtMost(rs, measured, reserve, a, was)
    requires r.Written? ==> !measuring
    ensures !measuring && !r.Full? ==> forall a | 0 <= a <= |rs| :: AtMost(rs + [r], measured, reserve, a, now)
    ensures Bounded(rs + [r], measured, reserve)
  {
    if !measuring && !r.Full? {
      forall a | 0 <= a <= |rs|
        ensures AtMost(rs + [r], measured, reserve, a, now)
        ensures Low(measured, reserve, a, |rs| + 1) ==> Bytes(rs[a..]) < RESERVE_CHECK_INTERVAL
      {
        OnePoll(rs, r, measured, reserve, a, due, was, now);
      }
    }
    StaysBounded(rs, r, measured, reserve);
  }

  /** The share has given up what of `bytes` it held at first, and the total as much. */
  ghost predicate GaveUp(share: Reservation, held: nat, promised: nat, bytes: nat)
    reads share, share.pool
  {
    share.held == held - Min(bytes, held) && share.pool.promised % U64 == (promised - (held - share.held)) % U64
  }

  function Count(r: Polled): nat { if r.Written? then r.bytes else 0 }

  /** One poll, and what it takes off the share. */
  method PollShared(out: DiskReserve, share: Reservation, measured: Measured, inner: Inner,
                    ghost held: nat, ghost promised: nat, ghost bytes: nat)
    returns (r: Polled)
    requires out.share == share && out.reserve > 0 && GaveUp(share, held, promised, bytes)
    modifies out`unchecked, out`measuring, share, share.pool
    ensures GaveUp(share, held, promised, bytes + Count(r))
    ensures r.Full? ==> measured.Free? && measured.bytes < out.reserve
    ensures r.Written? ==> inner == Took(r.bytes) && !out.measuring
    ensures !out.measuring && !r.Full? && old(out.Due()) ==> !measured.NotMeasured? && !(measured.Free? && measured.bytes < out.reserve)
    ensures !old(out.Due()) ==> old(out.unchecked) < RESERVE_CHECK_INTERVAL && !old(out.measuring)
    ensures !old(out.Due()) ==> out.unchecked == old(out.unchecked) + Count(r)
  {
    ghost var before, total := share.held, share.pool.promised;
    r := out.PollWrite(measured, inner);
    TakenOff(total, held, before, promised, share.held, share.pool.promised);
  }

  /** Poll after poll until the volume is full or the file below breaks. While the volume
      is low, fewer bytes than one interval go through before any write that still
      does; and the share gives up exactly what is written, as far as it holds. */
  method CopyThrough(reserve: nat, share: Reservation, measured: seq<Measured>, inner: seq<Inner>) returns (rs: seq<Polled>)
    requires |measured| == |inner| && reserve > 0
    modifies share, share.pool
    ensures |rs| <= |inner| && (|rs| < |inner| ==> rs != [] && (rs[|rs| - 1].Full? || rs[|rs| - 1].Broken?))
    ensures forall i | 0 <= i < |rs| && rs[i].Full? :: measured[i].Free? && measured[i].bytes < reserve
    ensures forall i | 0 <= i < |rs| && rs[i].Written? :: inner[i] == Took(rs[i].bytes)
    ensures Bounded(rs, measured, reserve)
    ensures share.held == old(share.held) - Min(Bytes(rs), old(share.held))
    ensures share.pool.promised % U64 == (old(share.pool.promised) - (old(share.held) - share.held)) % U64
  {
    var out := new DiskReserve(reserve, share);
    rs := [];
    ghost var held, promised := share.held, share.pool.promised;
    for n := 0 to |inner|
      invariant out.reserve == reserve && out.share == share && |rs| == n && fresh(out)
      invariant forall i | 0 <= i < n && rs[i].Full? :: measured[i].Free? && measured[i].bytes < reserve
      invariant forall i | 0 <= i < n && rs[i].Written? :: inner[i] == Took(rs[i].bytes)
      invariant !out.measuring ==> forall a | 0 <= a < n :: AtMost(rs, measured, reserve, a, out.unchecked)
      invariant Bounded(rs, measured, reserve) && GaveUp(share, held, promised, Bytes(rs))
    {
      ghost var due, was := out.Due(), out.unchecked;
      var r := PollShared(out, share, measured[n], inner[n], held, promised, Bytes(rs));
      AfterPoll(rs, r, measured, reserve, due, was, out.unchecked, out.measuring);
      assert (rs + [r])[..n] == rs;
      rs := rs + [r];
      if r.Full? || r.Broken? {
        return;
      }
    }
  }
}
