/** Token-bucket rate limiting, one bucket per key, refilled only when looked at. */
module RateLimit {
  import opened Prelude

  datatype Bucket = Bucket(tokens: real, lastRefill: real)

  /** Tokens per second, and the size of a bucket. */
  datatype Limits = Limits(rps: real, burst: nat)

  type Buckets = map<string, Bucket>

  function Min(a: real, b: real): real { if a <= b then a else b }

  /** Time since an instant; an instant in the future counts as now. */
  function Elapsed(since: real, now: real): (e: real)
    ensures e >= 0.0
  {
    if now >= since then now - since else 0.0
  }

  /** Tokens that flow in between two instants. */
  function Inflow(l: Limits, since: real, now: real): real { Elapsed(since, now) * l.rps }

  /** What a check finds in the bucket of `key` before it takes a token. */
  function Level(l: Limits, m: Buckets, key: string, now: real): real {
    if key in m then Min(m[key].tokens + Inflow(l, m[key].lastRefill, now), l.burst as real)
    else l.burst as real
  }

  function Allowed(l: Limits, m: Buckets, key: string, now: real): bool {
    Level(l, m, key, now) >= 1.0
  }

  function After(l: Limits, m: Buckets, key: string, now: real): Buckets {
    var level := Level(l, m, key, now);
    m[key := Bucket(if level >= 1.0 then level - 1.0 else level, now)]
  }

  class RateLimiter {
    const limits: Limits
    var buckets: Buckets

    constructor (rps: real, burst: nat)
      ensures limits == Limits(rps, burst) && buckets == map[]
    {
      limits := Limits(rps, burst);
      buckets := map[];
    }

    /** Takes a token for `key` at time `now` if there is one. */
    method Check(key: string, now: real) returns (ok: bool)
      modifies this
      ensures ok == Allowed(limits, old(buckets), key, now)
      ensures buckets == After(limits, old(buckets), key, now)
    {
      var bucket := if key in buckets then buckets[key] else Bucket(limits.burst as real, now);
      var elapsed := Elapsed(bucket.lastRefill, now);
      var tokens := Min(bucket.tokens + elapsed * limits.rps, limits.burst as real);
      assert key in buckets ==> elapsed * limits.rps == Inflow(limits, buckets[key].lastRefill, now);
      assert key !in buckets ==> elapsed == 0.0 && elapsed * limits.rps == 0.0;
      assert tokens == Level(limits, buckets, key, now);
      if tokens >= 1.0 {
        buckets := buckets[key := Bucket(tokens - 1.0, now)];
        ok := true;
      } else {
        buckets := buckets[key := Bucket(tokens, now)];
        ok := false;
      }
    }
  }

  // ---------------------------------------------------------------------
  // Runs
  // ---------------------------------------------------------------------

  datatype Attempt = Attempt(key: string, time: real)

  predicate Chronological(run: seq<Attempt>) {
    forall i, j :: 0 <= i < j < |run| ==> run[i].time <= run[j].time
  }

  /** The buckets after a run that started with no buckets. */
  function Final(l: Limits, run: seq<Attempt>): Buckets {
    if run == [] then map[]
    else
      var a := run[|run| - 1];
      After(l, Final(l, run[..|run| - 1]), a.key, a.time)
  }

  /** The answer to the last attempt of a run. */
  predicate LastAllowed(l: Limits, run: seq<Attempt>)
    requires run != []
  {
    Allowed(l, Final(l, run[..|run| - 1]), run[|run| - 1].key, run[|run| - 1].time)
  }

  /** Attempts on `key` between `from` and `to` that were allowed. */
  function Granted(l: Limits, run: seq<Attempt>, key: string, from: real, to: real): nat {
    if run == [] then 0
    else
      var a := run[|run| - 1];
      Granted(l, run[..|run| - 1], key, from, to)
      + Bit(a.key == key && from <= a.time <= to && LastAllowed(l, run))
  }

  predicate Fed(l: Limits) { l.rps >= 0.0 }

  /** Inflow adds up. */
  lemma InflowAdds(l: Limits, a: real, b: real, c: real)
    requires Fed(l) && a <= b <= c
    ensures Inflow(l, a, b) + Inflow(l, b, c) == Inflow(l, a, c)
    ensures Inflow(l, a, b) >= 0.0 && Inflow(l, b, c) >= 0.0
  {
    assert (b - a) * l.rps + (c - b) * l.rps == (c - a) * l.rps;
  }

  predicate WithinBounds(l: Limits, b: Bucket) { 0.0 <= b.tokens <= l.burst as real }

  lemma LevelWithinBounds(l: Limits, m: Buckets, key: string, now: real)
    requires Fed(l) && (key in m ==> WithinBounds(l, m[key]))
    ensures 0.0 <= Level(l, m, key, now) <= l.burst as real
    ensures WithinBounds(l, After(l, m, key, now)[key])
  {
    if key in m {
      assert Elapsed(m[key].lastRefill, now) * l.rps >= 0.0;
    }
  }

  /** Refills happen in the past, and no bucket is ever overdrawn or overfull. */
  lemma {:induction false} BucketsWithinBounds(l: Limits, run: seq<Attempt>, key: string)
    requires Fed(l) && Chronological(run)
    ensures key in Final(l, run) ==>
              && run != [] && Final(l, run)[key].lastRefill <= run[|run| - 1].time
              && WithinBounds(l, Final(l, run)[key])
  {
    if run != [] {
      BucketsWithinBounds(l, run[..|run| - 1], key);
      LevelWithinBounds(l, Final(l, run[..|run| - 1]), key, run[|run| - 1].time);
    }
  }

  // ---------------------------------------------------------------------
  // The envelope
  // ---------------------------------------------------------------------

  /** Granted attempts are paid for by the bucket's size and the time since the window
      opened; the bucket keeps what is left of both. */
  ghost predicate Paid(l: Limits, m: Buckets, granted: nat, key: string, from: real, to: real) {
    && granted as real <= l.burst as real + Inflow(l, from, to)
    && (if key in m && from <= m[key].lastRefill
        then m[key].lastRefill <= to ==>
               granted as real + m[key].tokens <= l.burst as real + Inflow(l, from, m[key].lastRefill)
        else granted == 0)
  }

  /** One attempt inside the window. */
  lemma PaidInside(l: Limits, m: Buckets, key: string, now: real, from: real, to: real, granted: real)
    requires Fed(l) && from <= now <= to
    requires key in m ==> m[key].lastRefill <= now
    requires if key in m && from <= m[key].lastRefill
             then granted + m[key].tokens <= l.burst as real + Inflow(l, from, m[key].lastRefill)
             else granted == 0.0
    ensures var level := Level(l, m, key, now);
            granted + level <= l.burst as real + Inflow(l, from, now) <= l.burst as real + Inflow(l, from, to)
  {
    InflowAdds(l, from, now, to);
    if key in m && from <= m[key].lastRefill {
      InflowAdds(l, from, m[key].lastRefill, now);
    }
  }

  lemma PaidStep(l: Limits, m: Buckets, granted: nat, key: string, now: real, from: real, to: real)
    requires Fed(l) && from <= to && Paid(l, m, granted, key, from, to)
    requires key in m ==> m[key].lastRefill <= now && WithinBounds(l, m[key])
    ensures var more := Bit(from <= now <= to && Allowed(l, m, key, now));
            Paid(l, After(l, m, key, now), granted + more, key, from, to)
  {
    if from <= now <= to {
      PaidInside(l, m, key, now, from, to, granted as real);
      LevelWithinBounds(l, m, key, now);
      var more := Bit(Allowed(l, m, key, now));
      assert (granted + more) as real == granted as real + more as real;
      assert After(l, m, key, now)[key] == Bucket(Level(l, m, key, now) - more as real, now);
    }
  }

  lemma {:induction false} AlwaysPaid(l: Limits, run: seq<Attempt>, key: string, from: real, to: real)
    requires Fed(l) && from <= to && Chronological(run)
    ensures Paid(l, Final(l, run), Granted(l, run, key, from, to), key, from, to)
  {
    if run == [] {
      InflowAdds(l, from, from, to);
    } else {
      var front := run[..|run| - 1];
      var a := run[|run| - 1];
      AlwaysPaid(l, front, key, from, to);
      if a.key == key {
        BucketsWithinBounds(l, front, key);
        PaidStep(l, Final(l, front), Granted(l, front, key, from, to), key, a.time, from, to);
      } else {
        assert key in Final(l, run) <==> key in Final(l, front);
      }
    }
  }

  /** Over any window, and whatever happens on other keys, a key is granted at most a
      bucketful and the tokens that flowed in during the window. */
  lemma Envelope(l: Limits, run: seq<Attempt>, key: string, from: real, to: real)
    requires Fed(l) && from <= to && Chronological(run)
    ensures Granted(l, run, key, from, to) as real <= l.burst as real + Inflow(l, from, to)
  {
    AlwaysPaid(l, run, key, from, to);
  }

  ghost predicate Enveloped(l: Limits) {
    forall run, key, from, to :: from <= to && Chronological(run)
      ==> Granted(l, run, key, from, to) as real <= l.burst as real + Inflow(l, from, to)
  }

  /** The bound holds of all runs, keys and windows exactly when the rate is not negative. With a negative rate and
      a bucket of some size one attempt, granted, already exceeds the bound of a window that is long enough to bring
      it down to zero; with a bucket of size 0 nothing is ever granted, but the bound of every window is negative. */
  lemma EnvelopeIff(l: Limits)
    ensures Enveloped(l) <==> Fed(l)
  {
    if Fed(l) {
      forall run, key, from, to | from <= to && Chronological(run)
        ensures Granted(l, run, key, from, to) as real <= l.burst as real + Inflow(l, from, to)
      {
        Envelope(l, run, key, from, to);
      }
    } else if l.burst == 0 {
      assert Inflow(l, 0.0, 1.0) == l.rps;
      assert Granted(l, [], "", 0.0, 1.0) == 0;
    } else {
      var long := l.burst as real / (-l.rps);
      assert long * l.rps == -(l.burst as real);
      assert Inflow(l, 0.0, long) == long * l.rps;
      OneIsGranted(l, 0.0, long);
    }
  }

  lemma OneIsGranted(l: Limits, from: real, to: real)
    requires l.burst >= 1 && from <= to
    ensures Chronological([Attempt("", from)]) && Granted(l, [Attempt("", from)], "", from, to) == 1
  {
    var run := [Attempt("", from)];
    assert run[..0] == [];
    assert LastAllowed(l, run);
  }
}
