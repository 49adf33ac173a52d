/** What callers may rely on over whole runs of rate-limit checks. */
module RateLimitRuns {
  import opened RateLimit

  /** The elements of `s` that `keep` marks. */
  function Thin<T>(s: seq<T>, keep: seq<bool>): (r: seq<T>)
    requires |keep| == |s|
  {
    if s == [] then []
    else
      var front := Thin(s[..|s| - 1], keep[..|s| - 1]);
      if keep[|s| - 1] then front + [s[|s| - 1]] else front
  }

  function Answers(l: Limits, run: seq<Attempt>): (r: seq<bool>)
    ensures |r| == |run|
  {
    if run == [] then [] else Answers(l, run[..|run| - 1]) + [LastAllowed(l, run)]
  }

  lemma AnswersSnoc(l: Limits, run: seq<Attempt>, a: Attempt)
    ensures Answers(l, run + [a]) == Answers(l, run) + [Allowed(l, Final(l, run), a.key, a.time)]
    ensures Final(l, run + [a]) == After(l, Final(l, run), a.key, a.time)
  {
    assert (run + [a])[..|run|] == run;
  }

  // ---------------------------------------------------------------------
  // Denied attempts cost nothing
  // ---------------------------------------------------------------------

  /** No key can tell the two apart from `now` on. */
  ghost predicate Alike(l: Limits, m: Buckets, m': Buckets, now: real) {
    forall key, t :: t >= now ==> Level(l, m, key, t) == Level(l, m', key, t)
  }

  ghost predicate Settled(m: Buckets, now: real) {
    forall key :: key in m ==> m[key].lastRefill <= now
  }

  /** Refilling in two goes, with the cap in between, is refilling in one. */
  lemma RefillTwice(l: Limits, m: Buckets, key: string, now: real, t: real)
    requires Fed(l) && t >= now && (key in m ==> m[key].lastRefill <= now)
    ensures Min(Level(l, m, key, now) + Inflow(l, now, t), l.burst as real) == Level(l, m, key, t)
  {
    if key in m {
      InflowAdds(l, m[key].lastRefill, now, t);
    } else {
      InflowAdds(l, now, now, t);
    }
  }

  lemma DeniedChangesNothing(l: Limits, m: Buckets, key: string, now: real)
    requires Fed(l) && Settled(m, now) && !Allowed(l, m, key, now)
    ensures Alike(l, After(l, m, key, now), m, now)
  {
    var m' := After(l, m, key, now);
    forall k, t | t >= now
      ensures Level(l, m', k, t) == Level(l, m, k, t)
    {
      if k == key {
        RefillTwice(l, m, key, now, t);
      }
    }
  }

  lemma AlikeStays(l: Limits, m: Buckets, m': Buckets, key: string, now: real)
    requires Alike(l, m, m', now)
    ensures Alike(l, After(l, m, key, now), After(l, m', key, now), now)
  {
    assert Level(l, m, key, now) == Level(l, m', key, now);
    forall k, t | t >= now
      ensures Level(l, After(l, m, key, now), k, t) == Level(l, After(l, m', key, now), k, t)
    {
      assert Level(l, m, k, t) == Level(l, m', k, t);
    }
  }

  lemma SettledAlways(l: Limits, run: seq<Attempt>, now: real)
    requires Fed(l) && Chronological(run) && (run != [] ==> run[|run| - 1].time <= now)
    ensures Settled(Final(l, run), now)
  {
    forall key | key in Final(l, run) ensures Final(l, run)[key].lastRefill <= now {
      BucketsWithinBounds(l, run, key);
    }
  }

  lemma DeniedStaysAlike(l: Limits, m: Buckets, m': Buckets, key: string, now: real)
    requires Fed(l) && Settled(m, now) && Alike(l, m', m, now) && !Allowed(l, m, key, now)
    ensures Alike(l, m', After(l, m, key, now), now)
  {
    DeniedChangesNothing(l, m, key, now);
    forall k, t | t >= now
      ensures Level(l, m', k, t) == Level(l, After(l, m, key, now), k, t)
    {
      assert Level(l, m', k, t) == Level(l, m, k, t);
    }
  }

  ghost predicate KeepsAllowed(l: Limits, run: seq<Attempt>, keep: seq<bool>) {
    |keep| == |run| && forall i :: 0 <= i < |run| && Answers(l, run)[i] ==> keep[i]
  }

  lemma KeepsAllowedFront(l: Limits, run: seq<Attempt>, keep: seq<bool>)
    requires run != [] && KeepsAllowed(l, run, keep)
    ensures KeepsAllowed(l, run[..|run| - 1], keep[..|run| - 1])
    ensures LastAllowed(l, run) ==> keep[|run| - 1]
  {
    var n := |run| - 1;
    assert Answers(l, run)[n] == LastAllowed(l, run);
    forall i | 0 <= i < n && Answers(l, run[..n])[i] ensures keep[..n][i] {
      assert Answers(l, run)[i] == Answers(l, run[..n])[i];
    }
  }

  lemma AlikeLater(l: Limits, m: Buckets, m': Buckets, now: real, later: real)
    requires Alike(l, m, m', now) && now <= later
    ensures Alike(l, m, m', later)
  {
  }

  /** An attempt that is kept is answered alike, and leaves both alike. */
  lemma KeptStaysAlike(l: Limits, run: seq<Attempt>, kept: seq<Attempt>, a: Attempt)
    requires Alike(l, Final(l, kept), Final(l, run), a.time)
    ensures Answers(l, kept + [a]) == Answers(l, kept) + [Allowed(l, Final(l, run), a.key, a.time)]
    ensures Alike(l, Final(l, kept + [a]), After(l, Final(l, run), a.key, a.time), a.time)
  {
    AnswersSnoc(l, kept, a);
    assert Level(l, Final(l, kept), a.key, a.time) == Level(l, Final(l, run), a.key, a.time);
    AlikeStays(l, Final(l, kept), Final(l, run), a.key, a.time);
  }

  lemma AlikeAfterFront(l: Limits, run: seq<Attempt>, kept: seq<Attempt>)
    requires run != [] && Chronological(run)
    requires var front := run[..|run| - 1];
             if front == [] then kept == [] else Alike(l, Final(l, kept), Final(l, front), front[|front| - 1].time)
    ensures Alike(l, Final(l, kept), Final(l, run[..|run| - 1]), run[|run| - 1].time)
  {
    var front := run[..|run| - 1];
    if front != [] {
      AlikeLater(l, Final(l, kept), Final(l, front), front[|front| - 1].time, run[|run| - 1].time);
    }
  }

  lemma AnswersFront(l: Limits, run: seq<Attempt>)
    requires run != []
    ensures Answers(l, run)[..|run| - 1] == Answers(l, run[..|run| - 1]) && Answers(l, run)[|run| - 1] == LastAllowed(l, run)
  {
  }

  /** Whichever denied attempts are left out of a run, all other attempts
      are answered as before. */
  lemma {:induction false} DeniedAreFree(l: Limits, run: seq<Attempt>, keep: seq<bool>)
    requires Fed(l) && Chronological(run) && KeepsAllowed(l, run, keep)
    ensures Answers(l, Thin(run, keep)) == Thin(Answers(l, run), keep)
    ensures run != [] ==> Alike(l, Final(l, Thin(run, keep)), Final(l, run), run[|run| - 1].time)
  {
    if run != [] {
      var n := |run| - 1;
      var front, a, kept := run[..n], run[n], Thin(run[..n], keep[..n]);
      KeepsAllowedFront(l, run, keep);
      DeniedAreFree(l, front, keep[..n]);
      AlikeAfterFront(l, run, kept);
      AnswersFront(l, run);
      if keep[n] {
        KeptStaysAlike(l, front, kept, a);
      } else {
        SettledAlways(l, front, a.time);
        DeniedStaysAlike(l, Final(l, front), Final(l, kept), a.key, a.time);
      }
    }
  }

  // ---------------------------------------------------------------------
  // Keys do not affect each other
  // ---------------------------------------------------------------------

  function OnKey(run: seq<Attempt>, key: string): (mask: seq<bool>)
    ensures |mask| == |run|
  {
    seq(|run|, i requires 0 <= i < |run| => run[i].key == key)
  }

  /** A key's attempts are answered as if nobody else had made any. */
  lemma {:induction false} KeysAreIsolated(l: Limits, run: seq<Attempt>, key: string)
    ensures var own := Thin(run, OnKey(run, key));
            && Answers(l, own) == Thin(Answers(l, run), OnKey(run, key))
            && (key in Final(l, own) <==> key in Final(l, run))
            && (key in Final(l, run) ==> Final(l, own)[key] == Final(l, run)[key])
  {
    if run != [] {
      var n := |run| - 1;
      var front, a := run[..n], run[n];
      KeysAreIsolated(l, front, key);
      assert OnKey(run, key)[..n] == OnKey(front, key);
      assert Answers(l, run)[..n] == Answers(l, front);
      if a.key == key {
        AnswersSnoc(l, Thin(front, OnKey(front, key)), a);
      }
    }
  }

  // ---------------------------------------------------------------------
  // Lazy refill is eager refill
  // ---------------------------------------------------------------------

  /** A limiter whose buckets are all topped up at every instant it is told of. */
  datatype Eager = Eager(clock: real, levels: map<string, real>)

  datatype Tick = Pause(time: real) | Try(attempt: Attempt)

  function TimeOf(t: Tick): real { if t.Pause? then t.time else t.attempt.time }

  function EagerLevel(l: Limits, e: Eager, key: string): real {
    if key in e.levels then e.levels[key] else l.burst as real
  }

  function TopUp(l: Limits, e: Eager, now: real): Eager {
    Eager(now, map k | k in e.levels :: Min(e.levels[k] + Inflow(l, e.clock, now), l.burst as real))
  }

  function EagerStep(l: Limits, e: Eager, tick: Tick): Eager {
    var e' := TopUp(l, e, TimeOf(tick));
    if tick.Pause? then e'
    else
      var level := EagerLevel(l, e', tick.attempt.key);
      e'.(levels := e'.levels[tick.attempt.key := if level >= 1.0 then level - 1.0 else level])
  }

  function EagerFinal(l: Limits, start: real, ticks: seq<Tick>): Eager {
    if ticks == [] then Eager(start, map[])
    else EagerStep(l, EagerFinal(l, start, ticks[..|ticks| - 1]), ticks[|ticks| - 1])
  }

  function Tries(ticks: seq<Tick>): seq<Attempt> {
    if ticks == [] then []
    else
      var front, last := Tries(ticks[..|ticks| - 1]), ticks[|ticks| - 1];
      if last.Try? then front + [last.attempt] else front
  }

  predicate TicksChronological(start: real, ticks: seq<Tick>) {
    && (forall i :: 0 <= i < |ticks| ==> start <= TimeOf(ticks[i]))
    && forall i, j :: 0 <= i < j < |ticks| ==> TimeOf(ticks[i]) <= TimeOf(ticks[j])
  }

  ghost predicate InStep(l: Limits, m: Buckets, e: Eager) {
    && Settled(m, e.clock)
    && forall key :: Level(l, m, key, e.clock) == EagerLevel(l, e, key)
  }

  lemma EagerTopUpInStep(l: Limits, m: Buckets, e: Eager, now: real)
    requires Fed(l) && InStep(l, m, e) && e.clock <= now
    ensures InStep(l, m, TopUp(l, e, now))
  {
    forall key
      ensures Level(l, m, key, now) == EagerLevel(l, TopUp(l, e, now), key)
    {
      RefillTwice(l, m, key, e.clock, now);
      assert Level(l, m, key, e.clock) == EagerLevel(l, e, key);
      if key !in e.levels {
        InflowAdds(l, e.clock, e.clock, now);
      }
    }
  }

  lemma EagerTakeInStep(l: Limits, m: Buckets, e: Eager, a: Attempt)
    requires Fed(l) && InStep(l, m, e) && e.clock == a.time
    requires forall key :: key in m ==> WithinBounds(l, m[key])
    ensures var level := EagerLevel(l, e, a.key);
            && Allowed(l, m, a.key, a.time) == (level >= 1.0)
            && InStep(l, After(l, m, a.key, a.time),
                      e.(levels := e.levels[a.key := if level >= 1.0 then level - 1.0 else level]))
  {
    var level := EagerLevel(l, e, a.key);
    assert Level(l, m, a.key, a.time) == level;
    LevelWithinBounds(l, m, a.key, a.time);
    var m' := After(l, m, a.key, a.time);
    var e' := e.(levels := e.levels[a.key := if level >= 1.0 then level - 1.0 else level]);
    forall key
      ensures Level(l, m', key, a.time) == EagerLevel(l, e', key)
    {
      InflowAdds(l, a.time, a.time, a.time);
      assert Level(l, m, key, a.time) == EagerLevel(l, e, key);
    }
  }

  lemma {:induction false} TriesChronological(start: real, ticks: seq<Tick>)
    requires TicksChronological(start, ticks)
    ensures Chronological(Tries(ticks))
    ensures forall i :: 0 <= i < |Tries(ticks)| ==> ticks != [] && Tries(ticks)[i].time <= TimeOf(ticks[|ticks| - 1])
  {
    if ticks != [] {
      TriesChronological(start, ticks[..|ticks| - 1]);
    }
  }

  /** However often and at whatever instants the eager limiter tops up, its levels are
      those the lazy one would find, so it gives every attempt the same answer. */
  lemma {:induction false} LazyIsEager(l: Limits, start: real, ticks: seq<Tick>)
    requires Fed(l) && TicksChronological(start, ticks)
    ensures InStep(l, Final(l, Tries(ticks)), EagerFinal(l, start, ticks))
    ensures EagerFinal(l, start, ticks).clock == if ticks == [] then start else TimeOf(ticks[|ticks| - 1])
    ensures ticks != [] && ticks[|ticks| - 1].Try? ==>
              var a := ticks[|ticks| - 1].attempt;
              var before := TopUp(l, EagerFinal(l, start, ticks[..|ticks| - 1]), a.time);
              LastAllowed(l, Tries(ticks)) == (EagerLevel(l, before, a.key) >= 1.0)
  {
    if ticks != [] {
      var front, last := ticks[..|ticks| - 1], ticks[|ticks| - 1];
      LazyIsEager(l, start, front);
      var m, e := Final(l, Tries(front)), EagerFinal(l, start, front);
      EagerTopUpInStep(l, m, e, TimeOf(last));
      if last.Try? {
        TriesChronological(start, front);
        forall key | key in m ensures WithinBounds(l, m[key]) {
          BucketsWithinBounds(l, Tries(front), key);
        }
        EagerTakeInStep(l, m, TopUp(l, e, TimeOf(last)), last.attempt);
        AnswersSnoc(l, Tries(front), last.attempt);
        assert Tries(ticks)[..|Tries(ticks)| - 1] == Tries(front);
      }
    }
  }

  // ---------------------------------------------------------------------
  // The envelope is attained
  // ---------------------------------------------------------------------

  /** The time one token takes to come in. */
  predicate IsPeriod(l: Limits, period: real) { period > 0.0 && period * l.rps == 1.0 }

  /** When the n-th attempt of the greediest run is made: a bucketful at once, then one
      attempt each time a token has come in. */
  function AttemptTime(l: Limits, start: real, period: real, n: nat): real {
    if n <= l.burst then start else AttemptTime(l, start, period, n - 1) + period
  }

  function Times(l: Limits, start: real, period: real): nat -> real { (n: nat) => AttemptTime(l, start, period, n) }

  /** The run that makes its n-th attempt at `time(n)`. */
  function Greediest(key: string, time: nat -> real, n: nat): seq<Attempt> {
    if n == 0 then [] else Greediest(key, time, n - 1) + [Attempt(key, time(n))]
  }

  lemma {:induction false} AttemptTimes(l: Limits, start: real, period: real, n: nat)
    requires Fed(l) && IsPeriod(l, period) && n >= 1
    ensures start <= AttemptTime(l, start, period, n - 1) <= AttemptTime(l, start, period, n)
    ensures Inflow(l, AttemptTime(l, start, period, n - 1), AttemptTime(l, start, period, n))
            == if n <= l.burst then 0.0 else 1.0
    ensures Inflow(l, start, AttemptTime(l, start, period, n)) == if n <= l.burst then 0.0 else (n - l.burst) as real
  {
    InflowAdds(l, start, start, start);
    if n > l.burst {
      var t := AttemptTime(l, start, period, n - 1);
      if n > 1 {
        AttemptTimes(l, start, period, n - 1);
      }
      assert Elapsed(t, t + period) == period;
      InflowAdds(l, start, t, t + period);
    }
  }

  ghost predicate Used(l: Limits, m: Buckets, key: string, n: nat, now: real) {
    if n == 0 then m == map[]
    else key in m && m[key] == Bucket(if n <= l.burst then (l.burst - n) as real else 0.0, now)
  }

  lemma OneMoreGranted(l: Limits, m: Buckets, key: string, n: nat, before: real, now: real)
    requires l.burst >= 1 && n >= 1 && Used(l, m, key, n - 1, before)
    requires Inflow(l, before, now) == if n <= l.burst then 0.0 else 1.0
    ensures Allowed(l, m, key, now) && Used(l, After(l, m, key, now), key, n, now)
  {
  }

  /** All of the run's n attempts were granted, and its bucket shows it. */
  ghost predicate Spent(l: Limits, run: seq<Attempt>, key: string, n: nat, start: real, now: real) {
    |run| == n && Granted(l, run, key, start, now) == n && Used(l, Final(l, run), key, n, now)
  }

  /** Attempt n comes when the tokens for it have come in. */
  predicate InPace(l: Limits, start: real, time: nat -> real, n: nat)
    requires n >= 1
  {
    && start <= time(n - 1) <= time(n)
    && Inflow(l, time(n - 1), time(n)) == if n <= l.burst then 0.0 else 1.0
  }

  lemma GreedyStep(l: Limits, run: seq<Attempt>, key: string, n: nat, start: real, time: nat -> real)
    requires l.burst >= 1 && n >= 1 && InPace(l, start, time, n) && Spent(l, run, key, n - 1, start, time(n - 1))
    ensures Spent(l, run + [Attempt(key, time(n))], key, n, start, time(n))
  {
    var before, now := time(n - 1), time(n);
    OneMoreGranted(l, Final(l, run), key, n, before, now);
    AnswersSnoc(l, run, Attempt(key, now));
    GrantedGrows(l, run, key, start, before, now);
    GrantedSnoc(l, run, Attempt(key, now), start, now);
  }

  lemma {:induction false} GreediestIsGranted(l: Limits, key: string, start: real, time: nat -> real, n: nat)
    requires l.burst >= 1 && forall k: nat :: 1 <= k <= n ==> InPace(l, start, time, k)
    ensures Spent(l, Greediest(key, time, n), key, n, start, time(n))
  {
    if n > 0 {
      GreediestIsGranted(l, key, start, time, n - 1);
      var run := Greediest(key, time, n - 1);
      GreedyStep(l, run, key, n, start, time);
      assert Greediest(key, time, n) == run + [Attempt(key, time(n))];
    }
  }

  lemma {:induction false} GreediestIsChronological(l: Limits, key: string, start: real, time: nat -> real, n: nat)
    requires forall k: nat :: 1 <= k <= n ==> InPace(l, start, time, k)
    ensures Chronological(Greediest(key, time, n))
    ensures forall i :: 0 <= i < |Greediest(key, time, n)| ==> Greediest(key, time, n)[i].time <= time(n)
  {
    if n > 0 {
      GreediestIsChronological(l, key, start, time, n - 1);
      assert InPace(l, start, time, n);
    }
  }

  /** Every attempt of that run is granted, and it is one the envelope speaks about, so its bound is exact. */
  lemma EnvelopeAttained(l: Limits, key: string, start: real, period: real, n: nat)
    requires Fed(l) && IsPeriod(l, period) && l.burst >= 1
    ensures var run, end := Greediest(key, Times(l, start, period), n), AttemptTime(l, start, period, n);
            && Chronological(run) && start <= end
            && Granted(l, run, key, start, end) == n
            && Used(l, Final(l, run), key, n, end)
            && (n >= l.burst ==> n as real == l.burst as real + Inflow(l, start, end))
  {
    var time := Times(l, start, period);
    forall k: nat | 1 <= k <= n ensures InPace(l, start, time, k) {
      AttemptTimes(l, start, period, k);
    }
    GreediestIsGranted(l, key, start, time, n);
    GreediestIsChronological(l, key, start, time, n);
    if n > 0 {
      AttemptTimes(l, start, period, n);
    }
  }

  lemma GrantedSnoc(l: Limits, run: seq<Attempt>, a: Attempt, from: real, to: real)
    requires from <= a.time <= to && Allowed(l, Final(l, run), a.key, a.time)
    ensures Granted(l, run + [a], a.key, from, to) == Granted(l, run, a.key, from, to) + 1
  {
    assert (run + [a])[..|run|] == run;
  }

  /** A later end of the window can only bring more. */
  lemma {:induction false} GrantedGrows(l: Limits, run: seq<Attempt>, key: string, from: real, to: real, to': real)
    requires to <= to'
    ensures Granted(l, run, key, from, to) <= Granted(l, run, key, from, to') <= |run|
  {
    if run != [] {
      GrantedGrows(l, run[..|run| - 1], key, from, to, to');
    }
  }
}
