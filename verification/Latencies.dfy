/** Latency over a sliding window of rotating generations (nestor/src/latency.rs:15-151). Calls are
    taken one at a time; the clock is the nanoseconds since the window's epoch. */
module Latencies {
  import opened Common
  import opened Powers
  import opened Histogram

  const GENERATIONS: nat := 3
  const PERIOD: nat := 60_000_000_000
  const U32: nat := 0x1_0000_0000
  const U64: nat := 0x1_0000_0000_0000_0000

  /** A machine counter is exact until its true value no longer fits. */
  predicate Counts(counter: nat, actual: nat, width: nat) { counter < width && (actual < width ==> counter == actual) }

  /** Wrapping addition of two machine words: at most one width to take off. */
  function Wrap(x: nat, width: nat): nat { if x < width then x else x - width }

  function Sum(samples: seq<nat>): nat {
    if samples == [] then 0 else Sum(samples[..|samples| - 1]) + samples[|samples| - 1]
  }

  lemma {:induction false} SumAppend(a: seq<nat>, b: seq<nat>)
    ensures Sum(a + b) == Sum(a) + Sum(b)
  {
    if b == [] {
      assert a + b == a;
    } else {
      assert (a + b)[..|a + b| - 1] == a + b[..|b| - 1];
      SumAppend(a, b[..|b| - 1]);
    }
  }

  lemma {:induction false} TallyAppend(f: nat -> nat, a: seq<nat>, b: seq<nat>, i: nat)
    ensures Tally(f, a + b, i) == Tally(f, a, i) + Tally(f, b, i)
  {
    if b == [] {
      assert a + b == a;
    } else {
      assert (a + b)[..|a + b| - 1] == a + b[..|b| - 1];
      TallyAppend(f, a, b[..|b| - 1], i);
    }
  }

  lemma TallyNext(f: nat -> nat, samples: seq<nat>, nanos: nat, i: nat)
    ensures Tally(f, samples + [nanos], i) == Tally(f, samples, i) + (if i == f(nanos) then 1 else 0)
  {
    assert (samples + [nanos])[..|samples|] == samples;
  }

  lemma SumNext(samples: seq<nat>, nanos: nat)
    ensures Sum(samples + [nanos]) == Sum(samples) + nanos
  {
    assert (samples + [nanos])[..|samples|] == samples;
  }

  /** One observation: the sample, when it was made, and the turn of the window it was made in. */
  datatype Entry = Entry(nanos: nat, at: nat, turn: nat)

  /** The samples observed in turn `t`, in order. */
  function Of(log: seq<Entry>, t: nat): seq<nat> {
    if log == [] then []
    else
      var n := |log| - 1;
      Of(log[..n], t) + (if log[n].turn == t then [log[n].nanos] else [])
  }

  lemma {:induction false} OfLater(log: seq<Entry>, t: nat)
    requires forall j :: 0 <= j < |log| ==> log[j].turn < t
    ensures Of(log, t) == []
  {
    if log != [] {
      OfLater(log[..|log| - 1], t);
    }
  }

  function Successor(g: nat): (r: nat)
    requires g < GENERATIONS
    ensures r == if g == 2 then 0 else g + 1
  {
    (g + 1) % GENERATIONS
  }

  function Previous(g: nat): (r: nat)
    requires g < GENERATIONS
    ensures r == if g == 0 then 2 else g - 1
  {
    (g + GENERATIONS - 1) % GENERATIONS
  }

  /** How many generations a call at `now` clears, and when the turn it leaves behind began. */
  function Turns(rotatedAt: nat, now: nat): nat {
    if now < rotatedAt then 0 else Min((now - rotatedAt) / PERIOD, GENERATIONS)
  }

  function Since(rotatedAt: nat, now: nat): nat { if Turns(rotatedAt, now) == 0 then rotatedAt else now }

  /** When the entries of each turn were made, for a window in turn `turn` since `rotatedAt`, whose
      previous turn began at `before`. */
  ghost predicate Timed(log: seq<Entry>, turn: nat, rotatedAt: nat, before: nat, clock: nat) {
    && rotatedAt <= clock
    && (forall j :: 0 <= j < |log| ==> Dated(log[j], turn, rotatedAt, before, clock))
  }

  predicate Dated(e: Entry, turn: nat, rotatedAt: nat, before: nat, clock: nat) {
    && e.turn <= turn && e.at <= clock
    && (e.turn == turn ==> rotatedAt <= e.at < rotatedAt + PERIOD)
    && (e.turn + 1 == turn ==> before <= e.at < rotatedAt < before + 2 * PERIOD)
    && (e.turn + 1 < turn ==> e.at + PERIOD < rotatedAt)
  }

  /** Rotating keeps the dates, however many periods went by unobserved. */
  lemma RotateDates(log: seq<Entry>, turn: nat, rotatedAt: nat, before: nat, clock: nat, now: nat, steps: nat)
    requires Timed(log, turn, rotatedAt, before, clock) && clock <= now
    requires steps == Min((now - rotatedAt) / PERIOD, GENERATIONS) && steps > 0
    ensures Timed(log, turn + steps, now, rotatedAt, now)
  {
    forall j | 0 <= j < |log| ensures Dated(log[j], turn + steps, now, rotatedAt, now) {
      assert Dated(log[j], turn, rotatedAt, before, clock);
    }
  }

  /** Just after a rotation the two latest turns hold what the window promises. */
  lemma WindowHolds(log: seq<Entry>, turn: nat, rotatedAt: nat, before: nat, now: nat)
    requires Timed(log, turn, rotatedAt, before, now) && now < rotatedAt + PERIOD
    ensures forall j :: 0 <= j < |log| && now <= log[j].at + PERIOD ==> turn <= log[j].turn + 1
    ensures forall j :: 0 <= j < |log| && log[j].at + 3 * PERIOD - 1 <= now ==> log[j].turn + 1 < turn
  {
  }

  class Latency {
    /** The generations' fields, one row or entry for each. */
    const counts: array2<nat>
    const count: array<nat>
    const sum: array<nat>
    /** `bucket`, fixed when the window is made. */
    const bucketOf: nat -> nat
    var current: nat
    var rotatedAt: nat
    /** What each generation recorded since it was last cleared. */
    ghost var held: seq<seq<nat>>
    /** Rotations so far, the start of the previous turn, the latest call, and every observation. */
    ghost var turn: nat
    ghost var before: nat
    ghost var clock: nat
    ghost var log: seq<Entry>

    ghost function Repr(): set<object> { {this, counts, count, sum} }

    ghost predicate Shape()
      reads `held
    {
      && counts.Length0 == GENERATIONS && counts.Length1 == BUCKETS
      && count.Length == GENERATIONS && sum.Length == GENERATIONS && count != sum && |held| == GENERATIONS
      && (forall x :: bucketOf(x) < BUCKETS)
    }

    /** The counters of generation `g` stand for what it recorded. */
    ghost predicate Counted(g: nat)
      reads `held, counts, count, sum
      requires Shape() && g < GENERATIONS
    {
      && (forall i :: 0 <= i < BUCKETS ==> Counts(counts[g, i], Tally(bucketOf, held[g], i), U32))
      && Counts(count[g], |held[g]|, U64) && Counts(sum[g], Sum(held[g]), U64)
    }

    ghost predicate Standard() { forall x :: bucketOf(x) == Bucket(x) }

    ghost predicate AllCounted()
      reads `held, counts, count, sum
      requires Shape()
    {
      forall g :: 0 <= g < GENERATIONS ==> Counted(g)
    }

    ghost predicate Valid()
      reads Repr()
    {
      && Shape() && AllCounted()
      && turn >= 1 && current < GENERATIONS
      && held[current] == Of(log, turn) && held[Previous(current)] == Of(log, turn - 1)
      && Timed(log, turn, rotatedAt, before, clock)
    }

    /** Sliding window: every sample no older than one period is in the two turns a read covers, and
        none aged three periods less a nanosecond or more is. */
    ghost predicate Window(now: nat)
      reads this
    {
      && (forall j :: 0 <= j < |log| && now <= log[j].at + PERIOD ==> turn <= log[j].turn + 1)
      && (forall j :: 0 <= j < |log| && log[j].at + 3 * PERIOD - 1 <= now ==> log[j].turn + 1 < turn)
    }

    /** The samples a read at this moment covers. */
    ghost function Visible(): seq<nat>
      reads this
      requires turn >= 1
    {
      Of(log, turn) + Of(log, turn - 1)
    }

    constructor ()
      ensures Valid() && Standard() && log == [] && clock == 0 && rotatedAt == 0 && fresh(Repr() - {this})
    {
      counts := new nat[GENERATIONS, BUCKETS]((_, _) => 0);
      count := new nat[GENERATIONS](_ => 0);
      sum := new nat[GENERATIONS](_ => 0);
      bucketOf := x => Bucket(x);
      current, rotatedAt, held := 0, 0, [[], [], []];
      turn, before, clock, log := GENERATIONS, 0, 0, [];
      new;
      assert Counted(0) && Counted(1) && Counted(2);
    }

    method Record(g: nat, nanos: nat)
      requires Shape() && g < GENERATIONS && Counted(g) && nanos < U64
      modifies `held, counts, count, sum
      ensures held == old(held)[g := old(held)[g] + [nanos]] && Counted(g)
      ensures forall k :: 0 <= k < GENERATIONS && k != g && old(Counted(k)) ==> Counted(k)
    {
      var b := bucketOf(nanos);
      ghost var next := held[g] + [nanos];
      forall i | 0 <= i < BUCKETS
        ensures Counts(if i == b then Wrap(counts[g, i] + 1, U32) else counts[g, i], Tally(bucketOf, next, i), U32)
      {
        TallyNext(bucketOf, held[g], nanos, i);
        assert Counts(counts[g, i], Tally(bucketOf, held[g], i), U32);
      }
      SumNext(held[g], nanos);
      counts[g, b] := Wrap(counts[g, b] + 1, U32);
      count[g] := Wrap(count[g] + 1, U64);
      sum[g] := Wrap(sum[g] + nanos, U64);
      held := held[g := next];
    }

    method Clear(g: nat)
      requires Shape() && g < GENERATIONS
      modifies `held, counts, count, sum
      ensures held == old(held)[g := []] && Counted(g)
      ensures forall k :: 0 <= k < GENERATIONS && k != g && old(Counted(k)) ==> Counted(k)
    {
      for b := 0 to BUCKETS
        modifies counts
        invariant forall i :: 0 <= i < b ==> counts[g, i] == 0
        invariant forall k, i :: 0 <= k < GENERATIONS && 0 <= i < BUCKETS && k != g ==>
                    counts[k, i] == old(counts[k, i])
      {
        counts[g, b] := 0;
      }
      count[g], sum[g] := 0, 0;
      held := held[g := []];
    }

    /** The next generation, emptied, becomes the current one. */
    method Turn()
      requires Shape() && AllCounted() && current < GENERATIONS && turn >= 1
      requires held[current] == Of(log, turn) && forall j :: 0 <= j < |log| ==> log[j].turn <= turn
      modifies `current, `turn, `held, counts, count, sum
      ensures Shape() && AllCounted() && current < GENERATIONS && turn == old(turn) + 1
      ensures held[current] == Of(log, turn) && held[Previous(current)] == Of(log, turn - 1)
    {
      Clear(Successor(current));
      OfLater(log, turn + 1);
      current, turn := Successor(current), turn + 1;
    }

    /** Clears `steps` generations, the last of which becomes the current one. */
    method Spin(steps: nat)
      requires Shape() && AllCounted() && current < GENERATIONS && turn >= 1 && steps > 0
      requires held[current] == Of(log, turn) && forall j :: 0 <= j < |log| ==> log[j].turn <= turn
      modifies `current, `turn, `held, counts, count, sum
      ensures Shape() && AllCounted() && current < GENERATIONS && turn == old(turn) + steps
      ensures held[current] == Of(log, turn) && held[Previous(current)] == Of(log, turn - 1)
    {
      for k := 0 to steps
        invariant Shape() && AllCounted() && current < GENERATIONS && turn == old(turn) + k
        invariant held[current] == Of(log, turn) && (k > 0 ==> held[Previous(current)] == Of(log, turn - 1))
      {
        Turn();
      }
    }

    /** Clears one generation per period gone by, at most all of them. */
    method Rotate(now: nat)
      requires Valid() && clock <= now
      modifies this, counts, count, sum
      ensures Valid() && clock == now && log == old(log)
      ensures now < rotatedAt + PERIOD && Window(now)
      ensures turn == old(turn) + Turns(old(rotatedAt), now) && rotatedAt == Since(old(rotatedAt), now)
    {
      var steps := Min((now - rotatedAt) / PERIOD, GENERATIONS);
      if steps > 0 {
        RotateDates(log, turn, rotatedAt, before, clock, now, steps);
        before, rotatedAt := rotatedAt, now;
        Spin(steps);
      }
      clock := now;
      WindowHolds(log, turn, rotatedAt, before, now);
    }

    method Add(nanos: nat)
      requires Valid() && nanos < U64 && clock < rotatedAt + PERIOD
      modifies `log, `held, counts, count, sum
      ensures Valid() && log == old(log) + [Entry(nanos, clock, turn)]
    {
      TimedNext(log, nanos, turn, rotatedAt, before, clock);
      assert Of(log + [Entry(nanos, clock, turn)], turn) == held[current] + [nanos];
      assert Of(log + [Entry(nanos, clock, turn)], turn - 1) == held[Previous(current)];
      Record(current, nanos);
      log := log + [Entry(nanos, clock, turn)];
    }

    method Observe(sample: nat, now: nat)
      requires Valid() && clock <= now
      modifies this, counts, count, sum
      ensures Valid() && clock == now && log == old(log) + [Entry(Min(sample, U64 - 1), now, turn)]
      ensures turn == old(turn) + Turns(old(rotatedAt), now) && rotatedAt == Since(old(rotatedAt), now)
    {
      Rotate(now);
      Add(Min(sample, U64 - 1));
    }

    /** The exact floor of the visible samples' mean, while their sum and number fit the counters. */
    method MeanNow() returns (r: Option<nat>)
      requires Valid()
      ensures |Visible()| < U64 && Sum(Visible()) < U64 ==>
        r == Average(Sum(Visible()), |Visible()|)
    {
      var previous := Previous(current);
      assert Counted(current) && Counted(previous);
      var number, total := Totals(count[current], count[previous], sum[current], sum[previous], held[current],
                                  held[previous]);
      r := Average(total, number);
    }

    method Mean(now: nat) returns (r: Option<nat>)
      requires Valid() && clock <= now
      modifies this, counts, count, sum
      ensures Valid() && clock == now && log == old(log) && Window(now)
      ensures turn == old(turn) + Turns(old(rotatedAt), now) && rotatedAt == Since(old(rotatedAt), now)
      ensures |Visible()| < U64 && Sum(Visible()) < U64 ==>
        r == Average(Sum(Visible()), |Visible()|)
    {
      Rotate(now);
      r := MeanNow();
    }

    /** No bucket of either visible generation has overflowed. */
    ghost predicate Fits()
      reads this
      requires turn >= 1
    {
      forall i :: 0 <= i < BUCKETS ==>
        Tally(bucketOf, Of(log, turn), i) < U32 && Tally(bucketOf, Of(log, turn - 1), i) < U32
    }

    /** Rows `a` and `b` added up bucket by bucket. */
    method Merge(a: nat, b: nat) returns (both: array<nat>, total: nat)
      requires Shape() && a < GENERATIONS && b < GENERATIONS && Counted(a) && Counted(b)
      ensures fresh(both) && both.Length == BUCKETS
      ensures (forall i :: 0 <= i < BUCKETS ==>
                 Tally(bucketOf, held[a], i) < U32 && Tally(bucketOf, held[b], i) < U32) ==>
        total == |held[a] + held[b]| && forall i :: 0 <= i < BUCKETS ==>
          both[i] == Tally(bucketOf, held[a] + held[b], i)
    {
      both := new nat[BUCKETS](_ => 0);
      total := 0;
      for i := 0 to BUCKETS
        modifies both
        invariant total == Sum(both[..i])
        invariant forall k :: 0 <= k < i ==> both[k] == counts[a, k] + counts[b, k]
      {
        both[i] := counts[a, i] + counts[b, i];
        total := total + both[i];
        assert both[..i + 1] == both[..i] + [both[i]];
      }
      if forall i :: 0 <= i < BUCKETS ==> Tally(bucketOf, held[a], i) < U32 && Tally(bucketOf, held[b], i) < U32 {
        forall k | 0 <= k < BUCKETS ensures both[k] == Tally(bucketOf, held[a] + held[b], k) {
          TallyAppend(bucketOf, held[a], held[b], k);
          assert Counts(counts[a, k], Tally(bucketOf, held[a], k), U32)
                 && Counts(counts[b, k], Tally(bucketOf, held[b], k), U32);
        }
        assert both[..] == both[..BUCKETS];
        TotalIsNumber(bucketOf, held[a] + held[b], both[..]);
      }
    }

    /** The edge of the bucket that holds the sample of the asked-for rank among the visible ones. */
    method QuantileNow(rank: nat -> nat) returns (r: Option<nat>)
      requires Valid() && Standard() && forall n :: rank(n) >= 1
      ensures Fits() ==> (r.None? <==> Visible() == [])
      ensures Fits() && r.Some? ==> Bounds(r.value, Visible(), rank(|Visible()|))
    {
      var index := Locate(rank);
      if index.None? {
        return None;
      }
      if Fits() {
        Found(bucketOf, Visible(), rank(|Visible()|), index.value);
      }
      return Some(UpperEdge(index.value));
    }

    /** The bucket at which the running count of the visible samples reaches the rank. */
    method Locate(rank: nat -> nat) returns (r: Option<nat>)
      requires Valid() && forall n :: rank(n) >= 1
      ensures Fits() ==> (r.None? <==> Visible() == [])
      ensures Fits() && r.Some? ==> Reaches(bucketOf, Visible(), rank(|Visible()|), r.value)
    {
      ghost var visible := held[current] + held[Previous(current)];
      var both, total := Merge(current, Previous(current));
      if total == 0 {
        return None;
      }
      var index := Walk(bucketOf, both, rank(total), visible);
      return Some(index);
    }

    method Quantile(rank: nat -> nat, now: nat) returns (r: Option<nat>)
      requires Valid() && Standard() && clock <= now && forall n :: rank(n) >= 1
      modifies this, counts, count, sum
      ensures Valid() && clock == now && log == old(log) && Window(now)
      ensures turn == old(turn) + Turns(old(rotatedAt), now) && rotatedAt == Since(old(rotatedAt), now)
      ensures Fits() ==> (r.None? <==> Visible() == [])
      ensures Fits() && r.Some? ==> Bounds(r.value, Visible(), rank(|Visible()|))
    {
      Rotate(now);
      r := QuantileNow(rank);
    }

    /** `quantile_at`: the bound for the sample whose rank is the asked-for share of the visible ones. */
    method QuantileAt(quantile: real, now: nat) returns (r: Option<nat>)
      requires Valid() && Standard() && clock <= now
      modifies this, counts, count, sum
      ensures Valid() && clock == now && log == old(log) && Window(now)
      ensures Fits() ==> (r.None? <==> Visible() == [])
      ensures Fits() && r.Some? ==> Bounds(r.value, Visible(), Rank(quantile, |Visible()|))
    {
      r := Quantile(n => Rank(quantile, n), now);
    }
  }

  /** The window is not "one to two periods": for every age below three periods less a nanosecond
      there are calls after which a sample of that age is still the whole mean. */
  method StillVisible(sample: nat, age: nat) returns (r: Option<nat>)
    requires sample < U64 && age <= 3 * PERIOD - 2
    ensures r == Some(sample)
  {
    var latency := Observed(sample, age);
    r := latency.Mean(age);
    OfOne(latency.log[0], latency.turn);
  }

  /** One sample, and a read just short of two periods later if the age asks for it. */
  method Observed(sample: nat, age: nat) returns (latency: Latency)
    requires sample < U64 && age <= 3 * PERIOD - 2
    ensures latency.Valid() && fresh(latency) && fresh(latency.Repr()) && latency.clock <= age
    ensures |latency.log| == 1 && latency.log[0].nanos == sample
    ensures latency.log[0].turn <= latency.turn + Turns(latency.rotatedAt, age) <= latency.log[0].turn + 1
  {
    TurnsTaken(age);
    latency := new Latency();
    latency.Observe(sample, 0);
    if age >= 2 * PERIOD {
      var _ := latency.Mean(2 * PERIOD - 1);
    }
  }

  lemma TurnsTaken(age: nat)
    ensures Turns(0, 0) == 0 && Turns(0, 2 * PERIOD - 1) == 1 && Since(0, 2 * PERIOD - 1) == 2 * PERIOD - 1
    ensures age < 2 * PERIOD ==> Turns(0, age) <= 1
    ensures 2 * PERIOD <= age <= 3 * PERIOD - 2 ==> Turns(2 * PERIOD - 1, age) == 0
  {
  }

  lemma OfOne(e: Entry, turn: nat)
    requires 1 <= turn && e.turn <= turn <= e.turn + 1
    ensures Of([e], turn) + Of([e], turn - 1) == [e.nanos] && Sum([e.nanos]) == e.nanos
  {
    assert [e][..0] == [];
    assert [e.nanos][..0] == [];
  }

  lemma TimedNext(log: seq<Entry>, nanos: nat, turn: nat, rotatedAt: nat, before: nat, now: nat)
    requires Timed(log, turn, rotatedAt, before, now) && now < rotatedAt + PERIOD
    ensures Timed(log + [Entry(nanos, now, turn)], turn, rotatedAt, before, now)
    ensures forall t :: Of(log + [Entry(nanos, now, turn)], t) == if t == turn then Of(log, t) + [nanos] else Of(log, t)
  {
    var next := log + [Entry(nanos, now, turn)];
    assert next[..|log|] == log;
    assert Dated(Entry(nanos, now, turn), turn, rotatedAt, before, now);
  }

  /** The floor of the mean of `number` samples that add up to `total`, if there are any. */
  function Average(total: nat, number: nat): Option<nat> { if number == 0 then None else Some(total / number) }

  /** Number and sum of the samples of two generations. */
  method Totals(m: nat, n: nat, s: nat, t: nat, ghost a: seq<nat>, ghost b: seq<nat>) returns (number: nat, total: nat)
    requires Counts(m, |a|, U64) && Counts(n, |b|, U64) && Counts(s, Sum(a), U64) && Counts(t, Sum(b), U64)
    ensures |a + b| < U64 && Sum(a + b) < U64 ==> number == |a + b| && total == Sum(a + b)
  {
    SumAppend(a, b);
    number, total := Wrap(m + n, U64), Wrap(s + t, U64);
  }

  /** Counts per bucket add up to the number of samples. */
  lemma TotalIsNumber(f: nat -> nat, samples: seq<nat>, counts: seq<nat>)
    requires |counts| == BUCKETS && (forall x :: f(x) < BUCKETS) && forall k :: 0 <= k < BUCKETS ==>
               counts[k] == Tally(f, samples, k)
    ensures Sum(counts) == |samples|
  {
    AtOrBelowEnds(f, samples);
    TotalUpTo(f, samples, counts, BUCKETS);
    assert counts[..BUCKETS] == counts;
  }

  lemma {:induction false} TotalUpTo(f: nat -> nat, samples: seq<nat>, counts: seq<nat>, n: nat)
    requires n <= |counts| && forall k :: 0 <= k < n ==> counts[k] == Tally(f, samples, k)
    ensures Sum(counts[..n]) == AtOrBelow(f, samples, n - 1)
  {
    if n == 0 {
      NoneBelow(f, samples);
    } else {
      TotalUpTo(f, samples, counts, n - 1);
      AtOrBelowStep(f, samples, n - 1);
      assert counts[..n][..n - 1] == counts[..n - 1];
    }
  }

  lemma {:induction false} NoneBelow(f: nat -> nat, samples: seq<nat>)
    ensures AtOrBelow(f, samples, -1) == 0
  {
    if samples != [] {
      NoneBelow(f, samples[..|samples| - 1]);
    }
  }

  /** The count of samples up to bucket `index` is the first to reach `r`, if there are so many. */
  predicate Reaches(f: nat -> nat, samples: seq<nat>, r: nat, index: nat) {
    r <= |samples| ==> AtOrBelow(f, samples, index) >= r > AtOrBelow(f, samples, index - 1)
  }

  /** Walks the buckets until the running count reaches `target`. */
  method Walk(f: nat -> nat, both: array<nat>, target: nat, ghost samples: seq<nat>) returns (index: nat)
    requires both.Length == BUCKETS && target >= 1 && forall x :: f(x) < BUCKETS
    ensures index < BUCKETS
    ensures (forall i :: 0 <= i < BUCKETS ==> both[i] == Tally(f, samples, i)) ==>
      Reaches(f, samples, target, index)
  {
    var seen := 0;
    ghost var exact := forall i :: 0 <= i < BUCKETS ==> both[i] == Tally(f, samples, i);
    AtOrBelowEnds(f, samples);
    for i := 0 to BUCKETS
      invariant seen < target
      invariant exact ==> seen == AtOrBelow(f, samples, i - 1)
    {
      AtOrBelowStep(f, samples, i);
      seen := seen + both[i];
      if seen >= target {
        return i;
      }
    }
    return BUCKETS - 1;
  }

  /** The value returned for rank `r` bounds the `r`-th smallest sample from above. */
  ghost predicate Bounds(edge: nat, samples: seq<nat>, r: nat) {
    forall sorted: seq<nat> :: Sorted(sorted) && multiset(sorted) == multiset(samples) && 1 <= r <= |sorted| ==>
      Bounded(edge, sorted[r - 1])
  }

  predicate Bounded(edge: nat, x: nat) {
    && (edge > x <==> x < Pow2(40))
    && (x < Pow2(40) ==> 8 * edge <= 9 * Max(x, Pow2(16)))
  }

  lemma Found(f: nat -> nat, samples: seq<nat>, r: nat, index: nat)
    requires (forall x :: f(x) == Bucket(x)) && 1 <= r
    requires Reaches(f, samples, r, index)
    ensures Bounds(UpperEdge(index), samples, r)
  {
    if r <= |samples| {
      StoppedBounds(f, samples, r, index);
    } else {
      BeyondBounds(UpperEdge(index), samples, r);
    }
  }

  lemma StoppedBounds(f: nat -> nat, samples: seq<nat>, r: nat, index: nat)
    requires (forall x :: f(x) == Bucket(x)) && 1 <= r
             && AtOrBelow(f, samples, index) >= r > AtOrBelow(f, samples, index - 1)
    ensures Bounds(UpperEdge(index), samples, r)
  {
    forall sorted: seq<nat> | Sorted(sorted) && multiset(sorted) == multiset(samples) && 1 <= r <= |sorted|
      ensures Bounded(UpperEdge(index), sorted[r - 1])
    {
      QuantileBound(f, samples, sorted, r, index);
    }
  }

  lemma BeyondBounds(edge: nat, samples: seq<nat>, r: nat)
    requires r > |samples|
    ensures Bounds(edge, samples, r)
  {
    forall sorted: seq<nat> | Sorted(sorted) && multiset(sorted) == multiset(samples) ensures |sorted| == |samples| {
      assert |multiset(sorted)| == |multiset(samples)|;
    }
  }
}
