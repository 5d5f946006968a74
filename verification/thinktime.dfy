/** The decaying averages of think times that CFQ and the anticipatory scheduler keep
    (cfq_update_io_thinktime, as_update_thinktime). */
module Thinktime {

  /** The decay of all three values: x is 7/8 of itself plus 1/8 of the new one. */
  function Decay(x: nat, added: nat): nat { (7 * x + added) / 8 }

  /** ttime_mean */
  function Rounded(total: nat, samples: nat): nat
    requires samples > 0
  {
    (total + 128) / samples
  }

  /** ttime_samples after n updates, in fixed point: 1.0 is 256. */
  function Samples(n: nat): nat { if n == 0 then 0 else Decay(Samples(n - 1), 256) }

  /** ttime_total after the think times ts. */
  function Total(ts: seq<nat>): nat {
    if ts == [] then 0 else Decay(Total(ts[..|ts| - 1]), 256 * ts[|ts| - 1])
  }

  lemma Next(ts: seq<nat>, x: nat)
    ensures Samples(|ts| + 1) == Decay(Samples(|ts|), 256) && Total(ts + [x]) == Decay(Total(ts), 256 * x)
  {
    assert (ts + [x])[..|ts|] == ts;
  }

  predicate Between(ts: seq<nat>, low: nat, high: nat) { forall i :: 0 <= i < |ts| ==> low <= ts[i] <= high }

  /** The weight of the samples never reaches 250. */
  lemma {:induction false} SamplesBound(n: nat)
    ensures Samples(n) <= 249 && (n >= 1 ==> Samples(n) >= 32)
  {
    if n > 0 { SamplesBound(n - 1); }
  }

  lemma UpperStep(high: nat, s: nat, t: nat, x: nat)
    requires t <= high * (s + 7) && x <= high
    ensures (7 * t + 256 * x) / 8 <= high * ((7 * s + 256) / 8 + 7)
  {
    var s' := (7 * s + 256) / 8;
    assert 7 * s + 305 <= 8 * (s' + 7);
    MulLe(high, 7 * s + 305, 8 * (s' + 7));
    assert 7 * t + 256 * x <= 7 * (high * (s + 7)) + 256 * high;
    assert 7 * (high * (s + 7)) + 256 * high == high * (7 * s + 305);
    assert high * (8 * (s' + 7)) == 8 * (high * (s' + 7));
  }

  lemma LowerStep(low: nat, s: nat, t: nat, x: nat)
    requires t + 7 >= low * s && x >= low
    ensures (7 * t + 256 * x) / 8 + 7 >= low * ((7 * s + 256) / 8)
  {
    var s' := (7 * s + 256) / 8;
    MulLe(low, 8 * s', 7 * s + 256);
    assert low * (7 * s + 256) == 7 * (low * s) + 256 * low;
    assert low * (8 * s') == 8 * (low * s');
  }

  lemma MulLe(a: nat, b: nat, c: nat)
    requires b <= c
    ensures a * b <= a * c
  {
  }

  /** The total stays within the weighted bounds, although every step truncates. */
  lemma {:induction false} TotalBounds(ts: seq<nat>, low: nat, high: nat)
    requires Between(ts, low, high)
    ensures low * Samples(|ts|) <= Total(ts) + 7 && Total(ts) <= high * (Samples(|ts|) + 7)
  {
    if ts == [] {
      assert low * 0 == 0;
    } else {
      var n := |ts| - 1;
      TotalBounds(ts[..n], low, high);
      UpperStep(high, Samples(n), Total(ts[..n]), ts[n]);
      LowerStep(low, Samples(n), Total(ts[..n]), ts[n]);
    }
  }

  // ---- the weighted average ----

  /** The weight of a value k updates ago. */
  function Weight(k: nat): real { if k == 0 then 1.0 / 8.0 else Weight(k - 1) * 7.0 / 8.0 }

  /** The values with their weights, in fixed point, without any rounding. */
  function Weighted(ts: seq<nat>): real {
    if ts == [] then 0.0 else Weight(|ts| - 1) * 256.0 * (ts[0] as real) + Weighted(ts[1..])
  }

  lemma {:induction false} WeightedNext(ts: seq<nat>, x: nat)
    ensures Weighted(ts + [x]) == Weighted(ts) * 7.0 / 8.0 + 32.0 * (x as real)
  {
    var us := ts + [x];
    if ts == [] {
      assert us[1..] == [];
      assert Weight(0) * 256.0 * (x as real) == 32.0 * (x as real);
    } else {
      WeightedNext(ts[1..], x);
      assert us[1..] == ts[1..] + [x];
      Scaled(Weight(|ts| - 1), ts[0] as real, Weighted(ts[1..]), 32.0 * (x as real));
    }
  }

  lemma Scaled(w: real, x: real, rest: real, added: real)
    ensures (w * 7.0 / 8.0) * 256.0 * x + (rest * 7.0 / 8.0 + added) == (w * 256.0 * x + rest) * 7.0 / 8.0 + added
  {
  }

  /** One truncating step against the exact one. */
  lemma DecayNear(t: nat, w: real, x: nat)
    requires w - 7.0 <= t as real <= w
    ensures (w * 7.0 / 8.0 + 32.0 * (x as real)) - 7.0 <= ((7 * t + 256 * x) / 8) as real
            <= w * 7.0 / 8.0 + 32.0 * (x as real)
  {
    var u: nat := (7 * t + 256 * x) / 8;
    assert 8 * u <= 7 * t + 256 * x <= 8 * u + 7;
    assert 8.0 * (u as real) <= 7.0 * (t as real) + 256.0 * (x as real) <= 8.0 * (u as real) + 7.0;
  }

  /** The total is the exponentially weighted sum of all think times, and truncation in every
      step never costs more than 7. */
  lemma {:induction false} TotalIsWeighted(ts: seq<nat>)
    ensures Weighted(ts) - 7.0 <= Total(ts) as real <= Weighted(ts)
  {
    if ts != [] {
      var n := |ts| - 1;
      TotalIsWeighted(ts[..n]);
      WeightedNext(ts[..n], ts[n]);
      assert ts[..n] + [ts[n]] == ts;
      DecayNear(Total(ts[..n]), Weighted(ts[..n]), ts[n]);
    }
  }

  function Ones(n: nat): seq<nat> { seq(n, i => 1) }

  /** The samples are the weights themselves, with the same precision. */
  lemma {:induction false} SamplesAreWeights(n: nat)
    ensures Weighted(Ones(n)) - 7.0 <= Samples(n) as real <= Weighted(Ones(n))
  {
    if n > 0 {
      SamplesAreWeights(n - 1);
      WeightedNext(Ones(n - 1), 1);
      assert Ones(n - 1) + [1] == Ones(n);
      DecayNear(Samples(n - 1), Weighted(Ones(n - 1)), 1);
    }
  }

  // ---- the mean ----

  lemma DivideAtLeast(low: nat, u: nat, s: nat)
    requires s > 0 && low * s <= u
    ensures low <= u / s
  {
    assert s * (u / s) + u % s == u;
    if u / s < low { MulLe(s, u / s + 1, low); }
  }

  lemma DivideMonotone(a: nat, b: nat, s: nat)
    requires s > 0 && a <= b
    ensures a / s <= b / s
  {
    assert s * (a / s) + a % s == a;
    DivideAtLeast(a / s, b, s);
  }

  /** The mean lies between the least think time and a little more than the greatest:
      (high * (samples + 7) + 128) / samples. */
  ghost predicate MeanBounded(mean: nat, samples: nat, seen: seq<nat>) {
    samples > 0 && forall low: nat, high: nat :: Between(seen, low, high) ==>
        low <= mean <= (high * (samples + 7) + 128) / samples
  }

  lemma RoundedBounds(low: nat, high: nat, s: nat, t: nat)
    requires s > 0 && low * s <= t + 7 && t <= high * (s + 7)
    ensures low <= Rounded(t, s) <= (high * (s + 7) + 128) / s
  {
    DivideAtLeast(low, t + 128, s);
    DivideMonotone(t + 128, high * (s + 7) + 128, s);
  }

  lemma RoundedIs(t: nat, s: nat)
    requires s > 0
    ensures Rounded(t, s) * s <= t + 128 < (Rounded(t, s) + 1) * s
  {
    var r := Rounded(t, s);
    assert s * r + (t + 128) % s == t + 128;
    assert (r + 1) * s == s * r + s;
  }

  lemma MeanBounds(ts: seq<nat>)
    requires ts != []
    ensures Samples(|ts|) > 0 && MeanBounded(Rounded(Total(ts), Samples(|ts|)), Samples(|ts|), ts)
  {
    hide Samples, Total, Rounded, Between;
    SamplesBound(|ts|);
    forall low: nat, high: nat | Between(ts, low, high)
      ensures low <= Rounded(Total(ts), Samples(|ts|)) <= (high * (Samples(|ts|) + 7) + 128) / Samples(|ts|)
    {
      TotalBounds(ts, low, high);
      RoundedBounds(low, high, Samples(|ts|), Total(ts));
    }
  }

  /** `struct cfq_io_context`, the part that measures think time; as_io_context has the same
      fields. */
  class History {
    var samples: nat
    var total: nat
    var mean: nat
    ghost var seen: seq<nat>

    ghost predicate Valid()
      reads this
    {
      && samples == Samples(|seen|) && total == Total(seen)
      && (seen != [] ==> samples > 0 && mean == Rounded(total, samples))
    }

    constructor ()
      ensures Valid() && seen == []
    {
      samples, total, mean, seen := 0, 0, 0, [];
    }

    /** `cfq_update_io_thinktime` with the time since the last request, and twice slice_idle
        as the limit. */
    method Update(elapsed: nat, limit: nat)
      requires Valid()
      modifies this
      ensures Valid() && seen == old(seen) + [if elapsed < limit then elapsed else limit]
      ensures 32 <= samples <= 249 && mean * samples <= total + 128 < (mean + 1) * samples
      ensures MeanBounded(mean, samples, seen)
    {
      hide MeanBounded, Samples, Total, Decay, Rounded;
      var ttime := if elapsed < limit then elapsed else limit;
      Next(seen, ttime);
      SamplesBound(|seen| + 1);
      MeanBounds(seen + [ttime]);
      RoundedIs(Total(seen + [ttime]), Samples(|seen| + 1));
      seen := seen + [ttime];
      samples := Decay(samples, 256);
      total := Decay(total, 256 * ttime);
      mean := Rounded(total, samples);
    }
  }
}
