/** The frame gate built by `ChartScene.limitFPS`: a closure over an elapsed-time
    accumulator that lets a render through at most 30 times per second, unless it
    was created with `isLimit` set, in which case it lets every render through.
    (The flag's name reads the other way round: `isLimit == true` switches the
    throttle off.) */
module Gate {

  /** Target render rate, in renders per second. */
  const FPS: real := 30.0

  /** Interval between throttled renders, in seconds. */
  const RenderT: real := 1.0 / FPS

  /** What one call of the gate answers, with the accumulator it leaves behind. */
  datatype Outcome = Outcome(pass: bool, timeS: real)

  /** What a run of calls answers: how many of them passed, and the final accumulator. */
  datatype RunOutcome = RunOutcome(passes: nat, timeS: real)

  /** One call of the gate, given the clock delta since the previous call. */
  function Step(isLimit: bool, timeS: real, delta: real): (r: Outcome)
    ensures 0.0 <= timeS <= RenderT && 0.0 <= delta ==> 0.0 <= r.timeS <= RenderT
    ensures !isLimit && r.pass ==> r.timeS == 0.0
    ensures !r.pass ==> !isLimit && r.timeS == timeS + delta <= RenderT
    ensures !isLimit ==> (r.pass <==> timeS + delta > RenderT)
    ensures isLimit ==> r == Outcome(true, timeS)
  {
    if isLimit then Outcome(true, timeS)
    else if timeS + delta > RenderT then Outcome(true, 0.0)
    else Outcome(false, timeS + delta)
  }

  /** Total of a sequence of clock deltas. */
  function Sum(ds: seq<real>): real
  {
    if ds == [] then 0.0 else ds[0] + Sum(ds[1..])
  }

  ghost predicate NonNegative(ds: seq<real>)
  {
    forall i :: 0 <= i < |ds| ==> 0.0 <= ds[i]
  }

  /** Successive calls of the gate, one per delta, starting from accumulator `timeS`. */
  function Run(isLimit: bool, timeS: real, ds: seq<real>): (r: RunOutcome)
    ensures r.passes <= |ds|
    ensures 0.0 <= timeS <= RenderT && NonNegative(ds) ==> 0.0 <= r.timeS <= RenderT
    decreases ds
  {
    if ds == [] then RunOutcome(0, timeS)
    else
      var s := Step(isLimit, timeS, ds[0]);
      var rest := Run(isLimit, s.timeS, ds[1..]);
      RunOutcome(rest.passes + (if s.pass then 1 else 0), rest.timeS)
  }

  lemma {:induction false} SumNonNegative(ds: seq<real>)
    requires NonNegative(ds)
    ensures Sum(ds) >= 0.0
  {
    if ds != [] {
      SumNonNegative(ds[1..]);
    }
  }

  lemma {:induction false} SumAppend(a: seq<real>, b: seq<real>)
    ensures Sum(a + b) == Sum(a) + Sum(b)
  {
    if a == [] {
      assert a + b == b;
    } else {
      assert (a + b)[1..] == a[1..] + b;
      SumAppend(a[1..], b);
    }
  }

  /** Calls over `a + b` are the calls over `a` followed by the calls over `b`. */
  lemma {:induction false} RunAppend(isLimit: bool, timeS: real, a: seq<real>, b: seq<real>)
    ensures var ra := Run(isLimit, timeS, a);
            var rb := Run(isLimit, ra.timeS, b);
            Run(isLimit, timeS, a + b) == RunOutcome(ra.passes + rb.passes, rb.timeS)
    decreases a
  {
    if a == [] {
      assert a + b == b;
    } else {
      assert (a + b)[1..] == a[1..] + b;
      RunAppend(isLimit, Step(isLimit, timeS, a[0]).timeS, a[1..], b);
    }
  }

  /** In pass-through mode every call passes and the accumulator never moves. */
  lemma {:induction false} UnlimitedRun(timeS: real, ds: seq<real>)
    ensures Run(true, timeS, ds) == RunOutcome(|ds|, timeS)
  {
    if ds != [] {
      UnlimitedRun(timeS, ds[1..]);
    }
  }

  /** Throttled, a run of deltas that does not take the accumulator past 1/30 never passes,
      and leaves the whole sum in the accumulator. */
  lemma {:induction false} QuietRun(timeS: real, ds: seq<real>)
    requires 0.0 <= timeS && NonNegative(ds)
    requires timeS + Sum(ds) <= RenderT
    ensures Run(false, timeS, ds) == RunOutcome(0, timeS + Sum(ds))
    decreases ds
  {
    if ds != [] {
      SumNonNegative(ds[1..]);
      assert timeS + ds[0] <= RenderT;
      QuietRun(timeS + ds[0], ds[1..]);
    }
  }

  /** Throttled, the first call that takes the accumulator strictly past 1/30 is the one
      call that passes, and it resets the accumulator to zero. */
  lemma CrossingPassesOnce(timeS: real, ds: seq<real>, d: real)
    requires 0.0 <= timeS && NonNegative(ds) && 0.0 <= d
    requires timeS + Sum(ds) <= RenderT < timeS + Sum(ds) + d
    ensures Run(false, timeS, ds + [d]) == RunOutcome(1, 0.0)
  {
    QuietRun(timeS, ds);
    RunAppend(false, timeS, ds, [d]);
  }

  /** Rate bound from above: every pass accounts for more than 1/30 s of clock time, so
      there are never more than 30 passes per second of time consumed (elapsed time less
      what the accumulator still holds). */
  lemma RunPassesBounded(timeS: real, ds: seq<real>)
    requires 0.0 <= timeS <= RenderT && NonNegative(ds)
    ensures var r := Run(false, timeS, ds);
            (r.passes as real) * RenderT <= timeS + Sum(ds) - r.timeS
  {
    RunPassesBoundedTimes(timeS, ds);
    TimesIsProduct(Run(false, timeS, ds).passes, RenderT);
  }

  lemma {:induction false} RunPassesBoundedTimes(timeS: real, ds: seq<real>)
    requires 0.0 <= timeS <= RenderT && NonNegative(ds)
    ensures var r := Run(false, timeS, ds);
            Times(r.passes, RenderT) <= timeS + Sum(ds) - r.timeS
    decreases ds
  {
    if ds != [] {
      var s := Step(false, timeS, ds[0]);
      assert NonNegative(ds[1..]) by {
        forall i | 0 <= i < |ds[1..]| ensures 0.0 <= ds[1..][i] { assert ds[1..][i] == ds[i + 1]; }
      }
      RunPassesBoundedTimes(s.timeS, ds[1..]);
    }
  }

  /** `n` copies of `c` added up: `n * c` without the multiplication. */
  function Times(n: nat, c: real): real
  {
    if n == 0 then 0.0 else Times(n - 1, c) + c
  }

  lemma {:induction false} TimesIsProduct(n: nat, c: real)
    ensures Times(n, c) == (n as real) * c
  {
    if n > 0 {
      TimesIsProduct(n - 1, c);
      assert (n as real) * c == ((n - 1) as real) * c + c;
    }
  }

  lemma {:induction false} RunPassesKeepUpTimes(timeS: real, ds: seq<real>, dmax: real)
    requires 0.0 <= timeS <= RenderT && NonNegative(ds)
    requires forall i :: 0 <= i < |ds| ==> ds[i] <= dmax
    ensures var r := Run(false, timeS, ds);
            timeS + Sum(ds) - r.timeS <= Times(r.passes, RenderT + dmax)
    decreases ds
  {
    if ds != [] {
      var s := Step(false, timeS, ds[0]);
      assert NonNegative(ds[1..]) && forall i :: 0 <= i < |ds[1..]| ==> ds[1..][i] <= dmax by {
        forall i | 0 <= i < |ds[1..]| ensures 0.0 <= ds[1..][i] <= dmax { assert ds[1..][i] == ds[i + 1]; }
      }
      RunPassesKeepUpTimes(s.timeS, ds[1..], dmax);
    }
  }

  /** Rate bound from below: a pass accounts for at most 1/30 s plus one delta, so with every
      delta at most `dmax` there is at least one pass per 1/30 + `dmax` seconds of time
      consumed. Because a pass resets the accumulator to zero instead of subtracting 1/30,
      its overshoot is lost, and the rate can fall well short of 30 per second
      (`SixtyHertzOneSecond`). */
  lemma RunPassesKeepUp(timeS: real, ds: seq<real>, dmax: real)
    requires 0.0 <= timeS <= RenderT && NonNegative(ds)
    requires forall i :: 0 <= i < |ds| ==> ds[i] <= dmax
    ensures var r := Run(false, timeS, ds);
            timeS + Sum(ds) - r.timeS <= (r.passes as real) * (RenderT + dmax)
  {
    RunPassesKeepUpTimes(timeS, ds, dmax);
    TimesIsProduct(Run(false, timeS, ds).passes, RenderT + dmax);
  }

  /** `k` clock deltas of `d` each. */
  function Constant(k: nat, d: real): (ds: seq<real>)
    ensures |ds| == k && forall i :: 0 <= i < k ==> ds[i] == d
  {
    seq(k, _ => d)
  }

  /** The interval of a 60 Hz display. */
  const Frame60: real := 1.0 / 60.0

  lemma {:induction false} SumConstant(k: nat, d: real)
    ensures Sum(Constant(k, d)) == Times(k, d)
  {
    if k > 0 {
      assert Constant(k, d)[1..] == Constant(k - 1, d);
      SumConstant(k - 1, d);
    }
  }

  /** At 60 Hz a throttled pass needs three frames: 1/60 and 2/60 are not strictly above
      1/30, 3/60 is, and the reset drops the extra 1/60. */
  lemma ThreeFramesPerPass()
    ensures Run(false, 0.0, Constant(3, Frame60)) == RunOutcome(1, 0.0)
  {
    var ds := Constant(3, Frame60);
    assert ds[1..] == Constant(2, Frame60) && ds[1..][1..] == Constant(1, Frame60);
    assert ds[1..][1..][1..] == [];
    assert Step(false, 0.0, Frame60) == Outcome(false, Frame60);
    assert Step(false, Frame60, Frame60) == Outcome(false, 2.0 * Frame60);
    assert Step(false, 2.0 * Frame60, Frame60) == Outcome(true, 0.0);
    assert Run(false, 0.0, ds[1..][1..][1..]) == RunOutcome(0, 0.0);
    assert Run(false, 2.0 * Frame60, ds[1..][1..]) == RunOutcome(1, 0.0);
    assert Run(false, Frame60, ds[1..]) == RunOutcome(1, 0.0);
  }

  /** `3 * n` frames at 60 Hz give exactly `n` passes and leave the accumulator empty. */
  lemma {:induction false} SixtyHertzRun(n: nat)
    ensures Run(false, 0.0, Constant(3 * n, Frame60)) == RunOutcome(n, 0.0)
  {
    if n > 0 {
      assert Constant(3 * n, Frame60) == Constant(3, Frame60) + Constant(3 * (n - 1), Frame60);
      ThreeFramesPerPass();
      SixtyHertzRun(n - 1);
      RunAppend(false, 0.0, Constant(3, Frame60), Constant(3 * (n - 1), Frame60));
    }
  }

  /** One second of a 60 Hz display (60 deltas of 1/60 s, adding up to 1 s) gives 20 passes,
      not the 30 the target rate names. */
  lemma SixtyHertzOneSecond()
    ensures Sum(Constant(60, Frame60)) == 1.0
    ensures Run(false, 0.0, Constant(60, Frame60)) == RunOutcome(20, 0.0)
  {
    SixtyHertzRun(20);
    SumConstant(60, Frame60);
    TimesIsProduct(60, Frame60);
  }

  /** The closure returned by `limitFPS(isLimit)`, with its captured accumulator. */
  class FrameGate {
    const isLimit: bool
    var timeS: real

    ghost predicate Valid()
      reads this
    {
      0.0 <= timeS <= RenderT
    }

    constructor (isLimit: bool)
      ensures this.isLimit == isLimit && timeS == 0.0
      ensures Valid()
    {
      this.isLimit := isLimit;
      timeS := 0.0;
    }

    /** One call of the gate; `delta` is what the clock reports since the previous call
        (the clock is not consulted at all in pass-through mode). A falsy answer of the
        source (`undefined`) is `false` here. */
    method Pass(delta: real) returns (pass: bool)
      requires Valid() && 0.0 <= delta
      modifies this
      ensures Valid()
      ensures Outcome(pass, timeS) == Step(isLimit, old(timeS), delta)
      ensures isLimit ==> pass && timeS == old(timeS)
      ensures !isLimit ==> (pass <==> old(timeS) + delta > RenderT)
      ensures !isLimit ==> timeS == if pass then 0.0 else old(timeS) + delta
    {
      if isLimit {
        return true;
      }
      timeS := timeS + delta;
      if timeS > RenderT {
        timeS := 0.0;
        return true;
      }
      return false;
    }
  }
}
