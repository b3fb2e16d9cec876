/** One `animate` tick as a transition on the state it touches, and runs of ticks. The
    never-ending self-scheduling is not modelled; each tick counts the one frame it asks
    the host for. */
module Animation {
  import Gate

  /** The gate's accumulator, the earth container's accumulated Y rotation, the renders
      issued, the tween updates run, and the next-frame callbacks requested. */
  datatype LoopState = LoopState(timeS: real, rotationY: real, renders: nat, tweenUpdates: nat, scheduled: nat)

  /** One tick: ask the gate; when it passes, update the tweens, turn the container by
      `rotateSpeed` if `autoRotate` is set, and render once; always ask for the next frame. */
  function Tick(isLimit: bool, autoRotate: bool, rotateSpeed: real, s: LoopState, delta: real): (r: LoopState)
    ensures r.scheduled == s.scheduled + 1
    ensures r.renders == s.renders || r.renders == s.renders + 1
    ensures r.tweenUpdates - s.tweenUpdates == r.renders - s.renders
    ensures r.renders == s.renders + 1 <==> Gate.Step(isLimit, s.timeS, delta).pass
    ensures r.rotationY == s.rotationY + (if autoRotate && r.renders > s.renders then rotateSpeed else 0.0)
    ensures r.timeS == Gate.Step(isLimit, s.timeS, delta).timeS
  {
    var g := Gate.Step(isLimit, s.timeS, delta);
    if g.pass then
      LoopState(g.timeS, if autoRotate then s.rotationY + rotateSpeed else s.rotationY,
                s.renders + 1, s.tweenUpdates + 1, s.scheduled + 1)
    else
      LoopState(g.timeS, s.rotationY, s.renders, s.tweenUpdates, s.scheduled + 1)
  }

  /** Successive ticks, one per clock delta. */
  function Ticks(isLimit: bool, autoRotate: bool, rotateSpeed: real, s: LoopState, ds: seq<real>): LoopState
    decreases ds
  {
    if ds == [] then s
    else Ticks(isLimit, autoRotate, rotateSpeed, Tick(isLimit, autoRotate, rotateSpeed, s, ds[0]), ds[1..])
  }

  /** Over any run of ticks the renders and tween updates are exactly the gate's passes,
      the rotation is one `rotateSpeed` per pass (when rotating), and one frame is requested
      per tick. */
  lemma {:induction false} TicksFollowGateTimes(isLimit: bool, autoRotate: bool, rotateSpeed: real, s: LoopState, ds: seq<real>)
    ensures var r := Ticks(isLimit, autoRotate, rotateSpeed, s, ds);
            var g := Gate.Run(isLimit, s.timeS, ds);
            && r.renders == s.renders + g.passes
            && r.tweenUpdates == s.tweenUpdates + g.passes
            && r.scheduled == s.scheduled + |ds|
            && r.timeS == g.timeS
            && r.rotationY == s.rotationY + (if autoRotate then Gate.Times(g.passes, rotateSpeed) else 0.0)
    decreases ds
  {
    if ds != [] {
      var t := Tick(isLimit, autoRotate, rotateSpeed, s, ds[0]);
      TicksFollowGateTimes(isLimit, autoRotate, rotateSpeed, t, ds[1..]);
    }
  }

  /** Renders and rotation match the ticks that passed the gate. */
  lemma TicksFollowGate(isLimit: bool, autoRotate: bool, rotateSpeed: real, s: LoopState, ds: seq<real>)
    ensures var r := Ticks(isLimit, autoRotate, rotateSpeed, s, ds);
            var g := Gate.Run(isLimit, s.timeS, ds);
            && r.renders == s.renders + g.passes
            && r.tweenUpdates == s.tweenUpdates + g.passes
            && r.scheduled == s.scheduled + |ds|
            && r.timeS == g.timeS
            && r.rotationY == s.rotationY + (if autoRotate then (g.passes as real) * rotateSpeed else 0.0)
  {
    TicksFollowGateTimes(isLimit, autoRotate, rotateSpeed, s, ds);
    Gate.TimesIsProduct(Gate.Run(isLimit, s.timeS, ds).passes, rotateSpeed);
  }

  /** In the pass-through mode the scene is built with, every tick renders: after n ticks
      there are n more renders and, when rotating, the container has turned by n times
      `rotateSpeed`. */
  lemma UnlimitedTicks(autoRotate: bool, rotateSpeed: real, s: LoopState, ds: seq<real>)
    ensures var r := Ticks(true, autoRotate, rotateSpeed, s, ds);
            && r.renders == s.renders + |ds|
            && r.scheduled == s.scheduled + |ds|
            && r.timeS == s.timeS
            && r.rotationY == s.rotationY + (if autoRotate then (|ds| as real) * rotateSpeed else 0.0)
  {
    TicksFollowGate(true, autoRotate, rotateSpeed, s, ds);
    Gate.UnlimitedRun(s.timeS, ds);
  }

  /** Throttled, a run of ticks whose deltas add up to no more than 1/30 s renders nothing
      and leaves the container where it was. */
  lemma QuietTicks(autoRotate: bool, rotateSpeed: real, s: LoopState, ds: seq<real>)
    requires 0.0 <= s.timeS && Gate.NonNegative(ds) && s.timeS + Gate.Sum(ds) <= Gate.RenderT
    ensures var r := Ticks(false, autoRotate, rotateSpeed, s, ds);
            r.renders == s.renders && r.rotationY == s.rotationY && r.scheduled == s.scheduled + |ds|
  {
    TicksFollowGate(false, autoRotate, rotateSpeed, s, ds);
    Gate.QuietRun(s.timeS, ds);
  }
}
