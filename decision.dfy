/** The rover's per-tick decision policy (decision_step), as pure functions
    over the part of the rover state it reads and writes. The class method
    RoverState.Rover.DecisionStep is proved to update the rover exactly as
    `Step` says. */
module Decision {
  import opened Modes
  import opened Numeric

  /** Session constants the policy reads. */
  datatype Config = Config(throttleSet: real, brakeSet: real, maxVel: real,
                           stopForward: int, goForward: int)

  /** Telemetry the policy reads but never writes. */
  datatype Telemetry = Telemetry(vel: real, nearSample: bool, pickingUp: bool)

  /** What the policy writes: the commands, the mode and the three counters. */
  datatype Controls = Controls(mode: Mode, throttle: real, brake: real, steer: real,
                               sendPickup: bool, stuck: int, reverseCt: int, angleCt: int)

  /** steer_ang and rock_ang of one tick. Where decision_step does not
      compute them (the donut escape) or numpy would yield NaN (an empty
      signal) they hold 0.0, and AnglesDefined keeps every branch that
      reads them away from that case. */
  datatype Bearings = Bearings(steerAng: real, rockAng: real)

  /** The rock branch may end the tick early (before the donut counter update). */
  datatype Outcome = Continue(c: Controls) | Return(c: Controls)

  function Abs(x: real): real { if x < 0.0 then -x else x }

  function ToDegrees(rad: real): real { rad * 180.0 / Pi }

  /** int(.75 * n): where the top quartile of the sorted angles starts. */
  function TopQuartileStart(n: nat): (k: nat)
    ensures 4 * k <= 3 * n < 4 * k + 4
    ensures n >= 1 ==> k < n
  {
    (3 * n) / 4
  }

  /** steer_ang: mean of the top quartile (by value) of the angles, in degrees. */
  function SteerAngle(angles: seq<real>): real
    requires |angles| >= 1
  {
    ToDegrees(Mean(Sort(angles)[TopQuartileStart(|angles|)..]))
  }

  /** rock_ang: mean of all angles in degrees, clipped to [-15, 15]. */
  function RockAngle(angles: seq<real>): (r: real)
    requires |angles| >= 1
    ensures -15.0 <= r <= 15.0
    ensures -15.0 <= ToDegrees(Mean(angles)) <= 15.0 ==> r == ToDegrees(Mean(angles))
    ensures ToDegrees(Mean(angles)) > 15.0 ==> r == 15.0
    ensures ToDegrees(Mean(angles)) < -15.0 ==> r == -15.0
  {
    ClipReal(ToDegrees(Mean(angles)), -15.0, 15.0)
  }

  /** The steering angle is biased to the left: it is never below the plain
      mean of the angles. */
  lemma SteerAngleLeftBiased(angles: seq<real>)
    requires |angles| >= 1
    ensures SteerAngle(angles) >= ToDegrees(Mean(angles))
  {
    var s := Sort(angles);
    SuffixMeanAtLeastMean(s, TopQuartileStart(|angles|));
    assert Mean(s) == Mean(angles);
    MulMonotone(180.0 / Pi, Mean(angles), Mean(s[TopQuartileStart(|angles|)..]));
  }

  /** Forward mode (decision.py lines 30-62). */
  function ForwardStep(cfg: Config, vel: real, n: int, steerAng: real, c: Controls): (r: Controls)
    // enough navigable terrain: the brake is released in every sub-branch
    ensures n >= cfg.stopForward ==> r.brake == 0.0
    ensures n >= cfg.stopForward && vel == 0.0 && c.stuck < 5 ==>
      r.stuck == c.stuck + 1 && r.mode == c.mode && r.throttle == c.throttle && r.steer == c.steer
    ensures n >= cfg.stopForward && vel == 0.0 && c.stuck >= 5 ==>
      r.stuck == 0 && r.mode == Reverse && r.throttle == -2.0 * cfg.throttleSet && r.steer == c.steer
    // a moving tick never touches the stuck counter
    ensures n >= cfg.stopForward && vel != 0.0 ==> r.stuck == c.stuck && r.mode == c.mode
    ensures n >= cfg.stopForward && vel != 0.0 && vel < cfg.maxVel ==>
      r.throttle == cfg.throttleSet && r.steer == ClipReal(steerAng, -15.0, 15.0) &&
      -15.0 <= r.steer <= 15.0 && (-15.0 <= steerAng <= 15.0 ==> r.steer == steerAng)
    ensures n >= cfg.stopForward && vel != 0.0 && vel >= cfg.maxVel ==>
      r.throttle == 0.0 && r.steer == ClipReal(steerAng, -10.0, 10.0) &&
      -10.0 <= r.steer <= 10.0 && (-10.0 <= steerAng <= 10.0 ==> r.steer == steerAng)
    ensures n < cfg.stopForward ==>
      r.mode == Stop && r.throttle == 0.0 && r.brake == cfg.brakeSet && r.steer == 0.0 && r.stuck == c.stuck
    ensures r.sendPickup == c.sendPickup && r.reverseCt == c.reverseCt && r.angleCt == c.angleCt
  {
    if n >= cfg.stopForward then
      var c1 :=
        if vel == 0.0 then
          if c.stuck < 5 then c.(stuck := c.stuck + 1)
          else c.(throttle := -2.0 * cfg.throttleSet, mode := Reverse, stuck := 0)
        else if vel < cfg.maxVel then
          c.(throttle := cfg.throttleSet, steer := ClipReal(steerAng, -15.0, 15.0))
        else
          c.(throttle := 0.0, steer := ClipReal(steerAng, -10.0, 10.0));
      c1.(brake := 0.0)
    else
      c.(throttle := 0.0, brake := cfg.brakeSet, steer := 0.0, mode := Stop)
  }

  /** Reverse mode, the phased escape (decision.py lines 65-97). */
  function ReverseStep(cfg: Config, vel: real, c: Controls): (r: Controls)
    ensures 0 <= c.reverseCt <= 120 ==> 0 <= r.reverseCt <= 120
    ensures Abs(vel) > 0.5 ==>
      r.mode == Stop && r.throttle == 0.0 && r.brake == cfg.brakeSet && r.steer == c.steer && r.reverseCt == 0
    ensures Abs(vel) <= 0.5 && c.reverseCt < 120 ==>
      r.mode == c.mode && r.brake == 0.0 && r.reverseCt == c.reverseCt + 1
    ensures Abs(vel) <= 0.5 && c.reverseCt < 50 ==> r.throttle == -2.0 * cfg.throttleSet && r.steer == 15.0
    ensures Abs(vel) <= 0.5 && 50 <= c.reverseCt < 100 ==> r.throttle == 2.0 * cfg.throttleSet && r.steer == -15.0
    ensures Abs(vel) <= 0.5 && 100 <= c.reverseCt < 120 ==> r.throttle == 0.0 && r.steer == -15.0
    // giving up: back to stop with the counter cleared, commands left as they were
    ensures Abs(vel) <= 0.5 && c.reverseCt >= 120 ==>
      r.mode == Stop && r.reverseCt == 0 &&
      r.throttle == c.throttle && r.brake == c.brake && r.steer == c.steer
    ensures r.sendPickup == c.sendPickup && r.stuck == c.stuck && r.angleCt == c.angleCt
  {
    if Abs(vel) > 0.5 then
      c.(throttle := 0.0, brake := cfg.brakeSet, mode := Stop, reverseCt := 0)
    else if c.reverseCt < 50 then
      c.(throttle := -2.0 * cfg.throttleSet, brake := 0.0, steer := 15.0, reverseCt := c.reverseCt + 1)
    else if c.reverseCt < 100 then
      c.(throttle := 2.0 * cfg.throttleSet, brake := 0.0, steer := -15.0, reverseCt := c.reverseCt + 1)
    else if c.reverseCt < 120 then
      c.(throttle := 0.0, brake := 0.0, steer := -15.0, reverseCt := c.reverseCt + 1)
    else
      c.(mode := Stop, reverseCt := 0)
  }

  /** Stop mode (decision.py lines 100-123). The two terrain checks of the
      stopped case are complementary, so exactly one of them fires. */
  function StopStep(cfg: Config, vel: real, n: int, steerAng: real, c: Controls): (r: Controls)
    ensures vel > 0.2 ==>
      r.mode == c.mode && r.throttle == 0.0 && r.brake == cfg.brakeSet && r.steer == 0.0
    ensures vel <= 0.2 ==> r.brake == 0.0
    ensures vel <= 0.2 && n < cfg.goForward ==>
      r.mode == c.mode && r.throttle == 0.0 && r.steer == -15.0
    // the launch steers to the unclipped left-biased angle
    ensures vel <= 0.2 && n >= cfg.goForward ==>
      r.mode == Forward && r.throttle == 3.0 * cfg.throttleSet && r.steer == steerAng
    ensures r.sendPickup == c.sendPickup && r.stuck == c.stuck && r.reverseCt == c.reverseCt && r.angleCt == c.angleCt
  {
    if vel > 0.2 then
      c.(throttle := 0.0, brake := cfg.brakeSet, steer := 0.0)
    else if n < cfg.goForward then
      c.(throttle := 0.0, brake := 0.0, steer := -15.0)
    else
      c.(throttle := 3.0 * cfg.throttleSet, brake := 0.0, steer := steerAng, mode := Forward)
  }

  /** Does the rock branch read rock_ang on this tick? */
  predicate RockReadsAngle(t: Telemetry)
  {
    (t.nearSample && !t.pickingUp && t.vel >= 0.2) || (!t.nearSample && t.vel > 0.0)
  }

  /** Rock mode, approaching and picking up a sample (decision.py lines 126-156). */
  function RockStep(cfg: Config, t: Telemetry, rockAng: real, c: Controls): (r: Outcome)
    // a pickup in flight ends the tick at once
    ensures r.Return? <==> t.nearSample && t.pickingUp
    ensures r.Return? ==> r.c == c.(mode := Forward)
    ensures t.nearSample && !t.pickingUp && t.vel < 0.2 ==>
      r.c.sendPickup && r.c.mode == Forward &&
      r.c.throttle == c.throttle && r.c.brake == c.brake && r.c.steer == c.steer
    ensures t.nearSample && !t.pickingUp && t.vel >= 0.2 ==>
      r.c.mode == c.mode && r.c.throttle == 0.0 && r.c.brake == cfg.brakeSet && r.c.steer == rockAng
    ensures !t.nearSample && t.vel <= 0.0 ==>
      r.c.mode == Stop && r.c.throttle == c.throttle && r.c.brake == c.brake && r.c.steer == c.steer
    ensures !t.nearSample && t.vel > 0.0 ==>
      r.c.mode == c.mode && r.c.brake == 0.0 && r.c.steer == rockAng &&
      r.c.throttle == (if t.vel > 1.0 then -cfg.throttleSet / 2.0 else cfg.throttleSet)
    // the rock branch steers nowhere but toward the sample
    ensures r.c.steer == c.steer || r.c.steer == rockAng
    ensures !(t.nearSample && !t.pickingUp && t.vel < 0.2) ==> r.c.sendPickup == c.sendPickup
    ensures r.c.stuck == c.stuck && r.c.reverseCt == c.reverseCt && r.c.angleCt == c.angleCt
  {
    if t.nearSample then
      if t.pickingUp then Return(c.(mode := Forward))
      else if t.vel < 0.2 then Continue(c.(sendPickup := true, mode := Forward))
      else Continue(c.(throttle := 0.0, brake := cfg.brakeSet, steer := rockAng))
    else if t.vel <= 0.0 then
      Continue(c.(mode := Stop))
    else
      Continue(c.(throttle := if t.vel > 1.0 then -cfg.throttleSet / 2.0 else cfg.throttleSet,
                  steer := rockAng, brake := 0.0))
  }

  /** Donut prevention (decision.py lines 158-163): count consecutive ticks
      of hard left steering at speed. */
  function DonutCount(c: Controls, vel: real): (r: Controls)
    ensures r.angleCt == 0 || r.angleCt == c.angleCt + 1
    ensures c.angleCt >= 0 ==> (r.angleCt > 0 <==> c.steer > 10.0 && vel >= 1.0)
    ensures r.(angleCt := c.angleCt) == c
  {
    if c.steer > 10.0 && vel >= 1.0 then c.(angleCt := c.angleCt + 1) else c.(angleCt := 0)
  }

  /** Would the mode branch taken on this tick read steer_ang or rock_ang,
      given n navigation angles? */
  predicate ReadsAngles(cfg: Config, t: Telemetry, n: int, mode: Mode)
  {
    match mode
    case Forward => n >= cfg.stopForward && t.vel != 0.0
    case Stop => t.vel <= 0.2 && n >= cfg.goForward
    case Rock => RockReadsAngle(t)
    case _ => false
  }

  /** The derived angles are means, undefined (NaN) on an empty signal: the
      model admits an empty signal only where the tick does not read them. */
  predicate AnglesDefined(cfg: Config, t: Telemetry, navAngles: Option<seq<real>>, c: Controls)
  {
    navAngles.Some? && |navAngles.value| == 0 && c.angleCt <= 36 ==> !ReadsAngles(cfg, t, 0, c.mode)
  }

  /** The per-mode dispatch; a mode other than the four known ones changes nothing. */
  function Dispatch(cfg: Config, t: Telemetry, n: int, b: Bearings, c: Controls): (r: Outcome)
    ensures c.mode.Other? ==> r == Continue(c)
    ensures c.mode == Reverse ==> r == Continue(ReverseStep(cfg, t.vel, c))
    ensures r.Return? ==> c.mode == Rock
    ensures r.c.angleCt == c.angleCt
  {
    match c.mode
    case Forward => Continue(ForwardStep(cfg, t.vel, n, b.steerAng, c))
    case Reverse => Continue(ReverseStep(cfg, t.vel, c))
    case Stop => Continue(StopStep(cfg, t.vel, n, b.steerAng, c))
    case Rock => RockStep(cfg, t, b.rockAng, c)
    case Other(_) => Continue(c)
  }

  /** Counter ranges every tick keeps. */
  predicate CountersInRange(c: Controls)
  {
    0 <= c.stuck <= 5 && 0 <= c.reverseCt <= 120 && 0 <= c.angleCt
  }

  /** One call of decision_step. */
  function Step(cfg: Config, t: Telemetry, navAngles: Option<seq<real>>, c: Controls): (r: Controls)
    requires AnglesDefined(cfg, t, navAngles, c)
    // no vision data yet: only the donut counter moves
    ensures navAngles.None? ==>
      r.(angleCt := c.angleCt) == c &&
      r.angleCt == (if c.steer > 10.0 && t.vel >= 1.0 then c.angleCt + 1 else 0)
    // the donut escape: the tick runs the reverse branch and ends with the counter at 0 or 1
    ensures navAngles.Some? && c.angleCt > 36 ==>
      (r.mode == Reverse || r.mode == Stop) && 0 <= r.angleCt <= 1
    ensures navAngles.Some? && c.angleCt <= 36 && c.mode.Other? ==>
      r.(angleCt := c.angleCt) == c
    ensures CountersInRange(c) ==> CountersInRange(r)
    // the counter moves by at most one per tick
    ensures c.angleCt >= -1 ==> r.angleCt <= c.angleCt + 1
  {
    match navAngles
    case None => DonutCount(c, t.vel)
    case Some(angles) =>
      var escape := c.angleCt > 36;
      var c1 := if escape then c.(mode := Reverse, angleCt := 0) else c;
      var b := if escape || |angles| == 0 then Bearings(0.0, 0.0)
               else Bearings(SteerAngle(angles), RockAngle(angles));
      var out := Dispatch(cfg, t, |angles|, b, c1);
      if out.Return? then out.c else DonutCount(out.c, t.vel)
  }

  /** After the donut escape fires, the navigation angles play no part in the tick. */
  lemma DonutEscapeIgnoresAngles(cfg: Config, t: Telemetry, a1: seq<real>, a2: seq<real>, c: Controls)
    requires c.angleCt > 36
    ensures Step(cfg, t, Some(a1), c) == Step(cfg, t, Some(a2), c)
            == DonutCount(ReverseStep(cfg, t.vel, c.(mode := Reverse, angleCt := 0)), t.vel)
  {
  }

  /** The donut escape is tested before the counter update: the tick that
      brings the counter to 37 stays in forward mode, and the next tick runs
      the escape. At speed, the reverse branch then brakes straight into stop
      mode, and the hard-left steering it keeps counts the first tick again. */
  lemma DonutEscapeOnNextTick(cfg: Config, angles: seq<real>, c: Controls, vel: real)
    requires c.mode == Forward && c.angleCt == 36
    requires |angles| >= 1 && |angles| >= cfg.stopForward
    requires 1.0 <= vel < cfg.maxVel
    requires SteerAngle(angles) > 10.0
    ensures var t := Telemetry(vel, false, false);
      var c1 := Step(cfg, t, Some(angles), c);
      var c2 := Step(cfg, t, Some(angles), c1);
      c1.mode == Forward && c1.angleCt == 37 &&
      c2.mode == Stop && c2.throttle == 0.0 && c2.brake == cfg.brakeSet && c2.angleCt == 1
  {
  }

  /** While cruising forward, the tick steers within [-15, 15] and never to
      the right of the clipped mean heading of the navigable terrain. */
  lemma ForwardSteersLeftOfMean(cfg: Config, t: Telemetry, angles: seq<real>, c: Controls)
    requires c.mode == Forward && c.angleCt <= 36
    requires |angles| >= 1 && |angles| >= cfg.stopForward && t.vel != 0.0 && t.vel < cfg.maxVel
    ensures -15.0 <= Step(cfg, t, Some(angles), c).steer <= 15.0
    ensures Step(cfg, t, Some(angles), c).steer >= RockAngle(angles)
  {
    SteerAngleLeftBiased(angles);
  }

  /** In rock mode the tick leaves the steering alone or steers within [-15, 15]. */
  lemma RockSteersWithinFifteen(cfg: Config, t: Telemetry, angles: seq<real>, c: Controls)
    requires c.mode == Rock && c.angleCt <= 36
    requires AnglesDefined(cfg, t, Some(angles), c)
    ensures var r := Step(cfg, t, Some(angles), c);
      r.steer == c.steer || -15.0 <= r.steer <= 15.0
  {
  }

  /** A pickup in flight ends the tick before the donut counter update. */
  lemma PickupInFlightSkipsDonut(cfg: Config, t: Telemetry, angles: seq<real>, c: Controls)
    requires c.mode == Rock && c.angleCt <= 36 && t.nearSample && t.pickingUp
    ensures Step(cfg, t, Some(angles), c) == c.(mode := Forward)
  {
  }

  /** k consecutive ticks with the same telemetry and the same angles. */
  function Run(cfg: Config, t: Telemetry, angles: seq<real>, c: Controls, k: nat): Controls
    requires |angles| >= 1
    decreases k
  {
    if k == 0 then c else Run(cfg, t, angles, Step(cfg, t, Some(angles), c), k - 1)
  }

  /** A forward rover held at zero speed with ample terrain counts one stuck
      tick per tick, and changes nothing else but the donut counter. */
  lemma {:induction false} StuckCountsUp(cfg: Config, angles: seq<real>, c: Controls, k: nat)
    requires |angles| >= 1 && |angles| >= cfg.stopForward
    requires c.mode == Forward && 0 <= c.stuck && c.stuck + k <= 5 && 0 <= c.angleCt <= 36
    decreases k
    ensures var r := Run(cfg, Telemetry(0.0, false, false), angles, c, k);
      r.mode == Forward && r.stuck == c.stuck + k && r.throttle == c.throttle && r.steer == c.steer &&
      r.reverseCt == c.reverseCt && (k > 0 ==> r.angleCt == 0 && r.brake == 0.0)
  {
    if k > 0 {
      var t := Telemetry(0.0, false, false);
      var c1 := Step(cfg, t, Some(angles), c);
      assert c1.mode == Forward && c1.stuck == c.stuck + 1 && c1.angleCt == 0 && c1.brake == 0.0;
      StuckCountsUp(cfg, angles, c1, k - 1);
    }
  }

  /** Five stuck ticks keep the rover in forward mode; the sixth backs it out. */
  lemma StuckEscapeOnSixthTick(cfg: Config, angles: seq<real>, c: Controls)
    requires |angles| >= 1 && |angles| >= cfg.stopForward
    requires c.mode == Forward && c.stuck == 0 && 0 <= c.angleCt <= 36
    ensures var t := Telemetry(0.0, false, false);
      var c5 := Run(cfg, t, angles, c, 5);
      var c6 := Step(cfg, t, Some(angles), c5);
      c5.mode == Forward && c6.mode == Reverse && c6.throttle == -2.0 * cfg.throttleSet && c6.stuck == 0
  {
    StuckCountsUp(cfg, angles, c, 5);
  }
}
