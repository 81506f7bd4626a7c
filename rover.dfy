/** The rover state the driver owns and the two per-tick steps that mutate
    it in place: perception_step and decision_step, and the tick that runs
    one after the other. */
module RoverState {
  import opened Modes
  import opened Numeric
  import opened Decision
  import opened Perception

  class Rover {
    /** Session constants. */
    const cfg: Config

    // Telemetry, written by the driver and only read here.
    var xpos: real
    var ypos: real
    var yaw: real
    var pitch: real
    var roll: real
    var vel: real
    var nearSample: bool
    var pickingUp: bool

    // Commands, mode and counters, written by the decision step.
    var mode: Mode
    var throttle: real
    var brake: real
    var steer: real
    var sendPickup: bool
    var stuck: int
    var reverseCt: int
    var angleCt: int

    // Perception outputs: None until the first perception pass.
    var navDists: Option<seq<real>>
    var navAngles: Option<seq<real>>

    /** The world map, indexed [y, x, channel]; channel 0 obstacle, 1 rock, 2 navigable. */
    var worldmap: array3<int>

    /** The map is square, non-empty and has three channels. */
    ghost predicate Valid()
      reads this`worldmap
    {
      worldmap.Length0 == worldmap.Length1 && worldmap.Length0 >= 1 && worldmap.Length2 == 3
    }

    function ControlState(): Controls
      reads this`mode, this`throttle, this`brake, this`steer, this`sendPickup,
            this`stuck, this`reverseCt, this`angleCt
    {
      Controls(mode, throttle, brake, steer, sendPickup, stuck, reverseCt, angleCt)
    }

    function Telem(): Telemetry
      reads this`vel, this`nearSample, this`pickingUp
    {
      Telemetry(vel, nearSample, pickingUp)
    }

    function RoverPose(): Pose
      reads this`xpos, this`ypos, this`yaw
    {
      Pose(xpos, ypos, yaw)
    }

    /** A rover at rest at the origin in forward mode with an empty map. */
    constructor (config: Config, worldSize: nat)
      requires worldSize >= 1
      ensures Valid() && fresh(worldmap) && cfg == config
      ensures worldmap.Length0 == worldSize
      ensures mode == Forward && stuck == 0 && reverseCt == 0 && angleCt == 0
      ensures navAngles == None && navDists == None
    {
      cfg := config;
      xpos, ypos, yaw, pitch, roll, vel := 0.0, 0.0, 0.0, 0.0, 0.0, 0.0;
      nearSample, pickingUp := false, false;
      mode := Forward;
      throttle, brake, steer, sendPickup := 0.0, 0.0, 0.0, false;
      stuck, reverseCt, angleCt := 0, 0, 0;
      navDists, navAngles := None, None;
      worldmap := new int[worldSize, worldSize, 3]((y, x, ch) => 0);
    }

    /** decision_step: updates commands, mode and counters as Decision.Step says. */
    method DecisionStep()
      requires AnglesDefined(cfg, Telem(), navAngles, ControlState())
      modifies this`mode, this`throttle, this`brake, this`steer, this`sendPickup,
               this`stuck, this`reverseCt, this`angleCt
      ensures ControlState() == Step(cfg, Telem(), navAngles, old(ControlState()))
    {
      if navAngles.Some? {
        var angles := navAngles.value;
        var b := Bearings(0.0, 0.0);
        if angleCt > 36 {
          mode := Reverse;
          angleCt := 0;
        } else if |angles| >= 1 {
          b := Bearings(SteerAngle(angles), RockAngle(angles));
        }

        var ended := DispatchMode(|angles|, b);
        if ended {
          return;
        }
      }

      DonutTick();
    }

    /** Donut prevention: count ticks spent turning hard at speed. */
    method DonutTick()
      modifies this`angleCt
      ensures ControlState() == DonutCount(old(ControlState()), vel)
    {
      if steer > 10.0 && vel >= 1.0 {
        angleCt := angleCt + 1;
      } else {
        angleCt := 0;
      }
    }

    /** The if/elif chain over the mode; `ended` when the rock branch returns early. */
    method DispatchMode(n: int, b: Bearings) returns (ended: bool)
      modifies this`mode, this`throttle, this`brake, this`steer, this`sendPickup,
               this`stuck, this`reverseCt
      ensures var out := Dispatch(cfg, Telem(), n, b, old(ControlState()));
        ended == out.Return? && ControlState() == out.c
    {
      ended := false;
      if mode == Forward {
        ForwardMode(n, b.steerAng);
      } else if mode == Reverse {
        ReverseMode();
      } else if mode == Stop {
        StopMode(n, b.steerAng);
      } else if mode == Rock {
        ended := RockMode(b.rockAng);
      }
    }

    /** The forward branch of decision_step. */
    method ForwardMode(n: int, steerAng: real)
      modifies this`mode, this`throttle, this`brake, this`steer, this`stuck
      ensures ControlState() == ForwardStep(cfg, vel, n, steerAng, old(ControlState()))
    {
      if n >= cfg.stopForward {
        if vel == 0.0 {
          if stuck < 5 {
            stuck := stuck + 1;
          } else {
            throttle := -2.0 * cfg.throttleSet;
            mode := Reverse;
            stuck := 0;
          }
        } else if vel < cfg.maxVel {
          throttle := cfg.throttleSet;
          steer := ClipReal(steerAng, -15.0, 15.0);
        } else {
          throttle := 0.0;
          steer := ClipReal(steerAng, -10.0, 10.0);
        }
        brake := 0.0;
      } else if n < cfg.stopForward {
        throttle := 0.0;
        brake := cfg.brakeSet;
        steer := 0.0;
        mode := Stop;
      }
    }

    /** The reverse branch of decision_step. */
    method ReverseMode()
      modifies this`mode, this`throttle, this`brake, this`steer, this`reverseCt
      ensures ControlState() == ReverseStep(cfg, vel, old(ControlState()))
    {
      if Abs(vel) > 0.5 {
        throttle := 0.0;
        brake := cfg.brakeSet;
        mode := Stop;
        reverseCt := 0;
      } else if reverseCt < 50 {
        throttle := -2.0 * cfg.throttleSet;
        brake := 0.0;
        steer := 15.0;
        reverseCt := reverseCt + 1;
      } else if reverseCt < 100 {
        throttle := 2.0 * cfg.throttleSet;
        brake := 0.0;
        steer := -15.0;
        reverseCt := reverseCt + 1;
      } else if reverseCt < 120 {
        throttle := 0.0;
        brake := 0.0;
        steer := -15.0;
        reverseCt := reverseCt + 1;
      } else {
        mode := Stop;
        reverseCt := 0;
      }
    }

    /** The stop branch of decision_step. */
    method StopMode(n: int, steerAng: real)
      modifies this`mode, this`throttle, this`brake, this`steer
      ensures ControlState() == StopStep(cfg, vel, n, steerAng, old(ControlState()))
    {
      if vel > 0.2 {
        throttle := 0.0;
        brake := cfg.brakeSet;
        steer := 0.0;
      } else if vel <= 0.2 {
        // two independent checks, as in the code
        if n < cfg.goForward {
          throttle := 0.0;
          brake := 0.0;
          steer := -15.0;
        }
        if n >= cfg.goForward {
          throttle := 3.0 * cfg.throttleSet;
          brake := 0.0;
          steer := steerAng;
          mode := Forward;
        }
      }
    }

    /** The rock branch of decision_step; `ended` when it returns early. */
    method RockMode(rockAng: real) returns (ended: bool)
      modifies this`mode, this`throttle, this`brake, this`steer, this`sendPickup
      ensures var out := RockStep(cfg, Telem(), rockAng, old(ControlState()));
        ended == out.Return? && ControlState() == out.c
    {
      ended := false;
      if nearSample {
        if pickingUp {
          mode := Forward;
          ended := true;
        } else if vel < 0.2 {
          sendPickup := true;
          mode := Forward;
        } else {
          throttle := 0.0;
          brake := cfg.brakeSet;
          steer := rockAng;
        }
      } else if vel <= 0.0 {
        mode := Stop;
      } else {
        if vel > 1.0 {
          throttle := -cfg.throttleSet / 2.0;
        } else {
          throttle := cfg.throttleSet;
        }
        steer := rockAng;
        brake := 0.0;
      }
    }

    /** perception_step on the warped camera image: classify, update the map
        when the rover is level, and publish the navigation signal. */
    method PerceptionStep(warped: Image, trig: Trig)
      requires Valid() && IsByteImage(warped)
      modifies this`mode, this`navDists, this`navAngles, worldmap
      ensures Valid()
      ensures var sig := NavSignal(ColorThresh(warped, DefaultThresholds), old(mode), trig);
        mode == sig.mode && navDists == Some(sig.dists) && navAngles == Some(sig.angles)
      ensures Level(pitch, roll) ==>
        var cells := old(MapCells(ColorThresh(warped, DefaultThresholds), RoverPose(), worldmap.Length0, trig));
        forall y, x, ch :: 0 <= y < worldmap.Length0 && 0 <= x < worldmap.Length1 && 0 <= ch < 3 ==>
          worldmap[y, x, ch] == UpdatedCell(old(worldmap[y, x, ch]), CellGain(cells, ch, x, y))
      // a tilted frame leaves the map exactly as it was
      ensures !Level(pitch, roll) ==> unchanged(worldmap)
    {
      var masks := ColorThresh(warped, DefaultThresholds);
      ApplyPerception(NavSignal(masks, mode, trig), MapCells(masks, RoverPose(), worldmap.Length0, trig));
    }

    /** The state changes of perception_step, given the signal and the map
        cells it computed: the attitude-gated map update, then rock
        preemption and the fresh navigation distances and angles. */
    method ApplyPerception(sig: Signal, cells: Cells)
      requires Valid()
      modifies this`mode, this`navDists, this`navAngles, worldmap
      ensures Valid()
      ensures mode == sig.mode && navDists == Some(sig.dists) && navAngles == Some(sig.angles)
      ensures Level(pitch, roll) ==>
        forall y, x, ch :: 0 <= y < worldmap.Length0 && 0 <= x < worldmap.Length1 && 0 <= ch < 3 ==>
          worldmap[y, x, ch] == UpdatedCell(old(worldmap[y, x, ch]), CellGain(cells, ch, x, y))
      // a tilted frame leaves the map exactly as it was
      ensures !Level(pitch, roll) ==> unchanged(worldmap)
    {
      MapFrame(cells);
      mode := sig.mode;
      navDists := Some(sig.dists);
      navAngles := Some(sig.angles);
    }

    /** The attitude gate and, on a level frame, the map update. */
    method MapFrame(cells: Cells)
      requires Valid()
      modifies worldmap
      ensures Level(pitch, roll) ==>
        forall y, x, ch :: 0 <= y < worldmap.Length0 && 0 <= x < worldmap.Length1 && 0 <= ch < 3 ==>
          worldmap[y, x, ch] == UpdatedCell(old(worldmap[y, x, ch]), CellGain(cells, ch, x, y))
      // a tilted frame leaves the map exactly as it was
      ensures !Level(pitch, roll) ==> unchanged(worldmap)
    {
      if Level(pitch, roll) {
        UpdateWorldmap(cells);
      }
    }

    method UpdateWorldmap(cells: Cells)
      requires Valid()
      modifies worldmap
      ensures forall y, x, ch :: 0 <= y < worldmap.Length0 && 0 <= x < worldmap.Length1 && 0 <= ch < 3 ==>
        worldmap[y, x, ch] == UpdatedCell(old(worldmap[y, x, ch]), CellGain(cells, ch, x, y))
    {
      forall y, x, ch | 0 <= y < worldmap.Length0 && 0 <= x < worldmap.Length1 && 0 <= ch < worldmap.Length2 {
        worldmap[y, x, ch] := UpdatedCell(worldmap[y, x, ch], CellGain(cells, ch, x, y));
      }
    }

    /** One tick: perception, then decision on the fresh signal. */
    method Tick(warped: Image, trig: Trig)
      requires Valid() && IsByteImage(warped)
      requires cfg.stopForward >= 1 && cfg.goForward >= 1
      modifies this`mode, this`throttle, this`brake, this`steer, this`sendPickup,
               this`stuck, this`reverseCt, this`angleCt, this`navDists, this`navAngles, worldmap
      ensures Valid()
      ensures var sig := NavSignal(ColorThresh(warped, DefaultThresholds), old(mode), trig);
        navAngles == Some(sig.angles) && navDists == Some(sig.dists) &&
        ControlState() == Step(cfg, Telem(), Some(sig.angles), old(ControlState()).(mode := sig.mode))
      ensures Level(pitch, roll) ==>
        var cells := old(MapCells(ColorThresh(warped, DefaultThresholds), RoverPose(), worldmap.Length0, trig));
        forall y, x, ch :: 0 <= y < worldmap.Length0 && 0 <= x < worldmap.Length1 && 0 <= ch < 3 ==>
          worldmap[y, x, ch] == UpdatedCell(old(worldmap[y, x, ch]), CellGain(cells, ch, x, y))
      // a tilted frame leaves the map exactly as it was
      ensures !Level(pitch, roll) ==> unchanged(worldmap)
    {
      TickOn(ColorThresh(warped, DefaultThresholds), trig);
    }

    /** A tick once the image is classified. */
    method TickOn(masks: Masks, trig: Trig)
      requires Valid() && IsBinary(masks.rock)
      requires cfg.stopForward >= 1 && cfg.goForward >= 1
      modifies this`mode, this`throttle, this`brake, this`steer, this`sendPickup,
               this`stuck, this`reverseCt, this`angleCt, this`navDists, this`navAngles, worldmap
      ensures Valid()
      ensures var sig := NavSignal(masks, old(mode), trig);
        navAngles == Some(sig.angles) && navDists == Some(sig.dists) &&
        ControlState() == Step(cfg, Telem(), Some(sig.angles), old(ControlState()).(mode := sig.mode))
      ensures Level(pitch, roll) ==>
        var cells := old(MapCells(masks, RoverPose(), worldmap.Length0, trig));
        forall y, x, ch :: 0 <= y < worldmap.Length0 && 0 <= x < worldmap.Length1 && 0 <= ch < 3 ==>
          worldmap[y, x, ch] == UpdatedCell(old(worldmap[y, x, ch]), CellGain(cells, ch, x, y))
      // a tilted frame leaves the map exactly as it was
      ensures !Level(pitch, roll) ==> unchanged(worldmap)
    {
      var sig := NavSignal(masks, mode, trig);
      SignalFeedsDecision(cfg, Telem(), masks, mode, ControlState().(mode := sig.mode), trig);
      TickWith(sig, MapCells(masks, RoverPose(), worldmap.Length0, trig));
    }

    /** A tick given the signal and map cells perception computed. */
    method TickWith(sig: Signal, cells: Cells)
      requires Valid()
      requires AnglesDefined(cfg, Telem(), Some(sig.angles), ControlState().(mode := sig.mode))
      modifies this`mode, this`throttle, this`brake, this`steer, this`sendPickup,
               this`stuck, this`reverseCt, this`angleCt, this`navDists, this`navAngles, worldmap
      ensures Valid()
      ensures navAngles == Some(sig.angles) && navDists == Some(sig.dists)
      ensures ControlState() == Step(cfg, Telem(), Some(sig.angles), old(ControlState()).(mode := sig.mode))
      ensures Level(pitch, roll) ==>
        forall y, x, ch :: 0 <= y < worldmap.Length0 && 0 <= x < worldmap.Length1 && 0 <= ch < 3 ==>
          worldmap[y, x, ch] == UpdatedCell(old(worldmap[y, x, ch]), CellGain(cells, ch, x, y))
      // a tilted frame leaves the map exactly as it was
      ensures !Level(pitch, roll) ==> unchanged(worldmap)
    {
      ApplyPerception(sig, cells);
      DecisionStep();
    }
  }

  /** Perception never hands the decision step an empty signal where it would
      read an angle: rock mode comes with more than ten angles, and an empty
      signal is below the stop and go thresholds. */
  lemma SignalFeedsDecision(cfg: Config, t: Telemetry, masks: Masks, prior: Mode, c: Controls, trig: Trig)
    requires cfg.stopForward >= 1 && cfg.goForward >= 1
    requires IsBinary(masks.rock)
    requires c.mode == NavSignal(masks, prior, trig).mode
    ensures AnglesDefined(cfg, t, Some(NavSignal(masks, prior, trig).angles), c)
  {
  }
}
