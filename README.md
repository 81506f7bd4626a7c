# Rover perception and decision core

This project models the per-tick control loop of an autonomous
mapping rover (a RoboND rover project). Each tick, the driver calls the
perception step on the camera image and then the decision step.
Both steps mutate one shared `Rover` object.

- **Perception** (`code/perception.py`).
  - It classifies every pixel of the perspective-warped image as
    navigable terrain, rock sample or obstacle.
  - It converts the set pixels to rover-centric and then to world
    coordinates.
  - While the rover is level, it adds evidence to a 3-channel world map
    and clips the map to [0, 255].
  - Finally it picks the navigation signal. When more than ten rock
    pixels are visible, the rover switches to rock mode and steers by the
    rock pixels. Otherwise it steers by navigable terrain.
- **Decision** (`code/decision.py`).
  - A mode machine with four modes: forward, reverse (a three-phase
    escape of at most 120 ticks), stop and rock (approach and pickup).
  - A stuck counter, and a donut counter that forces the reverse escape
    after 37 consecutive hard-left ticks at speed.

The modules follow the program's structure:

- `Modes`: the rover mode and an `Option` type.
- `Numeric`: the numpy operations the core relies on, over exact reals.
- `Decision`: `decision_step` as pure functions over the fields it
  reads and writes.
- `Perception`: the discrete parts of `perception.py`.
- `RoverState`: the `Rover` class. Its methods update the fields and the
  `array3` world map in place. Each method is proved equal to the pure
  functions:
  - `DecisionStep` is proved equal to `Decision.Step`.
  - `PerceptionStep` is proved to produce `Perception.NavSignal` and the
    clipped map update.
  - `Tick` composes the two. It publishes the fresh signal, updates the
    map on a level frame, and then runs the decision step on the fresh
    angles.

Where the code differs from its comments or from a natural reading, the
model follows the code:

- `rover_coords` measures columns from `shape[0]`, the row count, not
  from the image centre. The two agree only when the image is twice as
  wide as it is high.
- The rock test's "+1 to avoid divide by 0" does not hold on uint8
  images (see Findings). `ColorThresh` computes the rock test as the code
  does, wrap included. The corrected test is modelled alongside it, and
  the two are proved to agree wherever no red or blue channel is 255.
- In stop mode, the two terrain checks are separate `if`s in the code.
  The model proves that exactly one of them fires.
- The donut counter is tested before it is updated. The escape therefore
  fires at the start of the tick after the one that brings the counter to
  37. At speed, the reverse branch then brakes straight into stop mode
  (`Decision.DonutEscapeOnNextTick`).

## Model

| member | source | states |
|---|---|---|
| Numeric.Sort | code/decision.py:24 | np.sort returns an ascending sequence of the same length, with the same elements (equal multisets) and the same sum |
| Numeric.SuffixMeanAtLeastMean | code/decision.py:24 | in an ascending sequence, the mean of any non-empty suffix is at least the mean of the whole sequence |
| Numeric.ClipReal | code/decision.py:48 | np.clip on a real lands in [lo, hi], is the identity inside the range, and clamps to the bound that was crossed |
| Numeric.ClipInt | code/perception.py:153 | np.clip on an integer lands in [lo, hi], is the identity inside the range, and clamps to the bound that was crossed |
| Numeric.TruncToInt | code/perception.py:89 | np.int_ truncates toward zero: the result is the integer between zero and the value that lies less than one away from it |
| Numeric.Mod360 | code/perception.py:130 | Python's float `% 360` lies in [0, 360) and differs from its argument by a whole multiple of 360 |
| Decision.TopQuartileStart | code/decision.py:24 | int(.75 * n) satisfies 4k <= 3n < 4k + 4, and for n >= 1 it is below n, so the top-quartile slice is never empty |
| Decision.RockAngle | code/decision.py:26 | rock_ang lies in [-15, 15]. It equals the mean heading in degrees whenever that heading is in range, and it saturates at 15 or -15 when the heading is past that bound |
| Decision.SteerAngleLeftBiased | code/decision.py:23-24 | steer_ang, the mean of the top quartile of the sorted angles, is never below the plain mean heading in degrees |
| Decision.ForwardStep | code/decision.py:30-62 | with enough terrain the brake is released. At zero speed the stuck counter grows up to 5 and then switches to reverse at -2x throttle with the counter cleared. While moving, the steering is steer_ang clamped to +/-15 below max speed and to +/-10 at max speed, and the stuck counter is untouched. Without enough terrain the rover brakes into stop mode |
| Decision.ReverseStep | code/decision.py:65-97 | the phase table: moving faster than 0.5 means stop and brake. Otherwise ticks 0-49 back up at -2x throttle steering 15, ticks 50-99 drive at 2x steering -15, ticks 100-119 turn in place at -15, and tick 120 gives up to stop. The counter stays in [0, 120] |
| Decision.StopStep | code/decision.py:100-123 | still moving means brake with the wheels straight. Stopped with too little terrain means release the brake and turn right in place. Stopped with enough terrain means launch at 3x throttle on the unclipped steer_ang and return to forward |
| Decision.RockStep | code/decision.py:126-156 | a pickup in flight ends the tick in forward mode. A slow rover near the sample sends the pickup. A fast one brakes toward the sample. Far from the sample, standing still means stop mode, and otherwise the rover approaches at half reverse throttle above 1 m/s and full throttle below. It steers only toward rock_ang |
| Decision.DonutCount | code/decision.py:158-163 | the donut counter grows by one exactly when steer > 10 and vel >= 1, resets to 0 otherwise, and nothing else changes |
| Decision.Dispatch | code/decision.py:28-156 | an unknown mode changes nothing. Only the rock branch can end the tick early. No branch touches the donut counter |
| Decision.Step | code/decision.py:6-176 | without vision data only the donut counter moves. The donut escape ends in reverse or stop with the counter at 0 or 1. An unknown mode is left alone. The counters stay in range (stuck 0-5, reverse 0-120, donut >= 0), and the donut counter grows by at most one per tick |
| Decision.DonutEscapeOnNextTick | code/decision.py:16-20 | the tick that brings the donut counter to 37 stays in forward mode. The next tick runs the escape, which at speed brakes into stop with the counter back at 1 |
| Decision.DonutEscapeIgnoresAngles | code/decision.py:14-26 | once the donut escape fires, the tick is the reverse branch followed by the donut update, whatever the navigation angles |
| Decision.ForwardSteersLeftOfMean | code/decision.py:44-48 | cruising forward below max speed, the steering lies in [-15, 15] and is never right of the clipped mean heading (rock_ang) |
| Decision.RockSteersWithinFifteen | code/decision.py:138-156 | in rock mode the tick keeps the previous steering or steers within [-15, 15] |
| Decision.PickupInFlightSkipsDonut | code/decision.py:128-132 | with a pickup in flight, the tick returns in forward mode before the donut counter update |
| Decision.StuckCountsUp | code/decision.py:34-37 | k stationary ticks with ample terrain count k stuck ticks and leave the mode, throttle and steering unchanged |
| Decision.StuckEscapeOnSixthTick | code/decision.py:34-42 | five stationary ticks keep the rover in forward mode, and the sixth switches it to reverse at -2x throttle with the counter cleared |
| Perception.AddOneU8 | code/perception.py:25-26 | `channel + 1` on a uint8 channel adds one below 255 and wraps 255 to 0 |
| Perception.RockFilterMultipliedOut | code/perception.py:20-26 | the corrected rock test is the integer comparison 5G > 4(R+1), 5G < 6(R+1), R > 2(B+1), together with "not navigable" and R above the threshold |
| Perception.RockFilterAsWrittenMultipliedOut | code/perception.py:20-27 | the code's rock test, multiplied out: not navigable, R above the threshold and below 255, 5G > 4(R+1) and 5G < 6(R+1), and R > 2(B+1), except that a saturated blue channel only needs R > 0 |
| Perception.GreenBandAsWritten | code/perception.py:25 | the wrapped G/(R+1) band holds exactly when R < 255 and 4(R+1) < 5G < 6(R+1) |
| Perception.BlueRatioAsWritten | code/perception.py:26 | the wrapped R/(B+1) > 2 test holds exactly when R > 2(B+1), or when B is 255 and R > 0 |
| Perception.RockFiltersAgreeBelow255 | code/perception.py:23-26 | where neither red nor blue is saturated, the code's rock test and the corrected one agree |
| Perception.SaturatedRedRockMissed | code/perception.py:25 | the pixel (255, 255, 0) is a rock by the described test but not by the code's test |
| Perception.SaturatedBlueFalseRock | code/perception.py:26 | the pixel (150, 140, 255) is no rock by the described test, but the code's test accepts it |
| Perception.Select | code/perception.py:17-18 | a mask of the image's shape that holds 1 exactly where the filter holds and 0 elsewhere |
| Perception.ColorThresh | code/perception.py:6-38 | on a uint8 image, with the code's wrapped rock test, the three masks have the image's shape and hold only 0 and 1. The classes are pairwise exclusive. A pixel is navigable exactly when all three channels exceed 160. A pixel is a rock exactly when the code's wrapped rock test accepts it. A pixel is an obstacle exactly when it is neither navigable nor a rock, is not pure black, and is below the obstacle threshold in every channel |
| Perception.ColorThreshMatchesCorrectedBelow255 | code/perception.py:20-27 | on an image with no red or blue channel at 255, the rock mask is exactly the corrected rock test |
| Perception.SumOfBinaryMask | code/perception.py:161 | on a 0/1 mask, np.sum is the number of set pixels |
| Perception.Nonzero | code/perception.py:43 | nonzero() lists one entry per set pixel, and exactly the set pixels' (row, column) positions |
| Perception.RoverCoords | code/perception.py:41-48 | one coordinate pair per set pixel: x = rows - row and y = rows - column. So x lies in [1, rows], and y lies in (rows - width, rows] |
| Perception.PixelXs | code/perception.py:46 | x = abs(row - rows) for every set pixel, equal to rows - row and in [1, rows] |
| Perception.PixelYs | code/perception.py:47 | with columns in [0, cols), y = -(column - rows) lies in (rows - cols, rows]: the reference column sits at the row count |
| Perception.ToPolar | code/perception.py:52-59 | one distance and one angle per pixel |
| Perception.RotatePix | code/perception.py:62-70 | rotation keeps one point per input point |
| Perception.TranslatePix | code/perception.py:73-79 | translation is invertible: (pos + v / scale - pos) * scale gives back v |
| Perception.WorldIndex | code/perception.py:89-90 | truncate-then-clip lands in [0, world_size - 1] and equals floor-then-clip. Negative values go to 0 and values past the edge go to the last cell |
| Perception.ClipToMap | code/perception.py:89-90 | every translated value is kept, as floor-then-clip into the map |
| Perception.PixToWorld | code/perception.py:83-92 | every rover-frame point lands on a map cell: none is dropped, out-of-range points are clamped |
| Perception.WorldCells | code/perception.py:131-139 | one map cell per set pixel of the mask, every one inside the map |
| Perception.TiltedFrameNotLevel | code/perception.py:130 | a pitch of 5 degrees closes the attitude gate |
| Perception.UnhitCellKept | code/perception.py:150-153 | a map cell in [0, 255] that no pixel of its channel's mask lands on keeps its value through the increments and the clip |
| Perception.HitCellGainsOnce | code/perception.py:150-153 | a hit cell gains its channel's evidence once, however many pixels land on it: +1 navigable, +5 rock, +1 obstacle, clipped at 255 and exact up to 250 for rock |
| Perception.UpdatedCell | code/perception.py:150-153 | a cell after gain and clip lies in [0, 255], never decreases from a valid value, is exact when the sum is in range and saturates at 255 |
| Perception.SelectSignal | code/perception.py:161-170 | the mode becomes rock exactly when more than ten rock pixels are set. A rock mode without rock pixels falls back to forward, and any other mode is kept. The rock mask feeds the angles exactly in rock mode |
| Perception.NavSignal | code/perception.py:161-179 | the published mode is the selected one, with one distance and one angle per pixel of the selected mask. Rock mode holds exactly when more than ten rock pixels are set, and then always comes with more than ten angles |
| RoverState.Rover.DecisionStep | code/decision.py:6-176 | the in-place decision step leaves commands, mode and counters exactly as Decision.Step computes them, and touches no other field |
| RoverState.Rover.DispatchMode | code/decision.py:28-156 | the if/elif chain on the mode updates the rover as Decision.Dispatch says and reports the early return |
| RoverState.Rover.ForwardMode | code/decision.py:30-62 | the forward branch updates the rover as Decision.ForwardStep says |
| RoverState.Rover.ReverseMode | code/decision.py:65-97 | the reverse branch updates the rover as Decision.ReverseStep says |
| RoverState.Rover.StopMode | code/decision.py:100-123 | the stop branch, written as two separate checks, updates the rover as Decision.StopStep says |
| RoverState.Rover.RockMode | code/decision.py:126-156 | the rock branch updates the rover as Decision.RockStep says and reports the early return |
| RoverState.Rover.DonutTick | code/decision.py:158-163 | the donut counter goes up by one on a hard left turn at speed 1 or more and is reset otherwise, as Decision.DonutCount says, and nothing else changes |
| RoverState.Rover.PerceptionStep | code/perception.py:104-181 | classifies the uint8 warped image with ColorThresh and publishes NavSignal's mode, distances and angles. On a level frame every map cell becomes its clipped sum with its gain, and on a tilted frame the map is unchanged |
| RoverState.Rover.MapFrame | code/perception.py:129-153 | the attitude gate: on a level frame every map cell becomes UpdatedCell of its old value and its gain, and on a tilted frame the map is unchanged |
| RoverState.Rover.UpdateWorldmap | code/perception.py:150-153 | the three fancy-index increments and the clip leave every cell at UpdatedCell of its old value and its gain |
| RoverState.Rover.ApplyPerception | code/perception.py:129-179 | given the signal and the map cells: on a level frame every map cell becomes UpdatedCell of its old value and its gain, and on a tilted frame the map is unchanged. Mode, nav_dists and nav_angles become the signal's |
| RoverState.Rover.Tick | code/perception.py:104-181 | one tick publishes the fresh distances and angles of NavSignal. On a level frame every map cell becomes its clipped sum with the gain of the cells the start-of-tick pose gives, and on a tilted frame the map is unchanged. The decision step then acts on the fresh angles from the mode perception chose |
| RoverState.Rover.TickOn | code/perception.py:129-179 | the same tick once the image is classified into masks: fresh signal, gated map update, then Decision.Step on the fresh angles |
| RoverState.Rover.TickWith | code/perception.py:129-179 | the same tick given the signal and the map cells: gated map update, fresh distances and angles, then Decision.Step from the signal's mode |
| RoverState.SignalFeedsDecision | code/perception.py:161-179 | perception never hands the decision step an empty signal in a branch that reads steer_ang or rock_ang: rock mode always has angles, and an empty signal is below the stop and go thresholds |

## Left out

- perspect_transform and the calibration quad (`code/perception.py:95-118`) are left out: OpenCV's warp is foreign code. The perception step takes the warped image as its input.
- sqrt, arctan2, cos and sin are parameters: the model receives them as a `Trig` value and assumes nothing about them. Distances, angles and rotated coordinates are therefore constrained only in count and order.
- Perception.ToPolar: states only the counts, because the trigonometric functions are abstract.
- Perception.RotatePix: states only the counts, for the same reason.
- The writes to Rover.vision_image (`code/perception.py:125-127`) are left out: they are display-only and nothing in the core reads them.
- Floating point is modelled as exact reals.
  - Rounding in the means, in `* 180/np.pi` and in the quotient tests is not captured.
  - np.pi is the real 3.141592653589793, the shortest decimal that reads back as numpy's double. The exact binary value differs beyond these digits.
- NaN from np.mean of an empty angle array is not represented.
  - Decision.Step and RoverState.Rover.DecisionStep require that no branch taken reads steer_ang or rock_ang on an empty signal.
  - RoverState.SignalFeedsDecision proves that perception meets this whenever stop_forward and go_forward are at least 1.
- The world map's element type is not part of this model; cells are unbounded integers. Under the final clip this equals a wider integer or float map. A uint8 map would wrap before the clip.
- Integer widths: pixel channels are integers with the uint8 range stated where it matters (IsBytePixel). Counters are unbounded integers.
- Mode strings other than the four known ones are `Other(name)`. The model does not check that such a name differs from the four known ones.
- The driver that builds the Rover object, feeds telemetry and sends commands is not part of this model. The `Rover` constructor is a stand-in for its initial state.
- The `np.float` alias in rover_coords does not exist in recent numpy releases. The model assumes a numpy in which it does.
- Rover.pos, the numpy array, appears as the two fields `xpos` and `ypos`.

## Findings

| source | as written | input that shows it | evidently intended | confidence | as-written member | corrected member |
|---|---|---|---|---|---|---|
| code/perception.py:25 | `img[:,:,1]/(img[:,:,0]+1)` on a uint8 image: `255 + 1` wraps to 0, G/0 is +inf and fails `< 1.2` | Pixel(255, 255, 0), pure yellow at full red | denominator R + 1 = 256, so 255/256 is in (0.8, 1.2) and the pixel is a rock | high; not executed | Perception.SaturatedRedRockMissed | Perception.RockFilterMultipliedOut |
| code/perception.py:26 | `img[:,:,0]/(img[:,:,2]+1)` on a uint8 image: `255 + 1` wraps to 0, R/0 is +inf and passes `> 2` | Pixel(150, 140, 255), a blue-saturated pixel | denominator B + 1 = 256, so 150/256 is below 2 and the pixel is no rock | high; not executed | Perception.SaturatedBlueFalseRock | Perception.RockFilterMultipliedOut |

`Perception.RockFilterAsWritten` is the code's test, and
`Perception.ColorThresh` uses it, as the program does.
`Perception.RockFilterAsWrittenMultipliedOut` states what it accepts as
integer comparisons.
`Perception.RockFilter` is the corrected test, and
`Perception.RockFilterMultipliedOut` proves its intended meaning.
`Perception.RockFiltersAgreeBelow255` and
`Perception.ColorThreshMatchesCorrectedBelow255` show that the two tests
differ only on saturated red or blue channels.
