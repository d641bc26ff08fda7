# Pose store of the VOSS localizer

VOSS is motion-control middleware for a differential-drive robot. Its
`voss::localizer::AbstractLocalizer` holds the robot's current pose: one
record with fields `x`, `y` and a heading `theta`, stored in radians. A
background task keeps the record current from the sensors, and clients read
or override it through a few public methods. Each of those methods takes the
localizer's mutex for its whole body and does one read or one write, so this
model treats each call as one atomic step on a class with three fields.

- `wrappers.dfy`: `Option`, which stands for `std::optional`.
- `angle.dfy` (module `Angle`): π as an abstract constant between 3.14159
  and 3.14160, `M_1_PI` as `1 / π`, and the two conversions. `ToRadians` is
  `deg * π / 180`. `ToDegrees` is `rad * 180 * M_1_PI`, the formula
  `get_orientation_deg` uses.
- `pose.dfy` (module `Geometry`): `Pose` (x, y, optional heading) and `Point`.
- `abstract_localizer.dfy` (module `Localizer`):
  - the stored record `AtomicPose`;
  - the transition function `SetPoseOn` and the read function `PoseOf`;
  - the class `AbstractLocalizer`, with its constructor, both `set_pose`
    overloads and the six getters;
  - lemmas about single calls;
  - a model of call sequences (`Call`, `Run`), with lemmas about what any
    sequence of calls leaves in the store. A sequence mixes the public
    methods with ticks of the background task. Each tick's `update()`
    replaces the record, under the same mutex, with a new value that the
    model leaves arbitrary. `Perform` ties each kind of call to the class
    method that makes it.

`set_pose` reads an incoming heading as degrees, but `get_pose` returns the
stored heading in radians. So `set_pose(get_pose())` is not an identity: it
converts the radian value a second time. `SetPoseOfGetPose` proves that this
changes the store exactly when the heading is non-zero.

`AbstractLocalizer.cpp` does not normalise the heading: `set_pose` stores
`to_radians(d)` for any `d`. With `to_radians` read as `deg · π / 180`, 720°
is stored as 4π.

## Model

| member | source | states |
|---|---|---|
| `Localizer.AbstractLocalizer.constructor` | src/VOSS/localizer/AbstractLocalizer.cpp:10-12 | a new localizer holds x = 0, y = 0, theta = 0 |
| `Localizer.AbstractLocalizer.SetPose` | src/VOSS/localizer/AbstractLocalizer.cpp:31-40 | x and y become the given ones; a present heading is stored as to_radians(heading); an absent heading leaves theta as it was |
| `Localizer.AbstractLocalizer.SetPoseComponents` | src/VOSS/localizer/AbstractLocalizer.cpp:42-44 | has exactly the effect of set_pose with the heading present: the store becomes (x, y, to_radians(theta)) |
| `Localizer.AbstractLocalizer.GetPose` | src/VOSS/localizer/AbstractLocalizer.cpp:46-51 | returns the stored x, y and theta, with the heading always present and in radians; changes no state |
| `Localizer.AbstractLocalizer.GetX` | src/VOSS/localizer/AbstractLocalizer.cpp:53-57 | returns the stored x, the same value as get_pose's x; changes no state |
| `Localizer.AbstractLocalizer.GetY` | src/VOSS/localizer/AbstractLocalizer.cpp:59-63 | returns the stored y, the same value as get_pose's y; changes no state |
| `Localizer.AbstractLocalizer.GetOrientationRad` | src/VOSS/localizer/AbstractLocalizer.cpp:65-69 | returns the stored heading in radians, the same value as get_pose's heading; changes no state |
| `Localizer.AbstractLocalizer.GetOrientationDeg` | src/VOSS/localizer/AbstractLocalizer.cpp:71-75 | returns theta · 180 · (1/π), and converting that back to radians gives the stored theta; changes no state |
| `Localizer.AbstractLocalizer.GetPosition` | src/VOSS/localizer/AbstractLocalizer.cpp:77-81 | returns the stored (x, y), the same position get_pose reports; changes no state |
| `Localizer.SetPoseWithHeadingForgets` | src/VOSS/localizer/AbstractLocalizer.cpp:33-35 | with a heading present, set_pose replaces all three fields: the result is (x, y, to_radians(heading)) whatever was stored before |
| `Localizer.SetPoseWithoutHeadingKeepsTheta` | src/VOSS/localizer/AbstractLocalizer.cpp:36-38 | with the heading absent, set_pose stores the given x and y and keeps the stored heading |
| `Localizer.SetThenReadDegrees` | src/VOSS/localizer/AbstractLocalizer.cpp:71-75 | after set_pose with a heading of d degrees, get_orientation_deg reads d |
| `Localizer.SetPoseOfGetPose` | src/VOSS/localizer/AbstractLocalizer.cpp:31-51 | set_pose(get_pose()) keeps x and y but stores to_radians(theta), so it leaves the store unchanged exactly when theta is zero |
| `Angle.DegreesOfRadians` | src/VOSS/localizer/AbstractLocalizer.cpp:73 | the degree conversion of get_orientation_deg undoes to_radians |
| `Angle.RadiansOfDegrees` | src/VOSS/localizer/AbstractLocalizer.cpp:73 | to_radians undoes the degree conversion of get_orientation_deg |
| `Angle.ToRadiansFixedOnlyAtZero` | src/VOSS/localizer/AbstractLocalizer.cpp:35 | to_radians(t) equals t if and only if t is zero |
| `Localizer.Perform` | src/VOSS/localizer/AbstractLocalizer.cpp:20-81 | making a call on the localizer through its own methods (an update replaces the whole record) changes the store exactly as the call sequence model says |
| `Localizer.Writes` | src/VOSS/localizer/AbstractLocalizer.cpp:20-44 | picks out the writes of a call sequence: a call is in the result exactly when it is in the sequence and is a set_pose (either overload) or an update |
| `Localizer.RunIgnoresReads` | src/VOSS/localizer/AbstractLocalizer.cpp:46-81 | the getters leave no trace: any call sequence ends in the same store as its set_pose and update calls alone |
| `Localizer.RunPositionIsLastWrite` | src/VOSS/localizer/AbstractLocalizer.cpp:20-44 | after a sequence with at least one write, the stored position is the one the last write gave: the last set_pose's position, provided no update follows it |
| `Localizer.RunHeadingIsLastHeading` | src/VOSS/localizer/AbstractLocalizer.cpp:20-38 | the stored heading is the last one any write stored: to_radians of the last heading a set_pose supplied, provided no update follows it; the starting heading if no write supplied one |

## Left out

- `begin_localization` (src/VOSS/localizer/AbstractLocalizer.cpp:17-28) is left out. It spawns an RTOS task that loops forever, calling `calibrate()` and then `update()` under the mutex and sleeping between updates. That is scheduling and concurrency. The model treats each public method and each tick's `update()` as one atomic step instead of modelling the task and the mutex. In call sequences a tick is an `UpdateCall` that overwrites the record with an arbitrary value. A tick may come anywhere in a sequence; the task's fixed period and the scheduler are not modelled.
- `calibrate()` and the sensor fusion inside `update()` are left out; `update()` appears only as an overwrite of the record with an arbitrary value. Both are virtual, and the subclasses that implement them (encoder and inertial-sensor fusion) are not part of this model.
- Floating point is left out. `double`, `M_1_PI` and the arithmetic of the conversions are modelled over `real`, with no IEEE-754 rounding. π is abstract apart from its bounds, so the degree round trips hold exactly here, which they need not do in `double`.
- `Angle.ToRadians`: the header that defines `voss::to_radians` is not part of this model. It is taken to be `deg * π / 180`. Only the `ensures ToRadians(r) == theta` of `GetOrientationDeg` and the lemmas `SetThenReadDegrees`, `DegreesOfRadians`, `RadiansOfDegrees`, `ToRadiansFixedOnlyAtZero` and the iff half of `SetPoseOfGetPose` depend on that formula.
- The per-field `std::atomic` loads inside the locked getters are left out. Under the mutex they make no difference to what a single call reads.
- src/main.cpp is left out. It is hardware configuration, builders whose code is not part of this model, controller input, screen output and a demo drive routine.
- include/VOSS/utils/Asset.hpp is left out. It holds a linker-symbol macro and a `decode_traj_txt` that ignores its input and returns an empty list, so there is no decoding logic to model.
