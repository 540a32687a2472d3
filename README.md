# Fitness tracker workout calculations, in Dafny

This project models the calculation core of a fitness tracker module
(`homework.py`). A sensor package has a three-letter workout code and a list
of raw readings. The code chooses one of three workout kinds, `Running`,
`SportsWalking` or `Swimming`. The chosen kind turns the readings into
distance (km), mean speed (km/h) and calories burned (kcal). These figures
are collected in a summary record (`InfoMessage`).

- `wrappers.dfy`: module `Wrappers`, a `Result` datatype for operations that can fail.
- `workouts.dfy`: module `Workouts`, with the `Training` datatype (one
  constructor per workout kind), the `InfoMessage` record and the formulas.
  The Python inheritance (a base class whose methods are overridden) becomes
  a `match` over the constructors. The class-name label becomes an explicit
  string per constructor.
- `package.dfy`: module `Package`, which looks up the workout code and builds
  the workout from the readings (`read_package`).

Every quantity is an exact `real`. The constants are exact decimal literals:
step length 0.65 m, stroke length 1.38 m, 1000 m per km and 60 minutes per
hour. Walking's `mean_speed ** 2 // height` is Python floor division, so it
is modelled as `(speed * speed / height).Floor`, not as true division.

The source divides by `duration` and, when walking, by `height`, and checks
neither. So the figures require `duration != 0.0`, and walking calories also
require `height != 0.0` (predicate `Workouts.Computable`). These are exactly
the conditions under which Python does not raise `ZeroDivisionError`. Reading
a package checks no values, as in the source. It fails only on an unknown
code (the re-raised `KeyError`) or on a reading count the constructor does
not accept (Python's `TypeError`).

The demonstration figures are what homework.py computes:
- The run (15000 steps, 1 h, 75 kg) burns (18 * 9.75 - 20) * 75 / 1000 * 60 = 699.75 kcal (homework.py:128-131).
- The swim (720 strokes, 1 h, 80 kg, 25 m pool, 40 crossings) burns
  (1.0 + 1.1) * 2 * 80 = 336.0 kcal (homework.py:196).
- The code calls the walking kind `SportsWalking`, and that name is its label.

`Package.Code` and `Package.Args` turn a workout back into a package. `Code`
inverts the code table (homework.py:217-221). `Args` lists the readings in
constructor argument order (homework.py:75-79, 141-145, 178-183). They are the
partner definitions for the round-trip lemmas about `ReadPackage`.

## Model

| member | source | states |
|---|---|---|
| `Workouts.LenStep` | homework.py:70-72 | The length of one action is positive. It is 1.38 m for swimming (homework.py:176) and 0.65 m for running and sports walking (homework.py:72, 139). |
| `Workouts.Label` | homework.py:84 | The label is the kind's class name: "Running", "SportsWalking" or "Swimming". Each label belongs to exactly one kind. |
| `Workouts.Distance` | homework.py:87-89 | Distance in km times 1000 is the number of actions times the action length. The distance is non-negative if and only if the number of actions is, and zero if and only if it is zero. |
| `Workouts.MeanSpeed` | homework.py:91-93 | For running and walking, speed times duration gives the distance. For swimming, speed times duration times 1000 is pool length times crossings, so the stroke count plays no part. |
| `Workouts.WalkingSpeedTerm` | homework.py:163 | The floor term `speed ** 2 // height` is the integer k with k*height <= speed^2 < (k+1)*height when height > 0 (the bracket is reversed when height < 0). It is non-negative when height > 0. |
| `Workouts.FloorDivBracket` | homework.py:163 | Floor division `x // h` of reals, taken as `(x / h).Floor`, brackets x between k*h and (k+1)*h, in the order the sign of h gives. |
| `Workouts.ShowTrainingInfo` | homework.py:100-109 | The record holds the label, the duration, the distance, the kind's own mean speed and the kind's own calories. For running and walking, its speed times its duration equals its distance. |
| `Workouts.SpentCalories` | homework.py:115-196 | Each kind's own `get_spent_calories` formula: running at lines 115-131, sports walking at 150-165, swimming at 191-196. Its contract states that calories are zero when the weight is zero, since every formula scales with weight. The other properties are stated by RunningCaloriesClosedForm, RunningCaloriesSign, WalkingSlowCalories, WalkingCaloriesBounds, SwimmingNoMinutesFactor and SwimmingIgnoresStrokes. |
| `Workouts.RunningCaloriesClosedForm` | homework.py:115-131 | Running calories (18*speed - 20) * weight / 1000 * (duration*60) reduce to 0.000702*action*weight - 1.2*duration*weight. |
| `Workouts.RunningCaloriesSign` | homework.py:124-131 | For positive duration and weight, a run burns a positive number of calories if and only if 18*speed > 20, and zero calories if and only if 18*speed = 20. |
| `Workouts.WalkingSlowCalories` | homework.py:150-165 | When speed^2 < height (height > 0), the floor term is 0 and the calories are 0.035*weight*duration*60. |
| `Workouts.WalkingCaloriesBounds` | homework.py:155-165 | For positive duration, height and weight, the floor-division calories are at least the weight-only part. They are at most the value true division would give, and more than that value minus one step of the speed term. |
| `Workouts.SwimmingNoMinutesFactor` | homework.py:191-205 | Swimming calories have no duration-in-minutes factor. Scaling the duration and the pool crossings by the same non-zero factor leaves the calories unchanged. |
| `Workouts.SwimmingIgnoresStrokes` | homework.py:198-205 | Changing a swim's stroke count changes neither its speed nor its calories. Its distance is strokes times 1.38 m. |
| `Workouts.RunningWalkingShareMotion` | homework.py:134-146 | A run and a walk with the same readings have the same distance and the same mean speed, since both use the 0.65 m step. |
| `Workouts.RunningDemo` | homework.py:240 | The package (15000, 1, 75) gives distance 9.75, speed 9.75 and calories 699.75, labelled "Running". |
| `Workouts.WalkingDemo` | homework.py:241 | The package (9000, 1, 75, 180) gives distance 5.85, speed 5.85 and calories 157.5, because the floor term is 0. |
| `Workouts.SwimmingDemo` | homework.py:239 | The package (720, 1, 80, 25, 40) gives distance 0.9936, speed 1.0 and calories 336.0. |
| `Package.Arity` | homework.py:217-224 | The reading count each constructor takes: 3 for RUN, 4 for WLK and 5 for SWM. |
| `Package.ReadPackage` | homework.py:208-228 | The result is an unknown-type failure if and only if the code is not SWM, RUN or WLK. For a known code, it is a wrong-count failure if and only if the count differs from the constructor's arity. It succeeds if and only if the code is known and the count fits. A success carries the workout of that code whose readings are the package, in order. |
| `Package.ReadPackageRoundTrip` | homework.py:217-224 | Reading back the code and readings of any workout gives that same workout. |
| `Package.ReadPackageInjective` | homework.py:217-224 | A package reads as a workout t if and only if its code is t's code and its readings are t's readings. |
| `Package.ReadPackageLabel` | homework.py:217-221 | A workout read under SWM, RUN or WLK is labelled "Swimming", "Running" or "SportsWalking" respectively. |
| `Package.DemoPackages` | homework.py:238-246 | The three demonstration packages read as the workouts whose figures RunningDemo, WalkingDemo and SwimmingDemo give. |
| `Package.ReadPackageErrorExamples` | homework.py:223-226 | Code "XXX" fails as an unknown type. A swimming package with three readings fails as a wrong count (5 expected, 3 given). |

## Left out

- `InfoMessage.get_message` (homework.py:54-59): its text comes from `.3f`
  float-to-decimal rounding and string formatting, neither of which is modelled.
- `main` and the demonstration loop (homework.py:231-246): these only print.
  Their three packages appear as the concrete inputs of `Package.DemoPackages`.
- IEEE-754 float rounding: every figure is an exact `real`. So a property
  such as speed * duration == distance holds exactly here, but only
  approximately in Python.
- The plain `Training` base class (homework.py:62-109) produced directly,
  whose calorie method returns `None`: `read_package` never builds one, so
  only the three concrete kinds are modelled.
- Reflection through `self.__class__.__name__` and the unused `self.calories`
  field (homework.py:84-85): the label is an explicit string per constructor.
- Python's integer/float split (`action`, `length_pool` and `count_pool` are
  annotated `int`): every reading is a `real`, and the readings are not
  checked for type, as `read_package` does not check them either.
