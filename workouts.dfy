/**
  The three workout kinds of the fitness tracker and the figures each one
  derives from the raw sensor readings: distance (km), mean speed (km/h) and
  calories burned (kcal).  Every quantity is an exact `real`.
*/
module Workouts {

  /** Metres in a kilometre. */
  const M_IN_KM: real := 1000.0
  /** Minutes in an hour, used to turn the duration into minutes. */
  const MIN_IN_H: real := 60.0

  /** Step length in metres shared by running and sports walking. */
  const STEP_LEN: real := 0.65
  /** Stroke length in metres for swimming. */
  const STROKE_LEN: real := 1.38

  /** Running calorie coefficients. */
  const RUN_SPEED_MULTIPLIER: real := 18.0
  const RUN_SPEED_SHIFT: real := 20.0

  /** Sports-walking calorie coefficients. */
  const WALK_WEIGHT_MULTIPLIER: real := 0.035
  const WALK_SPEED_HEIGHT_MULTIPLIER: real := 0.029

  /** Swimming calorie coefficients. */
  const SWIM_SPEED_SHIFT: real := 1.1
  const SWIM_WEIGHT_MULTIPLIER: real := 2.0

  /**
    A finished workout: the number of actions (steps or strokes), the
    duration in hours, the athlete's weight in kg, and the kind-specific
    readings (height in cm; pool length in metres and number of pool
    crossings).
  */
  datatype Training =
    | Running(action: real, duration: real, weight: real)
    | SportsWalking(action: real, duration: real, weight: real, height: real)
    | Swimming(action: real, duration: real, weight: real, lengthPool: real, countPool: real)

  /** The summary record of one workout. */
  datatype InfoMessage = InfoMessage(
    trainingType: string,
    duration: real,
    distance: real,
    speed: real,
    calories: real)

  /** Distance covered by one action, in metres. */
  function LenStep(t: Training): (r: real)
    ensures r > 0.0
    ensures r == STROKE_LEN <==> t.Swimming?
    ensures !t.Swimming? ==> r == STEP_LEN
  {
    match t
    case Swimming(_, _, _, _, _) => STROKE_LEN
    case _ => STEP_LEN
  }

  /** The workout kind's name as it appears in the summary. */
  function Label(t: Training): (r: string)
    ensures r == "Running" <==> t.Running?
    ensures r == "SportsWalking" <==> t.SportsWalking?
    ensures r == "Swimming" <==> t.Swimming?
  {
    match t
    case Running(_, _, _) => "Running"
    case SportsWalking(_, _, _, _) => "SportsWalking"
    case Swimming(_, _, _, _, _) => "Swimming"
  }

  /** The readings admit every computation: no division by zero. */
  predicate Computable(t: Training)
  {
    t.duration != 0.0 && (t.SportsWalking? ==> t.height != 0.0)
  }

  /** Distance in km: actions times the action length, converted to km. */
  function Distance(t: Training): (r: real)
    ensures r >= 0.0 <==> t.action >= 0.0
    ensures r == 0.0 <==> t.action == 0.0
    ensures r * M_IN_KM == t.action * LenStep(t)
  {
    t.action * LenStep(t) / M_IN_KM
  }

  /**
    Mean speed in km/h.  Running and sports walking divide the distance by the
    duration; swimming measures the pool lengths swum instead of the strokes.
  */
  function MeanSpeed(t: Training): (r: real)
    requires t.duration != 0.0
    ensures !t.Swimming? ==> r * t.duration == Distance(t)
    ensures t.Swimming? ==> r * t.duration * M_IN_KM == t.lengthPool * t.countPool
  {
    match t
    case Swimming(_, d, _, lp, cp) => lp * cp / M_IN_KM / d
    case _ => Distance(t) / t.duration
  }

  /** The floor-divided term `speed ** 2 // height` of the walking formula. */
  function WalkingSpeedTerm(t: Training): (k: int)
    requires t.SportsWalking? && Computable(t)
    ensures t.height > 0.0 ==>
      k as real * t.height <= MeanSpeed(t) * MeanSpeed(t) < (k as real + 1.0) * t.height
    ensures t.height < 0.0 ==>
      (k as real + 1.0) * t.height < MeanSpeed(t) * MeanSpeed(t) <= k as real * t.height
    ensures t.height > 0.0 ==> k >= 0
  {
    FloorDivBracket(MeanSpeed(t) * MeanSpeed(t), t.height);
    (MeanSpeed(t) * MeanSpeed(t) / t.height).Floor
  }

  /** Python's floor division `x // h` of reals, as `(x / h).Floor`, brackets `x`. */
  lemma FloorDivBracket(x: real, h: real)
    requires h != 0.0
    ensures var k := (x / h).Floor as real;
      && (h > 0.0 ==> k * h <= x < (k + 1.0) * h)
      && (h < 0.0 ==> (k + 1.0) * h < x <= k * h)
  {
    var k := (x / h).Floor as real;
    MulDivBounds(x, h, k);
    MulDivBounds(x, h, k + 1.0);
  }

  /** Comparing a quotient with `j` is comparing the dividend with `j` times the divisor. */
  lemma MulDivBounds(x: real, h: real, j: real)
    requires h != 0.0
    ensures h > 0.0 ==> (x / h < j ==> x < j * h) && (j <= x / h ==> j * h <= x)
    ensures h < 0.0 ==> (x / h < j ==> j * h < x) && (j <= x / h ==> x <= j * h)
  {
  }

  /** Scaling `k <= q < k + 1` by a positive factor `u`. */
  lemma ScaleBracket(k: real, q: real, u: real)
    requires k <= q < k + 1.0 && u > 0.0
    ensures k * u <= q * u
    ensures q * u - u < k * u
  {
  }

  /** Calories burned, by the kind's own formula. */
  function SpentCalories(t: Training): (r: real)
    requires Computable(t)
    ensures t.weight == 0.0 ==> r == 0.0
  {
    match t
    case Running(_, d, w) =>
      (RUN_SPEED_MULTIPLIER * MeanSpeed(t) - RUN_SPEED_SHIFT) * w / M_IN_KM * (d * MIN_IN_H)
    case SportsWalking(_, d, w, _) =>
      (WALK_WEIGHT_MULTIPLIER * w
        + WalkingSpeedTerm(t) as real * WALK_SPEED_HEIGHT_MULTIPLIER * w) * (d * MIN_IN_H)
    case Swimming(_, _, w, _, _) =>
      (MeanSpeed(t) + SWIM_SPEED_SHIFT) * SWIM_WEIGHT_MULTIPLIER * w
  }

  /** The summary record of a workout. */
  function ShowTrainingInfo(t: Training): (r: InfoMessage)
    requires Computable(t)
    ensures r.trainingType == Label(t) && r.duration == t.duration
    ensures r.distance == Distance(t) && r.speed == MeanSpeed(t)
    ensures r.calories == SpentCalories(t)
    ensures !t.Swimming? ==> r.speed * r.duration == r.distance
  {
    InfoMessage(Label(t), t.duration, Distance(t), MeanSpeed(t), SpentCalories(t))
  }

  /** Running calories depend only on the step count, the duration and the weight. */
  lemma RunningCaloriesClosedForm(t: Training)
    requires t.Running? && t.duration != 0.0
    ensures SpentCalories(t) == 0.000702 * t.action * t.weight - 1.2 * t.duration * t.weight
  {
  }

  /** A run burns calories exactly when its mean speed exceeds 20/18 km/h. */
  lemma RunningCaloriesSign(t: Training)
    requires t.Running? && t.duration > 0.0 && t.weight > 0.0
    ensures SpentCalories(t) > 0.0 <==> RUN_SPEED_MULTIPLIER * MeanSpeed(t) > RUN_SPEED_SHIFT
    ensures SpentCalories(t) == 0.0 <==> RUN_SPEED_MULTIPLIER * MeanSpeed(t) == RUN_SPEED_SHIFT
  {
  }

  /** When speed squared stays below the height, the floor term vanishes. */
  lemma WalkingSlowCalories(t: Training)
    requires t.SportsWalking? && t.duration != 0.0 && t.height > 0.0
    requires MeanSpeed(t) * MeanSpeed(t) < t.height
    ensures WalkingSpeedTerm(t) == 0
    ensures SpentCalories(t) == WALK_WEIGHT_MULTIPLIER * t.weight * t.duration * MIN_IN_H
  {
    OnlyZeroFitsBelow(WalkingSpeedTerm(t), t.height, MeanSpeed(t) * MeanSpeed(t));
  }

  /** A non-negative multiple of `h` that stays below `h` is the zero multiple. */
  lemma OnlyZeroFitsBelow(k: int, h: real, x: real)
    requires h > 0.0 && k >= 0 && k as real * h <= x < h
    ensures k == 0
  {
  }

  /**
    The floor division in the walking formula brackets the calories between
    the values the same formula would give with true division, minus one
    step of the term, and with true division itself.
  */
  lemma WalkingCaloriesBounds(t: Training)
    requires t.SportsWalking? && t.duration > 0.0 && t.height > 0.0 && t.weight > 0.0
    ensures var s := MeanSpeed(t);
      var base := WALK_WEIGHT_MULTIPLIER * t.weight * t.duration * MIN_IN_H;
      var unit := WALK_SPEED_HEIGHT_MULTIPLIER * t.weight * t.duration * MIN_IN_H;
      && base <= SpentCalories(t)
      && SpentCalories(t) <= base + s * s / t.height * unit
      && base + s * s / t.height * unit - unit < SpentCalories(t)
  {
    var s := MeanSpeed(t);
    var k := WalkingSpeedTerm(t) as real;
    var base := WALK_WEIGHT_MULTIPLIER * t.weight * t.duration * MIN_IN_H;
    var unit := WALK_SPEED_HEIGHT_MULTIPLIER * t.weight * t.duration * MIN_IN_H;
    assert SpentCalories(t) == base + k * unit;
    BracketScaled(s * s, t.height, k, unit);
  }

  /**
    If `k*h <= x < (k+1)*h` with `h > 0`, then `k` is the integer part of the
    quotient, and scaling by `u > 0` keeps `k*u` within one `u` below `x/h*u`.
  */
  lemma BracketScaled(x: real, h: real, k: real, u: real)
    requires h > 0.0 && u > 0.0 && k >= 0.0
    requires k * h <= x < (k + 1.0) * h
    ensures 0.0 <= k * u <= x / h * u
    ensures x / h * u - u < k * u
  {
    MulDivBounds(x, h, k);
    MulDivBounds(x, h, k + 1.0);
    ScaleBracket(k, x / h, u);
  }

  /**
    Swimming calories have no minutes factor: stretching the duration and the
    number of pool crossings by the same factor changes nothing, since only
    the mean speed enters the formula.
  */
  lemma SwimmingNoMinutesFactor(a: real, d: real, w: real, lp: real, cp: real, f: real)
    requires d != 0.0 && f != 0.0
    ensures SpentCalories(Swimming(a, f * d, w, lp, f * cp)) == SpentCalories(Swimming(a, d, w, lp, cp))
  {
    assert MeanSpeed(Swimming(a, f * d, w, lp, f * cp)) == MeanSpeed(Swimming(a, d, w, lp, cp));
  }

  /** The stroke count of a swim changes its distance and nothing else. */
  lemma SwimmingIgnoresStrokes(a: real, a': real, d: real, w: real, lp: real, cp: real)
    requires d != 0.0
    ensures MeanSpeed(Swimming(a', d, w, lp, cp)) == MeanSpeed(Swimming(a, d, w, lp, cp))
    ensures SpentCalories(Swimming(a', d, w, lp, cp)) == SpentCalories(Swimming(a, d, w, lp, cp))
    ensures Distance(Swimming(a', d, w, lp, cp)) * M_IN_KM == a' * STROKE_LEN
  {
  }

  /** Running and sports walking with the same readings cover the same distance at the same speed. */
  lemma RunningWalkingShareMotion(a: real, d: real, w: real, h: real)
    requires d != 0.0
    ensures Distance(Running(a, d, w)) == Distance(SportsWalking(a, d, w, h))
    ensures MeanSpeed(Running(a, d, w)) == MeanSpeed(SportsWalking(a, d, w, h))
  {
  }

  /** The demonstration run: 15000 steps in one hour at 75 kg. */
  lemma RunningDemo()
    ensures ShowTrainingInfo(Running(15000.0, 1.0, 75.0))
      == InfoMessage("Running", 1.0, 9.75, 9.75, 699.75)
  {
  }

  /** The demonstration walk: 9000 steps in one hour at 75 kg and 180 cm. */
  lemma WalkingDemo()
    ensures ShowTrainingInfo(SportsWalking(9000.0, 1.0, 75.0, 180.0))
      == InfoMessage("SportsWalking", 1.0, 5.85, 5.85, 157.5)
  {
  }

  /** The demonstration swim: 720 strokes, 40 crossings of a 25 m pool in one hour at 80 kg. */
  lemma SwimmingDemo()
    ensures ShowTrainingInfo(Swimming(720.0, 1.0, 80.0, 25.0, 40.0))
      == InfoMessage("Swimming", 1.0, 0.9936, 1.0, 336.0)
  {
  }
}
