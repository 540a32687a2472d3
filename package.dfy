/**
  Reading a sensor package: a three-letter workout code picks the workout
  kind, and the package's numbers become that kind's constructor arguments
  in order.
*/
module Package {
  import opened Wrappers
  import opened Workouts

  /** The workout codes the tracker knows. */
  const KnownCodes: set<string> := {"SWM", "RUN", "WLK"}

  /** Why a package could not be read. */
  datatype PackageError =
    | UnknownWorkoutType(code: string)
    | WrongArgumentCount(code: string, expected: nat, given: nat)

  /** Number of readings the constructor of a known code takes. */
  function Arity(code: string): (n: nat)
    requires code in KnownCodes
    ensures n == 3 <==> code == "RUN"
    ensures n == 4 <==> code == "WLK"
    ensures n == 5 <==> code == "SWM"
  {
    if code == "SWM" then 5 else if code == "RUN" then 3 else 4
  }

  /** The code under which a workout kind is sent. */
  function Code(t: Training): (c: string)
    ensures c in KnownCodes
  {
    match t
    case Running(_, _, _) => "RUN"
    case SportsWalking(_, _, _, _) => "WLK"
    case Swimming(_, _, _, _, _) => "SWM"
  }

  /** The readings of a workout in constructor order. */
  function Args(t: Training): (data: seq<real>)
    ensures |data| == Arity(Code(t))
    ensures data[0] == t.action && data[1] == t.duration && data[2] == t.weight
  {
    match t
    case Running(a, d, w) => [a, d, w]
    case SportsWalking(a, d, w, h) => [a, d, w, h]
    case Swimming(a, d, w, lp, cp) => [a, d, w, lp, cp]
  }

  /**
    Look the code up, then build the workout from the readings.  An unknown
    code fails before the readings are looked at; a known code with the wrong
    number of readings fails too.
  */
  function ReadPackage(code: string, data: seq<real>): (r: Result<Training, PackageError>)
    ensures r == Failure(UnknownWorkoutType(code)) <==> code !in KnownCodes
    ensures code in KnownCodes ==>
      (|data| != Arity(code) <==> r == Failure(WrongArgumentCount(code, Arity(code), |data|)))
    ensures r.Success? <==> code in KnownCodes && |data| == Arity(code)
    ensures r.Success? ==> Code(r.value) == code && Args(r.value) == data
  {
    if code == "SWM" then
      if |data| == 5 then Success(Swimming(data[0], data[1], data[2], data[3], data[4]))
      else Failure(WrongArgumentCount(code, 5, |data|))
    else if code == "RUN" then
      if |data| == 3 then Success(Running(data[0], data[1], data[2]))
      else Failure(WrongArgumentCount(code, 3, |data|))
    else if code == "WLK" then
      if |data| == 4 then Success(SportsWalking(data[0], data[1], data[2], data[3]))
      else Failure(WrongArgumentCount(code, 4, |data|))
    else
      Failure(UnknownWorkoutType(code))
  }

  /** Sending a workout as a package and reading it back gives the same workout. */
  lemma ReadPackageRoundTrip(t: Training)
    ensures ReadPackage(Code(t), Args(t)) == Success(t)
  {
  }

  /** A package that reads is exactly the package of the workout it reads as. */
  lemma ReadPackageInjective(code: string, data: seq<real>, t: Training)
    ensures ReadPackage(code, data) == Success(t) <==> code == Code(t) && data == Args(t)
  {
  }

  /** The summary of a package read under a code carries that code's class name. */
  lemma ReadPackageLabel(code: string, data: seq<real>)
    requires ReadPackage(code, data).Success?
    ensures Label(ReadPackage(code, data).value)
      == if code == "SWM" then "Swimming" else if code == "RUN" then "Running" else "SportsWalking"
  {
  }

  /** The three demonstration packages read as the workouts whose figures RunningDemo, WalkingDemo and SwimmingDemo give. */
  lemma DemoPackages()
    ensures ReadPackage("SWM", [720.0, 1.0, 80.0, 25.0, 40.0]) == Success(Swimming(720.0, 1.0, 80.0, 25.0, 40.0))
    ensures ReadPackage("RUN", [15000.0, 1.0, 75.0]) == Success(Running(15000.0, 1.0, 75.0))
    ensures ReadPackage("WLK", [9000.0, 1.0, 75.0, 180.0]) == Success(SportsWalking(9000.0, 1.0, 75.0, 180.0))
  {
  }

  /** An unknown code and a short package are reported, not read. */
  lemma ReadPackageErrorExamples()
    ensures ReadPackage("XXX", [1.0, 2.0, 3.0]) == Failure(UnknownWorkoutType("XXX"))
    ensures ReadPackage("SWM", [720.0, 1.0, 80.0]) == Failure(WrongArgumentCount("SWM", 5, 3))
  {
  }
}
