/**
 * FormulaV4a: five kinematic quantities (distance, time, initial and final
 * velocity, acceleration), each a value with a blank flag. `calculate` lists
 * the blank quantities in enum order, insists on exactly two, looks the pair
 * up in a map of ten formulas and runs the one it finds, which writes through
 * references into the values; only then are all five marked non-blank.
 */
module FormulaV4a {
  import opened Common

  /** `VARIABLES`, the number of quantities. */
  const Variables: nat := 5

  datatype ValueId = Distance | Time | InitialVelocity | FinalVelocity | Acceleration

  /** The enum's underlying value: the quantity's index in the value array. */
  function Index(id: ValueId): Slot
  {
    match id
    case Distance => 0
    case Time => 1
    case InitialVelocity => 2
    case FinalVelocity => 3
    case Acceleration => 4
  }

  /** `static_cast<ValueId>(i)`: the quantity with index `i`. */
  function IdOf(i: Slot): (id: ValueId)
    ensures Index(id) == i
  {
    if i == 0 then Distance
    else if i == 1 then Time
    else if i == 2 then InitialVelocity
    else if i == 3 then FinalVelocity
    else Acceleration
  }

  /** One array entry: the number and whether it is still blank. */
  datatype Value = Value(v: real, isBlank: bool)

  /** The five numbers, indexed by `Index`. */
  type Reals = v: seq<real> | |v| == Variables witness [0.0, 0.0, 0.0, 0.0, 0.0]

  function Read(v: Reals, id: ValueId): real { v[Index(id)] }

  /** A write through one of the `double&` accessors. */
  function Write(v: Reals, id: ValueId, x: real): Reals { v[Index(id) := x] }

  /** `at2`: acceleration times time squared. */
  function At2(v: Reals): real { Read(v, Acceleration) * (Read(v, Time) * Read(v, Time)) }

  /** `ad`: acceleration times distance. */
  function Ad(v: Reals): real { Read(v, Acceleration) * Read(v, Distance) }

  /** `initial_velocity2`: the initial velocity squared. */
  function InitialVelocity2(v: Reals): real { Read(v, InitialVelocity) * Read(v, InitialVelocity) }

  /** `final_velocity2`: the final velocity squared. */
  function FinalVelocity2(v: Reals): real { Read(v, FinalVelocity) * Read(v, FinalVelocity) }

  /** `calculate_distance`: d = vi t + a t^2 / 2, written into distance. */
  function WithDistance(v: Reals): (r: Reals)
    ensures forall id :: id != Distance ==> Read(r, id) == Read(v, id)
  {
    Write(v, Distance, Read(v, InitialVelocity) * Read(v, Time) + 0.5 * At2(v))
  }

  /**
   * `calculate_time`: with zero acceleration t = d / vf, which throws when vf
   * is zero too; otherwise t = (vf - vi) / a. The second zero test of the
   * source sits in the branch where acceleration is already known non-zero
   * and can never fire.
   */
  function WithTime(v: Reals): (r: Step<Reals>)
    ensures r.outcome == Done <==> Read(v, Acceleration) != 0.0 || Read(v, FinalVelocity) != 0.0
    ensures r.outcome != Done ==> r == Step(Fail(DomainError), v)
    ensures forall id :: id != Time ==> Read(r.state, id) == Read(v, id)
  {
    if Read(v, Acceleration) == 0.0 then
      if Read(v, FinalVelocity) == 0.0 then Step(Fail(DomainError), v)
      else Step(Done, Write(v, Time, Read(v, Distance) / Read(v, FinalVelocity)))
    else Step(Done, Write(v, Time, (Read(v, FinalVelocity) - Read(v, InitialVelocity)) / Read(v, Acceleration)))
  }

  /** `sqrt` is a square root on the non-negative reals. */
  ghost predicate IsSqrt(sqrt: real -> real)
  {
    forall x :: x >= 0.0 ==> sqrt(x) >= 0.0 && sqrt(x) * sqrt(x) == x
  }

  /** The ten lambdas of `init_formulas`, named by the pair of quantities they solve for. */
  datatype Formula =
    | DistanceTime | DistanceInitialVelocity | DistanceFinalVelocity | DistanceAcceleration
    | TimeInitialVelocity | TimeFinalVelocity | TimeAcceleration
    | InitialVelocityFinalVelocity | InitialVelocityAcceleration | FinalVelocityAcceleration

  /** The pair a formula solves for, in enum order. */
  function Unknowns(f: Formula): (p: (ValueId, ValueId))
    ensures Index(p.0) < Index(p.1)
  {
    match f
    case DistanceTime => (Distance, Time)
    case DistanceInitialVelocity => (Distance, InitialVelocity)
    case DistanceFinalVelocity => (Distance, FinalVelocity)
    case DistanceAcceleration => (Distance, Acceleration)
    case TimeInitialVelocity => (Time, InitialVelocity)
    case TimeFinalVelocity => (Time, FinalVelocity)
    case TimeAcceleration => (Time, Acceleration)
    case InitialVelocityFinalVelocity => (InitialVelocity, FinalVelocity)
    case InitialVelocityAcceleration => (InitialVelocity, Acceleration)
    case FinalVelocityAcceleration => (FinalVelocity, Acceleration)
  }

  /** `init_formulas`: the pair-keyed map of the ten formulas. */
  function InitFormulas(): (m: map<(ValueId, ValueId), Formula>)
    ensures forall p :: p in m ==> Unknowns(m[p]) == p
  {
    map[(Distance, Time) := DistanceTime,
        (Distance, InitialVelocity) := DistanceInitialVelocity,
        (Distance, FinalVelocity) := DistanceFinalVelocity,
        (Distance, Acceleration) := DistanceAcceleration,
        (Time, InitialVelocity) := TimeInitialVelocity,
        (Time, FinalVelocity) := TimeFinalVelocity,
        (Time, Acceleration) := TimeAcceleration,
        (InitialVelocity, FinalVelocity) := InitialVelocityFinalVelocity,
        (InitialVelocity, Acceleration) := InitialVelocityAcceleration,
        (FinalVelocity, Acceleration) := FinalVelocityAcceleration]
  }

  /**
   * What a formula does to the five numbers: the writes it makes in order,
   * and the guard that throws. A formula that throws after a write leaves
   * that write in place.
   */
  function Run(f: Formula, v: Reals, sqrt: real -> real): (r: Step<Reals>)
    ensures r.outcome == Done || r.outcome == Fail(DomainError)
  {
    var d, t, vi, vf, a := Read(v, Distance), Read(v, Time), Read(v, InitialVelocity),
                          Read(v, FinalVelocity), Read(v, Acceleration);
    match f
    case DistanceTime =>
      if a == 0.0 then Step(Fail(DomainError), v)
      else Step(Done, WithDistance(Write(v, Time, (vf - vi) / a)))
    case DistanceInitialVelocity =>
      Step(Done, WithDistance(Write(v, InitialVelocity, vf - a * t)))
    case DistanceFinalVelocity =>
      Step(Done, WithDistance(Write(v, FinalVelocity, vi + a * t)))
    case DistanceAcceleration =>
      if t == 0.0 then Step(Fail(DomainError), v)
      else Step(Done, WithDistance(Write(v, Acceleration, (vf - vi) / t)))
    case TimeInitialVelocity =>
      var temp := FinalVelocity2(v) - 2.0 * Ad(v);
      if temp < 0.0 then Step(Fail(DomainError), v)
      else WithTime(Write(v, InitialVelocity, sqrt(temp)))
    case TimeFinalVelocity =>
      var temp := InitialVelocity2(v) + 2.0 * Ad(v);
      if temp < 0.0 then Step(Fail(DomainError), v)
      else WithTime(Write(v, FinalVelocity, sqrt(temp)))
    case TimeAcceleration =>
      if d == 0.0 then Step(Fail(DomainError), v)
      else WithTime(Write(v, Acceleration, (FinalVelocity2(v) - InitialVelocity2(v)) / (2.0 * d)))
    case InitialVelocityFinalVelocity =>
      if t == 0.0 then Step(Fail(DomainError), v)
      else
        var w := Write(v, InitialVelocity, d / t - 0.5 * a * t);
        Step(Done, Write(w, FinalVelocity, Read(w, InitialVelocity) + a * t))
    case InitialVelocityAcceleration =>
      if t == 0.0 then Step(Fail(DomainError), v)
      else
        var w := Write(v, InitialVelocity, (2.0 * d) / t - vf);
        if Read(w, InitialVelocity) < 0.0 then Step(Fail(DomainError), w)
        else Step(Done, Write(w, Acceleration, (vf - Read(w, InitialVelocity)) / t))
    case FinalVelocityAcceleration =>
      if t == 0.0 then Step(Fail(DomainError), v)
      else
        var w := Write(v, FinalVelocity, (2.0 * d) / t - vi);
        if Read(w, FinalVelocity) < 0.0 then Step(Fail(DomainError), w)
        else Step(Done, Write(w, Acceleration, (Read(w, FinalVelocity) - vi) / t))
  }

  /**
   * When a formula succeeds, in terms of its inputs: its own zero and sign
   * guards, and for the three time formulas the test of `calculate_time`
   * (acceleration and final velocity both zero) on the value written just
   * before it.
   */
  ghost predicate Admissible(f: Formula, v: Reals, sqrt: real -> real)
  {
    var d, t, vi, vf, a := Read(v, Distance), Read(v, Time), Read(v, InitialVelocity),
                          Read(v, FinalVelocity), Read(v, Acceleration);
    match f
    case DistanceTime => a != 0.0
    case DistanceInitialVelocity => true
    case DistanceFinalVelocity => true
    case DistanceAcceleration => t != 0.0
    case TimeInitialVelocity => FinalVelocity2(v) - 2.0 * Ad(v) >= 0.0 && (a != 0.0 || vf != 0.0)
    case TimeFinalVelocity =>
      var temp := InitialVelocity2(v) + 2.0 * Ad(v);
      temp >= 0.0 && (a != 0.0 || sqrt(temp) != 0.0)
    case TimeAcceleration =>
      d != 0.0 && ((FinalVelocity2(v) - InitialVelocity2(v)) / (2.0 * d) != 0.0 || vf != 0.0)
    case InitialVelocityFinalVelocity => t != 0.0
    case InitialVelocityAcceleration => t != 0.0 && (2.0 * d) / t - vf >= 0.0
    case FinalVelocityAcceleration => t != 0.0 && (2.0 * d) / t - vi >= 0.0
  }

  /**
   * Every formula throws a domain error when, and only when, one of its
   * guards fires; it never throws anything else.
   */
  lemma RunFailsOnlyOnGuards(f: Formula, v: Reals, sqrt: real -> real)
    ensures Run(f, v, sqrt).outcome == Done <==> Admissible(f, v, sqrt)
    ensures Run(f, v, sqrt).outcome != Done ==> Run(f, v, sqrt).outcome == Fail(DomainError)
  {
  }

  /** The velocity relation of constant acceleration: vf = vi + a t. */
  ghost predicate VelocityRelation(w: Reals)
  {
    Read(w, FinalVelocity) == Read(w, InitialVelocity) + Read(w, Acceleration) * Read(w, Time)
  }

  /** The distance relation of constant acceleration: d = vi t + a t^2 / 2. */
  ghost predicate DistanceRelation(w: Reals)
  {
    Read(w, Distance) == Read(w, InitialVelocity) * Read(w, Time) + 0.5 * At2(w)
  }

  /** The three formulas that finish with `calculate_time`. */
  predicate EndsWithTime(f: Formula)
  {
    f == TimeInitialVelocity || f == TimeFinalVelocity || f == TimeAcceleration
  }

  lemma QuotientTimesDivisor(n: real, m: real)
    requires m != 0.0
    ensures (n / m) * m == n && m * (n / m) == n
  {
  }

  /** `calculate_time` with non-zero acceleration makes the velocity relation true. */
  lemma WithTimeVelocity(w: Reals)
    requires Read(w, Acceleration) != 0.0
    ensures WithTime(w).outcome == Done && VelocityRelation(WithTime(w).state)
  {
    QuotientTimesDivisor(Read(w, FinalVelocity) - Read(w, InitialVelocity), Read(w, Acceleration));
  }

  /** A velocity written by the formula, followed by `calculate_distance`, satisfies both relations. */
  lemma WithDistanceKinematics(w: Reals)
    requires VelocityRelation(w)
    ensures VelocityRelation(WithDistance(w)) && DistanceRelation(WithDistance(w))
  {
  }

  /** With a non-zero acceleration, vf = vi + a t and vf^2 - vi^2 = 2 a d give d = vi t + a t^2 / 2. */
  lemma SquaresDistance(d: real, t: real, vi: real, vf: real, a: real)
    requires a != 0.0 && vf == vi + a * t && vf * vf - vi * vi == 2.0 * (a * d)
    ensures d == vi * t + 0.5 * (a * (t * t))
  {
    assert vf * vf - vi * vi == a * (2.0 * vi * t + a * (t * t));
    assert a * (2.0 * d - (2.0 * vi * t + a * (t * t))) == 0.0;
  }

  /** The velocity relation with a non-zero acceleration and vf^2 - vi^2 = 2 a d implies the distance relation. */
  lemma SquaresDistanceRelation(w: Reals)
    requires Read(w, Acceleration) != 0.0 && VelocityRelation(w)
    requires FinalVelocity2(w) - InitialVelocity2(w) == 2.0 * Ad(w)
    ensures DistanceRelation(w)
  {
    SquaresDistance(Read(w, Distance), Read(w, Time), Read(w, InitialVelocity), Read(w, FinalVelocity), Read(w, Acceleration));
  }

  /**
   * `calculate_time` after a write that keeps vf^2 - vi^2 = 2 a d, with a
   * non-zero acceleration: it succeeds and leaves both relations true.
   */
  lemma WithTimeFromSquares(w: Reals)
    requires Read(w, Acceleration) != 0.0
    requires FinalVelocity2(w) - InitialVelocity2(w) == 2.0 * Ad(w)
    ensures WithTime(w).outcome == Done
    ensures VelocityRelation(WithTime(w).state) && DistanceRelation(WithTime(w).state)
  {
    WithTimeVelocity(w);
    SquaresDistanceRelation(WithTime(w).state);
  }

  lemma KinematicsDistanceTime(v: Reals, sqrt: real -> real)
    requires Run(DistanceTime, v, sqrt).outcome == Done
    ensures VelocityRelation(Run(DistanceTime, v, sqrt).state) && DistanceRelation(Run(DistanceTime, v, sqrt).state)
  {
    var vi, vf, a := Read(v, InitialVelocity), Read(v, FinalVelocity), Read(v, Acceleration);
    QuotientTimesDivisor(vf - vi, a);
    WithDistanceKinematics(Write(v, Time, (vf - vi) / a));
  }

  lemma KinematicsDistanceAcceleration(v: Reals, sqrt: real -> real)
    requires Run(DistanceAcceleration, v, sqrt).outcome == Done
    ensures VelocityRelation(Run(DistanceAcceleration, v, sqrt).state)
    ensures DistanceRelation(Run(DistanceAcceleration, v, sqrt).state)
  {
    var t, vi, vf := Read(v, Time), Read(v, InitialVelocity), Read(v, FinalVelocity);
    QuotientTimesDivisor(vf - vi, t);
    WithDistanceKinematics(Write(v, Acceleration, (vf - vi) / t));
  }

  lemma KinematicsInitialVelocityFinalVelocity(v: Reals, sqrt: real -> real)
    requires Run(InitialVelocityFinalVelocity, v, sqrt).outcome == Done
    ensures VelocityRelation(Run(InitialVelocityFinalVelocity, v, sqrt).state)
    ensures DistanceRelation(Run(InitialVelocityFinalVelocity, v, sqrt).state)
  {
    var d, t := Read(v, Distance), Read(v, Time);
    QuotientTimesDivisor(d, t);
  }

  lemma KinematicsInitialVelocityAcceleration(v: Reals, sqrt: real -> real)
    requires Run(InitialVelocityAcceleration, v, sqrt).outcome == Done
    ensures VelocityRelation(Run(InitialVelocityAcceleration, v, sqrt).state)
    ensures DistanceRelation(Run(InitialVelocityAcceleration, v, sqrt).state)
  {
    var d, t, vf := Read(v, Distance), Read(v, Time), Read(v, FinalVelocity);
    var vi' := (2.0 * d) / t - vf;
    var a' := (vf - vi') / t;
    QuotientTimesDivisor(vf - vi', t);
    QuotientTimesDivisor(2.0 * d, t);
    assert a' * (t * t) == (vf - vi') * t;
  }

  lemma KinematicsFinalVelocityAcceleration(v: Reals, sqrt: real -> real)
    requires Run(FinalVelocityAcceleration, v, sqrt).outcome == Done
    ensures VelocityRelation(Run(FinalVelocityAcceleration, v, sqrt).state)
    ensures DistanceRelation(Run(FinalVelocityAcceleration, v, sqrt).state)
  {
    var d, t, vi := Read(v, Distance), Read(v, Time), Read(v, InitialVelocity);
    var vf' := (2.0 * d) / t - vi;
    var a' := (vf' - vi) / t;
    QuotientTimesDivisor(vf' - vi, t);
    QuotientTimesDivisor(2.0 * d, t);
    assert a' * (t * t) == (vf' - vi) * t;
  }

  lemma KinematicsDistanceInitialVelocity(v: Reals, sqrt: real -> real)
    ensures VelocityRelation(Run(DistanceInitialVelocity, v, sqrt).state)
    ensures DistanceRelation(Run(DistanceInitialVelocity, v, sqrt).state)
  {
    var w := Write(v, InitialVelocity, Read(v, FinalVelocity) - Read(v, Acceleration) * Read(v, Time));
    WithDistanceKinematics(w);
    assert Run(DistanceInitialVelocity, v, sqrt).state == WithDistance(w);
  }

  lemma KinematicsDistanceFinalVelocity(v: Reals, sqrt: real -> real)
    ensures VelocityRelation(Run(DistanceFinalVelocity, v, sqrt).state)
    ensures DistanceRelation(Run(DistanceFinalVelocity, v, sqrt).state)
  {
    var w := Write(v, FinalVelocity, Read(v, InitialVelocity) + Read(v, Acceleration) * Read(v, Time));
    WithDistanceKinematics(w);
    assert Run(DistanceFinalVelocity, v, sqrt).state == WithDistance(w);
  }

  /**
   * vi = sqrt(vf^2 - 2 a d), then `calculate_time`: with a non-zero
   * acceleration the velocity relation holds, and when `sqrt` is a square
   * root so does the distance relation.
   */
  lemma KinematicsTimeInitialVelocity(v: Reals, sqrt: real -> real)
    requires Run(TimeInitialVelocity, v, sqrt).outcome == Done
    requires Read(Run(TimeInitialVelocity, v, sqrt).state, Acceleration) != 0.0
    ensures VelocityRelation(Run(TimeInitialVelocity, v, sqrt).state)
    ensures IsSqrt(sqrt) ==> DistanceRelation(Run(TimeInitialVelocity, v, sqrt).state)
  {
    var temp := FinalVelocity2(v) - 2.0 * Ad(v);
    var w := Write(v, InitialVelocity, sqrt(temp));
    assert Run(TimeInitialVelocity, v, sqrt) == WithTime(w);
    WithTimeVelocity(w);
    if IsSqrt(sqrt) {
      assert sqrt(temp) * sqrt(temp) == temp;
      WithTimeFromSquares(w);
    }
  }

  /**
   * vf = sqrt(vi^2 + 2 a d), then `calculate_time`: with a non-zero
   * acceleration the velocity relation holds, and when `sqrt` is a square
   * root so does the distance relation.
   */
  lemma KinematicsTimeFinalVelocity(v: Reals, sqrt: real -> real)
    requires Run(TimeFinalVelocity, v, sqrt).outcome == Done
    requires Read(Run(TimeFinalVelocity, v, sqrt).state, Acceleration) != 0.0
    ensures VelocityRelation(Run(TimeFinalVelocity, v, sqrt).state)
    ensures IsSqrt(sqrt) ==> DistanceRelation(Run(TimeFinalVelocity, v, sqrt).state)
  {
    var temp := InitialVelocity2(v) + 2.0 * Ad(v);
    var w := Write(v, FinalVelocity, sqrt(temp));
    assert Run(TimeFinalVelocity, v, sqrt) == WithTime(w);
    WithTimeVelocity(w);
    if IsSqrt(sqrt) {
      assert sqrt(temp) * sqrt(temp) == temp;
      WithTimeFromSquares(w);
    }
  }

  /**
   * a = (vf^2 - vi^2) / (2 d), then `calculate_time`: with a non-zero
   * acceleration both relations hold, whatever `sqrt` is.
   */
  lemma KinematicsTimeAcceleration(v: Reals, sqrt: real -> real)
    requires Run(TimeAcceleration, v, sqrt).outcome == Done
    requires Read(Run(TimeAcceleration, v, sqrt).state, Acceleration) != 0.0
    ensures VelocityRelation(Run(TimeAcceleration, v, sqrt).state)
    ensures DistanceRelation(Run(TimeAcceleration, v, sqrt).state)
  {
    var squares := FinalVelocity2(v) - InitialVelocity2(v);
    var w := Write(v, Acceleration, squares / (2.0 * Read(v, Distance)));
    assert Run(TimeAcceleration, v, sqrt) == WithTime(w);
    WithTimeVelocity(w);
    QuotientTimesDivisor(squares, 2.0 * Read(v, Distance));
    WithTimeFromSquares(w);
  }

  /**
   * On success the numbers obey the kinematics: every formula but the three
   * time formulas leaves both relations true. The time formulas leave the
   * velocity relation true whenever the acceleration they end with is
   * non-zero, and then the distance relation too when `sqrt` is a square
   * root (for the (time, acceleration) formula, whatever `sqrt` is).
   */
  lemma RunSatisfiesKinematics(f: Formula, v: Reals, sqrt: real -> real)
    requires Run(f, v, sqrt).outcome == Done
    ensures !EndsWithTime(f) ==> VelocityRelation(Run(f, v, sqrt).state) && DistanceRelation(Run(f, v, sqrt).state)
    ensures Read(Run(f, v, sqrt).state, Acceleration) != 0.0 ==> VelocityRelation(Run(f, v, sqrt).state)
    ensures Read(Run(f, v, sqrt).state, Acceleration) != 0.0 && (IsSqrt(sqrt) || f == TimeAcceleration) ==>
              DistanceRelation(Run(f, v, sqrt).state)
  {
    if EndsWithTime(f) {
      if Read(Run(f, v, sqrt).state, Acceleration) != 0.0 {
        if f == TimeInitialVelocity {
          KinematicsTimeInitialVelocity(v, sqrt);
        } else if f == TimeFinalVelocity {
          KinematicsTimeFinalVelocity(v, sqrt);
        } else {
          KinematicsTimeAcceleration(v, sqrt);
        }
      }
    } else if f == DistanceTime {
      KinematicsDistanceTime(v, sqrt);
    } else if f == DistanceInitialVelocity {
      KinematicsDistanceInitialVelocity(v, sqrt);
    } else if f == DistanceFinalVelocity {
      KinematicsDistanceFinalVelocity(v, sqrt);
    } else if f == DistanceAcceleration {
      KinematicsDistanceAcceleration(v, sqrt);
    } else if f == InitialVelocityFinalVelocity {
      KinematicsInitialVelocityFinalVelocity(v, sqrt);
    } else if f == InitialVelocityAcceleration {
      KinematicsInitialVelocityAcceleration(v, sqrt);
    } else {
      KinematicsFinalVelocityAcceleration(v, sqrt);
    }
  }

  /** A formula writes at most its two unknowns: every other quantity keeps its number. */
  lemma RunWritesOnlyUnknowns(f: Formula, v: Reals, sqrt: real -> real, id: ValueId)
    requires id != Unknowns(f).0 && id != Unknowns(f).1
    ensures Read(Run(f, v, sqrt).state, id) == Read(v, id)
  {
  }

  /**
   * The map holds the pair (x, y) exactly when x comes before y, and then
   * under the formula that solves for that pair.
   */
  lemma FormulaForPair(x: ValueId, y: ValueId)
    ensures (x, y) in InitFormulas() <==> Index(x) < Index(y)
    ensures (x, y) in InitFormulas() ==> Unknowns(InitFormulas()[(x, y)]) == (x, y)
  {
    match x {
      case Distance =>
      case Time =>
      case InitialVelocity =>
      case FinalVelocity =>
      case Acceleration =>
    }
  }

  /** The blank quantities among the first `n`, in enum order: the `push_back` loop of `calculate`. */
  function BlankBelow(present: seq<bool>, n: nat): (u: seq<ValueId>)
    requires |present| == Variables && n <= Variables
    ensures |u| <= n
  {
    if n == 0 then []
    else BlankBelow(present, n - 1) + (if present[n - 1] then [] else [IdOf(n - 1)])
  }

  /**
   * The list `calculate` collects: one entry per blank quantity, in strictly
   * increasing enum order.
   */
  lemma {:induction false} BlankBelowFacts(present: seq<bool>, n: nat)
    requires |present| == Variables && n <= Variables
    ensures forall k :: 0 <= k < |BlankBelow(present, n)| ==>
              Index(BlankBelow(present, n)[k]) < n && !present[Index(BlankBelow(present, n)[k])]
    ensures forall i: Slot :: i < n && !present[i] ==> IdOf(i) in BlankBelow(present, n)
    ensures forall j, k :: 0 <= j < k < |BlankBelow(present, n)| ==>
              Index(BlankBelow(present, n)[j]) < Index(BlankBelow(present, n)[k])
  {
    if n > 0 {
      BlankBelowFacts(present, n - 1);
    }
  }

  /** The list of five flags, written out flag by flag. */
  lemma BlankBelowFive(present: seq<bool>)
    requires |present| == Variables
    ensures BlankBelow(present, Variables)
            == (if present[0] then [] else [Distance]) + (if present[1] then [] else [Time])
               + (if present[2] then [] else [InitialVelocity]) + (if present[3] then [] else [FinalVelocity])
               + (if present[4] then [] else [Acceleration])
  {
    var p := present;
    assert BlankBelow(p, 1) == (if p[0] then [] else [Distance]);
    assert BlankBelow(p, 2) == BlankBelow(p, 1) + (if p[1] then [] else [Time]);
    assert BlankBelow(p, 3) == BlankBelow(p, 2) + (if p[2] then [] else [InitialVelocity]);
    assert BlankBelow(p, 4) == BlankBelow(p, 3) + (if p[3] then [] else [FinalVelocity]);
  }

  /** The list has as many entries as there are blank quantities. */
  lemma BlankListLength(present: seq<bool>)
    requires |present| == Variables
    ensures |BlankBelow(present, Variables)| == BlankCount(present)
  {
    BlankCountFive(present);
    var p := present;
    assert |BlankBelow(p, 1)| == Bit(!p[0]);
    assert |BlankBelow(p, 2)| == |BlankBelow(p, 1)| + Bit(!p[1]);
    assert |BlankBelow(p, 3)| == |BlankBelow(p, 2)| + Bit(!p[2]);
    assert |BlankBelow(p, 4)| == |BlankBelow(p, 3)| + Bit(!p[3]);
    assert |BlankBelow(p, 5)| == |BlankBelow(p, 4)| + Bit(!p[4]);
  }

  /** With exactly two blanks the pair looked up is registered, under the formula for those two. */
  lemma PairIsRegistered(present: seq<bool>)
    requires |present| == Variables && BlankCount(present) == 2
    ensures var u := BlankBelow(present, Variables);
            |u| == 2 && (u[0], u[1]) in InitFormulas() && Unknowns(InitFormulas()[(u[0], u[1])]) == (u[0], u[1])
    ensures var u := BlankBelow(present, Variables);
            !present[Index(u[0])] && !present[Index(u[1])]
  {
    BlankListLength(present);
    BlankBelowFacts(present, Variables);
    var u := BlankBelow(present, Variables);
    FormulaForPair(u[0], u[1]);
  }

  /**
   * What `calculate` does to the store: throw on too many or too few blanks,
   * look the pair up, run its formula; on success mark all five non-blank,
   * on a throw from the formula keep its writes and leave the flags alone.
   */
  function Solve(s: Store, sqrt: real -> real): (r: Step<Store>)
    requires s.Valid()
    ensures r.state.Valid()
    ensures r.outcome == Done ==> r.state.present == [true, true, true, true, true]
    ensures r.outcome != Done ==> r.state.present == s.present
  {
    var unknowns := BlankBelow(s.present, Variables);
    if |unknowns| > 2 then Step(Fail(TooManyBlank), s)
    else if |unknowns| < 2 then Step(Fail(TooFewBlank), s)
    else if (unknowns[0], unknowns[1]) !in InitFormulas() then Step(Fail(UnrecognizedCombination), s)
    else
      var run := Run(InitFormulas()[(unknowns[0], unknowns[1])], s.vals, sqrt);
      if run.outcome.Fail? then Step(run.outcome, Store(run.state, s.present))
      else Step(Done, Store(run.state, [true, true, true, true, true]))
  }

  /**
   * `calculate` throws `TooManyBlank` exactly when more than two quantities
   * are blank and `TooFewBlank` exactly when fewer than two are, changing
   * nothing; with two blanks the lookup never fails.
   */
  lemma SolveChecksBlankCount(s: Store, sqrt: real -> real)
    requires s.Valid()
    ensures Solve(s, sqrt).outcome == Fail(TooManyBlank) <==> BlankCount(s.present) > 2
    ensures Solve(s, sqrt).outcome == Fail(TooFewBlank) <==> BlankCount(s.present) < 2
    ensures BlankCount(s.present) != 2 ==> Solve(s, sqrt).state == s
    ensures Solve(s, sqrt).outcome != Fail(UnrecognizedCombination)
  {
    BlankListLength(s.present);
    if BlankCount(s.present) == 2 {
      PairIsRegistered(s.present);
    }
  }

  /**
   * On success all five quantities are non-blank and the three known ones
   * kept their numbers; on a throw the blank flags are as they were and only
   * the two blank quantities may have new numbers.
   */
  lemma SolveWritesOnlyBlanks(s: Store, sqrt: real -> real)
    requires s.Valid()
    ensures Solve(s, sqrt).outcome == Done ==> Completes(s, Solve(s, sqrt).state)
    ensures Solve(s, sqrt).outcome != Done ==> Solve(s, sqrt).state.present == s.present
    ensures forall i: Slot :: s.present[i] ==> Solve(s, sqrt).state.vals[i] == s.vals[i]
  {
    BlankListLength(s.present);
    if BlankCount(s.present) == 2 {
      PairIsRegistered(s.present);
      var u := BlankBelow(s.present, Variables);
      var f := InitFormulas()[(u[0], u[1])];
      forall i: Slot | s.present[i] ensures Solve(s, sqrt).state.vals[i] == s.vals[i] {
        RunWritesOnlyUnknowns(f, s.vals, sqrt, IdOf(i));
      }
    }
  }

  /** `Values`: the array of five entries and the accessors the formulas use. */
  class Values {
    const variables: array<Value>

    ghost predicate Valid()
      reads this
    {
      variables.Length == Variables
    }

    /** A default `Value` is 0.0 and blank. */
    constructor ()
      ensures Valid() && fresh(variables)
      ensures State() == Store([0.0, 0.0, 0.0, 0.0, 0.0], [false, false, false, false, false])
    {
      variables := new Value[Variables](_ => Value(0.0, true));
    }

    /** The five numbers. */
    function Vals(): Reals
      reads this, variables
      requires Valid()
    {
      [variables[0].v, variables[1].v, variables[2].v, variables[3].v, variables[4].v]
    }

    /** Presence is the negated blank flag. */
    function Present(): (p: seq<bool>)
      reads this, variables
      requires Valid()
      ensures |p| == Variables
    {
      [!variables[0].isBlank, !variables[1].isBlank, !variables[2].isBlank,
       !variables[3].isBlank, !variables[4].isBlank]
    }

    function State(): (s: Store)
      reads this, variables
      requires Valid()
      ensures s.Valid()
    {
      Store(Vals(), Present())
    }

    /** Stores the number and clears the blank flag of one quantity. */
    method Set(id: ValueId, value: real)
      requires Valid()
      modifies variables
      ensures State() == old(State()).Put(Index(id), value)
    {
      variables[Index(id)] := Value(value, false);
    }

    /** The stored number, whether or not the quantity is blank: there is no presence check. */
    function Get(id: ValueId): (r: real)
      reads this, variables
      requires Valid()
      ensures r == Read(Vals(), id)
    {
      variables[Index(id)].v
    }

    /** An assignment through `at(id)`: the number changes, the blank flag does not. */
    method Assign(id: ValueId, x: real)
      requires Valid()
      modifies variables
      ensures Vals() == Write(old(Vals()), id, x) && Present() == old(Present())
    {
      variables[Index(id)] := variables[Index(id)].(v := x);
    }

    function IsBlank(id: ValueId): (b: bool)
      reads this, variables
      requires Valid()
      ensures b <==> !Present()[Index(id)]
    {
      variables[Index(id)].isBlank
    }

    method CalculateDistance()
      requires Valid()
      modifies variables
      ensures Vals() == WithDistance(old(Vals())) && Present() == old(Present())
    {
      ghost var v0 := Vals();
      Assign(Distance, Get(InitialVelocity) * Get(Time) + 0.5 * At2(Vals()));
      assert WithDistance(v0)[0] == Vals()[0];
    }

    method CalculateTime() returns (r: Outcome)
      requires Valid()
      modifies variables
      ensures r == WithTime(old(Vals())).outcome
      ensures Vals() == WithTime(old(Vals())).state && Present() == old(Present())
    {
      if Get(Acceleration) == 0.0 {
        if Get(FinalVelocity) == 0.0 {
          return Fail(DomainError);
        }
        Assign(Time, Get(Distance) / Get(FinalVelocity));
      } else {
        Assign(Time, (Get(FinalVelocity) - Get(InitialVelocity)) / Get(Acceleration));
      }
      r := Done;
    }
  }

  /** The (distance, time) lambda. */
  method RunDistanceTime(v: Values, sqrt: real -> real) returns (r: Outcome)
    requires v.Valid()
    modifies v.variables
    ensures r == Run(DistanceTime, old(v.Vals()), sqrt).outcome
    ensures v.Vals() == Run(DistanceTime, old(v.Vals()), sqrt).state && v.Present() == old(v.Present())
  {
    if v.Get(Acceleration) == 0.0 {
      return Fail(DomainError);
    }
    v.Assign(Time, (v.Get(FinalVelocity) - v.Get(InitialVelocity)) / v.Get(Acceleration));
    v.CalculateDistance();
    r := Done;
  }

  /** Run of the (distance, initial_velocity) formula, written out. */
  lemma DistanceInitialVelocityStep(v: Reals, sqrt: real -> real)
    ensures Run(DistanceInitialVelocity, v, sqrt) ==
            Step(Done, WithDistance(Write(v, InitialVelocity, Read(v, FinalVelocity) - Read(v, Acceleration) * Read(v, Time))))
  {
  }

  /** The (distance, initial_velocity) lambda. */
  method RunDistanceInitialVelocity(v: Values, sqrt: real -> real) returns (r: Outcome)
    requires v.Valid()
    modifies v.variables
    ensures r == Run(DistanceInitialVelocity, old(v.Vals()), sqrt).outcome
    ensures v.Vals() == Run(DistanceInitialVelocity, old(v.Vals()), sqrt).state && v.Present() == old(v.Present())
  {
    ghost var v0 := v.Vals();
    var x := v.Get(FinalVelocity) - v.Get(Acceleration) * v.Get(Time);
    assert x == Read(v0, FinalVelocity) - Read(v0, Acceleration) * Read(v0, Time);
    assert Write(v0, InitialVelocity, x) == Write(v0, InitialVelocity, Read(v0, FinalVelocity) - Read(v0, Acceleration) * Read(v0, Time));
    v.Assign(InitialVelocity, x);
    v.CalculateDistance();
    DistanceInitialVelocityStep(v0, sqrt);
    r := Done;
  }

  /** Run of the (distance, final_velocity) formula, written out. */
  lemma DistanceFinalVelocityStep(v: Reals, sqrt: real -> real)
    ensures Run(DistanceFinalVelocity, v, sqrt) ==
            Step(Done, WithDistance(Write(v, FinalVelocity, Read(v, InitialVelocity) + Read(v, Acceleration) * Read(v, Time))))
  {
  }

  /** The (distance, final_velocity) lambda. */
  method RunDistanceFinalVelocity(v: Values, sqrt: real -> real) returns (r: Outcome)
    requires v.Valid()
    modifies v.variables
    ensures r == Run(DistanceFinalVelocity, old(v.Vals()), sqrt).outcome
    ensures v.Vals() == Run(DistanceFinalVelocity, old(v.Vals()), sqrt).state && v.Present() == old(v.Present())
  {
    ghost var v0 := v.Vals();
    var x := v.Get(InitialVelocity) + v.Get(Acceleration) * v.Get(Time);
    assert x == Read(v0, InitialVelocity) + Read(v0, Acceleration) * Read(v0, Time);
    assert Write(v0, FinalVelocity, x) == Write(v0, FinalVelocity, Read(v0, InitialVelocity) + Read(v0, Acceleration) * Read(v0, Time));
    v.Assign(FinalVelocity, x);
    v.CalculateDistance();
    DistanceFinalVelocityStep(v0, sqrt);
    r := Done;
  }

  /** The (distance, acceleration) lambda. */
  method RunDistanceAcceleration(v: Values, sqrt: real -> real) returns (r: Outcome)
    requires v.Valid()
    modifies v.variables
    ensures r == Run(DistanceAcceleration, old(v.Vals()), sqrt).outcome
    ensures v.Vals() == Run(DistanceAcceleration, old(v.Vals()), sqrt).state && v.Present() == old(v.Present())
  {
    if v.Get(Time) == 0.0 {
      return Fail(DomainError);
    }
    v.Assign(Acceleration, (v.Get(FinalVelocity) - v.Get(InitialVelocity)) / v.Get(Time));
    v.CalculateDistance();
    r := Done;
  }

  /** The (time, initial_velocity) lambda. */
  method RunTimeInitialVelocity(v: Values, sqrt: real -> real) returns (r: Outcome)
    requires v.Valid()
    modifies v.variables
    ensures r == Run(TimeInitialVelocity, old(v.Vals()), sqrt).outcome
    ensures v.Vals() == Run(TimeInitialVelocity, old(v.Vals()), sqrt).state && v.Present() == old(v.Present())
  {
    var temp := FinalVelocity2(v.Vals()) - 2.0 * Ad(v.Vals());
    if temp < 0.0 {
      return Fail(DomainError);
    }
    v.Assign(InitialVelocity, sqrt(temp));
    r := v.CalculateTime();
  }

  /** The (time, final_velocity) lambda. */
  method RunTimeFinalVelocity(v: Values, sqrt: real -> real) returns (r: Outcome)
    requires v.Valid()
    modifies v.variables
    ensures r == Run(TimeFinalVelocity, old(v.Vals()), sqrt).outcome
    ensures v.Vals() == Run(TimeFinalVelocity, old(v.Vals()), sqrt).state && v.Present() == old(v.Present())
  {
    var temp := InitialVelocity2(v.Vals()) + 2.0 * Ad(v.Vals());
    if temp < 0.0 {
      return Fail(DomainError);
    }
    v.Assign(FinalVelocity, sqrt(temp));
    r := v.CalculateTime();
  }

  /** The (time, acceleration) lambda. */
  method RunTimeAcceleration(v: Values, sqrt: real -> real) returns (r: Outcome)
    requires v.Valid()
    modifies v.variables
    ensures r == Run(TimeAcceleration, old(v.Vals()), sqrt).outcome
    ensures v.Vals() == Run(TimeAcceleration, old(v.Vals()), sqrt).state && v.Present() == old(v.Present())
  {
    if v.Get(Distance) == 0.0 {
      return Fail(DomainError);
    }
    v.Assign(Acceleration, (FinalVelocity2(v.Vals()) - InitialVelocity2(v.Vals())) / (2.0 * v.Get(Distance)));
    r := v.CalculateTime();
  }

  /** The (initial_velocity, final_velocity) lambda. */
  method RunInitialVelocityFinalVelocity(v: Values, sqrt: real -> real) returns (r: Outcome)
    requires v.Valid()
    modifies v.variables
    ensures r == Run(InitialVelocityFinalVelocity, old(v.Vals()), sqrt).outcome
    ensures v.Vals() == Run(InitialVelocityFinalVelocity, old(v.Vals()), sqrt).state && v.Present() == old(v.Present())
  {
    if v.Get(Time) == 0.0 {
      return Fail(DomainError);
    }
    ghost var v0 := v.Vals();
    v.Assign(InitialVelocity, (v.Get(Distance) / v.Get(Time)) - 0.5 * v.Get(Acceleration) * v.Get(Time));
    v.Assign(FinalVelocity, v.Get(InitialVelocity) + v.Get(Acceleration) * v.Get(Time));
    assert v.Vals()[2] == Run(InitialVelocityFinalVelocity, v0, sqrt).state[2];
    assert v.Vals()[3] == Run(InitialVelocityFinalVelocity, v0, sqrt).state[3];
    r := Done;
  }

  /** The (initial_velocity, acceleration) lambda. */
  method RunInitialVelocityAcceleration(v: Values, sqrt: real -> real) returns (r: Outcome)
    requires v.Valid()
    modifies v.variables
    ensures r == Run(InitialVelocityAcceleration, old(v.Vals()), sqrt).outcome
    ensures v.Vals() == Run(InitialVelocityAcceleration, old(v.Vals()), sqrt).state && v.Present() == old(v.Present())
  {
    if v.Get(Time) == 0.0 {
      return Fail(DomainError);
    }
    v.Assign(InitialVelocity, (2.0 * v.Get(Distance)) / v.Get(Time) - v.Get(FinalVelocity));
    if v.Get(InitialVelocity) < 0.0 {
      return Fail(DomainError);
    }
    v.Assign(Acceleration, (v.Get(FinalVelocity) - v.Get(InitialVelocity)) / v.Get(Time));
    r := Done;
  }

  /** The (final_velocity, acceleration) lambda. */
  method RunFinalVelocityAcceleration(v: Values, sqrt: real -> real) returns (r: Outcome)
    requires v.Valid()
    modifies v.variables
    ensures r == Run(FinalVelocityAcceleration, old(v.Vals()), sqrt).outcome
    ensures v.Vals() == Run(FinalVelocityAcceleration, old(v.Vals()), sqrt).state && v.Present() == old(v.Present())
  {
    if v.Get(Time) == 0.0 {
      return Fail(DomainError);
    }
    v.Assign(FinalVelocity, (2.0 * v.Get(Distance)) / v.Get(Time) - v.Get(InitialVelocity));
    if v.Get(FinalVelocity) < 0.0 {
      return Fail(DomainError);
    }
    v.Assign(Acceleration, (v.Get(FinalVelocity) - v.Get(InitialVelocity)) / v.Get(Time));
    r := Done;
  }

  /** Runs one lambda of `init_formulas` on the values, writing through the accessors. */
  method RunFormula(f: Formula, v: Values, sqrt: real -> real) returns (r: Outcome)
    requires v.Valid()
    modifies v.variables
    ensures r == Run(f, old(v.Vals()), sqrt).outcome
    ensures v.Vals() == Run(f, old(v.Vals()), sqrt).state && v.Present() == old(v.Present())
  {
    match f {
      case DistanceTime => r := RunDistanceTime(v, sqrt);
      case DistanceInitialVelocity => r := RunDistanceInitialVelocity(v, sqrt);
      case DistanceFinalVelocity => r := RunDistanceFinalVelocity(v, sqrt);
      case DistanceAcceleration => r := RunDistanceAcceleration(v, sqrt);
      case TimeInitialVelocity => r := RunTimeInitialVelocity(v, sqrt);
      case TimeFinalVelocity => r := RunTimeFinalVelocity(v, sqrt);
      case TimeAcceleration => r := RunTimeAcceleration(v, sqrt);
      case InitialVelocityFinalVelocity => r := RunInitialVelocityFinalVelocity(v, sqrt);
      case InitialVelocityAcceleration => r := RunInitialVelocityAcceleration(v, sqrt);
      case FinalVelocityAcceleration => r := RunFinalVelocityAcceleration(v, sqrt);
    }
  }

  class FormulaV4a {
    const values: Values
    const formulas: map<(ValueId, ValueId), Formula>

    /** The value array has five entries and the map is the one `init_formulas` builds. */
    ghost predicate Valid()
      reads this, values
    {
      values.Valid() && formulas == InitFormulas()
    }

    function State(): (s: Store)
      reads this, values, values.variables
      requires Valid()
      ensures s.Valid()
    {
      values.State()
    }

    /** A fresh object: every quantity 0.0 and blank. */
    constructor ()
      ensures Valid() && fresh(values) && fresh(values.variables)
      ensures State() == Store([0.0, 0.0, 0.0, 0.0, 0.0], [false, false, false, false, false])
    {
      values := new Values();
      formulas := InitFormulas();
    }

    /** Marks every quantity blank and sets every number to 0.0. */
    method Reset()
      requires Valid()
      modifies values.variables
      ensures State() == Store([0.0, 0.0, 0.0, 0.0, 0.0], [false, false, false, false, false])
    {
      var vars := values.variables;
      for i := 0 to vars.Length
        invariant forall j :: 0 <= j < i ==> vars[j] == Value(0.0, true)
      {
        vars[i] := Value(0.0, true);
      }
    }

    method Set(id: ValueId, value: real)
      requires Valid()
      modifies values.variables
      ensures State() == old(State()).Put(Index(id), value)
    {
      values.Set(id, value);
    }

    /** The stored number, blank or not. */
    function Get(id: ValueId): (r: real)
      reads this, values, values.variables
      requires Valid()
      ensures r == State().vals[Index(id)]
    {
      values.Get(id)
    }

    /** Lists the blank quantities, checks there are two, runs their formula, then marks all five set. */
    method Calculate(sqrt: real -> real) returns (r: Outcome)
      requires Valid()
      modifies values.variables
      ensures r == Solve(old(State()), sqrt).outcome
      ensures State() == Solve(old(State()), sqrt).state
    {
      var unknowns: seq<ValueId> := [];
      for id := 0 to Variables
        invariant unknowns == BlankBelow(State().present, id)
      {
        if values.IsBlank(IdOf(id)) {
          unknowns := unknowns + [IdOf(id)];
        }
      }
      if |unknowns| > 2 {
        return Fail(TooManyBlank);
      }
      if |unknowns| < 2 {
        return Fail(TooFewBlank);
      }
      var pair := (unknowns[0], unknowns[1]);
      if pair !in formulas {
        return Fail(UnrecognizedCombination);
      }
      r := RunFormula(formulas[pair], values, sqrt);
      if r.Fail? {
        return;
      }
      var vars := values.variables;
      ghost var written := vars[..];
      for i := 0 to vars.Length
        invariant forall j :: 0 <= j < i ==> !vars[j].isBlank
        invariant forall j :: 0 <= j < vars.Length ==> vars[j].v == written[j].v
      {
        vars[i] := vars[i].(isBlank := false);
      }
    }
  }

  /**
   * (initial_velocity, acceleration) writes the initial velocity before its
   * sign check: when 2d/t - vf is negative, `calculate` throws with that
   * number left in place and both flags still blank.
   */
  lemma InitialVelocityWrittenBeforeSignCheck(s: Store, sqrt: real -> real)
    requires s.Valid() && s.present == [true, true, false, true, false]
    requires s.vals[1] != 0.0 && (2.0 * s.vals[0]) / s.vals[1] - s.vals[3] < 0.0
    ensures Solve(s, sqrt).outcome == Fail(DomainError)
    ensures Solve(s, sqrt).state == Store(s.vals[2 := (2.0 * s.vals[0]) / s.vals[1] - s.vals[3]], s.present)
  {
    BlankBelowFive(s.present);
    assert BlankBelow(s.present, Variables) == [InitialVelocity, Acceleration];
    FormulaForPair(InitialVelocity, Acceleration);
    NegativeInitialVelocityKept(s.vals, sqrt);
  }

  /** The (initial_velocity, acceleration) formula alone: a negative 2d/t - vf is written, then it throws. */
  lemma NegativeInitialVelocityKept(v: Reals, sqrt: real -> real)
    requires Read(v, Time) != 0.0 && (2.0 * Read(v, Distance)) / Read(v, Time) - Read(v, FinalVelocity) < 0.0
    ensures Run(InitialVelocityAcceleration, v, sqrt)
            == Step(Fail(DomainError), Write(v, InitialVelocity, (2.0 * Read(v, Distance)) / Read(v, Time) - Read(v, FinalVelocity)))
  {
  }

  /**
   * (time, initial_velocity) writes the initial velocity before
   * `calculate_time` runs: with acceleration and final velocity both zero it
   * throws with sqrt(0) left in the initial velocity and both flags still blank.
   */
  lemma InitialVelocityWrittenBeforeTimeCheck(s: Store, sqrt: real -> real)
    requires s.Valid() && s.present == [true, false, false, true, true]
    requires s.vals[3] == 0.0 && s.vals[4] == 0.0
    ensures Solve(s, sqrt).outcome == Fail(DomainError)
    ensures Solve(s, sqrt).state == Store(s.vals[2 := sqrt(0.0)], s.present)
  {
    BlankBelowFive(s.present);
    assert BlankBelow(s.present, Variables) == [Time, InitialVelocity];
    FormulaForPair(Time, InitialVelocity);
    var v: Reals := s.vals;
    assert FinalVelocity2(v) - 2.0 * Ad(v) == 0.0;
  }

  /**
   * With only distance and initial velocity blank, `calculate` always
   * succeeds: all five quantities are then set, the three known ones kept
   * their numbers, and both kinematic relations hold.
   */
  lemma DistanceInitialVelocityAlwaysSucceeds(s: Store, sqrt: real -> real)
    requires s.Valid() && s.present == [false, true, false, true, true]
    ensures Solve(s, sqrt).outcome == Done
    ensures Solve(s, sqrt).state.present == [true, true, true, true, true]
    ensures forall i: Slot :: s.present[i] ==> Solve(s, sqrt).state.vals[i] == s.vals[i]
    ensures VelocityRelation(Solve(s, sqrt).state.vals) && DistanceRelation(Solve(s, sqrt).state.vals)
  {
    BlankBelowFive(s.present);
    assert BlankBelow(s.present, Variables) == [Distance, InitialVelocity];
    FormulaForPair(Distance, InitialVelocity);
    SolveWritesOnlyBlanks(s, sqrt);
    KinematicsDistanceInitialVelocity(s.vals, sqrt);
  }

  /**
   * The demonstration: acceleration 1.3, final velocity 8.7 and time 38.351
   * set, distance and initial velocity blank; `calculate` succeeds and the
   * five numbers obey both kinematic relations.
   */
  method Demo(sqrt: real -> real) returns (r: Outcome, vals: Reals)
    ensures r == Done
    ensures Read(vals, Acceleration) == 1.3 && Read(vals, FinalVelocity) == 8.7 && Read(vals, Time) == 38.351
    ensures VelocityRelation(vals) && DistanceRelation(vals)
  {
    var f := new FormulaV4a();
    f.Set(Acceleration, 1.3);
    f.Set(FinalVelocity, 8.7);
    f.Set(Time, 38.351);
    ghost var before := f.State();
    assert before.present == [false, true, false, true, true];
    DistanceInitialVelocityAlwaysSucceeds(before, sqrt);
    r := f.Calculate(sqrt);
    vals := f.values.Vals();
  }
}
