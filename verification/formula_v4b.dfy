/**
 * FormulaV4b: the kinematics solver over a fixed array of five values and a
 * five-bit presence bitset. `get` throws on a blank variable, `set` stores a
 * value and marks it present, and `calculate` looks the unknowns key up in a
 * map built once by the constructor, from the ten two-blank keys to the
 * member routines `compute_distance_time` .. `compute_final_velocity_acceleration`.
 *
 * The routines are modelled as they are written, including the ones that can
 * never succeed on the blank pattern they are registered for. The header
 * throws `FormulaV4aException` in four places; that exception, the square
 * root and the kinematic relations are shared with FormulaV4a.
 */
module FormulaV4b {
  import opened Common
  import FormulaV4a

  /** The equation variables, in the order of their bit positions. */
  datatype Tag = Distance | Time | InitialVelocity | FinalVelocity | Acceleration

  /** `tag::count`, the number of variables. */
  const Count: nat := 5

  /** The position of a tag: its index in the value array and its bit in the bitset. */
  function AsUnderlying(t: Tag): Slot
  {
    match t
    case Distance => 0
    case Time => 1
    case InitialVelocity => 2
    case FinalVelocity => 3
    case Acceleration => 4
  }

  /** `as_bit`: the unsigned 32-bit mask of a tag. */
  function AsBit(t: Tag): bv32
  {
    1 << AsUnderlying(t)
  }

  /** The ten member routines the map can name, by the pair they solve for. */
  datatype Routine =
    | DistanceTime | DistanceInitialVelocity | DistanceFinalVelocity | DistanceAcceleration
    | TimeInitialVelocity | TimeFinalVelocity | TimeAcceleration
    | InitialVelocityFinalVelocity | InitialVelocityAcceleration | FinalVelocityAcceleration

  /** The two variables a routine is registered for, in tag order. */
  function Targets(routine: Routine): (Tag, Tag)
  {
    match routine
    case DistanceTime => (Distance, Time)
    case DistanceInitialVelocity => (Distance, InitialVelocity)
    case DistanceFinalVelocity => (Distance, FinalVelocity)
    case DistanceAcceleration => (Distance, Acceleration)
    case TimeInitialVelocity => (Time, InitialVelocity)
    case TimeFinalVelocity => (Time, FinalVelocity)
    case TimeAcceleration => (Time, Acceleration)
    case InitialVelocityFinalVelocity => (InitialVelocity, FinalVelocity)
    case InitialVelocityAcceleration => (InitialVelocity, Acceleration)
    case FinalVelocityAcceleration => (FinalVelocity, Acceleration)
  }

  /**
   * The dispatch map the constructor builds, keyed `as_bit(x) | as_bit(y)`.
   * A key is an `unsigned`; the map holds its numeric value.
   */
  function CreateFunctionMap(): map<nat, Routine>
  {
    map[(AsBit(Distance) | AsBit(Time)) as nat := DistanceTime,
        (AsBit(Distance) | AsBit(InitialVelocity)) as nat := DistanceInitialVelocity,
        (AsBit(Distance) | AsBit(FinalVelocity)) as nat := DistanceFinalVelocity,
        (AsBit(Distance) | AsBit(Acceleration)) as nat := DistanceAcceleration,
        (AsBit(Time) | AsBit(InitialVelocity)) as nat := TimeInitialVelocity,
        (AsBit(Time) | AsBit(FinalVelocity)) as nat := TimeFinalVelocity,
        (AsBit(Time) | AsBit(Acceleration)) as nat := TimeAcceleration,
        (AsBit(InitialVelocity) | AsBit(FinalVelocity)) as nat := InitialVelocityFinalVelocity,
        (AsBit(InitialVelocity) | AsBit(Acceleration)) as nat := InitialVelocityAcceleration,
        (AsBit(FinalVelocity) | AsBit(Acceleration)) as nat := FinalVelocityAcceleration]
  }

  /** The map's keys, evaluated. */
  lemma FunctionMapLiteral()
    ensures CreateFunctionMap() == map[3 := DistanceTime, 5 := DistanceInitialVelocity, 9 := DistanceFinalVelocity,
                                       17 := DistanceAcceleration, 6 := TimeInitialVelocity, 10 := TimeFinalVelocity,
                                       18 := TimeAcceleration, 12 := InitialVelocityFinalVelocity,
                                       20 := InitialVelocityAcceleration, 24 := FinalVelocityAcceleration]
  {
    assert AsBit(Distance) == 1 && AsBit(Time) == 2 && AsBit(InitialVelocity) == 4;
    assert AsBit(FinalVelocity) == 8 && AsBit(Acceleration) == 16;
  }

  /**
   * The map has exactly the ten two-blank keys, one per pair of tags x < y,
   * each keyed by the two tags' bits.
   */
  lemma FunctionMapKeys()
    ensures CreateFunctionMap().Keys == TwoBlankKeys
    ensures forall k :: k in CreateFunctionMap() ==>
              var t := Targets(CreateFunctionMap()[k]);
              AsUnderlying(t.0) < AsUnderlying(t.1) && k == (AsBit(t.0) | AsBit(t.1)) as nat
  {
    FunctionMapLiteral();
    assert AsBit(Distance) == 1 && AsBit(Time) == 2 && AsBit(InitialVelocity) == 4;
    assert AsBit(FinalVelocity) == 8 && AsBit(Acceleration) == 16;
  }

  /** The key of five flags is in the map exactly when two flags are clear. */
  lemma KeyForInMap(present: seq<bool>)
    requires |present| == Count
    ensures KeyFor(PresenceBits(present)) as nat in CreateFunctionMap() <==> BlankCount(present) == 2
  {
    FunctionMapLiteral();
    BlankCountFive(present);
  }

  /** The routine the map holds for a key is registered for exactly the blank variables of that key. */
  lemma BlankTargets(present: seq<bool>)
    requires |present| == Count && KeyOf(present) in CreateFunctionMap()
    ensures var t := Targets(CreateFunctionMap()[KeyOf(present)]);
            forall i: Slot :: !present[i] <==> i == AsUnderlying(t.0) || i == AsUnderlying(t.1)
  {
    FunctionMapLiteral();
    KeyOfFive(present);
  }

  // The store seen through tags.

  predicate Known(s: Store, t: Tag)
    requires s.Valid()
  {
    s.present[AsUnderlying(t)]
  }

  function Val(s: Store, t: Tag): real
    requires s.Valid()
  {
    s.vals[AsUnderlying(t)]
  }

  /** `set`: stores `x` under `t` and marks it present. */
  function With(s: Store, t: Tag, x: real): (r: Store)
    requires s.Valid()
    ensures r.Valid()
  {
    s.Put(AsUnderlying(t), x)
  }

  /** `set(t, e)` where evaluating `e` may throw: the exception, or the write. */
  function SetFrom(s: Store, t: Tag, e: Result<real>): (r: Step<Store>)
    requires s.Valid()
    ensures r.state.Valid()
  {
    match e
    case Err(error) => Step(Fail(error), s)
    case Ok(x) => Step(Done, With(s, t, x))
  }

  /**
   * `get_distance_using_time_initvel_acc`: vi t + (a / 2) t^2, or the
   * exception of the first blank input.
   */
  function DistanceUsingTimeInitvelAcc(s: Store): (r: Result<real>)
    requires s.Valid()
    ensures r.Ok? <==> Known(s, InitialVelocity) && Known(s, Time) && Known(s, Acceleration)
    ensures r.Err? ==> r.error == MissingValue
  {
    if !Known(s, InitialVelocity) || !Known(s, Time) || !Known(s, Acceleration) then Err(MissingValue)
    else
      var vi, t, a := Val(s, InitialVelocity), Val(s, Time), Val(s, Acceleration);
      Ok(vi * t + (0.5 * a) * (t * t))
  }

  /** The distance the helper computes, once stored, makes the distance relation of constant acceleration true. */
  lemma DistanceUsingTimeInitvelAccRelation(s: Store)
    requires s.Valid() && DistanceUsingTimeInitvelAcc(s).Ok?
    ensures FormulaV4a.DistanceRelation(With(s, Distance, DistanceUsingTimeInitvelAcc(s).value).vals)
  {
  }

  /**
   * `get_time_using_vel_acc_or_dist`: t = (vf - vi) / a when the acceleration
   * is non-zero, otherwise t = d / vf, and a domain error when acceleration
   * and final velocity are both zero.
   */
  function TimeUsingVelAccOrDist(s: Store): (r: Result<real>)
    requires s.Valid()
    ensures r == Err(DomainError) <==>
              Known(s, Acceleration) && Known(s, FinalVelocity) && Val(s, Acceleration) == 0.0 && Val(s, FinalVelocity) == 0.0
    ensures r.Err? && r.error != DomainError ==> r.error == MissingValue
    ensures r.Ok? && Val(s, Acceleration) != 0.0 ==> Val(s, Acceleration) * r.value == Val(s, FinalVelocity) - Val(s, InitialVelocity)
    ensures r.Ok? && Val(s, Acceleration) == 0.0 ==> Val(s, FinalVelocity) * r.value == Val(s, Distance)
  {
    var d, vi, vf, a := Val(s, Distance), Val(s, InitialVelocity), Val(s, FinalVelocity), Val(s, Acceleration);
    if !Known(s, Acceleration) then Err(MissingValue)
    else if a != 0.0 then
      if !Known(s, FinalVelocity) || !Known(s, InitialVelocity) then Err(MissingValue)
      else FormulaV4a.QuotientTimesDivisor(vf - vi, a); Ok((vf - vi) / a)
    else if !Known(s, FinalVelocity) then Err(MissingValue)
    else if vf != 0.0 then
      if !Known(s, Distance) then Err(MissingValue)
      else FormulaV4a.QuotientTimesDivisor(d, vf); Ok(d / vf)
    else Err(DomainError)
  }

  // What each routine does to a store: its reads (a blank one throws), its
  // guards, and its writes in order. A throw after a write keeps the write.

  function StepDistanceTime(s: Store): (r: Step<Store>)
    requires s.Valid()
    ensures r.state.Valid()
  {
    if !Known(s, Acceleration) then Step(Fail(MissingValue), s)
    else if Val(s, Acceleration) == 0.0 then Step(Fail(DomainError), s)
    else if !Known(s, FinalVelocity) || !Known(s, InitialVelocity) then Step(Fail(MissingValue), s)
    else
      var s1 := With(s, Time, (Val(s, FinalVelocity) - Val(s, InitialVelocity)) / Val(s, Acceleration));
      SetFrom(s1, Distance, DistanceUsingTimeInitvelAcc(s1))
  }

  function StepDistanceInitialVelocity(s: Store): (r: Step<Store>)
    requires s.Valid()
    ensures r.state.Valid()
  {
    if !Known(s, FinalVelocity) || !Known(s, Acceleration) || !Known(s, Time) then Step(Fail(MissingValue), s)
    else
      var s1 := With(s, InitialVelocity, Val(s, FinalVelocity) - Val(s, Acceleration) * Val(s, Time));
      SetFrom(s1, Distance, DistanceUsingTimeInitvelAcc(s1))
  }

  function StepDistanceFinalVelocity(s: Store): (r: Step<Store>)
    requires s.Valid()
    ensures r.state.Valid()
  {
    if !Known(s, InitialVelocity) || !Known(s, Acceleration) || !Known(s, Time) then Step(Fail(MissingValue), s)
    else
      var s1 := With(s, FinalVelocity, Val(s, InitialVelocity) + Val(s, Acceleration) * Val(s, Time));
      SetFrom(s1, Distance, DistanceUsingTimeInitvelAcc(s1))
  }

  /** Writes (vf - vi) / t into `time`, not `acceleration`, then reads the acceleration. */
  function StepDistanceAcceleration(s: Store): (r: Step<Store>)
    requires s.Valid()
    ensures r.state.Valid()
  {
    if !Known(s, Time) then Step(Fail(MissingValue), s)
    else if Val(s, Time) == 0.0 then Step(Fail(DomainError), s)
    else if !Known(s, FinalVelocity) || !Known(s, InitialVelocity) then Step(Fail(MissingValue), s)
    else
      var s1 := With(s, Time, (Val(s, FinalVelocity) - Val(s, InitialVelocity)) / Val(s, Time));
      SetFrom(s1, Distance, DistanceUsingTimeInitvelAcc(s1))
  }

  /** The radicand of `compute_time_initial_velocity`: vf - 2 a d, the final velocity unsquared as written. */
  function InitialVelocityRadicand(s: Store): real
    requires s.Valid()
  {
    Val(s, FinalVelocity) - 2.0 * (Val(s, Acceleration) * Val(s, Distance))
  }

  /** The radicand of `compute_time_final_velocity`: vf + 2 a d. */
  function FinalVelocityRadicand(s: Store): real
    requires s.Valid()
  {
    Val(s, FinalVelocity) + 2.0 * (Val(s, Acceleration) * Val(s, Distance))
  }

  /** vi = sqrt(vf - 2 a d), then the time helper. */
  function StepTimeInitialVelocity(s: Store, sqrt: real -> real): (r: Step<Store>)
    requires s.Valid()
    ensures r.state.Valid()
  {
    if !Known(s, FinalVelocity) || !Known(s, Acceleration) || !Known(s, Distance) then Step(Fail(MissingValue), s)
    else if InitialVelocityRadicand(s) < 0.0 then Step(Fail(DomainError), s)
    else
      var s1 := With(s, InitialVelocity, sqrt(InitialVelocityRadicand(s)));
      SetFrom(s1, Time, TimeUsingVelAccOrDist(s1))
  }

  /**
   * Reads the final velocity first, which is one of its own two blanks; past
   * that read it would store vi = sqrt(vf + 2 a d) and run the time helper.
   */
  function StepTimeFinalVelocity(s: Store, sqrt: real -> real): (r: Step<Store>)
    requires s.Valid()
    ensures r.state.Valid()
  {
    if !Known(s, FinalVelocity) || !Known(s, Acceleration) || !Known(s, Distance) then Step(Fail(MissingValue), s)
    else if FinalVelocityRadicand(s) < 0.0 then Step(Fail(DomainError), s)
    else
      var s1 := With(s, InitialVelocity, sqrt(FinalVelocityRadicand(s)));
      SetFrom(s1, Time, TimeUsingVelAccOrDist(s1))
  }

  /**
   * a = (vf^2 - vi^2) / (2 d), then the time helper. The division is not
   * guarded: with zero distance the C++ code stores an infinity or NaN, and
   * the model stops with `NonFinite` instead.
   */
  function StepTimeAcceleration(s: Store): (r: Step<Store>)
    requires s.Valid()
    ensures r.state.Valid()
  {
    if !Known(s, FinalVelocity) || !Known(s, InitialVelocity) || !Known(s, Distance) then Step(Fail(MissingValue), s)
    else if Val(s, Distance) == 0.0 then Step(Fail(NonFinite), s)
    else
      var vi, vf := Val(s, InitialVelocity), Val(s, FinalVelocity);
      var s1 := With(s, Acceleration, (vf * vf - vi * vi) / (2.0 * Val(s, Distance)));
      SetFrom(s1, Time, TimeUsingVelAccOrDist(s1))
  }

  function StepInitialVelocityFinalVelocity(s: Store): (r: Step<Store>)
    requires s.Valid()
    ensures r.state.Valid()
  {
    if !Known(s, Time) then Step(Fail(MissingValue), s)
    else if Val(s, Time) == 0.0 then Step(Fail(DomainError), s)
    else if !Known(s, Distance) || !Known(s, Acceleration) then Step(Fail(MissingValue), s)
    else
      var d, t, a := Val(s, Distance), Val(s, Time), Val(s, Acceleration);
      var s1 := With(s, InitialVelocity, d / t - 0.5 * a * t);
      Step(Done, With(s1, FinalVelocity, Val(s1, InitialVelocity) + a * t))
  }

  /** Writes the initial velocity, then throws if it is zero, keeping the write. */
  function StepInitialVelocityAcceleration(s: Store): (r: Step<Store>)
    requires s.Valid()
    ensures r.state.Valid()
  {
    if !Known(s, Time) then Step(Fail(MissingValue), s)
    else if Val(s, Time) == 0.0 then Step(Fail(DomainError), s)
    else if !Known(s, Distance) || !Known(s, FinalVelocity) then Step(Fail(MissingValue), s)
    else
      var t, vf := Val(s, Time), Val(s, FinalVelocity);
      var s1 := With(s, InitialVelocity, (2.0 * Val(s, Distance)) / t - vf);
      if Val(s1, InitialVelocity) == 0.0 then Step(Fail(DomainError), s1)
      else Step(Done, With(s1, Acceleration, (vf - Val(s1, InitialVelocity)) / t))
  }

  /** Writes the final velocity, then throws if it is zero, keeping the write. */
  function StepFinalVelocityAcceleration(s: Store): (r: Step<Store>)
    requires s.Valid()
    ensures r.state.Valid()
  {
    if !Known(s, Time) then Step(Fail(MissingValue), s)
    else if Val(s, Time) == 0.0 then Step(Fail(DomainError), s)
    else if !Known(s, Distance) || !Known(s, InitialVelocity) then Step(Fail(MissingValue), s)
    else
      var t, vi := Val(s, Time), Val(s, InitialVelocity);
      var s1 := With(s, FinalVelocity, (2.0 * Val(s, Distance)) / t - vi);
      if Val(s1, FinalVelocity) == 0.0 then Step(Fail(DomainError), s1)
      else Step(Done, With(s1, Acceleration, (Val(s1, FinalVelocity) - vi) / t))
  }

  /** What a routine does to the store. */
  function Compute(routine: Routine, s: Store, sqrt: real -> real): (r: Step<Store>)
    requires s.Valid()
    ensures r.state.Valid()
    ensures r.outcome == Done ==> Known(r.state, Targets(routine).0) && Known(r.state, Targets(routine).1)
  {
    match routine
    case DistanceTime => StepDistanceTime(s)
    case DistanceInitialVelocity => StepDistanceInitialVelocity(s)
    case DistanceFinalVelocity => StepDistanceFinalVelocity(s)
    case DistanceAcceleration => StepDistanceAcceleration(s)
    case TimeInitialVelocity => StepTimeInitialVelocity(s, sqrt)
    case TimeFinalVelocity => StepTimeFinalVelocity(s, sqrt)
    case TimeAcceleration => StepTimeAcceleration(s)
    case InitialVelocityFinalVelocity => StepInitialVelocityFinalVelocity(s)
    case InitialVelocityAcceleration => StepInitialVelocityAcceleration(s)
    case FinalVelocityAcceleration => StepFinalVelocityAcceleration(s)
  }

  /** What `calculate` does: look the key up; throw if it is absent, otherwise run the routine. */
  function Solve(s: Store, sqrt: real -> real): (r: Step<Store>)
    requires s.Valid()
    ensures r.state.Valid()
  {
    var key := KeyFor(PresenceBits(s.present)) as nat;
    if key !in CreateFunctionMap() then Step(Fail(UnrecognizedCombination), s)
    else Compute(CreateFunctionMap()[key], s, sqrt)
  }

  /**
   * `calculate` throws `UnrecognizedCombination`, changing nothing, exactly
   * when the number of blank variables is not two.
   */
  lemma SolveRejectsUnlessTwoBlank(s: Store, sqrt: real -> real)
    requires s.Valid()
    ensures Solve(s, sqrt).outcome == Fail(UnrecognizedCombination) <==> BlankCount(s.present) != 2
    ensures BlankCount(s.present) != 2 ==> Solve(s, sqrt).state == s
  {
    KeyForInMap(s.present);
    KeyForIsKeyOf(s.present);
    if BlankCount(s.present) == 2 {
      var routine := CreateFunctionMap()[KeyOf(s.present)];
      ComputeNeverUnrecognized(routine, s, sqrt);
    }
  }

  /** No routine throws `UnrecognizedCombination`. */
  lemma ComputeNeverUnrecognized(routine: Routine, s: Store, sqrt: real -> real)
    requires s.Valid()
    ensures Compute(routine, s, sqrt).outcome != Fail(UnrecognizedCombination)
  {
  }

  /** A store whose blank variables are exactly the two a routine is registered for. */
  predicate BlanksAre(s: Store, routine: Routine)
    requires s.Valid()
  {
    var t := Targets(routine);
    forall i: Slot :: !s.present[i] <==> i == AsUnderlying(t.0) || i == AsUnderlying(t.1)
  }

  /** With two blanks, `calculate` runs the routine registered for exactly those two. */
  lemma SolveRunsRegisteredRoutine(s: Store, sqrt: real -> real)
    requires s.Valid() && BlankCount(s.present) == 2
    ensures var key := KeyFor(PresenceBits(s.present)) as nat;
            key in CreateFunctionMap() && BlanksAre(s, CreateFunctionMap()[key])
            && Solve(s, sqrt) == Compute(CreateFunctionMap()[key], s, sqrt)
  {
    KeyForInMap(s.present);
    KeyForIsKeyOf(s.present);
    BlankTargets(s.present);
  }

  /** The presence flags of the blank pattern a routine is registered for. */
  function Pattern(routine: Routine): (p: seq<bool>)
    ensures |p| == Count
  {
    match routine
    case DistanceTime => [false, false, true, true, true]
    case DistanceInitialVelocity => [false, true, false, true, true]
    case DistanceFinalVelocity => [false, true, true, false, true]
    case DistanceAcceleration => [false, true, true, true, false]
    case TimeInitialVelocity => [true, false, false, true, true]
    case TimeFinalVelocity => [true, false, true, false, true]
    case TimeAcceleration => [true, false, true, true, false]
    case InitialVelocityFinalVelocity => [true, true, false, false, true]
    case InitialVelocityAcceleration => [true, true, false, true, false]
    case FinalVelocityAcceleration => [true, true, true, false, false]
  }

  /** A store whose blanks are a routine's two targets has exactly that routine's flags. */
  lemma BlanksArePattern(s: Store, routine: Routine)
    requires s.Valid() && BlanksAre(s, routine)
    ensures s.present == Pattern(routine)
  {
    var t := Targets(routine);
    assert !s.present[0] <==> 0 == AsUnderlying(t.0) || 0 == AsUnderlying(t.1);
    assert !s.present[1] <==> 1 == AsUnderlying(t.0) || 1 == AsUnderlying(t.1);
    assert !s.present[2] <==> 2 == AsUnderlying(t.0) || 2 == AsUnderlying(t.1);
    assert !s.present[3] <==> 3 == AsUnderlying(t.0) || 3 == AsUnderlying(t.1);
    assert !s.present[4] <==> 4 == AsUnderlying(t.0) || 4 == AsUnderlying(t.1);
    match routine {
      case DistanceTime =>
      case DistanceInitialVelocity =>
      case DistanceFinalVelocity =>
      case DistanceAcceleration =>
      case TimeInitialVelocity =>
      case TimeFinalVelocity =>
      case TimeAcceleration =>
      case InitialVelocityFinalVelocity =>
      case InitialVelocityAcceleration =>
      case FinalVelocityAcceleration =>
    }
  }

  /** A routine's blank pattern has two blanks, and its key names that routine in the map. */
  lemma PatternKey(routine: Routine)
    ensures BlankCount(Pattern(routine)) == 2
    ensures KeyOf(Pattern(routine)) in CreateFunctionMap() && CreateFunctionMap()[KeyOf(Pattern(routine))] == routine
  {
    FunctionMapLiteral();
    KeyOfFive(Pattern(routine));
    BlankCountFive(Pattern(routine));
    match routine {
      case DistanceTime =>
      case DistanceInitialVelocity =>
      case DistanceFinalVelocity =>
      case DistanceAcceleration =>
      case TimeInitialVelocity =>
      case TimeFinalVelocity =>
      case TimeAcceleration =>
      case InitialVelocityFinalVelocity =>
      case InitialVelocityAcceleration =>
      case FinalVelocityAcceleration =>
    }
  }

  /** On a routine's own blank pattern, `calculate` runs that routine. */
  lemma SolveOnPattern(s: Store, routine: Routine, sqrt: real -> real)
    requires s.Valid() && s.present == Pattern(routine)
    ensures BlankCount(s.present) == 2
    ensures Solve(s, sqrt) == Compute(routine, s, sqrt)
  {
    KeyForIsKeyOf(s.present);
    PatternKey(routine);
  }

  /** `calculate` runs exactly the routine registered for the two blank variables. */
  lemma SolveDispatches(s: Store, routine: Routine, sqrt: real -> real)
    requires s.Valid() && BlanksAre(s, routine)
    ensures BlankCount(s.present) == 2
    ensures Solve(s, sqrt) == Compute(routine, s, sqrt)
  {
    BlanksArePattern(s, routine);
    SolveOnPattern(s, routine, sqrt);
  }

  /**
   * When a routine succeeds on the blank pattern it is registered for: its
   * own zero and sign guards, and the time helper's test on the value written
   * just before it. Two routines never succeed.
   */
  ghost predicate Admissible(routine: Routine, s: Store, sqrt: real -> real)
    requires s.Valid()
  {
    var d, t, vi, vf, a := Val(s, Distance), Val(s, Time), Val(s, InitialVelocity), Val(s, FinalVelocity),
                          Val(s, Acceleration);
    match routine
    case DistanceTime => a != 0.0
    case DistanceInitialVelocity => true
    case DistanceFinalVelocity => true
    case DistanceAcceleration => false
    case TimeInitialVelocity => InitialVelocityRadicand(s) >= 0.0 && (a != 0.0 || vf != 0.0)
    case TimeFinalVelocity => false
    case TimeAcceleration => d != 0.0 && ((vf * vf - vi * vi) / (2.0 * d) != 0.0 || vf != 0.0)
    case InitialVelocityFinalVelocity => t != 0.0
    case InitialVelocityAcceleration => t != 0.0 && (2.0 * d) / t - vf != 0.0
    case FinalVelocityAcceleration => t != 0.0 && (2.0 * d) / t - vi != 0.0
  }

  /**
   * How a routine ends on its own blank pattern: it succeeds exactly when it
   * is admissible, and then every variable is present and the three known
   * ones kept their values. It throws `MissingValue` only in the two routines
   * that read a blank variable, and `NonFinite` only for a zero distance in
   * `compute_time_acceleration`; every other throw is a domain error.
   */
  ghost predicate EndsOnItsBlanks(routine: Routine, s: Store, sqrt: real -> real)
    requires s.Valid()
  {
    var r := Compute(routine, s, sqrt);
    && (r.outcome == Done <==> Admissible(routine, s, sqrt))
    && (r.outcome == Done ==> Completes(s, r.state))
    && (r.outcome == Fail(MissingValue) <==>
          (routine == DistanceAcceleration && Val(s, Time) != 0.0) || routine == TimeFinalVelocity)
    && (r.outcome == Fail(NonFinite) <==> routine == TimeAcceleration && Val(s, Distance) == 0.0)
    && (r.outcome.Fail? ==> r.outcome.error in {MissingValue, NonFinite, DomainError})
  }

  lemma DistanceTimeOnItsBlanks(s: Store, sqrt: real -> real)
    requires s.Valid() && s.present == Pattern(DistanceTime)
    ensures EndsOnItsBlanks(DistanceTime, s, sqrt)
  {
  }

  lemma DistanceInitialVelocityOnItsBlanks(s: Store, sqrt: real -> real)
    requires s.Valid() && s.present == Pattern(DistanceInitialVelocity)
    ensures EndsOnItsBlanks(DistanceInitialVelocity, s, sqrt)
  {
  }

  lemma DistanceFinalVelocityOnItsBlanks(s: Store, sqrt: real -> real)
    requires s.Valid() && s.present == Pattern(DistanceFinalVelocity)
    ensures EndsOnItsBlanks(DistanceFinalVelocity, s, sqrt)
  {
  }

  lemma DistanceAccelerationOnItsBlanks(s: Store, sqrt: real -> real)
    requires s.Valid() && s.present == Pattern(DistanceAcceleration)
    ensures EndsOnItsBlanks(DistanceAcceleration, s, sqrt)
  {
  }

  lemma TimeInitialVelocityOnItsBlanks(s: Store, sqrt: real -> real)
    requires s.Valid() && s.present == Pattern(TimeInitialVelocity)
    ensures EndsOnItsBlanks(TimeInitialVelocity, s, sqrt)
  {
  }

  lemma TimeFinalVelocityOnItsBlanks(s: Store, sqrt: real -> real)
    requires s.Valid() && s.present == Pattern(TimeFinalVelocity)
    ensures EndsOnItsBlanks(TimeFinalVelocity, s, sqrt)
  {
  }

  lemma TimeAccelerationOnItsBlanks(s: Store, sqrt: real -> real)
    requires s.Valid() && s.present == Pattern(TimeAcceleration)
    ensures EndsOnItsBlanks(TimeAcceleration, s, sqrt)
  {
  }

  lemma InitialVelocityFinalVelocityOnItsBlanks(s: Store, sqrt: real -> real)
    requires s.Valid() && s.present == Pattern(InitialVelocityFinalVelocity)
    ensures EndsOnItsBlanks(InitialVelocityFinalVelocity, s, sqrt)
  {
  }

  lemma InitialVelocityAccelerationOnItsBlanks(s: Store, sqrt: real -> real)
    requires s.Valid() && s.present == Pattern(InitialVelocityAcceleration)
    ensures EndsOnItsBlanks(InitialVelocityAcceleration, s, sqrt)
  {
  }

  lemma FinalVelocityAccelerationOnItsBlanks(s: Store, sqrt: real -> real)
    requires s.Valid() && s.present == Pattern(FinalVelocityAcceleration)
    ensures EndsOnItsBlanks(FinalVelocityAcceleration, s, sqrt)
  {
  }

  /** Every routine, on the blank pattern it is registered for, ends as `EndsOnItsBlanks` says. */
  lemma ComputeOnItsBlanks(routine: Routine, s: Store, sqrt: real -> real)
    requires s.Valid() && BlanksAre(s, routine)
    ensures EndsOnItsBlanks(routine, s, sqrt)
  {
    BlanksArePattern(s, routine);
    match routine {
      case DistanceTime => DistanceTimeOnItsBlanks(s, sqrt);
      case DistanceInitialVelocity => DistanceInitialVelocityOnItsBlanks(s, sqrt);
      case DistanceFinalVelocity => DistanceFinalVelocityOnItsBlanks(s, sqrt);
      case DistanceAcceleration => DistanceAccelerationOnItsBlanks(s, sqrt);
      case TimeInitialVelocity => TimeInitialVelocityOnItsBlanks(s, sqrt);
      case TimeFinalVelocity => TimeFinalVelocityOnItsBlanks(s, sqrt);
      case TimeAcceleration => TimeAccelerationOnItsBlanks(s, sqrt);
      case InitialVelocityFinalVelocity => InitialVelocityFinalVelocityOnItsBlanks(s, sqrt);
      case InitialVelocityAcceleration => InitialVelocityAccelerationOnItsBlanks(s, sqrt);
      case FinalVelocityAcceleration => FinalVelocityAccelerationOnItsBlanks(s, sqrt);
    }
  }

  /**
   * `compute_distance_acceleration` never succeeds: with zero time it throws
   * a domain error; otherwise it overwrites the time with (vf - vi) / t and
   * then throws reading the blank acceleration.
   */
  lemma DistanceAccelerationNeverSucceeds(s: Store, sqrt: real -> real)
    requires s.Valid() && s.present == [false, true, true, true, false]
    ensures var t, vi, vf := Val(s, Time), Val(s, InitialVelocity), Val(s, FinalVelocity);
            Solve(s, sqrt) == if t == 0.0 then Step(Fail(DomainError), s)
                              else Step(Fail(MissingValue), Store(s.vals[1 := (vf - vi) / t], s.present))
  {
    SolveOnPattern(s, DistanceAcceleration, sqrt);
    assert s.present[1 := true] == s.present;
  }

  /** `compute_time_final_velocity` reads the blank final velocity first: it throws and changes nothing. */
  lemma TimeFinalVelocityNeverSucceeds(s: Store, sqrt: real -> real)
    requires s.Valid() && s.present == [true, false, true, false, true]
    ensures Solve(s, sqrt) == Step(Fail(MissingValue), s)
  {
    SolveOnPattern(s, TimeFinalVelocity, sqrt);
  }

  /**
   * `compute_initial_velocity_acceleration` stores the initial velocity
   * before testing it: when it comes out zero, the throw leaves it present
   * with value zero.
   */
  lemma ZeroInitialVelocityIsKept(s: Store, sqrt: real -> real)
    requires s.Valid() && s.present == [true, true, false, true, false]
    requires Val(s, Time) != 0.0 && (2.0 * Val(s, Distance)) / Val(s, Time) - Val(s, FinalVelocity) == 0.0
    ensures Solve(s, sqrt) == Step(Fail(DomainError), Store(s.vals[2 := 0.0], s.present[2 := true]))
  {
    SolveOnPattern(s, InitialVelocityAcceleration, sqrt);
  }

  /** The same for `compute_final_velocity_acceleration` and the final velocity. */
  lemma ZeroFinalVelocityIsKept(s: Store, sqrt: real -> real)
    requires s.Valid() && s.present == [true, true, true, false, false]
    requires Val(s, Time) != 0.0 && (2.0 * Val(s, Distance)) / Val(s, Time) - Val(s, InitialVelocity) == 0.0
    ensures Solve(s, sqrt) == Step(Fail(DomainError), Store(s.vals[3 := 0.0], s.present[3 := true]))
  {
    SolveOnPattern(s, FinalVelocityAcceleration, sqrt);
  }

  /**
   * `compute_time_initial_velocity` stores the square root before the time
   * helper runs: with zero acceleration and zero final velocity the helper
   * throws and the initial velocity stays present.
   */
  lemma InitialVelocityKeptWhenTimeFails(s: Store, sqrt: real -> real)
    requires s.Valid() && s.present == [true, false, false, true, true]
    requires Val(s, Acceleration) == 0.0 && Val(s, FinalVelocity) == 0.0
    ensures Solve(s, sqrt) == Step(Fail(DomainError), Store(s.vals[2 := sqrt(0.0)], s.present[2 := true]))
  {
    SolveOnPattern(s, TimeInitialVelocity, sqrt);
  }

  lemma KinematicsDistanceTime(s: Store)
    requires s.Valid() && s.present == Pattern(DistanceTime) && StepDistanceTime(s).outcome == Done
    ensures FormulaV4a.VelocityRelation(StepDistanceTime(s).state.vals)
    ensures FormulaV4a.DistanceRelation(StepDistanceTime(s).state.vals)
  {
    DistanceUsingTimeInitvelAccRelation(With(s, Time, (Val(s, FinalVelocity) - Val(s, InitialVelocity)) / Val(s, Acceleration)));
    FormulaV4a.QuotientTimesDivisor(Val(s, FinalVelocity) - Val(s, InitialVelocity), Val(s, Acceleration));
  }

  lemma KinematicsDistanceInitialVelocity(s: Store)
    requires s.Valid() && s.present == Pattern(DistanceInitialVelocity)
    ensures FormulaV4a.VelocityRelation(StepDistanceInitialVelocity(s).state.vals)
    ensures FormulaV4a.DistanceRelation(StepDistanceInitialVelocity(s).state.vals)
  {
    DistanceUsingTimeInitvelAccRelation(With(s, InitialVelocity, Val(s, FinalVelocity) - Val(s, Acceleration) * Val(s, Time)));
  }

  lemma KinematicsDistanceFinalVelocity(s: Store)
    requires s.Valid() && s.present == Pattern(DistanceFinalVelocity)
    ensures FormulaV4a.VelocityRelation(StepDistanceFinalVelocity(s).state.vals)
    ensures FormulaV4a.DistanceRelation(StepDistanceFinalVelocity(s).state.vals)
  {
    DistanceUsingTimeInitvelAccRelation(With(s, FinalVelocity, Val(s, InitialVelocity) + Val(s, Acceleration) * Val(s, Time)));
  }

  lemma KinematicsInitialVelocityFinalVelocity(s: Store)
    requires s.Valid() && s.present == Pattern(InitialVelocityFinalVelocity)
    requires StepInitialVelocityFinalVelocity(s).outcome == Done
    ensures FormulaV4a.VelocityRelation(StepInitialVelocityFinalVelocity(s).state.vals)
    ensures FormulaV4a.DistanceRelation(StepInitialVelocityFinalVelocity(s).state.vals)
  {
    FormulaV4a.QuotientTimesDivisor(Val(s, Distance), Val(s, Time));
  }

  lemma KinematicsInitialVelocityAcceleration(s: Store)
    requires s.Valid() && s.present == Pattern(InitialVelocityAcceleration)
    requires StepInitialVelocityAcceleration(s).outcome == Done
    ensures FormulaV4a.VelocityRelation(StepInitialVelocityAcceleration(s).state.vals)
    ensures FormulaV4a.DistanceRelation(StepInitialVelocityAcceleration(s).state.vals)
  {
    var d, t, vf := Val(s, Distance), Val(s, Time), Val(s, FinalVelocity);
    var vi' := (2.0 * d) / t - vf;
    FormulaV4a.QuotientTimesDivisor(vf - vi', t);
    FormulaV4a.QuotientTimesDivisor(2.0 * d, t);
    assert ((vf - vi') / t) * (t * t) == (vf - vi') * t;
  }

  lemma KinematicsFinalVelocityAcceleration(s: Store)
    requires s.Valid() && s.present == Pattern(FinalVelocityAcceleration)
    requires StepFinalVelocityAcceleration(s).outcome == Done
    ensures FormulaV4a.VelocityRelation(StepFinalVelocityAcceleration(s).state.vals)
    ensures FormulaV4a.DistanceRelation(StepFinalVelocityAcceleration(s).state.vals)
  {
    var d, t, vi := Val(s, Distance), Val(s, Time), Val(s, InitialVelocity);
    var vf' := (2.0 * d) / t - vi;
    FormulaV4a.QuotientTimesDivisor(vf' - vi, t);
    FormulaV4a.QuotientTimesDivisor(2.0 * d, t);
    assert ((vf' - vi) / t) * (t * t) == (vf' - vi) * t;
  }

  /** `compute_time_initial_velocity` ends with the time helper: with non-zero acceleration, vf = vi + a t. */
  lemma KinematicsTimeInitialVelocity(s: Store, sqrt: real -> real)
    requires s.Valid() && s.present == Pattern(TimeInitialVelocity)
    requires StepTimeInitialVelocity(s, sqrt).outcome == Done
    requires Val(StepTimeInitialVelocity(s, sqrt).state, Acceleration) != 0.0
    ensures FormulaV4a.VelocityRelation(StepTimeInitialVelocity(s, sqrt).state.vals)
  {
  }

  /**
   * `compute_time_acceleration` writes a = (vf^2 - vi^2) / (2 d) and ends with
   * the time helper: with non-zero acceleration both relations hold.
   */
  lemma KinematicsTimeAcceleration(s: Store)
    requires s.Valid() && s.present == Pattern(TimeAcceleration)
    requires StepTimeAcceleration(s).outcome == Done
    requires Val(StepTimeAcceleration(s).state, Acceleration) != 0.0
    ensures FormulaV4a.VelocityRelation(StepTimeAcceleration(s).state.vals)
    ensures FormulaV4a.DistanceRelation(StepTimeAcceleration(s).state.vals)
  {
    var vi, vf := Val(s, InitialVelocity), Val(s, FinalVelocity);
    FormulaV4a.QuotientTimesDivisor(vf * vf - vi * vi, 2.0 * Val(s, Distance));
    FormulaV4a.SquaresDistanceRelation(StepTimeAcceleration(s).state.vals);
  }

  /**
   * With only distance and initial velocity blank, `calculate` always
   * succeeds: all five variables are then present, the three known ones kept
   * their values, and both kinematic relations hold.
   */
  lemma DistanceInitialVelocityAlwaysSucceeds(s: Store, sqrt: real -> real)
    requires s.Valid() && s.present == [false, true, false, true, true]
    ensures Solve(s, sqrt).outcome == Done
    ensures Solve(s, sqrt).state.present == [true, true, true, true, true]
    ensures forall i: Slot :: s.present[i] ==> Solve(s, sqrt).state.vals[i] == s.vals[i]
    ensures FormulaV4a.VelocityRelation(Solve(s, sqrt).state.vals)
    ensures FormulaV4a.DistanceRelation(Solve(s, sqrt).state.vals)
  {
    SolveOnPattern(s, DistanceInitialVelocity, sqrt);
    DistanceInitialVelocityOnItsBlanks(s, sqrt);
    KinematicsDistanceInitialVelocity(s);
  }

  /**
   * On success the values obey the kinematics: the routines that do not end
   * with the time helper leave both relations true, and the time routines
   * leave the velocity relation true when the acceleration they end with is
   * non-zero; (time, acceleration) then leaves the distance relation true
   * too. (time, initial_velocity), with its unsquared radicand, does not.
   */
  lemma ComputeSatisfiesKinematics(routine: Routine, s: Store, sqrt: real -> real)
    requires s.Valid() && BlanksAre(s, routine) && Compute(routine, s, sqrt).outcome == Done
    ensures routine != TimeInitialVelocity && routine != TimeAcceleration ==>
              FormulaV4a.VelocityRelation(Compute(routine, s, sqrt).state.vals)
              && FormulaV4a.DistanceRelation(Compute(routine, s, sqrt).state.vals)
    ensures Val(Compute(routine, s, sqrt).state, Acceleration) != 0.0 ==>
              FormulaV4a.VelocityRelation(Compute(routine, s, sqrt).state.vals)
    ensures routine == TimeAcceleration && Val(Compute(routine, s, sqrt).state, Acceleration) != 0.0 ==>
              FormulaV4a.DistanceRelation(Compute(routine, s, sqrt).state.vals)
  {
    BlanksArePattern(s, routine);
    match routine {
      case DistanceTime => KinematicsDistanceTime(s);
      case DistanceInitialVelocity => KinematicsDistanceInitialVelocity(s);
      case DistanceFinalVelocity => KinematicsDistanceFinalVelocity(s);
      case DistanceAcceleration => DistanceAccelerationOnItsBlanks(s, sqrt);
      case TimeInitialVelocity =>
        if Val(Compute(routine, s, sqrt).state, Acceleration) != 0.0 {
          KinematicsTimeInitialVelocity(s, sqrt);
        }
      case TimeFinalVelocity => TimeFinalVelocityOnItsBlanks(s, sqrt);
      case TimeAcceleration =>
        if Val(Compute(routine, s, sqrt).state, Acceleration) != 0.0 {
          KinematicsTimeAcceleration(s);
        }
      case InitialVelocityFinalVelocity => KinematicsInitialVelocityFinalVelocity(s);
      case InitialVelocityAcceleration => KinematicsInitialVelocityAcceleration(s);
      case FinalVelocityAcceleration => KinematicsFinalVelocityAcceleration(s);
    }
  }

  class FormulaV4b {
    const values: array<real>
    /** The `std::bitset` of presence flags: bit i belongs to the tag at position i. */
    var presence: seq<bool>
    const functions: map<nat, Routine>

    ghost predicate Valid()
      reads this
    {
      values.Length == Count && |presence| == Count && functions == CreateFunctionMap()
    }

    /** The value array and presence bits as a store, slot i for the tag at position i. */
    function State(): (s: Store)
      reads this, values
      requires Valid()
      ensures s.Valid()
    {
      Store(values[..], presence)
    }

    /** A fresh object has no presence bit set; the values are left uninitialised. */
    constructor ()
      ensures Valid() && fresh(values)
      ensures State().present == [false, false, false, false, false]
    {
      values := new real[Count];
      presence := [false, false, false, false, false];
      functions := CreateFunctionMap();
    }

    /** Clears the presence bits; the stored values stay but can no longer be read. */
    method Reset()
      requires Valid()
      modifies this
      ensures Valid()
      ensures State() == Store(old(State()).vals, [false, false, false, false, false])
    {
      presence := [false, false, false, false, false];
    }

    /** Stores `v` under `t` and sets its presence bit; no other index changes. */
    method Set(t: Tag, v: real)
      requires Valid()
      modifies this, values
      ensures Valid()
      ensures State() == With(old(State()), t, v)
    {
      values[AsUnderlying(t)] := v;
      presence := presence[AsUnderlying(t) := true];
    }

    /** Whether `t` holds a value: the presence flag of its slot. */
    function Has(t: Tag): (r: bool)
      reads this, values
      requires Valid()
      ensures r == State().present[AsUnderlying(t)]
    {
      presence[AsUnderlying(t)]
    }

    /** The stored value when the presence bit is set; otherwise it throws. */
    function Get(t: Tag): (r: Result<real>)
      reads this, values
      requires Valid()
      ensures r == State().Get(AsUnderlying(t))
    {
      if Has(t) then Ok(values[AsUnderlying(t)]) else Err(MissingValue)
    }

    /**
     * The complement of the bitset read as a number (`to_ulong`), masked to
     * the low `count` bits: bit i is set exactly when tag i is blank.
     */
    function UnknownsKey(): (k: bv32)
      reads this, values
      requires Valid()
      ensures k as nat == KeyOf(State().present)
    {
      KeyForIsKeyOf(presence);
      KeyFor(PresenceBits(presence))
    }

    method ComputeDistanceTime() returns (r: Outcome)
      requires Valid()
      modifies this, values
      ensures Valid()
      ensures r == StepDistanceTime(old(State())).outcome && State() == StepDistanceTime(old(State())).state
    {
      var a :- Get(Acceleration);
      if a == 0.0 {
        return Fail(DomainError);
      }
      var vf :- Get(FinalVelocity);
      var vi :- Get(InitialVelocity);
      Set(Time, (vf - vi) / a);
      var d := DistanceUsingTimeInitvelAcc(State()).value;
      Set(Distance, d);
      r := Done;
    }

    method ComputeDistanceInitialVelocity() returns (r: Outcome)
      requires Valid()
      modifies this, values
      ensures Valid()
      ensures r == StepDistanceInitialVelocity(old(State())).outcome
      ensures State() == StepDistanceInitialVelocity(old(State())).state
    {
      ghost var s0 := State();
      var vf :- Get(FinalVelocity);
      var a :- Get(Acceleration);
      var t :- Get(Time);
      Set(InitialVelocity, vf - a * t);
      assert State().vals[2] == StepDistanceInitialVelocity(s0).state.vals[2];
      var d := DistanceUsingTimeInitvelAcc(State()).value;
      Set(Distance, d);
      assert State().vals[0] == StepDistanceInitialVelocity(s0).state.vals[0];
      r := Done;
    }

    method ComputeDistanceFinalVelocity() returns (r: Outcome)
      requires Valid()
      modifies this, values
      ensures Valid()
      ensures r == StepDistanceFinalVelocity(old(State())).outcome
      ensures State() == StepDistanceFinalVelocity(old(State())).state
    {
      ghost var s0 := State();
      var vi :- Get(InitialVelocity);
      var a :- Get(Acceleration);
      var t :- Get(Time);
      Set(FinalVelocity, vi + a * t);
      assert State().vals[3] == StepDistanceFinalVelocity(s0).state.vals[3];
      var d := DistanceUsingTimeInitvelAcc(State()).value;
      Set(Distance, d);
      assert State().vals[0] == StepDistanceFinalVelocity(s0).state.vals[0];
      r := Done;
    }

    method ComputeDistanceAcceleration() returns (r: Outcome)
      requires Valid()
      modifies this, values
      ensures Valid()
      ensures r == StepDistanceAcceleration(old(State())).outcome
      ensures State() == StepDistanceAcceleration(old(State())).state
    {
      var t :- Get(Time);
      if t == 0.0 {
        return Fail(DomainError);
      }
      var vf :- Get(FinalVelocity);
      var vi :- Get(InitialVelocity);
      Set(Time, (vf - vi) / t);
      var d :- DistanceUsingTimeInitvelAcc(State());
      Set(Distance, d);
      r := Done;
    }

    method ComputeTimeInitialVelocity(sqrt: real -> real) returns (r: Outcome)
      requires Valid()
      modifies this, values
      ensures Valid()
      ensures r == StepTimeInitialVelocity(old(State()), sqrt).outcome
      ensures State() == StepTimeInitialVelocity(old(State()), sqrt).state
    {
      ghost var s0 := State();
      var vf :- Get(FinalVelocity);
      var a :- Get(Acceleration);
      var d :- Get(Distance);
      var val := vf - 2.0 * (a * d);
      if val < 0.0 {
        return Fail(DomainError);
      }
      assert vf == Val(s0, FinalVelocity) && a == Val(s0, Acceleration) && d == Val(s0, Distance);
      assert a * d == Val(s0, Acceleration) * Val(s0, Distance);
      assert val == InitialVelocityRadicand(s0);
      Set(InitialVelocity, sqrt(val));
      assert State().vals[2] == StepTimeInitialVelocity(s0, sqrt).state.vals[2];
      var t :- TimeUsingVelAccOrDist(State());
      Set(Time, t);
      assert State().vals[1] == StepTimeInitialVelocity(s0, sqrt).state.vals[1];
      r := Done;
    }

    method ComputeTimeFinalVelocity(sqrt: real -> real) returns (r: Outcome)
      requires Valid()
      modifies this, values
      ensures Valid()
      ensures r == StepTimeFinalVelocity(old(State()), sqrt).outcome
      ensures State() == StepTimeFinalVelocity(old(State()), sqrt).state
    {
      ghost var s0 := State();
      var vf :- Get(FinalVelocity);
      var a :- Get(Acceleration);
      var d :- Get(Distance);
      var val := vf + 2.0 * (a * d);
      if val < 0.0 {
        return Fail(DomainError);
      }
      assert vf == Val(s0, FinalVelocity) && a == Val(s0, Acceleration) && d == Val(s0, Distance);
      assert a * d == Val(s0, Acceleration) * Val(s0, Distance);
      assert val == FinalVelocityRadicand(s0);
      Set(InitialVelocity, sqrt(val));
      assert State().vals[2] == StepTimeFinalVelocity(s0, sqrt).state.vals[2];
      var t :- TimeUsingVelAccOrDist(State());
      Set(Time, t);
      assert State().vals[1] == StepTimeFinalVelocity(s0, sqrt).state.vals[1];
      r := Done;
    }

    method ComputeTimeAcceleration() returns (r: Outcome)
      requires Valid()
      modifies this, values
      ensures Valid()
      ensures r == StepTimeAcceleration(old(State())).outcome
      ensures State() == StepTimeAcceleration(old(State())).state
    {
      ghost var s0 := State();
      var vf :- Get(FinalVelocity);
      var vi :- Get(InitialVelocity);
      var d :- Get(Distance);
      if d == 0.0 {
        return Fail(NonFinite);
      }
      assert vf == Val(s0, FinalVelocity) && vi == Val(s0, InitialVelocity) && d == Val(s0, Distance);
      Set(Acceleration, (vf * vf - vi * vi) / (2.0 * d));
      assert State().vals[4] == StepTimeAcceleration(s0).state.vals[4];
      var t :- TimeUsingVelAccOrDist(State());
      Set(Time, t);
      assert State().vals[1] == StepTimeAcceleration(s0).state.vals[1];
      r := Done;
    }

    method ComputeInitialVelocityFinalVelocity() returns (r: Outcome)
      requires Valid()
      modifies this, values
      ensures Valid()
      ensures r == StepInitialVelocityFinalVelocity(old(State())).outcome
      ensures State() == StepInitialVelocityFinalVelocity(old(State())).state
    {
      ghost var s0 := State();
      var t :- Get(Time);
      if t == 0.0 {
        return Fail(DomainError);
      }
      var d :- Get(Distance);
      var a :- Get(Acceleration);
      var vi := d / t - 0.5 * a * t;
      Set(InitialVelocity, vi);
      assert State().vals[2] == StepInitialVelocityFinalVelocity(s0).state.vals[2];
      Set(FinalVelocity, vi + a * t);
      assert State().vals[3] == StepInitialVelocityFinalVelocity(s0).state.vals[3];
      r := Done;
    }

    method ComputeInitialVelocityAcceleration() returns (r: Outcome)
      requires Valid()
      modifies this, values
      ensures Valid()
      ensures r == StepInitialVelocityAcceleration(old(State())).outcome
      ensures State() == StepInitialVelocityAcceleration(old(State())).state
    {
      var t :- Get(Time);
      if t == 0.0 {
        return Fail(DomainError);
      }
      var d :- Get(Distance);
      var vf :- Get(FinalVelocity);
      var vi := (2.0 * d) / t - vf;
      Set(InitialVelocity, vi);
      if vi == 0.0 {
        return Fail(DomainError);
      }
      Set(Acceleration, (vf - vi) / t);
      r := Done;
    }

    method ComputeFinalVelocityAcceleration() returns (r: Outcome)
      requires Valid()
      modifies this, values
      ensures Valid()
      ensures r == StepFinalVelocityAcceleration(old(State())).outcome
      ensures State() == StepFinalVelocityAcceleration(old(State())).state
    {
      var t :- Get(Time);
      if t == 0.0 {
        return Fail(DomainError);
      }
      var d :- Get(Distance);
      var vi :- Get(InitialVelocity);
      var vf := (2.0 * d) / t - vi;
      Set(FinalVelocity, vf);
      if vf == 0.0 {
        return Fail(DomainError);
      }
      Set(Acceleration, (vf - vi) / t);
      r := Done;
    }

    /** Calls the member routine the map holds. */
    method Apply(routine: Routine, sqrt: real -> real) returns (r: Outcome)
      requires Valid()
      modifies this, values
      ensures Valid()
      ensures r == Compute(routine, old(State()), sqrt).outcome
      ensures State() == Compute(routine, old(State()), sqrt).state
    {
      match routine {
        case DistanceTime => r := ComputeDistanceTime();
        case DistanceInitialVelocity => r := ComputeDistanceInitialVelocity();
        case DistanceFinalVelocity => r := ComputeDistanceFinalVelocity();
        case DistanceAcceleration => r := ComputeDistanceAcceleration();
        case TimeInitialVelocity => r := ComputeTimeInitialVelocity(sqrt);
        case TimeFinalVelocity => r := ComputeTimeFinalVelocity(sqrt);
        case TimeAcceleration => r := ComputeTimeAcceleration();
        case InitialVelocityFinalVelocity => r := ComputeInitialVelocityFinalVelocity();
        case InitialVelocityAcceleration => r := ComputeInitialVelocityAcceleration();
        case FinalVelocityAcceleration => r := ComputeFinalVelocityAcceleration();
      }
    }

    /** Finds the routine for the current blank pattern and runs it, or throws. */
    method Calculate(sqrt: real -> real) returns (r: Outcome)
      requires Valid()
      modifies this, values
      ensures Valid()
      ensures r == Solve(old(State()), sqrt).outcome
      ensures State() == Solve(old(State()), sqrt).state
    {
      var key := UnknownsKey() as nat;
      if key !in functions {
        return Fail(UnrecognizedCombination);
      }
      r := Apply(functions[key], sqrt);
    }
  }

  /**
   * The demonstration: acceleration 1.3, final velocity 8.7 and time 38.351
   * set, distance and initial velocity blank; `calculate` succeeds, every
   * variable can be read, and the values obey both kinematic relations.
   */
  method Demo(sqrt: real -> real) returns (r: Outcome, s: Store)
    ensures r == Done && s.Valid() && s.present == [true, true, true, true, true]
    ensures Val(s, Acceleration) == 1.3 && Val(s, FinalVelocity) == 8.7 && Val(s, Time) == 38.351
    ensures FormulaV4a.VelocityRelation(s.vals) && FormulaV4a.DistanceRelation(s.vals)
  {
    var f := new FormulaV4b();
    f.Set(Acceleration, 1.3);
    f.Set(FinalVelocity, 8.7);
    f.Set(Time, 38.351);
    assert f.State().present == [false, true, false, true, true];
    DistanceInitialVelocityAlwaysSucceeds(f.State(), sqrt);
    r := f.Calculate(sqrt);
    s := f.State();
  }
}
