/**
 * How the five variants relate. FormulaV2 is FormulaV1 with the switch
 * replaced by a map; FormulaV3 keeps V2's dispatch with a bitset and other
 * constants; FormulaV4b dispatches on the same blank pairs as FormulaV4a,
 * and where both implement the same formula they compute the same values.
 */
module Agreement {
  import opened Common
  import FormulaV1
  import FormulaV2
  import FormulaV3
  import FormulaV4a
  import FormulaV4b

  /** The map of FormulaV2 does on every store exactly what the switch of FormulaV1 does. */
  lemma MapMatchesSwitch(s: Store)
    requires s.Valid()
    ensures FormulaV2.Solve(s) == FormulaV1.Solve(s)
  {
    TwoBlankKey(s.present);
    FormulaV2.FunctionMapKeys();
  }

  /**
   * FormulaV3 succeeds and throws on the same stores as FormulaV1 and leaves
   * the same variables present; only the constants it writes differ.
   */
  lemma BitsetMatchesFlags(s: Store)
    requires s.Valid()
    ensures FormulaV3.Solve(s).outcome == FormulaV1.Solve(s).outcome
    ensures FormulaV3.Solve(s).state.present == FormulaV1.Solve(s).state.present
  {
    FormulaV3.KeyForInMap(s.present);
    FormulaV1.SolveSucceedsIffTwoBlank(s);
    FormulaV3.SolveSucceedsIffTwoBlank(s);
    if BlankCount(s.present) == 2 {
      FormulaV1.SolveLeavesAllPresent(s);
      FormulaV3.SolveLeavesAllPresent(s);
    }
  }

  /**
   * The three maps keyed by a bit mask hold the same ten keys, which are the
   * five-bit numbers with two bits set.
   */
  lemma MapsShareKeys()
    ensures FormulaV2.CreateFunctionMap().Keys == FormulaV3.CreateFunctionMap().Keys
    ensures FormulaV3.CreateFunctionMap().Keys == FormulaV4b.CreateFunctionMap().Keys
    ensures FormulaV4b.CreateFunctionMap().Keys == set k: nat | k < 32 && PopCount(k) == 2
  {
    FormulaV2.FunctionMapKeys();
    FormulaV3.FunctionMapKeys();
    FormulaV4b.FunctionMapKeys();
    TwoBlankKeysArePopCountTwo();
  }

  /**
   * FormulaV4b refuses a blank pattern exactly when FormulaV4a's count check
   * does: both accept precisely the stores with two blanks.
   */
  lemma KinematicsVariantsRejectAlike(s: Store, sqrt: real -> real)
    requires s.Valid()
    ensures FormulaV4b.Solve(s, sqrt).outcome == Fail(UnrecognizedCombination) <==>
              FormulaV4a.Solve(s, sqrt).outcome in {Fail(TooManyBlank), Fail(TooFewBlank)}
  {
    FormulaV4b.SolveRejectsUnlessTwoBlank(s, sqrt);
    FormulaV4a.SolveChecksBlankCount(s, sqrt);
  }

  // Where FormulaV4a and FormulaV4b solve for the same two unknowns, they end
  // in the same state. On success both leave numbers that obey the two
  // relations of constant acceleration and keep the three known ones, and the
  // relations leave no choice for the two unknowns.

  /** Given initial velocity, final velocity and a non-zero acceleration, the relations fix time and distance. */
  lemma DistanceTimeDetermined(w1: FormulaV4a.Reals, w2: FormulaV4a.Reals)
    requires w1[2] == w2[2] && w1[3] == w2[3] && w1[4] == w2[4] && w1[4] != 0.0
    requires FormulaV4a.VelocityRelation(w1) && FormulaV4a.DistanceRelation(w1)
    requires FormulaV4a.VelocityRelation(w2) && FormulaV4a.DistanceRelation(w2)
    ensures w1 == w2
  {
    assert w1[4] * w1[1] == w2[4] * w2[1];
    assert w1[1] == w2[1];
    assert w1[0] == w2[0];
  }

  /** Given time, final velocity and acceleration, the relations fix initial velocity and distance. */
  lemma DistanceInitialVelocityDetermined(w1: FormulaV4a.Reals, w2: FormulaV4a.Reals)
    requires w1[1] == w2[1] && w1[3] == w2[3] && w1[4] == w2[4]
    requires FormulaV4a.VelocityRelation(w1) && FormulaV4a.DistanceRelation(w1)
    requires FormulaV4a.VelocityRelation(w2) && FormulaV4a.DistanceRelation(w2)
    ensures w1 == w2
  {
    assert w1[2] == w2[2];
    assert w1[0] == w2[0];
  }

  /** Given time, initial velocity and acceleration, the relations fix final velocity and distance. */
  lemma DistanceFinalVelocityDetermined(w1: FormulaV4a.Reals, w2: FormulaV4a.Reals)
    requires w1[1] == w2[1] && w1[2] == w2[2] && w1[4] == w2[4]
    requires FormulaV4a.VelocityRelation(w1) && FormulaV4a.DistanceRelation(w1)
    requires FormulaV4a.VelocityRelation(w2) && FormulaV4a.DistanceRelation(w2)
    ensures w1 == w2
  {
    assert w1[3] == w2[3];
    assert w1[0] == w2[0];
  }

  /** Given distance, a non-zero time and acceleration, the relations fix both velocities. */
  lemma VelocitiesDetermined(w1: FormulaV4a.Reals, w2: FormulaV4a.Reals)
    requires w1[0] == w2[0] && w1[1] == w2[1] && w1[4] == w2[4] && w1[1] != 0.0
    requires FormulaV4a.VelocityRelation(w1) && FormulaV4a.DistanceRelation(w1)
    requires FormulaV4a.VelocityRelation(w2) && FormulaV4a.DistanceRelation(w2)
    ensures w1 == w2
  {
    assert w1[2] * w1[1] == w2[2] * w2[1];
    assert w1[2] == w2[2];
    assert w1[3] == w2[3];
  }

  /** FormulaV4a on the (distance, time) pattern: it fails only on zero acceleration, changing nothing. */
  lemma FormulaV4aDistanceTime(s: Store, sqrt: real -> real)
    requires s.Valid() && s.present == [false, false, true, true, true]
    ensures var r := FormulaV4a.Solve(s, sqrt);
            if s.vals[4] == 0.0 then r == Step(Fail(DomainError), s)
            else r.outcome == Done && r.state.present == [true, true, true, true, true]
                 && FormulaV4a.VelocityRelation(r.state.vals) && FormulaV4a.DistanceRelation(r.state.vals)
                 && r.state.vals[2] == s.vals[2] && r.state.vals[3] == s.vals[3] && r.state.vals[4] == s.vals[4]
  {
    FormulaV4a.BlankBelowFive(s.present);
    assert FormulaV4a.BlankBelow(s.present, FormulaV4a.Variables) == [FormulaV4a.Distance, FormulaV4a.Time];
    FormulaV4a.FormulaForPair(FormulaV4a.Distance, FormulaV4a.Time);
    FormulaV4a.SolveWritesOnlyBlanks(s, sqrt);
    if s.vals[4] != 0.0 {
      FormulaV4a.KinematicsDistanceTime(s.vals, sqrt);
    }
  }

  /** FormulaV4a on the (distance, final velocity) pattern: it always succeeds. */
  lemma FormulaV4aDistanceFinalVelocity(s: Store, sqrt: real -> real)
    requires s.Valid() && s.present == [false, true, true, false, true]
    ensures var r := FormulaV4a.Solve(s, sqrt);
            r.outcome == Done && r.state.present == [true, true, true, true, true]
            && FormulaV4a.VelocityRelation(r.state.vals) && FormulaV4a.DistanceRelation(r.state.vals)
            && r.state.vals[1] == s.vals[1] && r.state.vals[2] == s.vals[2] && r.state.vals[4] == s.vals[4]
  {
    FormulaV4a.BlankBelowFive(s.present);
    assert FormulaV4a.BlankBelow(s.present, FormulaV4a.Variables) == [FormulaV4a.Distance, FormulaV4a.FinalVelocity];
    FormulaV4a.FormulaForPair(FormulaV4a.Distance, FormulaV4a.FinalVelocity);
    FormulaV4a.SolveWritesOnlyBlanks(s, sqrt);
    FormulaV4a.KinematicsDistanceFinalVelocity(s.vals, sqrt);
  }

  /** FormulaV4a on the (initial velocity, final velocity) pattern: it fails only on zero time, changing nothing. */
  lemma FormulaV4aInitialVelocityFinalVelocity(s: Store, sqrt: real -> real)
    requires s.Valid() && s.present == [true, true, false, false, true]
    ensures var r := FormulaV4a.Solve(s, sqrt);
            if s.vals[1] == 0.0 then r == Step(Fail(DomainError), s)
            else r.outcome == Done && r.state.present == [true, true, true, true, true]
                 && FormulaV4a.VelocityRelation(r.state.vals) && FormulaV4a.DistanceRelation(r.state.vals)
                 && r.state.vals[0] == s.vals[0] && r.state.vals[1] == s.vals[1] && r.state.vals[4] == s.vals[4]
  {
    FormulaV4a.BlankBelowFive(s.present);
    assert FormulaV4a.BlankBelow(s.present, FormulaV4a.Variables) == [FormulaV4a.InitialVelocity, FormulaV4a.FinalVelocity];
    FormulaV4a.FormulaForPair(FormulaV4a.InitialVelocity, FormulaV4a.FinalVelocity);
    var run := FormulaV4a.Run(FormulaV4a.InitialVelocityFinalVelocity, s.vals, sqrt);
    assert FormulaV4a.Solve(s, sqrt) == if run.outcome.Fail? then Step(run.outcome, Store(run.state, s.present))
                                        else Step(Done, Store(run.state, [true, true, true, true, true]));
    if s.vals[1] != 0.0 {
      FormulaV4a.KinematicsInitialVelocityFinalVelocity(s.vals, sqrt);
      FormulaV4a.RunWritesOnlyUnknowns(FormulaV4a.InitialVelocityFinalVelocity, s.vals, sqrt, FormulaV4a.Distance);
      FormulaV4a.RunWritesOnlyUnknowns(FormulaV4a.InitialVelocityFinalVelocity, s.vals, sqrt, FormulaV4a.Time);
      FormulaV4a.RunWritesOnlyUnknowns(FormulaV4a.InitialVelocityFinalVelocity, s.vals, sqrt, FormulaV4a.Acceleration);
    } else {
      assert run.outcome == Fail(DomainError) && run.state == s.vals;
    }
  }

  /** FormulaV4b on the (distance, time) pattern: it fails only on zero acceleration, changing nothing. */
  lemma FormulaV4bDistanceTime(s: Store, sqrt: real -> real)
    requires s.Valid() && s.present == [false, false, true, true, true]
    ensures var r := FormulaV4b.Solve(s, sqrt);
            if s.vals[4] == 0.0 then r == Step(Fail(DomainError), s)
            else r.outcome == Done && r.state.present == [true, true, true, true, true]
                 && FormulaV4a.VelocityRelation(r.state.vals) && FormulaV4a.DistanceRelation(r.state.vals)
                 && r.state.vals[2] == s.vals[2] && r.state.vals[3] == s.vals[3] && r.state.vals[4] == s.vals[4]
  {
    FormulaV4b.SolveOnPattern(s, FormulaV4b.DistanceTime, sqrt);
    if s.vals[4] != 0.0 {
      FormulaV4b.KinematicsDistanceTime(s);
    }
  }

  /** FormulaV4b on the (distance, final velocity) pattern: it always succeeds. */
  lemma FormulaV4bDistanceFinalVelocity(s: Store, sqrt: real -> real)
    requires s.Valid() && s.present == [false, true, true, false, true]
    ensures var r := FormulaV4b.Solve(s, sqrt);
            r.outcome == Done && r.state.present == [true, true, true, true, true]
            && FormulaV4a.VelocityRelation(r.state.vals) && FormulaV4a.DistanceRelation(r.state.vals)
            && r.state.vals[1] == s.vals[1] && r.state.vals[2] == s.vals[2] && r.state.vals[4] == s.vals[4]
  {
    FormulaV4b.SolveOnPattern(s, FormulaV4b.DistanceFinalVelocity, sqrt);
    FormulaV4b.KinematicsDistanceFinalVelocity(s);
  }

  /** FormulaV4b on the (initial velocity, final velocity) pattern: it fails only on zero time, changing nothing. */
  lemma FormulaV4bInitialVelocityFinalVelocity(s: Store, sqrt: real -> real)
    requires s.Valid() && s.present == [true, true, false, false, true]
    ensures var r := FormulaV4b.Solve(s, sqrt);
            if s.vals[1] == 0.0 then r == Step(Fail(DomainError), s)
            else r.outcome == Done && r.state.present == [true, true, true, true, true]
                 && FormulaV4a.VelocityRelation(r.state.vals) && FormulaV4a.DistanceRelation(r.state.vals)
                 && r.state.vals[0] == s.vals[0] && r.state.vals[1] == s.vals[1] && r.state.vals[4] == s.vals[4]
  {
    FormulaV4b.SolveOnPattern(s, FormulaV4b.InitialVelocityFinalVelocity, sqrt);
    if s.vals[1] != 0.0 {
      FormulaV4b.KinematicsInitialVelocityFinalVelocity(s);
    }
  }

  /** FormulaV4a and FormulaV4b end the same way on the (distance, time) pattern. */
  lemma DistanceTimeAgrees(s: Store, sqrt: real -> real)
    requires s.Valid() && s.present == [false, false, true, true, true]
    ensures FormulaV4b.Solve(s, sqrt) == FormulaV4a.Solve(s, sqrt)
  {
    FormulaV4bDistanceTime(s, sqrt);
    FormulaV4aDistanceTime(s, sqrt);
    if s.vals[4] != 0.0 {
      DistanceTimeDetermined(FormulaV4b.Solve(s, sqrt).state.vals, FormulaV4a.Solve(s, sqrt).state.vals);
    }
  }

  /** FormulaV4a and FormulaV4b end the same way on the (distance, initial velocity) pattern. */
  lemma DistanceInitialVelocityAgrees(s: Store, sqrt: real -> real)
    requires s.Valid() && s.present == [false, true, false, true, true]
    ensures FormulaV4b.Solve(s, sqrt) == FormulaV4a.Solve(s, sqrt)
  {
    FormulaV4b.DistanceInitialVelocityAlwaysSucceeds(s, sqrt);
    FormulaV4a.DistanceInitialVelocityAlwaysSucceeds(s, sqrt);
    DistanceInitialVelocityDetermined(FormulaV4b.Solve(s, sqrt).state.vals, FormulaV4a.Solve(s, sqrt).state.vals);
  }

  /** FormulaV4a and FormulaV4b end the same way on the (distance, final velocity) pattern. */
  lemma DistanceFinalVelocityAgrees(s: Store, sqrt: real -> real)
    requires s.Valid() && s.present == [false, true, true, false, true]
    ensures FormulaV4b.Solve(s, sqrt) == FormulaV4a.Solve(s, sqrt)
  {
    FormulaV4bDistanceFinalVelocity(s, sqrt);
    FormulaV4aDistanceFinalVelocity(s, sqrt);
    DistanceFinalVelocityDetermined(FormulaV4b.Solve(s, sqrt).state.vals, FormulaV4a.Solve(s, sqrt).state.vals);
  }

  /** FormulaV4a and FormulaV4b end the same way on the (initial velocity, final velocity) pattern. */
  lemma InitialVelocityFinalVelocityAgrees(s: Store, sqrt: real -> real)
    requires s.Valid() && s.present == [true, true, false, false, true]
    ensures FormulaV4b.Solve(s, sqrt) == FormulaV4a.Solve(s, sqrt)
  {
    FormulaV4bInitialVelocityFinalVelocity(s, sqrt);
    FormulaV4aInitialVelocityFinalVelocity(s, sqrt);
    if s.vals[1] != 0.0 {
      VelocitiesDetermined(FormulaV4b.Solve(s, sqrt).state.vals, FormulaV4a.Solve(s, sqrt).state.vals);
    }
  }
}
