/**
 * FormulaV2: the same fields and flags as FormulaV1, but `calculate` looks the
 * unknowns key up in a map, built once by the constructor, from the ten
 * two-blank keys to the member routines `compute_ab` .. `compute_de`.
 */
module FormulaV2 {
  import opened Common

  /** The ten member routines the map can name. */
  datatype Routine =
    | ComputeAB | ComputeAC | ComputeAD | ComputeAE | ComputeBC
    | ComputeBD | ComputeBE | ComputeCD | ComputeCE | ComputeDE

  /** The two fields a routine solves for, named by its suffix, lower slot first. */
  function Targets(routine: Routine): (t: (Slot, Slot))
    ensures t.0 < t.1
  {
    match routine
    case ComputeAB => (0, 1)
    case ComputeAC => (0, 2)
    case ComputeAD => (0, 3)
    case ComputeAE => (0, 4)
    case ComputeBC => (1, 2)
    case ComputeBD => (1, 3)
    case ComputeBE => (1, 4)
    case ComputeCD => (2, 3)
    case ComputeCE => (2, 4)
    case ComputeDE => (3, 4)
  }

  /** What a routine does: two setters in a row, each with its literal constant. */
  function Compute(routine: Routine, s: Store): (t: Store)
    requires s.Valid()
    ensures t.Valid()
    ensures t.present[Targets(routine).0] && t.present[Targets(routine).1]
  {
    match routine
    case ComputeAB => s.Put(0, 3.1).Put(1, 3.2)
    case ComputeAC => s.Put(0, 5.1).Put(2, 5.2)
    case ComputeAD => s.Put(0, 9.1).Put(3, 9.2)
    case ComputeAE => s.Put(0, 17.1).Put(4, 17.2)
    case ComputeBC => s.Put(1, 6.1).Put(2, 6.2)
    case ComputeBD => s.Put(1, 10.1).Put(3, 10.2)
    case ComputeBE => s.Put(1, 18.1).Put(4, 18.2)
    case ComputeCD => s.Put(2, 12.1).Put(3, 12.2)
    case ComputeCE => s.Put(2, 20.1).Put(4, 20.2)
    case ComputeDE => s.Put(3, 24.1).Put(4, 24.2)
  }

  /** The dispatch map the constructor builds. */
  function CreateFunctionMap(): (m: map<nat, Routine>)
    ensures m.Keys == TwoBlankKeys
  {
    map[3 := ComputeAB, 5 := ComputeAC, 9 := ComputeAD, 17 := ComputeAE, 6 := ComputeBC,
        10 := ComputeBD, 18 := ComputeBE, 12 := ComputeCD, 20 := ComputeCE, 24 := ComputeDE]
  }

  /**
   * The map has exactly the ten two-blank keys, and each key is the sum of the
   * bits of the two fields its routine writes.
   */
  lemma FunctionMapKeys()
    ensures CreateFunctionMap().Keys == TwoBlankKeys
    ensures forall k :: k in CreateFunctionMap() ==>
              k == Pow2(Targets(CreateFunctionMap()[k]).0) + Pow2(Targets(CreateFunctionMap()[k]).1)
  {
    assert Pow2(0) == 1 && Pow2(1) == 2 && Pow2(2) == 4 && Pow2(3) == 8 && Pow2(4) == 16;
  }

  /** A routine writes its two target fields and nothing else, and leaves both present. */
  lemma ComputeWritesTargets(routine: Routine, s: Store, i: Slot)
    requires s.Valid()
    ensures var t := Compute(routine, s);
            if i == Targets(routine).0 || i == Targets(routine).1 then t.present[i]
            else t.vals[i] == s.vals[i] && t.present[i] == s.present[i]
  {
  }

  /** What `calculate` does: look the key up; throw if it is absent, otherwise run the routine. */
  function Solve(s: Store): (r: Step<Store>)
    requires s.Valid()
    ensures r.state.Valid()
    ensures r.outcome == Done || r == Step(Fail(UnrecognizedCombination), s)
  {
    var key := KeyOf(s.present);
    if key !in CreateFunctionMap() then Step(Fail(UnrecognizedCombination), s)
    else Step(Done, Compute(CreateFunctionMap()[key], s))
  }

  /**
   * `calculate` throws exactly when the key is not in the map, that is unless
   * exactly two fields are blank, and then changes nothing.
   */
  lemma SolveSucceedsIffTwoBlank(s: Store)
    requires s.Valid()
    ensures Solve(s).outcome == Done <==> BlankCount(s.present) == 2
    ensures Solve(s).outcome != Done ==>
              Solve(s).outcome == Fail(UnrecognizedCombination) && Solve(s).state == s
  {
    TwoBlankKey(s.present);
    FunctionMapKeys();
  }

  /**
   * On success the routine that runs is the one for the two blank fields: it
   * writes them, so every field is then present, and the known fields keep
   * their values.
   */
  lemma SolveFillsBlanks(s: Store)
    requires s.Valid() && Solve(s).outcome == Done
    ensures var t := Targets(CreateFunctionMap()[KeyOf(s.present)]);
            !s.present[t.0] && !s.present[t.1]
    ensures Completes(s, Solve(s).state)
  {
    KeyOfFive(s.present);
  }

  class FormulaV2 {
    var a: real
    var b: real
    var c: real
    var d: real
    var e: real
    var aHasVal: bool
    var bHasVal: bool
    var cHasVal: bool
    var dHasVal: bool
    var eHasVal: bool
    const formulas: map<nat, Routine>

    /** The map is the one the constructor built. */
    ghost predicate Valid()
      reads this
    {
      formulas == CreateFunctionMap()
    }

    /** The five fields and flags as a store, slot 0 for `a` up to slot 4 for `e`. */
    function State(): (s: Store)
      reads this
      ensures s.Valid()
    {
      Store([a, b, c, d, e], [aHasVal, bHasVal, cHasVal, dHasVal, eHasVal])
    }

    constructor ()
      ensures Valid()
      ensures State().present == [false, false, false, false, false]
    {
      aHasVal, bHasVal, cHasVal, dHasVal, eHasVal := false, false, false, false, false;
      formulas := CreateFunctionMap();
    }

    /** Clears the five flags; the stored values stay but can no longer be read. */
    method Reset()
      modifies this
      ensures State().present == [false, false, false, false, false]
      ensures State().vals == old(State().vals)
    {
      aHasVal, bHasVal, cHasVal, dHasVal, eHasVal := false, false, false, false, false;
    }

    method SetA(val: real)
      modifies this
      ensures State() == old(State()).Put(0, val)
    {
      a := val;
      aHasVal := true;
    }

    function GetA(): (r: Result<real>)
      reads this
      ensures r == State().Get(0)
    {
      if HasA() then Ok(a) else Err(MissingValue)
    }

    /** Whether `a` holds a value: the presence flag of slot 0. */
    function HasA(): (r: bool)
      reads this
      ensures r == State().present[0]
    {
      aHasVal
    }

    method SetB(val: real)
      modifies this
      ensures State() == old(State()).Put(1, val)
    {
      b := val;
      bHasVal := true;
    }

    function GetB(): (r: Result<real>)
      reads this
      ensures r == State().Get(1)
    {
      if HasB() then Ok(b) else Err(MissingValue)
    }

    /** Whether `b` holds a value: the presence flag of slot 1. */
    function HasB(): (r: bool)
      reads this
      ensures r == State().present[1]
    {
      bHasVal
    }

    method SetC(val: real)
      modifies this
      ensures State() == old(State()).Put(2, val)
    {
      c := val;
      cHasVal := true;
    }

    function GetC(): (r: Result<real>)
      reads this
      ensures r == State().Get(2)
    {
      if HasC() then Ok(c) else Err(MissingValue)
    }

    /** Whether `c` holds a value: the presence flag of slot 2. */
    function HasC(): (r: bool)
      reads this
      ensures r == State().present[2]
    {
      cHasVal
    }

    method SetD(val: real)
      modifies this
      ensures State() == old(State()).Put(3, val)
    {
      d := val;
      dHasVal := true;
    }

    function GetD(): (r: Result<real>)
      reads this
      ensures r == State().Get(3)
    {
      if HasD() then Ok(d) else Err(MissingValue)
    }

    /** Whether `d` holds a value: the presence flag of slot 3. */
    function HasD(): (r: bool)
      reads this
      ensures r == State().present[3]
    {
      dHasVal
    }

    method SetE(val: real)
      modifies this
      ensures State() == old(State()).Put(4, val)
    {
      e := val;
      eHasVal := true;
    }

    function GetE(): (r: Result<real>)
      reads this
      ensures r == State().Get(4)
    {
      if HasE() then Ok(e) else Err(MissingValue)
    }

    /** Whether `e` holds a value: the presence flag of slot 4. */
    function HasE(): (r: bool)
      reads this
      ensures r == State().present[4]
    {
      eHasVal
    }

    /** The unknowns key: one bit per field, set when the field has no value. */
    function UnknownsKey(): (k: nat)
      reads this
      ensures k == KeyOf(State().present)
    {
      KeyOfFive(State().present);
      Bit(!HasA()) + 2 * Bit(!HasB()) + 4 * Bit(!HasC()) + 8 * Bit(!HasD()) + 16 * Bit(!HasE())
    }

    /** Runs one of the `compute_*` members: two setters with literal constants. */
    method Apply(routine: Routine)
      modifies this
      ensures State() == Compute(routine, old(State()))
    {
      match routine {
        case ComputeAB => SetA(3.1); SetB(3.2);
        case ComputeAC => SetA(5.1); SetC(5.2);
        case ComputeAD => SetA(9.1); SetD(9.2);
        case ComputeAE => SetA(17.1); SetE(17.2);
        case ComputeBC => SetB(6.1); SetC(6.2);
        case ComputeBD => SetB(10.1); SetD(10.2);
        case ComputeBE => SetB(18.1); SetE(18.2);
        case ComputeCD => SetC(12.1); SetD(12.2);
        case ComputeCE => SetC(20.1); SetE(20.2);
        case ComputeDE => SetD(24.1); SetE(24.2);
      }
    }

    /** Finds the routine for the current blank pattern and runs it, or throws. */
    method Calculate() returns (r: Outcome)
      requires Valid()
      modifies this
      ensures r == Solve(old(State())).outcome
      ensures State() == Solve(old(State())).state
    {
      var key := UnknownsKey();
      if key !in formulas {
        return Fail(UnrecognizedCombination);
      }
      Apply(formulas[key]);
      r := Done;
    }
  }

  /** The demonstration: with `a`, `c` and `e` set, `b` and `d` become 10.1 and 10.2. */
  method Demo() returns (b: Result<real>, d: Result<real>, r: Outcome)
    ensures r == Done && b == Ok(10.1) && d == Ok(10.2)
  {
    var f := new FormulaV2();
    f.SetA(23.33);
    f.SetC(1.23);
    f.SetE(0.84755);
    assert f.State().present == [true, false, true, false, true];
    assert f.UnknownsKey() == 10;
    r := f.Calculate();
    b, d := f.GetB(), f.GetD();
  }
}
