/**
 * FormulaV1: five named fields `a`..`e`, each with a has-value flag, and a
 * `calculate` that switches on the unknowns key and writes two literal
 * constants into the blank fields.
 */
module FormulaV1 {
  import opened Common

  /**
   * What `calculate` does to a store: the switch on the unknowns key. Each of
   * the ten two-blank keys writes its two fields with setters; any other key
   * throws and leaves the store as it was.
   */
  function Solve(s: Store): (r: Step<Store>)
    requires s.Valid()
    ensures r.state.Valid()
    ensures r.outcome == Done || r == Step(Fail(UnrecognizedCombination), s)
  {
    match KeyOf(s.present)
    case 3 => Step(Done, s.Put(0, 3.1).Put(1, 3.2))
    case 5 => Step(Done, s.Put(0, 5.1).Put(2, 5.2))
    case 9 => Step(Done, s.Put(0, 9.1).Put(3, 9.2))
    case 17 => Step(Done, s.Put(0, 17.1).Put(4, 17.2))
    case 6 => Step(Done, s.Put(1, 6.1).Put(2, 6.2))
    case 10 => Step(Done, s.Put(1, 10.1).Put(3, 10.2))
    case 18 => Step(Done, s.Put(1, 18.1).Put(4, 18.2))
    case 12 => Step(Done, s.Put(2, 12.1).Put(3, 12.2))
    case 20 => Step(Done, s.Put(2, 20.1).Put(4, 20.2))
    case 24 => Step(Done, s.Put(3, 24.1).Put(4, 24.2))
    case _ => Step(Fail(UnrecognizedCombination), s)
  }

  /** `calculate` succeeds exactly when two fields are blank; otherwise it throws and changes nothing. */
  lemma SolveSucceedsIffTwoBlank(s: Store)
    requires s.Valid()
    ensures Solve(s).outcome == Done <==> BlankCount(s.present) == 2
    ensures Solve(s).outcome != Done ==>
              Solve(s).outcome == Fail(UnrecognizedCombination) && Solve(s).state == s
  {
    TwoBlankKey(s.present);
  }

  /**
   * On success every field is present, the three known fields keep their
   * values, and the blank fields i < j receive key + 0.1 and key + 0.2.
   */
  lemma SolveFillsBlanks(s: Store, i: Slot, j: Slot)
    requires s.Valid() && i < j && !s.present[i] && !s.present[j]
    requires Solve(s).outcome == Done
    ensures Completes(s, Solve(s).state)
    ensures Solve(s).state.vals[i] == KeyOf(s.present) as real + 0.1
    ensures Solve(s).state.vals[j] == KeyOf(s.present) as real + 0.2
  {
    KeyOfBit(s.present, i);
    KeyOfBit(s.present, j);
    KeyOfFive(s.present);
  }

  /** On success no field is blank any more. */
  lemma SolveLeavesAllPresent(s: Store)
    requires s.Valid() && Solve(s).outcome == Done
    ensures Solve(s).state.present == [true, true, true, true, true]
  {
    KeyOfFive(s.present);
  }

  class FormulaV1 {
    var a: real
    var b: real
    var c: real
    var d: real
    var e: real
    var aHasVal: bool
    var bHasVal: bool
    var cHasVal: bool
    var dHasVal: bool
    var eHasVal: bool

    /** The five fields and flags as a store, slot 0 for `a` up to slot 4 for `e`. */
    function State(): (s: Store)
      reads this
      ensures s.Valid()
    {
      Store([a, b, c, d, e], [aHasVal, bHasVal, cHasVal, dHasVal, eHasVal])
    }

    /** A fresh object has no field set; the values themselves are left uninitialised. */
    constructor ()
      ensures State().present == [false, false, false, false, false]
    {
      aHasVal, bHasVal, cHasVal, dHasVal, eHasVal := false, false, false, false, false;
    }

    /** Clears the five flags; the stored values stay but can no longer be read. */
    method Reset()
      modifies this
      ensures State().present == [false, false, false, false, false]
      ensures State().vals == old(State().vals)
    {
      aHasVal, bHasVal, cHasVal, dHasVal, eHasVal := false, false, false, false, false;
    }

    method SetA(val: real)
      modifies this
      ensures State() == old(State()).Put(0, val)
    {
      a := val;
      aHasVal := true;
    }

    function GetA(): (r: Result<real>)
      reads this
      ensures r == State().Get(0)
    {
      if HasA() then Ok(a) else Err(MissingValue)
    }

    /** Whether `a` holds a value: the presence flag of slot 0. */
    function HasA(): (r: bool)
      reads this
      ensures r == State().present[0]
    {
      aHasVal
    }

    method SetB(val: real)
      modifies this
      ensures State() == old(State()).Put(1, val)
    {
      b := val;
      bHasVal := true;
    }

    function GetB(): (r: Result<real>)
      reads this
      ensures r == State().Get(1)
    {
      if HasB() then Ok(b) else Err(MissingValue)
    }

    /** Whether `b` holds a value: the presence flag of slot 1. */
    function HasB(): (r: bool)
      reads this
      ensures r == State().present[1]
    {
      bHasVal
    }

    method SetC(val: real)
      modifies this
      ensures State() == old(State()).Put(2, val)
    {
      c := val;
      cHasVal := true;
    }

    function GetC(): (r: Result<real>)
      reads this
      ensures r == State().Get(2)
    {
      if HasC() then Ok(c) else Err(MissingValue)
    }

    /** Whether `c` holds a value: the presence flag of slot 2. */
    function HasC(): (r: bool)
      reads this
      ensures r == State().present[2]
    {
      cHasVal
    }

    method SetD(val: real)
      modifies this
      ensures State() == old(State()).Put(3, val)
    {
      d := val;
      dHasVal := true;
    }

    function GetD(): (r: Result<real>)
      reads this
      ensures r == State().Get(3)
    {
      if HasD() then Ok(d) else Err(MissingValue)
    }

    /** Whether `d` holds a value: the presence flag of slot 3. */
    function HasD(): (r: bool)
      reads this
      ensures r == State().present[3]
    {
      dHasVal
    }

    method SetE(val: real)
      modifies this
      ensures State() == old(State()).Put(4, val)
    {
      e := val;
      eHasVal := true;
    }

    function GetE(): (r: Result<real>)
      reads this
      ensures r == State().Get(4)
    {
      if HasE() then Ok(e) else Err(MissingValue)
    }

    /** Whether `e` holds a value: the presence flag of slot 4. */
    function HasE(): (r: bool)
      reads this
      ensures r == State().present[4]
    {
      eHasVal
    }

    /** The unknowns key: one bit per field, set when the field has no value. */
    function UnknownsKey(): (k: nat)
      reads this
      ensures k == KeyOf(State().present)
    {
      KeyOfFive(State().present);
      Bit(!HasA()) + 2 * Bit(!HasB()) + 4 * Bit(!HasC()) + 8 * Bit(!HasD()) + 16 * Bit(!HasE())
    }

    /** Solves for the two blank fields, or throws on any other blank pattern. */
    method Calculate() returns (r: Outcome)
      modifies this
      ensures r == Solve(old(State())).outcome
      ensures State() == Solve(old(State())).state
    {
      match UnknownsKey() {
        case 3 => SetA(3.1); SetB(3.2);
        case 5 => SetA(5.1); SetC(5.2);
        case 9 => SetA(9.1); SetD(9.2);
        case 17 => SetA(17.1); SetE(17.2);
        case 6 => SetB(6.1); SetC(6.2);
        case 10 => SetB(10.1); SetD(10.2);
        case 18 => SetB(18.1); SetE(18.2);
        case 12 => SetC(12.1); SetD(12.2);
        case 20 => SetC(20.1); SetE(20.2);
        case 24 => SetD(24.1); SetE(24.2);
        case _ => return Fail(UnrecognizedCombination);
      }
      r := Done;
    }
  }

  /** The demonstration: with `a`, `c` and `e` set, the key is 10 and `b`, `d` become 10.1 and 10.2. */
  method Demo() returns (b: Result<real>, d: Result<real>, r: Outcome)
    ensures r == Done && b == Ok(10.1) && d == Ok(10.2)
  {
    var f := new FormulaV1();
    f.SetA(23.33);
    f.SetC(1.23);
    f.SetE(0.84755);
    assert f.State().present == [true, false, true, false, true];
    assert f.UnknownsKey() == 10;
    r := f.Calculate();
    b, d := f.GetB(), f.GetD();
  }

  /** After `reset` the key is 31 and `calculate` throws. */
  method ResetThenCalculate(f: FormulaV1) returns (r: Outcome)
    modifies f
    ensures r == Fail(UnrecognizedCombination)
  {
    f.Reset();
    assert f.UnknownsKey() == 31;
    r := f.Calculate();
  }
}
