/**
 * FormulaV3: the five variables are tags `a`..`e` indexing a fixed array of
 * values and a five-bit presence bitset; the unknowns key is the complement of
 * the presence bits masked to five bits, looked up in a map built once by the
 * constructor.
 */
module FormulaV3 {
  import opened Common

  /** The variable tags, in the order of their bit positions. */
  datatype Tag = A | B | C | D | E

  /** `tag::count`, the number of tags. */
  const Count: nat := 5

  /** The position of a tag: its index in the value array and its bit in the bitset. */
  function AsUnderlying(t: Tag): Slot
  {
    match t
    case A => 0
    case B => 1
    case C => 2
    case D => 3
    case E => 4
  }

  /** `as_bit`: the unsigned 32-bit mask of a tag. */
  function AsBit(t: Tag): bv32
  {
    1 << AsUnderlying(t)
  }

  /** The ten member routines the map can name. */
  datatype Routine =
    | ComputeAB | ComputeAC | ComputeAD | ComputeAE | ComputeBC
    | ComputeBD | ComputeBE | ComputeCD | ComputeCE | ComputeDE

  /** The two tags a routine solves for, named by its suffix. */
  function Targets(routine: Routine): (Tag, Tag)
  {
    match routine
    case ComputeAB => (A, B)
    case ComputeAC => (A, C)
    case ComputeAD => (A, D)
    case ComputeAE => (A, E)
    case ComputeBC => (B, C)
    case ComputeBD => (B, D)
    case ComputeBE => (B, E)
    case ComputeCD => (C, D)
    case ComputeCE => (C, E)
    case ComputeDE => (D, E)
  }

  /** What a routine does: `set` on its two tags, with its literal constants. */
  function Compute(routine: Routine, s: Store): (t: Store)
    requires s.Valid()
    ensures t.Valid()
    ensures t.present[AsUnderlying(Targets(routine).0)] && t.present[AsUnderlying(Targets(routine).1)]
  {
    match routine
    case ComputeAB => s.Put(0, 1.1).Put(1, 1.2)
    case ComputeAC => s.Put(0, 2.1).Put(2, 2.2)
    case ComputeAD => s.Put(0, 3.1).Put(3, 3.2)
    case ComputeAE => s.Put(0, 4.1).Put(4, 4.2)
    case ComputeBC => s.Put(1, 5.1).Put(2, 5.2)
    case ComputeBD => s.Put(1, 6.1).Put(3, 6.2)
    case ComputeBE => s.Put(1, 7.1).Put(4, 7.2)
    case ComputeCD => s.Put(2, 8.1).Put(3, 8.2)
    case ComputeCE => s.Put(2, 9.1).Put(4, 9.2)
    case ComputeDE => s.Put(3, 10.1).Put(4, 10.2)
  }

  /**
   * The dispatch map the constructor builds, keyed `as_bit(x) | as_bit(y)`.
   * A key is an `unsigned`; the map holds its numeric value.
   */
  function CreateFunctionMap(): map<nat, Routine>
  {
    map[(AsBit(A) | AsBit(B)) as nat := ComputeAB, (AsBit(A) | AsBit(C)) as nat := ComputeAC,
        (AsBit(A) | AsBit(D)) as nat := ComputeAD, (AsBit(A) | AsBit(E)) as nat := ComputeAE,
        (AsBit(B) | AsBit(C)) as nat := ComputeBC, (AsBit(B) | AsBit(D)) as nat := ComputeBD,
        (AsBit(B) | AsBit(E)) as nat := ComputeBE, (AsBit(C) | AsBit(D)) as nat := ComputeCD,
        (AsBit(C) | AsBit(E)) as nat := ComputeCE, (AsBit(D) | AsBit(E)) as nat := ComputeDE]
  }

  /** The map's keys, evaluated. */
  lemma FunctionMapLiteral()
    ensures CreateFunctionMap() == map[3 := ComputeAB, 5 := ComputeAC, 9 := ComputeAD, 17 := ComputeAE,
                                       6 := ComputeBC, 10 := ComputeBD, 18 := ComputeBE, 12 := ComputeCD,
                                       20 := ComputeCE, 24 := ComputeDE]
  {
    assert AsBit(A) == 1 && AsBit(B) == 2 && AsBit(C) == 4 && AsBit(D) == 8 && AsBit(E) == 16;
  }

  /**
   * The map has exactly the ten two-blank keys, one per pair of tags x < y,
   * each keyed by the two tags' bits.
   */
  lemma FunctionMapKeys()
    ensures CreateFunctionMap().Keys == TwoBlankKeys
    ensures forall k :: k in CreateFunctionMap() ==>
              var t := Targets(CreateFunctionMap()[k]);
              AsUnderlying(t.0) < AsUnderlying(t.1) && k == (AsBit(t.0) | AsBit(t.1)) as nat
  {
    FunctionMapLiteral();
    assert AsBit(A) == 1 && AsBit(B) == 2 && AsBit(C) == 4 && AsBit(D) == 8 && AsBit(E) == 16;
  }

  /** The key of five flags is in the map exactly when two flags are clear. */
  lemma KeyForInMap(present: seq<bool>)
    requires |present| == Count
    ensures KeyFor(PresenceBits(present)) as nat in CreateFunctionMap() <==> BlankCount(present) == 2
  {
    FunctionMapLiteral();
    BlankCountFive(present);
  }

  /** Bit i of the key of five flags is set exactly when flag i is clear. */
  lemma KeyForBits(present: seq<bool>)
    requires |present| == Count
    ensures forall t: Tag :: KeyFor(PresenceBits(present)) & AsBit(t) != 0 <==> !present[AsUnderlying(t)]
  {
  }

  /** A routine sets exactly its two tags and nothing else. */
  lemma ComputeWritesTargets(routine: Routine, s: Store, i: Slot)
    requires s.Valid()
    ensures var t := Compute(routine, s);
            var x, y := AsUnderlying(Targets(routine).0), AsUnderlying(Targets(routine).1);
            if i == x || i == y then t.present[i]
            else t.vals[i] == s.vals[i] && t.present[i] == s.present[i]
  {
  }

  /** What `calculate` does: look the key up; throw if it is absent, otherwise run the routine. */
  function Solve(s: Store): (r: Step<Store>)
    requires s.Valid()
    ensures r.state.Valid()
    ensures r.outcome == Done || r == Step(Fail(UnrecognizedCombination), s)
  {
    var key := KeyFor(PresenceBits(s.present)) as nat;
    if key !in CreateFunctionMap() then Step(Fail(UnrecognizedCombination), s)
    else Step(Done, Compute(CreateFunctionMap()[key], s))
  }

  /**
   * `calculate` throws, changing nothing, unless exactly two variables are
   * blank; on success every variable is present and the known ones kept their
   * values.
   */
  lemma SolveSucceedsIffTwoBlank(s: Store)
    requires s.Valid()
    ensures Solve(s).outcome == Done <==> BlankCount(s.present) == 2
    ensures Solve(s).outcome != Done ==>
              Solve(s).outcome == Fail(UnrecognizedCombination) && Solve(s).state == s
  {
    KeyForInMap(s.present);
  }

  /** The routine the map holds for a key names exactly the blank variables of that key. */
  lemma BlankTargets(present: seq<bool>)
    requires |present| == Count && KeyOf(present) in CreateFunctionMap()
    ensures var t := Targets(CreateFunctionMap()[KeyOf(present)]);
            forall i: Slot :: !present[i] <==> i == AsUnderlying(t.0) || i == AsUnderlying(t.1)
  {
    FunctionMapLiteral();
    KeyOfFive(present);
  }

  /**
   * On success the routine that runs is the one for the two blank variables:
   * it writes them, so all five are then present, and the known ones keep
   * their values.
   */
  lemma SolveFillsBlanks(s: Store)
    requires s.Valid() && Solve(s).outcome == Done
    ensures var t := Targets(CreateFunctionMap()[KeyFor(PresenceBits(s.present)) as nat]);
            !s.present[AsUnderlying(t.0)] && !s.present[AsUnderlying(t.1)]
    ensures Completes(s, Solve(s).state)
  {
    KeyForIsKeyOf(s.present);
    BlankTargets(s.present);
    var routine := CreateFunctionMap()[KeyOf(s.present)];
    forall i: Slot {
      ComputeWritesTargets(routine, s, i);
    }
  }

  /** On success no variable is blank any more. */
  lemma SolveLeavesAllPresent(s: Store)
    requires s.Valid() && Solve(s).outcome == Done
    ensures Solve(s).state.present == [true, true, true, true, true]
  {
    SolveFillsBlanks(s);
    var p := Solve(s).state.present;
    assert p[0] && p[1] && p[2] && p[3] && p[4];
  }

  class FormulaV3 {
    const values: array<real>
    var presence: bv5
    const functions: map<nat, Routine>

    ghost predicate Valid()
      reads this
    {
      values.Length == Count && functions == CreateFunctionMap()
    }

    /** The value array and presence bits as a store, slot i for the tag at position i. */
    function State(): (s: Store)
      reads this, values
      requires Valid()
      ensures s.Valid()
    {
      Store(values[..], [presence & 1 != 0, presence & 2 != 0, presence & 4 != 0, presence & 8 != 0, presence & 16 != 0])
    }

    /** A fresh object has no presence bit set; the values are left uninitialised. */
    constructor ()
      ensures Valid() && fresh(values)
      ensures State().present == [false, false, false, false, false]
    {
      values := new real[Count];
      presence := 0;
      functions := CreateFunctionMap();
    }

    /** Stores `v` under `t` and sets its presence bit; no other index changes. */
    method Set(t: Tag, v: real)
      requires Valid()
      modifies this, values
      ensures Valid()
      ensures State() == old(State()).Put(AsUnderlying(t), v)
    {
      values[AsUnderlying(t)] := v;
      presence := presence | (1 << AsUnderlying(t));
    }

    /** Whether `t` holds a value: its presence bit, the presence flag of its slot. */
    function Has(t: Tag): (r: bool)
      reads this, values
      requires Valid()
      ensures r == State().present[AsUnderlying(t)]
    {
      presence & (1 << AsUnderlying(t)) != 0
    }

    /** The stored value when the presence bit is set; otherwise it throws. */
    function Get(t: Tag): (r: Result<real>)
      reads this, values
      requires Valid()
      ensures r == State().Get(AsUnderlying(t))
    {
      if Has(t) then Ok(values[AsUnderlying(t)]) else Err(MissingValue)
    }

    /** The complement of the presence bits, masked to the low `count` bits. */
    function UnknownsKey(): (k: bv32)
      reads this, values
      requires Valid()
      ensures k == KeyFor(PresenceBits(State().present))
      ensures k as nat == KeyOf(State().present)
    {
      KeyForIsKeyOf(State().present);
      assert PresenceBits(State().present) == presence;
      !(presence as bv32) & (((1 as bv32) << Count) - 1)
    }

    /** Runs one of the `compute_*` members: two calls of `set` with literal constants. */
    method Apply(routine: Routine)
      requires Valid()
      modifies this, values
      ensures Valid()
      ensures State() == Compute(routine, old(State()))
    {
      match routine {
        case ComputeAB => Set(A, 1.1); Set(B, 1.2);
        case ComputeAC => Set(A, 2.1); Set(C, 2.2);
        case ComputeAD => Set(A, 3.1); Set(D, 3.2);
        case ComputeAE => Set(A, 4.1); Set(E, 4.2);
        case ComputeBC => Set(B, 5.1); Set(C, 5.2);
        case ComputeBD => Set(B, 6.1); Set(D, 6.2);
        case ComputeBE => Set(B, 7.1); Set(E, 7.2);
        case ComputeCD => Set(C, 8.1); Set(D, 8.2);
        case ComputeCE => Set(C, 9.1); Set(E, 9.2);
        case ComputeDE => Set(D, 10.1); Set(E, 10.2);
      }
    }

    /** Finds the routine for the current blank pattern and runs it, or throws. */
    method Calculate() returns (r: Outcome)
      requires Valid()
      modifies this, values
      ensures Valid()
      ensures r == Solve(old(State())).outcome
      ensures State() == Solve(old(State())).state
    {
      var key := UnknownsKey() as nat;
      if key !in functions {
        return Fail(UnrecognizedCombination);
      }
      Apply(functions[key]);
      r := Done;
    }
  }

  /** With only `a` and `e` blank, `calculate` runs `compute_ae`. */
  lemma SolveBlankAE(s: Store)
    requires s.Valid() && s.present == [false, true, true, true, false]
    ensures Solve(s).outcome == Done
    ensures Solve(s).state.Get(0) == Ok(4.1) && Solve(s).state.Get(4) == Ok(4.2)
  {
    FunctionMapLiteral();
    KeyForIsKeyOf(s.present);
    KeyOfFive(s.present);
  }

  /** The demonstration: with `b`, `c` and `d` set, `a` and `e` become 4.1 and 4.2. */
  method Demo() returns (a: Result<real>, e: Result<real>, r: Outcome)
    ensures r == Done && a == Ok(4.1) && e == Ok(4.2)
  {
    var f := new FormulaV3();
    f.Set(B, 1.4);
    f.Set(C, 1.0);
    f.Set(D, 2.0);
    SolveBlankAE(f.State());
    r := f.Calculate();
    a, e := f.Get(A), f.Get(E);
  }

  /** A fresh object has key 31, so `calculate` throws at once. */
  method FreshCalculate() returns (r: Outcome)
    ensures r == Fail(UnrecognizedCombination)
  {
    var f := new FormulaV3();
    BlankCountFive(f.State().present);
    KeyForInMap(f.State().present);
    assert KeyFor(PresenceBits(f.State().present)) as nat !in CreateFunctionMap();
    r := f.Calculate();
  }
}
