/**
 * Vocabulary shared by the five solver variants: the error kinds they raise,
 * the outcome of a `calculate` call, an abstract view of a five-slot store
 * (a value and a presence flag per slot) and the reference definition of the
 * "unknowns key", the bit mask with bit i set exactly when slot i is blank.
 */
module Common {

  /** The kinds of exception the variants throw; message texts are not modelled. */
  datatype Error =
    | MissingValue             // a checked getter read a slot that holds no value
    | UnrecognizedCombination  // no routine is registered for the blank pattern
    | TooManyBlank             // more than two slots are blank (FormulaV4a)
    | TooFewBlank              // fewer than two slots are blank (FormulaV4a)
    | DomainError              // a routine's zero or sign guard rejected its inputs
    | NonFinite                // an unguarded division by zero: the C++ code would
                               // store an infinity or NaN here, the model stops

  /** The value of a getter: the stored value, or the exception it throws. */
  datatype Result<T> = Ok(value: T) | Err(error: Error) {
    predicate IsFailure() { Err? }
    function PropagateFailure(): Outcome requires Err? { Fail(error) }
    function Extract(): T requires Ok? { value }
  }

  /** The effect of a `void` member that may throw: it returns, or raises `error`. */
  datatype Outcome = Done | Fail(error: Error) {
    predicate IsFailure() { Fail? }
    function PropagateFailure(): Outcome requires Fail? { this }
  }

  /** What a `calculate` call does: how it ends, and the state it leaves behind. */
  datatype Step<S> = Step(outcome: Outcome, state: S)

  /** The number of slots of every variant. */
  const SlotCount: nat := 5

  type Slot = i: nat | i < SlotCount

  /** The abstract state of one five-slot store: a value and a presence flag per slot. */
  datatype Store = Store(vals: seq<real>, present: seq<bool>) {

    predicate Valid() { |vals| == SlotCount && |present| == SlotCount }

    /** A checked read: the value of a present slot, `MissingValue` for a blank one. */
    function Get(i: Slot): (r: Result<real>)
      requires Valid()
      ensures r.Ok? <==> present[i]
      ensures r.Ok? ==> r.value == vals[i]
      ensures r.Err? ==> r.error == MissingValue
    {
      if present[i] then Ok(vals[i]) else Err(MissingValue)
    }

    /** A setter: stores `x` in slot `i` and marks it present. */
    function Put(i: Slot, x: real): Store
      requires Valid()
    {
      Store(vals[i := x], present[i := true])
    }
  }

  /** The store after a setter: `i` now reads `x`, every other slot reads as before. */
  lemma PutThenGet(s: Store, i: Slot, j: Slot, x: real)
    requires s.Valid()
    ensures s.Put(i, x).Valid()
    ensures s.Put(i, x).Get(j) == if i == j then Ok(x) else s.Get(j)
  {
  }

  /** `t` completes `s`: every slot of `t` is present and every slot present in `s` kept its value. */
  ghost predicate Completes(s: Store, t: Store)
    requires s.Valid() && t.Valid()
  {
    && (forall i :: 0 <= i < SlotCount ==> t.present[i])
    && (forall i :: 0 <= i < SlotCount && s.present[i] ==> t.vals[i] == s.vals[i])
  }

  function Bit(b: bool): nat { if b then 1 else 0 }

  function Pow2(i: nat): (r: nat)
    ensures r >= 1
  {
    if i == 0 then 1 else 2 * Pow2(i - 1)
  }

  /** Bit `i` of `k`. */
  predicate TestBit(k: nat, i: nat) {
    if i == 0 then k % 2 == 1 else TestBit(k / 2, i - 1)
  }

  /** The number of one bits of `k`. */
  function PopCount(k: nat): nat {
    if k == 0 then 0 else k % 2 + PopCount(k / 2)
  }

  /** The number of blank slots. */
  function BlankCount(present: seq<bool>): (n: nat)
    ensures n <= |present|
  {
    if present == [] then 0 else Bit(!present[0]) + BlankCount(present[1..])
  }

  /**
   * The reference unknowns key: the sum of 2^i over the blank slots i, built
   * from the lowest slot up. Each variant computes its key its own way and is
   * proved to agree with this one.
   */
  function KeyOf(present: seq<bool>): nat {
    if present == [] then 0 else Bit(!present[0]) + 2 * KeyOf(present[1..])
  }

  /** The ten keys with exactly two bits among the low five: the two-blank patterns. */
  const TwoBlankKeys: set<nat> := {3, 5, 6, 9, 10, 12, 17, 18, 20, 24}

  lemma {:induction false} KeyOfBound(present: seq<bool>)
    ensures KeyOf(present) < Pow2(|present|)
  {
    if present != [] {
      KeyOfBound(present[1..]);
    }
  }

  /** A low bit and the rest: `b + 2 r` splits back into `b` and `r`. */
  lemma SplitLowBit(b: nat, r: nat)
    requires b < 2
    ensures (b + 2 * r) % 2 == b && (b + 2 * r) / 2 == r
  {
  }

  /** Bit i of the key is set exactly when slot i is blank. */
  lemma {:induction false} KeyOfBit(present: seq<bool>, i: nat)
    requires i < |present|
    ensures TestBit(KeyOf(present), i) <==> !present[i]
  {
    SplitLowBit(Bit(!present[0]), KeyOf(present[1..]));
    if i > 0 {
      KeyOfBit(present[1..], i - 1);
    }
  }

  /** The key has as many one bits as there are blank slots. */
  lemma {:induction false} KeyOfPopCount(present: seq<bool>)
    ensures PopCount(KeyOf(present)) == BlankCount(present)
  {
    if present != [] {
      SplitLowBit(Bit(!present[0]), KeyOf(present[1..]));
      KeyOfPopCount(present[1..]);
    }
  }

  /** Different presence patterns give different keys. */
  lemma {:induction false} KeyOfInjective(p: seq<bool>, q: seq<bool>)
    requires |p| == |q| && KeyOf(p) == KeyOf(q)
    ensures p == q
  {
    if p != [] {
      SplitLowBit(Bit(!p[0]), KeyOf(p[1..]));
      SplitLowBit(Bit(!q[0]), KeyOf(q[1..]));
      KeyOfInjective(p[1..], q[1..]);
      assert p == [p[0]] + p[1..];
      assert q == [q[0]] + q[1..];
    }
  }

  /** The key of five flags, written out bit by bit. */
  lemma KeyOfFive(present: seq<bool>)
    requires |present| == SlotCount
    ensures KeyOf(present) == Bit(!present[0]) + 2 * Bit(!present[1]) + 4 * Bit(!present[2])
                              + 8 * Bit(!present[3]) + 16 * Bit(!present[4])
  {
    var p := present;
    assert KeyOf(p[4..]) == Bit(!p[4]) by { assert p[4..][1..] == []; }
    assert KeyOf(p[3..]) == Bit(!p[3]) + 2 * KeyOf(p[4..]) by { assert p[3..][1..] == p[4..]; }
    assert KeyOf(p[2..]) == Bit(!p[2]) + 2 * KeyOf(p[3..]) by { assert p[2..][1..] == p[3..]; }
    assert KeyOf(p[1..]) == Bit(!p[1]) + 2 * KeyOf(p[2..]) by { assert p[1..][1..] == p[2..]; }
  }

  /** The number of blank slots among five flags, written out flag by flag. */
  lemma BlankCountFive(present: seq<bool>)
    requires |present| == SlotCount
    ensures BlankCount(present) == Bit(!present[0]) + Bit(!present[1]) + Bit(!present[2])
                                   + Bit(!present[3]) + Bit(!present[4])
  {
    var p := present;
    assert BlankCount(p[4..]) == Bit(!p[4]) by { assert p[4..][1..] == []; }
    assert BlankCount(p[3..]) == Bit(!p[3]) + BlankCount(p[4..]) by { assert p[3..][1..] == p[4..]; }
    assert BlankCount(p[2..]) == Bit(!p[2]) + BlankCount(p[3..]) by { assert p[2..][1..] == p[3..]; }
    assert BlankCount(p[1..]) == Bit(!p[1]) + BlankCount(p[2..]) by { assert p[1..][1..] == p[2..]; }
  }

  lemma FiveBits(k: nat, b0: nat, b1: nat, b2: nat, b3: nat, b4: nat)
    requires b0 < 2 && b1 < 2 && b2 < 2 && b3 < 2 && b4 < 2
    requires k == b0 + 2 * b1 + 4 * b2 + 8 * b3 + 16 * b4
    ensures b0 + b1 + b2 + b3 + b4 == 2 <==> k in TwoBlankKeys
  {
  }

  /** A number made of a low bit `b` and the rest `r`: its pop count is `b` plus that of `r`. */
  lemma PopCountLowBit(k: nat, b: nat, r: nat)
    requires b < 2 && k == b + 2 * r
    ensures PopCount(k) == b + PopCount(r)
  {
    SplitLowBit(b, r);
  }

  /** Among five-bit keys, exactly the ten listed ones have two bits set. */
  lemma PopCountTwo(k: nat)
    requires k < Pow2(SlotCount)
    ensures PopCount(k) == 2 <==> k in TwoBlankKeys
  {
    assert Pow2(SlotCount) == 32;
    var q1 := k / 2;
    var q2 := q1 / 2;
    var q3 := q2 / 2;
    var q4 := q3 / 2;
    PopCountLowBit(k, k % 2, q1);
    PopCountLowBit(q1, q1 % 2, q2);
    PopCountLowBit(q2, q2 % 2, q3);
    PopCountLowBit(q3, q3 % 2, q4);
    PopCountLowBit(q4, q4, 0);
    FiveBits(k, k % 2, q1 % 2, q2 % 2, q3 % 2, q4);
  }

  /** The key of five flags is one of the ten two-bit keys exactly when two slots are blank. */
  lemma TwoBlankKey(present: seq<bool>)
    requires |present| == SlotCount
    ensures KeyOf(present) < 32
    ensures KeyOf(present) in TwoBlankKeys <==> BlankCount(present) == 2
  {
    KeyOfFive(present);
    BlankCountFive(present);
    FiveBits(KeyOf(present), Bit(!present[0]), Bit(!present[1]), Bit(!present[2]), Bit(!present[3]), Bit(!present[4]));
  }

  /** The ten two-bit keys are exactly the five-bit numbers of pop count two. */
  lemma TwoBlankKeysArePopCountTwo()
    ensures TwoBlankKeys == set k: nat | k < 32 && PopCount(k) == 2
  {
    forall k: nat | k < 32 ensures PopCount(k) == 2 <==> k in TwoBlankKeys {
      PopCountTwo(k);
    }
  }

  /** The presence bitset that holds the given five flags. */
  function PresenceBits(present: seq<bool>): bv5
    requires |present| == SlotCount
  {
    (if present[0] then 1 else 0) | (if present[1] then 2 else 0) | (if present[2] then 4 else 0)
    | (if present[3] then 8 else 0) | (if present[4] then 16 else 0)
  }

  /**
   * The unknowns key of a five-bit presence bitset, as the bitset variants
   * compute it: the complement of the presence bits, masked to the low five bits.
   */
  function KeyFor(presence: bv5): bv32
  {
    !(presence as bv32) & (((1 as bv32) << SlotCount) - 1)
  }

  /** Read as a number, the key has bit i set exactly when flag i is clear: it is `KeyOf`. */
  lemma KeyForIsKeyOf(present: seq<bool>)
    requires |present| == SlotCount
    ensures KeyFor(PresenceBits(present)) as nat == KeyOf(present)
  {
    KeyOfFive(present);
  }
}
