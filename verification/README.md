# calculate-unknowns in Dafny

The repository holds five variants of one small solver. Each fills in the two
missing values of a fixed set of five numeric slots. Every variant has the
same four parts:

- a store of five values with a presence flag per slot, and `set`, `has`, `get`
  and `reset` over it;
- a record of which slots are blank;
- a fixed dispatch from each of the ten two-blank combinations to a routine
  that writes the two blank slots;
- a `calculate` that fails on any other blank pattern and otherwise runs the
  routine, which changes the store in place.

The variants differ as follows:

- **FormulaV1**: five named fields with has-value flags, an unknowns key with
  bit i set for a blank slot i, and a `switch` on that key. The routines write
  literal constants.
- **FormulaV2**: the same fields, with the switch replaced by a map from key to
  member routine, built once by the constructor.
- **FormulaV3**: a value array indexed by tag, a five-bit presence bitset, and
  a key computed as the masked complement of the bitset. Other constants.
- **FormulaV4a**: kinematics. The blank quantities are listed in enum order,
  exactly two are required, and a pair-keyed map of ten formulas is consulted.
  A formula writes through references into the values, guarded by zero and
  sign checks. Only after it succeeds are all five marked non-blank.
- **FormulaV4b**: kinematics over V3's array and bitset layout, with ten member
  routines. `get` throws on a blank slot, so a routine that reads one of its
  own unknowns throws.

How the source maps onto the model:

- **Module layout.** Each header becomes one module. `Common` holds what all
  of them share: the error kinds, a `Store` view of the five slots, and the
  reference key `KeyOf`. `Agreement` relates the variants to each other.
- **Classes.** Each class keeps the source's state:
  - V1 and V2: named fields and flags;
  - V3 and V4b: an `array<real>` plus a presence set;
  - V4a: an `array<Value>` inside `Values`.
  Its methods are proved against a specification function of the abstract
  store: `Solve` for `calculate`, and `Compute`, `Run` or `Step...` for the
  routines.
- **Outcomes.** A thrown exception becomes a `Fail` outcome, with the state
  reached at the throw. A routine that throws after a write therefore keeps
  that write.
- **Numbers.** Doubles are modelled as `real`, and `pow(x, 2)` as `x * x`.
  `std::sqrt` is a parameter `sqrt: real -> real`.

The routines of V4b are modelled as written, defects included:

- the (distance, acceleration) routine overwrites the time;
- the (time, final velocity) routine reads its own blank final velocity and
  writes the initial velocity;
- the (time, initial velocity) radicand uses vf rather than vf².

Lemmas show the consequences: two routines can never succeed, and writes stay
in place after a throw.

## Model

| member | source | states |
|---|---|---|
| Common.Store.Get | FormulaV1.h:97-102 | a checked read succeeds exactly on a present slot, returning its value, and otherwise throws `MissingValue` |
| Common.PutThenGet | FormulaV1.h:91-102 | after a setter the slot reads the new value and every other slot reads as before |
| Common.KeyOfBound | FormulaV1.h:185-188 | the unknowns key of n flags is below 2^n, so a five-slot key lies in 0..31 |
| Common.KeyOfBit | FormulaV1.h:185-188 | bit i of the key is set exactly when slot i is blank |
| Common.KeyOfPopCount | FormulaV1.h:185-188 | the key has as many one bits as there are blank slots |
| Common.KeyOfInjective | FormulaV1.h:185-188 | different presence patterns give different keys |
| Common.KeyOfFive | FormulaV1.h:187 | the recursive key equals the source's five-term sum of shifted negated flags |
| Common.PopCountTwo | FormulaV1.h:43-87 | a five-bit number has two bits set exactly when it is one of the ten switch labels |
| Common.TwoBlankKey | FormulaV1.h:43-87 | the key is one of the ten labels exactly when two slots are blank |
| Common.TwoBlankKeysArePopCountTwo | FormulaV1.h:43-87 | the ten labels are exactly the five-bit numbers of pop count two |
| Common.KeyForIsKeyOf | FormulaV3.h:53-56 | the masked complement of the presence bitset, read as a number, is the key with bit i set for a blank slot i |
| FormulaV1.Solve | FormulaV1.h:41-88 | the switch as a function of the store: it either succeeds or throws `UnrecognizedCombination` with the store unchanged |
| FormulaV1.SolveSucceedsIffTwoBlank | FormulaV1.h:43-87 | `calculate` succeeds exactly when two slots are blank; otherwise it throws `UnrecognizedCombination` and changes nothing |
| FormulaV1.SolveFillsBlanks | FormulaV1.h:45-84 | on success every slot is present, the three known slots keep their values, and the blank slots i < j receive key + 0.1 and key + 0.2 |
| FormulaV1.SolveLeavesAllPresent | FormulaV1.h:45-84 | on success no slot is blank |
| FormulaV1.FormulaV1.constructor | FormulaV1.h:32-34 | a fresh object has no flag set |
| FormulaV1.FormulaV1.Reset | FormulaV1.h:36-39 | all five flags are cleared and the values stay |
| FormulaV1.FormulaV1.SetA | FormulaV1.h:91-95 | the store after `setA` is the old store with slot a written and present |
| FormulaV1.FormulaV1.GetA | FormulaV1.h:97-102 | `getA` is the checked read of slot a |
| FormulaV1.FormulaV1.HasA | FormulaV1.h:104-107 | `hasA` is the presence flag of slot a, so it is true after `setA` and false after `reset` |
| FormulaV1.FormulaV1.SetB | FormulaV1.h:109-113 | as `SetA`, for slot b |
| FormulaV1.FormulaV1.GetB | FormulaV1.h:115-120 | as `GetA`, for slot b |
| FormulaV1.FormulaV1.HasB | FormulaV1.h:122-125 | as `HasA`, for slot b |
| FormulaV1.FormulaV1.SetC | FormulaV1.h:127-131 | as `SetA`, for slot c |
| FormulaV1.FormulaV1.GetC | FormulaV1.h:133-138 | as `GetA`, for slot c |
| FormulaV1.FormulaV1.HasC | FormulaV1.h:140-143 | as `HasA`, for slot c |
| FormulaV1.FormulaV1.SetD | FormulaV1.h:145-149 | as `SetA`, for slot d |
| FormulaV1.FormulaV1.GetD | FormulaV1.h:151-156 | as `GetA`, for slot d |
| FormulaV1.FormulaV1.HasD | FormulaV1.h:158-161 | as `HasA`, for slot d |
| FormulaV1.FormulaV1.SetE | FormulaV1.h:163-167 | as `SetA`, for slot e |
| FormulaV1.FormulaV1.GetE | FormulaV1.h:169-174 | as `GetA`, for slot e |
| FormulaV1.FormulaV1.HasE | FormulaV1.h:176-179 | as `HasA`, for slot e |
| FormulaV1.FormulaV1.UnknownsKey | FormulaV1.h:185-188 | the five-term sum equals the reference key of the current flags |
| FormulaV1.FormulaV1.Calculate | FormulaV1.h:41-88 | the outcome and the new fields and flags are those of the switch specification `Solve` on the old store |
| FormulaV1.Demo | Main.cpp:12-17 | with a, c and e set, `calculate` succeeds and b, d read 10.1 and 10.2 |
| FormulaV1.ResetThenCalculate | FormulaV1.h:36-39 | after `reset` the key is 31 and `calculate` throws |
| FormulaV2.Targets | FormulaV2.h:163-221 | the two slots a routine writes, named by its suffix, lower slot first |
| FormulaV2.Compute | FormulaV2.h:163-221 | a `compute_*` member as a function of the store: both of its target slots are present afterwards |
| FormulaV2.CreateFunctionMap | FormulaV2.h:224-238 | the map `create_function_map` builds has exactly the ten two-blank keys |
| FormulaV2.FunctionMapKeys | FormulaV2.h:224-238 | the map has exactly the ten two-blank keys, each the sum of the bits of the two slots its routine writes |
| FormulaV2.ComputeWritesTargets | FormulaV2.h:163-221 | a routine makes its two target slots present and leaves every other value and flag alone |
| FormulaV2.Solve | FormulaV2.h:44-52 | the lookup as a function of the store: it either succeeds or throws `UnrecognizedCombination` with the store unchanged |
| FormulaV2.SolveSucceedsIffTwoBlank | FormulaV2.h:44-52 | `calculate` throws, changing nothing, exactly when the key is not in the map, which is exactly when the blank count is not two |
| FormulaV2.SolveFillsBlanks | FormulaV2.h:44-52 | on success the routine run is the one for the two blank slots; every slot is then present and the known ones keep their values |
| FormulaV2.FormulaV2.constructor | FormulaV2.h:35-37 | a fresh object has no flag set and holds the map `create_function_map` builds |
| FormulaV2.FormulaV2.Reset | FormulaV2.h:39-42 | all five flags are cleared and the values stay |
| FormulaV2.FormulaV2.SetA | FormulaV2.h:56-60 | the store after `setA` is the old store with slot a written and present |
| FormulaV2.FormulaV2.GetA | FormulaV2.h:62-67 | `getA` is the checked read of slot a |
| FormulaV2.FormulaV2.HasA | FormulaV2.h:69-72 | `hasA` is the presence flag of slot a |
| FormulaV2.FormulaV2.SetB | FormulaV2.h:74-78 | as `SetA`, for slot b |
| FormulaV2.FormulaV2.GetB | FormulaV2.h:80-85 | as `GetA`, for slot b |
| FormulaV2.FormulaV2.HasB | FormulaV2.h:87-90 | as `HasA`, for slot b |
| FormulaV2.FormulaV2.SetC | FormulaV2.h:92-96 | as `SetA`, for slot c |
| FormulaV2.FormulaV2.GetC | FormulaV2.h:98-103 | as `GetA`, for slot c |
| FormulaV2.FormulaV2.HasC | FormulaV2.h:105-108 | as `HasA`, for slot c |
| FormulaV2.FormulaV2.SetD | FormulaV2.h:110-114 | as `SetA`, for slot d |
| FormulaV2.FormulaV2.GetD | FormulaV2.h:116-121 | as `GetA`, for slot d |
| FormulaV2.FormulaV2.HasD | FormulaV2.h:123-126 | as `HasA`, for slot d |
| FormulaV2.FormulaV2.SetE | FormulaV2.h:128-132 | as `SetA`, for slot e |
| FormulaV2.FormulaV2.GetE | FormulaV2.h:134-139 | as `GetA`, for slot e |
| FormulaV2.FormulaV2.HasE | FormulaV2.h:141-144 | as `HasA`, for slot e |
| FormulaV2.FormulaV2.UnknownsKey | FormulaV2.h:150-153 | the five-term sum equals the reference key of the current flags |
| FormulaV2.FormulaV2.Apply | FormulaV2.h:163-221 | running a `compute_*` member changes the store as the routine's specification `Compute` says |
| FormulaV2.FormulaV2.Calculate | FormulaV2.h:44-52 | the outcome and new state are those of the map lookup specification `Solve` on the old store |
| FormulaV2.Demo | Main.cpp:19-24 | with a, c and e set, `calculate` succeeds and b, d read 10.1 and 10.2 |
| FormulaV3.FunctionMapLiteral | FormulaV3.h:67-85 | the keys `as_bit(x) \| as_bit(y)` evaluate to 3, 5, 9, 17, 6, 10, 18, 12, 20 and 24 |
| FormulaV3.Compute | FormulaV3.h:87-96 | a `compute_*` member as a function of the store: both of its target tags are present afterwards |
| FormulaV3.FunctionMapKeys | FormulaV3.h:67-85 | the map has exactly the ten two-blank keys, one per pair of tags x < y, each keyed by the two tags' bits |
| FormulaV3.KeyForInMap | FormulaV3.h:53-56 | the key of the presence bits is in the map exactly when two tags are absent |
| FormulaV3.KeyForBits | FormulaV3.h:53-56 | bit `as_bit(t)` of the key is set exactly when tag t is absent |
| FormulaV3.ComputeWritesTargets | FormulaV3.h:87-96 | each `compute_xy` sets exactly tags x and y and leaves every other value and flag alone |
| FormulaV3.Solve | FormulaV3.h:27-35 | the lookup as a function of the store: it either succeeds or throws `UnrecognizedCombination` with the store unchanged |
| FormulaV3.SolveSucceedsIffTwoBlank | FormulaV3.h:27-35 | `calculate` succeeds exactly when two tags are absent; otherwise it throws and changes nothing |
| FormulaV3.BlankTargets | FormulaV3.h:67-85 | the routine the map holds for a key names exactly the absent tags of that key |
| FormulaV3.SolveFillsBlanks | FormulaV3.h:27-35 | on success the routine run is the one for the two absent tags; every tag is then present and the known ones keep their values |
| FormulaV3.SolveLeavesAllPresent | FormulaV3.h:27-35 | on success no tag is absent |
| FormulaV3.FormulaV3.constructor | FormulaV3.h:22-25 | a fresh object has no presence bit set and holds the map `create_function_map` builds |
| FormulaV3.FormulaV3.Set | FormulaV3.h:37-41 | `set` writes `_values[t]` and sets `_presence[t]`; no other index changes |
| FormulaV3.FormulaV3.Has | FormulaV3.h:43-46 | `has(t)` is the presence flag of t's slot, so it is true after `set(t, v)` |
| FormulaV3.FormulaV3.Get | FormulaV3.h:48-51 | `get` is the checked read: the value when present, otherwise a throw |
| FormulaV3.FormulaV3.UnknownsKey | FormulaV3.h:53-56 | the masked complement of the presence bits is the reference key of the current flags |
| FormulaV3.FormulaV3.Apply | FormulaV3.h:87-96 | running a `compute_*` member changes the store as the routine's specification `Compute` says |
| FormulaV3.FormulaV3.Calculate | FormulaV3.h:27-35 | the outcome and new state are those of the map lookup specification `Solve` on the old store |
| FormulaV3.Demo | Main.cpp:26-31 | with b, c and d set, `calculate` succeeds and a, e read 4.1 and 4.2 |
| FormulaV3.SolveBlankAE | FormulaV3.h:27-35 | with only a and e blank, `calculate` succeeds and a, e read 4.1 and 4.2 |
| FormulaV3.FreshCalculate | FormulaV3.h:22-35 | a fresh object has key 31, so `calculate` throws |
| FormulaV4a.IdOf | FormulaV4a.h:83-89 | `static_cast<ValueId>(i)` is the quantity whose index is i |
| FormulaV4a.Unknowns | FormulaV4a.h:234-349 | the pair a formula solves for is in strictly increasing enum order |
| FormulaV4a.WithDistance | FormulaV4a.h:201-204 | `calculate_distance` changes the distance and no other quantity |
| FormulaV4a.WithTime | FormulaV4a.h:206-224 | `calculate_time` succeeds exactly when acceleration or final velocity is non-zero, otherwise throws a domain error changing nothing, and changes no quantity but the time |
| FormulaV4a.InitFormulas | FormulaV4a.h:234-349 | every formula in the map is stored under the pair it solves for |
| FormulaV4a.Run | FormulaV4a.h:234-349 | a formula either succeeds or throws a domain error, nothing else |
| FormulaV4a.RunFailsOnlyOnGuards | FormulaV4a.h:234-349 | every formula succeeds exactly when its zero and sign guards (and `calculate_time`'s test) pass, and otherwise throws only a domain error |
| FormulaV4a.WithTimeVelocity | FormulaV4a.h:206-224 | `calculate_time` with non-zero acceleration succeeds and leaves vf = vi + a t |
| FormulaV4a.WithDistanceKinematics | FormulaV4a.h:201-204 | `calculate_distance` after a velocity satisfying vf = vi + a t leaves both kinematic relations true |
| FormulaV4a.SquaresDistanceRelation | FormulaV4a.h:206-224 | with a non-zero acceleration, vf = vi + a t together with vf^2 - vi^2 = 2 a d gives d = vi t + a t^2 / 2 |
| FormulaV4a.WithTimeFromSquares | FormulaV4a.h:206-224 | `calculate_time` after values with vf^2 - vi^2 = 2 a d and non-zero acceleration succeeds and leaves both relations true |
| FormulaV4a.KinematicsDistanceTime | FormulaV4a.h:239-248 | on success the (distance, time) formula leaves both relations true |
| FormulaV4a.KinematicsDistanceInitialVelocity | FormulaV4a.h:249-254 | the (distance, initial_velocity) formula leaves both relations true |
| FormulaV4a.KinematicsDistanceFinalVelocity | FormulaV4a.h:255-260 | the (distance, final_velocity) formula leaves both relations true |
| FormulaV4a.KinematicsDistanceAcceleration | FormulaV4a.h:261-270 | on success the (distance, acceleration) formula leaves both relations true |
| FormulaV4a.KinematicsTimeInitialVelocity | FormulaV4a.h:273-283 | on success with non-zero acceleration, the (time, initial_velocity) formula leaves vf = vi + a t, and when `sqrt` is a square root also d = vi t + a t^2 / 2 |
| FormulaV4a.KinematicsTimeFinalVelocity | FormulaV4a.h:284-294 | on success with non-zero acceleration, the (time, final_velocity) formula leaves vf = vi + a t, and when `sqrt` is a square root also d = vi t + a t^2 / 2 |
| FormulaV4a.KinematicsTimeAcceleration | FormulaV4a.h:295-304 | on success with a non-zero computed acceleration, the (time, acceleration) formula leaves both relations true, whatever `sqrt` is |
| FormulaV4a.KinematicsInitialVelocityFinalVelocity | FormulaV4a.h:307-316 | on success the (initial_velocity, final_velocity) formula leaves both relations true |
| FormulaV4a.KinematicsInitialVelocityAcceleration | FormulaV4a.h:317-330 | on success the (initial_velocity, acceleration) formula leaves both relations true |
| FormulaV4a.KinematicsFinalVelocityAcceleration | FormulaV4a.h:333-346 | on success the (final_velocity, acceleration) formula leaves both relations true |
| FormulaV4a.RunSatisfiesKinematics | FormulaV4a.h:234-349 | on success every formula but the three time formulas leaves both relations true; with a non-zero final acceleration the time formulas leave the velocity relation true, and the distance relation too when `sqrt` is a square root (for (time, acceleration), always) |
| FormulaV4a.RunWritesOnlyUnknowns | FormulaV4a.h:234-349 | a formula changes no quantity other than its two unknowns, whether it succeeds or throws |
| FormulaV4a.FormulaForPair | FormulaV4a.h:234-349 | the map holds (x, y) exactly when x comes before y in enum order, and then under the formula for that pair |
| FormulaV4a.BlankBelow | FormulaV4a.h:80-89 | the collected list has at most as many entries as quantities scanned |
| FormulaV4a.BlankBelowFacts | FormulaV4a.h:80-89 | the collected list holds every blank quantity, only blank ones, in strictly increasing enum order |
| FormulaV4a.BlankBelowFive | FormulaV4a.h:80-89 | the list collected by the loop, written out flag by flag |
| FormulaV4a.BlankListLength | FormulaV4a.h:80-89 | the list has as many entries as there are blank quantities |
| FormulaV4a.PairIsRegistered | FormulaV4a.h:101-106 | with exactly two blanks the pair looked up is registered, under the formula for those two blanks |
| FormulaV4a.Solve | FormulaV4a.h:78-117 | `calculate` as a function of the store: on success all five are non-blank, on a throw the blank flags are as they were |
| FormulaV4a.SolveChecksBlankCount | FormulaV4a.h:91-106 | `calculate` throws too-many exactly when more than two are blank and too-few exactly when fewer than two are, changing nothing, and never reaches "did not find" |
| FormulaV4a.SolveWritesOnlyBlanks | FormulaV4a.h:107-116 | on success all five are non-blank and the known ones keep their numbers; on a throw the blank flags are unchanged; known numbers never change |
| FormulaV4a.Values.constructor | FormulaV4a.h:122-124 | every entry starts as 0.0 and blank |
| FormulaV4a.Values.Set | FormulaV4a.h:133-138 | `set` writes one number and clears its blank flag; nothing else changes |
| FormulaV4a.Values.Get | FormulaV4a.h:140-143 | `get` returns the stored number whether or not the quantity is blank |
| FormulaV4a.Values.Assign | FormulaV4a.h:145-148 | an assignment through `at` changes the number only, never a blank flag |
| FormulaV4a.Values.IsBlank | FormulaV4a.h:150-153 | `is_blank` is the negated presence of the quantity |
| FormulaV4a.Values.CalculateDistance | FormulaV4a.h:201-204 | the numbers become `WithDistance` of the old ones; flags unchanged |
| FormulaV4a.Values.CalculateTime | FormulaV4a.h:206-224 | the outcome and numbers are `WithTime` of the old numbers; flags unchanged |
| FormulaV4a.RunDistanceTime | FormulaV4a.h:239-248 | the lambda ends as the specification `Run` says, flags unchanged |
| FormulaV4a.DistanceInitialVelocityStep | FormulaV4a.h:249-254 | the (distance, initial_velocity) formula always succeeds, writing vi = vf - a t and then the distance |
| FormulaV4a.RunDistanceInitialVelocity | FormulaV4a.h:249-254 | the lambda ends as the specification `Run` says, flags unchanged |
| FormulaV4a.DistanceFinalVelocityStep | FormulaV4a.h:255-260 | the (distance, final_velocity) formula always succeeds, writing vf = vi + a t and then the distance |
| FormulaV4a.RunDistanceFinalVelocity | FormulaV4a.h:255-260 | the lambda ends as the specification `Run` says, flags unchanged |
| FormulaV4a.RunDistanceAcceleration | FormulaV4a.h:261-270 | the lambda ends as the specification `Run` says, flags unchanged |
| FormulaV4a.RunTimeInitialVelocity | FormulaV4a.h:273-283 | the lambda ends as the specification `Run` says, flags unchanged |
| FormulaV4a.RunTimeFinalVelocity | FormulaV4a.h:284-294 | the lambda ends as the specification `Run` says, flags unchanged |
| FormulaV4a.RunTimeAcceleration | FormulaV4a.h:295-304 | the lambda ends as the specification `Run` says, flags unchanged |
| FormulaV4a.RunInitialVelocityFinalVelocity | FormulaV4a.h:307-316 | the lambda ends as the specification `Run` says, flags unchanged |
| FormulaV4a.RunInitialVelocityAcceleration | FormulaV4a.h:317-330 | the lambda ends as the specification `Run` says, flags unchanged |
| FormulaV4a.RunFinalVelocityAcceleration | FormulaV4a.h:333-346 | the lambda ends as the specification `Run` says, flags unchanged |
| FormulaV4a.RunFormula | FormulaV4a.h:107-110 | calling the formula found ends as `Run` says, flags unchanged |
| FormulaV4a.FormulaV4a.constructor | FormulaV4a.h:55-57 | a fresh object has every quantity 0.0 and blank |
| FormulaV4a.FormulaV4a.Reset | FormulaV4a.h:59-66 | every quantity becomes blank with number 0.0 |
| FormulaV4a.FormulaV4a.Set | FormulaV4a.h:68-71 | one quantity is written and marked non-blank; nothing else changes |
| FormulaV4a.FormulaV4a.Get | FormulaV4a.h:73-76 | the stored number, blank or not |
| FormulaV4a.FormulaV4a.Calculate | FormulaV4a.h:78-117 | the outcome and new state are those of the specification `Solve` on the old store |
| FormulaV4a.InitialVelocityWrittenBeforeSignCheck | FormulaV4a.h:317-330 | when 2d/t - vf is negative, `calculate` throws with that number left in the initial velocity and both flags still blank |
| FormulaV4a.NegativeInitialVelocityKept | FormulaV4a.h:317-330 | the (initial_velocity, acceleration) formula with a negative 2d/t - vf writes that number and then throws a domain error |
| FormulaV4a.InitialVelocityWrittenBeforeTimeCheck | FormulaV4a.h:273-283 | with acceleration and final velocity zero, `calculate` throws from `calculate_time` with sqrt(0) left in the initial velocity and the flags unchanged |
| FormulaV4a.DistanceInitialVelocityAlwaysSucceeds | FormulaV4a.h:249-254 | with distance and initial velocity blank, `calculate` succeeds, keeps the known numbers and leaves both relations true |
| FormulaV4a.Demo | Main.cpp:33-38 | with acceleration 1.3, final velocity 8.7 and time 38.351 set, `calculate` succeeds, keeps those three, and the result obeys both relations |
| FormulaV4b.FunctionMapLiteral | FormulaV4b.h:83-102 | the keys `as_bit(x) \| as_bit(y)` evaluate to the ten two-bit numbers |
| FormulaV4b.FunctionMapKeys | FormulaV4b.h:83-102 | the map has exactly the ten two-blank keys, one per pair of tags x < y, each keyed by the two tags' bits |
| FormulaV4b.KeyForInMap | FormulaV4b.h:63-70 | the key of the presence bits is in the map exactly when two tags are unset |
| FormulaV4b.BlankTargets | FormulaV4b.h:83-102 | the routine the map holds for a key is registered for exactly the unset tags of that key |
| FormulaV4b.DistanceUsingTimeInitvelAcc | FormulaV4b.h:105-109 | the helper returns a value exactly when vi, t and a are set, and otherwise throws the missing-value error |
| FormulaV4b.DistanceUsingTimeInitvelAccRelation | FormulaV4b.h:105-109 | the distance the helper computes, once stored, satisfies d = vi t + a t^2 / 2 |
| FormulaV4b.TimeUsingVelAccOrDist | FormulaV4b.h:111-119 | throws the domain error exactly when a and vf are both set and zero; otherwise a t = vf - vi for non-zero a, and vf t = d for zero a |
| FormulaV4b.StepDistanceTime | FormulaV4b.h:122-128 | `compute_distance_time` as a function of the store, its reads, guards and writes in order; it yields a valid store, and what it does on its own pattern is stated by `DistanceTimeOnItsBlanks` |
| FormulaV4b.StepDistanceInitialVelocity | FormulaV4b.h:130-134 | `compute_distance_initial_velocity` as a function of the store, its reads, guards and writes in order; it yields a valid store, and what it does on its own pattern is stated by `DistanceInitialVelocityOnItsBlanks` |
| FormulaV4b.StepDistanceFinalVelocity | FormulaV4b.h:136-140 | `compute_distance_final_velocity` as a function of the store, its reads, guards and writes in order; it yields a valid store, and what it does on its own pattern is stated by `DistanceFinalVelocityOnItsBlanks` |
| FormulaV4b.StepDistanceAcceleration | FormulaV4b.h:142-148 | `compute_distance_acceleration` as a function of the store, its reads, guards and writes in order; it yields a valid store, and what it does on its own pattern is stated by `DistanceAccelerationOnItsBlanks` |
| FormulaV4b.StepTimeInitialVelocity | FormulaV4b.h:150-157 | `compute_time_initial_velocity` as a function of the store, its reads, guards and writes in order; it yields a valid store, and what it does on its own pattern is stated by `TimeInitialVelocityOnItsBlanks` |
| FormulaV4b.StepTimeFinalVelocity | FormulaV4b.h:159-166 | `compute_time_final_velocity` as a function of the store, its reads, guards and writes in order; it yields a valid store, and what it does on its own pattern is stated by `TimeFinalVelocityOnItsBlanks` |
| FormulaV4b.StepTimeAcceleration | FormulaV4b.h:168-172 | `compute_time_acceleration` as a function of the store, its reads, guards and writes in order; it yields a valid store, and what it does on its own pattern is stated by `TimeAccelerationOnItsBlanks` |
| FormulaV4b.StepInitialVelocityFinalVelocity | FormulaV4b.h:174-180 | `compute_initial_velocity_final_velocity` as a function of the store, its reads, guards and writes in order; it yields a valid store, and what it does on its own pattern is stated by `InitialVelocityFinalVelocityOnItsBlanks` |
| FormulaV4b.StepInitialVelocityAcceleration | FormulaV4b.h:182-190 | `compute_initial_velocity_acceleration` as a function of the store, its reads, guards and writes in order; it yields a valid store, and what it does on its own pattern is stated by `InitialVelocityAccelerationOnItsBlanks` |
| FormulaV4b.StepFinalVelocityAcceleration | FormulaV4b.h:192-200 | `compute_final_velocity_acceleration` as a function of the store, its reads, guards and writes in order; it yields a valid store, and what it does on its own pattern is stated by `FinalVelocityAccelerationOnItsBlanks` |
| FormulaV4b.Compute | FormulaV4b.h:122-200 | running a routine: on success both variables it is registered for are present |
| FormulaV4b.Solve | FormulaV4b.h:30-38 | `calculate` as a function of the store, yielding a valid store; its behaviour is stated by `SolveRejectsUnlessTwoBlank` and `SolveDispatches` |
| FormulaV4b.SolveRejectsUnlessTwoBlank | FormulaV4b.h:30-38 | `calculate` throws `UnrecognizedCombination` exactly when the blank count is not two, and then changes nothing |
| FormulaV4b.ComputeNeverUnrecognized | FormulaV4b.h:122-200 | no routine throws the unrecognized-combination error |
| FormulaV4b.SolveRunsRegisteredRoutine | FormulaV4b.h:30-38 | with two blanks, `calculate` runs the routine registered for exactly those two |
| FormulaV4b.PatternKey | FormulaV4b.h:83-102 | each routine's blank pattern has two blanks and its key names that routine |
| FormulaV4b.SolveOnPattern | FormulaV4b.h:30-38 | on a routine's own blank pattern, `calculate` runs that routine |
| FormulaV4b.SolveDispatches | FormulaV4b.h:30-38 | `calculate` runs exactly the routine registered for the two blank tags |
| FormulaV4b.DistanceTimeOnItsBlanks | FormulaV4b.h:122-128 | on its own pattern the routine succeeds exactly when a != 0, then completing the store |
| FormulaV4b.DistanceInitialVelocityOnItsBlanks | FormulaV4b.h:130-134 | on its own pattern the routine always succeeds and completes the store |
| FormulaV4b.DistanceFinalVelocityOnItsBlanks | FormulaV4b.h:136-140 | on its own pattern the routine always succeeds and completes the store |
| FormulaV4b.DistanceAccelerationOnItsBlanks | FormulaV4b.h:142-148 | on its own pattern the routine never succeeds: a domain error for t = 0, otherwise a missing value |
| FormulaV4b.TimeInitialVelocityOnItsBlanks | FormulaV4b.h:150-157 | on its own pattern the routine succeeds exactly when its radicand is non-negative and a, vf are not both zero |
| FormulaV4b.TimeFinalVelocityOnItsBlanks | FormulaV4b.h:159-166 | on its own pattern the routine never succeeds: it throws a missing value |
| FormulaV4b.TimeAccelerationOnItsBlanks | FormulaV4b.h:168-172 | on its own pattern the routine stops on zero distance, and otherwise succeeds unless the computed a and vf are both zero |
| FormulaV4b.InitialVelocityFinalVelocityOnItsBlanks | FormulaV4b.h:174-180 | on its own pattern the routine succeeds exactly when t != 0 |
| FormulaV4b.InitialVelocityAccelerationOnItsBlanks | FormulaV4b.h:182-190 | on its own pattern the routine succeeds exactly when t != 0 and 2d/t - vf != 0 |
| FormulaV4b.FinalVelocityAccelerationOnItsBlanks | FormulaV4b.h:192-200 | on its own pattern the routine succeeds exactly when t != 0 and 2d/t - vi != 0 |
| FormulaV4b.ComputeOnItsBlanks | FormulaV4b.h:122-200 | every routine on its own pattern succeeds exactly when admissible, then completing the store, and throws only the errors listed for it |
| FormulaV4b.DistanceAccelerationNeverSucceeds | FormulaV4b.h:142-148 | with distance and acceleration blank, `calculate` throws: unchanged for t = 0, otherwise with the time overwritten by (vf - vi) / t |
| FormulaV4b.TimeFinalVelocityNeverSucceeds | FormulaV4b.h:159-166 | with time and final velocity blank, `calculate` throws a missing value and changes nothing |
| FormulaV4b.ZeroInitialVelocityIsKept | FormulaV4b.h:182-190 | when 2d/t - vf is zero, the throw leaves the initial velocity present with value zero |
| FormulaV4b.ZeroFinalVelocityIsKept | FormulaV4b.h:192-200 | when 2d/t - vi is zero, the throw leaves the final velocity present with value zero |
| FormulaV4b.InitialVelocityKeptWhenTimeFails | FormulaV4b.h:150-157 | with a and vf zero, the time helper throws and the stored sqrt(0) stays present in the initial velocity |
| FormulaV4b.KinematicsDistanceTime | FormulaV4b.h:122-128 | on success the (distance, time) routine leaves both relations true |
| FormulaV4b.KinematicsDistanceInitialVelocity | FormulaV4b.h:130-134 | the (distance, initial_velocity) routine leaves both relations true |
| FormulaV4b.KinematicsDistanceFinalVelocity | FormulaV4b.h:136-140 | the (distance, final_velocity) routine leaves both relations true |
| FormulaV4b.KinematicsInitialVelocityFinalVelocity | FormulaV4b.h:174-180 | on success the (initial_velocity, final_velocity) routine leaves both relations true |
| FormulaV4b.KinematicsInitialVelocityAcceleration | FormulaV4b.h:182-190 | on success the (initial_velocity, acceleration) routine leaves both relations true |
| FormulaV4b.KinematicsFinalVelocityAcceleration | FormulaV4b.h:192-200 | on success the (final_velocity, acceleration) routine leaves both relations true |
| FormulaV4b.KinematicsTimeInitialVelocity | FormulaV4b.h:150-157 | on success with non-zero acceleration, the routine leaves vf = vi + a t |
| FormulaV4b.KinematicsTimeAcceleration | FormulaV4b.h:168-172 | on success with non-zero computed acceleration, the routine leaves both relations true |
| FormulaV4b.DistanceInitialVelocityAlwaysSucceeds | FormulaV4b.h:130-134 | with distance and initial velocity blank, `calculate` succeeds, keeps the known values and leaves both relations true |
| FormulaV4b.ComputeSatisfiesKinematics | FormulaV4b.h:122-200 | on success the non-time routines leave both relations true; with a non-zero final acceleration the time routines leave the velocity relation true, and (time, acceleration) the distance relation too |
| FormulaV4b.FormulaV4b.constructor | FormulaV4b.h:24-27 | a fresh object has no presence bit set and holds the map `create_function_map` builds |
| FormulaV4b.FormulaV4b.Reset | FormulaV4b.h:41-44 | every presence bit is cleared and the values stay |
| FormulaV4b.FormulaV4b.Set | FormulaV4b.h:46-50 | one value is written and its presence bit set; nothing else changes |
| FormulaV4b.FormulaV4b.Get | FormulaV4b.h:57-60 | `get` is the checked read: the value when present, otherwise a throw |
| FormulaV4b.FormulaV4b.Has | FormulaV4b.h:52-55 | `has(t)` is the presence flag of t's slot, so it is true after `set(t, v)` and false after `reset` |
| FormulaV4b.FormulaV4b.UnknownsKey | FormulaV4b.h:63-70 | the masked complement of the presence bits is the reference key of the current flags |
| FormulaV4b.FormulaV4b.ComputeDistanceTime | FormulaV4b.h:122-128 | the member routine ends as its specification `StepDistanceTime` says |
| FormulaV4b.FormulaV4b.ComputeDistanceInitialVelocity | FormulaV4b.h:130-134 | the member routine ends as its specification `StepDistanceInitialVelocity` says |
| FormulaV4b.FormulaV4b.ComputeDistanceFinalVelocity | FormulaV4b.h:136-140 | the member routine ends as its specification `StepDistanceFinalVelocity` says |
| FormulaV4b.FormulaV4b.ComputeDistanceAcceleration | FormulaV4b.h:142-148 | the member routine ends as its specification `StepDistanceAcceleration` says |
| FormulaV4b.FormulaV4b.ComputeTimeInitialVelocity | FormulaV4b.h:150-157 | the member routine ends as its specification `StepTimeInitialVelocity` says |
| FormulaV4b.FormulaV4b.ComputeTimeFinalVelocity | FormulaV4b.h:159-166 | the member routine ends as its specification `StepTimeFinalVelocity` says |
| FormulaV4b.FormulaV4b.ComputeTimeAcceleration | FormulaV4b.h:168-172 | the member routine ends as its specification `StepTimeAcceleration` says |
| FormulaV4b.FormulaV4b.ComputeInitialVelocityFinalVelocity | FormulaV4b.h:174-180 | the member routine ends as its specification `StepInitialVelocityFinalVelocity` says |
| FormulaV4b.FormulaV4b.ComputeInitialVelocityAcceleration | FormulaV4b.h:182-190 | the member routine ends as its specification `StepInitialVelocityAcceleration` says |
| FormulaV4b.FormulaV4b.ComputeFinalVelocityAcceleration | FormulaV4b.h:192-200 | the member routine ends as its specification `StepFinalVelocityAcceleration` says |
| FormulaV4b.FormulaV4b.Apply | FormulaV4b.h:37 | calling the routine the map holds ends as `Compute` says |
| FormulaV4b.FormulaV4b.Calculate | FormulaV4b.h:30-38 | the outcome and new state are those of the specification `Solve` on the old store |
| FormulaV4b.Demo | Main.cpp:40-46 | with acceleration 1.3, final velocity 8.7 and time 38.351 set, `calculate` succeeds, every variable becomes readable, and the values obey both relations |
| Agreement.MapMatchesSwitch | FormulaV2.h:44-52 | FormulaV2's map lookup does on every store exactly what FormulaV1's switch does |
| Agreement.BitsetMatchesFlags | FormulaV3.h:27-35 | FormulaV3 succeeds and throws on the same stores as FormulaV1 and leaves the same slots present |
| Agreement.MapsShareKeys | FormulaV4b.h:83-102 | the maps of V2, V3 and V4b have the same keys: the five-bit numbers of pop count two |
| Agreement.KinematicsVariantsRejectAlike | FormulaV4b.h:30-38 | FormulaV4b rejects a blank pattern exactly when FormulaV4a's count checks do |
| Agreement.DistanceTimeDetermined | FormulaV4a.h:239-248 | given vi, vf and a non-zero a, the two relations fix t and d |
| Agreement.DistanceInitialVelocityDetermined | FormulaV4a.h:249-254 | given t, vf and a, the two relations fix vi and d |
| Agreement.DistanceFinalVelocityDetermined | FormulaV4a.h:255-260 | given t, vi and a, the two relations fix vf and d |
| Agreement.VelocitiesDetermined | FormulaV4a.h:307-316 | given d, a non-zero t and a, the two relations fix vi and vf |
| Agreement.FormulaV4aDistanceTime | FormulaV4a.h:239-248 | FormulaV4a on the (distance, time) pattern fails only for a = 0, changing nothing, and otherwise completes the store obeying both relations |
| Agreement.FormulaV4aDistanceFinalVelocity | FormulaV4a.h:255-260 | FormulaV4a on the (distance, final_velocity) pattern always completes the store obeying both relations |
| Agreement.FormulaV4aInitialVelocityFinalVelocity | FormulaV4a.h:307-316 | FormulaV4a on the (initial_velocity, final_velocity) pattern fails only for t = 0, changing nothing, and otherwise completes the store obeying both relations |
| Agreement.FormulaV4bDistanceTime | FormulaV4b.h:122-128 | FormulaV4b on the (distance, time) pattern fails only for a = 0, changing nothing, and otherwise completes the store obeying both relations |
| Agreement.FormulaV4bDistanceFinalVelocity | FormulaV4b.h:136-140 | FormulaV4b on the (distance, final_velocity) pattern always completes the store obeying both relations |
| Agreement.FormulaV4bInitialVelocityFinalVelocity | FormulaV4b.h:174-180 | FormulaV4b on the (initial_velocity, final_velocity) pattern fails only for t = 0, changing nothing, and otherwise completes the store obeying both relations |
| Agreement.DistanceTimeAgrees | FormulaV4b.h:122-128 | on the (distance, time) pattern V4a and V4b end with the same outcome and the same store |
| Agreement.DistanceInitialVelocityAgrees | FormulaV4b.h:130-134 | on the (distance, initial_velocity) pattern V4a and V4b end with the same outcome and the same store |
| Agreement.DistanceFinalVelocityAgrees | FormulaV4b.h:136-140 | on the (distance, final_velocity) pattern V4a and V4b end with the same outcome and the same store |
| Agreement.InitialVelocityFinalVelocityAgrees | FormulaV4b.h:174-180 | on the (initial_velocity, final_velocity) pattern V4a and V4b end with the same outcome and the same store |

## Left out

- Floating point: values are exact `real`s, so rounding, overflow, NaN and infinity are not modelled, and `pow(x, 2)` is `x * x`.
- `std::sqrt` is a parameter `sqrt: real -> real`. No lemma requires anything of it. The distance relation after the V4a (time, initial_velocity) and (time, final_velocity) formulas is claimed only under the hypothesis `IsSqrt(sqrt)`: a non-negative root whose square is its argument. Everywhere else a stored root is the term `sqrt(x)`.
- FormulaV4b.StepTimeAcceleration: the division by 2 d at FormulaV4b.h:170 is unguarded. With d = 0 the C++ code stores an infinity or NaN and carries on; the model stops with `NonFinite` instead.
- Exception classes and their message texts are not modelled; only the kind of error is kept. FormulaV4b.h throws `FormulaV4aException` in four places, which the model treats as the same `DomainError` kind as FormulaV4b's own guards.
- Main.cpp's printing is left out; its scenarios are the `Demo` methods.
- `std::bind` and `std::function` are replaced by a map from key to a routine identifier and a method that matches on it.
- The `std::hash` specialisation for a pair of `ValueId`s is replaced by a map keyed by pairs.
- `std::array::at`'s range check is left out: every index used is in range.
- The values of a fresh FormulaV1, V2, V3 or V4b are uninitialised in C++; the model leaves them unconstrained, and they cannot be read before a `set`.
- FormulaV4a.WithTime: the second zero test on acceleration in `calculate_time` (FormulaV4a.h:218-221) sits in the branch where acceleration is non-zero. It can never fire, so it is not modelled.
- FormulaV4a.RunSatisfiesKinematics: for the three time formulas nothing is claimed when the final acceleration is zero. `calculate_time` then sets t = d / vf, and the relations hold only if vi = vf, which these formulas do not ensure. For example, (time, acceleration) with vi = -vf and d != 0 computes a = 0 and ends with vf != vi. With non-zero acceleration, the distance relation for (time, initial_velocity) and (time, final_velocity) is claimed only when `sqrt` is a square root.
- FormulaV4b.ComputeSatisfiesKinematics: the same zero-acceleration limit applies to the time routines. (time, final_velocity) never succeeds. (time, initial_velocity) gets only the velocity relation, because of its unsquared radicand.
- FormulaV4b.StepTimeInitialVelocity: the radicand is vf - 2 a d, with vf unsquared, as written at FormulaV4b.h:152. No kinematic distance relation is claimed for it.
- FormulaV4b.FormulaV4b.Set: the presence `std::bitset<5>` is held as a sequence of five flags, read back as a bitset by `PresenceBits` for the key. FormulaV3 keeps a `bv5`.
- Agreement.DistanceTimeAgrees: V4a and V4b are proved to end alike on four of the ten blank pairs:
  - (distance, time);
  - (distance, initial_velocity);
  - (distance, final_velocity);
  - (initial_velocity, final_velocity).
  The other pairs genuinely differ between the variants, through V4b's defects and its different guards, or would need a unique square root, which the `sqrt` parameter does not give.
