# Matchmaker map/sort/reduce core, modelled in Dafny

This project models the serial matchmaker in `matchmaker_serial.cpp`. A user
profile is scored against a pool of candidate profiles. The score is the
number of the four preference codes (political view, children preference,
monogamy, serious dating) on which the two profiles agree. An `MR` object
then maps the pool to `(score, name)` pairs and sorts them by score,
greatest first. Its `run` reports one best pair, or the sentinel
`(-1, "No suitable match found.")`.

Files:

- `matchmaker.dfy`, module `Matchmaker`: the `Profile` and `Pair` records,
  the preference-code constants, the scorer `CalculateCompatibility`, and the
  sort's ordering `Compare`. `CountEqual` is an independent reference
  definition of "number of agreeing attributes".
- `mapreduce.dfy`, module `MapReduce`: class `MR` with the `profiles` it was
  built with and the two vectors `pairs` and `results` as `seq<Pair>` fields.
  Its methods are `Map`, `DoSort` (with its helper `Swap`), `SortPairs` (the
  call `do_sort(pairs)`), `Reduce`, `BestMatch` (the scan loop of `run`) and
  `Run`. The module also holds the specification functions and predicates
  (`MapPairs`, `MaxKey`, `Joined`, `SortedDesc`, and `ScoreKeys`, on which
  the object invariant `Valid()` is built), the lemmas about them, and a
  client that runs the three-candidate example.

How the code is modelled:

- `do_sort` calls `std::sort`, whose algorithm is unspecified and not
  stable. `DoSort` is an in-place selection sort on an array. Its contract
  promises only what `std::sort` promises: the result is a permutation of the
  input, and its keys do not increase. `Run` copies `pairs` into an array,
  sorts it, and writes the sorted contents back (`SortPairs`).
- The scan loop in `run` is the method `BestMatch`. `Run` calls it.
  `BestMatch` requires that no key is -1, because the code uses -1 to mean
  "nothing seen yet". The object invariant `Valid()` says every key in
  `pairs` is a score from 0 to 4, so every call from `Run` meets it.
- `Reduce` takes an `int` index, as the code does. The code compares that
  index against an unsigned size, so a negative index behaves like a huge
  one: the loop does not run and the index is returned unchanged.

Behaviour of the code that the model keeps as it is:

- `std::sort` is not stable, so pairs with equal scores have no fixed order
  after `do_sort`.
- `run` reports one name, not every tied name. It takes the first pair with
  the top score in scan order, which is `pairs[0]` after the sort. `Reduce`,
  which collects a run of tied names, is defined but never called.
- `pairs` and `results` are never cleared, so `run` is not idempotent. Each
  call appends the pool's pairs again and appends one more report, and the
  reported score can only rise over repeated calls (`Run`, `MaxKeyOfAppend`,
  `ExampleRepeatedRun`).
- `run` takes `minCompatibilityScore` (`main` passes 3, matchmaker_serial.cpp:103)
  but never reads it; the model ignores it too.

## Model

| member | source | states |
|---|---|---|
| Matchmaker.CalculateCompatibility | matchmaker_serial.cpp:191-198 | the score is between 0 and 4; it is 4 exactly when all four codes agree and 0 exactly when none do |
| Matchmaker.CompatibilityCountsEqualAttributes | matchmaker_serial.cpp:191-198 | the score equals the number of positions at which the two four-code lists agree |
| Matchmaker.CountEqualBounded | matchmaker_serial.cpp:191-198 | the agreement count is at most the list length; it reaches the length exactly when the lists are equal, and it is 0 exactly when they differ everywhere |
| Matchmaker.CountEqualSymmetric | matchmaker_serial.cpp:191-198 | counting agreements does not depend on argument order |
| Matchmaker.CompatibilitySymmetric | matchmaker_serial.cpp:191-198 | score(user, other) == score(other, user) |
| Matchmaker.CompatibilityWithSameCodes | matchmaker_serial.cpp:191-198 | a profile scored against any profile with the same four codes gets 4 |
| Matchmaker.CompatibilityWithSelf | matchmaker_serial.cpp:191-198 | a profile scored against itself gets 4 |
| Matchmaker.Compare | matchmaker_serial.cpp:207-209 | true exactly when the first pair's key is greater, so a pair never sorts before itself; its ordering laws are in CompareIsStrictWeakOrder |
| Matchmaker.CompareIsStrictWeakOrder | matchmaker_serial.cpp:207-209 | compare (greater key first) is irreflexive, asymmetric and transitive, its ties are transitive, and two pairs tie exactly when their keys are equal, as std::sort requires |
| MapReduce.MR.constructor | matchmaker_serial.cpp:68 | the object keeps the given pool; pairs and results start empty |
| MapReduce.MR.Map | matchmaker_serial.cpp:200-205 | pairs grows by exactly one pair per candidate, in candidate order; the i-th new pair is (score of candidate i, name of candidate i); old pairs and results are unchanged |
| MapReduce.MapPairsAt | matchmaker_serial.cpp:200-205 | the mapped sequence has one entry per candidate, and entry i is (score(user, pool[i]), pool[i].name) |
| MapReduce.MR.DoSort | matchmaker_serial.cpp:211-213 | after the sort the vector is a permutation (same multiset) of its input and its keys do not increase; no order among equal keys is promised |
| MapReduce.MR.SortPairs | matchmaker_serial.cpp:223 | the call do_sort(pairs) leaves pairs a non-increasing permutation of itself, keeps every key a score, and leaves results unchanged |
| MapReduce.MaxKeyOfPermutation | matchmaker_serial.cpp:211-213 | sorting cannot change the largest score: any rearrangement has the same maximum key |
| MapReduce.MR.Reduce | matchmaker_serial.cpp:215-219 | from a valid start index, returns the end of the maximal run of pairs with the given key; values gains each pair's val followed by a blank, in order; an index outside the vector returns unchanged with values untouched |
| MapReduce.LeadingRunIsTopTier | matchmaker_serial.cpp:215-219 | on sorted pairs, the maximal run at index 0 is not empty and holds exactly the positions whose key is the largest score |
| MapReduce.MaxKeyIsMaximum | matchmaker_serial.cpp:229-241 | the largest key is at least every key in the sequence and is the key of some pair |
| MapReduce.MR.BestMatch | matchmaker_serial.cpp:225-241 | the scan returns -1 exactly when there are no pairs; otherwise it returns the largest key and the val of the first pair in scan order that carries it |
| MapReduce.SortedFrontIsMax | matchmaker_serial.cpp:223-241 | on sorted pairs the front key is the largest key |
| MapReduce.FirstBestIsFront | matchmaker_serial.cpp:229-246 | on sorted pairs the first pair reaching the largest key is pairs[0], so run reports pairs[0] |
| MapReduce.ScoreKeysOfPermutation | matchmaker_serial.cpp:211-213 | rearranging pairs keeps every key a score in 0..4, so no real key can be taken for the -1 sentinel |
| MapReduce.MR.Run | matchmaker_serial.cpp:221-252 | pairs grows by the pool size and ends as a sorted permutation of the old pairs plus the mapped pool; results grows by exactly one entry, which is pairs[0] (the largest score over all accumulated pairs) or, when pairs is empty, (-1, "No suitable match found."); the returned vector is results |
| MapReduce.MaxKeyOfAppend | matchmaker_serial.cpp:221-246 | adding pairs never lowers the largest key, and the new largest key is the greater of the two maxima, so the score run reports never falls from one call to the next |
| MapReduce.ExampleScores | matchmaker_serial.cpp:191-205 | user {1,1,1,1} against A {1,1,1,1}, B {1,1,1,2}, C {2,2,2,2} maps to (4,A), (3,B), (0,C), and the largest score is 4 |
| MapReduce.ExampleScenario | matchmaker_serial.cpp:101-103 | one run on that pool reports exactly [(4, "A")] |
| MapReduce.ExampleRepeatedRun | matchmaker_serial.cpp:221-251 | a second run on the same object returns [(4, "A"), (4, "A")]: results is not cleared between calls |

## Left out

- `main` and `getUserData` (matchmaker_serial.cpp:84-132): console input and output. `main` also reads uninitialised locals at lines 87-89. Only its call `run(user, 3)` appears, in `ExampleScenario`.
- `readNamesFromFile` (matchmaker_serial.cpp:135-150): file input from `first_names.txt`.
- `generateProfiles` and `NUM_PROFILES` (matchmaker_serial.cpp:12, 153-188): these depend on `srand(time(0))`, `rand()` and the file reader. The candidate pool is an arbitrary `seq<Profile>` given to the `MR` constructor.
- The global `potential_matches` (matchmaker_serial.cpp:75): the pool is passed as an argument.
- `Profile`'s five-argument constructor (matchmaker_serial.cpp:24-25) leaves `id` uninitialised. In the model `id` is an ordinary field that any value may fill. It never affects scoring.
- The weighted, continuous-distance scoring variant: this source file does not contain it, and it would need floating point.
- Console output of the results and any formatting of them.
- The order `std::sort` gives to equal keys: `DoSort` promises only a non-increasing permutation, and so does every contract that depends on it.
- Aliasing: `run` returns a reference to `results`. `Run` returns the value of `results` at that moment.
- `pairs` is a `seq` field; in the code it is a vector that `do_sort` sorts in place. The model sorts an array copy and writes it back, so the in-place update of the vector's own storage is not modelled.
- C++ `int` overflow: keys are scores from 0 to 4, and indices stay within the vector's size, so no wrap-around is reachable as long as `pairs` holds at most INT_MAX entries.
