/** The map / sort / reduce pipeline of class MR and the functions that
    specify it. */
module MapReduce {
  import opened Matchmaker

  /** The text run reports when there is nothing to report. */
  const NO_MATCH_TEXT := "No suitable match found."

  /** The scores used as keys are never the sentinel -1 of run's scan. */
  const NO_SCORE := -1

  // ---------------------------------------------------------------------
  // Specification functions
  // ---------------------------------------------------------------------

  /** The pairs that Map appends for a pool, one per candidate, in order. */
  function MapPairs(user: Profile, pool: seq<Profile>): seq<Pair>
  {
    if pool == [] then []
    else MapPairs(user, pool[..|pool| - 1]) +
         [Pair(CalculateCompatibility(user, pool[|pool| - 1]), pool[|pool| - 1].name)]
  }

  lemma {:induction false} MapPairsAt(user: Profile, pool: seq<Profile>)
    ensures |MapPairs(user, pool)| == |pool|
    ensures forall i :: 0 <= i < |pool| ==>
      MapPairs(user, pool)[i] == Pair(CalculateCompatibility(user, pool[i]), pool[i].name)
  {
    if pool != [] {
      MapPairsAt(user, pool[..|pool| - 1]);
    }
  }

  /** Keys ordered "greater first": no later pair compares before an earlier one. */
  ghost predicate SortedDesc(s: seq<Pair>)
  {
    forall i, j :: 0 <= i < j < |s| ==> s[i].key >= s[j].key
  }

  /** All keys are compatibility scores. */
  ghost predicate ScoreKeys(s: seq<Pair>)
  {
    forall i :: 0 <= i < |s| ==> 0 <= s[i].key <= 4
  }

  /** The largest key of a non-empty sequence. */
  function MaxKey(s: seq<Pair>): int
    requires |s| > 0
  {
    if |s| == 1 then s[0].key
    else
      var m := MaxKey(s[..|s| - 1]);
      if s[|s| - 1].key > m then s[|s| - 1].key else m
  }

  lemma {:induction false} MaxKeyIsMaximum(s: seq<Pair>)
    requires |s| > 0
    ensures forall i :: 0 <= i < |s| ==> s[i].key <= MaxKey(s)
    ensures exists i :: 0 <= i < |s| && s[i].key == MaxKey(s)
  {
    if |s| > 1 {
      var init := s[..|s| - 1];
      MaxKeyIsMaximum(init);
      var k :| 0 <= k < |init| && init[k].key == MaxKey(init);
      assert forall i :: 0 <= i < |init| ==> s[i] == init[i];
      if s[|s| - 1].key > MaxKey(init) {
        assert s[|s| - 1].key == MaxKey(s);
      } else {
        assert s[k].key == MaxKey(s);
      }
    } else {
      assert s[0].key == MaxKey(s);
    }
  }

  /** Any sequence with the same elements has the same largest key. */
  lemma MaxKeyOfPermutation(s: seq<Pair>, t: seq<Pair>)
    requires |s| > 0 && multiset(s) == multiset(t)
    ensures |t| > 0 && MaxKey(s) == MaxKey(t)
  {
    assert s[0] in multiset(t);
    MaxKeyIsMaximum(s);
    MaxKeyIsMaximum(t);
    var i :| 0 <= i < |s| && s[i].key == MaxKey(s);
    var j :| 0 <= j < |t| && t[j].key == MaxKey(t);
    assert s[i] in multiset(t);
    assert t[j] in multiset(s);
  }

  /** The key at the front of a non-increasing sequence is its largest. */
  lemma SortedFrontIsMax(s: seq<Pair>)
    requires |s| > 0 && SortedDesc(s)
    ensures s[0].key == MaxKey(s)
  {
    MaxKeyIsMaximum(s);
  }

  /** Accumulating pairs never lowers the largest key. */
  lemma {:induction false} MaxKeyOfAppend(s: seq<Pair>, t: seq<Pair>)
    requires |s| > 0
    ensures MaxKey(s + t) >= MaxKey(s)
    ensures |t| > 0 ==> MaxKey(s + t) == if MaxKey(t) > MaxKey(s) then MaxKey(t) else MaxKey(s)
  {
    MaxKeyIsMaximum(s);
    MaxKeyIsMaximum(s + t);
    var k :| 0 <= k < |s| && s[k].key == MaxKey(s);
    assert (s + t)[k] == s[k];
    if |t| > 0 {
      MaxKeyIsMaximum(t);
      var j :| 0 <= j < |t| && t[j].key == MaxKey(t);
      assert (s + t)[|s| + j] == t[j];
      var m :| 0 <= m < |s + t| && (s + t)[m].key == MaxKey(s + t);
      if m < |s| { assert (s + t)[m] == s[m]; } else { assert (s + t)[m] == t[m - |s|]; }
    }
  }

  /** val + " " for every pair in [lo, hi), concatenated in order. */
  function Joined(s: seq<Pair>, lo: nat, hi: nat): string
    requires lo <= hi <= |s|
    decreases hi
  {
    if lo == hi then "" else Joined(s, lo, hi - 1) + s[hi - 1].val + " "
  }

  /** In a non-increasing sequence, the maximal run of the front key is
      exactly the set of positions holding the largest key. */
  lemma LeadingRunIsTopTier(s: seq<Pair>, r: nat)
    requires |s| > 0 && SortedDesc(s)
    requires r <= |s|
    requires forall i :: 0 <= i < r ==> s[i].key == s[0].key
    requires r == |s| || s[r].key != s[0].key
    ensures r > 0
    ensures forall i :: 0 <= i < |s| ==> (s[i].key == MaxKey(s) <==> i < r)
  {
    SortedFrontIsMax(s);
  }

  /** Rearranging pairs keeps every key a compatibility score. */
  lemma ScoreKeysOfPermutation(s: seq<Pair>, t: seq<Pair>)
    requires ScoreKeys(s) && multiset(s) == multiset(t)
    ensures ScoreKeys(t)
  {
    forall i | 0 <= i < |t| ensures 0 <= t[i].key <= 4 {
      assert t[i] in multiset(s);
    }
  }

  /** On a non-increasing sequence, the first pair that reaches the largest
      key is the front pair. */
  lemma FirstBestIsFront(s: seq<Pair>, best: int, name: string)
    requires |s| > 0 && SortedDesc(s)
    requires exists k :: (0 <= k < |s| && s[k].key == best && s[k].val == name &&
      forall j :: 0 <= j < k ==> s[j].key < best)
    ensures Pair(best, name) == s[0]
  {
    var k :| 0 <= k < |s| && s[k].key == best && s[k].val == name &&
      forall j :: 0 <= j < k ==> s[j].key < best;
    assert s[0].key >= s[k].key;
  }

  // ---------------------------------------------------------------------
  // The map-reduce object
  // ---------------------------------------------------------------------

  class MR {
    const profiles: seq<Profile>
    var pairs: seq<Pair>
    var results: seq<Pair>

    /** pairs only ever receives compatibility scores. */
    ghost predicate Valid()
      reads this
    {
      ScoreKeys(pairs)
    }

    constructor (p: seq<Profile>)
      ensures Valid()
      ensures profiles == p && pairs == [] && results == []
    {
      profiles := p;
      pairs := [];
      results := [];
    }

    /** Map: append one scored pair per candidate, in candidate order. */
    method Map(user: Profile, potentialMatches: seq<Profile>)
      requires Valid()
      modifies this
      ensures Valid()
      ensures pairs == old(pairs) + MapPairs(user, potentialMatches)
      ensures |pairs| == |old(pairs)| + |potentialMatches|
      ensures forall i :: 0 <= i < |old(pairs)| ==> pairs[i] == old(pairs)[i]
      ensures forall i :: 0 <= i < |potentialMatches| ==>
        pairs[|old(pairs)| + i] ==
          Pair(CalculateCompatibility(user, potentialMatches[i]), potentialMatches[i].name)
      ensures results == old(results)
    {
      var i := 0;
      while i < |potentialMatches|
        invariant 0 <= i <= |potentialMatches|
        invariant pairs == old(pairs) + MapPairs(user, potentialMatches[..i])
        invariant Valid()
        invariant results == old(results)
      {
        var candidate := potentialMatches[i];
        var score := CalculateCompatibility(user, candidate);
        assert potentialMatches[..i + 1][..i] == potentialMatches[..i];
        pairs := pairs + [Pair(score, candidate.name)];
        i := i + 1;
      }
      assert potentialMatches[..i] == potentialMatches;
      MapPairsAt(user, potentialMatches);
    }

    /** do_sort: sort in place by key, greatest first. The order among equal
        keys is not specified. */
    method DoSort(vec: array<Pair>)
      modifies vec
      ensures SortedDesc(vec[..])
      ensures multiset(vec[..]) == multiset(old(vec[..]))
    {
      var i := 0;
      while i < vec.Length
        invariant 0 <= i <= vec.Length
        invariant forall a, b :: 0 <= a < b < i ==> vec[a].key >= vec[b].key
        invariant forall a, b :: 0 <= a < i <= b < vec.Length ==> vec[a].key >= vec[b].key
        invariant multiset(vec[..]) == multiset(old(vec[..]))
      {
        var m, j := i, i + 1;
        while j < vec.Length
          invariant i <= m < j <= vec.Length
          invariant forall k :: i <= k < j ==> vec[m].key >= vec[k].key
        {
          if Compare(vec[j], vec[m]) {
            m := j;
          }
          j := j + 1;
        }
        Swap(vec, i, m);
        i := i + 1;
      }
    }

    /** Exchanges two elements of the sort's buffer. */
    method Swap(vec: array<Pair>, i: int, j: int)
      requires 0 <= i <= j < vec.Length
      modifies vec
      ensures vec[i] == old(vec[j]) && vec[j] == old(vec[i])
      ensures forall k :: 0 <= k < vec.Length && k != i && k != j ==> vec[k] == old(vec[k])
      ensures multiset(vec[..]) == multiset(old(vec[..]))
    {
      vec[i], vec[j] := vec[j], vec[i];
    }

    /** Reduce: starting at index, consume the maximal run of pairs whose key
        is key, appending each value and a blank to values; return the index
        just past the run. A negative index compares as a huge unsigned size,
        so the loop does not run. */
    method Reduce(key: int, pairs: seq<Pair>, index: int, values: string)
      returns (next: int, valuesOut: string)
      ensures !(0 <= index < |pairs|) ==> next == index && valuesOut == values
      ensures 0 <= index <= |pairs| ==>
        && index <= next <= |pairs|
        && (forall i :: index <= i < next ==> pairs[i].key == key)
        && (next == |pairs| || pairs[next].key != key)
        && valuesOut == values + Joined(pairs, index, next)
    {
      next, valuesOut := index, values;
      if index < 0 {
        return;
      }
      while next < |pairs| && pairs[next].key == key
        invariant index <= next
        invariant index <= |pairs| ==> next <= |pairs|
        invariant index > |pairs| ==> next == index && valuesOut == values
        invariant forall i :: index <= i < next ==> pairs[i].key == key
        invariant next <= |pairs| ==> valuesOut == values + Joined(pairs, index, next)
      {
        valuesOut := valuesOut + pairs[next].val + " ";
        next := next + 1;
      }
    }

    /** The scan loop of run: the first pair, in order, that carries the
        largest key; -1 when there are no pairs. */
    method BestMatch(s: seq<Pair>) returns (bestMatchScore: int, bestMatchValues: string)
      requires forall i :: 0 <= i < |s| ==> s[i].key != NO_SCORE
      ensures |s| == 0 <==> bestMatchScore == NO_SCORE
      ensures |s| > 0 ==> bestMatchScore == MaxKey(s)
      ensures |s| > 0 ==>
        exists k :: 0 <= k < |s| && s[k].key == bestMatchScore && s[k].val == bestMatchValues &&
          forall j :: 0 <= j < k ==> s[j].key < bestMatchScore
    {
      var next := 0;
      bestMatchScore := NO_SCORE;
      bestMatchValues := "";
      ghost var at := 0;
      while next < |s|
        invariant 0 <= next <= |s|
        invariant next == 0 ==> bestMatchScore == NO_SCORE
        invariant next > 0 ==> bestMatchScore == MaxKey(s[..next]) && bestMatchScore != NO_SCORE
        invariant next > 0 ==>
          0 <= at < next && s[at].key == bestMatchScore && s[at].val == bestMatchValues &&
          forall j :: 0 <= j < at ==> s[j].key < bestMatchScore
      {
        var key := s[next].key;
        assert s[..next + 1][..next] == s[..next];
        if bestMatchScore == NO_SCORE || key > bestMatchScore {
          bestMatchScore := key;
          bestMatchValues := s[next].val;
          at := next;
        }
        if next > 0 {
          MaxKeyIsMaximum(s[..next]);
        }
        next := next + 1;
      }
      assert s[..next] == s;
    }

    /** The call do_sort(pairs): the vector's elements are sorted in an
        array and written back. */
    method SortPairs()
      requires Valid()
      modifies this
      ensures Valid()
      ensures multiset(pairs) == multiset(old(pairs)) && |pairs| == |old(pairs)|
      ensures SortedDesc(pairs)
      ensures results == old(results)
    {
      var buffer := pairs;
      var vec := new Pair[|buffer|](i requires 0 <= i < |buffer| => buffer[i]);
      assert vec[..] == buffer;
      DoSort(vec);
      pairs := vec[..];
      ScoreKeysOfPermutation(buffer, pairs);
    }

    /** run: map the pool, sort, report the best pair (or the sentinel) by
        appending it to results, and return results. minCompatibilityScore
        is not used, and neither pairs nor results is cleared. */
    method Run(user: Profile, minCompatibilityScore: int) returns (r: seq<Pair>)
      requires Valid()
      modifies this
      ensures Valid()
      ensures |pairs| == |old(pairs)| + |profiles|
      ensures multiset(pairs) == multiset(old(pairs) + MapPairs(user, profiles))
      ensures SortedDesc(pairs)
      ensures |pairs| == 0 <==> old(pairs) == [] && profiles == []
      ensures |pairs| == 0 ==> results == old(results) + [Pair(NO_SCORE, NO_MATCH_TEXT)]
      ensures |pairs| > 0 ==> results == old(results) + [pairs[0]]
      ensures |pairs| > 0 ==>
        results[|results| - 1].key == MaxKey(old(pairs) + MapPairs(user, profiles))
      ensures old(pairs) != [] ==> results[|results| - 1].key >= MaxKey(old(pairs))
      ensures r == results
    {
      ghost var before := pairs;
      Map(user, profiles);
      ghost var mapped := pairs;
      SortPairs();

      var bestMatchScore, bestMatchValues := BestMatch(pairs);
      if |pairs| > 0 {
        FirstBestIsFront(pairs, bestMatchScore, bestMatchValues);
        MaxKeyOfPermutation(mapped, pairs);
        if before != [] {
          MaxKeyOfAppend(before, MapPairs(user, profiles));
        }
      }
      if bestMatchScore != NO_SCORE {
        results := results + [Pair(bestMatchScore, bestMatchValues)];
      } else {
        results := results + [Pair(NO_SCORE, NO_MATCH_TEXT)];
      }
      r := results;
    }
  }

  // ---------------------------------------------------------------------
  // A client
  // ---------------------------------------------------------------------

  /** The example pool: A agrees with the all-ones user everywhere, B on
      three attributes, C nowhere. */
  function ExampleUser(): Profile { Profile(0, "U", LIBERAL, KIDS, MONOGAMOUS, SERIOUS) }
  function ExamplePool(): seq<Profile>
  {
    [Profile(1, "A", LIBERAL, KIDS, MONOGAMOUS, SERIOUS),
     Profile(2, "B", LIBERAL, KIDS, MONOGAMOUS, CASUAL),
     Profile(3, "C", MODERATE, NO_KIDS, POLYAMOROUS, CASUAL)]
  }

  lemma ExampleScores()
    ensures MapPairs(ExampleUser(), ExamplePool()) == [Pair(4, "A"), Pair(3, "B"), Pair(0, "C")]
    ensures MaxKey(MapPairs(ExampleUser(), ExamplePool())) == 4
  {
    MapPairsAt(ExampleUser(), ExamplePool());
    var mapped := MapPairs(ExampleUser(), ExamplePool());
    assert mapped == [Pair(4, "A"), Pair(3, "B"), Pair(0, "C")];
    MaxKeyIsMaximum(mapped);
    var i :| 0 <= i < 3 && mapped[i].key == MaxKey(mapped);
    assert mapped[0].key <= MaxKey(mapped);
  }

  /** In a pool where only one pair reaches score 4, a pair with key 4 drawn
      from any rearrangement of copies of it is that pair. */
  lemma ExampleTopPairIsA(p: Pair, s: seq<Pair>)
    requires p in multiset(s) && p.key == 4
    requires forall q :: q in s && q.key == 4 ==> q == Pair(4, "A")
    ensures p == Pair(4, "A")
  {
    assert p in s;
  }

  /** After one run pairs is a rearrangement of the mapped pool, so the
      accumulated pairs still have A as their only pair with score 4. */
  lemma TopPairAfterRepeat(once: seq<Pair>, mapped: seq<Pair>)
    requires mapped == [Pair(4, "A"), Pair(3, "B"), Pair(0, "C")]
    requires MaxKey(mapped) == 4
    requires multiset(once) == multiset([] + mapped)
    ensures MaxKey(once + mapped) == 4
    ensures forall q :: q in once + mapped && q.key == 4 ==> q == Pair(4, "A")
  {
    assert [] + mapped == mapped;
    forall q: Pair | q in once + mapped && q.key == 4 ensures q == Pair(4, "A") {
      if q in once {
        assert q in multiset(mapped);
      }
    }
    MaxKeyOfPermutation(mapped, once);
    MaxKeyOfAppend(once, mapped);
  }

  /** What one run on a fresh object leaves at the front of pairs. */
  lemma ExampleFront(pairs: seq<Pair>, mapped: seq<Pair>)
    requires mapped == [Pair(4, "A"), Pair(3, "B"), Pair(0, "C")] && MaxKey(mapped) == 4
    requires |pairs| > 0
    requires multiset(pairs) == multiset([] + mapped)
    requires pairs[0].key == MaxKey([] + mapped)
    ensures pairs[0] == Pair(4, "A")
  {
    assert [] + mapped == mapped;
    ExampleTopPairIsA(pairs[0], mapped);
  }

  /** What a second run on the same object leaves at the front of pairs. */
  lemma ExampleFrontAfterRepeat(once: seq<Pair>, pairs: seq<Pair>, mapped: seq<Pair>)
    requires mapped == [Pair(4, "A"), Pair(3, "B"), Pair(0, "C")] && MaxKey(mapped) == 4
    requires multiset(once) == multiset([] + mapped)
    requires |pairs| > 0
    requires multiset(pairs) == multiset(once + mapped)
    requires pairs[0].key == MaxKey(once + mapped)
    ensures pairs[0] == Pair(4, "A")
  {
    TopPairAfterRepeat(once, mapped);
    ExampleTopPairIsA(pairs[0], once + mapped);
  }

  /** An all-ones user against candidates A {1,1,1,1}, B {1,1,1,2} and
      C {2,2,2,2}: the scores are 4, 3 and 0, and run reports A. */
  method ExampleScenario() returns (report: seq<Pair>)
    ensures report == [Pair(4, "A")]
  {
    var mr := new MR(ExamplePool());
    report := mr.Run(ExampleUser(), 3);
    ExampleScores();
    ExampleFront(mr.pairs, MapPairs(ExampleUser(), ExamplePool()));
  }

  /** The same pool run twice on one object: nothing is cleared, so the
      second call sees both batches of pairs and results holds two reports. */
  method ExampleRepeatedRun() returns (second: seq<Pair>)
    ensures second == [Pair(4, "A"), Pair(4, "A")]
  {
    var mr := new MR(ExamplePool());
    ExampleScores();
    ghost var mapped := MapPairs(ExampleUser(), ExamplePool());
    var first := mr.Run(ExampleUser(), 3);
    ExampleFront(mr.pairs, mapped);
    ghost var once := mr.pairs;
    second := mr.Run(ExampleUser(), 3);
    ExampleFrontAfterRepeat(once, mr.pairs, mapped);
  }
}
