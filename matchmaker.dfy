/** Profiles, scored pairs and the equality-count compatibility scorer. */
module Matchmaker {

  /** One person's dating preferences: four small integer codes and a name.
      The codes are unconstrained here; the generated pool uses 1..3 for the
      political view and the children preference, 1..2 for the other two. */
  datatype Profile = Profile(
    id: int,
    name: string,
    politicalView: int,
    childrenPreference: int,
    monogamous: int,
    seriousDating: int)

  /** The preference codes of the enumerations. */
  const LIBERAL := 1
  const MODERATE := 2
  const CONSERVATIVE := 3
  const KIDS := 1
  const NO_KIDS := 2
  const UNDECIDED := 3
  const MONOGAMOUS := 1
  const POLYAMOROUS := 2
  const SERIOUS := 1
  const CASUAL := 2

  /** A map-reduce entry: the score as key, a candidate's name as value. */
  datatype Pair = Pair(key: int, val: string)

  /** The four preference codes of a profile, in declaration order. */
  function Attributes(p: Profile): (r: seq<int>)
    ensures |r| == 4
  {
    [p.politicalView, p.childrenPreference, p.monogamous, p.seriousDating]
  }

  /** Reference definition: how many positions two code lists agree on. */
  function CountEqual(a: seq<int>, b: seq<int>): nat
    requires |a| == |b|
  {
    if a == [] then 0
    else (if a[0] == b[0] then 1 else 0) + CountEqual(a[1..], b[1..])
  }

  lemma {:induction false} CountEqualBounded(a: seq<int>, b: seq<int>)
    requires |a| == |b|
    ensures CountEqual(a, b) <= |a|
    ensures CountEqual(a, b) == |a| <==> a == b
    ensures CountEqual(a, b) == 0 <==> forall i :: 0 <= i < |a| ==> a[i] != b[i]
  {
    if a != [] {
      CountEqualBounded(a[1..], b[1..]);
      assert a == [a[0]] + a[1..] && b == [b[0]] + b[1..];
      if CountEqual(a, b) == 0 {
        forall i | 0 <= i < |a| ensures a[i] != b[i] {
          if i > 0 { assert a[i] == a[1..][i - 1] && b[i] == b[1..][i - 1]; }
        }
      }
      if forall i :: 0 <= i < |a| ==> a[i] != b[i] {
        forall i | 0 <= i < |a| - 1 ensures a[1..][i] != b[1..][i] {
          assert a[1..][i] == a[i + 1];
        }
      }
    }
  }

  lemma {:induction false} CountEqualSymmetric(a: seq<int>, b: seq<int>)
    requires |a| == |b|
    ensures CountEqual(a, b) == CountEqual(b, a)
  {
    if a != [] {
      CountEqualSymmetric(a[1..], b[1..]);
    }
  }

  /** calculateCompatibility: one point for each of the four attributes on
      which the user and the candidate agree. */
  function CalculateCompatibility(user: Profile, other: Profile): (score: int)
    ensures 0 <= score <= 4
    ensures score == 4 <==> Attributes(user) == Attributes(other)
    ensures score == 0 <==>
      user.politicalView != other.politicalView &&
      user.childrenPreference != other.childrenPreference &&
      user.monogamous != other.monogamous &&
      user.seriousDating != other.seriousDating
  {
    (if user.politicalView == other.politicalView then 1 else 0) +
    (if user.childrenPreference == other.childrenPreference then 1 else 0) +
    (if user.monogamous == other.monogamous then 1 else 0) +
    (if user.seriousDating == other.seriousDating then 1 else 0)
  }

  /** The score is exactly the number of equal attributes. */
  lemma CompatibilityCountsEqualAttributes(user: Profile, other: Profile)
    ensures CalculateCompatibility(user, other) == CountEqual(Attributes(user), Attributes(other))
  {
    var a, b := Attributes(user), Attributes(other);
    assert CountEqual(a[3..], b[3..]) == (if a[3] == b[3] then 1 else 0) by {
      assert a[3..][1..] == [] && b[3..][1..] == [];
    }
    assert CountEqual(a[2..], b[2..]) == (if a[2] == b[2] then 1 else 0) + CountEqual(a[3..], b[3..]) by {
      assert a[2..][1..] == a[3..] && b[2..][1..] == b[3..];
    }
    assert CountEqual(a[1..], b[1..]) == (if a[1] == b[1] then 1 else 0) + CountEqual(a[2..], b[2..]) by {
      assert a[1..][1..] == a[2..] && b[1..][1..] == b[2..];
    }
  }

  lemma CompatibilitySymmetric(user: Profile, other: Profile)
    ensures CalculateCompatibility(user, other) == CalculateCompatibility(other, user)
  {
  }

  /** A profile scored against any profile with the same four codes gets
      the full score. */
  lemma CompatibilityWithSameCodes(user: Profile, other: Profile)
    requires Attributes(user) == Attributes(other)
    ensures CalculateCompatibility(user, other) == 4
  {
  }

  /** A profile scored against itself gets the full score. */
  lemma CompatibilityWithSelf(p: Profile)
    ensures CalculateCompatibility(p, p) == 4
  {
  }

  /** compare: the ordering handed to the sort, "greater key first". */
  function Compare(p1: Pair, p2: Pair): (before: bool)
    ensures before ==> p1 != p2
  {
    p1.key > p2.key
  }

  /** Compare is a strict weak ordering, as the sort requires: irreflexive,
      transitive, and its incomparability (equal keys) is transitive. */
  lemma CompareIsStrictWeakOrder(p: Pair, q: Pair, r: Pair)
    ensures !Compare(p, p)
    ensures Compare(p, q) ==> !Compare(q, p)
    ensures Compare(p, q) && Compare(q, r) ==> Compare(p, r)
    ensures !Compare(p, q) && !Compare(q, p) && !Compare(q, r) && !Compare(r, q) ==>
      !Compare(p, r) && !Compare(r, p)
    ensures !Compare(p, q) && !Compare(q, p) <==> p.key == q.key
  {
  }
}
