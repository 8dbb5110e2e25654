/**
 * What `calculateNutrition` guarantees, stated over the specification
 * functions of NutritionCalculator and proved from them.
 */
module NutritionProperties {
  import opened Lists
  import opened JsText
  import opened NutritionCalculator

  // ---------------------------------------------------------------------------
  // Algebra of the five-field records
  // ---------------------------------------------------------------------------

  lemma AddZero(a: NutritionInfo)
    ensures Add(a, Zero) == a && Add(Zero, a) == a
  {
  }

  lemma AddCommutes(a: NutritionInfo, b: NutritionInfo)
    ensures Add(a, b) == Add(b, a)
  {
  }

  lemma ScaleDistributes(a: NutritionInfo, b: NutritionInfo, m: real)
    ensures Scale(Add(a, b), m) == Add(Scale(a, m), Scale(b, m))
  {
    assert (a.calories + b.calories) * m == a.calories * m + b.calories * m;
    assert (a.protein + b.protein) * m == a.protein * m + b.protein * m;
    assert (a.carbs + b.carbs) * m == a.carbs * m + b.carbs * m;
    assert (a.fat + b.fat) * m == a.fat * m + b.fat * m;
    assert (a.fiber + b.fiber) * m == a.fiber * m + b.fiber * m;
  }

  lemma ScaleZero(m: real)
    ensures Scale(Zero, m) == Zero
  {
  }

  lemma ScaleNonNegative(a: NutritionInfo, m: real)
    requires NonNegative(a) && m >= 0.0
    ensures NonNegative(Scale(a, m))
  {
  }

  // ---------------------------------------------------------------------------
  // Matching
  // ---------------------------------------------------------------------------

  /** The test `lowerIngredient.includes(key)` applied to a table row. */
  function KeyOccursIn(lower: string): Entry -> bool {
    (e: Entry) => Includes(lower, e.key)
  }

  /** The table rows whose key occurs in the lowercased line, in table order. */
  function MatchedEntries(lower: string): seq<Entry> {
    Filter(KeyOccursIn(lower), Table)
  }

  /** Field-wise sum of the profiles of `es`. */
  function ProfileSum(es: seq<Entry>): NutritionInfo {
    if es == [] then Zero else Add(ProfileSum(es[..|es| - 1]), es[|es| - 1].profile)
  }

  lemma {:induction false} KeysTotalFactors(lower: string, es: seq<Entry>)
    ensures KeysTotal(lower, es)
            == Scale(ProfileSum(Filter(KeyOccursIn(lower), es)), Multiplier(lower))
  {
    if es == [] {
      ScaleZero(Multiplier(lower));
    } else {
      KeysTotalFactors(lower, es[..|es| - 1]);
      KeysTotalFactorsStep(lower, es);
    }
  }

  /** The inductive step: one more row keeps the factored form. */
  lemma KeysTotalFactorsStep(lower: string, es: seq<Entry>)
    requires es != []
    requires KeysTotal(lower, es[..|es| - 1])
             == Scale(ProfileSum(Filter(KeyOccursIn(lower), es[..|es| - 1])), Multiplier(lower))
    ensures KeysTotal(lower, es)
            == Scale(ProfileSum(Filter(KeyOccursIn(lower), es)), Multiplier(lower))
  {
    var keep := KeyOccursIn(lower);
    var init, last := es[..|es| - 1], es[|es| - 1];
    var kept, m := Filter(keep, init), Multiplier(lower);
    assert Filter(keep, es) == if keep(last) then kept + [last] else kept;
    ContributionOf(lower, last);
    if keep(last) {
      ProfileSumScaledStep(kept, last, m);
    } else {
      AddZero(Scale(ProfileSum(kept), m));
    }
  }

  /** A row contributes its scaled profile when the filter keeps it, and nothing otherwise. */
  lemma ContributionOf(lower: string, e: Entry)
    ensures Contribution(lower, e) == if KeyOccursIn(lower)(e) then Scale(e.profile, Multiplier(lower)) else Zero
  {
  }

  /** Adding one more scaled profile to a scaled sum scales the longer sum. */
  lemma ProfileSumScaledStep(kept: seq<Entry>, last: Entry, m: real)
    ensures Add(Scale(ProfileSum(kept), m), Scale(last.profile, m)) == Scale(ProfileSum(kept + [last]), m)
  {
    assert (kept + [last])[..|kept|] == kept;
    ScaleDistributes(ProfileSum(kept), last.profile, m);
  }

  /**
   * Every key matched on a line is scaled by the same multiplier: a line
   * adds the sum of the profiles of the keys it contains, times the
   * multiplier of that line.
   */
  lemma LineTotalFactors(line: string)
    ensures LineTotal(line) == Scale(ProfileSum(MatchedEntries(Lower(line))), Multiplier(Lower(line)))
  {
    KeysTotalFactors(Lower(line), Table);
  }

  /** A row is matched exactly when its key occurs in the lowercased line. */
  lemma MatchedEntriesMembers(lower: string, e: Entry)
    ensures e in MatchedEntries(lower) <==> e in Table && Includes(lower, e.key)
  {
  }

  lemma {:induction false} KeysTotalUnmatched(lower: string, es: seq<Entry>)
    requires forall n :: 0 <= n < |es| ==> !Includes(lower, es[n].key)
    ensures KeysTotal(lower, es) == Zero
  {
    if es != [] {
      KeysTotalUnmatched(lower, es[..|es| - 1]);
    }
  }

  lemma {:induction false} KeysTotalSingle(lower: string, es: seq<Entry>, n: nat)
    requires n < |es|
    requires forall m :: 0 <= m < |es| ==> (Includes(lower, es[m].key) <==> m == n)
    ensures KeysTotal(lower, es) == Scale(es[n].profile, Multiplier(lower))
  {
    var init := es[..|es| - 1];
    if n == |es| - 1 {
      KeysTotalUnmatched(lower, init);
      AddZero(Scale(es[n].profile, Multiplier(lower)));
    } else {
      KeysTotalSingle(lower, init, n);
      AddZero(KeysTotal(lower, init));
    }
  }

  lemma {:induction false} KeysTotalPair(lower: string, es: seq<Entry>, n1: nat, n2: nat)
    requires n1 < n2 < |es|
    requires forall m :: 0 <= m < |es| ==> (Includes(lower, es[m].key) <==> m == n1 || m == n2)
    ensures KeysTotal(lower, es)
            == Add(Scale(es[n1].profile, Multiplier(lower)), Scale(es[n2].profile, Multiplier(lower)))
  {
    var init := es[..|es| - 1];
    if n2 == |es| - 1 {
      KeysTotalSingle(lower, init, n1);
    } else {
      KeysTotalPair(lower, init, n1, n2);
      AddZero(KeysTotal(lower, init));
    }
  }

  /** A line that contains no table key adds nothing. */
  lemma UnmatchedLineAddsNothing(line: string)
    requires forall n :: 0 <= n < |Table| ==> !Includes(Lower(line), Table[n].key)
    ensures LineTotal(line) == Zero
  {
    KeysTotalUnmatched(Lower(line), Table);
  }

  /**
   * Overlapping keys each count: when a longer key holds a shorter one, a
   * line that contains the longer key matches both rows.
   */
  lemma NestedKeysBothMatch(lower: string, outer: nat, inner: nat)
    requires outer < |Table| && inner < |Table|
    requires Includes(Table[outer].key, Table[inner].key)
    requires Includes(lower, Table[outer].key)
    ensures Table[outer] in MatchedEntries(lower) && Table[inner] in MatchedEntries(lower)
  {
    IncludesTransitive(lower, Table[outer].key, Table[inner].key);
  }

  lemma MilkKeysNested()
    ensures Table[10].key == "leite"
    ensures Includes(Table[23].key, Table[10].key) && Includes(Table[13].key, Table[10].key)
  {
    var milk, condensed, cream := Table[10].key, Table[23].key, Table[13].key;
    assert milk == "leite" && condensed == "leite condensado" && cream == "creme de leite";
    assert condensed[0..5] == milk;
    assert OccursAt(condensed, milk, 0);
    assert cream[9..14] == milk;
    assert OccursAt(cream, milk, 9);
  }

  /**
   * "leite condensado" and "creme de leite" both contain the key "leite",
   * so a line naming either one is also counted as milk.
   */
  lemma MilkIsCountedTwice(line: string)
    requires Includes(Lower(line), "leite condensado") || Includes(Lower(line), "creme de leite")
    ensures Table[10].key == "leite"
    ensures Includes(Lower(line), "leite condensado") ==> Table[23] in MatchedEntries(Lower(line))
    ensures Includes(Lower(line), "creme de leite") ==> Table[13] in MatchedEntries(Lower(line))
    ensures Table[10] in MatchedEntries(Lower(line))
  {
    var lower := Lower(line);
    MilkKeysNested();
    if Includes(lower, "leite condensado") {
      NestedKeysBothMatch(lower, 23, 10);
    }
    if Includes(lower, "creme de leite") {
      NestedKeysBothMatch(lower, 13, 10);
    }
  }

  // ---------------------------------------------------------------------------
  // Accumulation over lines
  // ---------------------------------------------------------------------------

  /** No lines, no nutrients: all five fields are zero. */
  lemma EstimateOfNoLines()
    ensures Estimate([]) == NutritionInfo(0.0, 0.0, 0.0, 0.0, 0.0)
  {
  }

  lemma {:induction false} RawTotalConcat(a: seq<string>, b: seq<string>)
    ensures RawTotal(a + b) == Add(RawTotal(a), RawTotal(b))
    decreases |b|
  {
    if b == [] {
      assert a + b == a;
      AddZero(RawTotal(a));
    } else {
      var b' := b[..|b| - 1];
      assert (a + b)[..|a + b| - 1] == a + b';
      RawTotalConcat(a, b');
      AddAssociates(RawTotal(a), RawTotal(b'), LineTotal(b[|b| - 1]));
    }
  }

  lemma {:induction false} RawTotalPermutation(a: seq<string>, b: seq<string>)
    requires multiset(a) == multiset(b)
    ensures RawTotal(a) == RawTotal(b)
    decreases |a|
  {
    if a == [] {
      assert |b| == |multiset(b)| == 0;
    } else {
      var x := a[|a| - 1];
      var a' := a[..|a| - 1];
      assert a == a' + [x];
      assert x in multiset(b);
      var j :| 0 <= j < |b| && b[j] == x;
      var b' := b[..j] + b[j + 1..];
      assert b == b[..j] + [x] + b[j + 1..];
      assert multiset(b) == multiset(b[..j]) + multiset{x} + multiset(b[j + 1..]);
      assert multiset(a) == multiset(a') + multiset{x};
      assert multiset(b') == multiset(b[..j]) + multiset(b[j + 1..]);
      assert multiset(a') == multiset(a) - multiset{x};
      assert multiset(b') == multiset(b) - multiset{x};
      RawTotalPermutation(a', b');
      // RawTotal(b) = RawTotal(b[..j]) + line x + RawTotal(b[j+1..])
      RawTotalConcat(b[..j] + [x], b[j + 1..]);
      RawTotalConcat(b[..j], [x]);
      RawTotalConcat(b[..j], b[j + 1..]);
      assert RawTotal([x]) == Add(Zero, LineTotal(x));
      AddZero(LineTotal(x));
      AddAssociates(RawTotal(b[..j]), LineTotal(x), RawTotal(b[j + 1..]));
      AddCommutes(LineTotal(x), RawTotal(b[j + 1..]));
      AddAssociates(RawTotal(b[..j]), RawTotal(b[j + 1..]), LineTotal(x));
    }
  }

  /** The order of the ingredient lines does not matter: any permutation gives the same estimate. */
  lemma EstimatePermutationInvariant(a: seq<string>, b: seq<string>)
    requires multiset(a) == multiset(b)
    ensures Estimate(a) == Estimate(b)
  {
    RawTotalPermutation(a, b);
  }

  lemma {:induction false} KeysTotalNonNegative(lower: string, es: seq<Entry>)
    requires forall n :: 0 <= n < |es| ==> NonNegative(es[n].profile)
    ensures NonNegative(KeysTotal(lower, es))
  {
    if es != [] {
      KeysTotalNonNegative(lower, es[..|es| - 1]);
      ScaleNonNegative(es[|es| - 1].profile, Multiplier(lower));
    }
  }

  lemma {:induction false} RawTotalNonNegative(lines: seq<string>)
    ensures NonNegative(RawTotal(lines))
  {
    if lines != [] {
      RawTotalNonNegative(lines[..|lines| - 1]);
      TableNonNegative();
      KeysTotalNonNegative(Lower(lines[|lines| - 1]), Table);
    }
  }

  /** Every field of every estimate is non-negative, since no table value or multiplier is negative. */
  lemma EstimateNonNegative(lines: seq<string>)
    ensures NonNegative(Estimate(lines))
  {
    var t := RawTotal(lines);
    RawTotalNonNegative(lines);
    RoundedNonNegative(t);
  }

  /**
   * Matching ignores case: a line and its lowercased form add the same
   * amounts, since the line is lowercased before any key is looked up.
   */
  lemma LineTotalIgnoresCase(line: string)
    ensures LineTotal(Lower(line)) == LineTotal(line)
  {
    LowerIdempotent(line);
  }

  /** Rounding half up never takes a non-negative amount below zero. */
  lemma RoundedNonNegative(t: NutritionInfo)
    requires NonNegative(t)
    ensures NonNegative(Rounded(t))
  {
    RoundTenthNonNegative(t.protein);
    RoundTenthNonNegative(t.carbs);
    RoundTenthNonNegative(t.fat);
    RoundTenthNonNegative(t.fiber);
  }

  lemma RoundTenthNonNegative(x: real)
    requires x >= 0.0
    ensures RoundTenth(x) >= 0.0
  {
    assert x * 10.0 >= 0.0;
    assert Round(x * 10.0) >= 0;
  }

  /**
   * The estimate is the unrounded total rounded half-up: calories to a whole
   * number, the other fields to one decimal place.
   */
  lemma EstimateRounding(lines: seq<string>)
    ensures var t, r := RawTotal(lines), Estimate(lines);
      && r.calories - 0.5 <= t.calories < r.calories + 0.5 && r.calories.Floor as real == r.calories
      && r.protein - 0.05 <= t.protein < r.protein + 0.05
      && r.carbs - 0.05 <= t.carbs < r.carbs + 0.05
      && r.fat - 0.05 <= t.fat < r.fat + 0.05
      && r.fiber - 0.05 <= t.fiber < r.fiber + 0.05
      && (r.protein * 10.0).Floor as real == r.protein * 10.0
      && (r.carbs * 10.0).Floor as real == r.carbs * 10.0
      && (r.fat * 10.0).Floor as real == r.fat * 10.0
      && (r.fiber * 10.0).Floor as real == r.fiber * 10.0
  {
  }
}
