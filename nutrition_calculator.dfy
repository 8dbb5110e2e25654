/**
 * The nutrition estimator: a fixed table of food keywords with their
 * macro-nutrients per 100 g, the rule that guesses a quantity multiplier
 * from the words of an ingredient line, and `calculateNutrition`, which
 * folds every keyword found in every line into five totals and rounds them.
 *
 * Numbers are exact reals; the JavaScript original works on doubles.
 */
module NutritionCalculator {
  import opened Lists
  import opened JsText

  /** Five macro-nutrient amounts: a per-100 g profile, a running total or a result. */
  datatype NutritionInfo = NutritionInfo(calories: real, protein: real, carbs: real, fat: real, fiber: real)

  const Zero := NutritionInfo(0.0, 0.0, 0.0, 0.0, 0.0)

  /** Field-wise sum, the five `+=` of the accumulation. */
  function Add(a: NutritionInfo, b: NutritionInfo): NutritionInfo {
    NutritionInfo(a.calories + b.calories, a.protein + b.protein, a.carbs + b.carbs,
                  a.fat + b.fat, a.fiber + b.fiber)
  }

  lemma AddAssociates(a: NutritionInfo, b: NutritionInfo, c: NutritionInfo)
    ensures Add(Add(a, b), c) == Add(a, Add(b, c))
  {
  }

  /** Every field multiplied by `m` (`data.field * multiplier`). */
  function Scale(a: NutritionInfo, m: real): NutritionInfo {
    NutritionInfo(a.calories * m, a.protein * m, a.carbs * m, a.fat * m, a.fiber * m)
  }

  predicate NonNegative(a: NutritionInfo) {
    a.calories >= 0.0 && a.protein >= 0.0 && a.carbs >= 0.0 && a.fat >= 0.0 && a.fiber >= 0.0
  }

  // ---------------------------------------------------------------------------
  // The reference table
  // ---------------------------------------------------------------------------

  /** One row of `nutritionDatabase`: a lowercase keyword and its profile per 100 g. */
  datatype Entry = Entry(key: string, profile: NutritionInfo)

  /** `nutritionDatabase`, in the order `Object.keys` visits it (insertion order). */
  const Table: seq<Entry> := [
    // meats
    Entry("frango", NutritionInfo(165.0, 31.0, 0.0, 3.6, 0.0)),
    Entry("carne", NutritionInfo(250.0, 26.0, 0.0, 17.0, 0.0)),
    Entry("peixe", NutritionInfo(206.0, 22.0, 0.0, 12.0, 0.0)),
    Entry("camarão", NutritionInfo(99.0, 24.0, 0.2, 0.3, 0.0)),
    Entry("bacon", NutritionInfo(541.0, 37.0, 1.4, 42.0, 0.0)),
    Entry("linguiça", NutritionInfo(301.0, 13.0, 1.5, 27.0, 0.0)),
    // grains and cereals
    Entry("arroz", NutritionInfo(130.0, 2.7, 28.0, 0.3, 0.4)),
    Entry("feijão", NutritionInfo(127.0, 8.7, 23.0, 0.5, 7.6)),
    Entry("farinha", NutritionInfo(364.0, 10.0, 76.0, 1.0, 2.7)),
    Entry("macarrão", NutritionInfo(131.0, 5.0, 25.0, 1.1, 1.8)),
    // dairy
    Entry("leite", NutritionInfo(61.0, 3.2, 4.8, 3.3, 0.0)),
    Entry("queijo", NutritionInfo(402.0, 25.0, 1.3, 33.0, 0.0)),
    Entry("manteiga", NutritionInfo(717.0, 0.9, 0.1, 81.0, 0.0)),
    Entry("creme de leite", NutritionInfo(345.0, 2.1, 2.8, 37.0, 0.0)),
    // vegetables
    Entry("tomate", NutritionInfo(18.0, 0.9, 3.9, 0.2, 1.2)),
    Entry("cebola", NutritionInfo(40.0, 1.1, 9.3, 0.1, 1.7)),
    Entry("alho", NutritionInfo(149.0, 6.4, 33.0, 0.5, 2.1)),
    Entry("cenoura", NutritionInfo(41.0, 0.9, 10.0, 0.2, 2.8)),
    Entry("batata", NutritionInfo(77.0, 2.0, 17.0, 0.1, 2.1)),
    // others
    Entry("ovo", NutritionInfo(155.0, 13.0, 1.1, 11.0, 0.0)),
    Entry("açúcar", NutritionInfo(387.0, 0.0, 100.0, 0.0, 0.0)),
    Entry("óleo", NutritionInfo(884.0, 0.0, 0.0, 100.0, 0.0)),
    Entry("chocolate", NutritionInfo(546.0, 4.9, 61.0, 31.0, 7.0)),
    Entry("leite condensado", NutritionInfo(321.0, 7.9, 54.0, 8.4, 0.0))
  ]

  /** Every profile in the table is non-negative. */
  lemma TableNonNegative()
    ensures forall n :: 0 <= n < |Table| ==> NonNegative(Table[n].profile)
  {
  }

  // ---------------------------------------------------------------------------
  // The quantity multiplier
  // ---------------------------------------------------------------------------

  /**
   * The regular expression `(\d+)\s*g` matches at index `p` with the
   * capture group `s[p..q]`: one or more digits, then white space, then `g`.
   */
  ghost predicate GramMatch(s: string, p: int, q: int) {
    && 0 <= p < q <= |s|
    && AllDigits(s[p..q])
    && exists w :: q <= w < |s| && AllSpaces(s[q..w]) && s[w] == 'g'
  }

  /** The match `String.prototype.match` reports: the one starting leftmost. */
  ghost predicate LeftmostGramMatch(s: string, p: int, q: int) {
    GramMatch(s, p, q) && forall p', q' :: 0 <= p' < p ==> !GramMatch(s, p', q')
  }

  /** End of the run of digits starting at `i`. */
  function DigitRunEnd(s: string, i: nat): (j: nat)
    requires i <= |s|
    ensures i <= j <= |s| && AllDigits(s[i..j]) && (j == |s| || !IsDigit(s[j]))
    decreases |s| - i
  {
    if i < |s| && IsDigit(s[i]) then
      var j := DigitRunEnd(s, i + 1);
      assert s[i..j] == [s[i]] + s[i + 1..j];
      j
    else
      i
  }

  /** End of the run of white space starting at `i`. */
  function SpaceRunEnd(s: string, i: nat): (j: nat)
    requires i <= |s|
    ensures i <= j <= |s| && AllSpaces(s[i..j]) && (j == |s| || !IsSpace(s[j]))
    decreases |s| - i
  {
    if i < |s| && IsSpace(s[i]) then
      var j := SpaceRunEnd(s, i + 1);
      assert s[i..j] == [s[i]] + s[i + 1..j];
      j
    else
      i
  }

  lemma DigitRunEndUnique(s: string, i: nat, j: nat)
    requires i <= j <= |s| && AllDigits(s[i..j]) && (j == |s| || !IsDigit(s[j]))
    ensures DigitRunEnd(s, i) == j
  {
  }

  lemma SpaceRunEndUnique(s: string, i: nat, j: nat)
    requires i <= j <= |s| && AllSpaces(s[i..j]) && (j == |s| || !IsSpace(s[j]))
    ensures SpaceRunEnd(s, i) == j
  {
  }

  /** Whether the regular expression matches at `p`, decided by scanning the two runs. */
  predicate MatchesHere(s: string, p: nat)
    requires p < |s|
  {
    IsDigit(s[p]) && var w := SpaceRunEnd(s, DigitRunEnd(s, p)); w < |s| && s[w] == 'g'
  }

  /** The scan decides the regular expression at `p`, and the capture ends where the digits end. */
  lemma MatchesHereCorrect(s: string, p: nat)
    requires p < |s|
    ensures MatchesHere(s, p) ==> GramMatch(s, p, DigitRunEnd(s, p))
    ensures forall q :: GramMatch(s, p, q) ==> MatchesHere(s, p) && q == DigitRunEnd(s, p)
  {
    if MatchesHere(s, p) {
      var q := DigitRunEnd(s, p);
      var w := SpaceRunEnd(s, q);
      assert s[p..q][0] == s[p];
      assert q <= w < |s| && AllSpaces(s[q..w]) && s[w] == 'g';
    }
    forall q | GramMatch(s, p, q)
      ensures MatchesHere(s, p) && q == DigitRunEnd(s, p)
    {
      var w :| q <= w < |s| && AllSpaces(s[q..w]) && s[w] == 'g';
      assert IsDigit(s[p..q][0]);
      if q < w {
        assert IsSpace(s[q..w][0]);
      }
      DigitRunEndUnique(s, p, q);
      SpaceRunEndUnique(s, q, w);
    }
  }

  /** `parseInt` of a string of decimal digits. */
  function DigitsValue(t: string): nat
    requires AllDigits(t)
  {
    if t == [] then 0
    else DigitsValue(t[..|t| - 1]) * 10 + (t[|t| - 1] as int - '0' as int)
  }

  /** The regular expression tried at every index from `p` on, as a backtracking matcher does. */
  function GramQuantityFrom(s: string, p: nat): (r: Option<nat>)
    requires p <= |s|
    ensures r.None? <==> forall p', q :: p <= p' ==> !GramMatch(s, p', q)
    ensures r.Some? ==> exists p', q ::
              && p <= p' && GramMatch(s, p', q) && r.value == DigitsValue(s[p'..q])
              && forall p'', q'' :: p <= p'' < p' ==> !GramMatch(s, p'', q'')
    decreases |s| - p
  {
    if p == |s| then
      None
    else if MatchesHere(s, p) then
      GramQuantityHere(s, p);
      Some(DigitsValue(s[p..DigitRunEnd(s, p)]))
    else
      var rest := GramQuantityFrom(s, p + 1);
      GramQuantitySkip(s, p, rest);
      rest
  }

  /** A match at `p` is the leftmost one from `p` on. */
  lemma GramQuantityHere(s: string, p: nat)
    requires p < |s| && MatchesHere(s, p)
    ensures GramMatch(s, p, DigitRunEnd(s, p))
    ensures exists p', q ::
              && p <= p' && GramMatch(s, p', q) && DigitsValue(s[p..DigitRunEnd(s, p)]) == DigitsValue(s[p'..q])
              && forall p'', q'' :: p <= p'' < p' ==> !GramMatch(s, p'', q'')
  {
    MatchesHereCorrect(s, p);
    var q := DigitRunEnd(s, p);
    assert p <= p && GramMatch(s, p, q) && DigitsValue(s[p..q]) == DigitsValue(s[p..q]);
  }

  /** Without a match at `p`, the search from `p` finds what the search from `p + 1` finds. */
  lemma GramQuantitySkip(s: string, p: nat, rest: Option<nat>)
    requires p < |s| && !MatchesHere(s, p)
    requires rest.None? <==> forall p', q :: p + 1 <= p' ==> !GramMatch(s, p', q)
    requires rest.Some? ==> exists p', q ::
               && p + 1 <= p' && GramMatch(s, p', q) && rest.value == DigitsValue(s[p'..q])
               && forall p'', q'' :: p + 1 <= p'' < p' ==> !GramMatch(s, p'', q'')
    ensures rest.None? <==> forall p', q :: p <= p' ==> !GramMatch(s, p', q)
    ensures rest.Some? ==> exists p', q ::
              && p <= p' && GramMatch(s, p', q) && rest.value == DigitsValue(s[p'..q])
              && forall p'', q'' :: p <= p'' < p' ==> !GramMatch(s, p'', q'')
  {
    MatchesHereCorrect(s, p);
    assert forall q :: !GramMatch(s, p, q);
    if rest.Some? {
      var p', q :| && p + 1 <= p' && GramMatch(s, p', q) && rest.value == DigitsValue(s[p'..q])
                   && forall p'', q'' :: p + 1 <= p'' < p' ==> !GramMatch(s, p'', q'');
      assert forall p'', q'' :: p <= p'' < p' ==> !GramMatch(s, p'', q'');
    }
  }

  /**
   * `s.match(/(\d+)\s*g/)` followed by `parseInt(match[1])`: the number
   * written in the capture group of the leftmost match, if any.
   */
  function FirstGramQuantity(s: string): (r: Option<nat>)
    ensures r.None? <==> forall p, q :: !GramMatch(s, p, q)
    ensures r.Some? ==> exists p, q :: LeftmostGramMatch(s, p, q) && r.value == DigitsValue(s[p..q])
  {
    GramQuantityFrom(s, 0)
  }

  /** A match starts at most one capture group, so the leftmost match is unique. */
  lemma LeftmostGramMatchUnique(s: string, p: int, q: int, p': int, q': int)
    requires LeftmostGramMatch(s, p, q) && LeftmostGramMatch(s, p', q')
    ensures p == p' && q == q'
  {
    MatchesHereCorrect(s, p);
  }

  /**
   * The leftmost match captures a whole maximal run of digits: the
   * character before it and the character after it are not digits.
   */
  lemma LeftmostMatchIsMaximalRun(s: string, p: int, q: int)
    requires LeftmostGramMatch(s, p, q)
    ensures p == 0 || !IsDigit(s[p - 1])
    ensures q == |s| || !IsDigit(s[q])
  {
    var w :| q <= w < |s| && AllSpaces(s[q..w]) && s[w] == 'g';
    if q < w {
      assert IsSpace(s[q..w][0]);
    }
    if p > 0 && IsDigit(s[p - 1]) {
      assert s[p - 1..q] == [s[p - 1]] + s[p..q];
      assert GramMatch(s, p - 1, q);
      assert false;
    }
  }

  /**
   * The multiplier chain of `calculateNutrition`, applied to the lowercased
   * line: "kg" or "quilo" gives 5; otherwise any `g` sends the line to the
   * regular expression, whose number is read as grams, with 0.5 kept when
   * it fails; only a line without `g` reaches the cup, spoon and can rules.
   */
  function Multiplier(lower: string): (m: real)
    ensures m >= 0.0
  {
    if Includes(lower, "kg") || Includes(lower, "quilo") then
      5.0
    else if Includes(lower, "g") && !Includes(lower, "kg") then
      match FirstGramQuantity(lower)
      case Some(n) => n as real / 100.0
      case None => 0.5
    else if Includes(lower, "xícara") then
      1.2
    else if Includes(lower, "colher") then
      0.15
    else if Includes(lower, "lata") then
      2.0
    else
      0.5
  }

  /** "kg" or "quilo" anywhere in the line gives 5, whatever else the line says. */
  lemma KiloRule(lower: string)
    requires Includes(lower, "kg") || Includes(lower, "quilo")
    ensures Multiplier(lower) == 5.0
  {
  }

  /**
   * Without "kg" or "quilo", a line holding the letter `g` anywhere is
   * scaled by the leftmost `<digits> <spaces> g` read as grams, and by 0.5
   * when there is none, whether or not it mentions a cup, spoon or can.
   */
  lemma GramRule(lower: string)
    requires !Includes(lower, "kg") && !Includes(lower, "quilo") && 'g' in lower
    ensures forall p, q :: LeftmostGramMatch(lower, p, q) ==>
              Multiplier(lower) == DigitsValue(lower[p..q]) as real / 100.0
    ensures (forall p, q :: !GramMatch(lower, p, q)) ==> Multiplier(lower) == 0.5
  {
    IncludesChar(lower, 'g');
    forall p, q | LeftmostGramMatch(lower, p, q)
      ensures Multiplier(lower) == DigitsValue(lower[p..q]) as real / 100.0
    {
      var r := FirstGramQuantity(lower);
      var p', q' :| LeftmostGramMatch(lower, p', q') && r.value == DigitsValue(lower[p'..q']);
      LeftmostGramMatchUnique(lower, p, q, p', q');
    }
  }

  /** Only a line without `g` (nor "kg", "quilo") is scaled by cups (1.2), spoons (0.15), cans (2) or 0.5. */
  lemma UnitRule(lower: string)
    requires !Includes(lower, "kg") && !Includes(lower, "quilo") && 'g' !in lower
    ensures Includes(lower, "xícara") ==> Multiplier(lower) == 1.2
    ensures !Includes(lower, "xícara") && Includes(lower, "colher") ==> Multiplier(lower) == 0.15
    ensures !Includes(lower, "xícara") && !Includes(lower, "colher") && Includes(lower, "lata") ==>
              Multiplier(lower) == 2.0
    ensures !Includes(lower, "xícara") && !Includes(lower, "colher") && !Includes(lower, "lata") ==>
              Multiplier(lower) == 0.5
  {
    IncludesChar(lower, 'g');
  }

  // ---------------------------------------------------------------------------
  // Accumulation, as a specification
  // ---------------------------------------------------------------------------

  /** What one table row adds for a lowercased line: profile × multiplier when its key occurs. */
  function Contribution(lower: string, e: Entry): NutritionInfo {
    if Includes(lower, e.key) then Scale(e.profile, Multiplier(lower)) else Zero
  }

  /** The inner `forEach` over the keys of `es`, for one lowercased line. */
  function KeysTotal(lower: string, es: seq<Entry>): NutritionInfo {
    if es == [] then Zero
    else Add(KeysTotal(lower, es[..|es| - 1]), Contribution(lower, es[|es| - 1]))
  }

  lemma KeysTotalStep(lower: string, es: seq<Entry>, k: nat)
    requires k < |es|
    ensures KeysTotal(lower, es[..k + 1]) == Add(KeysTotal(lower, es[..k]), Contribution(lower, es[k]))
  {
    assert es[..k + 1][..k] == es[..k];
  }

  /**
   * One step of the inner loop: adding key `k`'s contribution to totals that
   * hold `before` plus the keys ahead of it gives `before` plus the keys up to
   * and including `k`.
   */
  lemma AccumulateKey(lower: string, es: seq<Entry>, k: nat, before: NutritionInfo, acc: NutritionInfo)
    requires k < |es|
    requires acc == Add(before, KeysTotal(lower, es[..k]))
    ensures Add(acc, Contribution(lower, es[k])) == Add(before, KeysTotal(lower, es[..k + 1]))
  {
    KeysTotalStep(lower, es, k);
    AddAssociates(before, KeysTotal(lower, es[..k]), Contribution(lower, es[k]));
  }

  /** What one ingredient line adds to the totals. */
  function LineTotal(line: string): NutritionInfo {
    KeysTotal(Lower(line), Table)
  }

  /** The unrounded totals after the outer `forEach` over the lines. */
  function RawTotal(lines: seq<string>): NutritionInfo {
    if lines == [] then Zero
    else Add(RawTotal(lines[..|lines| - 1]), LineTotal(lines[|lines| - 1]))
  }

  /** One step of the outer loop: the totals of the first `i` lines plus line `i`. */
  lemma RawTotalStep(lines: seq<string>, i: nat, before: NutritionInfo)
    requires i < |lines|
    requires before == RawTotal(lines[..i])
    ensures Add(before, LineTotal(lines[i])) == RawTotal(lines[..i + 1])
  {
    assert lines[..i + 1][..i] == lines[..i];
  }

  /** `Math.round`: the nearest integer, halves rounded up. */
  function Round(x: real): (r: int)
    ensures r as real - 0.5 <= x < r as real + 0.5
  {
    (x + 0.5).Floor
  }

  /** `Math.round(x * 10) / 10`: the nearest multiple of one tenth, halves rounded up. */
  function RoundTenth(x: real): (r: real)
    ensures r - 0.05 <= x < r + 0.05
    ensures (r * 10.0).Floor as real == r * 10.0
  {
    Round(x * 10.0) as real / 10.0
  }

  /** The final `return`: calories to a whole number, the other fields to one decimal. */
  function Rounded(t: NutritionInfo): NutritionInfo {
    NutritionInfo(Round(t.calories) as real, RoundTenth(t.protein), RoundTenth(t.carbs),
                  RoundTenth(t.fat), RoundTenth(t.fiber))
  }

  /** The value `calculateNutrition` returns. */
  function Estimate(lines: seq<string>): NutritionInfo {
    Rounded(RawTotal(lines))
  }

  /**
   * The `let multiplier` block of `calculateNutrition`: start from the
   * default 0.5 and overwrite it along the if/else chain.
   */
  method InferMultiplier(lowerIngredient: string) returns (multiplier: real)
    ensures multiplier == Multiplier(lowerIngredient)
  {
    multiplier := 0.5;
    if Includes(lowerIngredient, "kg") || Includes(lowerIngredient, "quilo") {
      multiplier := 5.0;
    } else if Includes(lowerIngredient, "g") && !Includes(lowerIngredient, "kg") {
      var found := FirstGramQuantity(lowerIngredient);
      if found.Some? {
        multiplier := found.value as real / 100.0;
      }
    } else if Includes(lowerIngredient, "xícara") {
      multiplier := 1.2;
    } else if Includes(lowerIngredient, "colher") {
      multiplier := 0.15;
    } else if Includes(lowerIngredient, "lata") {
      multiplier := 2.0;
    }
  }

  // ---------------------------------------------------------------------------
  // calculateNutrition
  // ---------------------------------------------------------------------------

  /**
   * `calculateNutrition`: for every line, lowercase it; for every table key
   * it contains, pick the multiplier and add profile × multiplier to the
   * five running totals; round once at the end.
   */
  method CalculateNutrition(ingredients: seq<string>) returns (result: NutritionInfo)
    ensures result == Estimate(ingredients)
  {
    var calories, protein, carbs, fat, fiber := 0.0, 0.0, 0.0, 0.0, 0.0;
    for i := 0 to |ingredients|
      invariant NutritionInfo(calories, protein, carbs, fat, fiber) == RawTotal(ingredients[..i])
    {
      var lowerIngredient := Lower(ingredients[i]);
      ghost var before := NutritionInfo(calories, protein, carbs, fat, fiber);
      for k := 0 to |Table|
        invariant NutritionInfo(calories, protein, carbs, fat, fiber)
                  == Add(before, KeysTotal(lowerIngredient, Table[..k]))
      {
        AccumulateKey(lowerIngredient, Table, k, before, NutritionInfo(calories, protein, carbs, fat, fiber));
        var key := Table[k].key;
        if Includes(lowerIngredient, key) {
          var data := Table[k].profile;
          var multiplier := InferMultiplier(lowerIngredient);
          var scaled := Scale(data, multiplier);
          calories := calories + scaled.calories;
          protein := protein + scaled.protein;
          carbs := carbs + scaled.carbs;
          fat := fat + scaled.fat;
          fiber := fiber + scaled.fiber;
        }
      }
      assert Table[..|Table|] == Table;
      RawTotalStep(ingredients, i, before);
    }
    assert ingredients[..|ingredients|] == ingredients;
    result := NutritionInfo(Round(calories) as real, Round(protein * 10.0) as real / 10.0,
                            Round(carbs * 10.0) as real / 10.0, Round(fat * 10.0) as real / 10.0,
                            Round(fiber * 10.0) as real / 10.0);
  }
}
