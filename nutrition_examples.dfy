/**
 * Worked ingredient lines, several of them taken from the recipes shipped
 * with the application, with the multiplier and the estimate the model
 * assigns to each. Each line is a parameter pinned to its text by the
 * precondition, and each example is split into small steps: the line is
 * already lower case, which units and which table keys it mentions, its
 * multiplier, its raw total and the rounded estimate.
 */
module NutritionExamples {
  import opened JsText
  import opened NutritionCalculator
  import opened NutritionProperties

  /** A line holding no `k` and missing some letter of "quilo" mentions neither "kg" nor "quilo". */
  lemma NoKiloMarker(s: string, c: char)
    requires 'k' !in s && c in "quilo" && c !in s
    ensures !Includes(s, "kg") && !Includes(s, "quilo")
  {
    MissingChar(s, "kg", 'k');
    MissingChar(s, "quilo", c);
  }

  /** The gram pattern ends in a `g` right after a digit or a white-space character. */
  lemma GramMatchEndsAfterDigitOrSpace(s: string, p: int, q: int)
    requires GramMatch(s, p, q)
    ensures exists w :: 0 < w < |s| && s[w] == 'g' && (IsDigit(s[w - 1]) || IsSpace(s[w - 1]))
  {
    var w :| q <= w < |s| && AllSpaces(s[q..w]) && s[w] == 'g';
    if w == q {
      assert s[p..q][q - 1 - p] == s[w - 1];
    } else {
      assert s[q..w][w - 1 - q] == s[w - 1];
    }
  }

  /** So a line whose every `g` follows something else has no match. */
  lemma NoGramMatch(s: string)
    requires forall w :: 0 < w < |s| && s[w] == 'g' ==> !IsDigit(s[w - 1]) && !IsSpace(s[w - 1])
    ensures forall p, q :: !GramMatch(s, p, q)
  {
    forall p, q
      ensures !GramMatch(s, p, q)
    {
      if GramMatch(s, p, q) {
        GramMatchEndsAfterDigitOrSpace(s, p, q);
      }
    }
  }

  /**
   * A line with a single `g`, right after a character that is neither a
   * digit nor white space, has no match.
   */
  lemma NoGramMatchAtSingleG(s: string, n: nat)
    requires 0 < n < |s| && s[n] == 'g' && 'g' !in s[..n] && 'g' !in s[n + 1..]
    requires !IsDigit(s[n - 1]) && !IsSpace(s[n - 1])
    ensures forall p, q :: !GramMatch(s, p, q)
  {
    NoGramMatch(s);
  }

  /** One line's estimate is its line total, rounded. */
  lemma EstimateOfOneLine(s: string)
    ensures Estimate([s]) == Rounded(LineTotal(s))
    ensures RawTotal([s]) == LineTotal(s)
  {
    assert [s][..0] == [];
    assert RawTotal([s]) == Add(RawTotal([]), LineTotal(s));
    AddZero(LineTotal(s));
  }

  // ---- "2 colheres de sopa de manteiga" ----------------------------------

  lemma ButterSpoonIsLower()
    ensures Lower("2 colheres de sopa de manteiga") == "2 colheres de sopa de manteiga"
  {
  }

  lemma ButterSpoonHasNoKilo(s: string)
    requires s == "2 colheres de sopa de manteiga"
    ensures !Includes(s, "kg") && !Includes(s, "quilo")
  {
    NoKiloMarker(s, 'q');
  }

  lemma ButterSpoonHasG(s: string)
    requires s == "2 colheres de sopa de manteiga"
    ensures 'g' in s
  {
    assert s[28] == 'g';
  }

  lemma ButterSpoonMentionsASpoon(s: string)
    requires s == "2 colheres de sopa de manteiga"
    ensures Includes(s, "colher")
  {
    assert s[2] == 'c' && s[3] == 'o' && s[4] == 'l' && s[5] == 'h' && s[6] == 'e' && s[7] == 'r';
    assert s[2..8] == "colher";
    assert OccursAt(s, "colher", 2);
  }

  lemma ButterSpoonHasNoGramMatch(s: string)
    requires s == "2 colheres de sopa de manteiga"
    ensures forall p, q :: !GramMatch(s, p, q)
  {
    assert s == "2 colheres de sopa de mantei" + "ga";
    assert s[..28] == "2 colheres de sopa de mantei";
    assert s[29..] == "a";
    NoGramMatchAtSingleG(s, 28);
  }

  /**
   * "2 colheres de sopa de manteiga" mentions a spoon, but the `g` of
   * "manteiga" routes it to the gram rule; its regular expression finds no
   * number before a `g`, so the multiplier stays 0.5 instead of 0.15.
   */
  lemma SpoonOfButterIsNotASpoon(s: string)
    requires s == "2 colheres de sopa de manteiga"
    ensures Includes(Lower(s), "colher")
    ensures Multiplier(Lower(s)) == 0.5
  {
    ButterSpoonIsLower();
    ButterSpoonHasNoKilo(s);
    ButterSpoonHasG(s);
    ButterSpoonMentionsASpoon(s);
    ButterSpoonHasNoGramMatch(s);
    GramRule(s);
  }

  // ---- "1kg de mandioca" -------------------------------------------------

  lemma CassavaIsLower()
    ensures Lower("1kg de mandioca") == "1kg de mandioca"
  {
  }

  lemma CassavaMentionsKilo(s: string)
    requires s == "1kg de mandioca"
    ensures Includes(s, "kg")
  {
    assert s[1] == 'k' && s[2] == 'g';
    assert s[1..3] == "kg";
    assert OccursAt(s, "kg", 1);
  }

  /** "1kg de mandioca": a kilogram line gets 5. */
  lemma KilogramOfCassava(s: string)
    requires s == "1kg de mandioca"
    ensures Multiplier(Lower(s)) == 5.0
  {
    CassavaIsLower();
    CassavaMentionsKilo(s);
    KiloRule(s);
  }

  // ---- "500g de feijão preto" --------------------------------------------

  lemma BeansIsLower()
    ensures Lower("500g de feijão preto") == "500g de feijão preto"
  {
  }

  lemma BeansHasNoKilo(s: string)
    requires s == "500g de feijão preto"
    ensures !Includes(s, "kg") && !Includes(s, "quilo")
  {
    NoKiloMarker(s, 'q');
  }

  lemma BeansLeftmostMatch(s: string)
    requires s == "500g de feijão preto"
    ensures 'g' in s && LeftmostGramMatch(s, 0, 3)
    ensures DigitsValue(s[0..3]) == 500
  {
    assert s[3] == 'g';
    assert AllSpaces(s[3..3]);
    assert GramMatch(s, 0, 3);
    assert s[0..3] == "500";
    assert "500"[..2] == "50" && "50"[..1] == "5" && "5"[..0] == "";
    assert DigitsValue("500") == 500;
  }

  /** "500g de feijão preto": 500 grams is 5 times the 100 g profile. */
  lemma FiveHundredGramsOfBeans(s: string)
    requires s == "500g de feijão preto"
    ensures Multiplier(Lower(s)) == 5.0
  {
    BeansIsLower();
    BeansHasNoKilo(s);
    BeansLeftmostMatch(s);
    GramRule(s);
  }

  // ---- "100g de arroz" ---------------------------------------------------

  lemma RiceIsLower()
    ensures Lower("100g de arroz") == "100g de arroz"
  {
  }

  lemma RiceHasNoKilo(s: string)
    requires s == "100g de arroz"
    ensures !Includes(s, "kg") && !Includes(s, "quilo")
  {
    NoKiloMarker(s, 'q');
  }

  lemma RiceLeftmostMatch(s: string)
    requires s == "100g de arroz"
    ensures 'g' in s && LeftmostGramMatch(s, 0, 3)
    ensures DigitsValue(s[0..3]) == 100
  {
    assert s[3] == 'g';
    assert AllSpaces(s[3..3]);
    assert GramMatch(s, 0, 3);
    assert s[0..3] == "100";
    assert "100"[..2] == "10" && "10"[..1] == "1" && "1"[..0] == "";
    assert DigitsValue("100") == 100;
  }

  lemma RiceMultiplier(s: string)
    requires s == "100g de arroz"
    ensures Multiplier(Lower(s)) == 1.0
  {
    RiceIsLower();
    RiceHasNoKilo(s);
    RiceLeftmostMatch(s);
    GramRule(s);
  }

  lemma RiceKeys0To2(s: string)
    requires s == "100g de arroz"
    ensures forall m :: 0 <= m < 3 ==> (Includes(s, Table[m].key) <==> false)
  {
    forall m | 0 <= m < 3
      ensures Includes(s, Table[m].key) <==> false
    {
      if m == 0 {
        MissingPair(s, Table[0].key, 0);
      } else if m == 1 {
        MissingPair(s, Table[1].key, 0);
      } else if m == 2 {
        MissingPair(s, Table[2].key, 0);
      }
    }
  }

  lemma RiceKeys3To5(s: string)
    requires s == "100g de arroz"
    ensures forall m :: 3 <= m < 6 ==> (Includes(s, Table[m].key) <==> false)
  {
    forall m | 3 <= m < 6
      ensures Includes(s, Table[m].key) <==> false
    {
      if m == 3 {
        MissingPair(s, Table[3].key, 0);
      } else if m == 4 {
        MissingPair(s, Table[4].key, 0);
      } else if m == 5 {
        MissingPair(s, Table[5].key, 0);
      }
    }
  }

  lemma RiceKeys6To8(s: string)
    requires s == "100g de arroz"
    ensures forall m :: 6 <= m < 9 ==> (Includes(s, Table[m].key) <==> m == 6)
  {
    forall m | 6 <= m < 9
      ensures Includes(s, Table[m].key) <==> m == 6
    {
      if m == 6 {
        assert |Table[6].key| == 5 && s[8] == Table[6].key[0] && s[9] == Table[6].key[1] && s[10] == Table[6].key[2] && s[11] == Table[6].key[3] && s[12] == Table[6].key[4];
        assert s[8..13] == Table[6].key;
        assert OccursAt(s, Table[6].key, 8);
      } else if m == 7 {
        MissingPair(s, Table[7].key, 0);
      } else if m == 8 {
        MissingPair(s, Table[8].key, 0);
      }
    }
  }

  lemma RiceKeys9To11(s: string)
    requires s == "100g de arroz"
    ensures forall m :: 9 <= m < 12 ==> (Includes(s, Table[m].key) <==> false)
  {
    forall m | 9 <= m < 12
      ensures Includes(s, Table[m].key) <==> false
    {
      if m == 9 {
        MissingPair(s, Table[9].key, 0);
      } else if m == 10 {
        MissingPair(s, Table[10].key, 0);
      } else if m == 11 {
        MissingPair(s, Table[11].key, 0);
      }
    }
  }

  lemma RiceKeys12To14(s: string)
    requires s == "100g de arroz"
    ensures forall m :: 12 <= m < 15 ==> (Includes(s, Table[m].key) <==> false)
  {
    forall m | 12 <= m < 15
      ensures Includes(s, Table[m].key) <==> false
    {
      if m == 12 {
        MissingPair(s, Table[12].key, 0);
      } else if m == 13 {
        MissingPair(s, Table[13].key, 0);
      } else if m == 14 {
        MissingPair(s, Table[14].key, 0);
      }
    }
  }

  lemma RiceKeys15To17(s: string)
    requires s == "100g de arroz"
    ensures forall m :: 15 <= m < 18 ==> (Includes(s, Table[m].key) <==> false)
  {
    forall m | 15 <= m < 18
      ensures Includes(s, Table[m].key) <==> false
    {
      if m == 15 {
        MissingPair(s, Table[15].key, 0);
      } else if m == 16 {
        MissingPair(s, Table[16].key, 0);
      } else if m == 17 {
        MissingPair(s, Table[17].key, 0);
      }
    }
  }

  lemma RiceKeys18To20(s: string)
    requires s == "100g de arroz"
    ensures forall m :: 18 <= m < 21 ==> (Includes(s, Table[m].key) <==> false)
  {
    forall m | 18 <= m < 21
      ensures Includes(s, Table[m].key) <==> false
    {
      if m == 18 {
        MissingPair(s, Table[18].key, 0);
      } else if m == 19 {
        MissingPair(s, Table[19].key, 0);
      } else if m == 20 {
        MissingPair(s, Table[20].key, 0);
      }
    }
  }

  lemma RiceKeys21To23(s: string)
    requires s == "100g de arroz"
    ensures forall m :: 21 <= m < 24 ==> (Includes(s, Table[m].key) <==> false)
  {
    forall m | 21 <= m < 24
      ensures Includes(s, Table[m].key) <==> false
    {
      if m == 21 {
        MissingPair(s, Table[21].key, 0);
      } else if m == 22 {
        MissingPair(s, Table[22].key, 0);
      } else if m == 23 {
        MissingPair(s, Table[23].key, 0);
      }
    }
  }

  lemma RiceLineTotal(s: string)
    requires s == "100g de arroz"
    ensures LineTotal(s) == Scale(Table[6].profile, 1.0)
  {
    RiceIsLower();
    RiceMultiplier(s);
    RiceKeys0To2(s);
    RiceKeys3To5(s);
    RiceKeys6To8(s);
    RiceKeys9To11(s);
    RiceKeys12To14(s);
    RiceKeys15To17(s);
    RiceKeys18To20(s);
    RiceKeys21To23(s);
    KeysTotalSingle(s, Table, 6);
  }

  /** "100g de arroz": the rice profile taken once, {130, 2.7, 28, 0.3, 0.4}. */
  lemma HundredGramsOfRice(s: string)
    requires s == "100g de arroz"
    ensures Estimate([s]) == NutritionInfo(130.0, 2.7, 28.0, 0.3, 0.4)
  {
    RiceLineTotal(s);
    EstimateOfOneLine(s);
  }

  // ---- "1 xícara de farinha" ---------------------------------------------

  lemma FlourIsLower()
    ensures Lower("1 xícara de farinha") == "1 xícara de farinha"
  {
  }

  lemma FlourHasNoKilo(s: string)
    requires s == "1 xícara de farinha"
    ensures !Includes(s, "kg") && !Includes(s, "quilo")
  {
    NoKiloMarker(s, 'q');
  }

  lemma FlourHasNoG(s: string)
    requires s == "1 xícara de farinha"
    ensures 'g' !in s
  {
  }

  lemma FlourMentionsACup(s: string)
    requires s == "1 xícara de farinha"
    ensures Includes(s, "xícara")
  {
    assert s[2] == 'x' && s[3] == 'í' && s[4] == 'c' && s[5] == 'a' && s[6] == 'r' && s[7] == 'a';
    assert s[2..8] == "xícara";
    assert OccursAt(s, "xícara", 2);
  }

  lemma FlourMultiplier(s: string)
    requires s == "1 xícara de farinha"
    ensures Multiplier(Lower(s)) == 1.2
  {
    FlourIsLower();
    FlourHasNoKilo(s);
    FlourHasNoG(s);
    FlourMentionsACup(s);
    UnitRule(s);
  }

  lemma FlourKeys0To2(s: string)
    requires s == "1 xícara de farinha"
    ensures forall m :: 0 <= m < 3 ==> (Includes(s, Table[m].key) <==> false)
  {
    forall m | 0 <= m < 3
      ensures Includes(s, Table[m].key) <==> false
    {
      if m == 0 {
        MissingPair(s, Table[0].key, 0);
      } else if m == 1 {
        MissingPair(s, Table[1].key, 2);
      } else if m == 2 {
        MissingPair(s, Table[2].key, 0);
      }
    }
  }

  lemma FlourKeys3To5(s: string)
    requires s == "1 xícara de farinha"
    ensures forall m :: 3 <= m < 6 ==> (Includes(s, Table[m].key) <==> false)
  {
    forall m | 3 <= m < 6
      ensures Includes(s, Table[m].key) <==> false
    {
      if m == 3 {
        MissingPair(s, Table[3].key, 1);
      } else if m == 4 {
        MissingPair(s, Table[4].key, 0);
      } else if m == 5 {
        MissingPair(s, Table[5].key, 0);
      }
    }
  }

  lemma FlourKeys6To8(s: string)
    requires s == "1 xícara de farinha"
    ensures forall m :: 6 <= m < 9 ==> (Includes(s, Table[m].key) <==> m == 8)
  {
    forall m | 6 <= m < 9
      ensures Includes(s, Table[m].key) <==> m == 8
    {
      if m == 6 {
        MissingPair(s, Table[6].key, 1);
      } else if m == 7 {
        MissingPair(s, Table[7].key, 0);
      } else if m == 8 {
        assert |Table[8].key| == 7 && s[12] == Table[8].key[0] && s[13] == Table[8].key[1] && s[14] == Table[8].key[2] && s[15] == Table[8].key[3] && s[16] == Table[8].key[4] && s[17] == Table[8].key[5] && s[18] == Table[8].key[6];
        assert s[12..19] == Table[8].key;
        assert OccursAt(s, Table[8].key, 12);
      }
    }
  }

  lemma FlourKeys9To11(s: string)
    requires s == "1 xícara de farinha"
    ensures forall m :: 9 <= m < 12 ==> (Includes(s, Table[m].key) <==> false)
  {
    forall m | 9 <= m < 12
      ensures Includes(s, Table[m].key) <==> false
    {
      if m == 9 {
        MissingPair(s, Table[9].key, 0);
      } else if m == 10 {
        MissingPair(s, Table[10].key, 0);
      } else if m == 11 {
        MissingPair(s, Table[11].key, 0);
      }
    }
  }

  lemma FlourKeys12To14(s: string)
    requires s == "1 xícara de farinha"
    ensures forall m :: 12 <= m < 15 ==> (Includes(s, Table[m].key) <==> false)
  {
    forall m | 12 <= m < 15
      ensures Includes(s, Table[m].key) <==> false
    {
      if m == 12 {
        MissingPair(s, Table[12].key, 0);
      } else if m == 13 {
        MissingPair(s, Table[13].key, 0);
      } else if m == 14 {
        MissingPair(s, Table[14].key, 0);
      }
    }
  }

  lemma FlourKeys15To17(s: string)
    requires s == "1 xícara de farinha"
    ensures forall m :: 15 <= m < 18 ==> (Includes(s, Table[m].key) <==> false)
  {
    forall m | 15 <= m < 18
      ensures Includes(s, Table[m].key) <==> false
    {
      if m == 15 {
        MissingPair(s, Table[15].key, 0);
      } else if m == 16 {
        MissingPair(s, Table[16].key, 0);
      } else if m == 17 {
        MissingPair(s, Table[17].key, 0);
      }
    }
  }

  lemma FlourKeys18To20(s: string)
    requires s == "1 xícara de farinha"
    ensures forall m :: 18 <= m < 21 ==> (Includes(s, Table[m].key) <==> false)
  {
    forall m | 18 <= m < 21
      ensures Includes(s, Table[m].key) <==> false
    {
      if m == 18 {
        MissingPair(s, Table[18].key, 0);
      } else if m == 19 {
        MissingPair(s, Table[19].key, 0);
      } else if m == 20 {
        MissingPair(s, Table[20].key, 0);
      }
    }
  }

  lemma FlourKeys21To23(s: string)
    requires s == "1 xícara de farinha"
    ensures forall m :: 21 <= m < 24 ==> (Includes(s, Table[m].key) <==> false)
  {
    forall m | 21 <= m < 24
      ensures Includes(s, Table[m].key) <==> false
    {
      if m == 21 {
        MissingPair(s, Table[21].key, 0);
      } else if m == 22 {
        MissingPair(s, Table[22].key, 0);
      } else if m == 23 {
        MissingPair(s, Table[23].key, 0);
      }
    }
  }

  lemma FlourLineTotal(s: string)
    requires s == "1 xícara de farinha"
    ensures LineTotal(s) == Scale(Table[8].profile, 1.2)
  {
    FlourIsLower();
    FlourMultiplier(s);
    FlourKeys0To2(s);
    FlourKeys3To5(s);
    FlourKeys6To8(s);
    FlourKeys9To11(s);
    FlourKeys12To14(s);
    FlourKeys15To17(s);
    FlourKeys18To20(s);
    FlourKeys21To23(s);
    KeysTotalSingle(s, Table, 8);
  }

  /**
   * "1 xícara de farinha": a cup of flour, 1.2 times its profile, gives
   * round(364 × 1.2) = 437 calories and round(10 × 76 × 1.2) / 10 = 91.2 g
   * of carbohydrate.
   */
  lemma CupOfFlour(s: string)
    requires s == "1 xícara de farinha"
    ensures Estimate([s]) == NutritionInfo(437.0, 12.0, 91.2, 1.2, 3.2)
  {
    FlourLineTotal(s);
    EstimateOfOneLine(s);
    FlourRounded();
  }

  lemma FlourRounded()
    ensures Rounded(Scale(Table[8].profile, 1.2)) == NutritionInfo(437.0, 12.0, 91.2, 1.2, 3.2)
  {
    assert Scale(Table[8].profile, 1.2) == NutritionInfo(436.8, 12.0, 91.2, 1.2, 3.24);
  }

  // ---- "queijo e manteiga" -----------------------------------------------

  lemma CheeseButterIsLower()
    ensures Lower("queijo e manteiga") == "queijo e manteiga"
  {
  }

  lemma CheeseButterHasNoKilo(s: string)
    requires s == "queijo e manteiga"
    ensures !Includes(s, "kg") && !Includes(s, "quilo")
  {
    NoKiloMarker(s, 'l');
  }

  lemma CheeseButterHasG(s: string)
    requires s == "queijo e manteiga"
    ensures 'g' in s
  {
    assert s[15] == 'g';
  }

  lemma CheeseButterHasNoGramMatch(s: string)
    requires s == "queijo e manteiga"
    ensures forall p, q :: !GramMatch(s, p, q)
  {
    assert s == "queijo e mantei" + "ga";
    assert s[..15] == "queijo e mantei";
    assert s[16..] == "a";
    NoGramMatchAtSingleG(s, 15);
  }

  lemma CheeseButterMultiplier(s: string)
    requires s == "queijo e manteiga"
    ensures Multiplier(Lower(s)) == 0.5
  {
    CheeseButterIsLower();
    CheeseButterHasNoKilo(s);
    CheeseButterHasG(s);
    CheeseButterHasNoGramMatch(s);
    GramRule(s);
  }

  lemma CheeseButterKeys0To2(s: string)
    requires s == "queijo e manteiga"
    ensures forall m :: 0 <= m < 3 ==> (Includes(s, Table[m].key) <==> false)
  {
    forall m | 0 <= m < 3
      ensures Includes(s, Table[m].key) <==> false
    {
      if m == 0 {
        MissingPair(s, Table[0].key, 0);
      } else if m == 1 {
        MissingPair(s, Table[1].key, 0);
      } else if m == 2 {
        MissingPair(s, Table[2].key, 0);
      }
    }
  }

  lemma CheeseButterKeys3To5(s: string)
    requires s == "queijo e manteiga"
    ensures forall m :: 3 <= m < 6 ==> (Includes(s, Table[m].key) <==> false)
  {
    forall m | 3 <= m < 6
      ensures Includes(s, Table[m].key) <==> false
    {
      if m == 3 {
        MissingPair(s, Table[3].key, 0);
      } else if m == 4 {
        MissingPair(s, Table[4].key, 0);
      } else if m == 5 {
        MissingPair(s, Table[5].key, 0);
      }
    }
  }

  lemma CheeseButterKeys6To8(s: string)
    requires s == "queijo e manteiga"
    ensures forall m :: 6 <= m < 9 ==> (Includes(s, Table[m].key) <==> false)
  {
    forall m | 6 <= m < 9
      ensures Includes(s, Table[m].key) <==> false
    {
      if m == 6 {
        MissingPair(s, Table[6].key, 0);
      } else if m == 7 {
        MissingPair(s, Table[7].key, 0);
      } else if m == 8 {
        MissingPair(s, Table[8].key, 0);
      }
    }
  }

  lemma CheeseButterKeys9To11(s: string)
    requires s == "queijo e manteiga"
    ensures forall m :: 9 <= m < 12 ==> (Includes(s, Table[m].key) <==> m == 11)
  {
    forall m | 9 <= m < 12
      ensures Includes(s, Table[m].key) <==> m == 11
    {
      if m == 9 {
        MissingPair(s, Table[9].key, 1);
      } else if m == 10 {
        MissingPair(s, Table[10].key, 0);
      } else if m == 11 {
        assert |Table[11].key| == 6 && s[0] == Table[11].key[0] && s[1] == Table[11].key[1] && s[2] == Table[11].key[2] && s[3] == Table[11].key[3] && s[4] == Table[11].key[4] && s[5] == Table[11].key[5];
        assert s[0..6] == Table[11].key;
        assert OccursAt(s, Table[11].key, 0);
      }
    }
  }

  lemma CheeseButterKeys12To14(s: string)
    requires s == "queijo e manteiga"
    ensures forall m :: 12 <= m < 15 ==> (Includes(s, Table[m].key) <==> m == 12)
  {
    forall m | 12 <= m < 15
      ensures Includes(s, Table[m].key) <==> m == 12
    {
      if m == 12 {
        assert |Table[12].key| == 8 && s[9] == Table[12].key[0] && s[10] == Table[12].key[1] && s[11] == Table[12].key[2] && s[12] == Table[12].key[3] && s[13] == Table[12].key[4] && s[14] == Table[12].key[5] && s[15] == Table[12].key[6] && s[16] == Table[12].key[7];
        assert s[9..17] == Table[12].key;
        assert OccursAt(s, Table[12].key, 9);
      } else if m == 13 {
        MissingPair(s, Table[13].key, 0);
      } else if m == 14 {
        MissingPair(s, Table[14].key, 0);
      }
    }
  }

  lemma CheeseButterKeys15To17(s: string)
    requires s == "queijo e manteiga"
    ensures forall m :: 15 <= m < 18 ==> (Includes(s, Table[m].key) <==> false)
  {
    forall m | 15 <= m < 18
      ensures Includes(s, Table[m].key) <==> false
    {
      if m == 15 {
        MissingPair(s, Table[15].key, 0);
      } else if m == 16 {
        MissingPair(s, Table[16].key, 0);
      } else if m == 17 {
        MissingPair(s, Table[17].key, 0);
      }
    }
  }

  lemma CheeseButterKeys18To20(s: string)
    requires s == "queijo e manteiga"
    ensures forall m :: 18 <= m < 21 ==> (Includes(s, Table[m].key) <==> false)
  {
    forall m | 18 <= m < 21
      ensures Includes(s, Table[m].key) <==> false
    {
      if m == 18 {
        MissingPair(s, Table[18].key, 0);
      } else if m == 19 {
        MissingPair(s, Table[19].key, 0);
      } else if m == 20 {
        MissingPair(s, Table[20].key, 0);
      }
    }
  }

  lemma CheeseButterKeys21To23(s: string)
    requires s == "queijo e manteiga"
    ensures forall m :: 21 <= m < 24 ==> (Includes(s, Table[m].key) <==> false)
  {
    forall m | 21 <= m < 24
      ensures Includes(s, Table[m].key) <==> false
    {
      if m == 21 {
        MissingPair(s, Table[21].key, 0);
      } else if m == 22 {
        MissingPair(s, Table[22].key, 0);
      } else if m == 23 {
        MissingPair(s, Table[23].key, 0);
      }
    }
  }

  lemma CheeseButterLineTotal(s: string)
    requires s == "queijo e manteiga"
    ensures LineTotal(s) == Add(Scale(Table[11].profile, 0.5), Scale(Table[12].profile, 0.5))
  {
    CheeseButterIsLower();
    CheeseButterMultiplier(s);
    CheeseButterKeys0To2(s);
    CheeseButterKeys3To5(s);
    CheeseButterKeys6To8(s);
    CheeseButterKeys9To11(s);
    CheeseButterKeys12To14(s);
    CheeseButterKeys15To17(s);
    CheeseButterKeys18To20(s);
    CheeseButterKeys21To23(s);
    KeysTotalPair(s, Table, 11, 12);
  }

  lemma CheeseButterSum()
    ensures Add(Scale(Table[11].profile, 0.5), Scale(Table[12].profile, 0.5))
            == NutritionInfo(559.5, 12.95, 0.7, 57.0, 0.0)
  {
  }

  /**
   * "queijo e manteiga": cheese and butter both match, each at 0.5 (the `g`
   * of "manteiga" again), and the 559.5 calories round half up to 560.
   */
  lemma CheeseAndButter(s: string)
    requires s == "queijo e manteiga"
    ensures RawTotal([s]).calories == 559.5
    ensures Estimate([s]).calories == 560.0
    ensures Estimate([s]).fat == 57.0
  {
    CheeseButterLineTotal(s);
    CheeseButterSum();
    EstimateOfOneLine(s);
  }
}
