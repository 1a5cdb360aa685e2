/** The examples in the documentation comments of src/lib/luhn.ts and the
    expectations of src/lib/luhn.spec.ts, evaluated on the model.

    Each example is stated for every configuration whose dictionary is laid
    out like the default one, the ten digits followed by the letters a to z;
    BaseDictionaryLayout shows that `Luhn.dictionary` is such a dictionary.
    Where the code and a test expectation disagree, the lemma states what the
    code computes. */
module LuhnExamples {

  import opened Luhn
  import opened LuhnProperties

  // ---------------------------------------------------------------------------
  // The default dictionary

  /** The character at position `k` of the default dictionary. */
  function DefaultChar(k: int): (c: char)
    requires 0 <= k < 36
    ensures k < 10 ==> '0' <= c <= '9' && c as int - '0' as int == k
    ensures k >= 10 ==> 'a' <= c <= 'z' && c as int - 'a' as int == k - 10
  {
    if k < 10 then ('0' as int + k) as char else ('a' as int + k - 10) as char
  }

  /** The 36 characters of the default dictionary, in its order. */
  predicate DefaultLayout(d: string)
  {
    |d| == 36 && forall k :: 0 <= k < 36 ==> d[k] == DefaultChar(k)
  }

  /** Positions 0 to 5 of `Luhn.dictionary`; the lemmas below cover the
      rest. */
  lemma BaseDictionaryFrom0()
    ensures forall k :: 0 <= k < 6 ==> BaseDictionary[k] == DefaultChar(k)
  {
  }

  lemma BaseDictionaryFrom6()
    ensures forall k :: 6 <= k < 12 ==> BaseDictionary[k] == DefaultChar(k)
  {
  }

  lemma BaseDictionaryFrom12()
    ensures forall k :: 12 <= k < 18 ==> BaseDictionary[k] == DefaultChar(k)
  {
  }

  lemma BaseDictionaryFrom18()
    ensures forall k :: 18 <= k < 24 ==> BaseDictionary[k] == DefaultChar(k)
  {
  }

  lemma BaseDictionaryFrom24()
    ensures forall k :: 24 <= k < 30 ==> BaseDictionary[k] == DefaultChar(k)
  {
  }

  lemma BaseDictionaryFrom30()
    ensures forall k :: 30 <= k < 36 ==> BaseDictionary[k] == DefaultChar(k)
  {
  }

  /** `Luhn.dictionary`, built with `Luhn.sensitive` false, is the default
      dictionary. */
  lemma BaseDictionaryLayout()
    ensures DefaultLayout(BaseDictionary)
  {
    BaseDictionaryFrom0();
    BaseDictionaryFrom6();
    BaseDictionaryFrom12();
    BaseDictionaryFrom18();
    BaseDictionaryFrom24();
    BaseDictionaryFrom30();
  }

  /** Only digits and lower-case letters. */
  predicate DigitsAndLower(d: string)
  {
    forall i :: 0 <= i < |d| ==> '0' <= d[i] <= '9' || 'a' <= d[i] <= 'z'
  }

  /** The default dictionary has distinct characters, none of which
      lower-casing changes, and holds no upper-case letter, punctuation or
      non-ASCII character. */
  lemma LayoutWellFormed(d: string)
    requires DefaultLayout(d)
    ensures Unique(d) && CaseStable(d) && DigitsAndLower(d)
  {
  }

  /** For the class `Luhn` itself the round trip holds for every input, with
      or without the case-sensitivity argument. */
  lemma BaseRoundTrip(input: string, sensitive: bool)
    ensures Generate(Base, input, sensitive).Ok?
    ensures var g := Generate(Base, input, sensitive).value;
            Validate(Base, input + g.checksum, sensitive) == Ok(ValidateResult(g.phrase + g.checksum, true))
  {
    BaseDictionaryLayout();
    LayoutWellFormed(BaseDictionary);
    RoundTrip(Base, input, sensitive);
  }

  /** A character outside digits and lower-case letters is not in such a
      dictionary. */
  lemma OutsideNotIn(d: string, c: char)
    requires DigitsAndLower(d)
    requires !('0' <= c <= '9' || 'a' <= c <= 'z')
    ensures c !in d
  {
  }

  // ---------------------------------------------------------------------------
  // Phrases

  /** A string none of whose characters is in the dictionary filters to
      nothing. */
  lemma {:induction false} FilterNone(d: string, s: string)
    requires forall i :: 0 <= i < |s| ==> s[i] !in d
    ensures Filter(d, s) == []
  {
    if s != [] {
      FilterNone(d, s[1..]);
    }
  }

  /** Lower-casing maps `s` to `t` character by character. */
  lemma LowerIs(s: string, t: string)
    requires |s| == |t|
    requires forall i :: 0 <= i < |s| ==> LowerChar(s[i]) == t[i]
    ensures Lower(s) == t
  {
  }

  /** A string made of characters of a case-stable dictionary is its own
      phrase. */
  lemma PhraseOfAllIn(cfg: Config, input: string, sensitive: bool)
    requires CaseStable(cfg.dictionary) && AllIn(cfg.dictionary, input)
    ensures FilteredPhrase(cfg, input, sensitive) == input
  {
    var d := cfg.dictionary;
    assert Lower(input) == input by {
      forall i | 0 <= i < |input| ensures LowerChar(input[i]) == input[i] {
        var j := CharToIndex(d, input[i]);
      }
    }
    FilterKeeps(d, input);
  }

  /** The characters of a string and of its reversal are the same. */
  lemma AllInReverse(d: string, s: string)
    requires AllIn(d, Reverse(s))
    ensures AllIn(d, s)
  {
    var r := Reverse(s);
    forall i | 0 <= i < |s| ensures s[i] in d {
      assert s[i] == r[|s| - 1 - i];
    }
  }

  // ---------------------------------------------------------------------------
  // Sums, one character at a time

  /** One step of the reducer at position `k`, knowing only the characters
      from `k` on. */
  lemma SumFrom(d: string, r: string, k: int, factor: int)
    requires 0 <= k < |r| && r[k] in d && AllIn(d, r[k + 1..]) && IsFactor(factor)
    ensures AllIn(d, r[k..])
    ensures Sum(d, r[k..], factor) == Addend(d, r[k], factor) + Sum(d, r[k + 1..], Flip(factor))
  {
    assert r[k..][0] == r[k] && r[k..][1..] == r[k + 1..];
    assert AllIn(d, r[k..]) by {
      forall i | 0 <= i < |r[k..]| ensures r[k..][i] in d {
        if i > 0 {
          assert r[k..][i] == r[k + 1..][i - 1];
        }
      }
    }
  }

  /** `generate` once its phrase, the reversed phrase and the sum are
      known. */
  lemma GenerateFrom(cfg: Config, input: string, sensitive: bool, phrase: string, reversed: string, sum: int)
    requires |cfg.dictionary| % 2 == 0 && |cfg.dictionary| > 0
    requires FilteredPhrase(cfg, input, sensitive) == phrase && Reverse(phrase) == reversed
    requires AllIn(cfg.dictionary, reversed) && Sum(cfg.dictionary, reversed, 2) == sum
    ensures Generate(cfg, input, sensitive)
              == Ok(GenerateResult(phrase, [cfg.dictionary[CheckCodePoint(sum, |cfg.dictionary|)]]))
  {
    GenerateUnfold(cfg, input, sensitive);
  }

  /** `validate` on the input followed by a dictionary character: the phrase
      is the input's plus that character, and it is valid exactly when the
      character is the one `generate` returns. */
  lemma ValidateAppended(cfg: Config, input: string, sensitive: bool, c: char)
    requires Unique(cfg.dictionary) && |cfg.dictionary| % 2 == 0 && c in cfg.dictionary
    requires EffectiveSensitive(cfg, sensitive) || LowerChar(c) == c
    ensures Generate(cfg, input, sensitive).Ok?
    ensures Validate(cfg, input + [c], sensitive)
              == Ok(ValidateResult(FilteredPhrase(cfg, input, sensitive) + [c],
                                   Generate(cfg, input, sensitive).value.checksum == [c]))
  {
    CheckCharacterUnique(cfg, input, sensitive, c);
    PhraseAppend(cfg, input, sensitive, c);
    ValidateUnfold(cfg, input + [c], sensitive);
  }

  /** Inputs with the same phrase give the same results. */
  lemma SamePhrase(cfg: Config, a: string, b: string, sensitive: bool)
    requires FilteredPhrase(cfg, a, sensitive) == FilteredPhrase(cfg, b, sensitive)
    ensures Generate(cfg, a, sensitive) == Generate(cfg, b, sensitive)
    ensures Validate(cfg, a, sensitive) == Validate(cfg, b, sensitive)
  {
  }

  /** Upper-case letters are not in a dictionary of digits and lower-case
      letters, so a case-sensitive filter drops them all. */
  lemma FilterUpper(d: string, s: string)
    requires DigitsAndLower(d)
    requires forall i :: 0 <= i < |s| ==> 'A' <= s[i] <= 'Z'
    ensures Filter(d, s) == []
  {
    forall i | 0 <= i < |s| ensures s[i] !in d {
      OutsideNotIn(d, s[i]);
    }
    FilterNone(d, s);
  }

  /** `generate` once its phrase, the reversed phrase, the sum and the check
      character are known. */
  lemma GenerateIs(cfg: Config, input: string, sensitive: bool, phrase: string, reversed: string, sum: int, c: char)
    requires |cfg.dictionary| % 2 == 0 && |cfg.dictionary| > 0
    requires FilteredPhrase(cfg, input, sensitive) == phrase && Reverse(phrase) == reversed
    requires AllIn(cfg.dictionary, reversed) && Sum(cfg.dictionary, reversed, 2) == sum
    requires cfg.dictionary[CheckCodePoint(sum, |cfg.dictionary|)] == c
    ensures Generate(cfg, input, sensitive) == Ok(GenerateResult(phrase, [c]))
  {
    GenerateFrom(cfg, input, sensitive, phrase, reversed, sum);
  }

  // ---------------------------------------------------------------------------
  // 'foo' and 'FoO'
  /** The positions, in the dictionary, of the characters of "oof". */
  predicate FooPositions(d: string)
  {
    CharToIndex(d, 'f') == 15 && CharToIndex(d, 'o') == 24
  }

  lemma FooSumFrom0(d: string, r: string)
    requires |d| == 36 && FooPositions(d)
    requires |r| == 3 && r[0] == 'o' && r[1] == 'o' && r[2] == 'f'
    ensures AllIn(d, r[0..]) && Sum(d, r[0..], 2) == 67
  {
    assert r[3..] == [];
    SumFrom(d, r, 2, 2);
    assert Sum(d, r[2..], 2) == 30;
    SumFrom(d, r, 1, 1);
    assert Sum(d, r[1..], 1) == 54;
    SumFrom(d, r, 0, 2);
    assert Sum(d, r[0..], 2) == 67;
  }

  lemma FooSumAt(d: string, r: string)
    requires |d| == 36 && FooPositions(d)
    requires |r| == 3 && r[0] == 'o' && r[1] == 'o' && r[2] == 'f'
    ensures AllIn(d, r) && Sum(d, r, 2) == 67
  {
    FooSumFrom0(d, r);
    assert r[0..] == r;
  }

  lemma FooLetters0()
    ensures "oof"[0] == 'o' && "oof"[1] == 'o' && "oof"[2] == 'f'
  {
  }

  /** The reducer's sum over the reversed 'foo'. */
  lemma SumFoo(d: string)
    requires |d| == 36 && FooPositions(d)
    ensures AllIn(d, "oof") && Sum(d, "oof", 2) == 67
  {
    FooLetters0();
    FooSumAt(d, "oof");
  }

  lemma FooPositionsOf(d: string)
    requires DefaultLayout(d)
    ensures FooPositions(d)
  {
    LayoutWellFormed(d);
    IndexRoundTrip(d, 15);
    IndexRoundTrip(d, 24);
  }

  lemma ReverseFoo()
    ensures Reverse("foo") == "oof"
  {
    ReverseIs("foo", "oof");
  }

  lemma CheckFoo()
    ensures CheckCodePoint(67, 36) == 5
  {
  }

  lemma GenerateFooOn(cfg: Config)
    requires |cfg.dictionary| == 36 && CaseStable(cfg.dictionary) && FooPositions(cfg.dictionary)
    requires cfg.dictionary[5] == '5'
    ensures Generate(cfg, "foo", false) == Ok(GenerateResult("foo", "5"))
  {
    var d := cfg.dictionary;
    SumFoo(d);
    ReverseFoo();
    AllInReverse(d, "foo");
    PhraseOfAllIn(cfg, "foo", false);
    GenerateFrom(cfg, "foo", false, "foo", "oof", 67);
    CheckFoo();
  }

  /** `Luhn.generate('foo')` gives phrase 'foo' and check character '5'. */
  lemma GenerateFoo(cfg: Config)
    requires DefaultLayout(cfg.dictionary)
    ensures Generate(cfg, "foo", false) == Ok(GenerateResult("foo", "5"))
  {
    LayoutWellFormed(cfg.dictionary);
    FooPositionsOf(cfg.dictionary);
    GenerateFooOn(cfg);
  }

  /** `Luhn.generate('FoO')` gives the same as `Luhn.generate('foo')`. */
  lemma GenerateFoO(cfg: Config)
    requires DefaultLayout(cfg.dictionary) && !cfg.sensitive
    ensures Generate(cfg, "FoO", false) == Ok(GenerateResult("foo", "5"))
  {
    GenerateFoo(cfg);
    LowerIs("FoO", "foo");
    GenerateIgnoresCase(cfg, "FoO", false);
  }

  lemma ValidateFooOn(cfg: Config)
    requires Unique(cfg.dictionary) && CaseStable(cfg.dictionary) && !cfg.sensitive
    requires Generate(cfg, "foo", false) == Ok(GenerateResult("foo", "5"))
    requires Generate(cfg, "FoO", false) == Ok(GenerateResult("foo", "5"))
    ensures Validate(cfg, "foo5", false) == Ok(ValidateResult("foo5", true))
    ensures Validate(cfg, "FoO5", false) == Ok(ValidateResult("foo5", true))
  {
    assert "foo5" == "foo" + "5" && "FoO5" == "FoO" + "5";
    RoundTrip(cfg, "foo", false);
    RoundTrip(cfg, "FoO", false);
  }

  /** `Luhn.validate('foo5')` and `Luhn.validate('FoO5')` accept, with phrase
      'foo5'. */
  lemma ValidateFoo(cfg: Config)
    requires DefaultLayout(cfg.dictionary) && !cfg.sensitive
    ensures Validate(cfg, "foo5", false) == Ok(ValidateResult("foo5", true))
    ensures Validate(cfg, "FoO5", false) == Ok(ValidateResult("foo5", true))
  {
    LayoutWellFormed(cfg.dictionary);
    GenerateFoo(cfg);
    GenerateFoO(cfg);
    ValidateFooOn(cfg);
  }

  // ---------------------------------------------------------------------------
  // 'FoO' with the case-sensitivity argument
  /** The positions, in the dictionary, of the characters of "o". */
  predicate OPositions(d: string)
  {
    CharToIndex(d, 'o') == 24
  }

  lemma OSumFrom0(d: string, r: string)
    requires |d| == 36 && OPositions(d)
    requires |r| == 1 && r[0] == 'o'
    ensures AllIn(d, r[0..]) && Sum(d, r[0..], 2) == 13
  {
    assert r[1..] == [];
    SumFrom(d, r, 0, 2);
    assert Sum(d, r[0..], 2) == 13;
  }

  lemma OSumAt(d: string, r: string)
    requires |d| == 36 && OPositions(d)
    requires |r| == 1 && r[0] == 'o'
    ensures AllIn(d, r) && Sum(d, r, 2) == 13
  {
    OSumFrom0(d, r);
    assert r[0..] == r;
  }

  lemma OLetters0()
    ensures "o"[0] == 'o'
  {
  }

  /** The reducer's sum over the reversed 'o'. */
  lemma SumO(d: string)
    requires |d| == 36 && OPositions(d)
    ensures AllIn(d, "o") && Sum(d, "o", 2) == 13
  {
    OLetters0();
    OSumAt(d, "o");
  }

  lemma OPositionsOf(d: string)
    requires DefaultLayout(d)
    ensures OPositions(d)
  {
    LayoutWellFormed(d);
    IndexRoundTrip(d, 24);
  }

  lemma ReverseO()
    ensures Reverse("o") == "o"
  {
    ReverseIs("o", "o");
  }

  lemma CheckO()
    ensures CheckCodePoint(13, 36) == 23
  {
  }

  lemma FilterFoO(d: string)
    requires 'F' !in d && 'O' !in d && 'o' in d
    ensures Filter(d, "FoO") == "o"
  {
    FilterOne(d, 'F');
    FilterOne(d, 'o');
    FilterOne(d, 'O');
    assert "Fo" == "F" + "o" && "FoO" == "Fo" + "O";
    FilterAppend(d, "F", "o");
    FilterAppend(d, "Fo", "O");
  }

  lemma FilterFoO5(d: string)
    requires 'F' !in d && 'O' !in d && 'o' in d && '5' in d
    ensures Filter(d, "FoO5") == "o5"
  {
    FilterFoO(d);
    FilterOne(d, '5');
    assert "FoO5" == "FoO" + "5";
    FilterAppend(d, "FoO", "5");
  }

  lemma GenerateFoOSensitiveOn(cfg: Config)
    requires |cfg.dictionary| == 36 && OPositions(cfg.dictionary) && cfg.dictionary[23] == 'n'
    requires 'F' !in cfg.dictionary && 'O' !in cfg.dictionary
    ensures Generate(cfg, "FoO", true) == Ok(GenerateResult("o", "n"))
  {
    var d := cfg.dictionary;
    SumO(d);
    ReverseO();
    FilterFoO(d);
    GenerateFrom(cfg, "FoO", true, "o", "o", 13);
    CheckO();
  }

  /** `Luhn.generate('FoO', true)` keeps only the 'o' that is in the
      dictionary, and its check character is 'n'. */
  lemma GenerateFoOSensitive(cfg: Config)
    requires DefaultLayout(cfg.dictionary)
    ensures Generate(cfg, "FoO", true) == Ok(GenerateResult("o", "n"))
  {
    var d := cfg.dictionary;
    LayoutWellFormed(d);
    OPositionsOf(d);
    OutsideNotIn(d, 'F');
    OutsideNotIn(d, 'O');
    GenerateFoOSensitiveOn(cfg);
  }

  lemma ValidateFoOSensitiveOn(cfg: Config)
    requires Unique(cfg.dictionary) && |cfg.dictionary| == 36
    requires 'F' !in cfg.dictionary && 'O' !in cfg.dictionary && 'o' in cfg.dictionary && '5' in cfg.dictionary
    requires Generate(cfg, "FoO", true) == Ok(GenerateResult("o", "n"))
    ensures Validate(cfg, "FoO5", true) == Ok(ValidateResult("o5", false))
  {
    assert "FoO5" == "FoO" + ['5'];
    CheckCharacterUnique(cfg, "FoO", true, '5');
    FilterFoO5(cfg.dictionary);
    ValidateUnfold(cfg, "FoO5", true);
  }

  /** `Luhn.validate('FoO5', true)` rejects, with phrase 'o5'. */
  lemma ValidateFoOSensitive(cfg: Config)
    requires DefaultLayout(cfg.dictionary)
    ensures Validate(cfg, "FoO5", true) == Ok(ValidateResult("o5", false))
  {
    var d := cfg.dictionary;
    LayoutWellFormed(d);
    OutsideNotIn(d, 'F');
    OutsideNotIn(d, 'O');
    assert d[5] == '5' && d[24] == 'o';
    GenerateFoOSensitive(cfg);
    ValidateFoOSensitiveOn(cfg);
  }

  // ---------------------------------------------------------------------------
  // 'justarandomstringofletters'
  /** The positions, in the dictionary, of the characters of "srettelfognirtsmodnaratsuj". */
  predicate JustPositions(d: string)
  {
    CharToIndex(d, 'a') == 10 && CharToIndex(d, 'd') == 13 && CharToIndex(d, 'e') == 14 && CharToIndex(d, 'f') == 15 && CharToIndex(d, 'g') == 16 && CharToIndex(d, 'i') == 18 && CharToIndex(d, 'j') == 19 && CharToIndex(d, 'l') == 21 && CharToIndex(d, 'm') == 22 && CharToIndex(d, 'n') == 23 && CharToIndex(d, 'o') == 24 && CharToIndex(d, 'r') == 27 && CharToIndex(d, 's') == 28 && CharToIndex(d, 't') == 29 && CharToIndex(d, 'u') == 30
  }

  lemma JustSumFrom25(d: string, r: string)
    requires |d| == 36 && JustPositions(d)
    requires |r| == 26 && r[25] == 'j'
    ensures AllIn(d, r[25..]) && Sum(d, r[25..], 1) == 19
  {
    assert r[26..] == [];
    SumFrom(d, r, 25, 1);
    assert Sum(d, r[25..], 1) == 19;
  }

  lemma JustSumFrom20(d: string, r: string)
    requires |d| == 36 && JustPositions(d)
    requires |r| == 26 && r[20] == 'r' && r[21] == 'a' && r[22] == 't' && r[23] == 's' && r[24] == 'u'
    requires AllIn(d, r[25..]) && Sum(d, r[25..], 1) == 19
    ensures AllIn(d, r[20..]) && Sum(d, r[20..], 2) == 124
  {
    SumFrom(d, r, 24, 2);
    assert Sum(d, r[24..], 2) == 44;
    SumFrom(d, r, 23, 1);
    assert Sum(d, r[23..], 1) == 72;
    SumFrom(d, r, 22, 2);
    assert Sum(d, r[22..], 2) == 95;
    SumFrom(d, r, 21, 1);
    assert Sum(d, r[21..], 1) == 105;
    SumFrom(d, r, 20, 2);
    assert Sum(d, r[20..], 2) == 124;
  }

  lemma JustSumFrom15(d: string, r: string)
    requires |d| == 36 && JustPositions(d)
    requires |r| == 26 && r[15] == 'm' && r[16] == 'o' && r[17] == 'd' && r[18] == 'n' && r[19] == 'a'
    requires AllIn(d, r[20..]) && Sum(d, r[20..], 2) == 124
    ensures AllIn(d, r[15..]) && Sum(d, r[15..], 1) == 193
  {
    SumFrom(d, r, 19, 1);
    assert Sum(d, r[19..], 1) == 134;
    SumFrom(d, r, 18, 2);
    assert Sum(d, r[18..], 2) == 145;
    SumFrom(d, r, 17, 1);
    assert Sum(d, r[17..], 1) == 158;
    SumFrom(d, r, 16, 2);
    assert Sum(d, r[16..], 2) == 171;
    SumFrom(d, r, 15, 1);
    assert Sum(d, r[15..], 1) == 193;
  }

  lemma JustSumFrom10(d: string, r: string)
    requires |d| == 36 && JustPositions(d)
    requires |r| == 26 && r[10] == 'n' && r[11] == 'i' && r[12] == 'r' && r[13] == 't' && r[14] == 's'
    requires AllIn(d, r[15..]) && Sum(d, r[15..], 1) == 193
    ensures AllIn(d, r[10..]) && Sum(d, r[10..], 2) == 291
  {
    SumFrom(d, r, 14, 2);
    assert Sum(d, r[14..], 2) == 214;
    SumFrom(d, r, 13, 1);
    assert Sum(d, r[13..], 1) == 243;
    SumFrom(d, r, 12, 2);
    assert Sum(d, r[12..], 2) == 262;
    SumFrom(d, r, 11, 1);
    assert Sum(d, r[11..], 1) == 280;
    SumFrom(d, r, 10, 2);
    assert Sum(d, r[10..], 2) == 291;
  }

  lemma JustSumFrom5(d: string, r: string)
    requires |d| == 36 && JustPositions(d)
    requires |r| == 26 && r[5] == 'e' && r[6] == 'l' && r[7] == 'f' && r[8] == 'o' && r[9] == 'g'
    requires AllIn(d, r[10..]) && Sum(d, r[10..], 2) == 291
    ensures AllIn(d, r[5..]) && Sum(d, r[5..], 1) == 356
  {
    SumFrom(d, r, 9, 1);
    assert Sum(d, r[9..], 1) == 307;
    SumFrom(d, r, 8, 2);
    assert Sum(d, r[8..], 2) == 320;
    SumFrom(d, r, 7, 1);
    assert Sum(d, r[7..], 1) == 335;
    SumFrom(d, r, 6, 2);
    assert Sum(d, r[6..], 2) == 342;
    SumFrom(d, r, 5, 1);
    assert Sum(d, r[5..], 1) == 356;
  }

  lemma JustSumFrom0(d: string, r: string)
    requires |d| == 36 && JustPositions(d)
    requires |r| == 26 && r[0] == 's' && r[1] == 'r' && r[2] == 'e' && r[3] == 't' && r[4] == 't'
    requires AllIn(d, r[5..]) && Sum(d, r[5..], 1) == 356
    ensures AllIn(d, r[0..]) && Sum(d, r[0..], 2) == 484
  {
    SumFrom(d, r, 4, 2);
    assert Sum(d, r[4..], 2) == 379;
    SumFrom(d, r, 3, 1);
    assert Sum(d, r[3..], 1) == 408;
    SumFrom(d, r, 2, 2);
    assert Sum(d, r[2..], 2) == 436;
    SumFrom(d, r, 1, 1);
    assert Sum(d, r[1..], 1) == 463;
    SumFrom(d, r, 0, 2);
    assert Sum(d, r[0..], 2) == 484;
  }

  lemma JustSumAt(d: string, r: string)
    requires |d| == 36 && JustPositions(d)
    requires |r| == 26 && r[0] == 's' && r[1] == 'r' && r[2] == 'e' && r[3] == 't' && r[4] == 't' && r[5] == 'e' && r[6] == 'l' && r[7] == 'f' && r[8] == 'o' && r[9] == 'g' && r[10] == 'n' && r[11] == 'i' && r[12] == 'r' && r[13] == 't' && r[14] == 's' && r[15] == 'm' && r[16] == 'o' && r[17] == 'd' && r[18] == 'n' && r[19] == 'a' && r[20] == 'r' && r[21] == 'a' && r[22] == 't' && r[23] == 's' && r[24] == 'u' && r[25] == 'j'
    ensures AllIn(d, r) && Sum(d, r, 2) == 484
  {
    JustSumFrom25(d, r);
    JustSumFrom20(d, r);
    JustSumFrom15(d, r);
    JustSumFrom10(d, r);
    JustSumFrom5(d, r);
    JustSumFrom0(d, r);
    assert r[0..] == r;
  }

  lemma JustLetters0()
    ensures "srettelfognirtsmodnaratsuj"[0] == 's' && "srettelfognirtsmodnaratsuj"[1] == 'r'
  {
  }

  lemma JustLetters2()
    ensures "srettelfognirtsmodnaratsuj"[2] == 'e' && "srettelfognirtsmodnaratsuj"[3] == 't'
  {
  }

  lemma JustLetters4()
    ensures "srettelfognirtsmodnaratsuj"[4] == 't' && "srettelfognirtsmodnaratsuj"[5] == 'e' && "srettelfognirtsmodnaratsuj"[6] == 'l'
  {
  }

  lemma JustLetters7()
    ensures "srettelfognirtsmodnaratsuj"[7] == 'f' && "srettelfognirtsmodnaratsuj"[8] == 'o' && "srettelfognirtsmodnaratsuj"[9] == 'g' && "srettelfognirtsmodnaratsuj"[10] == 'n' && "srettelfognirtsmodnaratsuj"[11] == 'i'
  {
  }

  lemma JustLetters12()
    ensures "srettelfognirtsmodnaratsuj"[12] == 'r' && "srettelfognirtsmodnaratsuj"[13] == 't' && "srettelfognirtsmodnaratsuj"[14] == 's' && "srettelfognirtsmodnaratsuj"[15] == 'm' && "srettelfognirtsmodnaratsuj"[16] == 'o' && "srettelfognirtsmodnaratsuj"[17] == 'd' && "srettelfognirtsmodnaratsuj"[18] == 'n' && "srettelfognirtsmodnaratsuj"[19] == 'a' && "srettelfognirtsmodnaratsuj"[20] == 'r' && "srettelfognirtsmodnaratsuj"[21] == 'a' && "srettelfognirtsmodnaratsuj"[22] == 't' && "srettelfognirtsmodnaratsuj"[23] == 's' && "srettelfognirtsmodnaratsuj"[24] == 'u' && "srettelfognirtsmodnaratsuj"[25] == 'j'
  {
  }

  /** The reducer's sum over the reversed 'justarandomstringofletters'. */
  lemma SumJust(d: string)
    requires |d| == 36 && JustPositions(d)
    ensures AllIn(d, "srettelfognirtsmodnaratsuj") && Sum(d, "srettelfognirtsmodnaratsuj", 2) == 484
  {
    JustLetters0();
    JustLetters2();
    JustLetters4();
    JustLetters7();
    JustLetters12();
    JustSumAt(d, "srettelfognirtsmodnaratsuj");
  }

  lemma JustPositionsOf(d: string)
    requires DefaultLayout(d)
    ensures JustPositions(d)
  {
    LayoutWellFormed(d);
    IndexRoundTrip(d, 10);
    IndexRoundTrip(d, 13);
    IndexRoundTrip(d, 14);
    IndexRoundTrip(d, 15);
    IndexRoundTrip(d, 16);
    IndexRoundTrip(d, 18);
    IndexRoundTrip(d, 19);
    IndexRoundTrip(d, 21);
    IndexRoundTrip(d, 22);
    IndexRoundTrip(d, 23);
    IndexRoundTrip(d, 24);
    IndexRoundTrip(d, 27);
    IndexRoundTrip(d, 28);
    IndexRoundTrip(d, 29);
    IndexRoundTrip(d, 30);
  }

  lemma ReverseJust()
    ensures Reverse("justarandomstringofletters") == "srettelfognirtsmodnaratsuj"
  {
    ReverseIs("justarandomstringofletters", "srettelfognirtsmodnaratsuj");
  }

  lemma CheckJust()
    ensures CheckCodePoint(484, 36) == 20
  {
  }

  lemma PartsJust(cfg: Config)
    requires |cfg.dictionary| == 36 && CaseStable(cfg.dictionary) && JustPositions(cfg.dictionary)
    ensures FilteredPhrase(cfg, "justarandomstringofletters", false) == "justarandomstringofletters"
    ensures Reverse("justarandomstringofletters") == "srettelfognirtsmodnaratsuj"
    ensures AllIn(cfg.dictionary, "srettelfognirtsmodnaratsuj") && Sum(cfg.dictionary, "srettelfognirtsmodnaratsuj", 2) == 484
  {
    var d := cfg.dictionary;
    SumJust(d);
    ReverseJust();
    AllInReverse(d, "justarandomstringofletters");
    PhraseOfAllIn(cfg, "justarandomstringofletters", false);
  }

  lemma GenerateJustOn(cfg: Config)
    requires |cfg.dictionary| == 36 && CaseStable(cfg.dictionary) && JustPositions(cfg.dictionary)
    requires cfg.dictionary[20] == 'k'
    ensures Generate(cfg, "justarandomstringofletters", false) == Ok(GenerateResult("justarandomstringofletters", "k"))
  {
    PartsJust(cfg);
    CheckJust();
    GenerateIs(cfg, "justarandomstringofletters", false, "justarandomstringofletters", "srettelfognirtsmodnaratsuj", 484, 'k');
  }

  /** `Luhn.generate('justarandomstringofletters')` keeps the whole phrase, and the
      check character the code computes is 'k' (the reducer's sum is 484). */
  lemma GenerateJust(cfg: Config)
    requires DefaultLayout(cfg.dictionary)
    ensures Generate(cfg, "justarandomstringofletters", false) == Ok(GenerateResult("justarandomstringofletters", "k"))
  {
    LayoutWellFormed(cfg.dictionary);
    JustPositionsOf(cfg.dictionary);
    GenerateJustOn(cfg);
  }

  lemma LowerMixed()
    ensures Lower("justARandomStringOfLetters") == "justarandomstringofletters"
  {
    LowerIs("justARandomStringOfLetters", "justarandomstringofletters");
  }

  /** `Luhn.generate('justARandomStringOfLetters')` gives what the lower-case input
      gives. */
  lemma GenerateJustMixed(cfg: Config)
    requires DefaultLayout(cfg.dictionary) && !cfg.sensitive
    ensures Generate(cfg, "justARandomStringOfLetters", false) == Ok(GenerateResult("justarandomstringofletters", "k"))
  {
    GenerateJust(cfg);
    LowerMixed();
    GenerateIgnoresCase(cfg, "justARandomStringOfLetters", false);
  }

  // ---------------------------------------------------------------------------
  // 'just-a-random-string-of-letters'

  lemma DashesSplit()
    ensures "just-a-random-string-of-letters" == "just" + "-" + "a" + "-" + "random" + "-" + "string" + "-" + "of" + "-" + "letters"
    ensures "justarandomstringofletters" == "just" + "a" + "random" + "string" + "of" + "letters"
  {
  }

  /** Filtering drops a dash that is not in the dictionary and keeps the
      word after it. */
  lemma FilterDash(d: string, a: string, w: string)
    requires '-' !in d && AllIn(d, w)
    ensures Filter(d, a + "-" + w) == Filter(d, a) + w
  {
    FilterAppend(d, a + "-", w);
    FilterAppend(d, a, "-");
    FilterOne(d, '-');
    FilterKeeps(d, w);
  }

  lemma DashWords(d: string)
    requires JustPositions(d)
    ensures AllIn(d, "just") && AllIn(d, "a") && AllIn(d, "random")
    ensures AllIn(d, "string") && AllIn(d, "of") && AllIn(d, "letters")
  {
  }

  lemma FilterDashes(d: string)
    requires '-' !in d && JustPositions(d)
    ensures Filter(d, "just-a-random-string-of-letters") == "justarandomstringofletters"
  {
    DashWords(d);
    DashesSplit();
    FilterKeeps(d, "just");
    FilterDash(d, "just", "a");
    FilterDash(d, "just" + "-" + "a", "random");
    FilterDash(d, "just" + "-" + "a" + "-" + "random", "string");
    FilterDash(d, "just" + "-" + "a" + "-" + "random" + "-" + "string", "of");
    FilterDash(d, "just" + "-" + "a" + "-" + "random" + "-" + "string" + "-" + "of", "letters");
  }

  lemma PhraseDashes(cfg: Config)
    requires '-' !in cfg.dictionary && JustPositions(cfg.dictionary)
    ensures FilteredPhrase(cfg, "just-a-random-string-of-letters", false) == "justarandomstringofletters"
  {
    LowerIs("just-a-random-string-of-letters", "just-a-random-string-of-letters");
    FilterDashes(cfg.dictionary);
  }

  /** `Luhn.generate('just-a-random-string-of-letters')` drops the dashes: its phrase
      is 'justarandomstringofletters' and its check character that of the phrase. */
  lemma GenerateDashes(cfg: Config)
    requires DefaultLayout(cfg.dictionary)
    ensures Generate(cfg, "just-a-random-string-of-letters", false) == Ok(GenerateResult("justarandomstringofletters", "k"))
  {
    var d := cfg.dictionary;
    LayoutWellFormed(d);
    OutsideNotIn(d, '-');
    JustPositionsOf(d);
    PhraseDashes(cfg);
    GenerateJust(cfg);
    PhraseOfAllIn(cfg, "justarandomstringofletters", false);
    SamePhrase(cfg, "just-a-random-string-of-letters", "justarandomstringofletters", false);
  }

  // ---------------------------------------------------------------------------
  // 'JUSTARANDOMSTRINGOFLETTERS'

  lemma UpperLetters()
    ensures forall i :: 0 <= i < 26 ==> 'A' <= "JUSTARANDOMSTRINGOFLETTERS"[i] <= 'Z'
  {
  }

  /** `Luhn.generate('JUSTARANDOMSTRINGOFLETTERS', true)` keeps nothing: the phrase is
      empty, its sum 0 and its check character '0'. */
  lemma GenerateUpperSensitive(cfg: Config)
    requires DefaultLayout(cfg.dictionary)
    ensures Generate(cfg, "JUSTARANDOMSTRINGOFLETTERS", true) == Ok(GenerateResult([], "0"))
  {
    var d := cfg.dictionary;
    LayoutWellFormed(d);
    UpperLetters();
    FilterUpper(d, "JUSTARANDOMSTRINGOFLETTERS");
    assert d[0] == '0';
    GenerateIs(cfg, "JUSTARANDOMSTRINGOFLETTERS", true, [], [], 0, '0');
  }

  lemma LowerUpperE()
    ensures Lower("JUSTARANDOMSTRINGOFLETTERSe") == "justarandomstringofletterse"
  {
    LowerIs("JUSTARANDOMSTRINGOFLETTERSe", "justarandomstringofletterse");
  }

  lemma AppendedLiterals()
    ensures "justarandomstringofletters" + ['e'] == "justarandomstringofletterse"
    ensures "justarandomstringofletters" + ['k'] == "justarandomstringoflettersk"
    ensures "JUSTARANDOMSTRINGOFLETTERS" + ['e'] == "JUSTARANDOMSTRINGOFLETTERSe"
    ensures "JUSTARANDOMSTRINGOFLETTERS" + ['0'] == "JUSTARANDOMSTRINGOFLETTERS0"
  {
  }

  /** `Luhn.validate('justarandomstringofletterse')` rejects: 'e' is not the check
      character of the phrase. */
  lemma ValidateJustE(cfg: Config)
    requires DefaultLayout(cfg.dictionary)
    ensures Validate(cfg, "justarandomstringofletterse", false) == Ok(ValidateResult("justarandomstringofletterse", false))
  {
    var d := cfg.dictionary;
    LayoutWellFormed(d);
    GenerateJust(cfg);
    assert d[14] == 'e';
    ValidateAppended(cfg, "justarandomstringofletters", false, 'e');
    PhraseOfAllIn(cfg, "justarandomstringofletters", false);
    AppendedLiterals();
  }

  /** `Luhn.validate('justarandomstringoflettersk')` accepts: 'k' is the check
      character of the phrase. */
  lemma ValidateJustK(cfg: Config)
    requires DefaultLayout(cfg.dictionary)
    ensures Validate(cfg, "justarandomstringoflettersk", false) == Ok(ValidateResult("justarandomstringoflettersk", true))
  {
    var d := cfg.dictionary;
    LayoutWellFormed(d);
    GenerateJust(cfg);
    RoundTrip(cfg, "justarandomstringofletters", false);
    AppendedLiterals();
  }

  /** `Luhn.validate('JUSTARANDOMSTRINGOFLETTERSe')` gives what the lower-case input
      gives. */
  lemma ValidateUpperE(cfg: Config)
    requires DefaultLayout(cfg.dictionary) && !cfg.sensitive
    ensures Validate(cfg, "JUSTARANDOMSTRINGOFLETTERSe", false) == Ok(ValidateResult("justarandomstringofletterse", false))
  {
    ValidateJustE(cfg);
    LowerUpperE();
    ValidateIgnoresCase(cfg, "JUSTARANDOMSTRINGOFLETTERSe", false);
  }

  /** `Luhn.validate('JUSTARANDOMSTRINGOFLETTERS0', true)` accepts: the phrase is '0', the
      check character of the empty phrase. */
  lemma ValidateUpperSensitive(cfg: Config)
    requires DefaultLayout(cfg.dictionary)
    ensures Validate(cfg, "JUSTARANDOMSTRINGOFLETTERS0", true) == Ok(ValidateResult("0", true))
  {
    LayoutWellFormed(cfg.dictionary);
    GenerateUpperSensitive(cfg);
    RoundTrip(cfg, "JUSTARANDOMSTRINGOFLETTERS", true);
    AppendedLiterals();
    assert [] + "0" == "0";
  }

  // ---------------------------------------------------------------------------
  // 'FoO', an A with tilde, a pilcrow and '5'

  lemma LowerNonAscii()
    ensures Lower("FoO\U{C3}\U{B6}5") == "foo\U{C3}\U{B6}5"
  {
    LowerIs("FoO\U{C3}\U{B6}5", "foo\U{C3}\U{B6}5");
  }

  lemma SplitNonAscii()
    ensures "foo\U{C3}\U{B6}5" == "foo" + ['\U{C3}', '\U{B6}'] + "5"
    ensures "foo5" == "foo" + "5"
  {
  }

  lemma FilterPair(d: string, x: char, y: char)
    requires x !in d && y !in d
    ensures Filter(d, [x, y]) == []
  {
    assert [x, y] == [x] + [y];
    FilterOne(d, x);
    FilterOne(d, y);
    FilterAppend(d, [x], [y]);
  }

  /** Filtering drops two characters that are not in the dictionary. */
  lemma FilterDropTwo(d: string, a: string, x: char, y: char, b: string)
    requires x !in d && y !in d
    ensures Filter(d, a + [x, y] + b) == Filter(d, a + b)
  {
    var m := [x, y];
    FilterPair(d, x, y);
    FilterAppend(d, a + m, b);
    FilterAppend(d, a, m);
    assert Filter(d, a) + Filter(d, m) == Filter(d, a);
    FilterAppend(d, a, b);
  }

  lemma PhraseNonAscii(cfg: Config)
    requires '\U{C3}' !in cfg.dictionary && '\U{B6}' !in cfg.dictionary && !cfg.sensitive
    ensures FilteredPhrase(cfg, "FoO\U{C3}\U{B6}5", false) == FilteredPhrase(cfg, "foo5", false)
  {
    LowerNonAscii();
    SplitNonAscii();
    FilterDropTwo(cfg.dictionary, "foo", '\U{C3}', '\U{B6}', "5");
    LowerIs("foo5", "foo5");
  }

  /** `Luhn.validate('FoO\U{C3}\U{B6}5')` drops the two characters outside
      the dictionary and accepts 'foo5'. Lower-casing is ASCII only here;
      `toLowerCase` would turn the A with tilde into its lower-case form,
      which is not in the dictionary either. */
  lemma ValidateFoONonAscii(cfg: Config)
    requires DefaultLayout(cfg.dictionary) && !cfg.sensitive
    ensures Validate(cfg, "FoO\U{C3}\U{B6}5", false) == Ok(ValidateResult("foo5", true))
  {
    var d := cfg.dictionary;
    ValidateFoo(cfg);
    LayoutWellFormed(d);
    OutsideNotIn(d, '\U{C3}');
    OutsideNotIn(d, '\U{B6}');
    PhraseNonAscii(cfg);
    SamePhrase(cfg, "FoO\U{C3}\U{B6}5", "foo5", false);
  }

  // ---------------------------------------------------------------------------
  // 'justARandomStringOfLetters123'
  /** The positions, in the dictionary, of the characters of "321srettelfognirtsmodnaratsuj". */
  predicate Just123Positions(d: string)
  {
    CharToIndex(d, '1') == 1 && CharToIndex(d, '2') == 2 && CharToIndex(d, '3') == 3 && CharToIndex(d, 'a') == 10 && CharToIndex(d, 'd') == 13 && CharToIndex(d, 'e') == 14 && CharToIndex(d, 'f') == 15 && CharToIndex(d, 'g') == 16 && CharToIndex(d, 'i') == 18 && CharToIndex(d, 'j') == 19 && CharToIndex(d, 'l') == 21 && CharToIndex(d, 'm') == 22 && CharToIndex(d, 'n') == 23 && CharToIndex(d, 'o') == 24 && CharToIndex(d, 'r') == 27 && CharToIndex(d, 's') == 28 && CharToIndex(d, 't') == 29 && CharToIndex(d, 'u') == 30
  }

  lemma Just123SumFrom25(d: string, r: string)
    requires |d| == 36 && Just123Positions(d)
    requires |r| == 29 && r[25] == 't' && r[26] == 's' && r[27] == 'u' && r[28] == 'j'
    ensures AllIn(d, r[25..]) && Sum(d, r[25..], 1) == 83
  {
    assert r[29..] == [];
    SumFrom(d, r, 28, 2);
    assert Sum(d, r[28..], 2) == 3;
    SumFrom(d, r, 27, 1);
    assert Sum(d, r[27..], 1) == 33;
    SumFrom(d, r, 26, 2);
    assert Sum(d, r[26..], 2) == 54;
    SumFrom(d, r, 25, 1);
    assert Sum(d, r[25..], 1) == 83;
  }

  lemma Just123SumFrom20(d: string, r: string)
    requires |d| == 36 && Just123Positions(d)
    requires |r| == 29 && r[20] == 'd' && r[21] == 'n' && r[22] == 'a' && r[23] == 'r' && r[24] == 'a'
    requires AllIn(d, r[25..]) && Sum(d, r[25..], 1) == 83
    ensures AllIn(d, r[20..]) && Sum(d, r[20..], 2) == 199
  {
    SumFrom(d, r, 24, 2);
    assert Sum(d, r[24..], 2) == 103;
    SumFrom(d, r, 23, 1);
    assert Sum(d, r[23..], 1) == 130;
    SumFrom(d, r, 22, 2);
    assert Sum(d, r[22..], 2) == 150;
    SumFrom(d, r, 21, 1);
    assert Sum(d, r[21..], 1) == 173;
    SumFrom(d, r, 20, 2);
    assert Sum(d, r[20..], 2) == 199;
  }

  lemma Just123SumFrom15(d: string, r: string)
    requires |d| == 36 && Just123Positions(d)
    requires |r| == 29 && r[15] == 'r' && r[16] == 't' && r[17] == 's' && r[18] == 'm' && r[19] == 'o'
    requires AllIn(d, r[20..]) && Sum(d, r[20..], 2) == 199
    ensures AllIn(d, r[15..]) && Sum(d, r[15..], 1) == 310
  {
    SumFrom(d, r, 19, 1);
    assert Sum(d, r[19..], 1) == 223;
    SumFrom(d, r, 18, 2);
    assert Sum(d, r[18..], 2) == 232;
    SumFrom(d, r, 17, 1);
    assert Sum(d, r[17..], 1) == 260;
    SumFrom(d, r, 16, 2);
    assert Sum(d, r[16..], 2) == 283;
    SumFrom(d, r, 15, 1);
    assert Sum(d, r[15..], 1) == 310;
  }

  lemma Just123SumFrom10(d: string, r: string)
    requires |d| == 36 && Just123Positions(d)
    requires |r| == 29 && r[10] == 'f' && r[11] == 'o' && r[12] == 'g' && r[13] == 'n' && r[14] == 'i'
    requires AllIn(d, r[15..]) && Sum(d, r[15..], 1) == 310
    ensures AllIn(d, r[10..]) && Sum(d, r[10..], 2) == 420
  {
    SumFrom(d, r, 14, 2);
    assert Sum(d, r[14..], 2) == 311;
    SumFrom(d, r, 13, 1);
    assert Sum(d, r[13..], 1) == 334;
    SumFrom(d, r, 12, 2);
    assert Sum(d, r[12..], 2) == 366;
    SumFrom(d, r, 11, 1);
    assert Sum(d, r[11..], 1) == 390;
    SumFrom(d, r, 10, 2);
    assert Sum(d, r[10..], 2) == 420;
  }

  lemma Just123SumFrom5(d: string, r: string)
    requires |d| == 36 && Just123Positions(d)
    requires |r| == 29 && r[5] == 'e' && r[6] == 't' && r[7] == 't' && r[8] == 'e' && r[9] == 'l'
    requires AllIn(d, r[10..]) && Sum(d, r[10..], 2) == 420
    ensures AllIn(d, r[5..]) && Sum(d, r[5..], 1) == 535
  {
    SumFrom(d, r, 9, 1);
    assert Sum(d, r[9..], 1) == 441;
    SumFrom(d, r, 8, 2);
    assert Sum(d, r[8..], 2) == 469;
    SumFrom(d, r, 7, 1);
    assert Sum(d, r[7..], 1) == 498;
    SumFrom(d, r, 6, 2);
    assert Sum(d, r[6..], 2) == 521;
    SumFrom(d, r, 5, 1);
    assert Sum(d, r[5..], 1) == 535;
  }

  lemma Just123SumFrom0(d: string, r: string)
    requires |d| == 36 && Just123Positions(d)
    requires |r| == 29 && r[0] == '3' && r[1] == '2' && r[2] == '1' && r[3] == 's' && r[4] == 'r'
    requires AllIn(d, r[5..]) && Sum(d, r[5..], 1) == 535
    ensures AllIn(d, r[0..]) && Sum(d, r[0..], 2) == 592
  {
    SumFrom(d, r, 4, 2);
    assert Sum(d, r[4..], 2) == 554;
    SumFrom(d, r, 3, 1);
    assert Sum(d, r[3..], 1) == 582;
    SumFrom(d, r, 2, 2);
    assert Sum(d, r[2..], 2) == 584;
    SumFrom(d, r, 1, 1);
    assert Sum(d, r[1..], 1) == 586;
    SumFrom(d, r, 0, 2);
    assert Sum(d, r[0..], 2) == 592;
  }

  lemma Just123SumAt(d: string, r: string)
    requires |d| == 36 && Just123Positions(d)
    requires |r| == 29 && r[0] == '3' && r[1] == '2' && r[2] == '1' && r[3] == 's' && r[4] == 'r' && r[5] == 'e' && r[6] == 't' && r[7] == 't' && r[8] == 'e' && r[9] == 'l' && r[10] == 'f' && r[11] == 'o' && r[12] == 'g' && r[13] == 'n' && r[14] == 'i' && r[15] == 'r' && r[16] == 't' && r[17] == 's' && r[18] == 'm' && r[19] == 'o' && r[20] == 'd' && r[21] == 'n' && r[22] == 'a' && r[23] == 'r' && r[24] == 'a' && r[25] == 't' && r[26] == 's' && r[27] == 'u' && r[28] == 'j'
    ensures AllIn(d, r) && Sum(d, r, 2) == 592
  {
    Just123SumFrom25(d, r);
    Just123SumFrom20(d, r);
    Just123SumFrom15(d, r);
    Just123SumFrom10(d, r);
    Just123SumFrom5(d, r);
    Just123SumFrom0(d, r);
    assert r[0..] == r;
  }

  lemma Just123Letters0()
    ensures "321srettelfognirtsmodnaratsuj"[0] == '3'
  {
  }

  lemma Just123Letters1()
    ensures "321srettelfognirtsmodnaratsuj"[1] == '2'
  {
  }

  lemma Just123Letters2()
    ensures "321srettelfognirtsmodnaratsuj"[2] == '1' && "321srettelfognirtsmodnaratsuj"[3] == 's'
  {
  }

  lemma Just123Letters4()
    ensures "321srettelfognirtsmodnaratsuj"[4] == 'r' && "321srettelfognirtsmodnaratsuj"[5] == 'e'
  {
  }

  lemma Just123Letters6()
    ensures "321srettelfognirtsmodnaratsuj"[6] == 't' && "321srettelfognirtsmodnaratsuj"[7] == 't' && "321srettelfognirtsmodnaratsuj"[8] == 'e'
  {
  }

  lemma Just123Letters9()
    ensures "321srettelfognirtsmodnaratsuj"[9] == 'l' && "321srettelfognirtsmodnaratsuj"[10] == 'f' && "321srettelfognirtsmodnaratsuj"[11] == 'o' && "321srettelfognirtsmodnaratsuj"[12] == 'g'
  {
  }

  lemma Just123Letters13()
    ensures "321srettelfognirtsmodnaratsuj"[13] == 'n' && "321srettelfognirtsmodnaratsuj"[14] == 'i' && "321srettelfognirtsmodnaratsuj"[15] == 'r' && "321srettelfognirtsmodnaratsuj"[16] == 't' && "321srettelfognirtsmodnaratsuj"[17] == 's' && "321srettelfognirtsmodnaratsuj"[18] == 'm' && "321srettelfognirtsmodnaratsuj"[19] == 'o' && "321srettelfognirtsmodnaratsuj"[20] == 'd' && "321srettelfognirtsmodnaratsuj"[21] == 'n' && "321srettelfognirtsmodnaratsuj"[22] == 'a' && "321srettelfognirtsmodnaratsuj"[23] == 'r' && "321srettelfognirtsmodnaratsuj"[24] == 'a' && "321srettelfognirtsmodnaratsuj"[25] == 't' && "321srettelfognirtsmodnaratsuj"[26] == 's' && "321srettelfognirtsmodnaratsuj"[27] == 'u' && "321srettelfognirtsmodnaratsuj"[28] == 'j'
  {
  }

  /** The reducer's sum over the reversed 'justarandomstringofletters123'. */
  lemma SumJust123(d: string)
    requires |d| == 36 && Just123Positions(d)
    ensures AllIn(d, "321srettelfognirtsmodnaratsuj") && Sum(d, "321srettelfognirtsmodnaratsuj", 2) == 592
  {
    Just123Letters0();
    Just123Letters1();
    Just123Letters2();
    Just123Letters4();
    Just123Letters6();
    Just123Letters9();
    Just123Letters13();
    Just123SumAt(d, "321srettelfognirtsmodnaratsuj");
  }

  lemma Just123PositionsOf(d: string)
    requires DefaultLayout(d)
    ensures Just123Positions(d)
  {
    LayoutWellFormed(d);
    IndexRoundTrip(d, 1);
    IndexRoundTrip(d, 2);
    IndexRoundTrip(d, 3);
    IndexRoundTrip(d, 10);
    IndexRoundTrip(d, 13);
    IndexRoundTrip(d, 14);
    IndexRoundTrip(d, 15);
    IndexRoundTrip(d, 16);
    IndexRoundTrip(d, 18);
    IndexRoundTrip(d, 19);
    IndexRoundTrip(d, 21);
    IndexRoundTrip(d, 22);
    IndexRoundTrip(d, 23);
    IndexRoundTrip(d, 24);
    IndexRoundTrip(d, 27);
    IndexRoundTrip(d, 28);
    IndexRoundTrip(d, 29);
    IndexRoundTrip(d, 30);
  }

  lemma ReverseJust123()
    ensures Reverse("justarandomstringofletters123") == "321srettelfognirtsmodnaratsuj"
  {
    ReverseIs("justarandomstringofletters123", "321srettelfognirtsmodnaratsuj");
  }

  lemma CheckJust123()
    ensures CheckCodePoint(592, 36) == 20
  {
  }

  lemma PartsJust123(cfg: Config)
    requires |cfg.dictionary| == 36 && CaseStable(cfg.dictionary) && Just123Positions(cfg.dictionary)
    ensures FilteredPhrase(cfg, "justarandomstringofletters123", false) == "justarandomstringofletters123"
    ensures Reverse("justarandomstringofletters123") == "321srettelfognirtsmodnaratsuj"
    ensures AllIn(cfg.dictionary, "321srettelfognirtsmodnaratsuj") && Sum(cfg.dictionary, "321srettelfognirtsmodnaratsuj", 2) == 592
  {
    var d := cfg.dictionary;
    SumJust123(d);
    ReverseJust123();
    AllInReverse(d, "justarandomstringofletters123");
    PhraseOfAllIn(cfg, "justarandomstringofletters123", false);
  }

  lemma GenerateJust123On(cfg: Config)
    requires |cfg.dictionary| == 36 && CaseStable(cfg.dictionary) && Just123Positions(cfg.dictionary)
    requires cfg.dictionary[20] == 'k'
    ensures Generate(cfg, "justarandomstringofletters123", false) == Ok(GenerateResult("justarandomstringofletters123", "k"))
  {
    PartsJust123(cfg);
    CheckJust123();
    GenerateIs(cfg, "justarandomstringofletters123", false, "justarandomstringofletters123", "321srettelfognirtsmodnaratsuj", 592, 'k');
  }

  lemma LowerMixed123()
    ensures Lower("justARandomStringOfLetters123") == "justarandomstringofletters123"
  {
    LowerIs("justARandomStringOfLetters123", "justarandomstringofletters123");
  }

  /** `Luhn.generate('justARandomStringOfLetters123')`: the code computes the sum 592
      and the check character 'k'; no upper-case letter such as 'S' is in the
      dictionary. */
  lemma GenerateJust123(cfg: Config)
    requires DefaultLayout(cfg.dictionary) && !cfg.sensitive
    ensures Generate(cfg, "justARandomStringOfLetters123", false) == Ok(GenerateResult("justarandomstringofletters123", "k"))
  {
    LayoutWellFormed(cfg.dictionary);
    Just123PositionsOf(cfg.dictionary);
    GenerateJust123On(cfg);
    LowerMixed123();
    GenerateIgnoresCase(cfg, "justARandomStringOfLetters123", false);
  }
}
