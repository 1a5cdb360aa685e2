/** Subclasses of `Luhn`: the static members a subclass may override, and
    the configuration `generate` and `validate` then run with.

    The helpers `char2index`, `index2char`, `filterValid`, `reduce` and
    `getN` are arrow functions stored in static fields of `Luhn`, so their
    `this` is `Luhn` itself whatever class they are reached through; only
    `this.sensitive` in `generate` and `validate` reads the subclass. And the
    initializer of `Luhn.dictionary` runs once, reading `Luhn.sensitive`.
    ClassConfigAsWritten is the configuration that results; ClassConfig is
    the one the tests of the subclasses expect, and the lemmas below state
    both. */
module LuhnSubclass {

  import opened Luhn
  import opened LuhnProperties
  import opened LuhnExamples

  datatype Option<T> = None | Some(value: T)

  /** What a subclass declares: a `dictionary`, a `sensitive`, both or
      neither. */
  datatype Overrides = Overrides(dictionary: Option<string>, sensitive: Option<bool>)

  /** `this.sensitive` read through the subclass. */
  function SensitiveOf(o: Overrides): bool
  {
    match o.sensitive
    case Some(s) => s
    case None => BaseSensitive
  }

  /** The configuration of a subclass as the code computes it: the
      subclass's `sensitive`, and always `Luhn.dictionary`. */
  function ClassConfigAsWritten(o: Overrides): Config
  {
    Config(BaseDictionary, SensitiveOf(o))
  }

  /** The configuration of a subclass as its declarations intend: its own
      dictionary if it declares one, and otherwise the dictionary that goes
      with its sensitivity. */
  function ClassConfig(o: Overrides): Config
  {
    var sensitive := SensitiveOf(o);
    match o.dictionary
    case Some(d) => Config(d, sensitive)
    case None => Config(DictionaryFor(sensitive), sensitive)
  }

  /** `class SensitiveLuhn extends Luhn { static readonly sensitive = true }`. */
  const SensitiveLuhn: Overrides := Overrides(None, Some(true))

  /** `class CustomLuhn extends Luhn { static dictionary = 'abcdefghijklmnopqrstuvwxyz' }`. */
  const CustomLuhn: Overrides := Overrides(Some("abcdefghijklmnopqrstuvwxyz"), None)

  /** `class TestLuhn extends Luhn { static dictionary = 'abcfo' }`. */
  const TestLuhn: Overrides := Overrides(Some("abcfo"), None)

  /** Without overrides both readings give the class `Luhn` itself. */
  lemma NoOverridesIsLuhn()
    ensures ClassConfigAsWritten(Overrides(None, None)) == Base
    ensures ClassConfig(Overrides(None, None)) == Base
  {
  }

  /** As written, every subclass runs on the default dictionary. */
  lemma AsWrittenUsesBase(o: Overrides)
    ensures DefaultLayout(ClassConfigAsWritten(o).dictionary)
    ensures ClassConfigAsWritten(o).sensitive == SensitiveOf(o)
  {
    BaseDictionaryLayout();
  }

  // ---------------------------------------------------------------------------
  // An odd-length dictionary

  /** As written, no dictionary a subclass declares reaches the even-length
      guard: `getN` measures `Luhn.dictionary`, so nothing fails. */
  lemma OddDictionaryAcceptedAsWritten(o: Overrides, input: string, sensitive: bool)
    ensures Generate(ClassConfigAsWritten(o), input, sensitive).Ok?
    ensures Validate(ClassConfigAsWritten(o), input, sensitive).Ok?
  {
    assert |ClassConfigAsWritten(o).dictionary| == 36;
  }

  /** Corrected: a subclass dictionary of odd length makes both operations
      fail, with its length. */
  lemma OddDictionaryRejected(o: Overrides, input: string, sensitive: bool)
    requires o.dictionary.Some? && |o.dictionary.value| % 2 != 0
    ensures Generate(ClassConfig(o), input, sensitive) == Err(DictionaryLengthNotEven(|o.dictionary.value|))
    ensures Validate(ClassConfig(o), input, sensitive) == Err(DictionaryLengthNotEven(|o.dictionary.value|))
  {
  }

  /** `TestLuhn.generate('ab')` fails once the subclass dictionary is used. */
  lemma TestLuhnRejected()
    ensures Generate(ClassConfig(TestLuhn), "ab", false) == Err(DictionaryLengthNotEven(5))
  {
    OddDictionaryRejected(TestLuhn, "ab", false);
  }

  /** The positions, in the dictionary, of the characters of "ba". */
  predicate AbPositions(d: string)
  {
    CharToIndex(d, 'a') == 10 && CharToIndex(d, 'b') == 11
  }

  lemma AbSumFrom0(d: string, r: string)
    requires |d| == 36 && AbPositions(d)
    requires |r| == 2 && r[0] == 'b' && r[1] == 'a'
    ensures AllIn(d, r[0..]) && Sum(d, r[0..], 2) == 32
  {
    assert r[2..] == [];
    SumFrom(d, r, 1, 1);
    assert Sum(d, r[1..], 1) == 10;
    SumFrom(d, r, 0, 2);
    assert Sum(d, r[0..], 2) == 32;
  }

  lemma AbSumAt(d: string, r: string)
    requires |d| == 36 && AbPositions(d)
    requires |r| == 2 && r[0] == 'b' && r[1] == 'a'
    ensures AllIn(d, r) && Sum(d, r, 2) == 32
  {
    AbSumFrom0(d, r);
    assert r[0..] == r;
  }

  lemma AbLetters0()
    ensures "ba"[0] == 'b' && "ba"[1] == 'a'
  {
  }

  /** The reducer's sum over the reversed 'ab'. */
  lemma SumAb(d: string)
    requires |d| == 36 && AbPositions(d)
    ensures AllIn(d, "ba") && Sum(d, "ba", 2) == 32
  {
    AbLetters0();
    AbSumAt(d, "ba");
  }

  lemma AbPositionsOf(d: string)
    requires DefaultLayout(d)
    ensures AbPositions(d)
  {
    LayoutWellFormed(d);
    IndexRoundTrip(d, 10);
    IndexRoundTrip(d, 11);
  }

  /** `generate('ab')` on the default dictionary: check character '4'. */
  lemma GenerateAb(cfg: Config)
    requires DefaultLayout(cfg.dictionary)
    ensures Generate(cfg, "ab", false) == Ok(GenerateResult("ab", "4"))
  {
    var d := cfg.dictionary;
    LayoutWellFormed(d);
    AbPositionsOf(d);
    SumAb(d);
    ReverseIs("ab", "ba");
    AllInReverse(d, "ab");
    PhraseOfAllIn(cfg, "ab", false);
    assert d[4] == '4';
    GenerateIs(cfg, "ab", false, "ab", "ba", 32, '4');
  }

  /** As written, `TestLuhn.generate('ab')` does not throw: it returns the
      result of `Luhn.generate('ab')`. */
  lemma TestLuhnAcceptedAsWritten()
    ensures Generate(ClassConfigAsWritten(TestLuhn), "ab", false) == Ok(GenerateResult("ab", "4"))
  {
    AsWrittenUsesBase(TestLuhn);
    GenerateAb(ClassConfigAsWritten(TestLuhn));
  }

  // ---------------------------------------------------------------------------
  // A case-sensitive subclass

  /** As written, a subclass that only declares `sensitive = true` keeps the
      lower-case dictionary, so no check character it returns is an
      upper-case letter. */
  lemma ChecksumNotUpperAsWritten(o: Overrides, input: string, sensitive: bool)
    ensures Generate(ClassConfigAsWritten(o), input, sensitive).Ok?
    ensures var c := Generate(ClassConfigAsWritten(o), input, sensitive).value.checksum;
            |c| == 1 && !('A' <= c[0] <= 'Z')
  {
    var cfg := ClassConfigAsWritten(o);
    AsWrittenUsesBase(o);
    LayoutWellFormed(cfg.dictionary);
    var c := Generate(cfg, input, sensitive).value.checksum;
    InNotUpper(cfg.dictionary, c[0]);
  }

  /** A character of a dictionary of digits and lower-case letters is not an
      upper-case letter. */
  lemma InNotUpper(d: string, c: char)
    requires DigitsAndLower(d) && c in d
    ensures !('A' <= c <= 'Z')
  {
    var i := CharToIndex(d, c);
    assert d[i] == c;
  }

  /** The character at position `k` of the case-sensitive dictionary: the
      digits, then each letter in upper case followed by its lower case. */
  function SensitiveChar(k: int): (c: char)
    requires 0 <= k < 62
    ensures k < 10 ==> c as int == '0' as int + k
    ensures k >= 10 && k % 2 == 0 ==> c as int == 'A' as int + (k - 10) / 2
    ensures k >= 10 && k % 2 == 1 ==> c as int == 'a' as int + (k - 10) / 2
  {
    if k < 10 then ('0' as int + k) as char
    else if k % 2 == 0 then ('A' as int + (k - 10) / 2) as char
    else ('a' as int + (k - 10) / 2) as char
  }

  /** The 62 characters of the case-sensitive dictionary, in its order. */
  predicate SensitiveLayout(d: string)
  {
    |d| == 62 && forall k :: 0 <= k < 62 ==> d[k] == SensitiveChar(k)
  }

  /** Distinct positions hold distinct characters. */
  lemma SensitiveCharInjective(i: int, j: int)
    requires 0 <= i < j < 62
    ensures SensitiveChar(i) != SensitiveChar(j)
  {
    if i >= 10 && i % 2 == j % 2 {
      assert (i - 10) / 2 < (j - 10) / 2;
    }
  }

  lemma SensitiveLayoutUnique(d: string)
    requires SensitiveLayout(d)
    ensures Unique(d)
  {
    forall i, j | 0 <= i < j < |d| ensures d[i] != d[j] {
      SensitiveCharInjective(i, j);
    }
  }

  lemma SensitiveDictionaryFrom0()
    ensures forall k :: 0 <= k < 4 ==> DictionaryFor(true)[k] == SensitiveChar(k)
  {
  }

  lemma SensitiveDictionaryFrom4()
    ensures forall k :: 4 <= k < 8 ==> DictionaryFor(true)[k] == SensitiveChar(k)
  {
  }

  lemma SensitiveDictionaryFrom8()
    ensures forall k :: 8 <= k < 12 ==> DictionaryFor(true)[k] == SensitiveChar(k)
  {
  }

  lemma SensitiveDictionaryFrom12()
    ensures forall k :: 12 <= k < 17 ==> DictionaryFor(true)[k] == SensitiveChar(k)
  {
  }

  lemma SensitiveDictionaryFrom17()
    ensures forall k :: 17 <= k < 22 ==> DictionaryFor(true)[k] == SensitiveChar(k)
  {
  }

  lemma SensitiveDictionaryFrom22()
    ensures forall k :: 22 <= k < 28 ==> DictionaryFor(true)[k] == SensitiveChar(k)
  {
  }

  lemma SensitiveDictionaryFrom28()
    ensures forall k :: 28 <= k < 35 ==> DictionaryFor(true)[k] == SensitiveChar(k)
  {
  }

  lemma SensitiveDictionaryFrom35()
    ensures forall k :: 35 <= k < 44 ==> DictionaryFor(true)[k] == SensitiveChar(k)
  {
  }

  lemma SensitiveDictionaryFrom44()
    ensures forall k :: 44 <= k < 62 ==> DictionaryFor(true)[k] == SensitiveChar(k)
  {
  }

  /** The initializer's 62-character alphabet has that layout. */
  lemma SensitiveDictionaryLayout()
    ensures SensitiveLayout(DictionaryFor(true))
  {
    SensitiveDictionaryFrom0();
    SensitiveDictionaryFrom4();
    SensitiveDictionaryFrom8();
    SensitiveDictionaryFrom12();
    SensitiveDictionaryFrom17();
    SensitiveDictionaryFrom22();
    SensitiveDictionaryFrom28();
    SensitiveDictionaryFrom35();
    SensitiveDictionaryFrom44();
  }

  /** Corrected, a subclass that only declares `sensitive = true` runs
      case-sensitively on the 62-character dictionary. */
  lemma SensitiveLuhnConfig()
    ensures SensitiveLayout(ClassConfig(SensitiveLuhn).dictionary) && ClassConfig(SensitiveLuhn).sensitive
  {
    SensitiveDictionaryLayout();
  }

  /** The positions, in the dictionary, of the characters of "sretteLfOgnirtSmodnaRAtsuj". */
  predicate MixedPositions(d: string)
  {
    CharToIndex(d, 'A') == 10 && CharToIndex(d, 'a') == 11 && CharToIndex(d, 'd') == 17 && CharToIndex(d, 'e') == 19 && CharToIndex(d, 'f') == 21 && CharToIndex(d, 'g') == 23 && CharToIndex(d, 'i') == 27 && CharToIndex(d, 'j') == 29 && CharToIndex(d, 'L') == 32 && CharToIndex(d, 'm') == 35 && CharToIndex(d, 'n') == 37 && CharToIndex(d, 'O') == 38 && CharToIndex(d, 'o') == 39 && CharToIndex(d, 'R') == 44 && CharToIndex(d, 'r') == 45 && CharToIndex(d, 'S') == 46 && CharToIndex(d, 's') == 47 && CharToIndex(d, 't') == 49 && CharToIndex(d, 'u') == 51
  }

  lemma MixedSumFrom25(d: string, r: string)
    requires |d| == 62 && MixedPositions(d)
    requires |r| == 26 && r[25] == 'j'
    ensures AllIn(d, r[25..]) && Sum(d, r[25..], 1) == 29
  {
    assert r[26..] == [];
    SumFrom(d, r, 25, 1);
    assert Sum(d, r[25..], 1) == 29;
  }

  lemma MixedSumFrom20(d: string, r: string)
    requires |d| == 62 && MixedPositions(d)
    requires |r| == 26 && r[20] == 'R' && r[21] == 'A' && r[22] == 't' && r[23] == 's' && r[24] == 'u'
    requires AllIn(d, r[25..]) && Sum(d, r[25..], 1) == 29
    ensures AllIn(d, r[20..]) && Sum(d, r[20..], 2) == 191
  {
    SumFrom(d, r, 24, 2);
    assert Sum(d, r[24..], 2) == 70;
    SumFrom(d, r, 23, 1);
    assert Sum(d, r[23..], 1) == 117;
    SumFrom(d, r, 22, 2);
    assert Sum(d, r[22..], 2) == 154;
    SumFrom(d, r, 21, 1);
    assert Sum(d, r[21..], 1) == 164;
    SumFrom(d, r, 20, 2);
    assert Sum(d, r[20..], 2) == 191;
  }

  lemma MixedSumFrom15(d: string, r: string)
    requires |d| == 62 && MixedPositions(d)
    requires |r| == 26 && r[15] == 'm' && r[16] == 'o' && r[17] == 'd' && r[18] == 'n' && r[19] == 'a'
    requires AllIn(d, r[20..]) && Sum(d, r[20..], 2) == 191
    ensures AllIn(d, r[15..]) && Sum(d, r[15..], 1) == 284
  {
    SumFrom(d, r, 19, 1);
    assert Sum(d, r[19..], 1) == 202;
    SumFrom(d, r, 18, 2);
    assert Sum(d, r[18..], 2) == 215;
    SumFrom(d, r, 17, 1);
    assert Sum(d, r[17..], 1) == 232;
    SumFrom(d, r, 16, 2);
    assert Sum(d, r[16..], 2) == 249;
    SumFrom(d, r, 15, 1);
    assert Sum(d, r[15..], 1) == 284;
  }

  lemma MixedSumFrom10(d: string, r: string)
    requires |d| == 62 && MixedPositions(d)
    requires |r| == 26 && r[10] == 'n' && r[11] == 'i' && r[12] == 'r' && r[13] == 't' && r[14] == 'S'
    requires AllIn(d, r[15..]) && Sum(d, r[15..], 1) == 284
    ensures AllIn(d, r[10..]) && Sum(d, r[10..], 2) == 433
  {
    SumFrom(d, r, 14, 2);
    assert Sum(d, r[14..], 2) == 315;
    SumFrom(d, r, 13, 1);
    assert Sum(d, r[13..], 1) == 364;
    SumFrom(d, r, 12, 2);
    assert Sum(d, r[12..], 2) == 393;
    SumFrom(d, r, 11, 1);
    assert Sum(d, r[11..], 1) == 420;
    SumFrom(d, r, 10, 2);
    assert Sum(d, r[10..], 2) == 433;
  }

  lemma MixedSumFrom5(d: string, r: string)
    requires |d| == 62 && MixedPositions(d)
    requires |r| == 26 && r[5] == 'e' && r[6] == 'L' && r[7] == 'f' && r[8] == 'O' && r[9] == 'g'
    requires AllIn(d, r[10..]) && Sum(d, r[10..], 2) == 433
    ensures AllIn(d, r[5..]) && Sum(d, r[5..], 1) == 514
  {
    SumFrom(d, r, 9, 1);
    assert Sum(d, r[9..], 1) == 456;
    SumFrom(d, r, 8, 2);
    assert Sum(d, r[8..], 2) == 471;
    SumFrom(d, r, 7, 1);
    assert Sum(d, r[7..], 1) == 492;
    SumFrom(d, r, 6, 2);
    assert Sum(d, r[6..], 2) == 495;
    SumFrom(d, r, 5, 1);
    assert Sum(d, r[5..], 1) == 514;
  }

  lemma MixedSumFrom0(d: string, r: string)
    requires |d| == 62 && MixedPositions(d)
    requires |r| == 26 && r[0] == 's' && r[1] == 'r' && r[2] == 'e' && r[3] == 't' && r[4] == 't'
    requires AllIn(d, r[5..]) && Sum(d, r[5..], 1) == 514
    ensures AllIn(d, r[0..]) && Sum(d, r[0..], 2) == 716
  {
    SumFrom(d, r, 4, 2);
    assert Sum(d, r[4..], 2) == 551;
    SumFrom(d, r, 3, 1);
    assert Sum(d, r[3..], 1) == 600;
    SumFrom(d, r, 2, 2);
    assert Sum(d, r[2..], 2) == 638;
    SumFrom(d, r, 1, 1);
    assert Sum(d, r[1..], 1) == 683;
    SumFrom(d, r, 0, 2);
    assert Sum(d, r[0..], 2) == 716;
  }

  lemma MixedSumAt(d: string, r: string)
    requires |d| == 62 && MixedPositions(d)
    requires |r| == 26 && r[0] == 's' && r[1] == 'r' && r[2] == 'e' && r[3] == 't' && r[4] == 't' && r[5] == 'e' && r[6] == 'L' && r[7] == 'f' && r[8] == 'O' && r[9] == 'g' && r[10] == 'n' && r[11] == 'i' && r[12] == 'r' && r[13] == 't' && r[14] == 'S' && r[15] == 'm' && r[16] == 'o' && r[17] == 'd' && r[18] == 'n' && r[19] == 'a' && r[20] == 'R' && r[21] == 'A' && r[22] == 't' && r[23] == 's' && r[24] == 'u' && r[25] == 'j'
    ensures AllIn(d, r) && Sum(d, r, 2) == 716
  {
    MixedSumFrom25(d, r);
    MixedSumFrom20(d, r);
    MixedSumFrom15(d, r);
    MixedSumFrom10(d, r);
    MixedSumFrom5(d, r);
    MixedSumFrom0(d, r);
    assert r[0..] == r;
  }

  lemma MixedLetters0()
    ensures "sretteLfOgnirtSmodnaRAtsuj"[0] == 's' && "sretteLfOgnirtSmodnaRAtsuj"[1] == 'r'
  {
  }

  lemma MixedLetters2()
    ensures "sretteLfOgnirtSmodnaRAtsuj"[2] == 'e' && "sretteLfOgnirtSmodnaRAtsuj"[3] == 't'
  {
  }

  lemma MixedLetters4()
    ensures "sretteLfOgnirtSmodnaRAtsuj"[4] == 't' && "sretteLfOgnirtSmodnaRAtsuj"[5] == 'e' && "sretteLfOgnirtSmodnaRAtsuj"[6] == 'L'
  {
  }

  lemma MixedLetters7()
    ensures "sretteLfOgnirtSmodnaRAtsuj"[7] == 'f' && "sretteLfOgnirtSmodnaRAtsuj"[8] == 'O' && "sretteLfOgnirtSmodnaRAtsuj"[9] == 'g' && "sretteLfOgnirtSmodnaRAtsuj"[10] == 'n' && "sretteLfOgnirtSmodnaRAtsuj"[11] == 'i'
  {
  }

  lemma MixedLetters12()
    ensures "sretteLfOgnirtSmodnaRAtsuj"[12] == 'r' && "sretteLfOgnirtSmodnaRAtsuj"[13] == 't' && "sretteLfOgnirtSmodnaRAtsuj"[14] == 'S' && "sretteLfOgnirtSmodnaRAtsuj"[15] == 'm' && "sretteLfOgnirtSmodnaRAtsuj"[16] == 'o' && "sretteLfOgnirtSmodnaRAtsuj"[17] == 'd' && "sretteLfOgnirtSmodnaRAtsuj"[18] == 'n' && "sretteLfOgnirtSmodnaRAtsuj"[19] == 'a' && "sretteLfOgnirtSmodnaRAtsuj"[20] == 'R' && "sretteLfOgnirtSmodnaRAtsuj"[21] == 'A' && "sretteLfOgnirtSmodnaRAtsuj"[22] == 't' && "sretteLfOgnirtSmodnaRAtsuj"[23] == 's' && "sretteLfOgnirtSmodnaRAtsuj"[24] == 'u' && "sretteLfOgnirtSmodnaRAtsuj"[25] == 'j'
  {
  }

  /** The reducer's sum over the reversed 'justARandomStringOfLetters' on the 62-character dictionary. */
  lemma SumMixed(d: string)
    requires |d| == 62 && MixedPositions(d)
    ensures AllIn(d, "sretteLfOgnirtSmodnaRAtsuj") && Sum(d, "sretteLfOgnirtSmodnaRAtsuj", 2) == 716
  {
    MixedLetters0();
    MixedLetters2();
    MixedLetters4();
    MixedLetters7();
    MixedLetters12();
    MixedSumAt(d, "sretteLfOgnirtSmodnaRAtsuj");
  }

  lemma MixedPositionsOf(d: string)
    requires SensitiveLayout(d)
    ensures MixedPositions(d)
  {
    SensitiveLayoutUnique(d);
    IndexRoundTrip(d, 10);
    IndexRoundTrip(d, 11);
    IndexRoundTrip(d, 17);
    IndexRoundTrip(d, 19);
    IndexRoundTrip(d, 21);
    IndexRoundTrip(d, 23);
    IndexRoundTrip(d, 27);
    IndexRoundTrip(d, 29);
    IndexRoundTrip(d, 32);
    IndexRoundTrip(d, 35);
    IndexRoundTrip(d, 37);
    IndexRoundTrip(d, 38);
    IndexRoundTrip(d, 39);
    IndexRoundTrip(d, 44);
    IndexRoundTrip(d, 45);
    IndexRoundTrip(d, 46);
    IndexRoundTrip(d, 47);
    IndexRoundTrip(d, 49);
    IndexRoundTrip(d, 51);
  }

  lemma PartsMixed(cfg: Config)
    requires |cfg.dictionary| == 62 && MixedPositions(cfg.dictionary) && cfg.sensitive
    ensures FilteredPhrase(cfg, "justARandomStringOfLetters", false) == "justARandomStringOfLetters"
    ensures Reverse("justARandomStringOfLetters") == "sretteLfOgnirtSmodnaRAtsuj"
    ensures AllIn(cfg.dictionary, "sretteLfOgnirtSmodnaRAtsuj") && Sum(cfg.dictionary, "sretteLfOgnirtSmodnaRAtsuj", 2) == 716
  {
    var d := cfg.dictionary;
    SumMixed(d);
    ReverseMixed();
    AllInReverse(d, "justARandomStringOfLetters");
    PhraseMixed(cfg);
  }

  lemma ReverseMixed()
    ensures Reverse("justARandomStringOfLetters") == "sretteLfOgnirtSmodnaRAtsuj"
  {
    ReverseIs("justARandomStringOfLetters", "sretteLfOgnirtSmodnaRAtsuj");
  }

  lemma PhraseMixed(cfg: Config)
    requires cfg.sensitive && AllIn(cfg.dictionary, "justARandomStringOfLetters")
    ensures FilteredPhrase(cfg, "justARandomStringOfLetters", false) == "justARandomStringOfLetters"
  {
    FilterKeeps(cfg.dictionary, "justARandomStringOfLetters");
  }

  lemma CheckMixed()
    ensures CheckCodePoint(716, 62) == 28
  {
  }

  lemma GenerateMixedOn(cfg: Config)
    requires |cfg.dictionary| == 62 && MixedPositions(cfg.dictionary) && cfg.sensitive
    requires cfg.dictionary[28] == 'J'
    ensures Generate(cfg, "justARandomStringOfLetters", false) == Ok(GenerateResult("justARandomStringOfLetters", "J"))
  {
    PartsMixed(cfg);
    CheckMixed();
    GenerateIs(cfg, "justARandomStringOfLetters", false, "justARandomStringOfLetters", "sretteLfOgnirtSmodnaRAtsuj", 716, 'J');
  }

  /** Corrected, `SensitiveLuhn.generate('justARandomStringOfLetters')` keeps the
      upper-case letters and returns 'J'. */
  lemma GenerateSensitiveLuhn(cfg: Config)
    requires SensitiveLayout(cfg.dictionary) && cfg.sensitive
    ensures Generate(cfg, "justARandomStringOfLetters", false) == Ok(GenerateResult("justARandomStringOfLetters", "J"))
  {
    MixedPositionsOf(cfg.dictionary);
    GenerateMixedOn(cfg);
  }

  lemma MixedJ()
    ensures "justARandomStringOfLetters" + ['J'] == "justARandomStringOfLettersJ"
  {
  }

  /** Corrected, `SensitiveLuhn.validate('justARandomStringOfLettersJ')` accepts. */
  lemma ValidateSensitiveLuhn(cfg: Config)
    requires SensitiveLayout(cfg.dictionary) && cfg.sensitive
    ensures Validate(cfg, "justARandomStringOfLettersJ", false) == Ok(ValidateResult("justARandomStringOfLettersJ", true))
  {
    GenerateSensitiveLuhn(cfg);
    SensitiveLayoutUnique(cfg.dictionary);
    RoundTrip(cfg, "justARandomStringOfLetters", false);
    MixedJ();
  }

  // ---------------------------------------------------------------------------
  // A subclass with its own dictionary

  /** The character at position `k` of the alphabet. */
  function AlphaChar(k: int): (c: char)
    requires 0 <= k < 26
    ensures 'a' <= c <= 'z' && c as int - 'a' as int == k
  {
    ('a' as int + k) as char
  }

  /** The 26 lower-case letters, in order. */
  predicate AlphaLayout(d: string)
  {
    |d| == 26 && forall k :: 0 <= k < 26 ==> d[k] == AlphaChar(k)
  }

  /** No digit is in the alphabet. */
  lemma AlphaNoDigit(d: string, c: char)
    requires AlphaLayout(d) && '0' <= c <= '9'
    ensures c !in d
  {
    forall i | 0 <= i < |d| ensures d[i] != c {
    }
  }

  /** The alphabet has distinct characters, all lower-case letters. */
  lemma AlphaWellFormed(d: string)
    requires AlphaLayout(d)
    ensures Unique(d) && CaseStable(d) && DigitsAndLower(d)
  {
  }

  lemma CustomDictionaryFrom0()
    ensures forall k :: 0 <= k < 7 ==> "abcdefghijklmnopqrstuvwxyz"[k] == AlphaChar(k)
  {
  }

  lemma CustomDictionaryFrom7()
    ensures forall k :: 7 <= k < 14 ==> "abcdefghijklmnopqrstuvwxyz"[k] == AlphaChar(k)
  {
  }

  lemma CustomDictionaryFrom14()
    ensures forall k :: 14 <= k < 26 ==> "abcdefghijklmnopqrstuvwxyz"[k] == AlphaChar(k)
  {
  }

  /** Corrected, `CustomLuhn` runs case-insensitively on its alphabet. */
  lemma CustomLuhnConfig()
    ensures AlphaLayout(ClassConfig(CustomLuhn).dictionary) && !ClassConfig(CustomLuhn).sensitive
  {
    CustomDictionaryFrom0();
    CustomDictionaryFrom7();
    CustomDictionaryFrom14();
  }

  /** The positions, in the dictionary, of the characters of "srettelfognirtsmodnaratsuj". */
  predicate AlphaPositions(d: string)
  {
    CharToIndex(d, 'a') == 0 && CharToIndex(d, 'd') == 3 && CharToIndex(d, 'e') == 4 && CharToIndex(d, 'f') == 5 && CharToIndex(d, 'g') == 6 && CharToIndex(d, 'i') == 8 && CharToIndex(d, 'j') == 9 && CharToIndex(d, 'l') == 11 && CharToIndex(d, 'm') == 12 && CharToIndex(d, 'n') == 13 && CharToIndex(d, 'o') == 14 && CharToIndex(d, 'r') == 17 && CharToIndex(d, 's') == 18 && CharToIndex(d, 't') == 19 && CharToIndex(d, 'u') == 20
  }

  lemma AlphaSumFrom25(d: string, r: string)
    requires |d| == 26 && AlphaPositions(d)
    requires |r| == 26 && r[25] == 'j'
    ensures AllIn(d, r[25..]) && Sum(d, r[25..], 1) == 9
  {
    assert r[26..] == [];
    SumFrom(d, r, 25, 1);
    assert Sum(d, r[25..], 1) == 9;
  }

  lemma AlphaSumFrom20(d: string, r: string)
    requires |d| == 26 && AlphaPositions(d)
    requires |r| == 26 && r[20] == 'r' && r[21] == 'a' && r[22] == 't' && r[23] == 's' && r[24] == 'u'
    requires AllIn(d, r[25..]) && Sum(d, r[25..], 1) == 9
    ensures AllIn(d, r[20..]) && Sum(d, r[20..], 2) == 64
  {
    SumFrom(d, r, 24, 2);
    assert Sum(d, r[24..], 2) == 24;
    SumFrom(d, r, 23, 1);
    assert Sum(d, r[23..], 1) == 42;
    SumFrom(d, r, 22, 2);
    assert Sum(d, r[22..], 2) == 55;
    SumFrom(d, r, 21, 1);
    assert Sum(d, r[21..], 1) == 55;
    SumFrom(d, r, 20, 2);
    assert Sum(d, r[20..], 2) == 64;
  }

  lemma AlphaSumFrom15(d: string, r: string)
    requires |d| == 26 && AlphaPositions(d)
    requires |r| == 26 && r[15] == 'm' && r[16] == 'o' && r[17] == 'd' && r[18] == 'n' && r[19] == 'a'
    requires AllIn(d, r[20..]) && Sum(d, r[20..], 2) == 64
    ensures AllIn(d, r[15..]) && Sum(d, r[15..], 1) == 83
  {
    SumFrom(d, r, 19, 1);
    assert Sum(d, r[19..], 1) == 64;
    SumFrom(d, r, 18, 2);
    assert Sum(d, r[18..], 2) == 65;
    SumFrom(d, r, 17, 1);
    assert Sum(d, r[17..], 1) == 68;
    SumFrom(d, r, 16, 2);
    assert Sum(d, r[16..], 2) == 71;
    SumFrom(d, r, 15, 1);
    assert Sum(d, r[15..], 1) == 83;
  }

  lemma AlphaSumFrom10(d: string, r: string)
    requires |d| == 26 && AlphaPositions(d)
    requires |r| == 26 && r[10] == 'n' && r[11] == 'i' && r[12] == 'r' && r[13] == 't' && r[14] == 's'
    requires AllIn(d, r[15..]) && Sum(d, r[15..], 1) == 83
    ensures AllIn(d, r[10..]) && Sum(d, r[10..], 2) == 131
  {
    SumFrom(d, r, 14, 2);
    assert Sum(d, r[14..], 2) == 94;
    SumFrom(d, r, 13, 1);
    assert Sum(d, r[13..], 1) == 113;
    SumFrom(d, r, 12, 2);
    assert Sum(d, r[12..], 2) == 122;
    SumFrom(d, r, 11, 1);
    assert Sum(d, r[11..], 1) == 130;
    SumFrom(d, r, 10, 2);
    assert Sum(d, r[10..], 2) == 131;
  }

  lemma AlphaSumFrom5(d: string, r: string)
    requires |d| == 26 && AlphaPositions(d)
    requires |r| == 26 && r[5] == 'e' && r[6] == 'l' && r[7] == 'f' && r[8] == 'o' && r[9] == 'g'
    requires AllIn(d, r[10..]) && Sum(d, r[10..], 2) == 131
    ensures AllIn(d, r[5..]) && Sum(d, r[5..], 1) == 171
  {
    SumFrom(d, r, 9, 1);
    assert Sum(d, r[9..], 1) == 137;
    SumFrom(d, r, 8, 2);
    assert Sum(d, r[8..], 2) == 140;
    SumFrom(d, r, 7, 1);
    assert Sum(d, r[7..], 1) == 145;
    SumFrom(d, r, 6, 2);
    assert Sum(d, r[6..], 2) == 167;
    SumFrom(d, r, 5, 1);
    assert Sum(d, r[5..], 1) == 171;
  }

  lemma AlphaSumFrom0(d: string, r: string)
    requires |d| == 26 && AlphaPositions(d)
    requires |r| == 26 && r[0] == 's' && r[1] == 'r' && r[2] == 'e' && r[3] == 't' && r[4] == 't'
    requires AllIn(d, r[5..]) && Sum(d, r[5..], 1) == 171
    ensures AllIn(d, r[0..]) && Sum(d, r[0..], 2) == 239
  {
    SumFrom(d, r, 4, 2);
    assert Sum(d, r[4..], 2) == 184;
    SumFrom(d, r, 3, 1);
    assert Sum(d, r[3..], 1) == 203;
    SumFrom(d, r, 2, 2);
    assert Sum(d, r[2..], 2) == 211;
    SumFrom(d, r, 1, 1);
    assert Sum(d, r[1..], 1) == 228;
    SumFrom(d, r, 0, 2);
    assert Sum(d, r[0..], 2) == 239;
  }

  lemma AlphaSumAt(d: string, r: string)
    requires |d| == 26 && AlphaPositions(d)
    requires |r| == 26 && r[0] == 's' && r[1] == 'r' && r[2] == 'e' && r[3] == 't' && r[4] == 't' && r[5] == 'e' && r[6] == 'l' && r[7] == 'f' && r[8] == 'o' && r[9] == 'g' && r[10] == 'n' && r[11] == 'i' && r[12] == 'r' && r[13] == 't' && r[14] == 's' && r[15] == 'm' && r[16] == 'o' && r[17] == 'd' && r[18] == 'n' && r[19] == 'a' && r[20] == 'r' && r[21] == 'a' && r[22] == 't' && r[23] == 's' && r[24] == 'u' && r[25] == 'j'
    ensures AllIn(d, r) && Sum(d, r, 2) == 239
  {
    AlphaSumFrom25(d, r);
    AlphaSumFrom20(d, r);
    AlphaSumFrom15(d, r);
    AlphaSumFrom10(d, r);
    AlphaSumFrom5(d, r);
    AlphaSumFrom0(d, r);
    assert r[0..] == r;
  }

  lemma AlphaLetters0()
    ensures "srettelfognirtsmodnaratsuj"[0] == 's' && "srettelfognirtsmodnaratsuj"[1] == 'r'
  {
  }

  lemma AlphaLetters2()
    ensures "srettelfognirtsmodnaratsuj"[2] == 'e' && "srettelfognirtsmodnaratsuj"[3] == 't'
  {
  }

  lemma AlphaLetters4()
    ensures "srettelfognirtsmodnaratsuj"[4] == 't' && "srettelfognirtsmodnaratsuj"[5] == 'e' && "srettelfognirtsmodnaratsuj"[6] == 'l'
  {
  }

  lemma AlphaLetters7()
    ensures "srettelfognirtsmodnaratsuj"[7] == 'f' && "srettelfognirtsmodnaratsuj"[8] == 'o' && "srettelfognirtsmodnaratsuj"[9] == 'g' && "srettelfognirtsmodnaratsuj"[10] == 'n' && "srettelfognirtsmodnaratsuj"[11] == 'i'
  {
  }

  lemma AlphaLetters12()
    ensures "srettelfognirtsmodnaratsuj"[12] == 'r' && "srettelfognirtsmodnaratsuj"[13] == 't' && "srettelfognirtsmodnaratsuj"[14] == 's' && "srettelfognirtsmodnaratsuj"[15] == 'm' && "srettelfognirtsmodnaratsuj"[16] == 'o' && "srettelfognirtsmodnaratsuj"[17] == 'd' && "srettelfognirtsmodnaratsuj"[18] == 'n' && "srettelfognirtsmodnaratsuj"[19] == 'a' && "srettelfognirtsmodnaratsuj"[20] == 'r' && "srettelfognirtsmodnaratsuj"[21] == 'a' && "srettelfognirtsmodnaratsuj"[22] == 't' && "srettelfognirtsmodnaratsuj"[23] == 's' && "srettelfognirtsmodnaratsuj"[24] == 'u' && "srettelfognirtsmodnaratsuj"[25] == 'j'
  {
  }

  /** The reducer's sum over the reversed 'justarandomstringofletters' on the alphabet. */
  lemma SumAlpha(d: string)
    requires |d| == 26 && AlphaPositions(d)
    ensures AllIn(d, "srettelfognirtsmodnaratsuj") && Sum(d, "srettelfognirtsmodnaratsuj", 2) == 239
  {
    AlphaLetters0();
    AlphaLetters2();
    AlphaLetters4();
    AlphaLetters7();
    AlphaLetters12();
    AlphaSumAt(d, "srettelfognirtsmodnaratsuj");
  }

  lemma AlphaPositionsOf(d: string)
    requires AlphaLayout(d)
    ensures AlphaPositions(d)
  {
    AlphaWellFormed(d);
    IndexRoundTrip(d, 0);
    IndexRoundTrip(d, 3);
    IndexRoundTrip(d, 4);
    IndexRoundTrip(d, 5);
    IndexRoundTrip(d, 6);
    IndexRoundTrip(d, 8);
    IndexRoundTrip(d, 9);
    IndexRoundTrip(d, 11);
    IndexRoundTrip(d, 12);
    IndexRoundTrip(d, 13);
    IndexRoundTrip(d, 14);
    IndexRoundTrip(d, 17);
    IndexRoundTrip(d, 18);
    IndexRoundTrip(d, 19);
    IndexRoundTrip(d, 20);
  }

  lemma JustDigits()
    ensures "justarandomstringofletters123" == "justarandomstringofletters" + "123"
  {
  }

  /** The alphabet drops the digits. */
  lemma FilterJust123(d: string)
    requires AllIn(d, "justarandomstringofletters") && '1' !in d && '2' !in d && '3' !in d
    ensures Filter(d, "justarandomstringofletters123") == "justarandomstringofletters"
  {
    JustDigits();
    FilterAppend(d, "justarandomstringofletters", "123");
    FilterKeeps(d, "justarandomstringofletters");
    FilterNone(d, "123");
  }

  lemma PhraseCustom(cfg: Config)
    requires !cfg.sensitive && AllIn(cfg.dictionary, "justarandomstringofletters")
    requires '1' !in cfg.dictionary && '2' !in cfg.dictionary && '3' !in cfg.dictionary
    ensures FilteredPhrase(cfg, "justARandomStringOfLetters123", false) == "justarandomstringofletters"
  {
    LowerMixed123();
    FilterJust123(cfg.dictionary);
  }

  lemma PhraseCustomJust(cfg: Config)
    requires CaseStable(cfg.dictionary) && AllIn(cfg.dictionary, "justarandomstringofletters")
    ensures FilteredPhrase(cfg, "justarandomstringofletters", false) == "justarandomstringofletters"
  {
    PhraseOfAllIn(cfg, "justarandomstringofletters", false);
  }

  lemma PartsCustom(cfg: Config)
    requires |cfg.dictionary| == 26 && AlphaPositions(cfg.dictionary)
    ensures Reverse("justarandomstringofletters") == "srettelfognirtsmodnaratsuj"
    ensures AllIn(cfg.dictionary, "justarandomstringofletters")
    ensures AllIn(cfg.dictionary, "srettelfognirtsmodnaratsuj") && Sum(cfg.dictionary, "srettelfognirtsmodnaratsuj", 2) == 239
  {
    var d := cfg.dictionary;
    SumAlpha(d);
    ReverseJust();
    AllInReverse(d, "justarandomstringofletters");
  }

  lemma CheckCustom()
    ensures CheckCodePoint(239, 26) == 21
  {
  }

  lemma GenerateCustomOn(cfg: Config)
    requires |cfg.dictionary| == 26 && AlphaPositions(cfg.dictionary) && CaseStable(cfg.dictionary)
    requires cfg.dictionary[21] == 'v'
    ensures Generate(cfg, "justarandomstringofletters", false) == Ok(GenerateResult("justarandomstringofletters", "v"))
  {
    PartsCustom(cfg);
    PhraseCustomJust(cfg);
    CheckCustom();
    GenerateIs(cfg, "justarandomstringofletters", false, "justarandomstringofletters", "srettelfognirtsmodnaratsuj", 239, 'v');
  }

  lemma GenerateCustomLuhnOn(cfg: Config)
    requires |cfg.dictionary| == 26 && AlphaPositions(cfg.dictionary) && CaseStable(cfg.dictionary)
    requires cfg.dictionary[21] == 'v' && !cfg.sensitive
    requires '1' !in cfg.dictionary && '2' !in cfg.dictionary && '3' !in cfg.dictionary
    ensures Generate(cfg, "justARandomStringOfLetters123", false) == Ok(GenerateResult("justarandomstringofletters", "v"))
  {
    GenerateCustomOn(cfg);
    PartsCustom(cfg);
    PhraseCustom(cfg);
    PhraseCustomJust(cfg);
    SamePhrase(cfg, "justARandomStringOfLetters123", "justarandomstringofletters", false);
  }

  /** Corrected, `CustomLuhn.generate('justARandomStringOfLetters123')` lower-cases,
      drops the digits, and returns 'v'. */
  lemma GenerateCustomLuhn(cfg: Config)
    requires AlphaLayout(cfg.dictionary) && !cfg.sensitive
    ensures Generate(cfg, "justARandomStringOfLetters123", false) == Ok(GenerateResult("justarandomstringofletters", "v"))
  {
    var d := cfg.dictionary;
    AlphaWellFormed(d);
    AlphaPositionsOf(d);
    AlphaNoDigit(d, '1');
    AlphaNoDigit(d, '2');
    AlphaNoDigit(d, '3');
    GenerateCustomLuhnOn(cfg);
  }

  lemma CustomLiterals()
    ensures "justARandomStringOfLetters123" + ['v'] == "justARandomStringOfLetters123v"
    ensures "justARandomStringOfLetters" + ['k'] == "justARandomStringOfLettersk"
    ensures "justarandomstringofletters" + ['v'] == "justarandomstringoflettersv"
    ensures "justarandomstringofletters" + ['k'] == "justarandomstringoflettersk"
  {
  }

  /** Corrected, `CustomLuhn.validate('justARandomStringOfLetters123v')` accepts. */
  lemma ValidateCustomLuhn(cfg: Config)
    requires AlphaLayout(cfg.dictionary) && !cfg.sensitive
    ensures Validate(cfg, "justARandomStringOfLetters123v", false) == Ok(ValidateResult("justarandomstringoflettersv", true))
  {
    GenerateCustomLuhn(cfg);
    AlphaWellFormed(cfg.dictionary);
    RoundTrip(cfg, "justARandomStringOfLetters123", false);
    CustomLiterals();
  }

  /** Corrected, `CustomLuhn.validate('justARandomStringOfLettersk')` rejects: 'k' is
      the check character on the default dictionary, not on the alphabet. */
  lemma ValidateCustomLuhnRejects(cfg: Config)
    requires AlphaLayout(cfg.dictionary) && !cfg.sensitive
    ensures Validate(cfg, "justARandomStringOfLettersk", false) == Ok(ValidateResult("justarandomstringoflettersk", false))
  {
    var d := cfg.dictionary;
    AlphaWellFormed(d);
    AlphaPositionsOf(d);
    GenerateCustomOn(cfg);
    PartsCustom(cfg);
    PhraseCustomMixed(cfg);
    PhraseCustomJust(cfg);
    SamePhrase(cfg, "justARandomStringOfLetters", "justarandomstringofletters", false);
    assert d[10] == 'k';
    ValidateAppended(cfg, "justARandomStringOfLetters", false, 'k');
    CustomLiterals();
  }

  lemma PhraseCustomMixed(cfg: Config)
    requires !cfg.sensitive && CaseStable(cfg.dictionary) && AllIn(cfg.dictionary, "justarandomstringofletters")
    ensures FilteredPhrase(cfg, "justARandomStringOfLetters", false) == "justarandomstringofletters"
  {
    LowerMixed();
    FilterKeeps(cfg.dictionary, "justarandomstringofletters");
  }

  /** As written, `CustomLuhn.generate('justARandomStringOfLetters123')` is
      `Luhn.generate('justARandomStringOfLetters123')`: the digits stay and the check
      character is 'k'. */
  lemma CustomLuhnAsWritten()
    ensures Generate(ClassConfigAsWritten(CustomLuhn), "justARandomStringOfLetters123", false) == Ok(GenerateResult("justarandomstringofletters123", "k"))
  {
    AsWrittenUsesBase(CustomLuhn);
    GenerateJust123(ClassConfigAsWritten(CustomLuhn));
  }
}
