/** The Luhn mod-N checksum engine of src/lib/luhn.ts.

    The class `Luhn` keeps its configuration in two static fields (`dictionary`
    and `sensitive`) that subclasses override; here that configuration is an
    explicit `Config` value handed to every operation. JavaScript strings are
    sequences of UTF-16 code units; a Dafny `char` is a Unicode scalar value,
    so `seq<char>` stands for strings of code units outside the surrogate
    range, where the two agree. */
module Luhn {

  import opened ModArith

  /** The failure `getN` raises for a dictionary of odd length. The source
      throws a plain `Error` with a fixed message; the length is kept here for
      diagnostics only. */
  datatype Error = DictionaryLengthNotEven(length: nat)

  datatype Result<T> = Ok(value: T) | Err(error: Error)

  /** The two statics a subclass of `Luhn` may override. */
  datatype Config = Config(dictionary: string, sensitive: bool)

  /** `checksum` is a string because `charAt` returns one: a single character,
      or the empty string when the position is outside the dictionary. */
  datatype GenerateResult = GenerateResult(phrase: string, checksum: string)

  datatype ValidateResult = ValidateResult(phrase: string, isValid: bool)

  // ---------------------------------------------------------------------------
  // Configuration

  /** The value of `Luhn.sensitive`. */
  const BaseSensitive: bool := false

  /** The initializer of `Luhn.dictionary`: the 62-character interleaved
      alphabet when `sensitive` is set (written here as two literals joined),
      the 36-character lower-case one otherwise. */
  function DictionaryFor(sensitive: bool): (d: string)
    ensures |d| == if sensitive then 62 else 36
  {
    if sensitive
    then "0123456789AaBbCcDdEeFfGgHhIiJjKkLlMm" + "NnOoPpQqRrSsTtUuVvWwXxYyZz"
    else "0123456789abcdefghijklmnopqrstuvwxyz"
  }

  /** The value of `Luhn.dictionary`: its initializer runs once, with
      `Luhn.sensitive`, so a subclass that only sets `sensitive` keeps it. */
  const BaseDictionary: string := DictionaryFor(BaseSensitive)

  /** The configuration of the class `Luhn` itself. */
  const Base: Config := Config(BaseDictionary, BaseSensitive)

  /** The case sensitivity `generate` and `validate` act on: an explicit
      argument can switch it on but never off. */
  predicate EffectiveSensitive(cfg: Config, sensitive: bool)
  {
    sensitive || cfg.sensitive
  }

  /** The characters of the dictionary are pairwise distinct. */
  predicate Unique(d: string)
  {
    forall i, j :: 0 <= i < j < |d| ==> d[i] != d[j]
  }

  /** Every character of `s` occurs in the dictionary. */
  predicate AllIn(d: string, s: string)
  {
    forall i :: 0 <= i < |s| ==> s[i] in d
  }

  // ---------------------------------------------------------------------------
  // Lower-casing (ASCII only)

  /** `toLowerCase` on one code unit, restricted to ASCII: A-Z become a-z and
      every other character is left alone. */
  function LowerChar(c: char): (r: char)
    ensures !('A' <= r <= 'Z')
    ensures r != c ==> 'A' <= c <= 'Z' && 'a' <= r <= 'z'
  {
    if 'A' <= c <= 'Z' then (c as int - 'A' as int + 'a' as int) as char else c
  }

  /** `toLowerCase` on a whole string, character by character. */
  function Lower(s: string): (r: string)
    ensures |r| == |s|
    ensures forall i :: 0 <= i < |s| ==> r[i] == LowerChar(s[i])
  {
    seq(|s|, i requires 0 <= i < |s| => LowerChar(s[i]))
  }

  /** The string that is split and filtered: the input itself when case
      sensitive, its lower-cased form otherwise. */
  function Normalize(cfg: Config, input: string, sensitive: bool): (r: string)
    ensures |r| == |input|
    ensures EffectiveSensitive(cfg, sensitive) ==> r == input
    ensures !EffectiveSensitive(cfg, sensitive) ==> r == Lower(input)
  {
    if EffectiveSensitive(cfg, sensitive) then input else Lower(input)
  }

  // ---------------------------------------------------------------------------
  // Character <-> position lookups

  /** `char2index`, i.e. `dictionary.indexOf(character)`: the position of the
      first occurrence of `c`, or -1 when it does not occur. */
  function CharToIndex(d: string, c: char): (r: int)
    ensures -1 <= r < |d|
    ensures r == -1 <==> c !in d
    ensures r >= 0 ==> d[r] == c && c !in d[..r]
  {
    if d == [] then -1
    else if d[0] == c then 0
    else
      var k := CharToIndex(d[1..], c);
      assert d[1..][..if k < 0 then 0 else k] == d[1..1 + if k < 0 then 0 else k];
      if k == -1 then -1 else k + 1
  }

  /** `index2char`, i.e. `dictionary.charAt(codePoint)`: the one-character
      string at that position, or the empty string outside the dictionary. */
  function IndexToChar(d: string, codePoint: int): (r: string)
    ensures |r| <= 1
    ensures r != [] <==> 0 <= codePoint < |d|
    ensures r != [] ==> r[0] == d[codePoint] && r[0] in d
  {
    if 0 <= codePoint < |d| then [d[codePoint]] else []
  }

  /** `filterValid`: the character occurs in the dictionary. */
  predicate IsValidChar(d: string, c: char)
  {
    CharToIndex(d, c) != -1
  }

  /** `.split('').filter(filterValid)`: the characters of `s` that occur in
      the dictionary, in their original order. */
  function Filter(d: string, s: string): (r: string)
    ensures |r| <= |s|
    ensures forall c :: c in r <==> c in s && c in d
  {
    if s == [] then []
    else (if IsValidChar(d, s[0]) then [s[0]] else []) + Filter(d, s[1..])
  }

  /** The filtered phrase that `generate` and `validate` both return. */
  function FilteredPhrase(cfg: Config, input: string, sensitive: bool): (r: string)
    ensures |r| <= |input|
    ensures AllIn(cfg.dictionary, r)
    ensures forall c :: c in r <==> c in Normalize(cfg, input, sensitive) && c in cfg.dictionary
  {
    Filter(cfg.dictionary, Normalize(cfg, input, sensitive))
  }

  /** `[...arr].reverse()`. */
  function Reverse(s: string): string
  {
    seq(|s|, i requires 0 <= i < |s| => s[|s| - 1 - i])
  }

  // ---------------------------------------------------------------------------
  // The digit-sum reduction

  /** A factor the reducer can carry. */
  predicate IsFactor(f: int)
  {
    f == 1 || f == 2
  }

  /** The factor update of the reducer: 2 becomes 1, anything else 2. */
  function Flip(f: int): (r: int)
    ensures IsFactor(r)
    ensures IsFactor(f) ==> r != f && r + f == 3
  {
    if f == 2 then 1 else 2
  }

  /** `Math.floor(addend / n) + addend % n`: the two base-n digits of a
      non-negative addend, added. (On non-negative operands Dafny's `/` and
      `%` agree with `Math.floor` and JavaScript's `%`.) */
  function Fold(addend: int, n: int): (r: int)
    requires n > 0 && addend >= 0
    ensures r >= 0
    ensures addend < n ==> r == addend
    ensures n <= addend < 2 * n ==> r == addend - n + 1
    ensures addend <= 2 * n - 2 ==> r < n
  {
    var r := addend / n + addend % n;
    assert addend < 2 * n ==> r == if addend < n then addend else addend - n + 1 by {
      if addend < 2 * n { SmallDivMod(addend, n); }
    }
    r
  }

  /** What the reducer adds for the character `c` under `factor`. */
  function Addend(d: string, c: char, factor: int): (r: int)
    requires c in d && IsFactor(factor)
    ensures 0 <= r < |d|
    ensures factor == 1 ==> r == CharToIndex(d, c)
  {
    Fold(factor * CharToIndex(d, c), |d|)
  }

  /** The sum the reducer returns when it folds `s` from the left, starting at
      0 with `factor`, flipping the factor after each character. */
  function Sum(d: string, s: string, factor: int): (r: int)
    requires AllIn(d, s) && IsFactor(factor)
    ensures r >= 0
    ensures s != [] ==> |d| > 0
  {
    if s == [] then 0
    else
      assert s[0] in d;
      Addend(d, s[0], factor) + Sum(d, s[1..], Flip(factor))
  }

  /** The reducer built by `reduce(factor)` and run by `Array.reduce` from 0
      over the reversed phrase: the closure's `factor` and the accumulated
      `sum` are the loop state. */
  method Reduce(d: string, reversed: string, factor0: int) returns (sum: int)
    requires AllIn(d, reversed) && IsFactor(factor0)
    ensures sum == Sum(d, reversed, factor0)
  {
    sum := 0;
    var factor := factor0;
    var i := 0;
    while i < |reversed|
      invariant 0 <= i <= |reversed| && IsFactor(factor)
      invariant sum + Sum(d, reversed[i..], factor) == Sum(d, reversed, factor0)
    {
      assert reversed[i] in d && reversed[i..][1..] == reversed[i + 1..];
      var codePoint := CharToIndex(d, reversed[i]);
      var addend := factor * codePoint;
      factor := if factor == 2 then 1 else 2;
      addend := addend / |d| + addend % |d|;
      sum := sum + addend;
      i := i + 1;
    }
    assert reversed[i..] == [];
  }

  // ---------------------------------------------------------------------------
  // The operations

  /** `getN`: the dictionary length, provided it is even. */
  function GetN(cfg: Config): (r: Result<nat>)
    ensures r.Ok? <==> |cfg.dictionary| % 2 == 0
    ensures r.Ok? ==> r.value == |cfg.dictionary|
    ensures r.Err? ==> r.error == DictionaryLengthNotEven(|cfg.dictionary|)
  {
    if |cfg.dictionary| % 2 != 0 then Err(DictionaryLengthNotEven(|cfg.dictionary|))
    else Ok(|cfg.dictionary|)
  }

  /** `(n - sum % n) % n`: the position of the check character, which makes
      `sum` plus it divisible by `n`. */
  function CheckCodePoint(sum: int, n: int): (r: int)
    requires sum >= 0 && n > 0
    ensures 0 <= r < n
    ensures (sum + r) % n == 0
  {
    var q, m := sum / n, sum % n;
    if m == 0 then
      DivModUnique(n, n, 1, 0);
      (n - m) % n
    else
      DivModUnique(n - m, n, 0, n - m);
      DivModUnique(sum + (n - m), n, q + 1, 0);
      (n - m) % n
  }

  /** `Luhn.generate(input, sensitive)`. */
  function Generate(cfg: Config, input: string, sensitive: bool): (r: Result<GenerateResult>)
    ensures r.Err? <==> |cfg.dictionary| % 2 != 0
    ensures r.Err? ==> r.error == DictionaryLengthNotEven(|cfg.dictionary|)
    ensures r.Ok? ==> r.value.phrase == FilteredPhrase(cfg, input, sensitive)
    ensures r.Ok? ==> AllIn(cfg.dictionary, r.value.phrase)
    ensures r.Ok? ==> forall c :: c in r.value.phrase <==> c in Normalize(cfg, input, sensitive) && c in cfg.dictionary
    ensures r.Ok? && |cfg.dictionary| > 0 ==> |r.value.checksum| == 1 && r.value.checksum[0] in cfg.dictionary
    ensures r.Ok? && cfg.dictionary == [] ==> r.value == GenerateResult([], [])
  {
    match GetN(cfg)
    case Err(e) => Err(e)
    case Ok(n) =>
      var phrase := FilteredPhrase(cfg, input, sensitive);
      var sum := Sum(cfg.dictionary, Reverse(phrase), 2);
      // With an empty dictionary `sum % n` is NaN and `charAt(NaN)` reads
      // position 0 of the empty string.
      var checksum := if n == 0 then [] else IndexToChar(cfg.dictionary, CheckCodePoint(sum, n));
      Ok(GenerateResult(phrase, checksum))
  }

  /** `Luhn.validate(input, sensitive)`: the last character of the filtered
      phrase is the check character. */
  function Validate(cfg: Config, input: string, sensitive: bool): (r: Result<ValidateResult>)
    ensures r.Err? <==> |cfg.dictionary| % 2 != 0
    ensures r.Err? ==> r.error == DictionaryLengthNotEven(|cfg.dictionary|)
    ensures r.Ok? ==> r.value.phrase == FilteredPhrase(cfg, input, sensitive)
    ensures r.Ok? ==> AllIn(cfg.dictionary, r.value.phrase)
    ensures r.Ok? ==> forall c :: c in r.value.phrase <==> c in Normalize(cfg, input, sensitive) && c in cfg.dictionary
    ensures r.Ok? && r.value.phrase == [] ==> r.value.isValid
  {
    match GetN(cfg)
    case Err(e) => Err(e)
    case Ok(n) =>
      var phrase := FilteredPhrase(cfg, input, sensitive);
      var sum := Sum(cfg.dictionary, Reverse(phrase), 1);
      assert phrase == [] && n > 0 ==> sum % n == 0 by {
        if phrase == [] && n > 0 { DivModUnique(sum, n, 0, 0); }
      }
      // With an empty dictionary `sum % n` is NaN, and `!NaN` is true.
      Ok(ValidateResult(phrase, n == 0 || sum % n == 0))
  }
}
