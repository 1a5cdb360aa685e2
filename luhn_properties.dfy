/** What `generate` and `validate` promise: the filtered phrase, idempotence of
    filtering, case folding, the alternating factor, the range of the check
    character and the round trip between the two operations. */
module LuhnProperties {

  import opened ModArith
  import opened Luhn

  /** Every dictionary character is left alone by lower-casing, so folding the
      case of a check character cannot push it out of the dictionary. */
  predicate CaseStable(d: string)
  {
    forall i :: 0 <= i < |d| ==> LowerChar(d[i]) == d[i]
  }

  // ---------------------------------------------------------------------------
  // Lookups

  /** With distinct characters, `char2index` undoes `index2char`. */
  lemma IndexRoundTrip(d: string, k: int)
    requires Unique(d) && 0 <= k < |d|
    ensures IndexToChar(d, k) == [d[k]]
    ensures CharToIndex(d, d[k]) == k
  {
  }

  /** `index2char` undoes `char2index` on any dictionary character, distinct
      or not. */
  lemma CharRoundTrip(d: string, c: char)
    requires c in d
    ensures IndexToChar(d, CharToIndex(d, c)) == [c]
  {
  }

  /** Without distinct characters the round trip of IndexRoundTrip fails:
      `indexOf` finds the first copy. */
  lemma DuplicateFindsFirst()
    ensures CharToIndex("00", "00"[1]) == 0
  {
  }

  // ---------------------------------------------------------------------------
  // Filtering

  /** Filtering a concatenation filters each part: the kept characters keep
      their order. */
  lemma {:induction false} FilterAppend(d: string, a: string, b: string)
    ensures Filter(d, a + b) == Filter(d, a) + Filter(d, b)
    decreases |a|
  {
    if a == [] {
      assert a + b == b;
    } else {
      assert (a + b)[0] == a[0] && (a + b)[1..] == a[1..] + b;
      FilterAppend(d, a[1..], b);
    }
  }

  /** A single character is kept exactly when it is in the dictionary. */
  lemma FilterOne(d: string, c: char)
    ensures Filter(d, [c]) == if c in d then [c] else []
  {
    assert [c][1..] == [];
  }

  /** A string made only of dictionary characters passes the filter
      unchanged. */
  lemma {:induction false} FilterKeeps(d: string, s: string)
    requires AllIn(d, s)
    ensures Filter(d, s) == s
    decreases |s|
  {
    if s != [] {
      assert s[0] in d;
      FilterKeeps(d, s[1..]);
    }
  }

  /** Filtering twice is filtering once. */
  lemma FilterIdempotent(d: string, s: string)
    ensures Filter(d, Filter(d, s)) == Filter(d, s)
  {
    var f := Filter(d, s);
    assert AllIn(d, f) by {
      forall i | 0 <= i < |f| ensures f[i] in d {
        assert f[i] in f;
      }
    }
    FilterKeeps(d, f);
  }

  /** The reversal is the one string whose `i`-th character is the input's
      `i`-th from the end. */
  lemma ReverseIs(s: string, r: string)
    requires |r| == |s|
    requires forall i :: 0 <= i < |s| ==> r[i] == s[|s| - 1 - i]
    ensures Reverse(s) == r
  {
  }

  // ---------------------------------------------------------------------------
  // Lower-casing

  lemma LowerAppend(a: string, b: string)
    ensures Lower(a + b) == Lower(a) + Lower(b)
  {
  }

  lemma LowerIdempotent(s: string)
    ensures Lower(Lower(s)) == Lower(s)
  {
  }

  /** What survives filtering a lower-cased string is already lower-case. */
  lemma LowerOfFilteredLower(d: string, s: string)
    ensures Lower(Filter(d, Lower(s))) == Filter(d, Lower(s))
  {
    var f := Filter(d, Lower(s));
    forall i | 0 <= i < |f| ensures LowerChar(f[i]) == f[i] {
      assert f[i] in f;
      var j := CharToIndex(Lower(s), f[i]);
      assert LowerChar(s[j]) == f[i];
    }
  }

  // ---------------------------------------------------------------------------
  // The filtered phrase

  /** Feeding the returned phrase back in returns the same phrase. */
  lemma PhraseFixpoint(cfg: Config, input: string, sensitive: bool)
    ensures var p := FilteredPhrase(cfg, input, sensitive);
            FilteredPhrase(cfg, p, sensitive) == p
  {
    var d := cfg.dictionary;
    if !EffectiveSensitive(cfg, sensitive) {
      LowerOfFilteredLower(d, input);
    }
    FilterIdempotent(d, Normalize(cfg, input, sensitive));
  }

  /** Without case sensitivity, lower-casing the input first changes
      nothing. */
  lemma PhraseIgnoresCase(cfg: Config, input: string, sensitive: bool)
    requires !EffectiveSensitive(cfg, sensitive)
    ensures FilteredPhrase(cfg, Lower(input), sensitive) == FilteredPhrase(cfg, input, sensitive)
  {
    LowerIdempotent(input);
  }

  /** Appending a dictionary character that lower-casing leaves alone appends
      it to the phrase. */
  lemma PhraseAppend(cfg: Config, input: string, sensitive: bool, c: char)
    requires c in cfg.dictionary
    requires EffectiveSensitive(cfg, sensitive) || LowerChar(c) == c
    ensures FilteredPhrase(cfg, input + [c], sensitive) == FilteredPhrase(cfg, input, sensitive) + [c]
  {
    var d := cfg.dictionary;
    if !EffectiveSensitive(cfg, sensitive) {
      LowerAppend(input, [c]);
      assert Lower([c]) == [c];
    }
    FilterAppend(d, Normalize(cfg, input, sensitive), [c]);
    FilterOne(d, c);
  }

  // ---------------------------------------------------------------------------
  // Idempotence and case folding of the operations

  /** `generate` on its own phrase gives the same result. */
  lemma GenerateIdempotent(cfg: Config, input: string, sensitive: bool)
    ensures var r := Generate(cfg, input, sensitive);
            r.Ok? ==> Generate(cfg, r.value.phrase, sensitive) == r
  {
    PhraseFixpoint(cfg, input, sensitive);
  }

  /** `validate` on its own phrase gives the same result. */
  lemma ValidateIdempotent(cfg: Config, input: string, sensitive: bool)
    ensures var r := Validate(cfg, input, sensitive);
            r.Ok? ==> Validate(cfg, r.value.phrase, sensitive) == r
  {
    PhraseFixpoint(cfg, input, sensitive);
  }

  /** Without case sensitivity `generate` sees only the lower-cased input. */
  lemma GenerateIgnoresCase(cfg: Config, input: string, sensitive: bool)
    requires !EffectiveSensitive(cfg, sensitive)
    ensures Generate(cfg, Lower(input), sensitive) == Generate(cfg, input, sensitive)
  {
    PhraseIgnoresCase(cfg, input, sensitive);
  }

  /** Without case sensitivity `validate` sees only the lower-cased input. */
  lemma ValidateIgnoresCase(cfg: Config, input: string, sensitive: bool)
    requires !EffectiveSensitive(cfg, sensitive)
    ensures Validate(cfg, Lower(input), sensitive) == Validate(cfg, input, sensitive)
  {
    PhraseIgnoresCase(cfg, input, sensitive);
  }

  /** An explicit `false` cannot switch off a case-sensitive configuration:
      the argument only ever adds sensitivity. */
  lemma ArgumentCannotDisableSensitivity(cfg: Config, input: string)
    requires cfg.sensitive
    ensures Generate(cfg, input, false) == Generate(cfg, input, true)
    ensures Validate(cfg, input, false) == Validate(cfg, input, true)
  {
  }

  // ---------------------------------------------------------------------------
  // The alternating factor

  /** The factor the reducer applies to the `k`-th character it folds when it
      starts with `factor0`. */
  function FactorAt(factor0: int, k: nat): (f: int)
    requires IsFactor(factor0)
    ensures IsFactor(f)
    ensures f == factor0 <==> k % 2 == 0
  {
    if k % 2 == 0 then factor0 else Flip(factor0)
  }

  /** Starting one position later with the other factor gives the same
      factor. */
  lemma FactorAtFlip(factor0: int, k: nat)
    requires IsFactor(factor0)
    ensures FactorAt(Flip(factor0), k) == FactorAt(factor0, k + 1)
  {
    assert (k + 1) % 2 == 0 <==> k % 2 != 0;
  }

  /** The reference sum: every character weighted by the factor of its
      position, accumulated from the last position back. */
  function WeightedSum(d: string, s: string, factor0: int): int
    requires AllIn(d, s) && IsFactor(factor0)
    decreases |s|
  {
    if s == [] then 0
    else
      assert s[|s| - 1] in d;
      WeightedSum(d, s[..|s| - 1], factor0) + Addend(d, s[|s| - 1], FactorAt(factor0, |s| - 1))
  }

  /** A suffix of dictionary characters is made of dictionary characters. */
  lemma AllInSuffix(d: string, s: string, k: int)
    requires AllIn(d, s) && 0 <= k <= |s|
    ensures AllIn(d, s[k..])
  {
    forall i | 0 <= i < |s[k..]| ensures s[k..][i] in d {
      assert s[k..][i] == s[k + i];
    }
  }

  /** Appending a dictionary character keeps a string of dictionary
      characters. */
  lemma AllInSnoc(d: string, s: string, c: char)
    requires AllIn(d, s) && c in d
    ensures AllIn(d, s + [c])
  {
    var t := s + [c];
    forall i | 0 <= i < |t| ensures t[i] in d {
      if i < |s| { assert t[i] == s[i]; }
    }
  }

  /** Folding one more character adds it with the factor of its position. */
  lemma {:induction false} SumAppend(d: string, s: string, c: char, factor0: int)
    requires AllIn(d, s) && c in d && IsFactor(factor0)
    ensures AllIn(d, s + [c])
    ensures Sum(d, s + [c], factor0) == Sum(d, s, factor0) + Addend(d, c, FactorAt(factor0, |s|))
    decreases |s|
  {
    var t := s + [c];
    AllInSnoc(d, s, c);
    if s == [] {
      assert t[1..] == [];
    } else {
      var f1 := Flip(factor0);
      var tail := s[1..];
      AllInSuffix(d, s, 1);
      assert t[0] == s[0] && t[1..] == tail + [c];
      SumAppend(d, tail, c, f1);
      FactorAtFlip(factor0, |tail|);
    }
  }

  /** The factor strictly alternates: the reducer's sum weights the `k`-th
      folded character by `factor0` when `k` is even and by the other factor
      when `k` is odd. */
  lemma {:induction false} SumByPosition(d: string, s: string, factor0: int)
    requires AllIn(d, s) && IsFactor(factor0)
    ensures Sum(d, s, factor0) == WeightedSum(d, s, factor0)
    decreases |s|
  {
    if s != [] {
      var init, last := s[..|s| - 1], s[|s| - 1];
      assert s == init + [last];
      SumByPosition(d, init, factor0);
      SumAppend(d, init, last, factor0);
    }
  }

  /** One step of the fold, at position `k` of the folded string. */
  lemma SumStep(d: string, s: string, k: int, factor: int)
    requires AllIn(d, s) && IsFactor(factor) && 0 <= k < |s|
    ensures AllIn(d, s[k..]) && AllIn(d, s[k + 1..]) && s[k] in d
    ensures Sum(d, s[k..], factor) == Addend(d, s[k], factor) + Sum(d, s[k + 1..], Flip(factor))
  {
    AllInSuffix(d, s, k);
    AllInSuffix(d, s, k + 1);
    assert s[k..][0] == s[k] && s[k..][1..] == s[k + 1..];
  }

  /** Every step adds less than `n`, so the sum stays below `n` times the
      number of characters folded. */
  lemma {:induction false} SumBound(d: string, s: string, factor: int)
    requires AllIn(d, s) && IsFactor(factor)
    ensures Sum(d, s, factor) <= (|d| - 1) * |s|
    decreases |s|
  {
    if s != [] {
      var rest := s[1..];
      AllInSuffix(d, s, 1);
      SumBound(d, rest, Flip(factor));
      MulSucc(|d| - 1, |rest|);
    }
  }

  // ---------------------------------------------------------------------------
  // The check character

  /** The check position is the only residue that completes the sum: `sum`
      plus a position `k` of the dictionary is divisible by `n` exactly when
      `k` is the check position. */
  lemma CompletesExactly(sum: int, n: int, k: int, total: int)
    requires sum >= 0 && n > 0 && 0 <= k < n && total == sum + k
    ensures total % n == 0 <==> k == CheckCodePoint(sum, n)
  {
    var r := CheckCodePoint(sum, n);
    var m := sum % n;
    AddMod(sum, n, k);
    AddMod(sum, n, r);
    SmallDivMod(m + k, n);
    SmallDivMod(m + r, n);
  }

  /** Appending the check character to a phrase: `validate` folds it first,
      with factor 1, and then the phrase with the factors `generate` used. */
  lemma ValidateSumOfAppended(d: string, p: string, c: char)
    requires AllIn(d, p) && c in d
    ensures AllIn(d, Reverse(p + [c])) && AllIn(d, Reverse(p))
    ensures Sum(d, Reverse(p + [c]), 1) == CharToIndex(d, c) + Sum(d, Reverse(p), 2)
  {
    var rp := Reverse(p);
    assert AllIn(d, rp) by {
      forall i | 0 <= i < |rp| ensures rp[i] in d {
        assert rp[i] == p[|p| - 1 - i];
      }
    }
    assert Reverse(p + [c]) == [c] + rp;
    assert ([c] + rp)[1..] == rp;
  }

  /** `generate` with an even, non-empty dictionary, step by step. */
  lemma GenerateUnfold(cfg: Config, input: string, sensitive: bool)
    requires |cfg.dictionary| % 2 == 0 && |cfg.dictionary| > 0
    ensures var p := FilteredPhrase(cfg, input, sensitive);
            var sum := Sum(cfg.dictionary, Reverse(p), 2);
            Generate(cfg, input, sensitive)
              == Ok(GenerateResult(p, [cfg.dictionary[CheckCodePoint(sum, |cfg.dictionary|)]]))
  {
  }

  /** `validate` with an even, non-empty dictionary, step by step. */
  lemma ValidateUnfold(cfg: Config, input: string, sensitive: bool)
    requires |cfg.dictionary| % 2 == 0 && |cfg.dictionary| > 0
    ensures var p := FilteredPhrase(cfg, input, sensitive);
            Validate(cfg, input, sensitive)
              == Ok(ValidateResult(p, Sum(cfg.dictionary, Reverse(p), 1) % |cfg.dictionary| == 0))
  {
  }

  /** Round trip: appending the generated check character to the input makes
      it valid, and the validated phrase is the generated one plus the check
      character. */
  lemma RoundTrip(cfg: Config, input: string, sensitive: bool)
    requires Unique(cfg.dictionary)
    requires EffectiveSensitive(cfg, sensitive) || CaseStable(cfg.dictionary)
    ensures var g := Generate(cfg, input, sensitive);
            g.Ok? ==>
              Validate(cfg, input + g.value.checksum, sensitive)
                == Ok(ValidateResult(g.value.phrase + g.value.checksum, true))
  {
    var d := cfg.dictionary;
    var n := |d|;
    if n % 2 == 0 {
      var p := FilteredPhrase(cfg, input, sensitive);
      if n == 0 {
        assert Generate(cfg, input, sensitive) == Ok(GenerateResult(p, []));
        assert input + [] == input && p + [] == p;
      } else {
        var sum := Sum(d, Reverse(p), 2);
        var k := CheckCodePoint(sum, n);
        var c := d[k];
        GenerateUnfold(cfg, input, sensitive);
        IndexRoundTrip(d, k);
        PhraseAppend(cfg, input, sensitive, c);
        ValidateSumOfAppended(d, p, c);
        var total := Sum(d, Reverse(p + [c]), 1);
        assert total == sum + k;
        CompletesExactly(sum, n, k, total);
        ValidateUnfold(cfg, input + [c], sensitive);
      }
    }
  }

  /** The check character is the only one that validates: for a dictionary
      character `c`, the input followed by `c` is valid exactly when `c` is
      what `generate` returns. */
  lemma CheckCharacterUnique(cfg: Config, input: string, sensitive: bool, c: char)
    requires Unique(cfg.dictionary) && |cfg.dictionary| % 2 == 0
    requires c in cfg.dictionary
    requires EffectiveSensitive(cfg, sensitive) || LowerChar(c) == c
    ensures Validate(cfg, input + [c], sensitive).Ok? && Generate(cfg, input, sensitive).Ok?
    ensures Validate(cfg, input + [c], sensitive).value.isValid
            <==> Generate(cfg, input, sensitive).value.checksum == [c]
  {
    var d := cfg.dictionary;
    var n := |d|;
    var p := FilteredPhrase(cfg, input, sensitive);
    var sum := Sum(d, Reverse(p), 2);
    var k := CharToIndex(d, c);
    var r := CheckCodePoint(sum, n);
    GenerateUnfold(cfg, input, sensitive);
    PhraseAppend(cfg, input, sensitive, c);
    ValidateSumOfAppended(d, p, c);
    var total := Sum(d, Reverse(p + [c]), 1);
    assert total == sum + k;
    CompletesExactly(sum, n, k, total);
    ValidateUnfold(cfg, input + [c], sensitive);
    IndexRoundTrip(d, r);
  }
}
