# Luhn mod-N checksums

A model of the class `Luhn` of `src/lib/luhn.ts`: the Luhn mod-N algorithm
over a configurable dictionary of characters. `generate` filters an input
down to the characters of the dictionary (after lower-casing it unless the
call or the class is case sensitive), folds the reversed phrase with a
factor that alternates 2, 1, 2, … and returns the phrase with the check
character that makes the folded sum divisible by the dictionary length `n`.
`validate` filters the same way, folds with the factors 1, 2, 1, … (the
last character is the check character) and reports whether the sum is
divisible by `n`. `getN` rejects a dictionary of odd length.

Files:

- `luhn_arith.dfy` (`ModArith`): small facts about Euclidean division.
- `luhn.dfy` (`Luhn`): the data model (`Config`, `GenerateResult`,
  `ValidateResult`, `Result`) and the operations: lower-casing, `char2index`,
  `index2char`, `filterValid`, the reducer (a `method` with a loop proved
  against the fold `Sum`), `getN`, `generate` and `validate`.
- `luhn_properties.dfy` (`LuhnProperties`): what the operations promise
  for every input and every dictionary. This covers the filtered phrase,
  idempotence and case folding, and the strictly alternating factor. It
  also covers the bound on the sum, and the check character being the one
  and only character that completes the sum. Last is the round trip
  between `generate` and `validate`.
- `luhn_examples.dfy` (`LuhnExamples`): the default dictionary and the
  worked examples of the doc comments and of `src/lib/luhn.spec.ts`,
  computed on the code.
- `luhn_subclass.dfy` (`LuhnSubclass`): subclasses that override
  `dictionary` or `sensitive`, both as the code runs them and as their
  declarations intend (see Findings).

The class's configuration lives in two static fields that a subclass may
override. Here it is an explicit `Config(dictionary, sensitive)` handed to
every operation. `Luhn.Base` is the configuration of `Luhn` itself.
The optional `sensitive` argument is a `bool`. An omitted argument is
`undefined`, which behaves like `false` under `||`.

Where the tests and the code disagree, the model follows the code:

- `luhn.spec.ts` lines 7, 11-14, 18, 26 and 30 expect the check character
  'e' for "justarandomstringofletters". Line 51 expects 'S' for
  "justARandomStringOfLetters123".
- Those are the characters the 62-character case-sensitive alphabet gives
  after lower-casing. The code uses the 36-character dictionary and gives
  'k' in both cases (`LuhnExamples.GenerateJust`,
  `LuhnExamples.GenerateJust123`). It also rejects
  "justarandomstringofletterse" (`LuhnExamples.ValidateJustE`).
- The doc comment of `generate` gives the phrase 'FoO' for
  `generate('FoO', true)`, and the one of `validate` gives 'FoO5' for
  `validate('FoO5', true)`. The code keeps only dictionary characters, so
  the phrases are 'o' and 'o5'. The check character 'n' and the verdict
  `false` agree with the code.
- `luhn.spec.ts:63-64` expects an `InvalidDictionaryError`. `getN` throws a
  plain `Error`, modelled as `DictionaryLengthNotEven`.

## Model

| member | source | states |
|---|---|---|
| Luhn.DictionaryFor | src/lib/luhn.ts:26-28 | the initializer yields 62 characters when sensitive and 36 otherwise |
| Luhn.LowerChar | src/lib/luhn.ts:44 | the lower-cased character is never A-Z; a character changes only if it is A-Z, and then into a-z |
| Luhn.Lower | src/lib/luhn.ts:44 | `toLowerCase` keeps the length and lower-cases each character in place |
| Luhn.Normalize | src/lib/luhn.ts:43-45 | the input is kept when `sensitive \|\| this.sensitive`, and lower-cased otherwise |
| Luhn.CharToIndex | src/lib/luhn.ts:93-94 | `indexOf` gives -1 exactly when the character is absent; otherwise it gives a position holding it with no earlier copy |
| Luhn.IndexToChar | src/lib/luhn.ts:101-102 | `charAt` gives one character exactly when the position is inside the dictionary, namely the character there; otherwise it gives the empty string |
| Luhn.Filter | src/lib/luhn.ts:109-110 | the filtered string is no longer than the input; a character occurs in it exactly when it occurs in both the input and the dictionary |
| Luhn.FilteredPhrase | src/lib/luhn.ts:43-47 | the phrase holds only dictionary characters; a character occurs in it exactly when it occurs in the normalised input and the dictionary |
| Luhn.Flip | src/lib/luhn.ts:130 | the new factor is 1 or 2, differs from a factor 1 or 2, and sums with it to 3 |
| Luhn.Fold | src/lib/luhn.ts:132-134 | the folded addend is the sum of its two base-n digits: an addend below n is unchanged, one in [n, 2n) becomes addend - n + 1, so an addend up to 2n-2 folds to below n |
| Luhn.Addend | src/lib/luhn.ts:126-134 | each step adds a value in [0, n); with factor 1 it adds the character's position |
| Luhn.Sum | src/lib/luhn.ts:117-136 | the folded sum is non-negative, and a non-empty phrase implies a non-empty dictionary |
| Luhn.Reduce | src/lib/luhn.ts:117-136 | the reducer loop, carrying `sum` and `factor`, returns the fold `Sum` of the reversed phrase from the given start factor |
| Luhn.GetN | src/lib/luhn.ts:143-147 | `getN` succeeds exactly when the dictionary length is even and returns that length; otherwise the error carries the length |
| Luhn.CheckCodePoint | src/lib/luhn.ts:51-52 | the check position lies in [0, n) and makes sum plus it divisible by n |
| Luhn.Generate | src/lib/luhn.ts:41-57 | fails exactly on an odd dictionary, with its length; the phrase is `FilteredPhrase` of the input (its order and multiplicity are fixed by FilterAppend and FilterOne), made only of dictionary characters; the checksum is one dictionary character; an empty dictionary gives an empty phrase and checksum |
| Luhn.Validate | src/lib/luhn.ts:72-86 | fails exactly on an odd dictionary, with its length; the phrase is `FilteredPhrase` of the input, made only of dictionary characters; an empty phrase is valid |
| LuhnProperties.IndexRoundTrip | src/lib/luhn.ts:93-102 | with distinct dictionary characters, `index2char(k)` is the k-th character and `char2index` maps it back to k |
| LuhnProperties.CharRoundTrip | src/lib/luhn.ts:93-102 | `index2char(char2index(c))` is `c` for every dictionary character, distinct or not |
| LuhnProperties.DuplicateFindsFirst | src/lib/luhn.ts:93-94 | with a repeated character `indexOf` finds the first copy, so IndexRoundTrip needs distinct characters |
| LuhnProperties.FilterAppend | src/lib/luhn.ts:109-110 | filtering a concatenation concatenates the filtered parts, keeping their order |
| LuhnProperties.FilterOne | src/lib/luhn.ts:109-110 | a single character is kept exactly when it is in the dictionary |
| LuhnProperties.FilterKeeps | src/lib/luhn.ts:109-110 | a string of dictionary characters passes the filter unchanged |
| LuhnProperties.FilterIdempotent | src/lib/luhn.ts:109-110 | filtering twice is filtering once |
| LuhnProperties.LowerAppend | src/lib/luhn.ts:44 | lower-casing a concatenation concatenates the lower-cased parts |
| LuhnProperties.LowerIdempotent | src/lib/luhn.ts:44 | lower-casing twice is lower-casing once |
| LuhnProperties.LowerOfFilteredLower | src/lib/luhn.ts:44-47 | what survives filtering a lower-cased string is unchanged by lower-casing |
| LuhnProperties.PhraseFixpoint | src/lib/luhn.ts:43-47 | feeding the returned phrase back in returns the same phrase |
| LuhnProperties.PhraseIgnoresCase | src/lib/luhn.ts:43-47 | when not case sensitive, lower-casing the input first does not change the phrase |
| LuhnProperties.PhraseAppend | src/lib/luhn.ts:43-47 | appending a dictionary character that lower-casing keeps appends it to the phrase |
| LuhnProperties.GenerateIdempotent | src/lib/luhn.ts:41-57 | `generate` on its own phrase returns the same phrase and checksum |
| LuhnProperties.ValidateIdempotent | src/lib/luhn.ts:72-86 | `validate` on its own phrase returns the same phrase and verdict |
| LuhnProperties.GenerateIgnoresCase | src/lib/luhn.ts:41-57 | when not case sensitive, `generate` of the input equals `generate` of its lower-cased form |
| LuhnProperties.ValidateIgnoresCase | src/lib/luhn.ts:72-86 | when not case sensitive, `validate` of the input equals `validate` of its lower-cased form |
| LuhnProperties.ArgumentCannotDisableSensitivity | src/lib/luhn.ts:44 | on a case-sensitive class, passing `false` gives the same results as passing `true` |
| LuhnProperties.FactorAt | src/lib/luhn.ts:118-130 | the factor at step k is 1 or 2, and equals the start factor exactly at even steps |
| LuhnProperties.SumAppend | src/lib/luhn.ts:117-136 | folding one more character adds its addend under the factor of its position |
| LuhnProperties.SumByPosition | src/lib/luhn.ts:117-136 | the reducer's sum equals the reference sum that weights the k-th folded character by the start factor when k is even and by the other factor when k is odd |
| LuhnProperties.SumStep | src/lib/luhn.ts:125-135 | one reducer step adds the current character's addend and hands the flipped factor on |
| LuhnProperties.SumBound | src/lib/luhn.ts:117-136 | the sum is at most (n-1) times the number of characters folded |
| LuhnProperties.CompletesExactly | src/lib/luhn.ts:51-52 | for a position k in [0, n), sum + k is divisible by n exactly when k is the check position |
| LuhnProperties.ValidateSumOfAppended | src/lib/luhn.ts:49-80 | `validate`'s sum over phrase + c is c's position plus `generate`'s sum over the phrase |
| LuhnProperties.RoundTrip | src/lib/luhn.ts:41-86 | for a distinct, case-stable dictionary, validating the input followed by its generated checksum succeeds with the phrase plus the checksum |
| LuhnProperties.CheckCharacterUnique | src/lib/luhn.ts:41-86 | for a distinct dictionary, the input followed by a dictionary character c is valid exactly when c is the generated checksum |
| LuhnExamples.BaseDictionaryLayout | src/lib/luhn.ts:26-28 | `Luhn.dictionary` is the digits followed by a-z |
| LuhnExamples.LayoutWellFormed | src/lib/luhn.ts:26-28 | that dictionary has distinct characters, none changed by lower-casing, all digits or lower-case letters |
| LuhnExamples.BaseRoundTrip | src/lib/luhn.ts:41-86 | on `Luhn` itself, any input followed by its generated checksum validates |
| LuhnExamples.GenerateFoo | src/lib/luhn.ts:37 | `generate('foo')` gives phrase 'foo' and checksum '5' |
| LuhnExamples.GenerateFoO | src/lib/luhn.ts:38 | `generate('FoO')` gives phrase 'foo' and checksum '5' |
| LuhnExamples.GenerateFoOSensitive | src/lib/luhn.ts:39 | `generate('FoO', true)` gives checksum 'n' and phrase 'o' (the comment says 'FoO') |
| LuhnExamples.ValidateFoo | src/lib/luhn.ts:67-68 | `validate('foo5')` and `validate('FoO5')` are valid with phrase 'foo5' |
| LuhnExamples.ValidateFoONonAscii | src/lib/luhn.ts:69 | non-dictionary characters are dropped: 'FoO' + two non-ASCII characters + '5' is valid with phrase 'foo5' |
| LuhnExamples.ValidateFoOSensitive | src/lib/luhn.ts:70 | `validate('FoO5', true)` is invalid, with phrase 'o5' (the comment says 'FoO5') |
| LuhnExamples.GenerateJust | src/lib/luhn.spec.ts:7 | "justarandomstringofletters" gets checksum 'k' (the test expects 'e') |
| LuhnExamples.GenerateDashes | src/lib/luhn.spec.ts:11-14 | dashes are filtered out: phrase "justarandomstringofletters", checksum 'k' (the test expects 'e') |
| LuhnExamples.GenerateJustMixed | src/lib/luhn.spec.ts:18 | mixed case gives the same result as lower case: checksum 'k' (the test expects 'e') |
| LuhnExamples.GenerateUpperSensitive | src/lib/luhn.spec.ts:22 | case-sensitive upper case: every letter is dropped and the checksum is '0' |
| LuhnExamples.ValidateJustE | src/lib/luhn.spec.ts:26 | "justarandomstringofletterse" is invalid (the test expects valid) |
| LuhnExamples.ValidateJustK | src/lib/luhn.spec.ts:25-27 | "justarandomstringoflettersk", with the code's check character, is valid |
| LuhnExamples.ValidateUpperE | src/lib/luhn.spec.ts:30 | upper case + 'e' is invalid, with the lower-cased phrase (the test expects valid) |
| LuhnExamples.ValidateUpperSensitive | src/lib/luhn.spec.ts:34 | case-sensitive upper case + '0' is valid with phrase '0' |
| LuhnExamples.GenerateJust123 | src/lib/luhn.spec.ts:51 | "justARandomStringOfLetters123" keeps its digits and gets checksum 'k' (the test expects 'S') |
| LuhnSubclass.NoOverridesIsLuhn | src/lib/luhn.ts:20-28 | a subclass without overrides has the configuration of `Luhn` under both readings |
| LuhnSubclass.AsWrittenUsesBase | src/lib/luhn.ts:93-147 | as written, every subclass runs on `Luhn.dictionary` with its own `sensitive` |
| LuhnSubclass.OddDictionaryAcceptedAsWritten | src/lib/luhn.ts:143-147 | as written, no subclass dictionary makes `generate` or `validate` fail |
| LuhnSubclass.OddDictionaryRejected | src/lib/luhn.ts:143-147 | corrected: a subclass dictionary of odd length makes both operations fail with its length |
| LuhnSubclass.TestLuhnRejected | src/lib/luhn.spec.ts:58-65 | corrected: `TestLuhn.generate('ab')` fails with length 5 |
| LuhnSubclass.GenerateAb | src/lib/luhn.ts:41-57 | `generate('ab')` on the default dictionary gives phrase 'ab' and checksum '4' |
| LuhnSubclass.TestLuhnAcceptedAsWritten | src/lib/luhn.spec.ts:58-65 | as written, `TestLuhn.generate('ab')` returns phrase 'ab' and checksum '4' instead of failing |
| LuhnSubclass.ChecksumNotUpperAsWritten | src/lib/luhn.ts:26-28 | as written, no subclass ever gets an upper-case check character, whatever its `sensitive` |
| LuhnSubclass.InNotUpper | src/lib/luhn.ts:28 | no character of a digits-and-lower-case dictionary is an upper-case letter |
| LuhnSubclass.SensitiveDictionaryLayout | src/lib/luhn.ts:27 | the 62-character alphabet is the digits followed by each letter in upper then lower case |
| LuhnSubclass.SensitiveLuhnConfig | src/lib/luhn.spec.ts:38-40 | corrected: `SensitiveLuhn` runs case-sensitively on the 62-character alphabet |
| LuhnSubclass.GenerateSensitiveLuhn | src/lib/luhn.spec.ts:42 | corrected: `SensitiveLuhn.generate('justARandomStringOfLetters')` keeps the case and gives 'J' |
| LuhnSubclass.ValidateSensitiveLuhn | src/lib/luhn.spec.ts:43 | corrected: `SensitiveLuhn.validate('justARandomStringOfLettersJ')` is valid |
| LuhnSubclass.CustomLuhnConfig | src/lib/luhn.spec.ts:47-49 | corrected: `CustomLuhn` runs case-insensitively on a-z |
| LuhnSubclass.GenerateCustomLuhn | src/lib/luhn.spec.ts:52 | corrected: `CustomLuhn.generate('justARandomStringOfLetters123')` drops the digits and gives 'v' |
| LuhnSubclass.ValidateCustomLuhn | src/lib/luhn.spec.ts:54 | corrected: `CustomLuhn.validate('justARandomStringOfLetters123v')` is valid |
| LuhnSubclass.ValidateCustomLuhnRejects | src/lib/luhn.spec.ts:55 | corrected: `CustomLuhn.validate('justARandomStringOfLettersk')` is invalid |
| LuhnSubclass.CustomLuhnAsWritten | src/lib/luhn.spec.ts:52 | as written, `CustomLuhn.generate('justARandomStringOfLetters123')` keeps the digits and gives 'k' |

## Left out

- `toLowerCase` is modelled on ASCII only: every other character is left unchanged. Some non-ASCII characters lower-case into dictionary characters in JavaScript (U+212A KELVIN SIGN becomes 'k', U+0130 becomes 'i' followed by U+0307), so for inputs holding them the model's phrase and checksum differ from the program's: `generate` of U+212A gives phrase 'k' and checksum 'v' in JavaScript, but an empty phrase and checksum '0' here. JavaScript's lower-casing can also change the string's length; the model's never does.
- JavaScript strings are sequences of UTF-16 code units, which `split('')`, `indexOf`, `charAt` and `length` all work on. A Dafny `char` is a Unicode scalar value, so the model covers only strings of code units outside the surrogate range (the Basic Multilingual Plane less U+D800-U+DFFF), where a character and a code unit coincide. Characters beyond U+FFFF (two code units in JavaScript, one `char` here) and lone surrogates are not modelled: a dictionary holding an astral character has a different length, possibly of different parity for `getN`, in the model than in the program. The non-ASCII example of `validate` is modelled as the two code units its source text contains.
- The thrown `Error` and its message are modelled as `Err(DictionaryLengthNotEven(length))`. Exceptions do not propagate through callers. The class `InvalidDictionaryError` in `src/lib/exceptions.ts` is not part of this model, as `getN` does not use it.
- With an empty dictionary, `sum % n` is `NaN` in JavaScript. The model states the two outcomes that follow: `charAt(NaN)` on the empty string gives the empty checksum, and `!NaN` makes `validate` report valid. Floating point is not modelled otherwise. The sums are far below 2^53, so the JavaScript numbers stay exact.
- `Luhn.Reverse` has no contract of its own. `LuhnProperties.ReverseIs` characterises it, and `LuhnProperties.ValidateSumOfAppended` states what the operations need of it.
- `Luhn.Sum`: its own contract states only non-negativity. What it computes is stated by `Luhn.Reduce`, `LuhnProperties.SumByPosition`, `LuhnProperties.SumAppend` and `LuhnProperties.SumBound`.
- `Luhn.DictionaryFor`: the 62-character alphabet is written as two joined literals. `LuhnSubclass.SensitiveDictionaryLayout` states its contents.
- `LuhnProperties.RoundTrip` and `LuhnProperties.CheckCharacterUnique` require distinct dictionary characters. With a repeated character `indexOf` finds the first copy (`LuhnProperties.DuplicateFindsFirst`), and the code promises nothing there.
- The worked examples in `LuhnExamples` and `LuhnSubclass` are stated for every configuration whose dictionary has the layout of the named dictionary. `LuhnExamples.BaseDictionaryLayout`, `LuhnSubclass.SensitiveLuhnConfig` and `LuhnSubclass.CustomLuhnConfig` then tie them to the actual classes.
- The doc comments, the package's entry point and the build setup hold no logic and are not modelled.

## Findings

| source | as written | input that shows it | evidently intended | confidence | as-written member | corrected member |
|---|---|---|---|---|---|---|
| src/lib/luhn.ts:143-147 | `getN` is an arrow function in a static field of `Luhn`, so its `this` is `Luhn` and it always measures `Luhn.dictionary`, never a subclass's | `TestLuhn` (dictionary 'abcfo') `.generate('ab')` returns phrase 'ab', checksum '4' | an odd subclass dictionary is rejected (luhn.spec.ts:58-65) | high; not executed | LuhnSubclass.TestLuhnAcceptedAsWritten | LuhnSubclass.TestLuhnRejected |
| src/lib/luhn.ts:93-136 | `char2index`, `index2char`, `filterValid` and `reduce` are bound to `Luhn` the same way, so a subclass's own `dictionary` is ignored | `CustomLuhn` (dictionary a-z) `.generate('justARandomStringOfLetters123')` keeps the digits and returns 'k' | the subclass's alphabet is used: checksum 'v' (luhn.spec.ts:52) | high; not executed | LuhnSubclass.CustomLuhnAsWritten | LuhnSubclass.GenerateCustomLuhn |
| src/lib/luhn.ts:26-28 | the initializer of `Luhn.dictionary` runs once and reads `Luhn.sensitive` (false), so a subclass setting `sensitive = true` keeps the lower-case dictionary | `SensitiveLuhn.generate('justARandomStringOfLetters')` drops the capitals and never returns an upper-case letter | the 62-character alphabet with checksum 'J' (luhn.spec.ts:42) | high; not executed | LuhnSubclass.ChecksumNotUpperAsWritten | LuhnSubclass.GenerateSensitiveLuhn |
