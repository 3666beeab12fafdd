# xkcdpass passphrase core, in Dafny

`xkcdpass.rb` builds passphrases in the style of xkcd 936. It picks words at random
from a dictionary, then runs them through a fixed pipeline of mutations:

1. stutter a syllable in some words;
2. change case;
3. substitute symbols for letters;
4. inject two-digit numbers.

It reports two complexity figures for the result: the entropy of the draws it made,
and a brute-force "haystack" estimate over the character classes of the rendered text.

The model covers the following, one module per concern:

- `Randomness`: `RandomSource`, with `random` and `pick_n_from_m`.
- `PassPhrases`: `PassPhrase`, with `random_words`, `create_pass_phrase` and `to_s`.
- `CaseModifiers`: the case modifiers (Null, Up, Down, Capitalize, RandomWord and Alternate).
- `LetterModifier`: the letter modifier.
- `StutterModifier`: the stutter modifier, including the syllable splitter.
- `NumberInjectors`: the between-words and inside-words number injectors.
- `Haystack`: `HaystackBruteForceComplexity`.
- `Dispatch`: `build_case_modifier` and `build_number_injector`.
- `Text`: character and string helpers such as `upcase`, `downcase`, `capitalize` and `Integer#to_s`.
- `Base`: small value types and sequence helpers.

## How randomness and entropy are modelled

`RandomSource` holds these members:

- `oracle(i, max)` gives the value behind the `i`-th draw.
- `random(max)` returns `oracle(i, max) % max`, or 0 when `max` is 0. This mirrors `(max * rand()).to_i`.
- `ranges` records every range drawn from.
- The ghost field `drawn` records every value returned.

The Ruby `@entropy` is a floating-point sum of `log2(max)`. The model keeps the exact
product instead: `EntropySpace() == Product(ranges)`, and the entropy in bits is its log2.
A draw over a range of 0 is allowed, as in the source. It returns 0 and multiplies the
space by 0, which matches the `-Infinity` the source adds to `@entropy` in that case.

Every randomised operation is a method that `modifies` the source. Its `ensures`
states the ranges it draws from and the values it draws (the ghost `drawn`). For the
methods of the modifiers themselves, it also states the result as a function of
those values.

Lemmas about those functions state what the source promises:

- sampling without replacement;
- the syllable partition;
- that every mutation keeps the words it does not touch;
- and so on.

Every modifier also has a relation, `Stuttering`, `Lettering` or `Numbering`, meaning
"r is a list this modifier can make of these words". Its `…Sound` lemma states what
holds whatever the draws. `StutterRun`, `LetterRun` and `NumberRun` tie such a list to
the values of one run and to their ranges:

- the stutter run computes the list from the values;
- the letter and number runs say the values are exactly the sampling draws followed
  by the flattened coins, placements or injections the list is made from.

`Casing` computes the case step's list from its values, together with the polarity an
alternating modifier is left with, and `CaseRanges` gives that step's ranges outright.

The phrase-level methods (`CreatePassPhrase`, `Mutations` and the four step methods)
state these relations, not closed-form results. A `Trace` records each step's list,
ranges and values (a `Stage`) and the polarity handed on. `Pipeline` chains the four
steps in the source's order. `CreatePassPhrase` states the following:

- the source's ranges grow by the word picks, then by each step's ranges;
- its values grow by the picks, then by each step's values;
- the entropy space grows by the product of all those ranges;
- the case modifier holds the polarity the trace records.

## Model

| member | source | states |
|---|---|---|
| Randomness.RandomSource.constructor | xkcdpass.rb:170-172 | a new source has drawn nothing, so its entropy is 0 bits (a space of 1) |
| Randomness.RandomSource.EntropySpace | xkcdpass.rb:169-176 | `@entropy` is 0 bits while nothing is drawn, and is `-Infinity` (a space of 0) exactly when some draw was over a range of 0 |
| Randomness.RandomSource.Random | xkcdpass.rb:173-176 | the value is below `max`, or 0 when `max` is 0, and is the oracle's value reduced into range. The draw is recorded and the entropy space is multiplied by `max`, i.e. `log2(max)` bits are added |
| Randomness.Range | xkcdpass.rb:178 | `(0...m).to_a` holds 0 to m-1, in order |
| Randomness.RandomSource.PickDraws | xkcdpass.rb:177-183 | the `n.times` loop makes one draw per pick, over pool sizes m, m-1, and so on. `target` holds the pool elements deleted at the drawn offsets, in drawing order |
| Randomness.PicksDistinct | xkcdpass.rb:178-183 | deleting from a pool without repeats yields picks without repeats. Every pick comes from the pool and is gone from what is left |
| Randomness.SortAscPermutes | xkcdpass.rb:184 | `sort` returns a permutation of its input |
| Randomness.SortAscAscending | xkcdpass.rb:184 | `sort` returns an ascending sequence |
| Randomness.SortAscStrict | xkcdpass.rb:184 | sorting an input without repeats gives a strictly ascending sequence |
| Randomness.PickedIndicesSound | xkcdpass.rb:177-185 | `pick_n_from_m(n, m)` returns n distinct indices below m, in strictly ascending order |
| Randomness.CountDownProduct | xkcdpass.rb:180-181 | the ranges of the n draws multiply to m!/(m-n)! |
| Randomness.PickEntropy | xkcdpass.rb:177-185 | a pick multiplies the entropy space by m!/(m-n)! |
| Randomness.RandomSource.PickNFromM | xkcdpass.rb:177-185 | returns n distinct indices below m, in ascending order, equal to the sorted picks of the recorded draws. The entropy space grows by m!/(m-n)! |
| Text.Upcase | xkcdpass.rb:241 | the result equals the word up to case and holds no lower-case letter |
| Text.Downcase | xkcdpass.rb:247 | the result equals the word up to case and holds no upper-case letter |
| Text.Capitalize | xkcdpass.rb:253 | the result equals the word up to case. The first character is not lower case and no later one is upper case |
| Text.UpcaseUnique | xkcdpass.rb:241 | these properties determine `upcase` completely |
| Text.CaseExamples | xkcdpassTest.rb:50-73 | "ThiS" becomes "THIS", "this" and "This" under the three mappings |
| Text.NumberString | xkcdpass.rb:362 | `to_s` of a value below 100 is one or two digits with no leading zero |
| Text.NumberStringRoundTrip | xkcdpass.rb:362 | reading the token back as a decimal gives the drawn value |
| StutterModifier.SplitOffFirstSyllable | xkcdpass.rb:341-352 | a word holding a non-letter raises "<word>: Invalid argument, letters only please". Otherwise the syllable and the rest concatenate to the word, and a non-empty word gives a non-empty syllable |
| StutterModifier.FirstSyllableShape | xkcdpass.rb:345-350 | the first syllable is consonants then vowels. When the word goes on past it, the syllable holds a vowel and the rest starts with a consonant, so no run is cut in two |
| StutterModifier.SplitIntoSyllables | xkcdpass.rb:333-340 | for a word of letters, returns the syllable list `Syllables(word)`. Otherwise returns the error of `split_off_first_syllable` |
| StutterModifier.SplitStep | xkcdpass.rb:333-352 | on a non-empty word of letters, `split_off_first_syllable` splits off the first of its syllables and leaves letters |
| StutterModifier.SyllablesConcat | xkcdpass.rb:333-340 | the syllables join back to the word, and none of them is empty |
| StutterModifier.SyllablesShape | xkcdpass.rb:345-350 | every syllable is consonants then vowels. Every syllable but the last holds a vowel, and every syllable but the first starts with a consonant |
| StutterModifier.SyllablesNonEmpty | xkcdpass.rb:327-328 | a non-empty word has at least one syllable |
| StutterModifier.StutteredShape | xkcdpass.rb:330-331 | after stuttering, the chosen syllable appears `count + 1` times in a row. The syllables before and after stay as they were, and the word grows by `count` copies of the syllable |
| StutterModifier.DrawStutter | xkcdpass.rb:328-329 | draws the syllable index over `syllables.size - 1`, then the extra count over 2 |
| StutterModifier.MutateWord | xkcdpass.rb:326-332 | the result is the syllables with the drawn one inserted again, `1 + random(2)` times, after itself |
| StutterModifier.StutterSampled | xkcdpass.rb:321-323 | the loop over the sampled indices stutters each sampled word with its own two draws |
| StutterModifier.Mutate | xkcdpass.rb:319-325 | samples `stutterCount` distinct indices, then makes two draws per sampled word in index order. The list is the original with each sampled word replaced by its stuttered form |
| StutterModifier.StutterSampledWord | xkcdpass.rb:326-332 | sampled word k is stuttered at a syllable below the last, or at the only one, with a multiplier of 1 or 2 |
| StutterModifier.StutterMutateSound | xkcdpass.rb:319-325 | words that were not sampled are left as they were, and sampled word k becomes the k-th stuttered word |
| StutterModifier.StutteringSound | xkcdpass.rb:319-332 | whatever the draws, the word count is kept, and every word is unchanged or stuttered at one of its syllables with a multiplier of 1 or 2 |
| StutterModifier.StutteringNone | xkcdpass.rb:319-325 | a stutter count of 0 leaves the list as it was |
| StutterModifier.StutterRunSound | xkcdpass.rb:319-332 | a stutter run draws `3 * count` times, starting with the `count` sampling draws over a shrinking pool. Every value lies in its range, and a count of 0 draws nothing |
| CaseModifiers.ApplyCase | xkcdpass.rb:239-255 | each of upcase, downcase and capitalize keeps the word up to case |
| CaseModifiers.MapCase | xkcdpass.rb:225-231 | `WordWiseModifier#mutate` keeps the word count, and every word is kept up to case |
| CaseModifiers.RandomWordCase | xkcdpass.rb:259-267 | draw 0 selects upcase, 1 downcase and 2 capitalize, in both directions |
| CaseModifiers.RandomCasedSound | xkcdpass.rb:257-269 | every word of the result is its original word under the mapping its own draw selects |
| CaseModifiers.RandomWordMutateWord | xkcdpass.rb:258-268 | one draw over 3 selects the mapping applied to the word |
| CaseModifiers.RandomWordMutate | xkcdpass.rb:257-269 | one draw over 3 per word, in word order, and the result is `RandomCased` of those draws |
| CaseModifiers.AlternateFromAt | xkcdpass.rb:279-285 | strict alternation: word i is upcased exactly when the parity of i matches the starting polarity |
| CaseModifiers.PolarityAfterParity | xkcdpass.rb:279-285 | after an even number of words the polarity is back where it started |
| CaseModifiers.AlternateCaseModifier.constructor | xkcdpass.rb:272-274 | a new modifier has no polarity yet |
| CaseModifiers.AlternateCaseModifier.MutateWord | xkcdpass.rb:275-286 | with no polarity yet, it draws one over 2 and uses `draw == 1`; otherwise it draws nothing. It applies the polarity and then flips it |
| CaseModifiers.AlternateCaseModifier.MutateRest | xkcdpass.rb:275-286 | once the polarity is set, the words alternate from it, no draw is made, and the polarity ends flipped once per word |
| CaseModifiers.AlternateCaseModifier.Mutate | xkcdpass.rb:271-287 | the list alternates from the stored polarity, or from a single draw on first use. The polarity carries over to the next call |
| CaseModifiers.CaseMutate | xkcdpass.rb:233-287 | Null returns the list unchanged. Up, Down and Capitalize map every word with no draw. RandomWord and Alternate behave as above. An alternating modifier is left with its polarity flipped once per word, and is left untouched by an empty list |
| CaseModifiers.AlternateExample | xkcdpassTest.rb:101-114 | three words through a fresh modifier whose draw is 0 come out "this", "THIS", "this" |
| CaseModifiers.CasingSound | xkcdpass.rb:225-287 | whatever the modifier and its draws, the word count is kept and every word is kept up to case |
| CaseModifiers.AlternateOnce | xkcdpass.rb:275-286 | an alternating modifier draws once per range of `CaseRanges`. After a call on words it holds a polarity, so later calls draw nothing; a polarity it already held is carried on, and an even number of words hands on the polarity it started from |
| CaseModifiers.CaseEntropy | xkcdpass.rb:257-287 | the random-word modifier adds log2(3) bits per word, an alternating modifier one bit on its first use with words, and the fixed modifiers none |
| LetterModifier.DefaultLetterMap | xkcdpass.rb:291 | the fallback map has keys a, x, s, i, c, d and t, each mapped to a non-letter |
| LetterModifier.NewLetters | xkcdpass.rb:290-293 | the given map is kept. Without one, the default maps only lower-case letters, and only to non-letters |
| LetterModifier.LetterFor | xkcdpass.rb:308-312 | a letter whose lower-case form has no mapping comes back unchanged. A mapped letter becomes its mapped character exactly when its coin is 1 |
| LetterModifier.ModifyOneLetter | xkcdpass.rb:308-312 | draws one coin over 2 for a mapped letter and none otherwise, and returns `LetterFor` of that draw |
| LetterModifier.ModifyLetters | xkcdpass.rb:301-307 | each letter in turn through `modify_one_letter`. The word is `Substituted` of the per-letter coins, and the ranges are one 2 per coin |
| LetterModifier.SubstitutedSound | xkcdpass.rb:301-312 | the word keeps its length, and only mapped letters change, into exactly their mapped character |
| LetterModifier.LetterCoinsCount | xkcdpass.rb:308-311 | one coin is drawn per mapped letter, and each coin is 0 or 1 |
| LetterModifier.SubstitutedCoinsUp | xkcdpassTest.rb:146-156 | with coins up, "ThatAt" under {a => @} becomes "Th@t@t" |
| LetterModifier.SubstitutedCoinsDown | xkcdpassTest.rb:157-167 | with coins down, "ThatAt" is left as it was |
| LetterModifier.SubstitutedUpperCase | xkcdpassTest.rb:171-179 | with coins up, "This Is" under {i => %} becomes "Th%s %s": the upper-case I is found by its lower-case key |
| LetterModifier.ModifySampled | xkcdpass.rb:296-298 | the loop over the sampled offsets writes each sampled word's substituted form into the list |
| LetterModifier.Mutate | xkcdpass.rb:294-300 | samples `count` distinct indices, then substitutes letters in each sampled word in index order. Every other word stays as it was |
| LetterModifier.LetterMutateSound | xkcdpass.rb:294-307 | the word count is kept and words not sampled are unchanged. Sampled word k is substituted with its own coins |
| LetterModifier.LetteringSound | xkcdpass.rb:294-312 | whatever the draws, the word count and every word's length are kept, and only mapped letters change |
| LetterModifier.LetteringNone | xkcdpass.rb:294-300 | a count of 0 leaves the list as it was |
| LetterModifier.LetterRunSound | xkcdpass.rb:294-312 | a letter run makes one draw per range: the `count` sampling draws over a shrinking pool, then only coins over 2. A count of 0 draws nothing |
| NumberInjectors.InsertNumbers | xkcdpass.rb:360-364 | each step inserts one entry, so k steps grow the list by k |
| NumberInjectors.KeepInsert | xkcdpass.rb:363 | `insert` at any offset leaves the entries already there in their order |
| NumberInjectors.BetweenKeeps | xkcdpass.rb:359-366 | dropping the inserted entries gives back the original words in their original order |
| NumberInjectors.BetweenTokens | xkcdpass.rb:362-363 | every inserted entry is the decimal token of a value below 100 |
| NumberInjectors.BetweenSound | xkcdpass.rb:359-366 | the list grows by `number_count`. The original words keep their order around exactly `number_count` entries, all number tokens |
| NumberInjectors.BetweenKeepsLast | xkcdpass.rb:361-363 | each offset is below the current size, so a non-empty list keeps its last word last |
| NumberInjectors.BetweenNone | xkcdpass.rb:360 | a count of 0 draws nothing and returns the list unchanged |
| NumberInjectors.DrawPlacement | xkcdpass.rb:361-362 | draws the offset over the current size, then the number over 100 |
| NumberInjectors.MutateBetween | xkcdpass.rb:359-366 | `number_count` steps, each inserting the drawn token at the drawn offset into the list as it stands, with two draws per step |
| NumberInjectors.InjectedShape | xkcdpass.rb:381-384 | the spliced word is the word with a number token inserted before its last character. Cutting the token out gives the word back, and a non-empty word keeps its last character last |
| NumberInjectors.InjectNumberInWord | xkcdpass.rb:376-384 | draws the number over 100, then the position over the word's length, and returns the word with the token spliced in there |
| NumberInjectors.InjectSampled | xkcdpass.rb:375-378 | the loop over the sampled offsets splices a token into each sampled word in turn |
| NumberInjectors.MutateInside | xkcdpass.rb:373-380 | samples `number_count` distinct indices and splices a token into each sampled word. Every other word stays as it was |
| NumberInjectors.InsideSound | xkcdpass.rb:373-384 | the word count is kept and unsampled words are unchanged. Sampled word k has its token spliced at its drawn position |
| NumberInjectors.InjectNumbers | xkcdpass.rb:355-385 | the default `NullModifier` returns the list unchanged. Between and Inside behave as above |
| NumberInjectors.NumberingSound | xkcdpass.rb:355-385 | whatever the draws, Between adds `count` entries and keeps the words in order around number tokens. Inside keeps the count, and each word is unchanged or has one token spliced in |
| NumberInjectors.NumberRunSound | xkcdpass.rb:355-385 | `NullModifier` draws nothing. Between draws an offset and a number per token. Inside draws `count` sampling draws, then two per sampled word |
| NumberInjectors.InsideRunSound | xkcdpass.rb:373-385 | an inside run draws `3 * count` times, starting with the `count` sampling draws over a shrinking pool |
| Haystack.HaystackPerClass | xkcdpass.rb:197-205 | the space is a product of one power per class present (26, 26, 10), so the bit count is a sum of log2 terms times the length. A string with none of the classes scores 0 bits |
| Haystack.HaystackSpace | xkcdpass.rb:198-205 | the score is never below 0 bits and is 0 bits for the empty string. A string matching all three classes scores log2(26 * 26 * 10) bits per character |
| Haystack.HaystackDependsOnClasses | xkcdpass.rb:197-205 | two strings of the same length that match the same classes score the same |
| Haystack.HaystackSwap | xkcdpass.rb:197-205 | the score does not depend on the order of the parts of a string |
| Haystack.HaystackExample | xkcdpass.rb:197-205 | "a" scores log2(26) bits, "aA" 4 * log2(26), and "Th@t 12" scores 7 * log2(26 * 26 * 10) |
| Dispatch.ParseCaseMode | xkcdpass.rb:91-104 | an unknown name gives the error "Unknown case mode <name>" |
| Dispatch.CaseModeRoundTrip | xkcdpass.rb:91-104 | every mode is found by its own name, and a name is accepted exactly when it names a mode |
| Dispatch.BuildCaseModifier | xkcdpass.rb:89-105 | a value that is not a Symbol (the default `NullModifier`) passes through. A known mode builds its modifier, with Alternate getting a fresh object that has no polarity. An unknown mode raises |
| Dispatch.ParseNumberMode | xkcdpass.rb:108-115 | an unknown name gives the error "Unknown number inject mode <name>" |
| Dispatch.NumberModeRoundTrip | xkcdpass.rb:108-115 | every mode is found by its own name, and a name is accepted exactly when it names a mode |
| Dispatch.BuildNumberInjector | xkcdpass.rb:106-116 | a value that is not a Symbol passes through. "between" and "inside" build their injector with the given count, and anything else raises |
| PassPhrases.PassPhrase.constructor | xkcdpass.rb:125-129 | a new phrase has no words, a single space as separator, and the given source |
| Base.Join | xkcdpass.rb:137 | `join` shows every character of every word and one separator between each two words, starting with the first word |
| PassPhrases.PassPhrase.ToString | xkcdpass.rb:136-138 | `to_s` shows every character of every word and one separator between each two words. A single word shows as itself |
| PassPhrases.PassPhrase.EntropySpace | xkcdpass.rb:130-132 | `entropy` is the random source's: the product of the ranges it has drawn from, 0 bits while it has drawn nothing |
| PassPhrases.PassPhrase.HaystackSpace | xkcdpass.rb:133-135 | `haystack` of the phrase `to_s` shows is never below 0 bits, and is 0 bits while there are no words |
| PassPhrases.JoinSnoc | xkcdpass.rb:136-138 | a word added at the end appears after the phrase so far and one more separator |
| PassPhrases.JoinShort | xkcdpass.rb:136-138 | a single word shows as itself, and no words show as the empty string |
| PassPhrases.PickWordsSound | xkcdpass.rb:159-165 | every picked word is an entry of the word list, so from a dictionary every picked word can be stuttered |
| PassPhrases.WordsEntropy | xkcdpass.rb:159-165 | n picks from a list of `size` words add n * log2(size) bits |
| PassPhrases.PassPhrase.RandomWords | xkcdpass.rb:159-165 | one draw over the whole list per word. The words are the entries at the drawn offsets, in drawing order, and the entropy space grows by `size^n` |
| PassPhrases.PassPhrase.AddStutter | xkcdpass.rb:151 | the words become the list the stutter modifier makes of them from the values it draws. The source's ranges and values grow by exactly that run's |
| PassPhrases.PassPhrase.ChangeCase | xkcdpass.rb:152 | the words become the list the case modifier makes of them from its current polarity and the values it draws, and the modifier keeps the polarity that run leaves. The ranges grow by `CaseRanges` of that modifier, polarity and word count |
| PassPhrases.PassPhrase.ChangeLetters | xkcdpass.rb:153 | the words become a list the letter modifier makes of them from the values it draws. The source's ranges and values grow by exactly that run's |
| PassPhrases.PassPhrase.AddDigits | xkcdpass.rb:154 | the words become a list the number injector makes of them from the values it draws. The source's ranges and values grow by exactly that run's |
| PassPhrases.PassPhrase.Mutations | xkcdpass.rb:151-154 | the four steps run in order, each on the list the one before made. The ranges and values grow by the four steps' in that order, and the case modifier keeps the polarity its step left |
| PassPhrases.PassPhrase.CreatePassPhrase | xkcdpass.rb:148-155 | picks `word_count` words from the list at the drawn offsets and takes the separator. It then stutters, changes case, changes letters and adds numbers, in that order, each step working on the list the step before made. The source's ranges grow by `word_count` ranges of the list size, then by each step's ranges in order, and its values by the offsets and then each step's values. So the entropy space grows by `size^word_count` times the product of the steps' ranges, and by exactly `size^word_count` with the default options. The case modifier is left with the polarity the case step hands on |
| PassPhrases.PhraseEntropy | xkcdpass.rb:159-165 | the entropy of a phrase is the picks' `word_count * log2(size)` bits plus the bits of the steps' draws |
| PassPhrases.PassPhraseSound | xkcdpass.rb:148-155 | the phrase has `word_count` words plus the tokens the between injector adds. With the default options the phrase is exactly the picked words, and the steps draw nothing. With no stutter, letters or numbers, only the case step draws |
| PassPhrases.QuietSteps | xkcdpass.rb:151-154 | with no stutter, letters or numbers, those three steps pass the list on and draw nothing |
| PassPhrases.AlternatePhrases | xkcdpass.rb:20-28 | `main` hands the same alternating modifier to every phrase. Once a phrase has words the modifier holds a polarity, so no later phrase draws a case coin |
| PassPhrases.AlternatePhrase | xkcdpass.rb:148-155 | one word from a list of two with an alternating modifier has a space of 4 while the modifier has no polarity yet, and 2 once it has one. Either way the modifier is left with a polarity |
| PassPhrases.AlternatePhrasesExample | xkcdpass.rb:20-28 | two phrases sharing one alternating modifier: the first has a space of 4, the second of 2 |
| PassPhrases.DefaultPhraseExample | xkcdpass.rb:148-165 | one word from a list of two with the default options leaves a fresh source with a space of 2, one bit |

## Left out

- Entropy and haystack are floating-point sums of `log2` terms in the source. The model keeps the exact spaces whose log2 they are (`EntropySpace`, `HaystackSpace`), because Dafny has no logarithm.
- Haystack.HaystackSpace: leaves out the fourth term, `string =~ /#{$SYMBOLS}/`. There the symbol list is interpolated as a regular expression, not as a character class, so it is not a test for "contains a symbol". The model scores only the three letter and digit classes.
- `NaiveBruteForceComplexity` (xkcdpass.rb:190-195) is not part of this model; nothing in the pipeline uses it.
- These are I/O and not modelled: command-line parsing, `read_dictionary_file`, verbosity, the report, and the `main` loop. Their Ruby randomness (`rand`) is replaced by the oracle parameter of `RandomSource`.
- Randomness.RandomSource.PickNFromM: requires `n <= m`. For `n > m` the draws past the m-th are `random(0)` on an empty pool, and `delete_at` returns `nil`. The `nil` picks then fail, either in `sort` or when used as an index. That error path is not modelled. `StutterModifier.Mutate`, `LetterModifier.Mutate`, `MutateInside` and `InjectNumbers` therefore require a count no larger than the list, and so do `CreatePassPhrase` and its steps.
- StutterModifier.Mutate: requires every word to be non-empty letters when the count is positive. The source raises on a non-letter word (modelled by `SplitOffFirstSyllable` and `SplitIntoSyllables` as an `Err`). An empty word has no syllables, so `mutate_word` calls `random(-1)`, and `log2(-1)` raises `Math::DomainError` (xkcdpass.rb:173-174). Words from `read_dictionary_file` always satisfy this.
- PassPhrases.PassPhrase.RandomWords: requires a non-empty word list when words are requested. On an empty list the source indexes past the end and gets `nil`, not a word.
- StutterModifier.MutateWord: the multiplier is `1 + random(2)`, so 1 or 2 (xkcdpass.rb:329). A one-syllable word is not skipped: it is stuttered at its only syllable after a draw over 0 (xkcdpass.rb:328).
- NumberInjectors.MutateBetween: the offset is `random(words.size)`, so it is below the current length (xkcdpass.rb:361), and nothing is ever inserted after the last word.
- Counts are `nat`. A negative count from `to_i` (xkcdpass.rb:41, 53 and 56) makes `times` run zero times in the source, which is the same as a count of 0.
- Text.Upcase/Downcase/Capitalize: map only the ASCII letters. Ruby's `upcase`, `downcase` and `capitalize` also map non-ASCII letters. Words from `read_dictionary_file` are ASCII letters (xkcdpass.rb:217), and the symbols and digits the other steps add have no case.
- PassPhrases.PassPhrase.constructor: takes the source as a parameter. The default of xkcdpass.rb:126, a fresh `RandomSource` when none is given, is left to the caller, because the model's source needs the oracle that stands for `rand`.
- Lists are modelled as values. The source mutates the `@words` array in place (`words[offset] = …`, `words.insert`) and `String#insert` mutates the word. No aliasing is observable in `create_pass_phrase`, so the values carry the same results.
- `LetterModifier` is built at xkcdpass.rb:69 with the default `NullModifier` as its map and a count of 0, and no command-line option changes either. `LetterModifier.Letters` takes the map as a parameter, and `DefaultLetterMap` is the fallback of xkcdpass.rb:291.
- PassPhrases.PassPhrase.CreatePassPhrase: relates the phrase to the values drawn through the run relations, not as one closed-form function of them. The stutter and case runs compute their lists from the values. That the letter and number runs admit only one list for a given sequence of values (the flattened coins, placements or injections determine the unflattened ones) is not proved.
- `build_stutter_injector` (xkcdpass.rb:117-120) only wraps the count; the model passes the stutter count directly.
- `xkcdpassTest.rb` exercises an older API (`modify_case`, `modify_letters` on `PassPhrase`, `RandomCaseModifier`, `NumbersAfterWordsInjector`). Only the expected values of its case and letter tests are used, as example lemmas.
