/**
 * StutterModifier: the syllable splitter (`split_off_first_syllable`,
 * `split_into_syllables`) and the stutter step that repeats one syllable of
 * a few sampled words (`mutate_word`, `mutate`).
 */
module StutterModifier {
  import opened Base
  import opened Text
  import opened Randomness

  /** The end of the run of vowels in `w` that starts at `i`. */
  function VowelsFrom(w: string, i: nat): (k: nat)
    requires i <= |w|
    ensures i <= k <= |w|
    decreases |w| - i
  {
    if i < |w| && IsVowel(w[i]) then VowelsFrom(w, i + 1) else i
  }

  /** The end of the run of non-vowels in `w` that starts at `i`. */
  function ConsonantsFrom(w: string, i: nat): (k: nat)
    requires i <= |w|
    ensures i <= k <= |w|
    decreases |w| - i
  {
    if i < |w| && !IsVowel(w[i]) then ConsonantsFrom(w, i + 1) else i
  }

  lemma {:induction false} VowelsFromSpec(w: string, i: nat)
    requires i <= |w|
    ensures forall j :: i <= j < VowelsFrom(w, i) ==> IsVowel(w[j])
    ensures VowelsFrom(w, i) < |w| ==> !IsVowel(w[VowelsFrom(w, i)])
    decreases |w| - i
  {
    if i < |w| && IsVowel(w[i]) {
      VowelsFromSpec(w, i + 1);
    }
  }

  lemma {:induction false} ConsonantsFromSpec(w: string, i: nat)
    requires i <= |w|
    ensures forall j :: i <= j < ConsonantsFrom(w, i) ==> !IsVowel(w[j])
    ensures ConsonantsFrom(w, i) < |w| ==> IsVowel(w[ConsonantsFrom(w, i)])
    decreases |w| - i
  {
    if i < |w| && !IsVowel(w[i]) {
      ConsonantsFromSpec(w, i + 1);
    }
  }

  /** The shape of a syllable: no vowel is followed by a consonant. */
  predicate VowelsLast(s: string)
  {
    forall i, j :: 0 <= i < j < |s| && IsVowel(s[i]) ==> IsVowel(s[j])
  }

  /**
   * Length of the syllable `split_off_first_syllable` takes off the front of `w`:
   * a leading run of vowels; else a run of consonants with the run of vowels
   * after it; else, when no vowel follows the consonants, the whole of `w`.
   */
  function FirstSyllableLength(w: string): (k: nat)
    ensures k <= |w|
    ensures w != [] ==> k >= 1
  {
    if w == [] then 0
    else if IsVowel(w[0]) then VowelsFrom(w, 0)
    else
      var c := ConsonantsFrom(w, 0);
      if c < |w| then VowelsFrom(w, c) else |w|
  }

  /** `split_off_first_syllable`: the first syllable and the rest; a word holding anything but ASCII letters raises. */
  function SplitOffFirstSyllable(word: string): (r: Result<(string, string)>)
    ensures r.Err? <==> !AllLetters(word)
    ensures r.Err? ==> r.error == word + ": Invalid argument, letters only please"
    ensures r.Ok? ==> r.value.0 + r.value.1 == word
    ensures r.Ok? && word != [] ==> r.value.0 != []
  {
    if !AllLetters(word) then
      Err(word + ": Invalid argument, letters only please")
    else
      var k := FirstSyllableLength(word);
      Ok((word[..k], word[k..]))
  }

  /**
   * The first syllable has the shape consonants-then-vowels, and when the word
   * goes on, it holds a vowel and what follows starts with a consonant.
   */
  lemma FirstSyllableShape(w: string)
    ensures var k := FirstSyllableLength(w);
      && VowelsLast(w[..k])
      && (k < |w| ==> HasVowel(w[..k]) && !IsVowel(w[k]))
  {
    if w != [] && IsVowel(w[0]) {
      VowelsFromSpec(w, 0);
    } else if w != [] {
      var c := ConsonantsFrom(w, 0);
      ConsonantsFromSpec(w, 0);
      if c < |w| {
        VowelsFromSpec(w, c);
        assert IsVowel(w[..VowelsFrom(w, c)][c]);
      }
    }
  }

  /** What follows a prefix of an all-letter word is made of letters too. */
  lemma SuffixLetters(w: string, k: nat)
    requires AllLetters(w) && k <= |w|
    ensures AllLetters(w[k..])
  {
    assert forall i :: 0 <= i < |w| - k ==> w[k..][i] == w[k + i];
  }

  /** The syllables `split_into_syllables` produces, one `FirstSyllableLength` at a time. */
  function Syllables(word: string): seq<string>
    decreases |word|
  {
    if word == [] then []
    else
      var k := FirstSyllableLength(word);
      [word[..k]] + Syllables(word[k..])
  }

  /** The syllables concatenate back to the word, and none of them is empty. */
  lemma {:induction false} SyllablesConcat(word: string)
    ensures Concat(Syllables(word)) == word
    ensures forall i :: 0 <= i < |Syllables(word)| ==> Syllables(word)[i] != []
    decreases |word|
  {
    if word != [] {
      var k := FirstSyllableLength(word);
      SyllablesConcat(word[k..]);
      assert word[..k] + word[k..] == word;
    }
  }

  /**
   * Every syllable has the shape consonants-then-vowels; every syllable but the
   * last holds a vowel, and every syllable but the first starts with a consonant.
   */
  lemma {:induction false} SyllablesShape(word: string)
    ensures forall i :: 0 <= i < |Syllables(word)| ==> VowelsLast(Syllables(word)[i])
    ensures forall i :: 0 <= i < |Syllables(word)| - 1 ==> HasVowel(Syllables(word)[i])
    ensures forall i :: 1 <= i < |Syllables(word)| ==> |Syllables(word)[i]| > 0 && !IsVowel(Syllables(word)[i][0])
    decreases |word|
  {
    if word != [] {
      var k := FirstSyllableLength(word);
      FirstSyllableShape(word);
      SyllablesShape(word[k..]);
      var s := Syllables(word);
      if |s| > 1 {
        SyllablesConcat(word[k..]);
        assert s[1][0] == word[k];
      }
    }
  }

  /** On a non-empty word of letters, `split_off_first_syllable` splits off the first of its syllables. */
  lemma SplitStep(w: string)
    requires AllLetters(w) && w != []
    ensures var k := FirstSyllableLength(w);
      && SplitOffFirstSyllable(w) == Ok((w[..k], w[k..]))
      && AllLetters(w[k..]) && Syllables(w) == [w[..k]] + Syllables(w[k..])
  {
    SuffixLetters(w, FirstSyllableLength(w));
  }

  /** `split_into_syllables`: repeatedly split off the first syllable until the word is used up. */
  method SplitIntoSyllables(word: string) returns (r: Result<seq<string>>)
    ensures AllLetters(word) ==> r == Ok(Syllables(word))
    ensures !AllLetters(word) ==> r == Err(word + ": Invalid argument, letters only please")
  {
    var rest := word;
    var result: seq<string> := [];
    while |rest| > 0
      invariant AllLetters(word) ==> AllLetters(rest) && result + Syllables(rest) == Syllables(word)
      invariant !AllLetters(word) ==> result == [] && rest == word
      decreases |rest|
    {
      var split := SplitOffFirstSyllable(rest);
      if split.Err? {
        return Err(split.error);
      }
      var (syllable, tail) := split.value;
      SplitStep(rest);
      result := result + [syllable];
      rest := tail;
    }
    assert result + Syllables(rest) == result;
    return Ok(result);
  }

  /** A word `mutate_word` can work on: a non-empty word of letters, which has a syllable to repeat. */
  predicate Stutterable(w: string)
  {
    AllLetters(w) && w != []
  }

  /** A non-empty word has at least one syllable. */
  lemma SyllablesNonEmpty(w: string)
    requires w != []
    ensures |Syllables(w)| >= 1
  {
  }

  /** `syllables.insert(index, syllables[index] * count)` followed by `join('')`. */
  function StutterSyllables(s: seq<string>, index: nat, count: nat): string
    requires index < |s|
  {
    Concat(Insert(s, index, Times(s[index], count)))
  }

  /** The word `mutate_word` builds when its draws select syllable `index` and multiplier `count`. */
  function Stuttered(word: string, index: nat, count: nat): string
    requires index < |Syllables(word)|
  {
    StutterSyllables(Syllables(word), index, count)
  }

  lemma {:induction false} TimesSuccessor(s: string, n: nat)
    ensures Times(s, n) + s == Times(s, n + 1)
  {
    if n > 0 {
      TimesSuccessor(s, n - 1);
    }
  }

  /**
   * Stuttering repeats syllable `index` `count + 1` times in a row and leaves the
   * syllables before and after it as they were; the word grows by `count` copies.
   */
  lemma StutteredShape(word: string, index: nat, count: nat)
    requires index < |Syllables(word)|
    ensures var s := Syllables(word);
      && word == Concat(s[..index]) + s[index] + Concat(s[index + 1..])
      && Stuttered(word, index, count) == Concat(s[..index]) + Times(s[index], count + 1) + Concat(s[index + 1..])
      && |Stuttered(word, index, count)| == |word| + count * |s[index]|
  {
    var s := Syllables(word);
    var pre, x, post := s[..index], s[index], s[index + 1..];
    SyllablesConcat(word);
    assert s == pre + ([x] + post);
    ConcatAppend(pre, [x] + post);
    assert Concat([x] + post) == x + Concat(post);
    assert Insert(s, index, Times(x, count)) == pre + ([Times(x, count)] + ([x] + post));
    ConcatAppend(pre, [Times(x, count)] + ([x] + post));
    assert Concat([Times(x, count)] + ([x] + post)) == Times(x, count) + Concat([x] + post);
    TimesSuccessor(x, count);
  }

  /** The ranges of `mutate_word`'s two draws: the syllable to repeat, below the last one, and the extra count. */
  function WordRanges(syllables: seq<string>): (r: seq<nat>)
    requires |syllables| >= 1
    ensures |r| == 2 && r[0] == |syllables| - 1 && r[1] == 2
  {
    [|syllables| - 1, 2]
  }

  /**
   * The two draws of `mutate_word`: the syllable to repeat, below the last one,
   * and the extra count in {0, 1}; a one-syllable word draws over the empty
   * range and gets 0.
   */
  method DrawStutter(syllables: seq<string>, rs: RandomSource) returns (index: nat, extra: nat)
    requires rs.Valid() && |syllables| >= 1
    modifies rs
    ensures rs.Valid() && rs.drawn == old(rs.drawn) + [index, extra]
    ensures rs.ranges == old(rs.ranges) + WordRanges(syllables)
    ensures Drawn(WordRanges(syllables), [index, extra])
  {
    index := rs.Random(|syllables| - 1);
    extra := rs.Random(2);
  }

  /** `mutate_word`: the chosen syllable written `1 + extra` extra times after itself. */
  method MutateWord(word: string, rs: RandomSource) returns (r: string, ghost draws: seq<nat>)
    requires rs.Valid() && Stutterable(word)
    modifies rs
    ensures rs.Valid() && rs.drawn == old(rs.drawn) + draws
    ensures rs.ranges == old(rs.ranges) + WordRanges(Syllables(word))
    ensures Drawn(WordRanges(Syllables(word)), draws)
    ensures r == StutterSyllables(Syllables(word), draws[0], 1 + draws[1])
  {
    var split := SplitIntoSyllables(word);
    var syllables := split.value;
    SyllablesNonEmpty(word);
    var index, extra := DrawStutter(syllables, rs);
    var count := 1 + extra;
    r := Concat(Insert(syllables, index, Times(syllables[index], count)));
    draws := [index, extra];
  }

  /** The syllables of every word of the list. */
  function SyllableTable(words: seq<string>): (t: seq<seq<string>>)
    ensures |t| == |words|
  {
    seq(|words|, j requires 0 <= j < |words| => Syllables(words[j]))
  }

  /** Every offset names a word, given by its syllables, that has a syllable to repeat. */
  predicate StutterOffsets(syl: seq<seq<string>>, offsets: seq<nat>)
  {
    forall k :: 0 <= k < |offsets| ==> offsets[k] < |syl| && |syl[offsets[k]]| >= 1
  }

  /** The ranges of the two draws `mutate_word` makes for each sampled word, in sampling order. */
  function StutterRanges(syl: seq<seq<string>>, offsets: seq<nat>): (r: seq<nat>)
    requires StutterOffsets(syl, offsets)
    ensures |r| == 2 * |offsets|
  {
    if offsets == [] then []
    else
      var last := offsets[|offsets| - 1];
      StutterRanges(syl, offsets[..|offsets| - 1]) + WordRanges(syl[last])
  }

  lemma {:induction false} StutterRangesAt(syl: seq<seq<string>>, offsets: seq<nat>, k: nat)
    requires StutterOffsets(syl, offsets) && k < |offsets|
    ensures StutterRanges(syl, offsets)[2 * k] == |syl[offsets[k]]| - 1
    ensures StutterRanges(syl, offsets)[2 * k + 1] == 2
    decreases |offsets|
  {
    var n := |offsets| - 1;
    var prefix := StutterRanges(syl, offsets[..n]);
    assert StutterRanges(syl, offsets) == prefix + WordRanges(syl[offsets[n]]);
    if k < n {
      assert offsets[..n][k] == offsets[k];
      StutterRangesAt(syl, offsets[..n], k);
    }
  }

  /** The words `mutate_word` makes of the sampled words, word `offsets[k]` with draws `extra[2 * k]` and `extra[2 * k + 1]`. */
  function StutterWords(syl: seq<seq<string>>, offsets: seq<nat>, extra: seq<nat>): (r: seq<string>)
    requires StutterOffsets(syl, offsets) && Drawn(StutterRanges(syl, offsets), extra)
    ensures |r| == |offsets|
    decreases |offsets|
  {
    if offsets == [] then []
    else
      var n := |offsets| - 1;
      var w := offsets[n];
      StutterRangesAt(syl, offsets, n);
      assert Drawn(StutterRanges(syl, offsets[..n]), extra[..2 * n]);
      StutterWords(syl, offsets[..n], extra[..2 * n]) + [StutterSyllables(syl[w], extra[2 * n], 1 + extra[2 * n + 1])]
  }

  /** Unfolding `StutterWords` once: the word made last comes after the others. */
  lemma StutterWordsLast(syl: seq<seq<string>>, offsets: seq<nat>, extra: seq<nat>)
    requires StutterOffsets(syl, offsets) && Drawn(StutterRanges(syl, offsets), extra)
    requires |offsets| >= 1
    ensures var n := |offsets| - 1;
      && StutterOffsets(syl, offsets[..n]) && Drawn(StutterRanges(syl, offsets[..n]), extra[..2 * n])
      && extra[2 * n] < |syl[offsets[n]]|
      && StutterWords(syl, offsets, extra)
         == StutterWords(syl, offsets[..n], extra[..2 * n]) + [StutterSyllables(syl[offsets[n]], extra[2 * n], 1 + extra[2 * n + 1])]
  {
    StutterRangesAt(syl, offsets, |offsets| - 1);
  }

  /** Sampled word `k` becomes word `k` stuttered with its own two draws. */
  lemma {:induction false} StutterWordsAt(syl: seq<seq<string>>, offsets: seq<nat>, extra: seq<nat>, k: nat)
    requires StutterOffsets(syl, offsets) && Drawn(StutterRanges(syl, offsets), extra)
    requires k < |offsets|
    ensures extra[2 * k] < |syl[offsets[k]]|
    ensures StutterWords(syl, offsets, extra)[k] == StutterSyllables(syl[offsets[k]], extra[2 * k], 1 + extra[2 * k + 1])
    decreases |offsets|
  {
    var n := |offsets| - 1;
    StutterWordsLast(syl, offsets, extra);
    if k < n {
      var prefix, extra' := offsets[..n], extra[..2 * n];
      StutterWordsAt(syl, prefix, extra', k);
      assert prefix[k] == offsets[k];
      assert extra'[2 * k] == extra[2 * k] && extra'[2 * k + 1] == extra[2 * k + 1];
    }
  }

  /**
   * Where the `indeces.each` loop of `mutate` stands after stuttering the words at
   * `offsets`: the draws made since `drawn0`, the ranges recorded since `ranges0`
   * and the list the stuttered words have been written into.
   */
  ghost predicate StutterState(words: seq<string>, offsets: seq<nat>, extra: seq<nat>, r: seq<string>,
                               ranges0: seq<nat>, ranges: seq<nat>, drawn0: seq<nat>, drawn: seq<nat>)
  {
    var syl := SyllableTable(words);
    && StutterOffsets(syl, offsets)
    && Drawn(StutterRanges(syl, offsets), extra)
    && r == Replace(words, offsets, StutterWords(syl, offsets, extra))
    && ranges == ranges0 + StutterRanges(syl, offsets)
    && drawn == drawn0 + extra
  }

  /** The word at an offset not stuttered yet is still the original word. */
  lemma StutterPending(words: seq<string>, offsets: seq<nat>, extra: seq<nat>, r: seq<string>,
                       ranges0: seq<nat>, ranges: seq<nat>, drawn0: seq<nat>, drawn: seq<nat>, o: nat)
    requires StutterState(words, offsets, extra, r, ranges0, ranges, drawn0, drawn)
    requires Distinct(offsets) && o < |words| && o !in offsets
    ensures r[o] == words[o]
  {
    ReplaceSound(words, offsets, StutterWords(SyllableTable(words), offsets, extra));
  }

  /** One more sampled word: its two ranges and draws go at the end, and its stuttered form after the others. */
  lemma StutterExtend(syl: seq<seq<string>>, offsets: seq<nat>, extra: seq<nat>, o: nat, d: seq<nat>)
    requires StutterOffsets(syl, offsets) && Drawn(StutterRanges(syl, offsets), extra)
    requires o < |syl| && |syl[o]| >= 1 && Drawn(WordRanges(syl[o]), d)
    ensures StutterOffsets(syl, offsets + [o])
    ensures StutterRanges(syl, offsets + [o]) == StutterRanges(syl, offsets) + WordRanges(syl[o])
    ensures Drawn(StutterRanges(syl, offsets + [o]), extra + d)
    ensures StutterWords(syl, offsets + [o], extra + d) == StutterWords(syl, offsets, extra) + [StutterSyllables(syl[o], d[0], 1 + d[1])]
  {
    var offsets' := offsets + [o];
    assert offsets'[..|offsets|] == offsets;
    DrawnAppend(StutterRanges(syl, offsets), extra, WordRanges(syl[o]), d);
    assert (extra + d)[..2 * |offsets|] == extra;
  }

  /** Stuttering one more sampled word moves `StutterState` along. */
  lemma StutterStep(words: seq<string>, offsets: seq<nat>, extra: seq<nat>, r: seq<string>,
                    ranges0: seq<nat>, ranges: seq<nat>, drawn0: seq<nat>, drawn: seq<nat>,
                    o: nat, d: seq<nat>, x: string, ranges': seq<nat>, drawn': seq<nat>)
    requires StutterState(words, offsets, extra, r, ranges0, ranges, drawn0, drawn)
    requires o < |words| && words[o] != []
    requires ranges' == ranges + WordRanges(Syllables(words[o])) && drawn' == drawn + d
    requires Drawn(WordRanges(Syllables(words[o])), d)
    requires x == StutterSyllables(Syllables(words[o]), d[0], 1 + d[1])
    ensures StutterState(words, offsets + [o], extra + d, r[o := x], ranges0, ranges', drawn0, drawn')
  {
    var syl := SyllableTable(words);
    SyllablesNonEmpty(words[o]);
    assert syl[o] == Syllables(words[o]);
    StutterExtend(syl, offsets, extra, o, d);
    var news := StutterWords(syl, offsets, extra);
    var news' := StutterWords(syl, offsets + [o], extra + d);
    ReplaceExtend(words, offsets, news, o, x);
    assert news' == news + [x];
    AppendAssoc(ranges0, StutterRanges(syl, offsets), WordRanges(syl[o]));
    AppendAssoc(drawn0, extra, d);
  }

  /** The `indeces.each` loop of `mutate`: stutter the words at the sampled indices in turn. */
  method StutterSampled(words: seq<string>, indices: seq<nat>, rs: RandomSource) returns (r: seq<string>, ghost extra: seq<nat>)
    requires rs.Valid() && StrictlyIncreasing(indices)
    requires forall k :: 0 <= k < |indices| ==> indices[k] < |words| && Stutterable(words[indices[k]])
    modifies rs
    ensures rs.Valid()
    ensures StutterState(words, indices, extra, r, old(rs.ranges), rs.ranges, old(rs.drawn), rs.drawn)
  {
    extra := [];
    r := words;
    for i := 0 to |indices|
      invariant rs.Valid()
      invariant StutterState(words, indices[..i], extra, r, old(rs.ranges), rs.ranges, old(rs.drawn), rs.drawn)
    {
      var index := indices[i];
      assert indices[..i + 1] == indices[..i] + [index];
      StutterPending(words, indices[..i], extra, r, old(rs.ranges), rs.ranges, old(rs.drawn), rs.drawn, index);
      var word := r[index];
      ghost var ranges, drawn := rs.ranges, rs.drawn;
      ghost var wordDraws;
      var stuttered;
      stuttered, wordDraws := MutateWord(word, rs);
      StutterStep(words, indices[..i], extra, r, old(rs.ranges), ranges, old(rs.drawn), drawn,
                  index, wordDraws, stuttered, rs.ranges, rs.drawn);
      r := r[index := stuttered];
      extra := extra + wordDraws;
    }
    assert indices[..|indices|] == indices;
  }

  /**
   * `mutate`: sample `stutterCount` distinct word indices, then stutter each sampled
   * word with two draws of its own; every other word is left as it was.
   */
  method Mutate(stutterCount: nat, words: seq<string>, rs: RandomSource) returns (r: seq<string>, ghost draws: seq<nat>)
    requires rs.Valid() && stutterCount <= |words|
    requires stutterCount > 0 ==> forall i :: 0 <= i < |words| ==> Stutterable(words[i])
    modifies rs
    ensures rs.Valid() && rs.drawn == old(rs.drawn) + draws
    ensures |draws| >= stutterCount && Within(CountDown(|words|, stutterCount), draws[..stutterCount])
    ensures var syl, offsets := SyllableTable(words), PickedIndices(|words|, draws[..stutterCount]);
      && StrictlyIncreasing(offsets) && StutterOffsets(syl, offsets)
      && Drawn(StutterRanges(syl, offsets), draws[stutterCount..])
      && rs.ranges == old(rs.ranges) + CountDown(|words|, stutterCount) + StutterRanges(syl, offsets)
      && r == Replace(words, offsets, StutterWords(syl, offsets, draws[stutterCount..]))
    ensures Stuttering(stutterCount, words, r)
    ensures old(rs.ranges) <= rs.ranges
    ensures StutterRun(stutterCount, words, r, rs.ranges[|old(rs.ranges)|..], draws)
  {
    var n := stutterCount;
    ghost var picks, extra;
    var indices;
    indices, picks := rs.PickNFromM(n, |words|);
    ghost var drawn1 := rs.drawn;
    r, extra := StutterSampled(words, indices, rs);
    draws := picks + extra;
    AppendAssoc(old(rs.drawn), picks, extra);
    AppendAssoc(old(rs.ranges), CountDown(|words|, n), StutterRanges(SyllableTable(words), indices));
    assert draws[..n] == picks && draws[n..] == extra;
    assert StutterOutcome(n, words, picks, extra, r);
    assert rs.ranges[|old(rs.ranges)|..] == CountDown(|words|, n) + StutterRanges(SyllableTable(words), indices);
  }

  /**
   * Sampled word `k` is stuttered at the syllable its first draw selects, below the
   * last one unless the word has only one, with a multiplier of 1 or 2 from its second.
   */
  lemma StutterSampledWord(words: seq<string>, offsets: seq<nat>, extra: seq<nat>, k: nat)
    requires StutterOffsets(SyllableTable(words), offsets)
    requires Drawn(StutterRanges(SyllableTable(words), offsets), extra)
    requires k < |offsets|
    ensures var w, i, count := words[offsets[k]], extra[2 * k], 1 + extra[2 * k + 1];
      && (i < |Syllables(w)| - 1 || i == 0) && i < |Syllables(w)| && 1 <= count <= 2
      && StutterWords(SyllableTable(words), offsets, extra)[k] == Stuttered(w, i, count)
  {
    var syl := SyllableTable(words);
    var w := words[offsets[k]];
    assert syl[offsets[k]] == Syllables(w);
    StutterRangesAt(syl, offsets, k);
    StutterWordsAt(syl, offsets, extra, k);
  }

  /**
   * What `mutate` does to the list: the word count is unchanged, words not sampled
   * are left as they were, and sampled word `k` is replaced by the `k`-th stuttered
   * word, which `StutterSampledWord` describes.
   */
  lemma StutterMutateSound(words: seq<string>, offsets: seq<nat>, extra: seq<nat>)
    requires StrictlyIncreasing(offsets) && StutterOffsets(SyllableTable(words), offsets)
    requires Drawn(StutterRanges(SyllableTable(words), offsets), extra)
    ensures var news := StutterWords(SyllableTable(words), offsets, extra);
      && |Replace(words, offsets, news)| == |words|
      && (forall j :: 0 <= j < |words| && j !in offsets ==> Replace(words, offsets, news)[j] == words[j])
      && forall k :: 0 <= k < |offsets| ==> Replace(words, offsets, news)[offsets[k]] == news[k]
  {
    ReplaceSound(words, offsets, StutterWords(SyllableTable(words), offsets, extra));
  }

  /** The list `mutate` makes from the sampled `offsets` and the draws `extra`, two per sampled word. */
  ghost predicate StutterApplied(words: seq<string>, offsets: seq<nat>, extra: seq<nat>, r: seq<string>)
  {
    var syl := SyllableTable(words);
    && StrictlyIncreasing(offsets) && StutterOffsets(syl, offsets)
    && Drawn(StutterRanges(syl, offsets), extra)
    && r == Replace(words, offsets, StutterWords(syl, offsets, extra))
  }

  /** The outcome `Mutate` promises for the draws `picks` (the sampling) and `extra` (two per sampled word). */
  ghost predicate StutterOutcome(count: nat, words: seq<string>, picks: seq<nat>, extra: seq<nat>, r: seq<string>)
  {
    && count <= |words| && |picks| == count && Within(CountDown(|words|, count), picks)
    && StutterApplied(words, PickedIndices(|words|, picks), extra, r)
  }

  /** `r` is a list `mutate` can make of `words` with a stutter count of `count`. */
  ghost predicate Stuttering(count: nat, words: seq<string>, r: seq<string>)
  {
    exists picks, extra :: StutterOutcome(count, words, picks, extra, r)
  }

  /**
   * `r` is the list `mutate` makes of `words` with a stutter count of `count` from
   * the values `draws` (the sampling, then two per sampled word), and `ranges` the
   * ranges they are drawn from.
   */
  ghost predicate StutterRun(count: nat, words: seq<string>, r: seq<string>, ranges: seq<nat>, draws: seq<nat>)
  {
    && |draws| >= count && StutterOutcome(count, words, draws[..count], draws[count..], r)
    && ranges == CountDown(|words|, count) + StutterRanges(SyllableTable(words), PickedIndices(|words|, draws[..count]))
  }

  /**
   * A stutter step charges `3 * count` draws: the `count` sampling draws over a
   * shrinking pool, then two per sampled word; with a count of 0 it draws nothing.
   * Every draw lies in its range.
   */
  lemma StutterRunSound(count: nat, words: seq<string>, r: seq<string>, ranges: seq<nat>, draws: seq<nat>)
    requires StutterRun(count, words, r, ranges, draws)
    ensures Stuttering(count, words, r)
    ensures |ranges| == 3 * count && ranges[..count] == CountDown(|words|, count)
    ensures Drawn(ranges, draws)
    ensures count == 0 ==> ranges == [] && draws == []
  {
    var picks, extra := draws[..count], draws[count..];
    PickedIndicesSound(|words|, picks);
    DrawnAppend(CountDown(|words|, count), picks, StutterRanges(SyllableTable(words), PickedIndices(|words|, picks)), extra);
    assert draws == picks + extra;
  }

  /** A word stuttered at one of its syllables with a multiplier of 1 or 2. */
  ghost predicate StutteredForm(w: string, x: string)
  {
    exists i: nat, c: nat :: i < |Syllables(w)| && 1 <= c <= 2 && x == Stuttered(w, i, c)
  }

  lemma StutterAppliedSampled(words: seq<string>, offsets: seq<nat>, extra: seq<nat>, r: seq<string>, k: nat)
    requires StutterApplied(words, offsets, extra, r) && k < |offsets|
    ensures offsets[k] < |words| == |r| && StutteredForm(words[offsets[k]], r[offsets[k]])
  {
    var news := StutterWords(SyllableTable(words), offsets, extra);
    var w, i, c := words[offsets[k]], extra[2 * k], 1 + extra[2 * k + 1];
    assert r[offsets[k]] == news[k] by {
      StutterMutateSound(words, offsets, extra);
    }
    assert i < |Syllables(w)| && 1 <= c <= 2 && news[k] == Stuttered(w, i, c) by {
      StutterSampledWord(words, offsets, extra, k);
    }
  }

  lemma StutterAppliedAt(words: seq<string>, offsets: seq<nat>, extra: seq<nat>, r: seq<string>, j: nat)
    requires StutterApplied(words, offsets, extra, r) && j < |words|
    ensures j < |r| && (r[j] == words[j] || StutteredForm(words[j], r[j]))
  {
    if j !in offsets {
      StutterMutateSound(words, offsets, extra);
    } else {
      var k :| 0 <= k < |offsets| && offsets[k] == j;
      StutterAppliedSampled(words, offsets, extra, r, k);
    }
  }

  /**
   * Whatever the draws, `mutate` keeps the word count, and every word is either
   * left as it was or stuttered at one of its syllables with a multiplier of 1 or 2.
   */
  lemma StutteringSound(count: nat, words: seq<string>, r: seq<string>)
    requires Stuttering(count, words, r)
    ensures |r| == |words|
    ensures forall j :: 0 <= j < |words| ==> r[j] == words[j] || StutteredForm(words[j], r[j])
  {
    var picks, extra :| StutterOutcome(count, words, picks, extra, r);
    forall j | 0 <= j < |words| ensures r[j] == words[j] || StutteredForm(words[j], r[j]) {
      StutterAppliedAt(words, PickedIndices(|words|, picks), extra, r, j);
    }
  }

  /** A stutter count of 0 samples no word, so the list comes back as it was. */
  lemma StutteringNone(words: seq<string>, r: seq<string>)
    requires Stuttering(0, words, r)
    ensures r == words
  {
    var picks, extra :| StutterOutcome(0, words, picks, extra, r);
    assert PickedIndices(|words|, picks) == [];
  }
}
