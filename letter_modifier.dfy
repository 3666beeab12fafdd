/**
 * `LetterModifier`: in `count` sampled words, every letter whose lower-case form
 * is a key of the substitution map is replaced by the mapped character when a
 * coin of `random(2)` comes up 1; letters without a mapping draw nothing.
 *
 * The coins of a word are kept letter by letter: `coins[i]` is `[coin]` for a
 * mapped letter and `[]` for any other, so the draws the word makes are
 * `Concat(coins)`.
 */
module LetterModifier {
  import opened Base
  import opened Text
  import opened Randomness

  /** The map `LetterModifier.new` falls back to when it is given none. */
  function DefaultLetterMap(): (m: map<char, char>)
    ensures m.Keys == {'a', 'x', 's', 'i', 'c', 'd', 't'}
    ensures forall c :: c in m ==> IsLower(c) && !IsLetter(m[c])
  {
    map['a' := '@', 'x' := '#', 's' := '$', 'i' := '!', 'c' := '(', 'd' := ')', 't' := '+']
  }

  /** A letter `modify_one_letter` may change: its lower-case form is a key of the map. */
  predicate Mapped(m: map<char, char>, c: char)
  {
    LowerChar(c) in m
  }

  /** The draws `modify_one_letter` may make for `c`: one coin of `random(2)` if it is mapped, none otherwise. */
  predicate LetterCoin(m: map<char, char>, c: char, d: seq<nat>)
  {
    if Mapped(m, c) then |d| == 1 && d[0] < 2 else d == []
  }

  /** What `modify_one_letter` returns for `c` after the draws `d`: the mapped character exactly when the coin is 1. */
  function LetterFor(m: map<char, char>, c: char, d: seq<nat>): (r: char)
    requires LetterCoin(m, c, d)
    ensures !Mapped(m, c) ==> r == c
    ensures Mapped(m, c) ==> (d[0] == 1 ==> r == m[LowerChar(c)]) && (d[0] != 1 ==> r == c)
  {
    if Mapped(m, c) && d[0] == 1 then m[LowerChar(c)] else c
  }

  /** One run of draws per letter of `w`, as `modify_one_letter` makes them. */
  predicate LetterCoins(m: map<char, char>, w: string, coins: seq<seq<nat>>)
  {
    |coins| == |w| && forall i :: 0 <= i < |w| ==> LetterCoin(m, w[i], coins[i])
  }

  /** The word `modify_letters` makes, letter by letter. */
  function Substituted(m: map<char, char>, w: string, coins: seq<seq<nat>>): string
    requires LetterCoins(m, w, coins)
  {
    seq(|w|, i requires 0 <= i < |w| => LetterFor(m, w[i], coins[i]))
  }

  /** A word whose letters are those of `w`, each unchanged or replaced by its mapped character. */
  predicate SubstitutesOnly(m: map<char, char>, w: string, r: string)
  {
    |r| == |w| && forall i :: 0 <= i < |w| ==> r[i] == w[i] || (Mapped(m, w[i]) && r[i] == m[LowerChar(w[i])])
  }

  /** `modify_letters` keeps every position and changes only mapped letters, into exactly their mapped character. */
  lemma SubstitutedSound(m: map<char, char>, w: string, coins: seq<seq<nat>>)
    requires LetterCoins(m, w, coins)
    ensures SubstitutesOnly(m, w, Substituted(m, w, coins))
  {
  }

  /** The number of mapped letters of a word. */
  function MappedCount(m: map<char, char>, w: string): nat
  {
    if w == [] then 0 else (if Mapped(m, w[0]) then 1 else 0) + MappedCount(m, w[1..])
  }

  /** `modify_letters` draws exactly one coin per mapped letter, and each coin is 0 or 1. */
  lemma {:induction false} LetterCoinsCount(m: map<char, char>, w: string, coins: seq<seq<nat>>)
    requires LetterCoins(m, w, coins)
    ensures |Concat(coins)| == MappedCount(m, w)
    ensures forall i :: 0 <= i < |Concat(coins)| ==> Concat(coins)[i] < 2
    decreases |w|
  {
    if w != [] {
      assert LetterCoin(m, w[0], coins[0]);
      assert LetterCoins(m, w[1..], coins[1..]) by {
        forall i | 0 <= i < |w| - 1 ensures LetterCoin(m, w[1..][i], coins[1..][i]) {
          assert LetterCoin(m, w[i + 1], coins[i + 1]);
        }
      }
      LetterCoinsCount(m, w[1..], coins[1..]);
    }
  }

  /** A test example: with both coins up, both `a` and `A` of "ThatAt" become `@`. */
  lemma SubstitutedCoinsUp()
    ensures LetterCoins(map['a' := '@'], "ThatAt", [[], [], [1], [], [1], []])
    ensures Substituted(map['a' := '@'], "ThatAt", [[], [], [1], [], [1], []]) == "Th@t@t"
  {
  }

  /** A test example: with both coins down, "ThatAt" is left as it was. */
  lemma SubstitutedCoinsDown()
    ensures LetterCoins(map['a' := '@'], "ThatAt", [[], [], [0], [], [0], []])
    ensures Substituted(map['a' := '@'], "ThatAt", [[], [], [0], [], [0], []]) == "ThatAt"
  {
  }

  /** A test example: the upper-case `I` is found by its lower-case key, and the space draws no coin. */
  lemma SubstitutedUpperCase()
    ensures LetterCoins(map['i' := '%'], "This Is", [[], [], [1], [], [], [1], []])
    ensures Substituted(map['i' := '%'], "This Is", [[], [], [1], [], [], [1], []]) == "Th%s %s"
  {
  }

  /** `modify_one_letter`: a coin is drawn only for a mapped letter, and 1 replaces the letter. */
  method ModifyOneLetter(m: map<char, char>, c: char, rs: RandomSource) returns (r: char, ghost d: seq<nat>)
    requires rs.Valid()
    modifies rs
    ensures rs.Valid() && rs.drawn == old(rs.drawn) + d
    ensures LetterCoin(m, c, d) && rs.ranges == old(rs.ranges) + Repeat(2, |d|)
    ensures r == LetterFor(m, c, d)
  {
    if Mapped(m, c) {
      var coin := rs.Random(2);
      r := if coin == 1 then m[LowerChar(c)] else c;
      d := [coin];
    } else {
      r := c;
      d := [];
    }
  }

  lemma RepeatAppend<T>(x: T, a: nat, b: nat)
    ensures Repeat(x, a + b) == Repeat(x, a) + Repeat(x, b)
  {
    var l, r := Repeat(x, a + b), Repeat(x, a) + Repeat(x, b);
    assert |l| == |r|;
    forall i | 0 <= i < |l| ensures l[i] == r[i] {}
  }

  /** Where the `letters.map!` loop stands after the letters `w`. */
  ghost predicate ModifyState(m: map<char, char>, w: string, coins: seq<seq<nat>>, r: string,
                              ranges0: seq<nat>, ranges: seq<nat>, drawn0: seq<nat>, drawn: seq<nat>)
  {
    && LetterCoins(m, w, coins)
    && r == Substituted(m, w, coins)
    && ranges == ranges0 + Repeat(2, |Concat(coins)|)
    && drawn == drawn0 + Concat(coins)
  }

  /** One more letter: its coins go at the end and its result after the others. */
  lemma SubstitutedSnoc(m: map<char, char>, w: string, coins: seq<seq<nat>>, c: char, d: seq<nat>)
    requires LetterCoins(m, w, coins) && LetterCoin(m, c, d)
    ensures LetterCoins(m, w + [c], coins + [d])
    ensures Substituted(m, w + [c], coins + [d]) == Substituted(m, w, coins) + [LetterFor(m, c, d)]
  {
    assert LetterCoins(m, w + [c], coins + [d]) by {
      forall i | 0 <= i < |w| + 1 ensures LetterCoin(m, (w + [c])[i], (coins + [d])[i]) {
        if i < |w| {
          assert (w + [c])[i] == w[i] && (coins + [d])[i] == coins[i];
        }
      }
    }
    var l, s := Substituted(m, w + [c], coins + [d]), Substituted(m, w, coins) + [LetterFor(m, c, d)];
    forall i | 0 <= i < |w| + 1 ensures l[i] == s[i] {
      if i < |w| {
        assert (w + [c])[i] == w[i] && (coins + [d])[i] == coins[i];
      }
    }
  }

  /** The ranges and draws of one more letter follow those of the letters before it. */
  lemma DrawsSnoc(coins: seq<seq<nat>>, d: seq<nat>, ranges0: seq<nat>, drawn0: seq<nat>)
    ensures ranges0 + Repeat(2, |Concat(coins + [d])|) == ranges0 + Repeat(2, |Concat(coins)|) + Repeat(2, |d|)
    ensures drawn0 + Concat(coins + [d]) == drawn0 + Concat(coins) + d
  {
    ConcatAppend(coins, [d]);
    assert Concat([d]) == d + Concat([]);
    RepeatAppend(2, |Concat(coins)|, |d|);
    AppendAssoc(ranges0, Repeat(2, |Concat(coins)|), Repeat(2, |d|));
    AppendAssoc(drawn0, Concat(coins), d);
  }

  lemma ModifyStep(m: map<char, char>, w: string, coins: seq<seq<nat>>, r: string,
                   ranges0: seq<nat>, ranges: seq<nat>, drawn0: seq<nat>, drawn: seq<nat>,
                   c: char, d: seq<nat>, x: char)
    requires ModifyState(m, w, coins, r, ranges0, ranges, drawn0, drawn)
    requires LetterCoin(m, c, d) && x == LetterFor(m, c, d)
    ensures ModifyState(m, w + [c], coins + [d], r + [x], ranges0, ranges + Repeat(2, |d|), drawn0, drawn + d)
  {
    SubstitutedSnoc(m, w, coins, c, d);
    DrawsSnoc(coins, d, ranges0, drawn0);
  }

  /** `modify_letters`: each letter in turn through `modify_one_letter`. */
  method ModifyLetters(m: map<char, char>, w: string, rs: RandomSource) returns (r: string, ghost coins: seq<seq<nat>>)
    requires rs.Valid()
    modifies rs
    ensures rs.Valid()
    ensures ModifyState(m, w, coins, r, old(rs.ranges), rs.ranges, old(rs.drawn), rs.drawn)
  {
    r := [];
    coins := [];
    for i := 0 to |w|
      invariant rs.Valid()
      invariant ModifyState(m, w[..i], coins, r, old(rs.ranges), rs.ranges, old(rs.drawn), rs.drawn)
    {
      ghost var ranges, drawn := rs.ranges, rs.drawn;
      var x;
      ghost var d;
      x, d := ModifyOneLetter(m, w[i], rs);
      ModifyStep(m, w[..i], coins, r, old(rs.ranges), ranges, old(rs.drawn), drawn, w[i], d, x);
      assert w[..i + 1] == w[..i] + [w[i]];
      r := r + [x];
      coins := coins + [d];
    }
    assert w[..|w|] == w;
  }

  /** Every offset names a word of the list. */
  predicate InRange(offsets: seq<nat>, n: nat)
  {
    forall k :: 0 <= k < |offsets| ==> offsets[k] < n
  }

  /** The coins of every sampled word, one run per letter, for sampled word `k` in `coins[k]`. */
  predicate WordCoins(m: map<char, char>, words: seq<string>, offsets: seq<nat>, coins: seq<seq<seq<nat>>>)
  {
    && InRange(offsets, |words|) && |coins| == |offsets|
    && forall k :: 0 <= k < |offsets| ==> LetterCoins(m, words[offsets[k]], coins[k])
  }

  /** The draws of the sampled words, word after word and letter after letter. */
  function ListDraws(coins: seq<seq<seq<nat>>>): seq<nat>
  {
    if coins == [] then [] else ListDraws(coins[..|coins| - 1]) + Concat(coins[|coins| - 1])
  }

  /** The words `modify_letters` makes of the sampled words. */
  function LetterWords(m: map<char, char>, words: seq<string>, offsets: seq<nat>, coins: seq<seq<seq<nat>>>): (r: seq<string>)
    requires WordCoins(m, words, offsets, coins)
    ensures |r| == |offsets|
  {
    seq(|offsets|, k requires 0 <= k < |offsets| => Substituted(m, words[offsets[k]], coins[k]))
  }

  /**
   * Where the `offsets.each` loop of `mutate` stands after the words at `offsets`:
   * the draws made since `drawn0`, the ranges recorded since `ranges0`, and the list
   * the substituted words have been written into.
   */
  ghost predicate LetterState(m: map<char, char>, words: seq<string>, offsets: seq<nat>, coins: seq<seq<seq<nat>>>, r: seq<string>,
                              ranges0: seq<nat>, ranges: seq<nat>, drawn0: seq<nat>, drawn: seq<nat>)
  {
    && WordCoins(m, words, offsets, coins)
    && r == Replace(words, offsets, LetterWords(m, words, offsets, coins))
    && ranges == ranges0 + Repeat(2, |ListDraws(coins)|)
    && drawn == drawn0 + ListDraws(coins)
  }

  /** The word at an offset not visited yet is still the original word. */
  lemma LetterPending(m: map<char, char>, words: seq<string>, offsets: seq<nat>, coins: seq<seq<seq<nat>>>, r: seq<string>,
                      ranges0: seq<nat>, ranges: seq<nat>, drawn0: seq<nat>, drawn: seq<nat>, o: nat)
    requires LetterState(m, words, offsets, coins, r, ranges0, ranges, drawn0, drawn)
    requires Distinct(offsets) && o < |words| && o !in offsets
    ensures r[o] == words[o]
  {
    ReplaceSound(words, offsets, LetterWords(m, words, offsets, coins));
  }

  /** One more sampled word: its coins go at the end and its substituted form after the others. */
  lemma LetterExtend(m: map<char, char>, words: seq<string>, offsets: seq<nat>, coins: seq<seq<seq<nat>>>, o: nat, d: seq<seq<nat>>)
    requires WordCoins(m, words, offsets, coins)
    requires o < |words| && LetterCoins(m, words[o], d)
    ensures WordCoins(m, words, offsets + [o], coins + [d])
    ensures ListDraws(coins + [d]) == ListDraws(coins) + Concat(d)
    ensures LetterWords(m, words, offsets + [o], coins + [d]) == LetterWords(m, words, offsets, coins) + [Substituted(m, words[o], d)]
  {
    assert (coins + [d])[..|coins|] == coins;
    assert WordCoins(m, words, offsets + [o], coins + [d]) by {
      forall k | 0 <= k < |offsets| + 1 ensures LetterCoins(m, words[(offsets + [o])[k]], (coins + [d])[k]) {
        if k < |offsets| {
          assert (offsets + [o])[k] == offsets[k] && (coins + [d])[k] == coins[k];
        }
      }
    }
    var l, s := LetterWords(m, words, offsets + [o], coins + [d]), LetterWords(m, words, offsets, coins) + [Substituted(m, words[o], d)];
    forall k | 0 <= k < |offsets| + 1 ensures l[k] == s[k] {
      if k < |offsets| {
        assert (offsets + [o])[k] == offsets[k] && (coins + [d])[k] == coins[k];
      }
    }
  }

  /** Substituting one more sampled word moves `LetterState` along. */
  lemma LetterStep(m: map<char, char>, words: seq<string>, offsets: seq<nat>, coins: seq<seq<seq<nat>>>, r: seq<string>,
                   ranges0: seq<nat>, ranges: seq<nat>, drawn0: seq<nat>, drawn: seq<nat>,
                   o: nat, d: seq<seq<nat>>, x: string, ranges': seq<nat>, drawn': seq<nat>)
    requires LetterState(m, words, offsets, coins, r, ranges0, ranges, drawn0, drawn)
    requires o < |words| && r[o] == words[o]
    requires ModifyState(m, r[o], d, x, ranges, ranges', drawn, drawn')
    ensures LetterState(m, words, offsets + [o], coins + [d], r[o := x], ranges0, ranges', drawn0, drawn')
  {
    LetterExtend(m, words, offsets, coins, o, d);
    ReplaceExtend(words, offsets, LetterWords(m, words, offsets, coins), o, x);
    RepeatAppend(2, |ListDraws(coins)|, |Concat(d)|);
    AppendAssoc(ranges0, Repeat(2, |ListDraws(coins)|), Repeat(2, |Concat(d)|));
    AppendAssoc(drawn0, ListDraws(coins), Concat(d));
  }

  /** The `offsets.each` loop of `mutate`: substitute letters in the sampled words in turn. */
  method ModifySampled(m: map<char, char>, words: seq<string>, offsets: seq<nat>, rs: RandomSource)
    returns (r: seq<string>, ghost coins: seq<seq<seq<nat>>>)
    requires rs.Valid() && StrictlyIncreasing(offsets) && InRange(offsets, |words|)
    modifies rs
    ensures rs.Valid()
    ensures LetterState(m, words, offsets, coins, r, old(rs.ranges), rs.ranges, old(rs.drawn), rs.drawn)
  {
    coins := [];
    r := words;
    for i := 0 to |offsets|
      invariant rs.Valid()
      invariant LetterState(m, words, offsets[..i], coins, r, old(rs.ranges), rs.ranges, old(rs.drawn), rs.drawn)
    {
      var offset := offsets[i];
      assert offsets[..i + 1] == offsets[..i] + [offset];
      LetterPending(m, words, offsets[..i], coins, r, old(rs.ranges), rs.ranges, old(rs.drawn), rs.drawn, offset);
      ghost var ranges, drawn := rs.ranges, rs.drawn;
      var x;
      ghost var d;
      x, d := ModifyLetters(m, r[offset], rs);
      LetterStep(m, words, offsets[..i], coins, r, old(rs.ranges), ranges, old(rs.drawn), drawn,
                 offset, d, x, rs.ranges, rs.drawn);
      r := r[offset := x];
      coins := coins + [d];
    }
    assert offsets[..|offsets|] == offsets;
  }

  /** `LetterModifier`: its substitution map and the number of words it changes. */
  datatype Letters = Letters(letterMap: map<char, char>, count: nat)

  /**
   * `LetterModifier.new(map, count)`: the given map, or the default one when there
   * is none, which maps only lower-case letters and only to non-letters.
   */
  function NewLetters(letterMap: Option<map<char, char>>, count: nat): (r: Letters)
    ensures r.count == count
    ensures letterMap.Some? ==> r.letterMap == letterMap.value
    ensures letterMap.None? ==> forall c :: c in r.letterMap ==> IsLower(c) && !IsLetter(r.letterMap[c])
  {
    Letters(if letterMap.Some? then letterMap.value else DefaultLetterMap(), count)
  }

  /**
   * `mutate`: sample `count` distinct word indices, then run every sampled word
   * through `modify_letters`; every other word is left as it was.
   */
  method Mutate(letters: Letters, words: seq<string>, rs: RandomSource)
    returns (r: seq<string>, ghost picks: seq<nat>, ghost coins: seq<seq<seq<nat>>>)
    requires rs.Valid() && letters.count <= |words|
    modifies rs
    ensures rs.Valid() && rs.drawn == old(rs.drawn) + picks + ListDraws(coins)
    ensures |picks| == letters.count && Within(CountDown(|words|, letters.count), picks)
    ensures var m, offsets := letters.letterMap, PickedIndices(|words|, picks);
      && StrictlyIncreasing(offsets) && WordCoins(m, words, offsets, coins)
      && rs.ranges == old(rs.ranges) + CountDown(|words|, letters.count) + Repeat(2, |ListDraws(coins)|)
      && r == Replace(words, offsets, LetterWords(m, words, offsets, coins))
    ensures Lettering(letters, words, r)
    ensures old(rs.ranges) <= rs.ranges
    ensures LetterRun(letters, words, r, rs.ranges[|old(rs.ranges)|..], picks + ListDraws(coins))
  {
    var offsets;
    offsets, picks := rs.PickNFromM(letters.count, |words|);
    r, coins := ModifySampled(letters.letterMap, words, offsets, rs);
    AppendAssoc(old(rs.drawn), picks, ListDraws(coins));
    AppendAssoc(old(rs.ranges), CountDown(|words|, letters.count), Repeat(2, |ListDraws(coins)|));
    assert LetterOutcome(letters, words, picks, coins, r);
    ghost var draws := picks + ListDraws(coins);
    assert draws[..letters.count] == picks && draws[letters.count..] == ListDraws(coins);
    assert rs.ranges[|old(rs.ranges)|..] == CountDown(|words|, letters.count) + Repeat<nat>(2, |ListDraws(coins)|);
  }

  /**
   * What `mutate` does to the list: the word count is unchanged, words not sampled
   * are left as they were, sampled word `k` is substituted with its own coins, and
   * every word keeps its length and changes only mapped letters, into their mapped
   * characters.
   */
  lemma LetterMutateSound(m: map<char, char>, words: seq<string>, offsets: seq<nat>, coins: seq<seq<seq<nat>>>)
    requires StrictlyIncreasing(offsets) && WordCoins(m, words, offsets, coins)
    ensures var r := Replace(words, offsets, LetterWords(m, words, offsets, coins));
      && |r| == |words|
      && (forall j :: 0 <= j < |words| && j !in offsets ==> r[j] == words[j])
      && (forall k :: 0 <= k < |offsets| ==> r[offsets[k]] == Substituted(m, words[offsets[k]], coins[k]))
      && forall j :: 0 <= j < |words| ==> SubstitutesOnly(m, words[j], r[j])
  {
    var news := LetterWords(m, words, offsets, coins);
    var r := Replace(words, offsets, news);
    ReplaceSound(words, offsets, news);
    forall j | 0 <= j < |words| ensures SubstitutesOnly(m, words[j], r[j]) {
      if j in offsets {
        var k :| 0 <= k < |offsets| && offsets[k] == j;
        SubstitutedSound(m, words[j], coins[k]);
      }
    }
  }

  /** The outcome `Mutate` promises for the sampling draws `picks` and the coins `coins`. */
  ghost predicate LetterOutcome(letters: Letters, words: seq<string>, picks: seq<nat>, coins: seq<seq<seq<nat>>>, r: seq<string>)
  {
    && letters.count <= |words| && |picks| == letters.count && Within(CountDown(|words|, letters.count), picks)
    && var m, offsets := letters.letterMap, PickedIndices(|words|, picks);
    && StrictlyIncreasing(offsets) && WordCoins(m, words, offsets, coins)
    && r == Replace(words, offsets, LetterWords(m, words, offsets, coins))
  }

  /** `r` is a list `mutate` can make of `words`. */
  ghost predicate Lettering(letters: Letters, words: seq<string>, r: seq<string>)
  {
    exists picks, coins :: LetterOutcome(letters, words, picks, coins, r)
  }

  /**
   * `r` is the list `mutate` makes of `words` from the values `draws` (the sampling,
   * then one coin per mapped letter of the sampled words), and `ranges` the ranges
   * they are drawn from.
   */
  ghost predicate LetterRun(letters: Letters, words: seq<string>, r: seq<string>, ranges: seq<nat>, draws: seq<nat>)
  {
    && |draws| >= letters.count
    && (exists coins :: LetterOutcome(letters, words, draws[..letters.count], coins, r) && draws[letters.count..] == ListDraws(coins))
    && ranges == CountDown(|words|, letters.count) + Repeat<nat>(2, |draws| - letters.count)
  }

  /**
   * A letter step charges the `count` sampling draws over a shrinking pool and then
   * only coins of 2; with a count of 0 it draws nothing.
   */
  lemma LetterRunSound(letters: Letters, words: seq<string>, r: seq<string>, ranges: seq<nat>, draws: seq<nat>)
    requires LetterRun(letters, words, r, ranges, draws)
    ensures Lettering(letters, words, r)
    ensures |ranges| == |draws| >= letters.count
    ensures ranges == CountDown(|words|, letters.count) + Repeat<nat>(2, |ranges| - letters.count)
    ensures letters.count == 0 ==> ranges == [] && draws == []
  {
    var coins :| LetterOutcome(letters, words, draws[..letters.count], coins, r) && draws[letters.count..] == ListDraws(coins);
    if letters.count == 0 {
      assert PickedIndices(|words|, draws[..0]) == [];
      assert coins == [];
      assert draws == draws[0..];
    }
  }

  /** Whatever the draws, `mutate` keeps the word count, every word's length, and changes only mapped letters. */
  lemma LetteringSound(letters: Letters, words: seq<string>, r: seq<string>)
    requires Lettering(letters, words, r)
    ensures |r| == |words|
    ensures forall j :: 0 <= j < |words| ==> SubstitutesOnly(letters.letterMap, words[j], r[j])
  {
    var picks, coins :| LetterOutcome(letters, words, picks, coins, r);
    LetterMutateSound(letters.letterMap, words, PickedIndices(|words|, picks), coins);
  }

  /** A count of 0 samples no word, so the list comes back as it was. */
  lemma LetteringNone(letters: Letters, words: seq<string>, r: seq<string>)
    requires Lettering(letters, words, r) && letters.count == 0
    ensures r == words
  {
    var picks, coins :| LetterOutcome(letters, words, picks, coins, r);
    assert PickedIndices(|words|, picks) == [];
  }
}
