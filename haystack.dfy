/**
 * `HaystackBruteForceComplexity`: the size of the search space a brute-force
 * attacker who knows which character classes occur in the phrase has to cover.
 * The class sizes present are 26 (`[a-z]`), 26 (`[A-Z]`) and 10 (`[0-9]`);
 * the score in bits, (sum of log2 of the sizes present) times the length, is
 * log2 of `Haystack(s)`.
 */
module Haystack {
  import opened Base
  import opened Text

  /** The classes `[a-z]`, `[A-Z]` and `[0-9]` the score looks for. */
  datatype CharClass = LowerCase | UpperCase | Digits

  predicate InClass(k: CharClass, c: char)
  {
    match k
    case LowerCase => IsLower(c)
    case UpperCase => IsUpper(c)
    case Digits => IsDigit(c)
  }

  /** `string =~ /[...]/`: some character of the string is in the class. */
  predicate Matches(s: string, k: CharClass)
  {
    exists i :: 0 <= i < |s| && InClass(k, s[i])
  }

  predicate HasLower(s: string) { Matches(s, LowerCase) }
  predicate HasUpper(s: string) { Matches(s, UpperCase) }
  predicate HasDigit(s: string) { Matches(s, Digits) }

  /** The size of one class if the string matches it, and 1 (log2 0) if it does not. */
  function ClassFactor(present: bool, size: nat): (r: nat)
    ensures r >= 1 || size == 0
  {
    if present then size else 1
  }

  /** The characters per position: the product of the sizes of the classes present. */
  function ClassSpace(s: string): nat
  {
    ClassFactor(HasLower(s), 26) * ClassFactor(HasUpper(s), 26) * ClassFactor(HasDigit(s), 10)
  }

  /**
   * `compute(string)`, as the number of strings its bit count is log2 of: never
   * below 0 bits, 0 bits for the empty string, and `log2(6760)` bits per character
   * when all three classes occur.
   */
  function HaystackSpace(s: string): (r: nat)
    ensures r >= 1
    ensures s == [] ==> r == 1
    ensures HasLower(s) && HasUpper(s) && HasDigit(s) ==> r == Pow(6760, |s|)
  {
    PowPositive(ClassSpace(s), |s|);
    Pow(ClassSpace(s), |s|)
  }

  lemma MulShuffle(a: nat, b: nat, x: nat, y: nat)
    ensures (a * b) * (x * y) == (a * x) * (b * y)
  {
    assert (a * b) * (x * y) == a * (b * (x * y));
    assert b * (x * y) == x * (b * y);
    assert a * (x * (b * y)) == (a * x) * (b * y);
  }

  lemma {:induction false} PowMul(a: nat, b: nat, n: nat)
    ensures Pow(a * b, n) == Pow(a, n) * Pow(b, n)
  {
    if n > 0 {
      PowMul(a, b, n - 1);
      var x, y := Pow(a, n - 1), Pow(b, n - 1);
      assert Pow(a * b, n) == (a * b) * (x * y);
      MulShuffle(a, b, x, y);
    }
  }

  lemma {:induction false} PowOne(n: nat)
    ensures Pow(1, n) == 1
  {
    if n > 0 {
      PowOne(n - 1);
    }
  }

  /**
   * The bit count is a sum over the classes present, each contributing log2 of its
   * size per character: the space is the product of one power per class, and a
   * class that does not occur contributes a factor 1 (0 bits).
   */
  lemma HaystackPerClass(s: string)
    ensures HaystackSpace(s) == Pow(ClassFactor(HasLower(s), 26), |s|) * Pow(ClassFactor(HasUpper(s), 26), |s|)
                                * Pow(ClassFactor(HasDigit(s), 10), |s|)
    ensures !HasLower(s) && !HasUpper(s) && !HasDigit(s) ==> HaystackSpace(s) == 1
  {
    var a, b, c := ClassFactor(HasLower(s), 26), ClassFactor(HasUpper(s), 26), ClassFactor(HasDigit(s), 10);
    PowMul(a * b, c, |s|);
    PowMul(a, b, |s|);
    PowOne(|s|);
  }

  /** Two phrases of the same length matching the same classes score the same, whatever their characters. */
  lemma HaystackDependsOnClasses(s: string, t: string)
    requires |s| == |t|
    requires HasLower(s) == HasLower(t) && HasUpper(s) == HasUpper(t) && HasDigit(s) == HasDigit(t)
    ensures HaystackSpace(s) == HaystackSpace(t)
  {
  }

  lemma MatchesAppend(s: string, t: string, k: CharClass)
    ensures Matches(s + t, k) <==> Matches(s, k) || Matches(t, k)
  {
    var st := s + t;
    if Matches(s, k) {
      var i :| 0 <= i < |s| && InClass(k, s[i]);
      assert st[i] == s[i];
    }
    if Matches(t, k) {
      var i :| 0 <= i < |t| && InClass(k, t[i]);
      assert st[|s| + i] == t[i];
    }
    if Matches(st, k) {
      var i :| 0 <= i < |st| && InClass(k, st[i]);
      if i < |s| {
        assert s[i] == st[i];
      } else {
        assert t[i - |s|] == st[i];
      }
    }
  }

  lemma HasClassAppend(s: string, t: string)
    ensures HasLower(s + t) <==> HasLower(s) || HasLower(t)
    ensures HasUpper(s + t) <==> HasUpper(s) || HasUpper(t)
    ensures HasDigit(s + t) <==> HasDigit(s) || HasDigit(t)
  {
    MatchesAppend(s, t, LowerCase);
    MatchesAppend(s, t, UpperCase);
    MatchesAppend(s, t, Digits);
  }

  /** The score does not depend on the order of the parts of a phrase. */
  lemma HaystackSwap(s: string, t: string)
    ensures HaystackSpace(s + t) == HaystackSpace(t + s)
  {
    HasClassAppend(s, t);
    HasClassAppend(t, s);
  }

  /**
   * "a" scores log2(26) bits and "aA" 4 * log2(26); "Th@t 12" matches all three
   * classes over 7 characters, (26 * 26 * 10) to the 7th.
   */
  lemma HaystackExample()
    ensures HaystackSpace("a") == 26
    ensures HaystackSpace("aA") == Pow(26, 4)
    ensures HaystackSpace("Th@t 12") == Pow(6760, 7)
  {
    assert InClass(LowerCase, "a"[0]);
    var u := "aA";
    assert InClass(LowerCase, u[0]) && InClass(UpperCase, u[1]);
    assert !HasDigit(u) && !HasDigit("a") && !HasUpper("a");
    var s := "Th@t 12";
    assert InClass(LowerCase, s[1]) && InClass(UpperCase, s[0]) && InClass(Digits, s[5]);
  }
}
