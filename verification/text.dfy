/** String helpers with the meaning of the Go library calls the operator uses, on ASCII strings. */
module Text {

  const MAX_INT := 0x7FFF_FFFF_FFFF_FFFF

  /** A pull request number: a Go int on a 64-bit platform; GitHub never hands out a negative one. */
  type PrNumber = n: nat | n <= MAX_INT

  /** strings.ToLower followed by strings.ReplaceAll(_, "/", "-"), one character at a time. */
  function NormaliseChar(c: char): char {
    if 'A' <= c <= 'Z' then c + 32 as char else if c == '/' then '-' else c
  }

  function Normalise(s: string): (r: string)
    ensures |r| == |s|
  {
    seq(|s|, i requires 0 <= i < |s| => NormaliseChar(s[i]))
  }

  predicate IsUpper(c: char) { 'A' <= c <= 'Z' }

  predicate IsLower(c: char) { 'a' <= c <= 'z' }

  /** Neither an upper-case letter nor a slash in it. */
  predicate Lowered(s: string) { forall i | 0 <= i < |s| :: !IsUpper(s[i]) && s[i] != '/' }

  /** The same character, or the same letter in upper and lower case. */
  predicate SameLetter(c: char, d: char) {
    || c == d
    || (IsUpper(c) && IsLower(d) && c - 'A' == d - 'a')
    || (IsLower(c) && IsUpper(d) && c - 'a' == d - 'A')
  }

  predicate SameUpToCase(s: string, t: string) { |s| == |t| && forall i | 0 <= i < |s| :: SameLetter(s[i], t[i]) }

  lemma NormaliseCharEqualIff(c: char, d: char)
    ensures NormaliseChar(c) == NormaliseChar(d) <==> SameLetter(c, d) || (c in "-/" && d in "-/")
  {
  }

  /** Two strings normalise to the same exactly when they differ in case, and in slashes for hyphens, alone. */
  lemma NormaliseEqualIff(s: string, t: string)
    ensures Normalise(s) == Normalise(t) <==>
            |s| == |t| && forall i | 0 <= i < |s| :: SameLetter(s[i], t[i]) || (s[i] in "-/" && t[i] in "-/")
  {
    if |s| == |t| {
      forall i | 0 <= i < |s|
        ensures Normalise(s)[i] == Normalise(t)[i] <==> SameLetter(s[i], t[i]) || (s[i] in "-/" && t[i] in "-/")
      {
        NormaliseCharEqualIff(s[i], t[i]);
      }
      hide SameLetter, Normalise;
      if forall i | 0 <= i < |s| :: Normalise(s)[i] == Normalise(t)[i] { assert Normalise(s) == Normalise(t); }
    }
  }

  /** Normalised strings are in lower case and have no slashes, and those are left as they are. */
  lemma NormaliseLowers(s: string)
    ensures Lowered(Normalise(s)) && (Lowered(s) ==> Normalise(s) == s)
  {
    if Lowered(s) { assert Normalise(s) == s; }
  }

  predicate IsDigit(c: char) { '0' <= c <= '9' }

  predicate AllDigits(s: string) { forall i | 0 <= i < |s| :: IsDigit(s[i]) }

  /** strconv.Itoa and %d for non-negative numbers. */
  function Itoa(n: nat): (r: string)
    ensures |r| > 0 && AllDigits(r)
  {
    if n < 10 then ['0' + n as char] else Itoa(n / 10) + ['0' + (n % 10) as char]
  }

  /** Reads a string of decimal digits. */
  function Atoi(s: string): nat
    requires AllDigits(s)
  {
    if s == "" then 0 else 10 * Atoi(s[..|s| - 1]) + (s[|s| - 1] - '0') as nat
  }

  lemma {:induction false} AtoiItoa(n: nat)
    ensures Atoi(Itoa(n)) == n
  {
    if n >= 10 {
      AtoiItoa(n / 10);
      var s := Itoa(n);
      assert s[..|s| - 1] == Itoa(n / 10);
    } else {
      assert Itoa(n)[..0] == "";
    }
  }

  lemma {:induction false} AtoiPositive(s: string)
    requires AllDigits(s) && s != "" && s[0] != '0'
    ensures Atoi(s) > 0
  {
    if |s| > 1 { AtoiPositive(s[..|s| - 1]); } else { assert s[..0] == ""; }
  }

  lemma DivideByTen(a: nat, digit: nat)
    requires digit < 10
    ensures (10 * a + digit) / 10 == a && (10 * a + digit) % 10 == digit
  {
  }

  /** The other way round: digits without a leading zero are printed again as they were read. */
  lemma {:induction false} ItoaAtoi(s: string)
    requires AllDigits(s) && s != "" && (s == "0" || s[0] != '0')
    ensures Itoa(Atoi(s)) == s
  {
    var front, last := s[..|s| - 1], s[|s| - 1];
    assert s == front + [last];
    if front == "" {
      assert Atoi(front) == 0;
    } else {
      AtoiPositive(front);
      ItoaAtoi(front);
      DivideByTen(Atoi(front), (last - '0') as nat);
    }
  }

  lemma {:induction false} NoLeadingZero(n: nat)
    ensures Itoa(n) == "0" || Itoa(n)[0] != '0'
  {
    if n >= 10 { NoLeadingZero(n / 10); }
  }

  function Pow10(k: nat): nat { if k == 0 then 1 else 10 * Pow10(k - 1) }

  lemma {:induction false} ItoaLength(n: nat, k: nat)
    requires 0 < k && n < Pow10(k)
    ensures |Itoa(n)| <= k
  {
    if n >= 10 && k > 1 {
      ItoaLength(n / 10, k - 1);
    }
  }

  /** A 64-bit number has at most 19 digits. */
  lemma PrNumberLength(n: PrNumber)
    ensures |Itoa(n)| <= 19
  {
    var p5 := Pow10(5);
    assert p5 == 100000;
    assert Pow10(10) == 10000000000 by { assert Pow10(7) == 10000000; }
    assert Pow10(13) == 10000000000000;
    assert Pow10(16) == 10000000000000000;
    assert Pow10(19) == 10000000000000000000;
    ItoaLength(n, 19);
  }

  /** What follows the last occurrence of `c`; the whole string when there is none. */
  function AfterLast(s: string, c: char): (r: string)
    ensures |r| <= |s|
  {
    if s == "" || s[|s| - 1] == c then "" else AfterLast(s[..|s| - 1], c) + [s[|s| - 1]]
  }

  lemma {:induction false} AfterLastSplit(a: string, c: char, b: string)
    requires c !in b
    ensures AfterLast(a + [c] + b, c) == b
  {
    var s := a + [c] + b;
    if b == "" {
    } else {
      var b' := b[..|b| - 1];
      assert s[..|s| - 1] == a + [c] + b';
      AfterLastSplit(a, c, b');
      assert b' + [b[|b| - 1]] == b;
    }
  }

  lemma {:induction false} AfterLastParts(s: string, c: char)
    ensures c !in AfterLast(s, c) && s[|s| - |AfterLast(s, c)|..] == AfterLast(s, c)
    ensures |AfterLast(s, c)| < |s| ==> s[|s| - |AfterLast(s, c)| - 1] == c
  {
    if s == "" || s[|s| - 1] == c {
      assert s[|s|..] == "";
    } else {
      AfterLastParts(s[..|s| - 1], c);
    }
  }

  /** What comes before the first occurrence of `c`; the whole string when there is none. */
  function UpTo(s: string, c: char): (r: string)
    ensures |r| <= |s|
  {
    if s == "" || s[0] == c then "" else [s[0]] + UpTo(s[1..], c)
  }

  lemma {:induction false} UpToSplit(a: string, c: char, rest: string)
    requires c !in a
    ensures UpTo(a + [c] + rest, c) == a
  {
    var s := a + [c] + rest;
    if a == "" {
    } else {
      assert s[1..] == a[1..] + [c] + rest;
      UpToSplit(a[1..], c, rest);
    }
  }

  lemma {:induction false} UpToParts(s: string, c: char)
    ensures UpTo(s, c) <= s && c !in UpTo(s, c)
    ensures |UpTo(s, c)| < |s| ==> s[|UpTo(s, c)|] == c
  {
    if s == "" || s[0] == c {
    } else {
      UpToParts(s[1..], c);
    }
  }

  /** The parts before the first `n` occurrences of `c`, and what is left. */
  function Parts(s: string, c: char, n: nat): seq<string> {
    var head := UpTo(s, c);
    if n == 0 || |head| == |s| then [s] else [head] + Parts(s[|head| + 1..], c, n - 1)
  }

  lemma PartsSplit(a: string, c: char, rest: string, n: nat)
    requires c !in a && n > 0
    ensures Parts(a + [c] + rest, c, n) == [a] + Parts(rest, c, n - 1)
  {
    UpToSplit(a, c, rest);
    assert (a + [c] + rest)[|a| + 1..] == rest;
  }

  predicate EndsWith(s: string, t: string) { |t| <= |s| && s[|s| - |t|..] == t }

  lemma DigitsHaveNoHyphen(s: string)
    requires AllDigits(s)
    ensures '-' !in s && '/' !in s && Normalise(s) == s
  {
    assert Normalise(s) == s;
  }

  lemma NormaliseConcat(a: string, b: string)
    ensures Normalise(a + b) == Normalise(a) + Normalise(b)
  {
  }
}
