/**
 The string operations the provider takes from Go's standard library.
 A Go string is a sequence of bytes; here each byte is one `char`.
 */
module GoStrings {
  import opened Outcomes

  lemma {:induction false} FirstExists(s: string, c: char)
    requires c in s
    ensures exists i :: 0 <= i < |s| && s[i] == c && c !in s[..i]
  {
    if c in s[..|s| - 1] {
      FirstExists(s[..|s| - 1], c);
      var i :| 0 <= i < |s| - 1 && s[i] == c && c !in s[..|s| - 1][..i];
      assert s[..i] == s[..|s| - 1][..i];
    }
  }

  /** Position of the first `c`, or -1: `strings.Index` with a one-byte needle. */
  function Index(s: string, c: char): (i: int)
    ensures -1 <= i < |s|
    ensures i >= 0 ==> s[i] == c && c !in s[..i]
    ensures i < 0 ==> c !in s
  {
    if c in s then
      FirstExists(s, c);
      var i :| 0 <= i < |s| && s[i] == c && c !in s[..i];
      i
    else -1
  }

  lemma {:induction false} LastExists(s: string, c: char)
    requires c in s
    ensures exists i :: 0 <= i < |s| && s[i] == c && c !in s[i + 1..]
  {
    if c in s[1..] {
      LastExists(s[1..], c);
      var i :| 0 <= i < |s| - 1 && s[1..][i] == c && c !in s[1..][i + 1..];
      assert s[i + 2..] == s[1..][i + 1..];
      assert s[i + 1] == c;
    } else {
      assert s[0] == c;
    }
  }

  /** Position of the last `c`, or -1: `strings.LastIndex` with a one-byte needle. */
  function LastIndex(s: string, c: char): (i: int)
    ensures -1 <= i < |s|
    ensures i >= 0 ==> s[i] == c && c !in s[i + 1..]
    ensures i < 0 ==> c !in s
  {
    if c in s then
      LastExists(s, c);
      var i :| 0 <= i < |s| && s[i] == c && c !in s[i + 1..];
      i
    else -1
  }

  /** `strings.HasPrefix`. */
  predicate HasPrefix(s: string, prefix: string): (r: bool)
    ensures r <==> |prefix| <= |s| && s[..|prefix|] == prefix
  {
    prefix <= s
  }

  /** A string is cut at its first separator in only one way. */
  lemma FirstCutUnique(a: string, b: string, a': string, b': string, c: char)
    requires c !in a && c !in a'
    requires a + [c] + b == a' + [c] + b'
    ensures a == a' && b == b'
  {
    var s, s' := a + [c] + b, a' + [c] + b';
    assert s[|a|] == c && s'[|a'|] == c;
    assert |a| == |a'|;
    assert a == s[..|a|] && a' == s'[..|a'|];
    assert b == s[|a| + 1..] && b' == s'[|a'| + 1..];
  }

  /** A string is cut at its last separator in only one way. */
  lemma LastCutUnique(a: string, b: string, a': string, b': string, c: char)
    requires c !in b && c !in b'
    requires a + [c] + b == a' + [c] + b'
    ensures a == a' && b == b'
  {
    var s, s' := a + [c] + b, a' + [c] + b';
    assert s[|a|] == c && s'[|a'|] == c;
    assert |a| == |a'|;
    assert a == s[..|a|] && a' == s'[..|a'|];
    assert b == s[|a| + 1..] && b' == s'[|a'| + 1..];
  }

  lemma IndexOfCut(s: string, a: string, b: string, c: char)
    requires s == a + [c] + b && c !in a
    ensures Index(s, c) == |a|
  {
    var i := Index(s, c);
    assert s[|a|] == c;
    assert s == s[..i] + [c] + s[i + 1..];
    FirstCutUnique(a, b, s[..i], s[i + 1..], c);
  }

  lemma LastIndexOfCut(s: string, a: string, b: string, c: char)
    requires s == a + [c] + b && c !in b
    ensures LastIndex(s, c) == |a|
  {
    var i := LastIndex(s, c);
    assert s[|a|] == c;
    assert s == s[..i] + [c] + s[i + 1..];
    LastCutUnique(a, b, s[..i], s[i + 1..], c);
  }

  /** `strings.TrimRight` with a one-byte cutset. */
  function TrimRight(s: string, c: char): (r: string)
    ensures r <= s
    ensures r == [] || r[|r| - 1] != c
    ensures forall i :: |r| <= i < |s| ==> s[i] == c
  {
    if s != [] && s[|s| - 1] == c then TrimRight(s[..|s| - 1], c) else s
  }

  /** ASCII lower case of one byte. */
  function LowerChar(c: char): char {
    if 'A' <= c <= 'Z' then c + 32 as char else c
  }

  /** `strings.ToLower` on ASCII. */
  function ToLower(s: string): (r: string)
    ensures |r| == |s|
    ensures forall i :: 0 <= i < |s| ==> r[i] == LowerChar(s[i])
  {
    if s == [] then [] else [LowerChar(s[0])] + ToLower(s[1..])
  }

  /** `strings.EqualFold` on ASCII: equal once the case of the letters is ignored. */
  predicate EqualFold(s: string, t: string) {
    |s| == |t| && forall i :: 0 <= i < |s| ==> LowerChar(s[i]) == LowerChar(t[i])
  }

  /** Go's `int` on the platforms the provider is built for: 64 bits, signed. */
  type GoInt = n: int | -0x8000_0000_0000_0000 <= n < 0x8000_0000_0000_0000

  function Digit(d: nat): (c: char)
    requires d < 10
    ensures '0' <= c <= '9'
  {
    d as char + '0'
  }

  function Digits(n: nat): (s: string)
    ensures s != []
    ensures forall i :: 0 <= i < |s| ==> '0' <= s[i] <= '9'
  {
    if n < 10 then [Digit(n)] else Digits(n / 10) + [Digit(n % 10)]
  }

  /** `strconv.Itoa`. */
  function Itoa(n: GoInt): string {
    if n < 0 then "-" + Digits(-(n as int)) else Digits(n)
  }

  function Magnitude(s: string): Option<nat> {
    if s == [] || !('0' <= s[|s| - 1] <= '9') then None
    else
      var d := s[|s| - 1] as int - '0' as int;
      if |s| == 1 then Some(d)
      else
        match Magnitude(s[..|s| - 1])
        case None => None
        case Some(m) => Some(10 * m + d)
  }

  /** `strconv.Atoi`: an optional sign, then decimal digits; out of range is an error. */
  function Atoi(s: string): Option<GoInt> {
    var signed := s != [] && (s[0] == '-' || s[0] == '+');
    match Magnitude(if signed then s[1..] else s)
    case None => None
    case Some(m) =>
      var n: int := if signed && s[0] == '-' then -(m as int) else m as int;
      if -0x8000_0000_0000_0000 <= n < 0x8000_0000_0000_0000 then Some(n) else None
  }

  // ---------------------------------------------------------------- numerals

  predicate AllDigits(s: string) {
    forall i :: 0 <= i < |s| ==> '0' <= s[i] <= '9'
  }

  /** One or more decimal digits. */
  predicate IsDigits(s: string) {
    s != "" && AllDigits(s)
  }

  function PowerOfTen(n: nat): nat {
    if n == 0 then 1 else 10 * PowerOfTen(n - 1)
  }

  /** What a row of digits is worth: each digit times the power of ten of its place. */
  function Value(s: string): nat
    requires AllDigits(s)
  {
    if s == "" then 0 else (s[0] as int - '0' as int) * PowerOfTen(|s| - 1) + Value(s[1..])
  }

  predicate HasSign(s: string) {
    s != "" && s[0] in "+-"
  }

  function Unsigned(s: string): string {
    if HasSign(s) then s[1..] else s
  }

  /** A decimal numeral: an optional sign and one or more digits, and nothing else. */
  predicate Numeral(s: string) {
    IsDigits(Unsigned(s))
  }

  /** The number a numeral stands for. */
  function NumeralValue(s: string): int
    requires Numeral(s)
  {
    if s[0] == '-' then -(Value(Unsigned(s)) as int) else Value(Unsigned(s))
  }

  /** The numeral stands for a number that fits into 64 bits. */
  predicate Int64Numeral(s: string) {
    Numeral(s) && -9223372036854775808 <= NumeralValue(s) <= 9223372036854775807
  }

  lemma Shift(d: nat, n: nat)
    ensures d * PowerOfTen(n + 1) == 10 * (d * PowerOfTen(n))
  {
  }

  /** One more digit on the right makes a row of digits worth ten times as much and that digit. */
  lemma {:induction false} ValueSnoc(s: string)
    requires IsDigits(s)
    ensures Value(s) == 10 * Value(s[..|s| - 1]) + (s[|s| - 1] as int - '0' as int)
  {
    if |s| == 1 {
      assert s[1..] == "" && s[..0] == "";
    } else {
      ValueSnoc(s[1..]);
      assert s[1..][..|s| - 2] == s[..|s| - 1][1..];
      Shift(s[0] as int - '0' as int, |s| - 2);
    }
  }

  lemma SplitDigits(s: string)
    requires s != ""
    ensures AllDigits(s) <==> AllDigits(s[..|s| - 1]) && '0' <= s[|s| - 1] <= '9'
  {
  }

  lemma {:induction false} MagnitudeIff(s: string)
    ensures Magnitude(s) == if IsDigits(s) then Some(Value(s)) else None
  {
    if s == "" {
    } else {
      SplitDigits(s);
      if IsDigits(s) {
        ValueSnoc(s);
      }
      if |s| > 1 {
        MagnitudeIff(s[..|s| - 1]);
      }
    }
  }

  /** What `Atoi` reads: the numerals that fit into 64 bits, for the numbers they stand for, and no other string. */
  lemma AtoiMeaning(s: string, n: GoInt)
    ensures Atoi(s) == Some(n) <==> Numeral(s) && NumeralValue(s) == n
    ensures Atoi(s).Some? <==> Int64Numeral(s)
  {
    MagnitudeIff(Unsigned(s));
  }

  lemma {:induction false} DigitsMeaning(n: nat)
    ensures IsDigits(Digits(n)) && Value(Digits(n)) == n
    ensures |Digits(n)| > 1 ==> Digits(n)[0] != '0'
  {
    var s := Digits(n);
    if n < 10 {
      ValueSnoc(s);
    } else {
      DigitsMeaning(n / 10);
      assert s[..|s| - 1] == Digits(n / 10);
      ValueSnoc(s);
      assert n / 10 < 10 ==> Digits(n / 10) == [Digit(n / 10)];
    }
  }

  /** What `Itoa` writes: the number in decimal, with a sign exactly if it is negative and no needless zero. */
  lemma ItoaMeaning(n: GoInt)
    ensures var s := Itoa(n);
            && Numeral(s) && NumeralValue(s) == n
            && (HasSign(s) <==> n < 0)
            && (|Unsigned(s)| > 1 ==> Unsigned(s)[0] != '0')
  {
    var s := Itoa(n);
    if n < 0 {
      DigitsMeaning(-(n as int));
      assert s[1..] == Digits(-(n as int));
    } else {
      DigitsMeaning(n);
    }
  }

  /** Printing an identifier and reading it back gives the identifier, whatever its sign. */
  lemma AtoiOfItoa(n: GoInt)
    ensures Itoa(n) != "" && Atoi(Itoa(n)) == Some(n)
  {
    ItoaMeaning(n);
    AtoiMeaning(Itoa(n), n);
  }

  // ------------------------------------------------------------- letter case

  const CAPITALS := "ABCDEFGHIJKLMNOPQRSTUVWXYZ"
  const SMALL := "abcdefghijklmnopqrstuvwxyz"

  /** One is a capital letter and the other the same letter, small. */
  ghost predicate CasePair(capital: char, small: char) {
    exists k :: 0 <= k < 26 && CAPITALS[k] == capital && SMALL[k] == small
  }

  lemma Alphabet(k: nat)
    requires k < 26
    ensures CAPITALS[k] == k as char + 'A' && SMALL[k] == k as char + 'a'
  {
  }

  lemma CasePairs(capital: char, small: char)
    ensures CasePair(capital, small) <==> 'A' <= capital <= 'Z' && small == capital + 32 as char
  {
    if 'A' <= capital <= 'Z' {
      Alphabet(capital as int - 'A' as int);
    }
    if k: nat :| k < 26 && CAPITALS[k] == capital && SMALL[k] == small {
      Alphabet(k);
    }
  }

  /** `EqualFold` compares byte by byte, and lets a letter match the same letter of the other case. */
  lemma EqualFoldMeaning(s: string, t: string)
    ensures EqualFold(s, t)
       <==> |s| == |t| && forall i :: 0 <= i < |s| ==> s[i] == t[i] || CasePair(s[i], t[i]) || CasePair(t[i], s[i])
  {
    if |s| == |t| {
      forall i | 0 <= i < |s|
        ensures LowerChar(s[i]) == LowerChar(t[i])
           <==> s[i] == t[i] || CasePair(s[i], t[i]) || CasePair(t[i], s[i])
      {
        CasePairs(s[i], t[i]);
        CasePairs(t[i], s[i]);
      }
    }
  }
}
