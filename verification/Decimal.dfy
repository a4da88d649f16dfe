/** Decimal text of 32-bit integers, as printed and parsed by the string helpers. */
module Decimal {
  import opened Wrappers

  const INT_MAX: int := 0x7fff_ffff
  const INT_MIN: int := -0x8000_0000

  predicate IsInt(n: int) {
    INT_MIN <= n <= INT_MAX
  }

  predicate IsDigit(c: char) {
    '0' <= c <= '9'
  }

  predicate AllDigits(s: string) {
    forall i :: 0 <= i < |s| ==> IsDigit(s[i])
  }

  function Digits(n: nat): (s: string)
    ensures s != [] && AllDigits(s)
  {
    var last := '0' + (n % 10) as char;
    if n < 10 then [last] else Digits(n / 10) + [last]
  }

  function Value(s: string): nat
    requires AllDigits(s)
  {
    if s == [] then 0 else Value(s[..|s| - 1]) * 10 + (s[|s| - 1] - '0') as nat
  }

  lemma {:induction false} ValueOfDigits(n: nat)
    ensures Value(Digits(n)) == n
  {
    var last := '0' + (n % 10) as char;
    assert (last - '0') as nat == n % 10;
    if n >= 10 {
      ValueOfDigits(n / 10);
      assert Digits(n)[..|Digits(n)| - 1] == Digits(n / 10);
    } else {
      assert Digits(n)[..0] == [];
    }
  }

  // Written without superfluous zeros.
  predicate Shortest(s: string) {
    AllDigits(s) && s != [] && (|s| > 1 ==> s[0] != '0')
  }

  lemma {:induction false} DigitsShortest(n: nat)
    ensures Shortest(Digits(n)) && (Digits(n)[0] == '0' <==> n == 0)
  {
    if n >= 10 { DigitsShortest(n / 10); }
  }

  /** A number has one text without superfluous zeros, and that is the one printed. */
  lemma {:induction false} DigitsUnique(s: string)
    requires Shortest(s)
    ensures Digits(Value(s)) == s
    decreases |s|
  {
    hide Digits;
    var n := |s| - 1;
    var last := (s[n] - '0') as nat;
    assert '0' + last as char == s[n];
    if n > 0 {
      var v := Value(s[..n]);
      assert s[..n][0] == s[0];
      DigitsUnique(s[..n]);
      DigitsShortest(v);
      assert Digits(v)[0] != '0';
      DigitsStep(v, last);
      assert s[..n] + [s[n]] == s;
    } else {
      assert s[..0] == [] && Value(s) == last;
      assert s == [s[0]];
      OneDigit(last);
    }
  }

  lemma {:induction false} OneDigit(last: nat)
    requires last < 10
    ensures Digits(last) == ['0' + last as char]
  {
  }

  lemma {:induction false} DigitsStep(v: nat, last: nat)
    requires v > 0 && last < 10
    ensures Digits(v * 10 + last) == Digits(v) + ['0' + last as char]
  {
    var n := v * 10 + last;
    assert n / 10 == v && n % 10 == last;
  }

  function PrintInt(n: int): string {
    if n < 0 then "-" + Digits(-n) else Digits(n)
  }

  // Fails on anything but an optional sign and digits, and on overflow.
  function ParseInt(s: string): Option<int> {
    var negative := s != [] && s[0] == '-';
    var body := if s != [] && (s[0] == '-' || s[0] == '+') then s[1..] else s;
    if body == [] || !AllDigits(body) then None
    else
      var n: int := if negative then -(Value(body) as int) else Value(body);
      if IsInt(n) then Some(n) else None
  }

  // A number is printed without superfluous zeros, and a sign only if it is negative.
  lemma {:induction false} PrintShortest(n: int)
    ensures n >= 0 ==> Shortest(PrintInt(n))
    ensures n < 0 ==> PrintInt(n)[0] == '-' && Shortest(PrintInt(n)[1..])
  {
    DigitsShortest(if n < 0 then -n else n);
    if n < 0 { assert PrintInt(n)[1..] == Digits(-n); }
  }

  // The text is a number: digits, possibly behind a sign.
  ghost predicate Denotes(s: string, sign: string, body: string, n: int) {
    && sign in ["", "+", "-"] && s == sign + body && body != [] && AllDigits(body)
    && n == (if sign == "-" then -(Value(body) as int) else Value(body) as int)
  }

  /** Exactly the numbers that fit are parsed, and to their value. */
  lemma {:induction false} ParseIff(s: string, n: int)
    ensures ParseInt(s) == Some(n) <==> IsInt(n) && exists sign, body :: Denotes(s, sign, body, n)
  {
    hide ParseInt, Denotes;
    if ParseInt(s) == Some(n) { ParsedDenotes(s, n); }
    forall sign, body | Denotes(s, sign, body, n) && IsInt(n) ensures ParseInt(s) == Some(n) {
      DenotedParses(s, sign, body, n);
    }
  }

  lemma {:induction false} ParsedDenotes(s: string, n: int)
    requires ParseInt(s) == Some(n)
    ensures IsInt(n) && exists sign, body :: Denotes(s, sign, body, n)
  {
    hide Value;
    var sign := if s[0] == '-' || s[0] == '+' then [s[0]] else "";
    assert s == sign + s[|sign|..];
    assert Denotes(s, sign, s[|sign|..], n);
  }

  lemma {:induction false} DenotedParses(s: string, sign: string, body: string, n: int)
    requires Denotes(s, sign, body, n) && IsInt(n)
    ensures ParseInt(s) == Some(n)
  {
    hide Value;
    assert s[|sign|..] == body;
    assert sign == "" ==> IsDigit(s[0]);
  }

  lemma {:induction false} ParsePrinted(n: int)
    ensures ParseInt(PrintInt(n)) == if IsInt(n) then Some(n) else None
  {
    ValueOfDigits(if n < 0 then -n else n);
    if n < 0 {
      assert PrintInt(n)[1..] == Digits(-n);
    } else {
      assert IsDigit(Digits(n)[0]);
    }
  }
}
