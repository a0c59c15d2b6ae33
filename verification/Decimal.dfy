/** Decimal numerals as the server writes them and the client reads them back. */
module Decimal {
  import opened Common

  const MAX_INT64 := 0x7fff_ffff_ffff_ffff
  const MIN_INT64 := -0x8000_0000_0000_0000

  predicate IsDigit(c: char) {
    '0' <= c <= '9'
  }

  function Digit(d: nat): (c: char)
    requires d < 10
    ensures IsDigit(c) && c as int - '0' as int == d
  {
    ('0' as int + d) as char
  }

  function Value(c: char): (d: nat)
    requires IsDigit(c)
    ensures d < 10
  {
    c as int - '0' as int
  }

  predicate AllDigits(s: string) {
    forall i :: 0 <= i < |s| ==> IsDigit(s[i])
  }

  function NatToString(n: nat): (s: string)
    ensures s != [] && AllDigits(s)
  {
    if n < 10 then [Digit(n)] else NatToString(n / 10) + [Digit(n % 10)]
  }

  function ToString(n: int): string {
    if n < 0 then "-" + NatToString(-n) else NatToString(n)
  }

  function DigitsValue(s: string): (n: nat)
    requires AllDigits(s)
  {
    if s == [] then 0 else 10 * DigitsValue(Init(s)) + Value(Last(s))
  }

  /** A 64-bit parse. A syntax error yields 0 and a range error the nearest bound, as the value a
    * caller sees when it ignores the error. */
  datatype Parsed = Parsed(n: int, ok: bool)

  function ParseInt(s: string): (p: Parsed)
    ensures p.ok ==> MIN_INT64 <= p.n <= MAX_INT64
  {
    if s == [] then Parsed(0, false)
    else
      var negative, digits := s[0] == '-', if s[0] == '-' || s[0] == '+' then s[1..] else s;
      if digits == [] || !AllDigits(digits) then Parsed(0, false)
      else
        var magnitude: int := DigitsValue(digits);
        var value := if negative then -magnitude else magnitude;
        if value < MIN_INT64 then Parsed(MIN_INT64, false)
        else if value > MAX_INT64 then Parsed(MAX_INT64, false)
        else Parsed(value, true)
  }

  lemma {:induction false} NatRoundTrip(n: nat)
    ensures DigitsValue(NatToString(n)) == n
  {
    if n >= 10 {
      NatRoundTrip(n / 10);
      assert Init(NatToString(n)) == NatToString(n / 10);
    }
  }

  /** A 64-bit number survives being printed and parsed. */
  lemma {:induction false} ParseRoundTrip(n: int)
    requires MIN_INT64 <= n <= MAX_INT64
    ensures ParseInt(ToString(n)) == Parsed(n, true)
  {
    if n < 0 {
      NatRoundTrip(-n);
      assert ToString(n)[1..] == NatToString(-n);
    } else {
      NatRoundTrip(n);
      assert IsDigit(ToString(n)[0]);
    }
    hide NatToString, DigitsValue;
  }

  function Pow10(k: nat): nat {
    if k == 0 then 1 else 10 * Pow10(k - 1)
  }

  /** The positional system: a digit counts for itself, and the digits before others for as many powers of ten more. */
  lemma {:induction false} DigitsMeans(a: string, b: string)
    requires AllDigits(a) && AllDigits(b)
    ensures |a| == 1 ==> DigitsValue(a) == a[0] as int - 48
    ensures DigitsValue(a + b) == DigitsValue(a) * Pow10(|b|) + DigitsValue(b)
  {
    if b == [] {
      assert a + b == a;
    } else {
      DigitsMeans(a, Init(b));
      assert Init(a + b) == a + Init(b) && Last(a + b) == Last(b);
      TimesTen(DigitsValue(a), Pow10(|b| - 1));
    }
  }

  lemma {:induction false} TimesTen(x: nat, y: nat)
    ensures 10 * (x * y) == x * (10 * y)
  {
  }

  /** What parses: digits, a sign before them or not, that come to a 64-bit number. Digits out of that range give the
    * nearest number in it, and anything else 0, both with an error. */
  lemma {:induction false} ParseMeans(digits: string, sign: string)
    requires digits != "" && AllDigits(digits) && (sign == "" || sign == "+" || sign == "-")
    ensures var magnitude: int := DigitsValue(digits);
            var value := if sign == "-" then -magnitude else magnitude;
            ParseInt(sign + digits) ==
              if value < -0x8000_0000_0000_0000 then Parsed(-0x8000_0000_0000_0000, false)
              else if value > 0x7fff_ffff_ffff_ffff then Parsed(0x7fff_ffff_ffff_ffff, false)
              else Parsed(value, true)
  {
    assert sign != "" ==> (sign + digits)[1..] == digits;
    assert sign == "" ==> sign + digits == digits;
    hide DigitsValue;
  }

  lemma {:induction false} NoNumeral(s: string)
    requires forall sign: string, digits :: s == sign + digits && digits != "" && AllDigits(digits) ==>
               sign != "" && sign != "+" && sign != "-"
    ensures ParseInt(s) == Parsed(0, false)
  {
    assert s == "" + s;
    if s != "" {
      assert s == [s[0]] + s[1..];
    }
  }

  predicate IsSpace(c: char) {
    c in " \t\n\r" || c == 11 as char || c == 12 as char
  }

  function TrimLeft(s: string): string {
    if s != [] && IsSpace(s[0]) then TrimLeft(s[1..]) else s
  }

  function TrimRight(s: string): string {
    if s != [] && IsSpace(Last(s)) then TrimRight(Init(s)) else s
  }

  function TrimSpace(s: string): string {
    TrimRight(TrimLeft(s))
  }

  /** A tab, a line feed, a vertical tab, a form feed, a carriage return or a space. */
  predicate Blank(s: string) {
    forall i :: 0 <= i < |s| ==> 9 <= s[i] as int <= 13 || s[i] as int == 32
  }

  /** Trimming takes blanks off both ends, and all of them. */
  lemma {:induction false} TrimMeans(s: string) returns (before: string, after: string)
    ensures s == before + TrimSpace(s) + after && Blank(before) && Blank(after)
    ensures var t := TrimSpace(s); t != "" ==> !Blank([t[0]]) && !Blank([Last(t)])
  {
    before := TrimmedLeft(s);
    after := TrimmedRight(TrimLeft(s));
    assert s == before + (TrimSpace(s) + after);
    var t := TrimSpace(s);
    if t != "" {
      assert t[0] == (t + after)[0] == TrimLeft(s)[0];
    }
  }

  lemma {:induction false} SpaceIs(c: char)
    ensures IsSpace(c) <==> Blank([c])
  {
    assert [c][0] == c;
    var listed: string := [' ', '\t', '\n', '\r'];
    assert listed == " \t\n\r";
    assert c in listed <==> c == ' ' || c == '\t' || c == '\n' || c == '\r';
  }

  lemma {:induction false} TrimmedLeft(s: string) returns (before: string)
    ensures s == before + TrimLeft(s) && Blank(before)
    ensures TrimLeft(s) != "" ==> !Blank([TrimLeft(s)[0]])
  {
    before := "";
    if s != [] {
      SpaceIs(s[0]);
      hide IsSpace;
      if IsSpace(s[0]) {
        var more := TrimmedLeft(s[1..]);
        before := [s[0]] + more;
        assert Blank([s[0]]);
        assert [s[0]][0] == s[0];
        assert s == before + TrimLeft(s);
      }
    }
  }

  lemma {:induction false} TrimmedRight(s: string) returns (after: string)
    ensures s == TrimRight(s) + after && Blank(after)
    ensures TrimRight(s) != "" ==> !Blank([Last(TrimRight(s))])
  {
    after := "";
    if s != [] {
      SpaceIs(Last(s));
      hide IsSpace;
      if IsSpace(Last(s)) {
        var more := TrimmedRight(Init(s));
        InitLast(s);
        after := more + [Last(s)];
        assert Blank([Last(s)]);
        assert [Last(s)][0] == Last(s);
        assert s == TrimRight(s) + after;
      }
    }
  }

  /** Cutting a numeral short never makes it larger. */
  lemma {:induction false} PrefixValue(s: string, k: nat)
    requires AllDigits(s) && k <= |s|
    ensures DigitsValue(s[..k]) <= DigitsValue(s)
  {
    if k < |s| {
      assert Init(s)[..k] == s[..k];
      PrefixValue(Init(s), k);
    } else {
      assert s[..k] == s;
    }
  }

  /** The file line holding `n`, cut at any point, reads back as a number between 0 and `n`, and as
    * `n` itself when only the newline is missing and it fits. */
  lemma {:induction false} TornLine(n: nat, k: nat)
    requires k <= |ToString(n) + "\n"|
    ensures 0 <= ParseInt(TrimSpace((ToString(n) + "\n")[..k])).n <= n
    ensures k >= |ToString(n)| && n <= MAX_INT64 ==> ParseInt(TrimSpace((ToString(n) + "\n")[..k])) == Parsed(n, true)
  {
    var digits := ToString(n);
    var line, m := (digits + "\n")[..k], if k < |digits| then k else |digits|;
    NatRoundTrip(n);
    PrefixValue(digits, m);
    assert digits[..|digits|] == digits;
    TrimDigits(digits[..m], line);
  }

  lemma {:induction false} TrimDigits(digits: string, line: string)
    requires AllDigits(digits) && (line == digits || line == digits + "\n")
    ensures TrimSpace(line) == digits
  {
    assert TrimRight(digits) == digits;
    if digits == [] && line != digits {
      assert TrimLeft(line) == TrimLeft(line[1..]);
    }
    assert digits != [] ==> TrimLeft(line) == line;
    if line != digits {
      assert Init(line) == digits && Last(line) == '\n';
    }
  }
}
