/**
 * The string operations the benchmark builds its labels with: Python's str()
 * of an int (runner keys such as "parallel_4") and str.join with a
 * one-character separator (task details such as "1000x2"), each with the
 * inverse that shows no information is lost.
 */
module Text {

  predicate IsDigit(c: char) {
    '0' <= c <= '9'
  }

  predicate AllDigits(s: string) {
    forall i :: 0 <= i < |s| ==> IsDigit(s[i])
  }

  function DigitChar(d: nat): (c: char)
    requires d < 10
    ensures IsDigit(c)
  {
    "0123456789"[d]
  }

  function DigitValue(c: char): (d: nat)
    requires IsDigit(c)
    ensures d < 10
  {
    c as int - '0' as int
  }

  /** The decimal digits of a natural number, most significant first. */
  function NatDigits(n: nat): (s: string)
    ensures |s| >= 1 && AllDigits(s)
    ensures (|s| == 1) <==> n < 10
    decreases n
  {
    if n < 10 then [DigitChar(n)] else NatDigits(n / 10) + [DigitChar(n % 10)]
  }

  /** str(n) for a Python int. */
  function Decimal(n: int): (s: string)
    ensures |s| >= 1
    ensures s[0] == '-' <==> n < 0
  {
    if n < 0 then "-" + NatDigits(-n) else NatDigits(n)
  }

  /** int(s) for a string of decimal digits. */
  function ParseDigits(s: string): nat
    requires AllDigits(s)
  {
    if |s| == 0 then 0 else ParseDigits(s[..|s| - 1]) * 10 + DigitValue(s[|s| - 1])
  }

  lemma {:induction false} ParseNatDigits(n: nat)
    ensures ParseDigits(NatDigits(n)) == n
    decreases n
  {
    if n >= 10 {
      var s := NatDigits(n / 10);
      ParseNatDigits(n / 10);
      assert (s + [DigitChar(n % 10)])[..|s|] == s;
    }
  }

  /** Different naturals have different digit strings. */
  lemma NatDigitsInjective(a: nat, b: nat)
    ensures NatDigits(a) == NatDigits(b) ==> a == b
  {
    ParseNatDigits(a);
    ParseNatDigits(b);
  }

  /** Different ints print differently, so str() of an int loses nothing. */
  lemma DecimalInjective(a: int, b: int)
    ensures Decimal(a) == Decimal(b) <==> a == b
  {
    if Decimal(a) == Decimal(b) {
      if a < 0 {
        var da, db := NatDigits(-a), NatDigits(-b);
        assert Decimal(a)[1..] == da;
        assert Decimal(b)[1..] == db;
        NatDigitsInjective(-a, -b);
      } else {
        NatDigitsInjective(a, b);
      }
    }
  }

  /** sep.join(parts). */
  function Join(sep: string, parts: seq<string>): string {
    if |parts| == 0 then ""
    else if |parts| == 1 then parts[0]
    else parts[0] + sep + Join(sep, parts[1..])
  }

  /** s.split(c) for a one-character separator c. */
  function Split(s: string, c: char): (parts: seq<string>)
    ensures |parts| >= 1
  {
    if |s| == 0 then [""]
    else
      var rest := Split(s[1..], c);
      if s[0] == c then [""] + rest else [[s[0]] + rest[0]] + rest[1..]
  }

  lemma {:induction false} SplitFreePrefix(p: string, q: string, c: char)
    requires c !in p
    ensures Split(p + q, c) == [p + Split(q, c)[0]] + Split(q, c)[1..]
  {
    if |p| > 0 {
      assert (p + q)[0] == p[0];
      assert (p + q)[1..] == p[1..] + q;
      SplitFreePrefix(p[1..], q, c);
      assert [p[0]] + (p[1..] + Split(q, c)[0]) == p + Split(q, c)[0];
    } else {
      var t := Split(q, c);
      assert p + q == q;
      assert p + t[0] == t[0];
      assert [t[0]] + t[1..] == t;
    }
  }

  /**
   * Joining at least one part with a separator that occurs in none of them
   * can be undone by splitting on that separator.
   */
  lemma {:induction false} SplitJoin(parts: seq<string>, c: char)
    requires |parts| >= 1
    requires forall k :: 0 <= k < |parts| ==> c !in parts[k]
    ensures Split(Join([c], parts), c) == parts
  {
    if |parts| == 1 {
      SplitFreePrefix(parts[0], "", c);
      assert parts[0] + "" == parts[0];
    } else {
      var tail := Join([c], parts[1..]);
      SplitJoin(parts[1..], c);
      assert Join([c], parts) == parts[0] + ([c] + tail);
      SplitFreePrefix(parts[0], [c] + tail, c);
      assert ([c] + tail)[1..] == tail;
      assert Split([c] + tail, c) == [""] + parts[1..];
      assert parts[0] + "" == parts[0];
      assert [parts[0]] + parts[1..] == parts;
    }
  }

  /** Decimal renderings never contain a letter separator such as 'x' or ';'. */
  lemma DecimalHasNoSeparator(n: int, c: char)
    requires c != '-' && !IsDigit(c)
    ensures c !in Decimal(n)
  {
    var s := Decimal(n);
    if n < 0 {
      assert s == "-" + NatDigits(-n);
      assert forall i :: 1 <= i < |s| ==> s[i] == NatDigits(-n)[i - 1];
    }
  }
}
