/** `String(n)` and `n.toString()` for the integer ids and option values the core prints. */
module JsText {
  import opened Outcomes

  predicate IsDigit(c: char) {
    '0' <= c <= '9'
  }

  predicate AllDigits(s: string) {
    forall i :: 0 <= i < |s| ==> IsDigit(s[i])
  }

  function DigitChar(d: nat): (c: char)
    requires d < 10
    ensures IsDigit(c)
  {
    (48 + d) as char
  }

  function DigitValue(c: char): nat
    requires IsDigit(c)
  {
    c as int - 48
  }

  /** The decimal numeral of `n`, without leading zeros. */
  function NatToString(n: nat): (r: string)
    ensures |r| > 0 && AllDigits(r)
    ensures r[0] == '0' ==> n == 0
  {
    if n < 10 then [DigitChar(n)] else NatToString(n / 10) + [DigitChar(n % 10)]
  }

  /** `String(n)` for an integer-valued number. */
  function IntToString(n: int): (r: string)
    ensures r != [] && (r[0] == '-' <==> n < 0)
    ensures n >= 0 ==> IsDigit(r[0])
  {
    if n < 0 then "-" + NatToString(-n) else NatToString(n)
  }

  /** `String(x)` for `x: number | undefined`. */
  function OptionalIntText(x: Option<int>): (r: string)
    ensures r == "undefined" <==> x.None?
  {
    match x
    case Some(n) => IntToString(n)
    case None => "undefined"
  }

  /** The value of a digit string, read left to right. */
  function ParseDigits(s: string): nat
    requires AllDigits(s)
  {
    if s == [] then 0 else ParseDigits(s[..|s| - 1]) * 10 + DigitValue(s[|s| - 1])
  }

  /** Reading back the numeral of `n` gives `n`. */
  lemma {:induction false} ParseNatToString(n: nat)
    ensures ParseDigits(NatToString(n)) == n
  {
    if n >= 10 {
      var s := NatToString(n);
      assert s[..|s| - 1] == NatToString(n / 10);
      ParseNatToString(n / 10);
    }
  }

  lemma NatToStringInjective(a: nat, b: nat)
    ensures NatToString(a) == NatToString(b) <==> a == b
  {
    if NatToString(a) == NatToString(b) {
      ParseNatToString(a);
      ParseNatToString(b);
    }
  }

  /** Two integers print the same exactly when they are equal. */
  lemma IntToStringInjective(a: int, b: int)
    ensures IntToString(a) == IntToString(b) <==> a == b
  {
    if IntToString(a) == IntToString(b) {
      if a < 0 && b < 0 {
        assert IntToString(a)[1..] == NatToString(-a);
        assert IntToString(b)[1..] == NatToString(-b);
        NatToStringInjective(-a, -b);
      } else if a >= 0 && b >= 0 {
        NatToStringInjective(a, b);
      }
    }
  }

  /** `String(x) === String(y)` for ids that may be undefined holds exactly when the ids are equal. */
  lemma OptionalIntTextInjective(x: Option<int>, y: Option<int>)
    ensures OptionalIntText(x) == OptionalIntText(y) <==> x == y
  {
    if x.Some? && y.Some? {
      IntToStringInjective(x.value, y.value);
    } else if x.Some? {
      PrintedIntNotUndefined(x.value);
    } else if y.Some? {
      PrintedIntNotUndefined(y.value);
    }
  }

  lemma PrintedIntNotUndefined(n: int)
    ensures IntToString(n) != "undefined"
  {
    var s := IntToString(n);
    assert s[0] == '-' || IsDigit(s[0]);
    assert "undefined"[0] == 'u';
  }

  /** `String(x)` is never empty and starts with `u`, `-` or a digit. */
  lemma PrintedTextStart(x: Option<int>)
    ensures var s := OptionalIntText(x);
      s != [] && (s[0] == 'u' || s[0] == '-' || IsDigit(s[0]))
  {
  }
}
