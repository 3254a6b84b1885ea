/** An optional value, for fields the backend may leave out. */
module Options {
  datatype Option<+T> = None | Some(value: T)
}

/**
 * The outcome of a request as the page sees it: the call threw (network
 * failure, HTTP error), the server answered `success: false`, or it
 * delivered data.
 */
module Requests {
  datatype Response<T> = Threw | Unsuccessful | Succeeded(data: T)
}

/**
 * The slice of JavaScript values the scripts compare and test: `undefined`,
 * `null`, integral numbers and strings, with the language's truthiness and
 * its loose equality `==`.
 */
module JsValue {
  import opened Options
  import opened JsText

  datatype JsVal = Undefined | Null | Num(n: int) | Str(s: string)

  /** The JavaScript truth value of `v` (as used by `!v`, `v || d`, `if (v)`). */
  predicate Truthy(v: JsVal)
  {
    match v
    case Undefined => false
    case Null => false
    case Num(n) => n != 0
    case Str(s) => s != []
  }

  predicate Nullish(v: JsVal)
  {
    v.Undefined? || v.Null?
  }

  /** `a || b`. */
  function Or(a: JsVal, b: JsVal): (r: JsVal)
    ensures Truthy(a) ==> r == a
    ensures !Truthy(a) ==> r == b
  {
    if Truthy(a) then a else b
  }

  /** A string-or-null value is truthy: present and non-empty. */
  predicate Present(v: Option<string>)
  {
    v.Some? && v.value != ""
  }

  /** `field || fallback` on a text field that may be null. */
  function OrText(v: Option<string>, fallback: string): (r: string)
    ensures Present(v) ==> r == v.value
    ensures !Present(v) ==> r == fallback
  {
    if Present(v) then v.value else fallback
  }

  predicate IsDigit(c: char)
  {
    '0' <= c <= '9'
  }

  predicate AllDigits(s: string)
  {
    forall i :: 0 <= i < |s| ==> IsDigit(s[i])
  }

  /** The value of a string of decimal digits. */
  function DigitsValue(s: string): (n: nat)
    requires AllDigits(s)
  {
    if s == [] then 0 else DigitsValue(s[..|s| - 1]) * 10 + (s[|s| - 1] as int - '0' as int)
  }

  /**
   * `Number(s)` for the strings that name integers: surrounding whitespace is
   * ignored, the empty string is 0, an optional sign precedes the digits.
   * `None` stands for NaN.
   */
  function ToNumber(s: string): (r: Option<int>)
  {
    var t := Trim(s);
    if t == [] then Some(0)
    else if t[0] == '-' && |t| > 1 && AllDigits(t[1..]) then Some(0 - DigitsValue(t[1..]) as int)
    else if t[0] == '+' && |t| > 1 && AllDigits(t[1..]) then Some(DigitsValue(t[1..]))
    else if AllDigits(t) then Some(DigitsValue(t))
    else None
  }

  /** JavaScript's `a == b` on these values. */
  predicate LooseEq(a: JsVal, b: JsVal)
  {
    match (a, b)
    case (Num(x), Num(y)) => x == y
    case (Str(x), Str(y)) => x == y
    case (Num(x), Str(y)) => ToNumber(y) == Some(x)
    case (Str(x), Num(y)) => ToNumber(x) == Some(y)
    case _ => Nullish(a) && Nullish(b)
  }

  /** Loose equality is symmetric. */
  lemma LooseEqSymmetric(a: JsVal, b: JsVal)
    ensures LooseEq(a, b) <==> LooseEq(b, a)
  {
  }

  /** `undefined == v` holds exactly for `undefined` and `null`. */
  lemma LooseEqUndefined(v: JsVal)
    ensures LooseEq(Undefined, v) <==> Nullish(v)
  {
  }

  /** The decimal digits of a natural number, as `String(n)` writes them. */
  function Digits(n: nat): (s: string)
    ensures |s| > 0 && AllDigits(s)
  {
    var d := ['0' + (n % 10) as char];
    if n < 10 then d else Digits(n / 10) + d
  }

  /** `String(n)` for an integer. */
  function Decimal(n: int): (s: string)
    ensures |s| > 0
  {
    if n < 0 then "-" + Digits(-n) else Digits(n)
  }

  lemma {:induction false} DigitsValueOfDigits(n: nat)
    ensures DigitsValue(Digits(n)) == n
  {
    var s := Digits(n);
    if n >= 10 {
      DigitsValueOfDigits(n / 10);
      assert s[..|s| - 1] == Digits(n / 10);
    }
  }

  /** `Number(String(n)) == n`: the number a decimal rendering reads back as. */
  lemma {:induction false} ToNumberOfDecimal(n: int)
    ensures ToNumber(Decimal(n)) == Some(n)
  {
    var s := Decimal(n);
    var m: nat := if n < 0 then -n else n;
    var d := Digits(m);
    DigitsValueOfDigits(m);
    assert !IsSpace(d[0]) && !IsSpace(d[|d| - 1]) by {
      assert IsDigit(d[0]) && IsDigit(d[|d| - 1]);
    }
    if n < 0 {
      assert s == "-" + d && s[1..] == d && s[|s| - 1] == d[|d| - 1];
      TrimOfTrimmed(s);
    } else {
      assert s == d;
      TrimOfTrimmed(s);
    }
  }

  /** A number loosely equals its decimal rendering, as a select box's string value does. */
  lemma NumEqualsItsDecimal(n: int)
    ensures LooseEq(Num(n), Str(Decimal(n)))
  {
    ToNumberOfDecimal(n);
  }

  /**
   * Loose equality is not transitive: a run of digits and the same run
   * with a leading zero both equal the number, yet differ from each other.
   */
  lemma LooseEqNotTransitive(d: string)
    requires |d| > 0 && AllDigits(d)
    ensures AllDigits("0" + d)
    ensures LooseEq(Str(d), Num(DigitsValue(d)))
    ensures LooseEq(Num(DigitsValue(d)), Str("0" + d))
    ensures !LooseEq(Str(d), Str("0" + d))
  {
    PrependDigit('0', d);
    assert "0" + d == ['0'] + d;
    ToNumberOfDigits(d);
    ToNumberOfDigits("0" + d);
    LeadingZero(d);
    assert |"0" + d| != |d|;
  }

  /** A digit in front of a run of digits gives a run of digits. */
  lemma PrependDigit(c: char, d: string)
    requires IsDigit(c) && AllDigits(d)
    ensures AllDigits([c] + d)
  {
    forall i | 0 <= i < |d| + 1
      ensures IsDigit(([c] + d)[i])
    {
      if i > 0 {
        assert ([c] + d)[i] == d[i - 1];
      }
    }
  }

  /** A leading zero does not change the value of a run of digits. */
  lemma {:induction false} LeadingZero(d: string)
    requires AllDigits(d) && AllDigits("0" + d)
    ensures DigitsValue("0" + d) == DigitsValue(d)
  {
    if d != [] {
      var z := "0" + d;
      assert z[..|z| - 1] == "0" + d[..|d| - 1];
      assert AllDigits(d[..|d| - 1]) by {
        assert forall i :: 0 <= i < |d| - 1 ==> d[..|d| - 1][i] == d[i];
      }
      LeadingZero(d[..|d| - 1]);
    }
  }

  /** A non-empty run of digits reads as its value. */
  lemma ToNumberOfDigits(t: string)
    requires |t| > 0 && AllDigits(t)
    ensures ToNumber(t) == Some(DigitsValue(t))
  {
    assert !IsSpace(t[0]) && !IsSpace(t[|t| - 1]) by {
      assert IsDigit(t[0]) && IsDigit(t[|t| - 1]);
    }
    TrimOfTrimmed(t);
    assert t[0] != '-' && t[0] != '+' by {
      assert IsDigit(t[0]);
    }
  }
}
