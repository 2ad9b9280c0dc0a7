/** Decimal number text: JavaScript's `parseInt` and `parseFloat` as the forms use them,
    and `toString` of integers, which the edit dialogs use to pre-fill those forms. */
module Numbers {
  import opened Text

  predicate IsDigit(c: char) {
    '0' <= c <= '9'
  }

  predicate AllDigits(s: string) {
    forall i :: 0 <= i < |s| ==> IsDigit(s[i])
  }

  function DigitValue(c: char): nat
    requires IsDigit(c)
  {
    c as int - '0' as int
  }

  function DigitChar(d: nat): (c: char)
    requires d < 10
    ensures IsDigit(c) && DigitValue(c) == d
  {
    ('0' as int + d) as char
  }

  /** Length of the longest prefix of `s` made only of decimal digits. */
  function DigitRun(s: string): (n: nat)
    ensures n <= |s| && AllDigits(s[..n])
    ensures n < |s| ==> !IsDigit(s[n])
  {
    if |s| > 0 && IsDigit(s[0]) then
      var n := DigitRun(s[1..]);
      assert s[..n + 1] == [s[0]] + s[1..][..n];
      n + 1
    else 0
  }

  /** The value of a string of decimal digits, most significant first. */
  function DigitsValue(ds: string): nat
    requires AllDigits(ds)
  {
    if ds == [] then 0 else 10 * DigitsValue(ds[..|ds| - 1]) + DigitValue(ds[|ds| - 1])
  }

  /** The value of the digits after a decimal point. */
  function FractionValue(ds: string): real
    requires AllDigits(ds)
  {
    if ds == [] then 0.0 else (DigitValue(ds[0]) as real + FractionValue(ds[1..])) / 10.0
  }

  /** Splits off an optional leading sign; the flag says whether it was `-`. */
  function SplitSign(s: string): (r: (bool, string))
    ensures |r.1| <= |s|
  {
    if |s| > 0 && s[0] == '-' then (true, s[1..])
    else if |s| > 0 && s[0] == '+' then (false, s[1..])
    else (false, s)
  }

  /** `parseInt(s)` in base 10: leading white space and a sign are skipped, then the
      longest run of digits is read and the rest ignored; no digits gives NaN (None). */
  function ParseInt(s: string): (r: Option<int>)
  {
    var (negative, body) := SplitSign(TrimStart(s));
    var n := DigitRun(body);
    if n == 0 then None
    else
      var v: int := DigitsValue(body[..n]);
      Some(if negative then -v else v)
  }

  /** `parseFloat(s)` for plain decimal notation: an integer part and an optional
      fraction after `.`; at least one digit in either is needed, otherwise NaN (None). */
  function ParseFloat(s: string): (r: Option<real>)
  {
    var (negative, body) := SplitSign(TrimStart(s));
    var n := DigitRun(body);
    var rest := body[n..];
    var f := if |rest| > 0 && rest[0] == '.' then DigitRun(rest[1..]) else 0;
    if n == 0 && f == 0 then None
    else
      var frac := if f == 0 then 0.0 else FractionValue(rest[1..][..f]);
      var v := DigitsValue(body[..n]) as real + frac;
      Some(if negative then -v else v)
  }

  /** `n.toString()` for a natural number. */
  function ShowNat(n: nat): (s: string)
    ensures |s| > 0 && AllDigits(s)
  {
    if n < 10 then [DigitChar(n)] else ShowNat(n / 10) + [DigitChar(n % 10)]
  }

  /** `i.toString()` for an integer. */
  function ShowInt(i: int): (s: string)
    ensures |s| > 0
  {
    if i < 0 then "-" + ShowNat(-i) else ShowNat(i)
  }

  lemma {:induction false} ShowNatValue(n: nat)
    ensures DigitsValue(ShowNat(n)) == n
  {
    if n >= 10 {
      var s := ShowNat(n);
      assert s[..|s| - 1] == ShowNat(n / 10);
      ShowNatValue(n / 10);
    }
  }

  lemma DigitNotSpace(c: char)
    requires IsDigit(c)
    ensures !IsSpace(c) && c != '-' && c != '+' && c != '.'
  {
  }

  /** Reading digits stops at the first non-digit. */
  lemma {:induction false} DigitRunOfDigits(ds: string, rest: string)
    requires AllDigits(ds)
    requires rest == [] || !IsDigit(rest[0])
    ensures DigitRun(ds + rest) == |ds|
    decreases |ds|
  {
    if ds == [] {
      assert ds + rest == rest;
    } else {
      var t := ds + rest;
      assert t[0] == ds[0];
      assert t[1..] == ds[1..] + rest;
      DigitRunOfDigits(ds[1..], rest);
    }
  }

  /** The sign and digits `toString` wrote for an integer, as the parsers split them. */
  lemma SignAndDigitsOfShowInt(i: int)
    ensures SplitSign(TrimStart(ShowInt(i))) == (i < 0, ShowNat(if i < 0 then -i else i))
  {
    var digits := ShowNat(if i < 0 then -i else i);
    var shown := ShowInt(i);
    if i < 0 {
      assert shown[0] == '-' && !IsSpace('-');
      assert TrimStart(shown) == shown;
      assert shown[1..] == digits;
    } else {
      DigitNotSpace(digits[0]);
      assert TrimStart(shown) == shown;
    }
  }

  /** A run of digits alone reads as its value. */
  lemma DigitsAlone(digits: string)
    requires AllDigits(digits)
    ensures DigitRun(digits) == |digits| && digits[..|digits|] == digits && digits[|digits|..] == []
  {
    DigitRunOfDigits(digits, []);
    assert digits + [] == digits;
  }

  /** `parseInt` reads back the digits `toString` wrote for any integer. */
  lemma ParseIntShowInt(i: int)
    ensures ParseInt(ShowInt(i)) == Some(i)
  {
    var m := if i < 0 then -i else i;
    SignAndDigitsOfShowInt(i);
    DigitsAlone(ShowNat(m));
    ShowNatValue(m);
  }

  /** `parseFloat` reads back the digits `toString` wrote for any integer. */
  lemma ParseFloatShowInt(i: int)
    ensures ParseFloat(ShowInt(i)) == Some(i as real)
  {
    var m := if i < 0 then -i else i;
    SignAndDigitsOfShowInt(i);
    DigitsAlone(ShowNat(m));
    ShowNatValue(m);
  }

  /** Text after the leading number is ignored: `parseInt("42 years") == 42`. */
  lemma ParseIntIgnoresTail(n: nat, rest: string)
    requires rest == [] || !IsDigit(rest[0])
    ensures ParseInt(ShowNat(n) + rest) == Some(n)
  {
    var digits := ShowNat(n);
    var t := digits + rest;
    assert t[0] == digits[0];
    DigitNotSpace(t[0]);
    assert TrimStart(t) == t;
    assert SplitSign(t) == (false, t);
    DigitRunOfDigits(digits, rest);
    assert t[..|digits|] == digits;
    ShowNatValue(n);
    assert ParseInt(t) == Some(DigitsValue(digits));
  }

  /** Strings without any digit parse to NaN. */
  lemma NoDigitsIsNaN(s: string)
    requires forall i :: 0 <= i < |s| ==> !IsDigit(s[i])
    ensures ParseInt(s) == None && ParseFloat(s) == None
  {
    var t := TrimStart(s);
    var body := SplitSign(t).1;
    TrimStartDrops(s);
    assert forall i :: 0 <= i < |t| ==> t[i] == s[|s| - |t| + i];
    assert body == t || body == t[1..];
    assert forall i :: 0 <= i < |body| ==> !IsDigit(body[i]);
    var rest := body[DigitRun(body)..];
    if |rest| > 1 {
      assert rest[1..][0] == body[1];
    }
  }
}
