/**
 * The two number conversions of the detail extractor:
 *  - `ToNum` models `to_num`: keep the decimal digits of a text and read them
 *    as a base-10 natural number (`int(''.join(filter(str.isdigit, txt)))`);
 *  - `FormatWon` models the f-string `f"{n:,}원"`: the number with a comma
 *    between every group of three digits, counted from the right, followed by
 *    the currency unit 원.
 * The central fact is the round trip `ToNum(Some(FormatWon(n))) == Success(Some(n))`.
 */
module Numbers {
  import opened Wrappers

  /** The unit appended to every formatted amount. */
  const Won: char := '원'

  predicate IsDigit(c: char) {
    '0' <= c <= '9'
  }

  predicate AllDigits(s: string) {
    forall i :: 0 <= i < |s| ==> IsDigit(s[i])
  }

  predicate HasDigit(s: string) {
    exists i :: 0 <= i < |s| && IsDigit(s[i])
  }

  function DigitValue(c: char): (d: nat)
    requires IsDigit(c)
    ensures d < 10
  {
    (c as int) - ('0' as int)
  }

  function DigitChar(d: nat): (c: char)
    requires d < 10
    ensures IsDigit(c) && DigitValue(c) == d
  {
    (('0' as int) + d) as char
  }

  /** `''.join(filter(str.isdigit, s))`, for ASCII digits. */
  function KeepDigits(s: string): (r: string)
    ensures AllDigits(r)
    ensures |r| <= |s|
    ensures r == [] <==> !HasDigit(s)
  {
    if s == [] then []
    else
      var rest := KeepDigits(s[1..]);
      assert HasDigit(s) <==> IsDigit(s[0]) || HasDigit(s[1..]) by {
        if HasDigit(s[1..]) {
          var i :| 0 <= i < |s[1..]| && IsDigit(s[1..][i]);
          assert IsDigit(s[i + 1]);
        }
        if HasDigit(s) && !IsDigit(s[0]) {
          var i :| 0 <= i < |s| && IsDigit(s[i]);
          assert IsDigit(s[1..][i - 1]);
        }
      }
      if IsDigit(s[0]) then [s[0]] + rest else rest
  }

  /** Filtering distributes over concatenation: the digits keep their order. */
  lemma {:induction false} KeepDigitsConcat(a: string, b: string)
    ensures KeepDigits(a + b) == KeepDigits(a) + KeepDigits(b)
  {
    if a == [] {
      assert a + b == b;
    } else {
      assert (a + b)[1..] == a[1..] + b;
      KeepDigitsConcat(a[1..], b);
    }
  }

  /** A text made of digits only is its own filtered form. */
  lemma {:induction false} KeepDigitsOfDigits(s: string)
    requires AllDigits(s)
    ensures KeepDigits(s) == s
  {
    if s != [] {
      KeepDigitsOfDigits(s[1..]);
    }
  }

  function Pow10(k: nat): (p: nat)
    ensures p >= 1
  {
    if k == 0 then 1 else 10 * Pow10(k - 1)
  }

  /** `int(ds)` for a non-empty string of ASCII digits (leading zeros allowed): k digits denote less than 10^k. */
  function DigitsValue(ds: string): (v: nat)
    requires AllDigits(ds)
    ensures v < Pow10(|ds|)
  {
    if ds == [] then 0
    else DigitsValue(ds[..|ds| - 1]) * 10 + DigitValue(ds[|ds| - 1])
  }

  /** The error `int('')` raises when a non-empty text holds no digit. */
  datatype NumError = NoDigits(text: string)

  /**
   * `to_num(txt)`: `None` and the empty text give `None`; any other text gives
   * the value of its digits, and a text with no digit at all raises.
   */
  function ToNum(txt: Option<string>): (r: Result<Option<nat>, NumError>)
    ensures txt == None || txt == Some("") ==> r == Success(None)
    ensures txt.Some? && txt.value != "" && !HasDigit(txt.value) ==> r == Failure(NoDigits(txt.value))
    ensures txt.Some? && HasDigit(txt.value) ==> r == Success(Some(DigitsValue(KeepDigits(txt.value))))
  {
    match txt
    case None => Success(None)
    case Some(s) =>
      if s == "" then Success(None)
      else
        var ds := KeepDigits(s);
        if ds == "" then Failure(NoDigits(s)) else Success(Some(DigitsValue(ds)))
  }

  /** The decimal form of `n`, without leading zeros (`str(n)`). */
  function ShowNat(n: nat): (r: string)
    ensures 1 <= |r| && AllDigits(r)
    ensures r[0] == '0' ==> n == 0 && r == "0"
    ensures DigitsValue(r) == n
  {
    if n < 10 then [DigitChar(n)]
    else
      var r := ShowNat(n / 10) + [DigitChar(n % 10)];
      assert r[..|r| - 1] == ShowNat(n / 10);
      r
  }

  /** The last three decimal digits of `n`, zero-padded: one comma-separated group. */
  function LastThree(n: nat): (r: string)
    ensures |r| == 3 && AllDigits(r)
  {
    [DigitChar(n / 100 % 10), DigitChar(n / 10 % 10), DigitChar(n % 10)]
  }

  lemma ShowNatShort(n: nat)
    requires n < 1000
    ensures |ShowNat(n)| <= 3
  {
    if n >= 100 {
      assert n / 10 >= 10 && n / 10 / 10 < 10;
      assert |ShowNat(n / 10)| == |ShowNat(n / 10 / 10)| + 1;
    }
  }

  /** Splitting off the last three digits of the decimal form. */
  lemma ShowNatSplit(n: nat)
    requires n >= 1000
    ensures ShowNat(n) == ShowNat(n / 1000) + LastThree(n)
  {
    var a := n / 10;
    var b := a / 10;
    assert b / 10 == n / 1000;
    assert b == n / 100;
    assert ShowNat(n) == ShowNat(a) + [DigitChar(n % 10)];
    assert ShowNat(a) == ShowNat(b) + [DigitChar(a % 10)];
    assert ShowNat(b) == ShowNat(b / 10) + [DigitChar(b % 10)];
    assert LastThree(n) == [DigitChar(b % 10)] + [DigitChar(a % 10)] + [DigitChar(n % 10)];
  }

  /**
   * The shape `f"{n:,}"` has: a leading group of one to three digits, then
   * zero or more groups of a comma and exactly three digits.
   */
  predicate ThousandsForm(s: string)
    decreases |s|
  {
    if |s| <= 3 then 1 <= |s| && AllDigits(s)
    else
      |s| >= 5 && s[|s| - 4] == ',' && AllDigits(s[|s| - 3..]) && ThousandsForm(s[..|s| - 4])
  }

  /** `f"{n:,}"` for a natural number `n`. */
  function Grouped(n: nat): (r: string)
    ensures ThousandsForm(r)
    ensures r[0] == '0' ==> n == 0 && r == "0"
  {
    if n < 1000 then
      ShowNatShort(n);
      ShowNat(n)
    else
      var head := Grouped(n / 1000);
      var r := head + [','] + LastThree(n);
      assert r[..|r| - 4] == head && r[|r| - 3..] == LastThree(n);
      r
  }

  /** `f"{n:,}원"`. */
  function FormatWon(n: nat): (r: string)
    ensures |r| >= 2 && r[|r| - 1] == Won
    ensures ThousandsForm(r[..|r| - 1])
    ensures r[0] == '0' ==> n == 0 && r == "0" + [Won]
  {
    var r := Grouped(n) + [Won];
    assert r[..|r| - 1] == Grouped(n);
    r
  }

  /** Dropping the commas of the grouped form gives back the plain decimal form. */
  lemma {:induction false} GroupedDigits(n: nat)
    ensures KeepDigits(Grouped(n)) == ShowNat(n)
  {
    if n < 1000 {
      KeepDigitsOfDigits(ShowNat(n));
    } else {
      GroupedDigits(n / 1000);
      KeepDigitsConcat(Grouped(n / 1000), [',']);
      KeepDigitsConcat(Grouped(n / 1000) + [','], LastThree(n));
      KeepDigitsOfDigits(LastThree(n));
      ShowNatSplit(n);
    }
  }

  /** Round trip: `to_num(f"{n:,}원") == n` for every natural number `n`. */
  lemma FormatWonRoundTrip(n: nat)
    ensures ToNum(Some(FormatWon(n))) == Success(Some(n))
  {
    var s := FormatWon(n);
    KeepDigitsConcat(Grouped(n), [Won]);
    GroupedDigits(n);
    assert KeepDigits(s) == ShowNat(n);
  }

  /**
   * The form `f"{n:,}원"` has: 원 last, the thousands shape before it, and the
   * decimal digits of `n` once the commas are removed.
   */
  predicate WonForm(s: string, n: nat) {
    && |s| >= 2
    && s[|s| - 1] == Won
    && ThousandsForm(s[..|s| - 1])
    && KeepDigits(s[..|s| - 1]) == ShowNat(n)
  }

  lemma FormatWonIsWonForm(n: nat)
    ensures WonForm(FormatWon(n), n)
  {
    var s := FormatWon(n);
    assert s[..|s| - 1] == Grouped(n);
    GroupedDigits(n);
  }

  /** Example: `to_num("12,345원")` is 12345. */
  lemma ToNumExample()
    ensures ToNum(Some("12,345원")) == Success(Some(12345))
  {
    assert ShowNat(12) == "12";
    assert LastThree(12345) == "345";
    assert FormatWon(12345) == "12,345원";
    FormatWonRoundTrip(12345);
  }
}
