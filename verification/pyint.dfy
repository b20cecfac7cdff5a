/** Python's `int(s)` on a string, in base 10, as `is_number` and `get_book_id`
    use it (books.py lines 223-236): surrounding ASCII white space (tab, line
    feed, vertical tab, form feed, carriage return, space) is ignored, one
    optional sign, then decimal digits in which single underscores may separate
    two digits. CPython refuses a literal of more than 4300 digits with a
    `ValueError` (its default `sys.get_int_max_str_digits()`), which
    `is_number` reports as "not a number" like any other parse failure. */
module PyInt {
  import opened Wrappers
  import opened Ascii

  /** CPython's default limit on the digits `int()` converts from a string. */
  const MaxStrDigits: nat := 4300

  function TrimStart(s: string): (t: string)
    ensures |t| <= |s| && t == s[|s| - |t|..]
    ensures |t| > 0 ==> !IsSpace(t[0])
    ensures forall i | 0 <= i < |s| - |t| :: IsSpace(s[i])
  {
    if |s| > 0 && IsSpace(s[0]) then TrimStart(s[1..]) else s
  }

  function TrimEnd(s: string): (t: string)
    ensures |t| <= |s| && t == s[..|t|]
    ensures |t| > 0 ==> !IsSpace(t[|t| - 1])
    ensures forall i | |t| <= i < |s| :: IsSpace(s[i])
  {
    if |s| > 0 && IsSpace(s[|s| - 1]) then TrimEnd(s[..|s| - 1]) else s
  }

  /** `s.strip()` on the white space `int()` skips. */
  function Strip(s: string): string {
    TrimEnd(TrimStart(s))
  }

  /** Digits, where an underscore may stand only between two digits. */
  predicate IsDigitGroups(s: string) {
    && |s| > 0
    && IsDigit(s[0])
    && IsDigit(s[|s| - 1])
    && (forall i | 0 <= i < |s| :: IsDigit(s[i]) || s[i] == '_')
    && (forall i | 0 < i < |s| :: s[i] == '_' ==> s[i - 1] != '_')
  }

  function DigitCount(s: string): nat {
    if |s| == 0 then 0
    else DigitCount(s[..|s| - 1]) + (if IsDigit(s[|s| - 1]) then 1 else 0)
  }

  /** The number the digits of `s` spell in base 10; underscores are skipped. */
  function DigitsValue(s: string): nat {
    if |s| == 0 then 0
    else if IsDigit(s[|s| - 1]) then DigitsValue(s[..|s| - 1]) * 10 + (s[|s| - 1] as int - '0' as int)
    else DigitsValue(s[..|s| - 1])
  }

  /** The sign `int()` reads in front of the digits (true for `-`), and the
      rest of the stripped text. */
  function Unsign(t: string): (bool, string) {
    if |t| > 0 && (t[0] == '+' || t[0] == '-') then (t[0] == '-', t[1..]) else (false, t)
  }

  /** The value of the unsigned digits, or `None` where `int()` rejects them. */
  function Magnitude(body: string): Option<nat> {
    if IsDigitGroups(body) && DigitCount(body) <= MaxStrDigits then Some(DigitsValue(body)) else None
  }

  /** `int(s)`, or `None` where Python raises `ValueError`. */
  function ParseInt(s: string): Option<int> {
    var (negative, body) := Unsign(Strip(s));
    match Magnitude(body)
    case Some(v) => Some(if negative then -(v as int) else v as int)
    case None => None
  }

  /** `is_number(s)` for a string `s`. */
  predicate IsNumber(s: string) {
    ParseInt(s).Some?
  }

  /** `str(n)`: the decimal rendering of a natural number, without leading zeros. */
  function Digits(n: nat): (s: string)
    ensures |s| > 0
    ensures forall i | 0 <= i < |s| :: IsDigit(s[i])
    decreases n
  {
    if n < 10 then ['0' + n as char]
    else Digits(n / 10) + ['0' + (n % 10) as char]
  }

  /** `str(n)` for any integer. */
  function Decimal(n: int): string {
    if n < 0 then "-" + Digits(-n) else Digits(n)
  }

  /** Digits only: every character counts towards the digit limit. */
  lemma {:induction false} DigitCountOfDigits(s: string)
    requires forall i | 0 <= i < |s| :: IsDigit(s[i])
    ensures DigitCount(s) == |s|
  {
    if |s| > 0 {
      DigitCountOfDigits(s[..|s| - 1]);
    }
  }

  /** Reading back the digits of `n` gives `n`. */
  lemma {:induction false} DigitsValueOfDigits(n: nat)
    ensures DigitsValue(Digits(n)) == n
    decreases n
  {
    var s := Digits(n);
    if n >= 10 {
      DigitsValueOfDigits(n / 10);
      assert s[..|s| - 1] == Digits(n / 10);
    }
  }

  /** `int(str(n)) == n` for every integer whose decimal form is within the
      digit limit. */
  lemma ParseIntOfDecimal(n: int)
    requires |Digits(if n < 0 then -n else n)| <= MaxStrDigits
    ensures ParseInt(Decimal(n)) == Some(n)
  {
    var m: nat := if n < 0 then -n else n;
    var d := Decimal(n);
    DecimalIsStripped(n);
    assert Unsign(d) == (n < 0, Digits(m));
    DigitCountOfDigits(Digits(m));
    DigitsValueOfDigits(m);
    assert Magnitude(Digits(m)) == Some(m);
  }

  /** A decimal rendering has no white space to strip. */
  lemma DecimalIsStripped(n: int)
    ensures Strip(Decimal(n)) == Decimal(n)
  {
    var d := Decimal(n);
    assert !IsSpace(d[0]) && !IsSpace(d[|d| - 1]);
    assert TrimStart(d) == d;
  }

  /** A character `int()` may accept somewhere in its argument. */
  predicate IsNumeral(c: char) {
    IsSpace(c) || IsDigit(c) || c == '+' || c == '-' || c == '_'
  }

  /** `Strip(s)` is the slice `s[a..b]`, and all of `s` outside it is white space. */
  lemma StripIsSlice(s: string) returns (a: nat, b: nat)
    ensures a <= b <= |s| && Strip(s) == s[a..b]
    ensures forall i | 0 <= i < a :: IsSpace(s[i])
    ensures forall i | b <= i < |s| :: IsSpace(s[i])
  {
    var u := TrimStart(s);
    var t := TrimEnd(u);
    a := |s| - |u|;
    b := a + |t|;
    assert u == s[a..];
    assert t == u[..|t|];
    assert u[..|t|] == s[a..b];
    forall i | b <= i < |s|
      ensures IsSpace(s[i])
    {
      assert |t| <= i - a < |u|;
      assert s[i] == u[i - a];
    }
  }

  /** Every character of a string `int()` accepts is white space, a sign, a
      digit or an underscore: in particular it holds no letter. */
  lemma NumbersHaveNoLetters(s: string)
    ensures IsNumber(s) ==> forall i | 0 <= i < |s| :: IsNumeral(s[i])
  {
    if IsNumber(s) {
      var a, b := StripIsSlice(s);
      var t := Strip(s);
      var signed := |t| > 0 && (t[0] == '+' || t[0] == '-');
      var body := Unsign(t).1;
      assert IsDigitGroups(body);
      assert forall j | 0 <= j < |t| :: IsNumeral(t[j]) by {
        forall j | 0 <= j < |t|
          ensures IsNumeral(t[j])
        {
          if signed && j > 0 {
            assert t[j] == body[j - 1];
          } else if !signed {
            assert t[j] == body[j];
          }
        }
      }
      forall i | a <= i < b
        ensures IsNumeral(s[i])
      {
        assert s[i] == t[i - a];
      }
    }
  }

  /** A string holding a character `int()` never accepts, a letter say, is
      not a number. */
  lemma NonNumeralIsNoNumber(s: string, i: nat)
    requires i < |s| && !IsNumeral(s[i])
    ensures !IsNumber(s)
  {
    NumbersHaveNoLetters(s);
  }

  /** `is_number("5")` holds and `int("5")` is 5, while `"5.0"`, which `int()`
      refuses, is not a number. */
  lemma ParseIntExamples()
    ensures ParseInt("5") == Some(5)
    ensures ParseInt("-5") == Some(-5)
    ensures !IsNumber("5.0")
  {
    ParseIntOfDecimal(5);
    ParseIntOfDecimal(-5);
    var s := "5.0";
    assert Strip(s) == s by {
      assert TrimStart(s) == s;
    }
    assert Unsign(s) == (false, s);
    assert !IsDigitGroups(s) by {
      assert s[1] == '.';
    }
  }

  /** The information separator U+001C counts for `str.isspace()` but is not
      white space `int()` skips, so "\x1c5" is not a number. */
  lemma SeparatorIsNoSpace()
    ensures ParseInt("\U{1c}5").None?
  {
    var s := "\U{1c}5";
    assert TrimStart(s) == s;
    assert Strip(s) == s;
    assert Unsign(s) == (false, s);
    assert !IsDigit(s[0]);
  }
}
