/** Phone-number normalisation: the ledger key of a customer.

    A raw phone cell is what pandas hands to `normalize_phone`: a missing value
    (None or NaN), a number read from the spreadsheet (possibly with a
    fractional part), or a string of digits (the already-normalised keys that
    are normalised a second time when the ledger view is built). */
module Phones {

  datatype Option<+T> = None | Some(value: T) {
    function GetOr(default: T): T {
      match this
      case Some(v) => v
      case None => default
    }
  }

  predicate IsDigit(c: char) { '0' <= c <= '9' }

  predicate AllDigits(s: string) { forall i :: 0 <= i < |s| ==> IsDigit(s[i]) }

  /** A non-empty string of decimal digits. */
  type DigitString = s: string | |s| > 0 && AllDigits(s) witness "0"

  /** The form Python's `str(int)` gives a non-negative integer: no leading zero
      unless the number is zero itself. */
  predicate Canonical(s: string) { |s| > 0 && (s[0] != '0' || |s| == 1) }

  type NonNegReal = r: real | r >= 0.0

  datatype RawPhone = Missing | Numeric(number: NonNegReal) | Text(digits: DigitString)

  function DigitChar(d: nat): (c: char)
    requires d < 10
    ensures IsDigit(c)
  {
    (48 + d) as char
  }

  function DigitValue(c: char): (d: nat)
    requires IsDigit(c)
    ensures d < 10 && DigitChar(d) == c
  {
    c as int - 48
  }

  function Pow10(k: nat): (p: nat)
    ensures p >= 1
  {
    if k == 0 then 1 else 10 * Pow10(k - 1)
  }

  /** `str(n)` for a non-negative integer. */
  function ToDecimal(n: nat): (s: DigitString)
    ensures Canonical(s)
  {
    if n < 10 then [DigitChar(n)] else ToDecimal(n / 10) + [DigitChar(n % 10)]
  }

  /** `int(s)` for a string of digits (leading zeros allowed). */
  function ParseDecimal(s: string): (n: nat)
    requires AllDigits(s)
  {
    if s == [] then 0 else ParseDecimal(s[..|s| - 1]) * 10 + DigitValue(s[|s| - 1])
  }

  /** The `w` low-order decimal digits of `n`, zero-padded on the left. */
  function Padded(n: nat, w: nat): (s: string)
    ensures |s| == w && AllDigits(s)
  {
    if w == 0 then [] else Padded(n / 10, w - 1) + [DigitChar(n % 10)]
  }

  /** `str(int(float(phone)))`: the integer digit string of a present cell. */
  function Coerce(p: RawPhone): (s: DigitString)
    requires !p.Missing?
    ensures Canonical(s)
  {
    match p
    case Numeric(x) => ToDecimal(x.Floor)
    case Text(t) => ToDecimal(ParseDecimal(t))
  }

  /** True of a 12-digit string that begins with the country code 91. */
  predicate HasCountryCode(s: string) { |s| == 12 && s[..2] == "91" }

  /** `normalize_phone`: None for a missing cell; otherwise the integer digit
      string, with the prefix 91 removed from a 12-digit string. */
  function Normalize(p: RawPhone): (r: Option<DigitString>)
    ensures r.None? <==> p.Missing?
    ensures r.Some? ==> !HasCountryCode(r.value)
  {
    if p.Missing? then None
    else
      var s := Coerce(p);
      if HasCountryCode(s) then Some(s[2..]) else Some(s)
  }

  // ---------------------------------------------------------------------
  // Decimal strings

  lemma {:induction false} ParseToDecimal(n: nat)
    ensures ParseDecimal(ToDecimal(n)) == n
  {
    var s := ToDecimal(n);
    if n >= 10 {
      ParseToDecimal(n / 10);
      assert s[..|s| - 1] == ToDecimal(n / 10);
    }
  }

  lemma AllDigitsConcat(a: string, b: string)
    requires AllDigits(a) && AllDigits(b)
    ensures AllDigits(a + b)
  {
    forall i | 0 <= i < |a + b| ensures IsDigit((a + b)[i]) {
      if i >= |a| {
        assert (a + b)[i] == b[i - |a|];
      }
    }
  }

  /** A number written in `|s|` digits is below 10^|s|. */
  lemma {:induction false} ParseBound(s: string)
    requires AllDigits(s)
    ensures ParseDecimal(s) < Pow10(|s|)
  {
    if s != [] {
      ParseBound(s[..|s| - 1]);
    }
  }

  lemma {:induction false} ParseConcat(a: string, b: string)
    requires AllDigits(a) && AllDigits(b)
    ensures AllDigits(a + b)
    ensures ParseDecimal(a + b) == ParseDecimal(a) * Pow10(|b|) + ParseDecimal(b)
  {
    AllDigitsConcat(a, b);
    if b == [] {
      assert a + b == a;
    } else {
      var b' := b[..|b| - 1];
      assert (a + b)[..|a + b| - 1] == a + b';
      assert (a + b)[|a + b| - 1] == b[|b| - 1];
      ParseConcat(a, b');
      ShiftDigit(ParseDecimal(a), Pow10(|b'|), ParseDecimal(b'), DigitValue(b[|b| - 1]));
    }
  }

  lemma ShiftDigit(x: int, p: int, y: int, d: int)
    ensures (x * p + y) * 10 + d == x * (p * 10) + (y * 10 + d)
  {
  }

  /** A string whose first digit is not 0 denotes a positive number. */
  lemma {:induction false} ParsePositive(s: string)
    requires |s| > 0 && AllDigits(s) && s[0] != '0'
    ensures ParseDecimal(s) >= 1
  {
    if |s| > 1 {
      ParsePositive(s[..|s| - 1]);
    }
  }

  /** Printing a parsed canonical string gives the string back. */
  lemma {:induction false} ToDecimalParse(s: string)
    requires Canonical(s) && AllDigits(s)
    ensures ToDecimal(ParseDecimal(s)) == s
  {
    var n := ParseDecimal(s);
    if |s| > 1 {
      var s' := s[..|s| - 1];
      ParsePositive(s');
      ToDecimalParse(s');
      assert n / 10 == ParseDecimal(s') && n % 10 == DigitValue(s[|s| - 1]);
      assert s == s' + [s[|s| - 1]];
    }
  }

  /** A digit string is the zero-padded form of the number it denotes. */
  lemma {:induction false} PaddedParse(s: string)
    requires AllDigits(s)
    ensures Padded(ParseDecimal(s), |s|) == s
  {
    if s != [] {
      var s' := s[..|s| - 1];
      var n := ParseDecimal(s);
      PaddedParse(s');
      assert n / 10 == ParseDecimal(s') && n % 10 == DigitValue(s[|s| - 1]);
      assert s == s' + [s[|s| - 1]];
    }
  }

  // ---------------------------------------------------------------------
  // Properties of Normalize

  /** A 12-digit string splits into its first two digits and the 10-digit rest. */
  lemma SplitTwelve(s: string)
    requires |s| == 12 && AllDigits(s)
    ensures ParseDecimal(s) / 10_000_000_000 == ParseDecimal(s[..2])
    ensures ParseDecimal(s) % 10_000_000_000 == ParseDecimal(s[2..])
  {
    assert s == s[..2] + s[2..];
    ParseConcat(s[..2], s[2..]);
    ParseBound(s[2..]);
    assert Pow10(10) == 10_000_000_000;
  }

  /** A number with k decimal digits prints as k characters. */
  lemma {:induction false} DigitCount(n: nat, k: nat)
    requires k >= 1 && Pow10(k - 1) <= n < Pow10(k)
    ensures |ToDecimal(n)| == k
  {
    if k > 1 {
      DigitCount(n / 10, k - 1);
    }
  }

  /** `str(n)` has 12 digits and starts with 91 exactly when n lies in
      910000000000..919999999999. */
  lemma CountryCodeRange(n: nat)
    ensures HasCountryCode(ToDecimal(n)) <==> 910_000_000_000 <= n < 920_000_000_000
  {
    if HasCountryCode(ToDecimal(n)) {
      CountryCodeBounds(n);
    }
    if 910_000_000_000 <= n < 920_000_000_000 {
      CountryCodeOfRange(n);
    }
  }

  lemma CountryCodeBounds(n: nat)
    requires HasCountryCode(ToDecimal(n))
    ensures 910_000_000_000 <= n < 920_000_000_000
  {
    var s := ToDecimal(n);
    ParseToDecimal(n);
    SplitTwelve(s);
    assert ParseDecimal("91") == 91;
  }

  lemma CountryCodeOfRange(n: nat)
    requires 910_000_000_000 <= n < 920_000_000_000
    ensures HasCountryCode(ToDecimal(n))
  {
    var s := ToDecimal(n);
    TwelveDigits(n);
    ParseToDecimal(n);
    SplitTwelve(s);
    TwoDigits(s[..2]);
  }

  lemma TwelveDigits(n: nat)
    requires 100_000_000_000 <= n < 1_000_000_000_000
    ensures |ToDecimal(n)| == 12
  {
    assert Pow10(11) == 100_000_000_000 && Pow10(12) == 1_000_000_000_000;
    DigitCount(n, 12);
  }

  lemma TwoDigits(s: string)
    requires |s| == 2 && AllDigits(s) && ParseDecimal(s) == 91
    ensures s == "91"
  {
    PaddedParse(s);
    assert Padded(91, 2) == "91";
  }

  /** A number in 910000000000..919999999999 becomes its last 10 digits,
      zero-padded. */
  lemma NormalizeStripsCountryCode(n: nat)
    requires 910_000_000_000 <= n < 920_000_000_000
    ensures Normalize(Numeric(n as real)) == Some(Padded(n % 10_000_000_000, 10))
  {
    var s := ToDecimal(n);
    assert Coerce(Numeric(n as real)) == s;
    CountryCodeRange(n);
    ParseToDecimal(n);
    SplitTwelve(s);
    PaddedParse(s[2..]);
  }

  /** Any other number comes back as its plain digit string, whatever its
      length or prefix. */
  lemma NormalizeKeepsOtherNumbers(n: nat)
    requires !(910_000_000_000 <= n < 920_000_000_000)
    ensures Normalize(Numeric(n as real)) == Some(ToDecimal(n))
  {
    assert Coerce(Numeric(n as real)) == ToDecimal(n);
    CountryCodeRange(n);
  }

  /** A fractional part on a numeric cell is truncated away. */
  lemma NormalizeTruncates(x: NonNegReal)
    ensures Normalize(Numeric(x)) == Normalize(Numeric(x.Floor as real))
  {
    assert (x.Floor as real).Floor == x.Floor;
  }

  /** A digit-string cell normalises exactly as the number it denotes. */
  lemma NormalizeTextAsNumber(t: DigitString)
    ensures Normalize(Text(t)) == Normalize(Numeric(ParseDecimal(t) as real))
  {
    assert (ParseDecimal(t) as real).Floor == ParseDecimal(t);
  }

  /** Normalising a key a second time is the identity, provided the key does
      not start with a 0 (a 91-prefixed number whose remaining 10 digits do). */
  lemma NormalizeIdempotent(p: RawPhone)
    requires Normalize(p).Some? && Canonical(Normalize(p).value)
    ensures Normalize(Text(Normalize(p).value)) == Normalize(p)
  {
    var k := Normalize(p).value;
    ToDecimalParse(k);
    assert Coerce(Text(k)) == k;
  }

  // The digit strings of the examples below, evaluated three digits at a time.

  lemma Digits0123456789()
    ensures ParseDecimal("0123456789") == 123456789
  {
    ParseConcat("012", "345");
    ParseConcat("678", "9");
    assert "012" + "345" == "012345" && "678" + "9" == "6789";
    ParseConcat("012345", "6789");
    assert "012345" + "6789" == "0123456789";
  }

  lemma Digits7234002022()
    ensures ParseDecimal("7234002022") == 7234002022
  {
    ParseConcat("723", "400");
    ParseConcat("202", "2");
    assert "723" + "400" == "723400" && "202" + "2" == "2022";
    ParseConcat("723400", "2022");
    assert "723400" + "2022" == "7234002022";
  }

  lemma Digits9876543210()
    ensures ParseDecimal("9876543210") == 9876543210
  {
    ParseConcat("987", "654");
    ParseConcat("321", "0");
    assert "987" + "654" == "987654" && "321" + "0" == "3210";
    ParseConcat("987654", "3210");
    assert "987654" + "3210" == "9876543210";
  }

  /** Without that proviso the second pass drops the leading 0: the number
      910123456789 gives the key 0123456789, which normalises to 123456789. */
  lemma RenormalizeDropsLeadingZero(p: RawPhone)
    requires p == Numeric(910_123_456_789.0)
    ensures Normalize(p) == Some("0123456789")
    ensures Normalize(Text(Normalize(p).value)) == Some("123456789")
  {
    NormalizeStripsCountryCode(910_123_456_789);
    Digits0123456789();
    PaddedParse("0123456789");
    LeadingZeroDropped("0123456789");
  }

  lemma LeadingZeroDropped(k: DigitString)
    requires k == "0123456789"
    ensures Normalize(Text(k)) == Some("123456789")
  {
    ParseConcat("0", "123456789");
    assert "0" + "123456789" == k;
    ToDecimalParse("123456789");
    assert Coerce(Text(k)) == "123456789";
  }

  /** The country-code example from the application's help text: the number
      917234002022 gives the key 7234002022. */
  lemma HelpTextExample(p: RawPhone)
    requires p == Numeric(917_234_002_022.0)
    ensures Normalize(p) == Some("7234002022")
  {
    NormalizeStripsCountryCode(917_234_002_022);
    Digits7234002022();
    PaddedParse("7234002022");
  }

  /** One subscriber written with and without the country code, as a number
      and as text, gets one key. */
  lemma SameSubscriberSameKey(withCode: RawPhone, without: RawPhone)
    requires withCode == Numeric(919_876_543_210.0) && without == Text("9876543210")
    ensures Normalize(withCode) == Normalize(without) == Some("9876543210")
  {
    NormalizeStripsCountryCode(919_876_543_210);
    Digits9876543210();
    PaddedParse("9876543210");
    ToDecimalParse("9876543210");
    assert Coerce(without) == "9876543210";
  }
}
