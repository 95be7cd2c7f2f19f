/** The Java-version part of the system information collector: the major
    version parsed from the `java.version` property, and whether that version
    is the recommended one. The property values are parameters (a missing
    property is None). */
module SystemInfo {
  import opened Basics

  /** The Java version and vendor record. */
  datatype JavaInfo = JavaInfo(
    version: Option<string>,
    vendor: Option<string>,
    vmName: Option<string>,
    vmVersion: Option<string>,
    majorVersion: int,
    isRecommended: bool)

  /** The major version assumed when the version string cannot be parsed. */
  const DefaultMajorVersion: int := 8

  /** The oldest major version the collector recommends. */
  const RecommendedMajorVersion: int := 21

  predicate IsDigit(c: char)
  {
    '0' <= c <= '9'
  }

  predicate AllDigits(s: string)
  {
    forall i :: 0 <= i < |s| ==> IsDigit(s[i])
  }

  function DigitValue(c: char): nat
    requires IsDigit(c)
  {
    c as int - '0' as int
  }

  /** The number written by a string of decimal digits (leading zeros allowed). */
  function DigitsValue(s: string): nat
    requires AllDigits(s)
  {
    if |s| == 0 then 0 else DigitsValue(s[..|s| - 1]) * 10 + DigitValue(s[|s| - 1])
  }

  /** `s.indexOf(c, from)`: the first position at or after `from` holding `c`,
      or -1 when there is none. */
  function IndexOf(s: string, c: char, from: nat): (r: int)
    ensures r == -1 <==> forall i :: from <= i < |s| ==> s[i] != c
    ensures r != -1 ==> from <= r < |s| && s[r] == c
    ensures r != -1 ==> forall i :: from <= i < r ==> s[i] != c
    decreases |s| - from
  {
    if from >= |s| then -1 else if s[from] == c then from else IndexOf(s, c, from + 1)
  }

  /** `Integer.parseInt(s)` in base 10: an optional sign and at least one digit,
      with a value that fits in 32 bits; anything else throws (None). */
  function ParseInt(s: string): (r: Option<Int32>)
    ensures r.Some? ==> |s| > 0
    ensures |s| > 0 && !IsDigit(s[0]) && s[0] != '-' && s[0] != '+' ==> r.None?
    ensures (exists i :: 0 < i < |s| && !IsDigit(s[i])) ==> r.None?
    ensures r.Some? && s[0] == '-' ==> r.value <= 0
    ensures r.Some? && s[0] != '-' ==> r.value >= 0
  {
    if |s| == 0 then None
    else if s[0] == '-' || s[0] == '+' then
      var digits := s[1..];
      if |digits| == 0 || !AllDigits(digits) then
        assert forall i :: 0 < i < |s| ==> s[i] == digits[i - 1];
        None
      else
        var v: int := if s[0] == '-' then -(DigitsValue(digits) as int) else DigitsValue(digits);
        if IntMin <= v <= IntMax then Some(v) else None
    else if !AllDigits(s) then None
    else if DigitsValue(s) <= IntMax then Some(DigitsValue(s)) else None
  }

  /** The decimal digits of a natural number, without leading zeros. */
  function Decimal(n: nat): (s: string)
    decreases n
  {
    if n < 10 then [('0' as int + n) as char]
    else Decimal(n / 10) + [('0' as int + n % 10) as char]
  }

  /** `Integer.toString(n)`: a minus sign for negative numbers, then the digits. */
  function FormatInt(n: Int32): string
  {
    if n < 0 then "-" + Decimal(-(n as int)) else Decimal(n)
  }

  /** The decimal digits of n are digits, at least one of them, and they
      denote n. */
  lemma {:induction false} DecimalDigits(n: nat)
    ensures |Decimal(n)| > 0 && AllDigits(Decimal(n))
    ensures DigitsValue(Decimal(n)) == n
    decreases n
  {
    var s := Decimal(n);
    if n >= 10 {
      DecimalDigits(n / 10);
      assert s[..|s| - 1] == Decimal(n / 10);
      assert forall i :: 0 <= i < |s| - 1 ==> s[i] == Decimal(n / 10)[i];
    }
  }

  /** Parsing what `Integer.toString` writes gives back the number. */
  lemma ParseFormatsBack(n: Int32)
    ensures ParseInt(FormatInt(n)) == Some(n)
  {
    if n < 0 {
      ParseNegative(-(n as int));
    } else {
      ParseNonNegative(n);
    }
  }

  lemma ParseNegative(m: nat)
    requires 0 < m <= -IntMin
    ensures ParseInt("-" + Decimal(m)) == Some(-(m as int))
  {
    DecimalDigits(m);
    var s := "-" + Decimal(m);
    assert s[1..] == Decimal(m);
  }

  lemma ParseNonNegative(n: nat)
    requires n <= IntMax
    ensures ParseInt(Decimal(n)) == Some(n)
  {
    DecimalDigits(n);
    assert IsDigit(Decimal(n)[0]);
  }

  /** parseMajorVersion: a version starting with "1." yields the number between
      the first and the second dot; any other yields the number before its first
      dot; a missing dot, a missing property or a field that is not a number
      yields 8. */
  function ParseMajorVersion(version: Option<string>): (r: int)
    ensures version.None? ==> r == DefaultMajorVersion
    ensures version.Some? && (forall i :: 0 <= i < |version.value| ==> version.value[i] != '.') ==>
              r == DefaultMajorVersion
    ensures IntMin <= r <= IntMax
  {
    match version
    case None => DefaultMajorVersion
    case Some(v) =>
      var field :=
        if |v| >= 2 && v[..2] == "1." then
          var end := IndexOf(v, '.', 2);
          if end == -1 then None else Some(v[2..end])
        else
          var end := IndexOf(v, '.', 0);
          if end == -1 then None else Some(v[..end]);
      match field
      case None => DefaultMajorVersion
      case Some(f) =>
        match ParseInt(f)
        case None => DefaultMajorVersion
        case Some(n) => n
  }

  /** The property value `v` has its first dot at position k. */
  lemma FirstDotAt(v: string, from: nat, k: nat)
    requires from <= k < |v| && v[k] == '.'
    requires forall i :: from <= i < k ==> v[i] != '.'
    ensures IndexOf(v, '.', from) == k
  {
  }

  /** The new format: a number other than 1, a dot and anything after it has
      that number as its major version. */
  lemma NewFormatVersion(n: Int32, rest: string)
    requires n != 1
    ensures ParseMajorVersion(Some(FormatInt(n) + "." + rest)) == n
  {
    var d := FormatInt(n);
    var v := d + "." + rest;
    NoDotInFormat(n);
    NotOldFormat(n, rest);
    FirstDotAt(v, 0, |d|);
    assert v[..|d|] == d;
    ParseFormatsBack(n);
  }

  /** A formatted number holds no dot. */
  lemma NoDotInFormat(n: Int32)
    ensures forall i :: 0 <= i < |FormatInt(n)| ==> FormatInt(n)[i] != '.'
  {
    var d := FormatInt(n);
    if n < 0 {
      DecimalDigits(-(n as int));
      assert forall i :: 1 <= i < |d| ==> d[i] == Decimal(-(n as int))[i - 1];
    } else {
      DecimalDigits(n);
    }
  }

  /** Only the number 1 written before a dot looks like the old format. */
  lemma NotOldFormat(n: Int32, rest: string)
    requires n != 1
    ensures var v := FormatInt(n) + "." + rest; !(|v| >= 2 && v[..2] == "1.")
  {
    var d := FormatInt(n);
    var v := d + "." + rest;
    if n < 0 || n >= 10 {
      NoDotInFormat(n);
      if n < 0 {
        DecimalDigits(-(n as int));
      } else {
        DecimalDigits(n / 10);
      }
      assert |d| >= 2;
      assert v[1] == d[1] != '.';
    } else {
      assert d == [('0' as int + n) as char];
      assert v[0] == d[0] != '1';
    }
  }

  /** The old format: "1.", a number, a dot and anything after it has that
      number as its major version. */
  lemma OldFormatVersion(n: Int32, rest: string)
    ensures ParseMajorVersion(Some("1." + FormatInt(n) + "." + rest)) == n
  {
    var d := FormatInt(n);
    var v := "1." + d + "." + rest;
    NoDotInFormat(n);
    assert v[..2] == "1.";
    assert forall i :: 2 <= i < 2 + |d| ==> v[i] == d[i - 2];
    FirstDotAt(v, 2, 2 + |d|);
    assert v[2..2 + |d|] == d;
    ParseFormatsBack(n);
  }

  /** "1." followed by text with no further dot falls back to 8. */
  lemma OldFormatWithoutSecondDot(rest: string)
    requires forall i :: 0 <= i < |rest| ==> rest[i] != '.'
    ensures ParseMajorVersion(Some("1." + rest)) == DefaultMajorVersion
  {
    var v := "1." + rest;
    assert v[..2] == "1.";
    assert forall i :: 2 <= i < |v| ==> v[i] == rest[i - 2];
  }

  /** A field that is not a number falls back to 8, in either format. */
  lemma NonNumericFieldIsEight(field: string, rest: string)
    requires forall i :: 0 <= i < |field| ==> field[i] != '.'
    requires ParseInt(field).None?
    ensures ParseMajorVersion(Some(field + "." + rest)) == DefaultMajorVersion
  {
    var v := field + "." + rest;
    if |field| >= 2 {
      assert v[1] == field[1] != '.';
    } else if |field| == 1 {
      assert AllDigits("1") && DigitsValue("1") == 1;
      assert ParseInt("1").Some?;
      assert field != "1";
      assert v[0] == field[0] != '1';
    } else {
      assert v[0] == '.';
    }
    FirstDotAt(v, 0, |field|);
    assert v[..|field|] == field;
  }

  /** detectJavaInfo, with the four system properties as parameters. */
  function DetectJavaInfo(version: Option<string>, vendor: Option<string>,
                          vmName: Option<string>, vmVersion: Option<string>): (r: JavaInfo)
    ensures r.majorVersion == ParseMajorVersion(version)
    ensures r.isRecommended <==> r.majorVersion >= RecommendedMajorVersion
    ensures r.version == version && r.vendor == vendor && r.vmName == vmName && r.vmVersion == vmVersion
  {
    var major := ParseMajorVersion(version);
    JavaInfo(version, vendor, vmName, vmVersion, major, major >= RecommendedMajorVersion)
  }

  /** Java 8 in the old format is parsed as 8 and is not recommended; Java 17
      is not recommended either; Java 21 and later in the new format are. */
  lemma RecommendationByVersion(n: Int32, rest: string)
    ensures !DetectJavaInfo(Some("1." + FormatInt(8) + "." + rest), None, None, None).isRecommended
    ensures n >= 21 ==> DetectJavaInfo(Some(FormatInt(n) + "." + rest), None, None, None).isRecommended
    ensures n < 21 && n != 1 ==> !DetectJavaInfo(Some(FormatInt(n) + "." + rest), None, None, None).isRecommended
  {
    OldFormatVersion(8, rest);
    if n != 1 {
      NewFormatVersion(n, rest);
    }
  }

  /** The version strings the collector's comments name: "1.8.0_381" is Java 8,
      "17.0.1" is 17 and "21.0.2" is 21. */
  lemma Java8Example()
    ensures ParseMajorVersion(Some("1.8.0_381")) == 8
  {
    assert FormatInt(8) == "8";
    OldFormatVersion(8, "0_381");
    assert "1." + FormatInt(8) + "." + "0_381" == "1.8.0_381";
  }

  lemma Java17Example()
    ensures ParseMajorVersion(Some("17.0.1")) == 17
  {
    assert FormatInt(17) == "17" by {
      assert Decimal(1) == "1";
    }
    NewFormatVersion(17, "0.1");
    assert "17" + "." + "0.1" == "17.0.1";
  }

  lemma Java21Example()
    ensures ParseMajorVersion(Some("21.0.2")) == 21
  {
    assert FormatInt(21) == "21" by {
      assert Decimal(2) == "2";
    }
    NewFormatVersion(21, "0.2");
    assert "21" + "." + "0.2" == "21.0.2";
  }

  /** Versions without a usable field: no dot at all ("21"), "1." without a
      second dot ("1.0"), and a field that is not a number ("abc.1"). */
  lemma FallbackExamples()
    ensures ParseMajorVersion(Some("21")) == DefaultMajorVersion
    ensures ParseMajorVersion(Some("1.0")) == DefaultMajorVersion
    ensures ParseMajorVersion(Some("abc.1")) == DefaultMajorVersion
  {
    OldFormatWithoutSecondDot("0");
    assert "1." + "0" == "1.0";
    NonNumericFieldIsEight("abc", "1");
    assert "abc" + "." + "1" == "abc.1";
  }
}
