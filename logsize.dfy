/** The size setting of the rotating log files: a byte count, optionally with a KB, MB or GB suffix. */
module LogSizes {
  import opened Wrappers
  import opened PyStrings

  const KB: int := 1024
  /** 1024 · 1024 */
  const MB: int := 1_048_576
  /** 1024 · 1024 · 1024 */
  const GB: int := 1_073_741_824

  /** `int(digits) * factor`: a parse error passes through. */
  function Scaled(n: Result<int>, factor: int): (r: Result<int>)
    ensures r.Ok? <==> n.Ok?
    ensures r.Ok? ==> r.value == n.value * factor
    ensures r.Err? ==> r.error == n.error
  {
    match n
    case Ok(v) => Ok(v * factor)
    case Err(e) => Err(e)
  }

  /**
   * `_parse_size`: after upper-casing, a KB, MB or GB suffix multiplies the
   * number before it by 1024, 1024² or 1024³; anything else is a plain `int()`.
   */
  function ParseSize(sizeStr: string): (r: Result<int>)
    ensures r.Err? ==> r.error == ValueError
  {
    var s := Upper(sizeStr);
    if EndsWith(s, "KB") then Scaled(ParseInt(s[..|s| - 2]), KB)
    else if EndsWith(s, "MB") then Scaled(ParseInt(s[..|s| - 2]), MB)
    else if EndsWith(s, "GB") then Scaled(ParseInt(s[..|s| - 2]), GB)
    else ParseInt(s)
  }

  /** Upper-casing leaves a string without lower-case letters alone. */
  lemma UpperNoLetters(s: string)
    requires forall i :: 0 <= i < |s| ==> !('a' <= s[i] <= 'z')
    ensures Upper(s) == s
  {
  }

  lemma NumberIsUpper(n: int)
    ensures Upper(IntToString(n)) == IntToString(n)
  {
    var s := IntToString(n);
    var d := NatToString(if n < 0 then -n else n);
    assert forall i :: 0 <= i < |d| ==> IsDigit(d[i]);
    if n < 0 {
      assert s == "-" + d;
      assert forall i :: 1 <= i < |s| ==> s[i] == d[i - 1];
    }
    UpperNoLetters(s);
  }

  /** Cutting a two-character suffix off an upper-cased string. */
  lemma UpperWithSuffix(digits: string, suffix: string)
    requires |suffix| == 2
    ensures var s := Upper(digits + suffix);
      |s| >= 2 && s[..|s| - 2] == Upper(digits) && s[|s| - 2..] == Upper(suffix)
  {
    UpperAppend(digits, suffix);
    var u := Upper(digits);
    var v := Upper(suffix);
    assert (u + v)[..|u + v| - 2] == u;
    assert (u + v)[|u + v| - 2..] == v;
  }

  /** With a suffix that upper-cases to KB, MB or GB, the text before it is parsed and scaled. */
  lemma SuffixedParse(digits: string, suffix: string)
    requires |suffix| == 2
    ensures Upper(suffix) == "KB" ==> ParseSize(digits + suffix) == Scaled(ParseInt(Upper(digits)), KB)
    ensures Upper(suffix) == "MB" ==> ParseSize(digits + suffix) == Scaled(ParseInt(Upper(digits)), MB)
    ensures Upper(suffix) == "GB" ==> ParseSize(digits + suffix) == Scaled(ParseInt(Upper(digits)), GB)
  {
    UpperWithSuffix(digits, suffix);
    assert "KB"[0] != "MB"[0] && "KB"[0] != "GB"[0] && "MB"[0] != "GB"[0];
  }

  /** "nKB", in any case, is n·1024 bytes. */
  lemma KilobytesParse(n: int, suffix: string)
    requires |suffix| == 2 && Upper(suffix) == "KB"
    ensures ParseSize(IntToString(n) + suffix) == Ok(n * KB)
  {
    SuffixedParse(IntToString(n), suffix);
    NumberIsUpper(n);
    IntToStringRoundTrip(n);
  }

  /** "nMB" is n·1024² bytes and "nGB" n·1024³, in any case. */
  lemma MegaAndGigabytesParse(n: int, suffix: string)
    requires |suffix| == 2 && (Upper(suffix) == "MB" || Upper(suffix) == "GB")
    ensures Upper(suffix) == "MB" ==> ParseSize(IntToString(n) + suffix) == Ok(n * MB)
    ensures Upper(suffix) == "GB" ==> ParseSize(IntToString(n) + suffix) == Ok(n * GB)
  {
    SuffixedParse(IntToString(n), suffix);
    NumberIsUpper(n);
    IntToStringRoundTrip(n);
  }

  /** For the same text before the suffix, "MB" is 1024 times "KB", and both fail together. */
  lemma MegabyteIsKilobytes(digits: string)
    ensures ParseSize(digits + "MB").Ok? <==> ParseSize(digits + "KB").Ok?
    ensures ParseSize(digits + "MB").Ok? ==> ParseSize(digits + "MB").value == 1024 * ParseSize(digits + "KB").value
  {
    assert Upper("MB") == "MB" && Upper("KB") == "KB";
    SuffixedParse(digits, "MB");
    SuffixedParse(digits, "KB");
  }

  /** A string ending in a digit has no suffix and is parsed whole. */
  lemma DigitEndParse(s: string)
    requires s != [] && IsDigit(s[|s| - 1])
    ensures ParseSize(s) == ParseInt(Upper(s))
  {
    var u := Upper(s);
    assert u[|u| - 1] == s[|s| - 1];
    if |u| >= 2 {
      assert u[|u| - 2..][1] == u[|u| - 1];
    }
  }

  /** A number with no suffix is the number. */
  lemma PlainParse(n: int)
    ensures ParseSize(IntToString(n)) == Ok(n)
  {
    var s := IntToString(n);
    var d := NatToString(if n < 0 then -n else n);
    assert s[|s| - 1] == d[|d| - 1];
    DigitEndParse(s);
    NumberIsUpper(n);
    IntToStringRoundTrip(n);
  }

  /** A suffix with nothing before it is a ValueError. */
  lemma BareSuffixFails()
    ensures ParseSize("MB") == Err(ValueError)
  {
    UpperNoLetters("MB");
    assert EndsWith("MB", "MB") && !EndsWith("MB", "KB");
    assert "MB"[..0] == "";
    assert Strip("") == "";
    assert ParseInt("") == Err(ValueError);
  }

  /** A "B" with no K, M or G before it is not a suffix, and the rest is no number: a ValueError. */
  lemma ByteSuffixFails()
    ensures ParseSize("10B") == Err(ValueError)
  {
    UpperNoLetters("10B");
    assert "10B"[1..] == "0B";
    assert !EndsWith("10B", "KB") && !EndsWith("10B", "MB") && !EndsWith("10B", "GB");
    StripNoSpaceEnds("10B");
    assert !IsDigit('B') && "10B"[0] != '-' && "10B"[0] != '+';
    assert !WellFormedDigits("10B");
  }
}
