/**
 * The pieces of Python's `str` that the modelled code relies on: whitespace
 * stripping, `split`, `startswith`/`endswith`, substring search, ASCII case
 * mapping, `str(int)` and `int(str)`.  Whitespace and case mapping are the ASCII
 * parts of Python's Unicode rules.
 */
module PyStrings {
  import opened Wrappers

  /** The ASCII characters for which Python's `str.isspace()` holds. */
  const Whitespace: set<char> := {
    '\t', '\n', '\U{000B}', '\U{000C}', '\r',
    '\U{001C}', '\U{001D}', '\U{001E}', '\U{001F}', ' '
  }

  predicate IsDigit(c: char) { '0' <= c <= '9' }

  // ---------------------------------------------------------------- stripping

  /** Where `s.lstrip(chars)` starts when the scan begins at `i`: the first index from `i` on outside `chars`. */
  function StripStart(s: string, chars: set<char>, i: nat): (k: nat)
    requires i <= |s|
    ensures i <= k <= |s|
    ensures k == |s| || s[k] !in chars
    decreases |s| - i
  {
    if i < |s| && s[i] in chars then StripStart(s, chars, i + 1) else i
  }

  /** Where `rstrip` ends when it scans back from `j` and must not go below `lo`. */
  function StripEnd(s: string, chars: set<char>, lo: nat, j: nat): (k: nat)
    requires lo <= j <= |s|
    ensures lo <= k <= j
    ensures k == lo || s[k - 1] !in chars
    decreases j
  {
    if j > lo && s[j - 1] in chars then StripEnd(s, chars, lo, j - 1) else j
  }

  /** Everything the left scan passes over is in `chars`. */
  lemma {:induction false} StripStartSkips(s: string, chars: set<char>, i: nat)
    requires i <= |s|
    ensures forall j :: i <= j < StripStart(s, chars, i) ==> s[j] in chars
    decreases |s| - i
  {
    if i < |s| && s[i] in chars {
      StripStartSkips(s, chars, i + 1);
    }
  }

  /** Everything the right scan passes over is in `chars`. */
  lemma {:induction false} StripEndSkips(s: string, chars: set<char>, lo: nat, j: nat)
    requires lo <= j <= |s|
    ensures forall m :: StripEnd(s, chars, lo, j) <= m < j ==> s[m] in chars
    decreases j
  {
    if j > lo && s[j - 1] in chars {
      StripEndSkips(s, chars, lo, j - 1);
    }
  }

  /** `s.lstrip(chars)`: drop the longest prefix made of characters in `chars`. */
  function LStrip(s: string, chars: set<char>): string {
    s[StripStart(s, chars, 0)..]
  }

  /** `s.rstrip(chars)`: drop the longest suffix made of characters in `chars`. */
  function RStrip(s: string, chars: set<char>): string {
    s[..StripEnd(s, chars, 0, |s|)]
  }

  /** `s.strip(chars)`: the slice left after lstrip and then rstrip. */
  function StripChars(s: string, chars: set<char>): (r: string)
    ensures r == [] || (r[0] !in chars && r[|r| - 1] !in chars)
  {
    var k := StripStart(s, chars, 0);
    s[k..StripEnd(s, chars, k, |s|)]
  }

  /** Stripping at both ends is rstrip after lstrip. */
  lemma StripIsRStripOfLStrip(s: string, chars: set<char>)
    ensures StripChars(s, chars) == RStrip(LStrip(s, chars), chars)
  {
    var k := StripStart(s, chars, 0);
    var t := LStrip(s, chars);
    var e := StripEnd(s, chars, k, |s|);
    StripEndShift(s, chars, k, |s|);
    assert StripEnd(t, chars, 0, |t|) == e - k;
  }

  /** Scanning back over a suffix of `s` ends at the same place as scanning `s` down to where the suffix starts. */
  lemma {:induction false} StripEndShift(s: string, chars: set<char>, k: nat, j: nat)
    requires k <= j <= |s|
    ensures StripEnd(s[k..], chars, 0, j - k) == StripEnd(s, chars, k, j) - k
    decreases j
  {
    if j > k && s[j - 1] in chars {
      assert s[k..][j - k - 1] == s[j - 1];
      StripEndShift(s, chars, k, j - 1);
    } else if j > k {
      assert s[k..][j - k - 1] == s[j - 1];
    }
  }

  /** `s.strip()` */
  function Strip(s: string): string {
    StripChars(s, Whitespace)
  }

  /** A string of whitespace only strips to the empty string, and only such a string does. */
  lemma StripEmptyIff(s: string)
    ensures Strip(s) == [] <==> forall i :: 0 <= i < |s| ==> s[i] in Whitespace
  {
    var k := StripStart(s, Whitespace, 0);
    var e := StripEnd(s, Whitespace, k, |s|);
    StripStartSkips(s, Whitespace, 0);
    StripEndSkips(s, Whitespace, k, |s|);
    if Strip(s) == [] {
      assert e == k;
    }
  }

  predicate StartsWith(s: string, prefix: string) {
    |prefix| <= |s| && s[..|prefix|] == prefix
  }

  predicate EndsWith(s: string, suffix: string) {
    |suffix| <= |s| && s[|s| - |suffix|..] == suffix
  }

  /** Python's `needle in hay` for strings. */
  predicate Contains(hay: string, needle: string) {
    exists i :: 0 <= i <= |hay| - |needle| && OccursAt(hay, needle, i)
  }

  predicate OccursAt(hay: string, needle: string, i: int) {
    0 <= i <= |hay| - |needle| && hay[i..i + |needle|] == needle
  }

  // ---------------------------------------------------------------- case mapping

  function UpperChar(c: char): char {
    if 'a' <= c <= 'z' then (c as int - 32) as char else c
  }

  function LowerChar(c: char): char {
    if 'A' <= c <= 'Z' then (c as int + 32) as char else c
  }

  function Upper(s: string): (r: string)
    ensures |r| == |s|
  {
    seq(|s|, i requires 0 <= i < |s| => UpperChar(s[i]))
  }

  function Lower(s: string): (r: string)
    ensures |r| == |s|
  {
    seq(|s|, i requires 0 <= i < |s| => LowerChar(s[i]))
  }

  lemma UpperAppend(a: string, b: string)
    ensures Upper(a + b) == Upper(a) + Upper(b)
  {
  }

  // ---------------------------------------------------------------- splitting

  /** The pieces joined back with `sep` between them. */
  function Join(pieces: seq<string>, sep: char): string
    decreases |pieces|
  {
    if pieces == [] then ""
    else if |pieces| == 1 then pieces[0]
    else pieces[0] + [sep] + Join(pieces[1..], sep)
  }

  /** `sep.join(pieces)` for a separator of any length. */
  function JoinWith(pieces: seq<string>, sep: string): string
    decreases |pieces|
  {
    if pieces == [] then ""
    else if |pieces| == 1 then pieces[0]
    else pieces[0] + sep + JoinWith(pieces[1..], sep)
  }

  function CountChar(s: string, c: char): nat
    decreases |s|
  {
    if s == [] then 0 else (if s[0] == c then 1 else 0) + CountChar(s[1..], c)
  }

  /** `s.split(sep)` for a one-character separator. */
  function Split(s: string, sep: char): (r: seq<string>)
    ensures |r| == CountChar(s, sep) + 1
    ensures forall i :: 0 <= i < |r| ==> sep !in r[i]
    decreases |s|
  {
    if s == [] then [""]
    else
      var rest := Split(s[1..], sep);
      if s[0] == sep then [""] + rest else [[s[0]] + rest[0]] + rest[1..]
  }

  /** Joining the pieces of a split gives back the original string. */
  lemma {:induction false} SplitJoin(s: string, sep: char)
    ensures Join(Split(s, sep), sep) == s
    decreases |s|
  {
    if s != [] {
      var rest := Split(s[1..], sep);
      SplitJoin(s[1..], sep);
      if s[0] == sep {
        assert Split(s, sep) == [""] + rest;
        assert Join([""] + rest, sep) == "" + [sep] + Join(rest, sep) by {
          assert ([""] + rest)[1..] == rest;
        }
        assert s == [s[0]] + s[1..];
      } else {
        var first := [s[0]] + rest[0];
        assert Split(s, sep) == [first] + rest[1..];
        if |rest| == 1 {
          assert Join(rest, sep) == rest[0];
        } else {
          assert Join(rest, sep) == rest[0] + [sep] + Join(rest[1..], sep);
          assert ([first] + rest[1..])[1..] == rest[1..];
        }
        assert s == [s[0]] + s[1..];
      }
    }
  }

  /** The longest prefix of `s` with no character of `blanks`. */
  function TakeWord(s: string, blanks: set<char>): (w: string)
    ensures |w| <= |s| && w == s[..|w|]
    ensures forall i :: 0 <= i < |w| ==> w[i] !in blanks
    ensures s != [] && s[0] !in blanks ==> |w| > 0
    decreases |s|
  {
    if s == [] || s[0] in blanks then ""
    else
      var w := TakeWord(s[1..], blanks);
      assert s[1..][..|w|] == s[1..|w| + 1];
      [s[0]] + w
  }

  /** The maximal runs of characters outside `blanks`, in order. */
  function SplitOn(s: string, blanks: set<char>): seq<string>
    decreases |s|
  {
    var t := LStrip(s, blanks);
    if t == [] then []
    else
      var w := TakeWord(t, blanks);
      [w] + SplitOn(t[|w|..], blanks)
  }

  /** `s.split()` with no argument: the maximal runs of non-whitespace. */
  function Words(s: string): seq<string> {
    SplitOn(s, Whitespace)
  }

  lemma ConsIndex<T>(x: T, s: seq<T>, i: nat)
    requires 0 < i <= |s|
    ensures ([x] + s)[i] == s[i - 1]
  {
  }

  /** A word: non-empty, and no character of `blanks` in it. */
  predicate IsWord(w: string, blanks: set<char>) {
    |w| > 0 && forall j :: 0 <= j < |w| ==> w[j] !in blanks
  }

  /** Every piece is non-empty and holds no character of `blanks`. */
  lemma {:induction false} SplitOnWords(s: string, blanks: set<char>)
    ensures forall i :: 0 <= i < |SplitOn(s, blanks)| ==> IsWord(SplitOn(s, blanks)[i], blanks)
    decreases |s|
  {
    var t := LStrip(s, blanks);
    if t != [] {
      var w := TakeWord(t, blanks);
      var rest := SplitOn(t[|w|..], blanks);
      SplitOnWords(t[|w|..], blanks);
      var r := SplitOn(s, blanks);
      assert r == [w] + rest;
      forall i | 0 <= i < |r|
        ensures IsWord(r[i], blanks)
      {
        if i == 0 {
          assert r[i] == w;
        } else {
          ConsIndex(w, rest, i);
        }
      }
    }
  }

  /** A string with no non-whitespace character has no words. */
  lemma WordsOfBlank(s: string)
    requires forall i :: 0 <= i < |s| ==> s[i] in Whitespace
    ensures Words(s) == []
  {
  }

  // ---------------------------------------------------------------- integers

  function DigitChar(d: nat): char
    requires d < 10
  {
    ('0' as int + d) as char
  }

  function DigitValue(c: char): nat
    requires IsDigit(c)
  {
    c as int - '0' as int
  }

  /** `str(n)` for a natural number: decimal digits, no leading zero. */
  function NatToString(n: nat): (r: string)
    ensures |r| > 0 && forall i :: 0 <= i < |r| ==> IsDigit(r[i])
    decreases n
  {
    if n < 10 then [DigitChar(n)] else NatToString(n / 10) + [DigitChar(n % 10)]
  }

  /** `str(n)` for any integer. */
  function IntToString(n: int): string {
    if n < 0 then "-" + NatToString(-n) else NatToString(n)
  }

  /** The digits Python's `int()` accepts: digits, single underscores between digits. */
  predicate WellFormedDigits(s: string) {
    && |s| > 0
    && IsDigit(s[0])
    && IsDigit(s[|s| - 1])
    && (forall i :: 0 <= i < |s| ==> IsDigit(s[i]) || s[i] == '_')
    && (forall i :: 0 <= i < |s| - 1 ==> s[i] == '_' ==> s[i + 1] != '_')
  }

  /** The value of a digit string, underscores ignored. */
  function DigitsValue(s: string): nat
    requires forall i :: 0 <= i < |s| ==> IsDigit(s[i]) || s[i] == '_'
    decreases |s|
  {
    if s == [] then 0
    else
      var last := s[|s| - 1];
      if last == '_' then DigitsValue(s[..|s| - 1])
      else DigitsValue(s[..|s| - 1]) * 10 + DigitValue(last)
  }

  function ParseDigits(s: string): Option<nat> {
    if WellFormedDigits(s) then Some(DigitsValue(s)) else None
  }

  /**
   * Python's `int(s)` in base 10: surrounding whitespace, an optional sign, then
   * digits with optional single underscores; anything else raises ValueError.
   */
  function ParseInt(s: string): (r: Result<int>)
    ensures r.Err? ==> r.error == ValueError
  {
    var t := Strip(s);
    var signed := |t| > 0 && (t[0] == '-' || t[0] == '+');
    var body := if signed then t[1..] else t;
    match ParseDigits(body)
    case None => Err(ValueError)
    case Some(n) =>
      var v: int := n;
      Ok(if signed && t[0] == '-' then -v else v)
  }

  lemma {:induction false} NatToStringValue(n: nat)
    ensures WellFormedDigits(NatToString(n))
    ensures DigitsValue(NatToString(n)) == n
    decreases n
  {
    var s := NatToString(n);
    if n >= 10 {
      NatToStringValue(n / 10);
      var p := NatToString(n / 10);
      assert s == p + [DigitChar(n % 10)];
      assert s[..|s| - 1] == p;
    }
  }

  /** `int(str(n)) == n`: the decimal rendering parses back to the same integer. */
  lemma IntToStringRoundTrip(n: int)
    ensures ParseInt(IntToString(n)) == Ok(n)
  {
    var s := IntToString(n);
    var digits := NatToString(if n < 0 then -n else n);
    NatToStringValue(if n < 0 then -n else n);
    assert Strip(s) == s by {
      StripNoSpaceEnds(s);
    }
    if n < 0 {
      assert s[1..] == digits;
    } else {
      assert !IsDigit('-') && !IsDigit('+');
      assert digits[0] != '-' && digits[0] != '+';
    }
  }

  lemma StripNoSpaceEnds(s: string)
    requires s != [] ==> s[0] !in Whitespace && s[|s| - 1] !in Whitespace
    ensures Strip(s) == s
  {
  }

  // ---------------------------------------------------------------- comma lists

  /** The stripped pieces, in order, the ones that strip to nothing left out. */
  function NonBlank(pieces: seq<string>): (r: seq<string>)
    ensures |r| <= |pieces|
    decreases |pieces|
  {
    if pieces == [] then []
    else
      var rest := NonBlank(pieces[1..]);
      if Strip(pieces[0]) != "" then [Strip(pieces[0])] + rest else rest
  }

  /** `[p.strip() for p in s.split(sep) if p.strip()]` */
  function StrippedPieces(s: string, sep: char): seq<string> {
    NonBlank(Split(s, sep))
  }

  /** Every character of a split piece is a character of the split string. */
  lemma {:induction false} SplitPieceChars(s: string, sep: char, i: nat, c: char)
    requires i < |Split(s, sep)| && c in Split(s, sep)[i]
    ensures c in s
    decreases |s|
  {
    if s != [] {
      var rest := Split(s[1..], sep);
      if s[0] == sep {
        if i > 0 {
          assert Split(s, sep)[i] == rest[i - 1];
          SplitPieceChars(s[1..], sep, i - 1, c);
        }
      } else if i == 0 {
        assert Split(s, sep)[0] == [s[0]] + rest[0];
        if c != s[0] {
          SplitPieceChars(s[1..], sep, 0, c);
        }
      } else {
        assert Split(s, sep)[i] == rest[i];
        SplitPieceChars(s[1..], sep, i, c);
      }
    }
  }

  /** Stripping keeps a contiguous part of the string. */
  lemma StripSlice(s: string)
    ensures exists a, b :: 0 <= a <= b <= |s| && Strip(s) == s[a..b]
  {
    var k := StripStart(s, Whitespace, 0);
    var e := StripEnd(s, Whitespace, k, |s|);
    assert Strip(s) == s[k..e];
  }

  /** Whatever is kept of a list of pieces is one of them, stripped, and not empty. */
  lemma {:induction false} NonBlankPieces(pieces: seq<string>, i: nat) returns (j: nat)
    requires i < |NonBlank(pieces)|
    ensures NonBlank(pieces)[i] != []
    ensures j < |pieces| && NonBlank(pieces)[i] == Strip(pieces[j])
    decreases |pieces|
  {
    var rest := NonBlank(pieces[1..]);
    if Strip(pieces[0]) != "" {
      if i > 0 {
        assert NonBlank(pieces)[i] == rest[i - 1];
        var k := NonBlankPieces(pieces[1..], i - 1);
        assert pieces[1..][k] == pieces[k + 1];
        j := k + 1;
      } else {
        assert NonBlank(pieces)[0] == Strip(pieces[0]);
        j := 0;
      }
    } else {
      var k := NonBlankPieces(pieces[1..], i);
      assert pieces[1..][k] == pieces[k + 1];
      j := k + 1;
    }
  }

  /** Stripping a string adds no character to it. */
  lemma StripAvoids(s: string, c: char)
    requires c !in s
    ensures c !in Strip(s)
  {
    var k := StripStart(s, Whitespace, 0);
    var e := StripEnd(s, Whitespace, k, |s|);
    assert Strip(s) == s[k..e];
    assert forall m :: 0 <= m < e - k ==> s[k..e][m] == s[k + m];
  }

  lemma StrippedPiecesShape(s: string, sep: char)
    ensures |StrippedPieces(s, sep)| <= CountChar(s, sep) + 1
    ensures forall i :: 0 <= i < |StrippedPieces(s, sep)| ==> var p := StrippedPieces(s, sep)[i];
      && p != [] && p[0] !in Whitespace && p[|p| - 1] !in Whitespace && sep !in p
  {
    var pieces := Split(s, sep);
    forall i | 0 <= i < |NonBlank(pieces)|
      ensures var p := NonBlank(pieces)[i]; p != [] && p[0] !in Whitespace && p[|p| - 1] !in Whitespace && sep !in p
    {
      NonBlankShape(pieces, sep, i);
    }
  }

  /** A kept piece of pieces free of `sep` is free of it too, and opens and closes with no whitespace. */
  lemma NonBlankShape(pieces: seq<string>, sep: char, i: nat)
    requires forall k :: 0 <= k < |pieces| ==> sep !in pieces[k]
    requires i < |NonBlank(pieces)|
    ensures var p := NonBlank(pieces)[i]; p != [] && p[0] !in Whitespace && p[|p| - 1] !in Whitespace && sep !in p
  {
    var j := NonBlankPieces(pieces, i);
    StripAvoids(pieces[j], sep);
    var p := StripChars(pieces[j], Whitespace);
    assert p != [] && p[0] !in Whitespace && p[|p| - 1] !in Whitespace;
  }

  lemma {:induction false} NonBlankOfBlanks(pieces: seq<string>)
    requires forall j :: 0 <= j < |pieces| ==> Strip(pieces[j]) == ""
    ensures NonBlank(pieces) == []
    decreases |pieces|
  {
    if pieces != [] {
      assert forall j :: 0 <= j < |pieces[1..]| ==> pieces[1..][j] == pieces[j + 1];
      NonBlankOfBlanks(pieces[1..]);
    }
  }

  /** A list made only of separators and whitespace has no pieces. */
  lemma BlankStrippedPieces(s: string, sep: char)
    requires forall i :: 0 <= i < |s| ==> s[i] in Whitespace || s[i] == sep
    ensures StrippedPieces(s, sep) == []
  {
    var pieces := Split(s, sep);
    forall j | 0 <= j < |pieces|
      ensures Strip(pieces[j]) == ""
    {
      forall k | 0 <= k < |pieces[j]|
        ensures pieces[j][k] in Whitespace
      {
        SplitPieceChars(s, sep, j, pieces[j][k]);
      }
      StripEmptyIff(pieces[j]);
    }
    NonBlankOfBlanks(pieces);
  }
}
