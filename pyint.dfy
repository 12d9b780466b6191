/**
 * The two conversions between a stock count and the text of its table cell:
 * Python's `str(n)` for an `int` (also what an f-string prints), and
 * Python's `int(s)` for a string in base 10.
 */
module PyInt {
  import opened Wrappers
  import opened PyText

  predicate IsDigit(c: char) {
    '0' <= c <= '9'
  }

  function DigitChar(d: nat): (c: char)
    requires d < 10
    ensures IsDigit(c) && c as int - '0' as int == d
  {
    ('0' as int + d) as char
  }

  /**
   * The digit part `int()` accepts: decimal digits, where a single underscore
   * may separate two digits (`1_000`), but no leading, trailing or doubled one.
   */
  predicate IsDigitGroup(b: string) {
    && |b| > 0 && IsDigit(b[|b| - 1])
    && (|b| == 1 || IsDigitGroup(if b[|b| - 2] == '_' then b[..|b| - 2] else b[..|b| - 1]))
  }

  /**
   * The shape of a digit group written out position by position: non-empty,
   * only digits and underscores, a digit at either end, and no two
   * underscores side by side.
   */
  predicate DigitGroupShape(b: string) {
    && |b| > 0 && IsDigit(b[0]) && IsDigit(b[|b| - 1])
    && (forall k :: 0 <= k < |b| ==> IsDigit(b[k]) || b[k] == '_')
    && (forall k :: 0 < k < |b| ==> b[k - 1] != '_' || b[k] != '_')
  }

  /** The recursive grammar of digit groups accepts exactly the texts of that shape. */
  lemma {:induction false} DigitGroupHasShape(b: string)
    ensures IsDigitGroup(b) <==> DigitGroupShape(b)
  {
    var n := |b|;
    if n > 1 {
      var p := if b[n - 2] == '_' then b[..n - 2] else b[..n - 1];
      DigitGroupHasShape(p);
      if DigitGroupShape(b) {
        assert b[n - 2] == '_' ==> n > 2 && b[n - 3] != '_';
        assert DigitGroupShape(p);
      }
      if IsDigitGroup(b) {
        assert p[0] == b[0];
        assert forall k :: 0 <= k < |p| ==> p[k] == b[k];
      }
    }
  }

  /** The value of a digit group, underscores skipped; leading zeros are allowed, as `int()` allows them. */
  function GroupValue(b: string): nat {
    if b == [] then 0
    else
      var last := b[|b| - 1];
      if IsDigit(last) then GroupValue(b[..|b| - 1]) * 10 + (last as int - '0' as int)
      else GroupValue(b[..|b| - 1])
  }

  /** `str(n)` for `n >= 0`: decimal digits, most significant first, no leading zero. */
  function ShowNat(n: nat): (s: string)
    ensures IsDigitGroup(s) && IsDigit(s[0]) && GroupValue(s) == n
    ensures s[0] == '0' ==> n == 0
    ensures forall k :: 0 <= k < |s| ==> IsDigit(s[k])
  {
    if n < 10 then [DigitChar(n)]
    else
      var s := ShowNat(n / 10) + [DigitChar(n % 10)];
      assert s[..|s| - 1] == ShowNat(n / 10);
      s
  }

  /** `str(n)`: a minus sign for negative values, then the digits of `|n|`. */
  function Show(n: int): (s: string)
    ensures |s| > 0 && !IsSpace(s[0]) && !IsSpace(s[|s| - 1])
  {
    if n < 0 then "-" + ShowNat(-n) else ShowNat(n)
  }

  /** `int()` on text whose surrounding whitespace is already gone: an optional sign, then digits. */
  function ParseTrimmed(t: string): (r: Option<int>)
    ensures r.Some? ==> |t| > 0 && (IsDigit(t[0]) || t[0] == '+' || t[0] == '-') && IsDigit(t[|t| - 1])
    ensures r.Some? && r.value < 0 ==> t[0] == '-'
    ensures r.Some? && |t| > 0 && t[0] != '-' ==> r.value >= 0
  {
    var negative := |t| > 0 && t[0] == '-';
    var body := if |t| > 0 && (t[0] == '-' || t[0] == '+') then t[1..] else t;
    if IsDigitGroup(body) then
      DigitGroupHasShape(body);
      var v: int := GroupValue(body);
      Some(if negative then -v else v)
    else
      None
  }

  /**
   * `int(s)`: `None` where Python raises `ValueError`. Surrounding whitespace
   * (in the sense of `IsIntSpace`) is ignored, one `+` or `-` sign may precede
   * the digits.
   */
  function Parse(s: string): (r: Option<int>)
    ensures AllSpace(s, IntSpace) ==> r == None
  {
    ParseTrimmed(Strip(s, IntSpace))
  }

  /** `int(str(n)) == n`: the stock survives its trip through the table cell and the data file. */
  lemma ParseShow(n: int)
    ensures Parse(Show(n)) == Some(n)
  {
    StripUnpadded(Show(n), IntSpace);
    ParseTrimmedShow(n);
  }

  /** `str(n)` is already stripped; its sign and digits read back as `n`. */
  lemma ParseTrimmedShow(n: int)
    ensures ParseTrimmed(Show(n)) == Some(n)
  {
    if n < 0 {
      assert Show(n)[1..] == ShowNat(-n);
    }
  }

  /** Distinct stock values have distinct cell texts. */
  lemma ShowInjective(m: int, n: int)
    requires Show(m) == Show(n)
    ensures m == n
  {
    ParseShow(m);
    ParseShow(n);
  }

  /** Blank text is not an integer. */
  lemma ParseRejectsBlank()
    ensures Parse("") == None && Parse(" \t") == None
  {
  }

  /** An underscore must sit between two digits. */
  lemma ParseRejectsStrayUnderscore()
    ensures ParseTrimmed("1__0") == None && ParseTrimmed("_1") == None && ParseTrimmed("1_") == None
  {
  }

  /** A sign must be followed directly by digits, and nothing may follow them. */
  lemma ParseRejectsStrayCharacter()
    ensures ParseTrimmed("- 5") == None && ParseTrimmed("5a") == None && ParseTrimmed("+") == None
  {
    assert "- 5"[1..] == " 5" && " 5"[..1] == " " && "+"[1..] == "";
  }

  /** A plus or minus sign may precede the digits. */
  lemma ParseSigned()
    ensures ParseTrimmed("+7") == Some(7) && ParseTrimmed("-3") == Some(-3)
  {
    assert "+7"[1..] == "7" && "-3"[1..] == "3";
    assert "7"[..0] == "" && "3"[..0] == "";
  }

  /** Leading zeros are accepted, unlike in a Python literal. */
  lemma ParseLeadingZeros()
    ensures ParseTrimmed("007") == Some(7)
  {
    assert "007"[..2] == "00" && "00"[..1] == "0" && "0"[..0] == "";
  }

  /** A single underscore may separate digits. */
  lemma ParseSeparators()
    ensures ParseTrimmed("1_000") == Some(1000)
  {
    assert "1_000"[..4] == "1_00" && "1_00"[..3] == "1_0" && "1_0"[..2] == "1_";
    assert "1_0"[..1] == "1" && "1_"[..1] == "1" && "1"[..0] == "";
  }

  /** `int()` ignores whitespace around the number. */
  lemma ParseIgnoresPadding(pre: string, s: string, post: string)
    requires AllSpace(pre, IntSpace) && AllSpace(post, IntSpace)
    ensures Parse(pre + s + post) == Parse(s)
  {
    StripPaddedText(pre, s, post, IntSpace);
  }

  /**
   * The information separator U+001C is whitespace to `str.strip()` but not
   * to `int()`: `int("\x1c5")` raises, although `"\x1c5".strip() == "5"`.
   */
  lemma ParseKeepsSeparator()
    ensures IsSpace('\U{1C}') && !IsIntSpace('\U{1C}')
    ensures Parse("\U{1C}5") == None
  {
    assert "\U{1C}5"[..1] == "\U{1C}";
  }
}
