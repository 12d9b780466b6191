/**
 * Python's `str.strip()` with no argument, and the whitespace trimming `int()`
 * does around a number. The two drop different sets of characters, so every
 * operation here takes the set as a `Whitespace` value: `Strip(s, StrSpace)` is
 * `s.strip()`, which `submit_item` applies to the three input fields, and
 * `Strip(s, IntSpace)` is what `int()` ignores around the digits.
 */
module PyText {

  /** The characters Python 3 classifies as whitespace (`str.isspace()`). */
  predicate IsSpace(c: char) {
    || c == ' '
    || ('\t' <= c <= '\r')                 // \t \n \v \f \r
    || ('\U{1C}' <= c <= '\U{1F}')         // file, group, record and unit separators
    || c == '\U{85}' || c == '\U{A0}' || c == '\U{1680}'
    || ('\U{2000}' <= c <= '\U{200A}')
    || c == '\U{2028}' || c == '\U{2029}' || c == '\U{202F}' || c == '\U{205F}'
    || c == '\U{3000}'
  }

  /**
   * The characters `int()` skips around a number. CPython first turns every
   * non-ASCII whitespace character into a space, and then skips only ASCII
   * whitespace (space, tab, LF, VT, FF, CR). So, unlike `str.strip()`, it
   * keeps the separators U+001C..U+001F.
   */
  predicate IsIntSpace(c: char) {
    c == ' ' || ('\t' <= c <= '\r') || (c as int >= 127 && IsSpace(c))
  }

  /** The set of characters a trim drops: `str.isspace()`'s, or the narrower one of `int()`. */
  datatype Whitespace = StrSpace | IntSpace

  predicate IsWhite(c: char, ws: Whitespace) {
    match ws
    case StrSpace => IsSpace(c)
    case IntSpace => IsIntSpace(c)
  }

  /** Every character of `s` is whitespace of the set `ws`. */
  predicate AllSpace(s: string, ws: Whitespace) {
    forall k :: 0 <= k < |s| ==> IsWhite(s[k], ws)
  }

  /** `s.lstrip()` (for `StrSpace`): the suffix of `s` left after dropping its leading whitespace. */
  function TrimStart(s: string, ws: Whitespace): (r: string)
    ensures |r| <= |s| && r == s[|s| - |r|..]
    ensures forall k :: 0 <= k < |s| - |r| ==> IsWhite(s[k], ws)
    ensures r == [] || !IsWhite(r[0], ws)
  {
    if |s| > 0 && IsWhite(s[0], ws) then TrimStart(s[1..], ws) else s
  }

  /** `s.rstrip()` (for `StrSpace`): the prefix of `s` left after dropping its trailing whitespace. */
  function TrimEnd(s: string, ws: Whitespace): (r: string)
    ensures |r| <= |s| && r == s[..|r|]
    ensures forall k :: |r| <= k < |s| ==> IsWhite(s[k], ws)
    ensures r == [] || !IsWhite(r[|r| - 1], ws)
  {
    if |s| > 0 && IsWhite(s[|s| - 1], ws) then TrimEnd(s[..|s| - 1], ws) else s
  }

  /**
   * `s.strip()` (for `StrSpace`). The result starts and ends with a non-space character, and
   * it is empty exactly when `s` consists of whitespace only (the test
   * `submit_item` applies to each input field).
   */
  function Strip(s: string, ws: Whitespace): (r: string)
    ensures |r| <= |s|
    ensures r == [] || (!IsWhite(r[0], ws) && !IsWhite(r[|r| - 1], ws))
    ensures r == [] <==> AllSpace(s, ws)
  {
    TrimEnd(TrimStart(s, ws), ws)
  }

  /** Stripping text that neither starts nor ends with whitespace changes nothing. */
  lemma StripUnpadded(s: string, ws: Whitespace)
    requires s == [] || (!IsWhite(s[0], ws) && !IsWhite(s[|s| - 1], ws))
    ensures Strip(s, ws) == s
  {
  }

  /** `s.strip().strip() == s.strip()`. */
  lemma StripIdempotent(s: string, ws: Whitespace)
    ensures Strip(Strip(s, ws), ws) == Strip(s, ws)
  {
    StripUnpadded(Strip(s, ws), ws);
  }

  lemma {:induction false} TrimStartPadded(pre: string, s: string, ws: Whitespace)
    requires AllSpace(pre, ws)
    ensures TrimStart(pre + s, ws) == TrimStart(s, ws)
  {
    if pre == [] {
      assert pre + s == s;
    } else {
      assert (pre + s)[0] == pre[0] && (pre + s)[1..] == pre[1..] + s;
      TrimStartPadded(pre[1..], s, ws);
    }
  }

  lemma {:induction false} TrimEndPadded(s: string, post: string, ws: Whitespace)
    requires AllSpace(post, ws)
    ensures TrimEnd(s + post, ws) == TrimEnd(s, ws)
  {
    if post == [] {
      assert s + post == s;
    } else {
      var shorter := post[..|post| - 1];
      assert (s + post)[|s + post| - 1] == post[|post| - 1];
      assert (s + post)[..|s + post| - 1] == s + shorter;
      TrimEndPadded(s, shorter, ws);
    }
  }

  /** Text that is not blank keeps its trailing part when its leading whitespace is dropped. */
  lemma {:induction false} TrimStartAppend(s: string, post: string, ws: Whitespace)
    requires !AllSpace(s, ws)
    ensures TrimStart(s + post, ws) == TrimStart(s, ws) + post
  {
    if IsWhite(s[0], ws) {
      assert (s + post)[1..] == s[1..] + post;
      TrimStartAppend(s[1..], post, ws);
    }
  }

  /** Whitespace added on either side of a text is removed again by `strip()`. */
  lemma StripPaddedText(pre: string, s: string, post: string, ws: Whitespace)
    requires AllSpace(pre, ws) && AllSpace(post, ws)
    ensures Strip(pre + s + post, ws) == Strip(s, ws)
  {
    assert pre + s + post == pre + (s + post);
    TrimStartPadded(pre, s + post, ws);
    if AllSpace(s, ws) {
      assert AllSpace(pre + s + post, ws);
    } else {
      TrimStartAppend(s, post, ws);
      TrimEndPadded(TrimStart(s, ws), post, ws);
    }
  }
}
