/** String helpers with Python's meaning: `startswith`, the `in` operator on strings, and
    `split('/')[-1]`. Strings are sequences of characters; nothing here folds case. */
module Text {

  /** `s.startswith(prefix)` */
  predicate StartsWith(s: string, prefix: string)
  {
    |prefix| <= |s| && s[..|prefix|] == prefix
  }

  /** `needle in hay` for two Python strings: `needle` occurs somewhere in `hay`. */
  predicate IsSubstring(needle: string, hay: string)
    decreases |hay|
  {
    StartsWith(hay, needle) || (|hay| > 0 && IsSubstring(needle, hay[1..]))
  }

  /** A string is a substring of itself. */
  lemma SubstringOfItself(s: string)
    ensures IsSubstring(s, s)
  {
    assert s[..|s|] == s;
  }

  /** Text after the needle leaves it a substring: extra query parameters appended to a URL
      do not hide the URL. */
  lemma {:induction false} SubstringOfExtension(needle: string, hay: string, extra: string)
    requires IsSubstring(needle, hay)
    ensures IsSubstring(needle, hay + extra)
    decreases |hay|
  {
    if StartsWith(hay, needle) {
      assert (hay + extra)[..|needle|] == hay[..|needle|];
    } else {
      assert (hay + extra)[1..] == hay[1..] + extra;
      SubstringOfExtension(needle, hay[1..], extra);
    }
  }

  /** `s.split('/')[-1]`: the text after the last '/', or all of `s` when it has none. */
  function LastSegment(s: string): string
    decreases |s|
  {
    if s == [] then []
    else if s[|s| - 1] == '/' then []
    else LastSegment(s[..|s| - 1]) + [s[|s| - 1]]
  }

  /** The last segment is a suffix free of '/', and either all of `s` or preceded by '/'. */
  lemma {:induction false} LastSegmentIsLast(s: string)
    ensures var r := LastSegment(s);
            && '/' !in r
            && |r| <= |s| && s[|s| - |r|..] == r
            && (|r| == |s| || s[|s| - |r| - 1] == '/')
    decreases |s|
  {
    if s != [] && s[|s| - 1] != '/' {
      var init := s[..|s| - 1];
      LastSegmentIsLast(init);
      var r := LastSegment(init);
      assert s[|s| - |r| - 1..] == init[|init| - |r|..] + [s[|s| - 1]];
    }
  }

  /** ASCII decimal digit. */
  predicate IsDigit(c: char)
  {
    '0' <= c <= '9'
  }

  /** `[0-9a-f]`: a lower-case hexadecimal digit. */
  predicate IsLowerHexDigit(c: char)
  {
    IsDigit(c) || 'a' <= c <= 'f'
  }

  /** `[0-9a-fA-F]`: a hexadecimal digit in either case. */
  predicate IsHexDigit(c: char)
  {
    IsLowerHexDigit(c) || 'A' <= c <= 'F'
  }

  /** An ASCII letter or digit. */
  predicate IsAlphanumeric(c: char)
  {
    IsDigit(c) || 'a' <= c <= 'z' || 'A' <= c <= 'Z'
  }
}
