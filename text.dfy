/**
 * Java strings as Dafny character sequences, and the few string helpers the schema
 * loader relies on: rendering a possibly-null string, Spring's `StringUtils.hasText`,
 * and `Collectors.joining(separator)`.
 */
module Text {
  import opened Wrappers

  type Str = seq<char>

  /** What `String.format("%s", s)` and `"..." + s` produce for a String that may be null. */
  function JavaText(s: Option<Str>): Str {
    if s.Some? then s.value else "null"
  }

  /** `Character.isWhitespace`: the Unicode space, line and paragraph separators other than the
      non-breaking ones (U+00A0, U+2007, U+202F), plus the ASCII controls TAB..CR and FS..US. */
  predicate IsWhitespace(c: char) {
    || ('\t' <= c <= '\r')                   // U+0009 .. U+000D
    || ('\U{1C}' <= c <= ' ')                // U+001C .. U+0020
    || c == '\U{1680}'
    || ('\U{2000}' <= c <= '\U{2006}')
    || ('\U{2008}' <= c <= '\U{200A}')
    || c == '\U{2028}' || c == '\U{2029}'
    || c == '\U{205F}' || c == '\U{3000}'
  }

  /** Spring's `StringUtils.hasText`: not null, not empty, and some character is not whitespace. */
  predicate HasText(s: Option<Str>) {
    s.Some? && |s.value| > 0 && exists i :: 0 <= i < |s.value| && !IsWhitespace(s.value[i])
  }

  /** `Collectors.joining(sep)`: the parts in order with `sep` between neighbours. */
  function Join(sep: Str, parts: seq<Str>): Str
    decreases |parts|
  {
    if |parts| == 0 then ""
    else if |parts| == 1 then parts[0]
    else Join(sep, parts[..|parts| - 1]) + sep + parts[|parts| - 1]
  }

  /** Joining two non-empty lists is joining each and putting one separator between them. */
  lemma {:induction false} JoinConcat(sep: Str, xs: seq<Str>, ys: seq<Str>)
    requires xs != [] && ys != []
    ensures Join(sep, xs + ys) == Join(sep, xs) + sep + Join(sep, ys)
    decreases |ys|
  {
    var n := |xs + ys|;
    assert (xs + ys)[n - 1] == ys[|ys| - 1];
    if |ys| == 1 {
      assert (xs + ys)[..n - 1] == xs;
    } else {
      var ys' := ys[..|ys| - 1];
      assert (xs + ys)[..n - 1] == xs + ys';
      JoinConcat(sep, xs, ys');
    }
  }
}
