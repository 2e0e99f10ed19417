/** The two notions of "blank" text the application relies on: the
    backend's `string.IsNullOrWhiteSpace` (.NET `char.IsWhiteSpace`) and the
    frontend's `String.prototype.trim` (ECMAScript WhiteSpace and
    LineTerminator code points). The two sets differ in U+0085 and U+FEFF. */
module Text {
  import opened Wrappers

  /** `char.IsWhiteSpace` in .NET: U+0009..U+000D, U+0085 and the Unicode
      space, line and paragraph separators. */
  predicate IsClrWhiteSpace(c: char) {
    || ('\t' <= c <= '\r')
    || c == ' '
    || c == '\U{0085}'
    || c == '\U{00A0}'
    || c == '\U{1680}'
    || ('\U{2000}' <= c <= '\U{200A}')
    || c == '\U{2028}'
    || c == '\U{2029}'
    || c == '\U{202F}'
    || c == '\U{205F}'
    || c == '\U{3000}'
  }

  /** Every character is white space in the .NET sense; the loop of
      `IsNullOrWhiteSpace`, one character at a time. */
  predicate AllClrWhiteSpace(v: string): (r: bool)
    ensures r <==> forall i :: 0 <= i < |v| ==> IsClrWhiteSpace(v[i])
  {
    v == [] || (IsClrWhiteSpace(v[0]) && AllClrWhiteSpace(v[1..]))
  }

  /** `string.IsNullOrWhiteSpace`: null, empty, or only white-space characters. */
  predicate IsNullOrWhiteSpace(s: Option<string>): (r: bool)
    ensures r <==> s.None? || forall i :: 0 <= i < |s.value| ==> IsClrWhiteSpace(s.value[i])
    ensures s == Some("") ==> r
  {
    match s
    case None => true
    case Some(v) => AllClrWhiteSpace(v)
  }

  /** The code points `trim` strips in JavaScript: WhiteSpace (TAB, VT, FF,
      SP, NBSP, ZWNBSP and the Zs category) and LineTerminator (LF, CR, LS, PS). */
  predicate IsJsWhiteSpace(c: char) {
    || c == '\t'
    || c == '\n'
    || c == '\U{000B}'
    || c == '\U{000C}'
    || c == '\r'
    || c == ' '
    || c == '\U{00A0}'
    || c == '\U{1680}'
    || ('\U{2000}' <= c <= '\U{200A}')
    || c == '\U{2028}'
    || c == '\U{2029}'
    || c == '\U{202F}'
    || c == '\U{205F}'
    || c == '\U{3000}'
    || c == '\U{FEFF}'
  }

  predicate AllJsWhiteSpace(s: string) {
    forall i :: 0 <= i < |s| ==> IsJsWhiteSpace(s[i])
  }

  /** Drops leading white space: the result is the longest suffix of `s`
      that does not start with white space. */
  function TrimStart(s: string): (r: string)
    ensures |r| <= |s| && r == s[|s| - |r|..]
    ensures r == [] || !IsJsWhiteSpace(r[0])
    ensures AllJsWhiteSpace(s[..|s| - |r|])
  {
    if s != [] && IsJsWhiteSpace(s[0]) then TrimStart(s[1..]) else s
  }

  /** Drops trailing white space: the result is the longest prefix of `s`
      that does not end with white space. */
  function TrimEnd(s: string): (r: string)
    ensures |r| <= |s| && r == s[..|r|]
    ensures r == [] || !IsJsWhiteSpace(r[|r| - 1])
    ensures AllJsWhiteSpace(s[|r|..])
  {
    if s != [] && IsJsWhiteSpace(s[|s| - 1]) then TrimEnd(s[..|s| - 1]) else s
  }

  /** `s.trim()`: empty exactly when `s` is all white space, and otherwise
      neither starting nor ending with white space. */
  function Trim(s: string): (r: string)
    ensures |r| <= |s|
    ensures r == [] <==> AllJsWhiteSpace(s)
    ensures r != [] ==> !IsJsWhiteSpace(r[0]) && !IsJsWhiteSpace(r[|r| - 1])
  {
    var t := TrimStart(s);
    assert s == s[..|s| - |t|] + t;
    assert AllJsWhiteSpace(t[0..]) ==> AllJsWhiteSpace(s);
    TrimEnd(t)
  }

  /** Trimming keeps the non-blank core unchanged: trim is idempotent. */
  lemma TrimIdempotent(s: string)
    ensures Trim(Trim(s)) == Trim(s)
  {
    var t := Trim(s);
    if t != [] {
      assert TrimStart(t) == t;
    }
  }

  /** The two notions of blank disagree on two characters: a name made of
      U+0085 survives the browser's trim but is blank to the server, and
      one made of U+FEFF is the other way round. */
  lemma BlankDiffers()
    ensures Trim("\U{0085}") != [] && IsNullOrWhiteSpace(Some("\U{0085}"))
    ensures Trim("\U{FEFF}") == [] && !IsNullOrWhiteSpace(Some("\U{FEFF}"))
  {
    assert !IsJsWhiteSpace("\U{0085}"[0]);
    assert !IsClrWhiteSpace("\U{FEFF}"[0]);
  }
}
