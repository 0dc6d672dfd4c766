/**
 * String searches and whitespace stripping shared by the Python worker and
 * the two JavaScript processes. Python's `str.strip()` and JavaScript's
 * `String.prototype.trim()` remove different sets of characters, so each
 * set is written out.
 */
module Text {

  datatype Option<T> = None | Some(value: T)

  /** `pat` occurs in `s` starting at position `i`. */
  predicate OccursAt(s: string, pat: string, i: nat) {
    i + |pat| <= |s| && s[i..i + |pat|] == pat
  }

  /** The first position at or after `from` where `pat` occurs in `s`. */
  function IndexOfFrom(s: string, pat: string, from: nat): (r: Option<nat>)
    requires from <= |s|
    ensures r.Some? ==> from <= r.value && OccursAt(s, pat, r.value)
    ensures r.Some? ==> forall j :: from <= j < r.value ==> !OccursAt(s, pat, j)
    ensures r.None? ==> forall j :: from <= j <= |s| ==> !OccursAt(s, pat, j)
    decreases |s| - from
  {
    if OccursAt(s, pat, from) then Some(from)
    else if from == |s| then None
    else IndexOfFrom(s, pat, from + 1)
  }

  /** JavaScript's `s.indexOf(pat)`, with `None` for its `-1`. */
  function IndexOf(s: string, pat: string): Option<nat>
  {
    IndexOfFrom(s, pat, 0)
  }

  /** JavaScript's `s.includes(pat)`. */
  predicate Includes(s: string, pat: string) {
    IndexOf(s, pat).Some?
  }

  /** The first position of character `c` in `s`. */
  function IndexOfChar(s: string, c: char): (r: Option<nat>)
    ensures r.Some? ==> r.value < |s| && s[r.value] == c
    ensures r.Some? ==> forall j :: 0 <= j < r.value ==> s[j] != c
    ensures r.None? ==> forall j :: 0 <= j < |s| ==> s[j] != c
  {
    if s == [] then None
    else if s[0] == c then Some(0)
    else match IndexOfChar(s[1..], c)
      case None => None
      case Some(i) => Some(i + 1)
  }

  /** JavaScript's `s.lastIndexOf(c)` for a single character, with `None` for `-1`. */
  function LastIndexOf(s: string, c: char): (r: Option<nat>)
    ensures r.Some? ==> r.value < |s| && s[r.value] == c
    ensures r.Some? ==> forall j :: r.value < j < |s| ==> s[j] != c
    ensures r.None? ==> forall j :: 0 <= j < |s| ==> s[j] != c
  {
    if s == [] then None
    else if s[|s| - 1] == c then Some(|s| - 1)
    else LastIndexOf(s[..|s| - 1], c)
  }

  /**
   * Characters Python 3's `str.isspace()` accepts, which `str.strip()` with
   * no argument removes: ASCII tab to carriage return, the four information
   * separators 0x1C-0x1F, space, NEL, and the Unicode space separators and
   * line/paragraph separators.
   */
  predicate IsPySpace(c: char) {
    ('\t' <= c <= '\r') || ('\U{1C}' <= c <= '\U{1F}') || c == ' ' || c == '\U{85}' || c == '\U{A0}'
    || c == '\U{1680}' || ('\U{2000}' <= c <= '\U{200A}') || c == '\U{2028}' || c == '\U{2029}'
    || c == '\U{202F}' || c == '\U{205F}' || c == '\U{3000}'
  }

  /**
   * Characters JavaScript's `trim()` removes: the WhiteSpace and
   * LineTerminator code points of ECMAScript (tab, line feed, vertical tab,
   * form feed, carriage return, space, no-break space, the byte order mark,
   * and the Unicode space separators and line/paragraph separators).
   */
  predicate IsJsSpace(c: char) {
    ('\t' <= c <= '\r') || c == ' ' || c == '\U{A0}' || c == '\U{FEFF}'
    || c == '\U{1680}' || ('\U{2000}' <= c <= '\U{200A}') || c == '\U{2028}' || c == '\U{2029}'
    || c == '\U{202F}' || c == '\U{205F}' || c == '\U{3000}'
  }

  /** The position of the first character at or after `from` that does not satisfy `ws`, or `|s|`. */
  function SkipForward(s: string, ws: char -> bool, from: nat): (n: nat)
    requires from <= |s|
    ensures from <= n <= |s|
    ensures forall i :: from <= i < n ==> ws(s[i])
    ensures n < |s| ==> !ws(s[n])
    decreases |s| - from
  {
    if from < |s| && ws(s[from]) then SkipForward(s, ws, from + 1) else from
  }

  /** The position just after the last character before `to` that does not satisfy `ws`, or 0. */
  function SkipBackward(s: string, ws: char -> bool, to: nat): (n: nat)
    requires to <= |s|
    ensures n <= to
    ensures forall i :: n <= i < to ==> ws(s[i])
    ensures 0 < n ==> !ws(s[n - 1])
  {
    if 0 < to && ws(s[to - 1]) then SkipBackward(s, ws, to - 1) else to
  }

  /** Removes the leading characters of `s` that satisfy `ws`. */
  function StripStart(s: string, ws: char -> bool): (r: string)
    ensures |r| <= |s| && r == s[|s| - |r|..]
    ensures forall i :: 0 <= i < |s| - |r| ==> ws(s[i])
    ensures r != [] ==> !ws(r[0])
  {
    s[SkipForward(s, ws, 0)..]
  }

  /** Removes the trailing characters of `s` that satisfy `ws`. */
  function StripEnd(s: string, ws: char -> bool): (r: string)
    ensures |r| <= |s| && r == s[..|r|]
    ensures forall i :: |r| <= i < |s| ==> ws(s[i])
    ensures r != [] ==> !ws(r[|r| - 1])
  {
    s[..SkipBackward(s, ws, |s|)]
  }

  function Strip(s: string, ws: char -> bool): string
  {
    StripEnd(StripStart(s, ws), ws)
  }

  /** Python's `s.strip()`. */
  function PyStrip(s: string): string
  {
    Strip(s, IsPySpace)
  }

  /** JavaScript's `s.trim()`. */
  function JsTrim(s: string): string
  {
    Strip(s, IsJsSpace)
  }

  /** No character at either end of `s` satisfies `ws`. */
  predicate Stripped(s: string, ws: char -> bool) {
    s == [] || (!ws(s[0]) && !ws(s[|s| - 1]))
  }

  /**
   * Stripping keeps a middle slice of `s`, removes only characters
   * satisfying `ws`, and leaves neither end satisfying `ws`.
   */
  lemma StripSlice(s: string, ws: char -> bool)
    ensures var r, a := Strip(s, ws), |s| - |StripStart(s, ws)|;
      a + |r| <= |s| && r == s[a..a + |r|]
      && (forall i :: 0 <= i < a ==> ws(s[i]))
      && (forall i :: a + |r| <= i < |s| ==> ws(s[i]))
    ensures Stripped(Strip(s, ws), ws)
  {
  }

  /** Stripping leaves nothing exactly when every character satisfies `ws`. */
  lemma StripEmpty(s: string, ws: char -> bool)
    ensures Strip(s, ws) == [] <==> forall i :: 0 <= i < |s| ==> ws(s[i])
  {
  }

  /** Characters satisfying `ws` appended to an already stripped string are stripped off again. */
  lemma StripPadded(p: string, suffix: string, ws: char -> bool)
    requires Stripped(p, ws)
    requires forall i :: 0 <= i < |suffix| ==> ws(suffix[i])
    ensures Strip(p + suffix, ws) == p
  {
    var s := p + suffix;
    var t := StripStart(s, ws);
    if p == [] {
      assert s == suffix;
    } else {
      assert s[0] == p[0];
      assert t == s;
      assert StripEnd(s, ws) == s[..|p|];
    }
  }

  /** A string with nothing to strip at either end is its own stripping. */
  lemma StripIdentity(s: string, ws: char -> bool)
    requires Stripped(s, ws)
    ensures Strip(s, ws) == s
  {
  }
}
