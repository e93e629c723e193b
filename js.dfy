/**
 * The handful of JavaScript value semantics the dashboard's decision logic
 * leans on: `undefined`/`null` as an absent value, string truthiness,
 * `String.prototype.trim` and the "first letter upper-cased" idiom
 * `s.charAt(0).toUpperCase() + s.slice(1)`.
 */
module Js {

  /** An optional value: `None` stands for `undefined` (or `null` where the
      source's type admits only one of the two). */
  datatype Option<+T> = None | Some(value: T)

  /** JavaScript truthiness of an optional string: `undefined`, `null` and
      the empty string are falsy, every other string is truthy. */
  predicate Truthy(s: Option<string>)
  {
    s.Some? && s.value != ""
  }

  /** `s || "-"`: the string itself when truthy, the dash placeholder otherwise. */
  function OrDash(s: Option<string>): (r: string)
    ensures Truthy(s) ==> r == s.value
    ensures !Truthy(s) ==> r == "-"
    ensures r != ""
  {
    if Truthy(s) then s.value else "-"
  }

  /** The code points `String.prototype.trim` strips: the ECMAScript
      WhiteSpace set (TAB, VT, FF, SP, NBSP, ZWNBSP and the Unicode
      space separators) and the LineTerminator set (LF, CR, LS, PS). */
  predicate IsWhitespace(c: char)
  {
    || c == '\t' || c == '\U{000B}' || c == '\U{000C}' || c == ' '
    || c == '\U{00A0}' || c == '\U{FEFF}' || c == '\U{1680}'
    || ('\U{2000}' <= c <= '\U{200A}')
    || c == '\U{202F}' || c == '\U{205F}' || c == '\U{3000}'
    || c == '\n' || c == '\r' || c == '\U{2028}' || c == '\U{2029}'
  }

  predicate AllWhitespace(s: string)
  {
    forall i :: 0 <= i < |s| ==> IsWhitespace(s[i])
  }

  /** Drops the leading whitespace: the result is the suffix of `s` that
      starts at its first non-whitespace character. */
  function TrimStart(s: string): (r: string)
    ensures |r| <= |s| && r == s[|s| - |r|..]
    ensures AllWhitespace(s[..|s| - |r|])
    ensures r == [] || !IsWhitespace(r[0])
  {
    if s != [] && IsWhitespace(s[0]) then TrimStart(s[1..]) else s
  }

  /** Drops the trailing whitespace: the result is the prefix of `s` that
      ends at its last non-whitespace character. */
  function TrimEnd(s: string): (r: string)
    ensures |r| <= |s| && r == s[..|r|]
    ensures AllWhitespace(s[|r|..])
    ensures r == [] || !IsWhitespace(r[|r| - 1])
  {
    if s != [] && IsWhitespace(s[|s| - 1]) then TrimEnd(s[..|s| - 1]) else s
  }

  /** `s.trim()`: `s` without its leading and trailing whitespace. */
  function Trim(s: string): (r: string)
    ensures |r| <= |s|
    ensures r == [] || (!IsWhitespace(r[0]) && !IsWhitespace(r[|r| - 1]))
  {
    TrimEnd(TrimStart(s))
  }

  /** What trimming removes is whitespace at both ends: the result is the
      slice of `s` between its leading and its trailing whitespace. */
  lemma TrimIsInnerSlice(s: string)
    ensures var lo := |s| - |TrimStart(s)|;
            var hi := lo + |Trim(s)|;
            && hi <= |s| && Trim(s) == s[lo..hi]
            && AllWhitespace(s[..lo]) && AllWhitespace(s[hi..])
  {
    var t := TrimStart(s);
    var lo := |s| - |t|;
    var r := TrimEnd(t);
    assert r == t[..|r|] && t == s[lo..];
    assert s[lo + |r|..] == t[|r|..];
  }

  /** A string trims to nothing exactly when every character of it is whitespace. */
  lemma TrimEmptyIff(s: string)
    ensures Trim(s) == [] <==> AllWhitespace(s)
  {
    var t := TrimStart(s);
    var lo := |s| - |t|;
    if Trim(s) == [] {
      assert t[0..] == t;
      if t != [] {
        assert false;
      }
      assert s[..lo] == s;
    } else {
      var r := TrimEnd(t);
      assert r[0] == t[0] == s[lo];
    }
  }

  /** Trimming twice trims nothing more. */
  lemma TrimIdempotent(s: string)
    ensures Trim(Trim(s)) == Trim(s)
  {
    var r := Trim(s);
    if r != [] {
      assert TrimStart(r) == r;
      assert TrimEnd(r) == r;
    }
  }

  /** `toUpperCase` on one character, for the ASCII letters; every other
      character is left as it is. */
  function ToUpper(c: char): (u: char)
  {
    if 'a' <= c <= 'z' then (c as int - 32) as char else c
  }

  /** `s.charAt(0).toUpperCase() + s.slice(1)`. */
  function Capitalize(s: string): (r: string)
    ensures |r| == |s|
    ensures s != [] ==> r[0] == ToUpper(s[0]) && r[1..] == s[1..]
  {
    if s == [] then "" else [ToUpper(s[0])] + s[1..]
  }
}

/** The badge styles the tables and the detail modal choose between. */
module Ui {
  import opened Js

  datatype Variant = Default | Secondary | Destructive | Outline

  /** What a table cell shows: the muted dash placeholder, plain text, or a
      badge with a style and a label. */
  datatype Cell = Dash | Text(text: string) | Badge(variant: Variant, caption: string)
}
