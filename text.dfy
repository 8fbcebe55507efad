/** String operations of JavaScript's String.prototype that the application uses:
    trim, case mapping (ASCII letters only), includes, startsWith, split and join. */
module Text {
  import Js

  /** White space removed by String.prototype.trim: the WhiteSpace and LineTerminator
      code points of ECMAScript (sections 12.2 and 12.3 of ECMA-262), space separators included. */
  predicate IsSpace(c: char) {
    c == ' ' || c == '\t' || c == '\n' || c == '\r' || c == '\U{000B}' || c == '\U{000C}'
    || c == '\U{00A0}' || c == '\U{1680}' || ('\U{2000}' <= c <= '\U{200A}')
    || c == '\U{2028}' || c == '\U{2029}' || c == '\U{202F}' || c == '\U{205F}'
    || c == '\U{3000}' || c == '\U{FEFF}'
  }

  function TrimStart(s: string): (r: string)
    ensures |r| <= |s| && r == s[|s| - |r|..]
    ensures r == [] || !IsSpace(r[0])
    ensures forall i :: 0 <= i < |s| - |r| ==> IsSpace(s[i])
  {
    if s != [] && IsSpace(s[0]) then TrimStart(s[1..]) else s
  }

  function TrimEnd(s: string): (r: string)
    ensures |r| <= |s| && r == s[..|r|]
    ensures r == [] || !IsSpace(r[|r| - 1])
    ensures forall i :: |r| <= i < |s| ==> IsSpace(s[i])
  {
    if s != [] && IsSpace(s[|s| - 1]) then TrimEnd(s[..|s| - 1]) else s
  }

  /** String.prototype.trim. */
  function Trim(s: string): string {
    TrimEnd(TrimStart(s))
  }

  /** True when the string is empty or white space only (`!s.trim()`). */
  predicate IsBlank(s: string) {
    forall i :: 0 <= i < |s| ==> IsSpace(s[i])
  }

  lemma TrimEmptyIffBlank(s: string)
    ensures Trim(s) == "" <==> IsBlank(s)
  {
    var t := TrimStart(s);
    assert t != [] ==> t[0] == s[|s| - |t|];
    assert forall i :: |s| - |t| <= i < |s| ==> s[i] == t[i - (|s| - |t|)];
  }

  lemma TrimOfBlankFree(s: string)
    requires s != [] && !IsSpace(s[0]) && !IsSpace(s[|s| - 1])
    ensures Trim(s) == s
  {
  }

  function LowerChar(c: char): char {
    if 'A' <= c <= 'Z' then (c as int + 32) as char else c
  }

  function UpperChar(c: char): char {
    if 'a' <= c <= 'z' then (c as int - 32) as char else c
  }

  /** String.prototype.toLowerCase on ASCII letters. */
  function Lower(s: string): (r: string)
    ensures |r| == |s|
    ensures forall i :: 0 <= i < |s| ==> r[i] == LowerChar(s[i])
  {
    seq(|s|, i requires 0 <= i < |s| => LowerChar(s[i]))
  }

  /** String.prototype.toUpperCase on ASCII letters. */
  function Upper(s: string): (r: string)
    ensures |r| == |s|
    ensures forall i :: 0 <= i < |s| ==> r[i] == UpperChar(s[i])
  {
    seq(|s|, i requires 0 <= i < |s| => UpperChar(s[i]))
  }

  /** `hay.includes(needle)`. */
  predicate Contains(hay: string, needle: string) {
    needle <= hay || (hay != [] && Contains(hay[1..], needle))
  }

  lemma {:induction false} ContainsAt(hay: string, needle: string, k: nat)
    requires k + |needle| <= |hay| && hay[k..k + |needle|] == needle
    ensures Contains(hay, needle)
  {
    if k > 0 {
      assert hay[1..][k - 1..k - 1 + |needle|] == hay[k..k + |needle|];
      ContainsAt(hay[1..], needle, k - 1);
    } else {
      assert needle <= hay;
    }
  }

  lemma {:induction false} ContainsEmpty(hay: string)
    ensures Contains(hay, "")
  {
    assert "" <= hay;
  }

  /** A text containing `x + y` contains `x`. */
  lemma {:induction false} ContainsPrefixOf(hay: string, x: string, y: string)
    requires Contains(hay, x + y)
    ensures Contains(hay, x)
  {
    if x + y <= hay {
      assert (x + y)[..|x|] == x;
      assert hay[..|x|] == x;
    } else {
      ContainsPrefixOf(hay[1..], x, y);
    }
  }

  /** Case mapping works character by character. */
  lemma LowerAppend(a: string, b: string)
    ensures Lower(a + b) == Lower(a) + Lower(b)
  {
  }

  /** Lower-casing twice is lower-casing once. */
  lemma LowerIdempotent(s: string)
    ensures Lower(Lower(s)) == Lower(s)
  {
  }

  /** A text that contains the lower-cased `term + more` contains the lower-cased
      `term`: extending a search term can only narrow the hits. */
  lemma NeedleNarrows(hay: string, term: string, more: string)
    requires Contains(hay, Lower(term + more))
    ensures Contains(hay, Lower(term))
  {
    LowerAppend(term, more);
    ContainsPrefixOf(hay, Lower(term), Lower(more));
  }

  /** `s.startsWith(prefix)`. */
  predicate StartsWith(s: string, prefix: string) {
    prefix <= s
  }

  /** `s.split(sep)` for a one-character separator: never empty; the pieces contain no separator. */
  function Split(s: string, sep: char): (parts: seq<string>)
    ensures |parts| >= 1
    ensures forall k :: 0 <= k < |parts| ==> sep !in parts[k]
  {
    if sep !in s then [s]
    else
      var i := IndexOf(s, sep);
      [s[..i]] + Split(s[i + 1..], sep)
  }

  function IndexOf(s: string, c: char): (i: nat)
    requires c in s
    ensures i < |s| && s[i] == c && c !in s[..i]
  {
    if s[0] == c then 0 else 1 + IndexOf(s[1..], c)
  }

  /** `parts.join(sep)`. */
  function Join(parts: seq<string>, sep: string): string {
    if parts == [] then "" else if |parts| == 1 then parts[0] else parts[0] + sep + Join(parts[1..], sep)
  }

  lemma {:induction false} SplitJoin(s: string, sep: char)
    ensures Join(Split(s, sep), [sep]) == s
  {
    if sep in s {
      var i := IndexOf(s, sep);
      var rest := s[i + 1..];
      var tail := Split(rest, sep);
      var parts := Split(s, sep);
      assert parts == [s[..i]] + tail;
      assert |parts| > 1 && parts[0] == s[..i] && parts[1..] == tail;
      SplitJoin(rest, sep);
      assert Join(parts, [sep]) == s[..i] + [sep] + Join(tail, [sep]);
      assert s == s[..i] + [sep] + rest;
    }
  }

  /** `a || b` for strings that may be undefined (None) or empty. */
  function OrElse(a: Js.Option<string>, b: string): string {
    if a.Some? && a.value != "" then a.value else b
  }

  /** Truthiness of an optional string. */
  predicate Filled(a: Js.Option<string>) {
    a.Some? && a.value != ""
  }
}
