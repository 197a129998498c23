/**
 * The item id the payment service sends to the gateway for each order line:
 * the item name lower-cased, with every run of whitespace replaced by one `-`
 * (`name.toLowerCase().replace(/\s+/g, '-')`).
 */
module Slugs {

  /** A character matched by `\s` in an ECMAScript regular expression (WhiteSpace and LineTerminator). */
  predicate IsSpace(c: char) {
    || c == '\t' || c == '\n' || c == '\U{000B}' || c == '\U{000C}' || c == '\r' || c == ' '
    || c == '\U{00A0}' || c == '\U{1680}' || ('\U{2000}' <= c <= '\U{200A}')
    || c == '\U{2028}' || c == '\U{2029}' || c == '\U{202F}' || c == '\U{205F}'
    || c == '\U{3000}' || c == '\U{FEFF}'
  }

  predicate IsUpper(c: char) {
    'A' <= c <= 'Z'
  }

  predicate SpaceFree(s: string) {
    forall i :: 0 <= i < |s| ==> !IsSpace(s[i])
  }

  predicate UpperFree(s: string) {
    forall i :: 0 <= i < |s| ==> !IsUpper(s[i])
  }

  function LowerChar(c: char): (d: char)
    ensures !IsUpper(d)
    ensures IsSpace(d) == IsSpace(c)
    ensures !IsUpper(c) ==> d == c
    // an upper-case letter becomes the lower-case letter at the same place in the alphabet
    ensures IsUpper(c) ==> 'a' <= d <= 'z' && d as int - 'a' as int == c as int - 'A' as int
  {
    if IsUpper(c) then (c as int + 32) as char else c
  }

  /** `toLowerCase()` on the ASCII letters. */
  function Lower(s: string): (r: string)
    ensures |r| == |s|
    ensures UpperFree(r)
    ensures forall i :: 0 <= i < |s| ==> IsSpace(r[i]) == IsSpace(s[i])
    ensures forall i :: 0 <= i < |s| ==> (IsUpper(s[i]) || r[i] == s[i])
    ensures forall i :: 0 <= i < |s| && IsUpper(s[i]) ==>
              'a' <= r[i] <= 'z' && r[i] as int - 'a' as int == s[i] as int - 'A' as int
  {
    seq(|s|, i requires 0 <= i < |s| => LowerChar(s[i]))
  }

  /** Drops the whitespace at the front of `s`. */
  function SkipSpaces(s: string): (r: string)
    ensures |r| <= |s| && r == s[|s| - |r|..]
    ensures r == [] || !IsSpace(r[0])
    ensures forall i :: 0 <= i < |s| - |r| ==> IsSpace(s[i])
  {
    if s != [] && IsSpace(s[0]) then SkipSpaces(s[1..]) else s
  }

  /** `replace(/\s+/g, '-')`: each maximal run of whitespace becomes a single `-`. */
  function CollapseSpaces(s: string): (r: string)
    decreases |s|
    ensures |r| <= |s|
    ensures SpaceFree(r)
    ensures UpperFree(s) ==> UpperFree(r)
  {
    if s == [] then []
    else
      var tail := if IsSpace(s[0]) then SkipSpaces(s[1..]) else s[1..];
      var head := if IsSpace(s[0]) then '-' else s[0];
      var rest := CollapseSpaces(tail);
      var r := [head] + rest;
      assert SpaceFree(r) by {
        assert forall i :: 0 < i < |r| ==> r[i] == rest[i - 1];
      }
      assert UpperFree(s) ==> UpperFree(r) by {
        if UpperFree(s) {
          assert UpperFree(tail);
          assert forall i :: 0 < i < |r| ==> r[i] == rest[i - 1];
        }
      }
      r
  }

  function Slug(name: string): (r: string)
    ensures |r| <= |name|
    ensures SpaceFree(r) && UpperFree(r)
    // a name without whitespace is only lower-cased
    ensures SpaceFree(name) ==> r == Lower(name)
  {
    if SpaceFree(name) then
      CollapseFixesSpaceFree(Lower(name));
      CollapseSpaces(Lower(name))
    else
      CollapseSpaces(Lower(name))
  }

  /** A whitespace-free string is left alone by the replacement. */
  lemma {:induction false} CollapseFixesSpaceFree(s: string)
    requires SpaceFree(s)
    ensures CollapseSpaces(s) == s
    decreases |s|
  {
    if s != [] {
      assert SpaceFree(s[1..]);
      CollapseFixesSpaceFree(s[1..]);
    }
  }

  /** A string without upper-case letters is left alone by the lower-casing. */
  lemma LowerFixesLowercase(s: string)
    requires UpperFree(s)
    ensures Lower(s) == s
  {
  }

  /** A slug is its own slug: re-slugging an item id changes nothing. */
  lemma SlugIdempotent(name: string)
    ensures Slug(Slug(name)) == Slug(name)
  {
    var s := Slug(name);
    LowerFixesLowercase(s);
    CollapseFixesSpaceFree(s);
  }

  /** A run made only of whitespace is skipped entirely, up to the next non-space. */
  lemma {:induction false} SkipSpacesRun(ws: string, rest: string)
    requires forall i :: 0 <= i < |ws| ==> IsSpace(ws[i])
    requires rest == [] || !IsSpace(rest[0])
    ensures SkipSpaces(ws + rest) == rest
    decreases |ws|
  {
    if ws != [] {
      assert (ws + rest)[1..] == ws[1..] + rest;
      SkipSpacesRun(ws[1..], rest);
    }
  }

  /**
   * A word, then a non-empty run of whitespace, then the rest: the word is
   * copied, the whole run becomes exactly one `-`, and the rest is
   * processed the same way.
   */
  lemma {:induction false} CollapseJoin(word: string, ws: string, rest: string)
    requires SpaceFree(word)
    requires ws != [] && forall i :: 0 <= i < |ws| ==> IsSpace(ws[i])
    requires rest == [] || !IsSpace(rest[0])
    ensures CollapseSpaces(word + ws + rest) == word + "-" + CollapseSpaces(rest)
    decreases |word|
  {
    if word == [] {
      assert word + ws + rest == ws + rest;
      assert (ws + rest)[1..] == ws[1..] + rest;
      SkipSpacesRun(ws[1..], rest);
    } else {
      assert (word + ws + rest)[1..] == word[1..] + ws + rest;
      assert SpaceFree(word[1..]);
      CollapseJoin(word[1..], ws, rest);
    }
  }
}
