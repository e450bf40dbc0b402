/**
 * String operations the drafts page applies to user input: the whitespace
 * trimming of `String.prototype.trim` done before validation and saving, and
 * the `\n` to `<br>` replacement done when a draft's text is listed.
 */
module Text {

  /** The characters ECMAScript's `trim` removes: WhiteSpace and LineTerminator. */
  predicate IsSpace(c: char) {
    c == '\t' || c == '\n' || c == '\U{000B}' || c == '\U{000C}' || c == '\r' || c == ' '
    || c == '\U{00A0}' || c == '\U{1680}' || ('\U{2000}' <= c <= '\U{200A}')
    || c == '\U{2028}' || c == '\U{2029}' || c == '\U{202F}' || c == '\U{205F}'
    || c == '\U{3000}' || c == '\U{FEFF}'
  }

  /** True when every character of s is whitespace (in particular when s is empty). */
  predicate AllSpace(s: string) {
    forall k :: 0 <= k < |s| ==> IsSpace(s[k])
  }

  /** s without its leading whitespace (see TrimStartShape). */
  function TrimStart(s: string): (r: string)
    ensures |r| <= |s|
  {
    if s != [] && IsSpace(s[0]) then TrimStart(s[1..]) else s
  }

  /** s without its trailing whitespace (see TrimEndShape). */
  function TrimEnd(s: string): (r: string)
    ensures |r| <= |s|
  {
    if s != [] && IsSpace(s[|s| - 1]) then TrimEnd(s[..|s| - 1]) else s
  }

  /** TrimStart keeps a suffix of s, drops only whitespace, and stops at a non-space. */
  lemma {:induction false} TrimStartShape(s: string)
    ensures var r := TrimStart(s);
      r == s[|s| - |r|..] && AllSpace(s[..|s| - |r|]) && (r != [] ==> !IsSpace(r[0]))
  {
    if s != [] && IsSpace(s[0]) {
      TrimStartShape(s[1..]);
      var r := TrimStart(s);
      assert s[1..][|s| - 1 - |r|..] == s[|s| - |r|..];
      assert forall k :: 1 <= k < |s| - |r| ==> s[k] == s[1..][..|s| - 1 - |r|][k - 1];
    }
  }

  /** TrimEnd keeps a prefix of s, drops only whitespace, and stops at a non-space. */
  lemma {:induction false} TrimEndShape(s: string)
    ensures var r := TrimEnd(s);
      r == s[..|r|] && AllSpace(s[|r|..]) && (r != [] ==> !IsSpace(r[|r| - 1]))
  {
    if s != [] && IsSpace(s[|s| - 1]) {
      var p := s[..|s| - 1];
      TrimEndShape(p);
      var r := TrimEnd(s);
      assert p[..|r|] == s[..|r|];
      assert forall k :: |r| <= k < |s| - 1 ==> s[k] == p[|r|..][k - |r|];
    }
  }

  /**
   * `String.prototype.trim`: the result is the part of s that remains once the
   * whitespace before and after it is cut off, and it neither starts nor ends
   * with whitespace.
   */
  function Trim(s: string): (r: string)
    ensures |r| <= |s|
    ensures r != [] ==> !IsSpace(r[0]) && !IsSpace(r[|r| - 1])
    ensures var i := |s| - |TrimStart(s)|;
      i + |r| <= |s| && r == s[i..i + |r|] && AllSpace(s[..i]) && AllSpace(s[i + |r|..])
  {
    var t := TrimStart(s);
    TrimStartShape(s);
    var r := TrimEnd(t);
    TrimEndShape(t);
    var i := |s| - |t|;
    assert r == s[i..i + |r|];
    assert t[|r|..] == s[i + |r|..];
    r
  }

  /** Trimming an already trimmed string changes nothing. */
  lemma TrimIdempotent(s: string)
    ensures Trim(Trim(s)) == Trim(s)
  {
  }

  /** Trimming leaves exactly those strings alone that neither start nor end with whitespace. */
  lemma TrimFixedIff(s: string)
    ensures Trim(s) == s <==> (s == [] || (!IsSpace(s[0]) && !IsSpace(s[|s| - 1])))
  {
  }

  /** A string trims to the empty string exactly when it is all whitespace. */
  lemma TrimEmptyIff(s: string)
    ensures Trim(s) == [] <==> AllSpace(s)
  {
  }

  /** A string that starts with a non-space character does not trim to empty. */
  lemma TrimNonEmpty(s: string)
    requires s != [] && !IsSpace(s[0])
    ensures Trim(s) != []
  {
  }

  /** The markup each line feed becomes in a listed draft. */
  const LineBreak: string := "<br>"

  /** `text.replace(/\n/g, '<br>')`: every line feed replaced by `<br>`, every other character kept. */
  function ReplaceNewlines(s: string): (r: string)
    ensures '\n' !in r
    ensures '\n' !in s ==> r == s
  {
    if s == [] then []
    else (if s[0] == '\n' then LineBreak else [s[0]]) + ReplaceNewlines(s[1..])
  }

  /** The number of line feeds in s. */
  function CountNewlines(s: string): nat {
    if s == [] then 0 else (if s[0] == '\n' then 1 else 0) + CountNewlines(s[1..])
  }

  /** The replacement works character by character: it distributes over concatenation. */
  lemma {:induction false} ReplaceNewlinesAppend(a: string, b: string)
    ensures ReplaceNewlines(a + b) == ReplaceNewlines(a) + ReplaceNewlines(b)
  {
    if a == [] {
      assert a + b == b;
    } else {
      var piece := if a[0] == '\n' then LineBreak else [a[0]];
      assert (a + b)[0] == a[0];
      assert (a + b)[1..] == a[1..] + b;
      assert ReplaceNewlines(a + b) == piece + ReplaceNewlines(a[1..] + b);
      ReplaceNewlinesAppend(a[1..], b);
    }
  }

  /** Each line feed grows the text by three characters ("\n" becomes "<br>"); nothing else changes length. */
  lemma {:induction false} ReplaceNewlinesLength(s: string)
    ensures |ReplaceNewlines(s)| == |s| + 3 * CountNewlines(s)
  {
    if s != [] {
      ReplaceNewlinesLength(s[1..]);
    }
  }

  /** Reads `<br>` back as a line feed: the inverse of ReplaceNewlines on text without '<'. */
  function RestoreNewlines(r: string): string {
    if r == [] then []
    else if |r| >= |LineBreak| && r[..|LineBreak|] == LineBreak then ['\n'] + RestoreNewlines(r[|LineBreak|..])
    else [r[0]] + RestoreNewlines(r[1..])
  }

  /**
   * A text that holds no '<' can be recovered from its listed form, so the
   * replacement loses nothing there. (A text that already contains "<br>"
   * cannot be told apart from one with a line feed.)
   */
  lemma {:induction false} RestoreReplaceNewlines(s: string)
    requires '<' !in s
    ensures RestoreNewlines(ReplaceNewlines(s)) == s
  {
    if s != [] {
      var rest := ReplaceNewlines(s[1..]);
      assert s == [s[0]] + s[1..];
      RestoreReplaceNewlines(s[1..]);
      if s[0] == '\n' {
        var r := LineBreak + rest;
        assert r[..|LineBreak|] == LineBreak && r[|LineBreak|..] == rest;
        assert RestoreNewlines(r) == ['\n'] + RestoreNewlines(rest);
      } else {
        var r := [s[0]] + rest;
        assert r[0] != LineBreak[0];
        assert r[1..] == rest;
        assert RestoreNewlines(r) == [s[0]] + RestoreNewlines(rest);
      }
    }
  }
}
