/** Searching, cutting and trimming strings. */
module Strings {

  /** The first place where one of the characters stands, or -1. */
  function IndexOf(s: string, chars: set<char>): (i: int)
    ensures -1 <= i < |s|
  {
    if s == "" then -1
    else if s[0] in chars then 0
    else var i := IndexOf(s[1..], chars); if i < 0 then -1 else i + 1
  }

  lemma {:induction false} IndexAt(a: string, b: string, chars: set<char>)
    requires forall c :: c in a ==> c !in chars
    requires b == "" || b[0] in chars
    ensures IndexOf(a + b, chars) == if b == "" then -1 else |a|
  {
    if a == "" {
      assert a + b == b;
    } else {
      assert (a + b)[1..] == a[1..] + b;
      assert a[0] in a;
      IndexAt(a[1..], b, chars);
    }
  }

  lemma {:induction false} BeforeIndex(s: string, chars: set<char>)
    ensures var i := IndexOf(s, chars);
            if i < 0 then forall c :: c in s ==> c !in chars
            else s[i] in chars && forall c :: c in s[..i] ==> c !in chars
  {
    if s != "" && s[0] !in chars {
      BeforeIndex(s[1..], chars);
      var i := IndexOf(s, chars);
      if i < 0 { assert s == [s[0]] + s[1..]; } else { assert s[..i] == [s[0]] + s[1..][..i - 1]; }
    }
  }

  lemma AfterIndex(a: string, c: char, b: string)
    ensures (a + ([c] + b))[..|a|] == a && (a + ([c] + b))[|a| + 1..] == b
  {
  }

  /** The white space that strings.TrimSpace removes. */
  predicate Space(c: char) {
    || '\U{0009}' <= c <= '\U{000D}' || c == ' ' || c == '\U{0085}' || c == '\U{00A0}' || c == '\U{1680}'
    || '\U{2000}' <= c <= '\U{200A}' || c == '\U{2028}' || c == '\U{2029}' || c == '\U{202F}'
    || c == '\U{205F}' || c == '\U{3000}'
  }

  predicate Blank(s: string) { forall i :: 0 <= i < |s| ==> Space(s[i]) }

  /** strings.TrimSpace. */
  function TrimSpace(s: string): (r: string)
    ensures |r| <= |s|
  {
    if s == "" then ""
    else if Space(s[0]) then TrimSpace(s[1..])
    else if Space(s[|s| - 1]) then TrimSpace(s[..|s| - 1])
    else s
  }

  /** Of the ASCII characters, these are white space. */
  lemma SpaceInASCII(c: char)
    requires c < '\U{0080}'
    ensures Space(c) <==> c == ' ' || '\t' <= c <= '\r'
  {
  }

  /** Only white space goes, and all of it that stands at either end. */
  lemma {:induction false} TrimSpaceExactly(s: string) returns (a: string, b: string)
    ensures s == a + TrimSpace(s) + b && Blank(a) && Blank(b)
    ensures var t := TrimSpace(s); t != "" ==> !Space(t[0]) && !Space(t[|t| - 1])
  {
    a, b := "", "";
    if s == "" {
    } else if Space(s[0]) {
      a, b := TrimSpaceExactly(s[1..]);
      a := [s[0]] + a;
      assert s == [s[0]] + s[1..];
    } else if Space(s[|s| - 1]) {
      a, b := TrimSpaceExactly(s[..|s| - 1]);
      b := b + [s[|s| - 1]];
      assert s == s[..|s| - 1] + [s[|s| - 1]];
    }
  }
}
