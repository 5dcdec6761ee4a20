/** Trimming and case on ASCII text, and taking joined texts apart. */
module AsciiText {
  predicate IsSpace(c: char) { c == ' ' || '\t' <= c <= '\r' }

  function UpperChar(c: char): char { if 'a' <= c <= 'z' then c - ' ' else c }

  function Upper(s: string): string { if s == [] then [] else [UpperChar(s[0])] + Upper(s[1..]) }

  function TrimStart(s: string): string { if s != [] && IsSpace(s[0]) then TrimStart(s[1..]) else s }

  function TrimEnd(s: string): string { if s != [] && IsSpace(s[|s| - 1]) then TrimEnd(s[..|s| - 1]) else s }

  function Trim(s: string): string { TrimEnd(TrimStart(s)) }

  lemma {:induction false} UpperForgetsCase(s: string, t: string)
    requires |s| == |t| && forall i :: 0 <= i < |s| ==> UpperChar(s[i]) == UpperChar(t[i])
    ensures Upper(s) == Upper(t)
  {
    if s != [] { UpperForgetsCase(s[1..], t[1..]); }
  }

  lemma {:induction false} TrimStartDropsPadding(pad: string, s: string)
    requires forall c <- pad :: IsSpace(c)
    ensures TrimStart(pad + s) == TrimStart(s)
  {
    if pad == [] {
      assert pad + s == s;
    } else {
      assert (pad + s)[0] == pad[0] && pad[0] in pad && (pad + s)[1..] == pad[1..] + s;
      TrimStartDropsPadding(pad[1..], s);
    }
  }

  lemma {:induction false} TrimEndDropsPadding(s: string, pad: string)
    requires forall c <- pad :: IsSpace(c)
    ensures TrimEnd(s + pad) == TrimEnd(s)
  {
    if pad == [] {
      assert s + pad == s;
    } else {
      var n := |pad| - 1;
      assert (s + pad)[|s + pad| - 1] == pad[n] && pad[n] in pad && (s + pad)[..|s + pad| - 1] == s + pad[..n];
      TrimEndDropsPadding(s, pad[..n]);
    }
  }

  // Taking apart joined texts.

  lemma DropPrefix(p: string, x: string, y: string)
    requires p + x == p + y
    ensures x == y
  {
    assert x == (p + x)[|p|..] == (p + y)[|p|..] == y;
  }

  lemma {:induction false} SplitAtFirst(c: char, a: string, x: string, b: string, y: string)
    requires c !in a && c !in b && a + ([c] + x) == b + ([c] + y)
    ensures a == b && x == y
  {
    assert (a + ([c] + x))[0] == (b + ([c] + y))[0];
    if a == [] || b == [] {
      assert a == b;
      assert x == (a + ([c] + x))[1..] == (b + ([c] + y))[1..] == y;
    } else {
      assert a[1..] + ([c] + x) == (a + ([c] + x))[1..] == (b + ([c] + y))[1..] == b[1..] + ([c] + y);
      SplitAtFirst(c, a[1..], x, b[1..], y);
    }
  }

  lemma {:induction false} SplitAtLast(c: char, a: string, x: string, b: string, y: string)
    requires c !in x && c !in y && a + ([c] + x) == b + ([c] + y)
    ensures a == b && x == y
  {
    var l, r := a + ([c] + x), b + ([c] + y);
    assert l[|l| - 1] == r[|r| - 1];
    if x == [] || y == [] {
      assert x == y;
      assert a == l[..|l| - 1] == r[..|r| - 1] == b;
    } else {
      var m, n := |x| - 1, |y| - 1;
      assert a + ([c] + x[..m]) == l[..|l| - 1] == r[..|r| - 1] == b + ([c] + y[..n]);
      SplitAtLast(c, a, x[..m], b, y[..n]);
      assert x == x[..m] + [x[m]] && y == y[..n] + [y[n]];
    }
  }
}
