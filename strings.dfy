/** The two text operations the reply dispatcher applies to a message body:
    Go's `strings.TrimSpace` and `strings.ToLower`. */
module Strings {

  /** Go's `unicode.IsSpace`: the ASCII white space characters, NEL, NBSP and
      the Unicode space separators. */
  predicate IsSpace(c: char) {
    c == '\t' || c == '\n' || c == '\U{0B}' || c == '\U{0C}' || c == '\r' || c == ' '
    || c == '\U{85}' || c == '\U{A0}' || c == '\U{1680}'
    || ('\U{2000}' <= c <= '\U{200A}')
    || c == '\U{2028}' || c == '\U{2029}' || c == '\U{202F}' || c == '\U{205F}' || c == '\U{3000}'
  }

  predicate AllSpace(s: string) {
    forall i :: 0 <= i < |s| ==> IsSpace(s[i])
  }

  function TrimLeft(s: string): (r: string)
    ensures |r| <= |s| && r == s[|s| - |r|..]
    ensures AllSpace(s[..|s| - |r|])
    ensures r == [] || !IsSpace(r[0])
  {
    if s != [] && IsSpace(s[0]) then
      var r := TrimLeft(s[1..]);
      assert s[..|s| - |r|] == [s[0]] + s[1..][..|s| - 1 - |r|];
      r
    else s
  }

  function TrimRight(s: string): (r: string)
    ensures |r| <= |s| && r == s[..|r|]
    ensures AllSpace(s[|r|..])
    ensures r == [] || !IsSpace(r[|r| - 1])
  {
    if s != [] && IsSpace(s[|s| - 1]) then
      var r := TrimRight(s[..|s| - 1]);
      assert s[|r|..] == s[..|s| - 1][|r|..] + [s[|s| - 1]];
      r
    else s
  }

  /** `strings.TrimSpace`: the text without its leading and trailing white space. */
  function TrimSpace(s: string): string {
    TrimRight(TrimLeft(s))
  }

  /** `unicode.ToLower` on ASCII letters; any other character is kept. */
  function LowerChar(c: char): char {
    if 'A' <= c <= 'Z' then (c as int + 32) as char else c
  }

  /** `strings.ToLower`, character by character. */
  function ToLower(s: string): (r: string)
    ensures |r| == |s|
  {
    seq(|s|, i requires 0 <= i < |s| => LowerChar(s[i]))
  }

  /** `t` is `s` with the white space at `i` characters from the start and
      at the end removed, and `t` itself neither starts nor ends with white
      space. */
  predicate TrimmedAt(s: string, t: string, i: int) {
    && 0 <= i <= |s| - |t|
    && t == s[i..i + |t|] && AllSpace(s[..i]) && AllSpace(s[i + |t|..])
    && (t == [] || (!IsSpace(t[0]) && !IsSpace(t[|t| - 1])))
  }

  /** What trimming removes is white space at either end, and what it keeps
      starts and ends with a character that is not. */
  lemma TrimSpaceIsTrim(s: string)
    ensures exists i :: TrimmedAt(s, TrimSpace(s), i)
  {
    var l := TrimLeft(s);
    var t := TrimRight(l);
    var i := |s| - |l|;
    assert TrimmedAt(s, t, i) by {
      assert l == s[i..];
      assert t == l[..|t|];
      assert t == s[i..i + |t|];
      assert AllSpace(s[i + |t|..]) by {
        assert s[i + |t|..] == l[|t|..];
      }
      assert t != [] ==> !IsSpace(t[0]) by {
        if t != [] {
          assert t[0] == l[0];
        }
      }
    }
    assert TrimmedAt(s, TrimSpace(s), i);
  }

  lemma {:induction false} TrimLeftSkipsSpace(pre: string, w: string)
    requires AllSpace(pre)
    ensures TrimLeft(pre + w) == TrimLeft(w)
  {
    if pre != [] {
      assert (pre + w)[1..] == pre[1..] + w;
      TrimLeftSkipsSpace(pre[1..], w);
    } else {
      assert pre + w == w;
    }
  }

  lemma {:induction false} TrimRightSkipsSpace(w: string, post: string)
    requires AllSpace(post)
    ensures TrimRight(w + post) == TrimRight(w)
  {
    if post != [] {
      var p := post[..|post| - 1];
      assert (w + post)[..|w + post| - 1] == w + p;
      TrimRightSkipsSpace(w, p);
    } else {
      assert w + post == w;
    }
  }

  lemma {:induction false} TrimLeftAllSpace(s: string)
    requires AllSpace(s)
    ensures TrimLeft(s) == []
  {
    if s != [] {
      TrimLeftAllSpace(s[1..]);
    }
  }

  lemma {:induction false} TrimLeftKeepsTail(w: string, post: string)
    requires !AllSpace(w)
    ensures TrimLeft(w + post) == TrimLeft(w) + post
  {
    if IsSpace(w[0]) {
      assert (w + post)[1..] == w[1..] + post;
      assert !AllSpace(w[1..]) by {
        var k :| 0 <= k < |w| && !IsSpace(w[k]);
        assert w[1..][k - 1] == w[k];
      }
      TrimLeftKeepsTail(w[1..], post);
    }
  }

  /** White space added around a text does not change what trimming keeps. */
  lemma TrimSpaceIgnoresPadding(pre: string, w: string, post: string)
    requires AllSpace(pre) && AllSpace(post)
    ensures TrimSpace(pre + w + post) == TrimSpace(w)
  {
    assert pre + w + post == pre + (w + post);
    TrimLeftSkipsSpace(pre, w + post);
    if AllSpace(w) {
      assert AllSpace(w + post) by {
        forall i | 0 <= i < |w + post| ensures IsSpace((w + post)[i]) {
          if i < |w| { assert (w + post)[i] == w[i]; } else { assert (w + post)[i] == post[i - |w|]; }
        }
      }
      TrimLeftAllSpace(w + post);
      TrimLeftAllSpace(w);
    } else {
      TrimLeftKeepsTail(w, post);
      TrimRightSkipsSpace(TrimLeft(w), post);
    }
  }

  /** A text that neither starts nor ends with white space is already trimmed. */
  lemma TrimSpaceOfTrimmed(w: string)
    requires w == [] || (!IsSpace(w[0]) && !IsSpace(w[|w| - 1]))
    ensures TrimSpace(w) == w
  {
  }

  lemma LowerCharKeepsSpace(c: char)
    ensures IsSpace(LowerChar(c)) == IsSpace(c)
  {
  }

  lemma {:induction false} TrimLeftOfLower(s: string)
    ensures TrimLeft(ToLower(s)) == ToLower(TrimLeft(s))
  {
    if s != [] {
      LowerCharKeepsSpace(s[0]);
      assert ToLower(s)[1..] == ToLower(s[1..]);
      TrimLeftOfLower(s[1..]);
    }
  }

  lemma {:induction false} TrimRightOfLower(s: string)
    ensures TrimRight(ToLower(s)) == ToLower(TrimRight(s))
  {
    if s != [] {
      LowerCharKeepsSpace(s[|s| - 1]);
      assert ToLower(s)[..|s| - 1] == ToLower(s[..|s| - 1]);
      TrimRightOfLower(s[..|s| - 1]);
    }
  }

  /** Lower-casing and trimming can be done in either order. */
  lemma TrimSpaceOfLower(s: string)
    ensures TrimSpace(ToLower(s)) == ToLower(TrimSpace(s))
  {
    TrimLeftOfLower(s);
    TrimRightOfLower(TrimLeft(s));
  }

  /** Lower-casing twice is lower-casing once. */
  lemma ToLowerIdempotent(s: string)
    ensures ToLower(ToLower(s)) == ToLower(s)
  {
  }
}
