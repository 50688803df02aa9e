/** Optional values and results. */
module Wrappers {
  datatype Option<+T> = None | Some(value: T)
  datatype Result<+T, +E> = Ok(value: T) | Err(error: E)
}

/** Trimming, as Rust's `str::trim` does it. */
module TextUtil {

  /** The characters with the Unicode property White_Space. */
  predicate White(c: char) {
    || '\U{0009}' <= c <= '\U{000D}' || c == ' ' || c == '\U{0085}' || c == '\U{00A0}' || c == '\U{1680}'
    || '\U{2000}' <= c <= '\U{200A}' || c == '\U{2028}' || c == '\U{2029}' || c == '\U{202F}'
    || c == '\U{205F}' || c == '\U{3000}'
  }

  function TrimStart(s: string): string {
    if s != [] && White(s[0]) then TrimStart(s[1..]) else s
  }

  function TrimEnd(s: string): string {
    if s != [] && White(s[|s| - 1]) then TrimEnd(s[..|s| - 1]) else s
  }

  function Trim(s: string): string { TrimEnd(TrimStart(s)) }

  lemma {:induction false} StartTrimmed(s: string)
    ensures TrimStart(s) == [] || !White(TrimStart(s)[0])
  {
    if s != [] && White(s[0]) {
      StartTrimmed(s[1..]);
    }
  }

  lemma {:induction false} EndTrimmed(s: string)
    ensures TrimEnd(s) == [] || !White(TrimEnd(s)[|TrimEnd(s)| - 1])
    ensures TrimEnd(s) <= s
  {
    if s != [] && White(s[|s| - 1]) {
      EndTrimmed(s[..|s| - 1]);
    }
  }

  lemma TrimTwice(s: string)
    ensures Trim(Trim(s)) == Trim(s)
  {
    StartTrimmed(s);
    EndTrimmed(TrimStart(s));
  }

  predicate AllWhite(s: string) { forall i :: 0 <= i < |s| ==> White(s[i]) }

  lemma {:induction false} WhiteAhead(s: string) returns (pre: string)
    ensures AllWhite(pre) && s == pre + TrimStart(s)
  {
    pre := [];
    if s != [] && White(s[0]) {
      pre := WhiteAhead(s[1..]);
      assert s == [s[0]] + s[1..];
      pre := [s[0]] + pre;
    }
  }

  lemma {:induction false} WhiteBehind(s: string) returns (post: string)
    ensures AllWhite(post) && s == TrimEnd(s) + post
  {
    post := [];
    if s != [] && White(s[|s| - 1]) {
      post := WhiteBehind(s[..|s| - 1]);
      assert s == s[..|s| - 1] + [s[|s| - 1]];
      post := post + [s[|s| - 1]];
    }
  }

  /** Trimming takes off white characters only, and all there are at both ends. */
  lemma TrimIsExact(s: string) returns (pre: string, post: string)
    ensures s == pre + Trim(s) + post && AllWhite(pre) && AllWhite(post)
    ensures Trim(s) != [] ==> !White(Trim(s)[0]) && !White(Trim(s)[|Trim(s)| - 1])
  {
    pre := WhiteAhead(s);
    post := WhiteBehind(TrimStart(s));
    StartTrimmed(s);
    EndTrimmed(TrimStart(s));
  }

  lemma {:induction false} StartSkips(pre: string, x: string)
    requires AllWhite(pre)
    ensures TrimStart(pre + x) == TrimStart(x)
  {
    if pre == [] {
      assert pre + x == x;
    } else {
      assert (pre + x)[1..] == pre[1..] + x;
      StartSkips(pre[1..], x);
    }
  }

  lemma {:induction false} EndSkips(x: string, post: string)
    requires AllWhite(post)
    ensures TrimEnd(x + post) == TrimEnd(x)
  {
    if post == [] {
      assert x + post == x;
    } else {
      assert (x + post)[..|x + post| - 1] == x + post[..|post| - 1];
      EndSkips(x, post[..|post| - 1]);
    }
  }
}
