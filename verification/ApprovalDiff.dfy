/** The line diff of the approval preview: one hunk that replaces the lines
    between the common prefix and the common suffix, with at most one line of
    context on either side. */
module ApprovalDiff {
  import opened Wrappers

  type Text = seq<string>

  /** A line of a hunk body: ` ` on both sides, `-` old only, `+` new only. */
  datatype Tag = Context | Minus | Plus
  datatype Tagged = Tagged(tag: Tag, line: string)

  /** `@@ -oldFrom,oldCount +newFrom,newCount @@` and the tagged lines under it. */
  datatype Hunk = Hunk(oldFrom: nat, oldCount: nat, newFrom: nat, newCount: nat, body: seq<Tagged>)

  // ----- How a unified hunk is read (independent of how it is made) -----

  /** The lines of the body that one side has: all but those tagged `other`. */
  function Side(body: seq<Tagged>, other: Tag): Text {
    if body == [] then []
    else (if body[0].tag == other then [] else [body[0].line]) + Side(body[1..], other)
  }

  function OldSide(body: seq<Tagged>): Text { Side(body, Plus) }
  function NewSide(body: seq<Tagged>): Text { Side(body, Minus) }

  /** A side's line number counts from 1; an empty side names the line before it. */
  function StartIndex(from: nat, count: nat): int {
    if count == 0 then from else from - 1
  }

  /** Patching: the old side must be found where the header says. */
  function Patch(h: Hunk, text: Text): Option<Text> {
    var at := StartIndex(h.oldFrom, h.oldCount);
    if 0 <= at && at + h.oldCount <= |text| && text[at..at + h.oldCount] == OldSide(h.body)
      && StartIndex(h.newFrom, h.newCount) == at
    then Some(text[..at] + NewSide(h.body) + text[at + h.oldCount..])
    else None
  }

  function Flip(t: Tag): Tag {
    match t
    case Context => Context
    case Minus => Plus
    case Plus => Minus
  }

  function FlipAll(body: seq<Tagged>): seq<Tagged> {
    if body == [] then [] else [Tagged(Flip(body[0].tag), body[0].line)] + FlipAll(body[1..])
  }

  /** The same hunk read backwards: old and new trade places. */
  function Reverse(h: Hunk): Hunk {
    Hunk(h.newFrom, h.newCount, h.oldFrom, h.oldCount, FlipAll(h.body))
  }

  /** What a printed hunk must satisfy to be one. */
  ghost predicate WellFormed(h: Hunk, a: Text, b: Text) {
    && h.oldCount == |OldSide(h.body)| && h.newCount == |NewSide(h.body)|
    && (h.oldFrom == 0 <==> a == []) && (h.newFrom == 0 <==> b == [])
  }

  // ----- Sides of the parts a hunk is made of -----

  function TagAll(lines: Text, tag: Tag): seq<Tagged> {
    if lines == [] then [] else [Tagged(tag, lines[0])] + TagAll(lines[1..], tag)
  }

  lemma {:induction false} SideConcat(x: seq<Tagged>, y: seq<Tagged>, other: Tag)
    ensures Side(x + y, other) == Side(x, other) + Side(y, other)
  {
    if x == [] {
      assert x + y == y;
    } else {
      assert (x + y)[1..] == x[1..] + y;
      SideConcat(x[1..], y, other);
    }
  }

  lemma {:induction false} SideOfTagged(lines: Text, tag: Tag, other: Tag)
    ensures Side(TagAll(lines, tag), other) == if tag == other then [] else lines
  {
    if lines != [] {
      SideOfTagged(lines[1..], tag, other);
      assert TagAll(lines, tag)[1..] == TagAll(lines[1..], tag);
    }
  }

  lemma {:induction false} SideOfFlipped(body: seq<Tagged>, other: Tag)
    ensures Side(FlipAll(body), other) == Side(body, Flip(other))
  {
    if body != [] {
      SideOfFlipped(body[1..], other);
      assert FlipAll(body)[1..] == FlipAll(body[1..]);
    }
  }

  lemma {:induction false} TagAllSnoc(lines: Text, line: string, tag: Tag)
    ensures TagAll(lines + [line], tag) == TagAll(lines, tag) + [Tagged(tag, line)]
  {
    if lines == [] {
      assert lines + [line] == [line];
    } else {
      assert (lines + [line])[1..] == lines[1..] + [line];
      TagAllSnoc(lines[1..], line, tag);
    }
  }

  function BodyOf(c: Text, m: Text, n: Text, t: Text): seq<Tagged> {
    TagAll(c, Context) + TagAll(m, Minus) + TagAll(n, Plus) + TagAll(t, Context)
  }

  lemma BodySides(c: Text, m: Text, n: Text, t: Text)
    ensures OldSide(BodyOf(c, m, n, t)) == c + m + t
    ensures NewSide(BodyOf(c, m, n, t)) == c + n + t
  {
    hide Side, TagAll;
    var x, y, z := TagAll(c, Context), TagAll(m, Minus), TagAll(n, Plus);
    forall other: Tag
      ensures Side(BodyOf(c, m, n, t), other)
        == Side(x, other) + Side(y, other) + Side(z, other) + Side(TagAll(t, Context), other)
    {
      SideConcat(x, y, other);
      SideConcat(x + y, z, other);
      SideConcat(x + y + z, TagAll(t, Context), other);
    }
    forall tag: Tag, other: Tag, lines: Text
      ensures Side(TagAll(lines, tag), other) == if tag == other then [] else lines
    {
      SideOfTagged(lines, tag, other);
    }
  }

  /** A hunk laid around the changed lines `m` and `n`, with context `c` before
      and `t` behind, turns one text into the other and back. */
  lemma PatchAround(h: Hunk, p: Text, c: Text, m: Text, n: Text, t: Text, s: Text)
    requires h.body == BodyOf(c, m, n, t)
    requires h.oldCount == |c| + |m| + |t| && h.newCount == |c| + |n| + |t|
    requires StartIndex(h.oldFrom, h.oldCount) == |p| == StartIndex(h.newFrom, h.newCount)
    ensures Patch(h, p + c + m + t + s) == Some(p + c + n + t + s)
    ensures Patch(Reverse(h), p + c + n + t + s) == Some(p + c + m + t + s)
    ensures h.oldCount == |OldSide(h.body)| && h.newCount == |NewSide(h.body)|
  {
    BodySides(c, m, n, t);
    SideOfFlipped(h.body, Plus);
    SideOfFlipped(h.body, Minus);
    hide Side, BodyOf, FlipAll;
    var o, w := c + m + t, c + n + t;
    assert p + c + m + t + s == p + o + s;
    assert p + c + n + t + s == p + w + s;
    assert (p + o + s)[|p|..|p| + |o|] == o && (p + o + s)[..|p|] == p && (p + o + s)[|p| + |o|..] == s;
    assert (p + w + s)[|p|..|p| + |w|] == w && (p + w + s)[..|p|] == p && (p + w + s)[|p| + |w|..] == s;
  }

  // ----- The diff -----

  /** `pre` lines in front and `suf` behind are common, and no more could be. */
  ghost predicate CommonEnds(a: Text, b: Text, pre: nat, suf: nat) {
    && pre + suf <= |a| && pre + suf <= |b|
    && a[..pre] == b[..pre]
    && a[|a| - suf..] == b[|b| - suf..]
    && (pre < |a| && pre < |b| ==> a[pre] != b[pre])
    && (pre + suf < |a| && pre + suf < |b| ==> a[|a| - 1 - suf] != b[|b| - 1 - suf])
  }

  method FindCommonEnds(a: Text, b: Text) returns (pre: nat, suf: nat)
    ensures CommonEnds(a, b, pre, suf) && pre + suf <= |a| && pre + suf <= |b|
  {
    pre := 0;
    while pre < |a| && pre < |b| && a[pre] == b[pre]
      invariant pre <= |a| && pre <= |b|
      invariant a[..pre] == b[..pre]
    {
      PrefixGrows(a, b, pre);
      pre := pre + 1;
    }
    suf := 0;
    while suf < |a| - pre && suf < |b| - pre && a[|a| - 1 - suf] == b[|b| - 1 - suf]
      invariant suf <= |a| - pre && suf <= |b| - pre
      invariant a[|a| - suf..] == b[|b| - suf..]
    {
      SuffixGrows(a, b, suf);
      suf := suf + 1;
    }
  }

  lemma PrefixGrows(a: Text, b: Text, pre: nat)
    requires pre < |a| && pre < |b| && a[..pre] == b[..pre] && a[pre] == b[pre]
    ensures a[..pre + 1] == b[..pre + 1]
  {
    assert a[..pre + 1] == a[..pre] + [a[pre]] && b[..pre + 1] == b[..pre] + [b[pre]];
  }

  lemma SuffixGrows(a: Text, b: Text, suf: nat)
    requires suf < |a| && suf < |b| && a[|a| - suf..] == b[|b| - suf..] && a[|a| - 1 - suf] == b[|b| - 1 - suf]
    ensures a[|a| - (suf + 1)..] == b[|b| - (suf + 1)..]
  {
    assert a[|a| - (suf + 1)..] == [a[|a| - 1 - suf]] + a[|a| - suf..];
    assert b[|b| - (suf + 1)..] == [b[|b| - 1 - suf]] + b[|b| - suf..];
  }

  method PushTagged(body: seq<Tagged>, lines: Text, tag: Tag) returns (out: seq<Tagged>)
    ensures out == body + TagAll(lines, tag)
  {
    out := body;
    for i := 0 to |lines|
      invariant out == body + TagAll(lines[..i], tag)
    {
      assert lines[..i + 1] == lines[..i] + [lines[i]];
      TagAllSnoc(lines[..i], lines[i], tag);
      out := out + [Tagged(tag, lines[i])];
    }
    assert lines[..|lines|] == lines;
  }

  method WriteBody(front: Text, midA: Text, midB: Text, back: Text) returns (body: seq<Tagged>)
    ensures body == BodyOf(front, midA, midB, back)
  {
    hide TagAll;
    body := PushTagged([], front, Context);
    assert body == TagAll(front, Context);
    body := PushTagged(body, midA, Minus);
    body := PushTagged(body, midB, Plus);
    body := PushTagged(body, back, Context);
  }

  /** The hunk laid around the lines between given common ends. */
  function HunkOf(a: Text, b: Text, pre: nat, suf: nat): Hunk
    requires pre + suf <= |a| && pre + suf <= |b|
  {
    var lead, tail := if pre < 1 then pre else 1, if suf < 1 then suf else 1;
    var midA, midB := a[pre..|a| - suf], b[pre..|b| - suf];
    Hunk(if a == [] then 0 else pre + 1 - lead, lead + |midA| + tail,
         if b == [] then 0 else pre + 1 - lead, lead + |midB| + tail,
         BodyOf(a[pre - lead..pre], midA, midB, b[|b| - suf..|b| - suf + tail]))
  }

  function LastLine(t: Text): Text { if t == [] then [] else [t[|t| - 1]] }

  function FirstLine(t: Text): Text { if t == [] then [] else [t[0]] }

  /** The hunk has what lies between the common ends, and the one line before and the
      one line behind it, where there are such lines. */
  ghost predicate ReplacesBetweenEnds(h: Hunk, a: Text, b: Text) {
    exists pre: nat, suf: nat :: BetweenEnds(h, a, b, pre, suf)
  }

  ghost predicate BetweenEnds(h: Hunk, a: Text, b: Text, pre: nat, suf: nat) {
    && CommonEnds(a, b, pre, suf) && pre + suf <= |a| && pre + suf <= |b|
    && h.body == BodyOf(LastLine(a[..pre]), a[pre..|a| - suf], b[pre..|b| - suf], FirstLine(a[|a| - suf..]))
  }

  lemma HunkIsBetweenEnds(a: Text, b: Text, pre: nat, suf: nat)
    requires CommonEnds(a, b, pre, suf) && pre + suf <= |a| && pre + suf <= |b|
    requires pre + suf < |a| || pre + suf < |b|
    ensures BetweenEnds(HunkOf(a, b, pre, suf), a, b, pre, suf)
  {
    EndsAgree(a, b, pre, suf);
    HunkHeader(a, b, pre, suf);
    hide BodyOf, HunkOf, CommonEnds, LastLine, FirstLine, StartIndex;
    LastOfPrefix(a, pre);
    FirstOfSuffix(b, suf);
  }

  lemma LastOfPrefix(a: Text, pre: nat)
    requires pre <= |a|
    ensures LastLine(a[..pre]) == a[pre - (if pre < 1 then pre else 1)..pre]
  {
  }

  lemma FirstOfSuffix(b: Text, suf: nat)
    requires suf <= |b|
    ensures FirstLine(b[|b| - suf..]) == b[|b| - suf..|b| - suf + (if suf < 1 then suf else 1)]
  {
  }

  lemma HunkPatches(a: Text, b: Text, pre: nat, suf: nat)
    requires CommonEnds(a, b, pre, suf) && (pre + suf < |a| || pre + suf < |b|)
    ensures var h := HunkOf(a, b, pre, suf);
      Patch(h, a) == Some(b) && Patch(Reverse(h), b) == Some(a) && WellFormed(h, a, b)
        && ReplacesBetweenEnds(h, a, b)
  {
    assert pre + suf <= |a| && pre + suf <= |b|;
    hide BodyOf, Patch, OldSide, NewSide, Reverse, HunkOf, StartIndex, WellFormed, CommonEnds, BetweenEnds;
    var h := HunkOf(a, b, pre, suf);
    var p, c, m, n, t, s := HunkParts(a, b, pre, suf);
    PatchAround(h, p, c, m, n, t, s);
    CountsAreSides(h, a, b);
    HunkIsBetweenEnds(a, b, pre, suf);
  }

  /** The texts and the hunk in parts: front, context, old and new lines, context
      behind, rest. */
  lemma HunkParts(a: Text, b: Text, pre: nat, suf: nat) returns (p: Text, c: Text, m: Text, n: Text, t: Text, s: Text)
    requires CommonEnds(a, b, pre, suf) && (pre + suf < |a| || pre + suf < |b|)
    ensures a == p + c + m + t + s && b == p + c + n + t + s
    ensures pre + suf <= |a| && pre + suf <= |b|
    ensures var h := HunkOf(a, b, pre, suf);
      && h.body == BodyOf(c, m, n, t)
      && h.oldCount == |c| + |m| + |t| && h.newCount == |c| + |n| + |t|
      && StartIndex(h.oldFrom, h.oldCount) == |p| == StartIndex(h.newFrom, h.newCount)
      && (h.oldFrom == 0 <==> a == []) && (h.newFrom == 0 <==> b == [])
  {
    EndsAgree(a, b, pre, suf);
    hide CommonEnds, BodyOf, HunkOf, StartIndex;
    var lead, tail := if pre < 1 then pre else 1, if suf < 1 then suf else 1;
    Ends(a, b, pre, suf, lead, tail);
    HunkHeader(a, b, pre, suf);
    p, c, m, n := a[..pre - lead], a[pre - lead..pre], a[pre..|a| - suf], b[pre..|b| - suf];
    t, s := b[|b| - suf..|b| - suf + tail], a[|a| - suf + tail..];
  }

  /** The header says where the front ends and how long each side is. */
  lemma HunkHeader(a: Text, b: Text, pre: nat, suf: nat)
    requires pre + suf <= |a| && pre + suf <= |b| && (pre + suf < |a| || pre + suf < |b|)
    ensures var h := HunkOf(a, b, pre, suf);
      var lead, tail := if pre < 1 then pre else 1, if suf < 1 then suf else 1;
      && h.body == BodyOf(a[pre - lead..pre], a[pre..|a| - suf], b[pre..|b| - suf], b[|b| - suf..|b| - suf + tail])
      && h.oldCount == lead + (|a| - suf - pre) + tail && h.newCount == lead + (|b| - suf - pre) + tail
      && StartIndex(h.oldFrom, h.oldCount) == pre - lead == StartIndex(h.newFrom, h.newCount)
      && (h.oldFrom == 0 <==> a == []) && (h.newFrom == 0 <==> b == [])
  {
    hide BodyOf;
  }

  lemma CountsAreSides(h: Hunk, a: Text, b: Text)
    requires h.oldCount == |OldSide(h.body)| && h.newCount == |NewSide(h.body)|
    requires (h.oldFrom == 0 <==> a == []) && (h.newFrom == 0 <==> b == [])
    ensures WellFormed(h, a, b)
  {
  }

  method WriteHunk(a: Text, b: Text, pre: nat, suf: nat) returns (h: Hunk)
    requires pre + suf <= |a| && pre + suf <= |b|
    ensures h == HunkOf(a, b, pre, suf)
  {
    hide BodyOf;
    var midA, midB := a[pre..|a| - suf], b[pre..|b| - suf];
    var lead := if pre < 1 then pre else 1;
    var tail := if suf < 1 then suf else 1;
    var aFrom := if a == [] then 0 else pre + 1 - lead;
    var bFrom := if b == [] then 0 else pre + 1 - lead;
    var body := WriteBody(a[pre - lead..pre], midA, midB, b[|b| - suf..|b| - suf + tail]);
    h := Hunk(aFrom, lead + |midA| + tail, bFrom, lead + |midB| + tail, body);
  }

  /** `unified_diff`; `None` is the empty preview. The hunk is a correct
      patch both ways, is empty only for equal texts, and has what lies between the
      longest common ends with one line of context on either side. */
  method UnifiedDiff(a: Text, b: Text) returns (hunk: Option<Hunk>)
    ensures hunk.None? <==> a == b
    ensures hunk.Some? ==> Patch(hunk.value, a) == Some(b)
    ensures hunk.Some? ==> Patch(Reverse(hunk.value), b) == Some(a)
    ensures hunk.Some? ==> WellFormed(hunk.value, a, b)
    ensures hunk.Some? ==> ReplacesBetweenEnds(hunk.value, a, b)
  {
    if a == [] && b == [] {
      return None;
    }
    hide CommonEnds, Patch, OldSide, NewSide, Reverse, WellFormed, HunkOf, ReplacesBetweenEnds;
    var pre, suf := FindCommonEnds(a, b);
    var midA, midB := a[pre..|a| - suf], b[pre..|b| - suf];
    if midA == [] && midB == [] {
      NothingBetween(a, b, pre, suf);
      return None;
    }
    var h := WriteHunk(a, b, pre, suf);
    hunk := Some(h);
    HunkPatches(a, b, pre, suf);
    EqualTexts(a, b, pre, suf);
  }

  lemma FivePieces(a: Text, i: nat, j: nat, k: nat, l: nat)
    requires i <= j <= k <= l <= |a|
    ensures a == a[..i] + a[i..j] + a[j..k] + a[k..l] + a[l..]
  {
    assert a[..j] == a[..i] + a[i..j];
    assert a[..k] == a[..j] + a[j..k];
    assert a[..l] == a[..k] + a[k..l];
    assert a == a[..l] + a[l..];
  }

  /** Both texts around the same front, context, back and tail. */
  lemma Ends(a: Text, b: Text, pre: nat, suf: nat, lead: nat, tail: nat)
    requires CommonEnds(a, b, pre, suf) && lead <= pre && tail <= suf
    ensures var back := b[|b| - suf..|b| - suf + tail];
      && a == a[..pre - lead] + a[pre - lead..pre] + a[pre..|a| - suf] + back + a[|a| - suf + tail..]
      && b == a[..pre - lead] + a[pre - lead..pre] + b[pre..|b| - suf] + back + a[|a| - suf + tail..]
  {
    EndsAgree(a, b, pre, suf);
    hide CommonEnds;
    OldEnds(a, b, pre, suf, lead, tail);
    NewEnds(a, b, pre, suf, lead, tail);
  }

  lemma OldEnds(a: Text, b: Text, pre: nat, suf: nat, lead: nat, tail: nat)
    requires pre + suf <= |a| && suf <= |b| && a[|a| - suf..] == b[|b| - suf..] && lead <= pre && tail <= suf
    ensures a == a[..pre - lead] + a[pre - lead..pre] + a[pre..|a| - suf] + b[|b| - suf..|b| - suf + tail]
      + a[|a| - suf + tail..]
  {
    FivePieces(a, pre - lead, pre, |a| - suf, |a| - suf + tail);
    SuffixSlices(a, b, suf, tail);
  }

  lemma NewEnds(a: Text, b: Text, pre: nat, suf: nat, lead: nat, tail: nat)
    requires pre + suf <= |a| && pre + suf <= |b| && a[..pre] == b[..pre] && a[|a| - suf..] == b[|b| - suf..]
      && lead <= pre && tail <= suf
    ensures b == a[..pre - lead] + a[pre - lead..pre] + b[pre..|b| - suf] + b[|b| - suf..|b| - suf + tail]
      + a[|a| - suf + tail..]
  {
    FivePieces(b, pre - lead, pre, |b| - suf, |b| - suf + tail);
    PrefixSlices(a, b, pre, pre - lead);
    SuffixSlices(a, b, suf, tail);
  }

  lemma EndsAgree(a: Text, b: Text, pre: nat, suf: nat)
    requires CommonEnds(a, b, pre, suf)
    ensures pre + suf <= |a| && pre + suf <= |b| && a[..pre] == b[..pre] && a[|a| - suf..] == b[|b| - suf..]
  {
  }

  lemma PrefixSlices(a: Text, b: Text, pre: nat, k: nat)
    requires k <= pre <= |a| && pre <= |b| && a[..pre] == b[..pre]
    ensures a[..k] == b[..k] && a[k..pre] == b[k..pre]
  {
    assert a[..k] == a[..pre][..k] && b[..k] == b[..pre][..k];
    assert a[k..pre] == a[..pre][k..] && b[k..pre] == b[..pre][k..];
  }

  lemma SuffixSlices(a: Text, b: Text, suf: nat, k: nat)
    requires k <= suf <= |a| && suf <= |b| && a[|a| - suf..] == b[|b| - suf..]
    ensures a[|a| - suf..|a| - suf + k] == b[|b| - suf..|b| - suf + k]
    ensures a[|a| - suf + k..] == b[|b| - suf + k..]
  {
    var x, y := a[|a| - suf..], b[|b| - suf..];
    assert a[|a| - suf..|a| - suf + k] == x[..k] && b[|b| - suf..|b| - suf + k] == y[..k];
    assert a[|a| - suf + k..] == x[k..] && b[|b| - suf + k..] == y[k..];
  }

  lemma NothingBetween(a: Text, b: Text, pre: nat, suf: nat)
    requires CommonEnds(a, b, pre, suf) && a[pre..|a| - suf] == [] && b[pre..|b| - suf] == []
    ensures a == b
  {
    assert a == a[..pre] + a[|a| - suf..] && b == b[..pre] + b[|b| - suf..];
  }

  lemma EqualTexts(a: Text, b: Text, pre: nat, suf: nat)
    requires CommonEnds(a, b, pre, suf)
    ensures a == b ==> a[pre..|a| - suf] == [] && b[pre..|b| - suf] == []
  {
  }

  /** No single contiguous replacement is smaller: any way of writing the two
      texts as a common front, changed lines and a common back changes at
      least as many old and as many new lines. */
  lemma SmallestReplacement(a: Text, b: Text, pre: nat, suf: nat, x: Text, m: Text, n: Text, y: Text)
    requires CommonEnds(a, b, pre, suf)
    requires a == x + m + y && b == x + n + y
    ensures |a[pre..|a| - suf]| <= |m| && |b[pre..|b| - suf]| <= |n|
  {
    if pre < |a| && pre < |b| {
      PrefixAt(x, m + y, pre);
      PrefixAt(x, n + y, pre);
      assert a == x + (m + y) && b == x + (n + y);
    }
    if pre + suf < |a| && pre + suf < |b| {
      SuffixAt(x + m, y, suf);
      SuffixAt(x + n, y, suf);
    }
  }

  lemma PrefixAt(front: Text, back: Text, k: nat)
    requires k < |front + back|
    ensures k < |front| ==> (front + back)[k] == front[k]
  {
  }

  lemma SuffixAt(front: Text, back: Text, k: nat)
    requires k < |front + back|
    ensures k < |back| ==> (front + back)[|front + back| - 1 - k] == back[|back| - 1 - k]
  {
  }

  // ----- Truncating a preview -----

  const MAX_PREVIEW_BYTES: nat := 65_536

  /** A place between two characters of a UTF-8 text: no continuation byte follows. */
  predicate Boundary(text: seq<bv8>, k: nat) {
    k == 0 || k == |text| || (k < |text| && !(0x80 <= text[k] < 0xC0))
  }

  /** How much of a text is shown: all of it, or the longest beginning within the
      limit that does not split a character. */
  method TruncatePreview(text: seq<bv8>) returns (end: nat)
    ensures |text| <= MAX_PREVIEW_BYTES ==> end == |text|
    ensures end <= |text| && Boundary(text, end)
    ensures |text| > MAX_PREVIEW_BYTES ==>
      end <= MAX_PREVIEW_BYTES && forall k :: end < k <= MAX_PREVIEW_BYTES ==> !Boundary(text, k)
  {
    if |text| <= MAX_PREVIEW_BYTES {
      return |text|;
    }
    end := MAX_PREVIEW_BYTES;
    while end > 0 && !Boundary(text, end)
      invariant end <= MAX_PREVIEW_BYTES
      invariant forall k :: end < k <= MAX_PREVIEW_BYTES ==> !Boundary(text, k)
    {
      end := end - 1;
    }
  }
}
