/** Finding JSON objects in free text: from each opening brace a scan that
    ignores braces inside strings looks for the closing one. */
module ReviewAssets {
  import opened Wrappers

  type Text = seq<char>

  /** A range of positions in the text, end exclusive. The scan looks only at braces,
      quotes and backslashes, each of which is one byte, so characters stand for
      bytes. */
  datatype Span = Span(from: nat, to: nat)

  // ----- The string-aware scan as a small automaton -----

  datatype Scan = Scan(depth: int, inString: bool, escaped: bool)

  function Feed(s: Scan, c: char): Scan {
    if s.escaped then s.(escaped := false)
    else if c == '\\' && s.inString then s.(escaped := true)
    else if c == '"' then s.(inString := !s.inString)
    else if c == '{' && !s.inString then s.(depth := s.depth + 1)
    else if c == '}' && !s.inString then s.(depth := s.depth - 1)
    else s
  }

  function FeedAll(s: Scan, t: Text): Scan
    decreases |t|
  {
    if t == [] then s else FeedAll(Feed(s, t[0]), t[1..])
  }

  /** The character closes the outermost brace. */
  predicate Closes(s: Scan, c: char) {
    !s.escaped && c == '}' && !s.inString && s.depth == 1
  }

  /** Length of the shortest prefix after which the outermost brace is closed. */
  function CloseAt(s: Scan, t: Text): (n: Option<nat>)
    ensures n.Some? ==> 1 <= n.value <= |t|
    decreases |t|
  {
    if t == [] then None
    else if Closes(s, t[0]) then Some(1)
    else
      match CloseAt(Feed(s, t[0]), t[1..])
      case None => None
      case Some(k) => Some(k + 1)
  }

  function Shift(n: Option<nat>, k: nat): Option<nat> {
    match n
    case None => None
    case Some(m) => Some(m + k)
  }

  const START := Scan(0, false, false)

  /** Where the object that opens at `i` ends. */
  function ObjectEnd(t: Text, i: nat): (end: Option<nat>)
    requires i < |t|
    ensures end.Some? ==> i < end.value <= |t|
  {
    match CloseAt(START, t[i..])
    case None => None
    case Some(n) => Some(i + n)
  }

  /** All spans from `i` on: the next opening brace, its object, and so on; an
      opening brace that is never closed ends the search. */
  function Spans(t: Text, i: nat): seq<Span>
    decreases |t| - i
  {
    if i >= |t| then []
    else if t[i] != '{' then Spans(t, i + 1)
    else
      match ObjectEnd(t, i)
      case None => []
      case Some(end) => [Span(i, end)] + Spans(t, end)
  }

  /** The bundles among the spans, in order. */
  function Accepted<T>(t: Text, spans: seq<Span>, parse: Text -> Option<T>): seq<T> {
    if spans == [] then []
    else
      var s := spans[0];
      (if s.from <= s.to <= |t| && parse(t[s.from..s.to]).Some? then [parse(t[s.from..s.to]).value] else [])
      + Accepted(t, spans[1..], parse)
  }

  // ----- The loops of `extract_image_bundles_from` -----

  /** The inner scan. Its depth never goes below zero: the loop decrements it
      only while it is at least one. */
  method ScanObject(t: Text, i: nat) returns (end: Option<nat>)
    requires i < |t| && t[i] == '{'
    ensures end == ObjectEnd(t, i)
  {
    var depth: nat := 0;
    var inString, escaped := false, false;
    var off := 0;
    assert ObjectEnd(t, i) == EndFrom(START, t, i);
    hide ObjectEnd, EndFrom;
    while off < |t| - i
      invariant 0 <= off <= |t| - i
      invariant off > 0 ==> depth >= 1
      invariant off == 0 ==> depth == 0 && !inString && !escaped
      invariant ObjectEnd(t, i) == EndFrom(Scan(depth, inString, escaped), t, i + off)
    {
      var c := t[i + off];
      EndFromSteps(Scan(depth, inString, escaped), t, i + off);
      if escaped {
        escaped := false;
      } else if c == '\\' && inString {
        escaped := true;
      } else if c == '"' {
        inString := !inString;
      } else if c == '{' && !inString {
        depth := depth + 1;
      } else if c == '}' && !inString {
        depth := depth - 1;
        if depth == 0 {
          return Some(i + off + 1);
        }
      }
      off := off + 1;
    }
    EndFromSteps(Scan(depth, inString, escaped), t, i + off);
    return None;
  }

  /** Where the object ends when the scan stands at `k` in state `s`. */
  function EndFrom(s: Scan, t: Text, k: nat): Option<nat>
    requires k <= |t|
  {
    Shift(CloseAt(s, t[k..]), k)
  }

  lemma EndFromSteps(s: Scan, t: Text, k: nat)
    requires k <= |t|
    ensures k < |t| ==> EndFrom(s, t, k) == if Closes(s, t[k]) then Some(k + 1) else EndFrom(Feed(s, t[k]), t, k + 1)
    ensures k == |t| ==> EndFrom(s, t, k) == None
  {
    if k < |t| {
      assert t[k..][1..] == t[k + 1..];
    }
  }

  /** The outer scan with the filter that keeps what parses as a bundle. */
  method ExtractBundles<T>(t: Text, parse: Text -> Option<T>) returns (out: seq<T>, ghost spans: seq<Span>)
    ensures spans == Spans(t, 0)
    ensures out == Accepted(t, Spans(t, 0), parse)
  {
    out, spans := [], [];
    var i := 0;
    while i < |t|
      invariant 0 <= i <= |t|
      invariant spans + Spans(t, i) == Spans(t, 0)
      invariant out == Accepted(t, spans, parse)
    {
      if t[i] != '{' {
        i := i + 1;
        continue;
      }
      var end := ScanObject(t, i);
      if end.None? {
        break;
      }
      var candidate := parse(t[i..end.value]);
      AcceptedSnoc(t, spans, Span(i, end.value), parse);
      if candidate.Some? {
        out := out + [candidate.value];
      }
      spans := spans + [Span(i, end.value)];
      i := end.value;
    }
    assert spans + [] == spans;
  }

  lemma {:induction false} AcceptedSnoc<T>(t: Text, spans: seq<Span>, s: Span, parse: Text -> Option<T>)
    requires s.from <= s.to <= |t|
    ensures Accepted(t, spans + [s], parse) == Accepted(t, spans, parse)
      + if parse(t[s.from..s.to]).Some? then [parse(t[s.from..s.to]).value] else []
  {
    if spans == [] {
      assert spans + [s] == [s];
    } else {
      assert (spans + [s])[1..] == spans[1..] + [s];
      AcceptedSnoc(t, spans[1..], s, parse);
    }
  }

  // ----- What a span is -----

  /** The end found is the first point at which the string-aware depth is back
      at zero, and the depth has been at least one ever since the opening. */
  lemma {:induction false} CloseIsFirst(s: Scan, t: Text, k: nat)
    requires s.depth >= 1 || (s == START && t != [] && t[0] == '{')
    requires k <= |t|
    ensures var n := CloseAt(s, t);
      && (n.Some? && k == n.value ==> FeedAll(s, t[..k]).depth == 0)
      && (0 < k && (n.Some? ==> k < n.value) ==> FeedAll(s, t[..k]).depth >= 1)
    decreases |t|
  {
    if 0 < k {
      assert t[..k][1..] == t[1..][..k - 1];
      if k == 1 {
        assert t[..1][1..] == [];
      }
      if !Closes(s, t[0]) {
        CloseIsFirst(Feed(s, t[0]), t[1..], k - 1);
      }
    }
  }

  lemma SpanEndsAtDepthZero(t: Text, i: nat, k: nat)
    requires i < |t| && t[i] == '{' && ObjectEnd(t, i).Some? && i < k <= ObjectEnd(t, i).value
    ensures FeedAll(START, t[i..k]).depth >= 0
    ensures FeedAll(START, t[i..k]).depth == 0 <==> k == ObjectEnd(t, i).value
  {
    CloseIsFirst(START, t[i..], k - i);
    assert t[i..][..k - i] == t[i..k];
  }

  ghost predicate SpanOk(t: Text, s: Span, i: nat) {
    i <= s.from < s.to <= |t| && t[s.from] == '{' && ObjectEnd(t, s.from) == Some(s.to)
  }

  /** Each span starts no earlier than the one before it ended. */
  ghost predicate InOrder(t: Text, spans: seq<Span>, i: nat) {
    spans == [] || (SpanOk(t, spans[0], i) && InOrder(t, spans[1..], spans[0].to))
  }

  /** Spans are nonempty, start at a brace, end at its close, and follow each
      other without overlap. */
  lemma {:induction false} SpansAreOrdered(t: Text, i: nat)
    ensures InOrder(t, Spans(t, i), i)
    decreases |t| - i
  {
    hide CloseAt;
    if i < |t| && t[i] != '{' {
      SpansAreOrdered(t, i + 1);
      var spans := Spans(t, i + 1);
      assert spans != [] ==> SpanOk(t, spans[0], i + 1);
    } else if i < |t| && ObjectEnd(t, i).Some? {
      SpansAreOrdered(t, ObjectEnd(t, i).value);
      assert Spans(t, i)[1..] == Spans(t, ObjectEnd(t, i).value);
    }
  }

  // ----- Serialized JSON (RFC 8259), with any insignificant whitespace -----

  type Blank = s: Text | forall c :: c in s ==> c in " \t\n\r"
  const NUMBER_CHARS := "+-.0123456789eE"
  type NumberText = s: Text | forall c :: c in s ==> c in NUMBER_CHARS
  type PlainChar = c: char | c != '"' && c != '\\' witness 'a'

  /** A string is made of plain characters and two-character escapes; the four
      digits of a `u` escape are plain characters after it (section 7). */
  datatype StrPart = Plain(c: PlainChar) | Escape(e: char)

  datatype Json =
    | Null | True | False
    | Number(text: NumberText)
    | Str(parts: seq<StrPart>)
    | Arr(inner: Blank, items: Items)
    | Obj(inner: Blank, members: Members)

  datatype Items = NoItems | Item(value: Json, after: Blank, comma: Blank, rest: Items)

  datatype Members =
    | NoMembers
    | Member(key: seq<StrPart>, beforeColon: Blank, afterColon: Blank, value: Json, after: Blank, comma: Blank,
      rest: Members)

  function WritePart(p: StrPart): Text {
    match p
    case Plain(c) => [c as char]
    case Escape(c) => ['\\', c]
  }

  function WriteParts(parts: seq<StrPart>): Text {
    if parts == [] then []
    else WritePart(parts[0]) + WriteParts(parts[1..])
  }

  function Quoted(parts: seq<StrPart>): Text { ['"'] + (WriteParts(parts) + ['"']) }

  function Write(v: Json): Text {
    match v
    case Null => "null"
    case True => "true"
    case False => "false"
    case Number(text) => text
    case Str(parts) => Quoted(parts)
    case Arr(inner, items) => ['['] + (inner + (WriteItems(items) + [']']))
    case Obj(inner, members) => ['{'] + (inner + (WriteMembers(members) + ['}']))
  }

  function WriteItems(items: Items): Text {
    match items
    case NoItems => []
    case Item(v, after, comma, rest) =>
      Write(v) + (after + (if rest.NoItems? then [] else [','] + (comma + WriteItems(rest))))
  }

  function WriteMembers(members: Members): Text {
    match members
    case NoMembers => []
    case Member(key, w1, w2, v, after, comma, rest) =>
      Quoted(key) + (w1 + ([':'] + (w2 + (Write(v) + (after
        + (if rest.NoMembers? then [] else [','] + (comma + WriteMembers(rest))))))))
  }

  // ----- The scan passes over serialized values -----

  lemma CloseCons(s: Scan, c: char, x: Text)
    ensures CloseAt(s, [c] + x) == if Closes(s, c) then Some(1) else Shift(CloseAt(Feed(s, c), x), 1)
  {
    assert ([c] + x)[1..] == x;
  }

  lemma Assoc(x: Text, y: Text, z: Text)
    ensures x + y + z == x + (y + z)
  {
  }

  /** From scan state `s`, the scan passes over `x` in front of `t` and is as before. */
  ghost predicate Passes(s: Scan, x: Text, t: Text) {
    CloseAt(s, x + t) == Shift(CloseAt(s, t), |x|)
  }

  /** From depth `d` outside strings, the scan passes over `x` whatever follows. */
  ghost predicate Skips(d: int, x: Text) {
    forall t: Text :: Passes(Scan(d, false, false), x, t)
  }

  predicate Quiet(x: Text) { '{' !in x && '}' !in x && '"' !in x }

  lemma {:induction false} QuietText(d: int, x: Text, t: Text)
    requires Quiet(x)
    ensures Passes(Scan(d, false, false), x, t)
  {
    hide CloseAt;
    if x == [] {
      assert x + t == t;
    } else {
      QuietText(d, x[1..], t);
      assert x == [x[0]] + x[1..];
      Assoc([x[0]], x[1..], t);
      CloseCons(Scan(d, false, false), x[0], x[1..] + t);
    }
  }

  lemma QuietSkips(d: int, x: Text)
    requires Quiet(x)
    ensures Skips(d, x)
  {
    hide Passes;
    forall t: Text ensures Passes(Scan(d, false, false), x, t) {
      QuietText(d, x, t);
    }
  }

  lemma SkipsBoth(d: int, x: Text, y: Text)
    requires Skips(d, x) && Skips(d, y)
    ensures Skips(d, x + y)
  {
    hide CloseAt;
    forall t: Text ensures Passes(Scan(d, false, false), x + y, t) {
      assert Passes(Scan(d, false, false), y, t) && Passes(Scan(d, false, false), x, y + t);
      Assoc(x, y, t);
    }
  }

  lemma PartPasses(d: int, p: StrPart, t: Text)
    ensures Passes(Scan(d, true, false), WritePart(p), t)
  {
    hide CloseAt;
    match p
    case Plain(c) => CloseCons(Scan(d, true, false), c, t);
    case Escape(c) =>
      assert WritePart(p) + t == ['\\'] + ([c] + t);
      CloseCons(Scan(d, true, false), '\\', [c] + t);
      CloseCons(Scan(d, true, true), c, t);
  }

  lemma {:induction false} InsideString(d: int, parts: seq<StrPart>, t: Text)
    ensures Passes(Scan(d, true, false), WriteParts(parts), t)
  {
    hide CloseAt, WritePart;
    if parts == [] {
      assert WriteParts(parts) + t == t;
    } else {
      InsideString(d, parts[1..], t);
      PartPasses(d, parts[0], WriteParts(parts[1..]) + t);
      Assoc(WritePart(parts[0]), WriteParts(parts[1..]), t);
    }
  }

  lemma QuotedSkips(d: int, parts: seq<StrPart>)
    ensures Skips(d, Quoted(parts))
  {
    hide CloseAt, WriteParts;
    forall t: Text ensures Passes(Scan(d, false, false), Quoted(parts), t) {
      var body, rest := WriteParts(parts), ['"'] + t;
      Assoc(['"'], body + ['"'], t);
      Assoc(body, ['"'], t);
      CloseCons(Scan(d, false, false), '"', body + rest);
      InsideString(d, parts, rest);
      CloseCons(Scan(d, true, false), '"', t);
    }
  }

  /** An object is passed over because its inside is, one level deeper. */
  lemma BracedSkips(d: int, inside: Text)
    requires d >= 1 && Skips(d + 1, inside)
    ensures Skips(d, ['{'] + (inside + ['}']))
  {
    hide CloseAt;
    forall t: Text ensures Passes(Scan(d, false, false), ['{'] + (inside + ['}']), t) {
      var rest := ['}'] + t;
      Assoc(['{'], inside + ['}'], t);
      Assoc(inside, ['}'], t);
      CloseCons(Scan(d, false, false), '{', inside + rest);
      assert Passes(Scan(d + 1, false, false), inside, rest);
      CloseCons(Scan(d + 1, false, false), '}', t);
    }
  }

  lemma WordsAreQuiet()
    ensures Quiet("null") && Quiet("true") && Quiet("false")
  {
  }

  lemma NumberCharsAreQuiet()
    ensures Quiet(NUMBER_CHARS)
  {
  }

  lemma NumberIsQuiet(text: NumberText)
    ensures Quiet(text)
  {
    NumberCharsAreQuiet();
    hide NUMBER_CHARS;
    forall c | c in text ensures c in NUMBER_CHARS {
    }
  }

  lemma {:induction false} ValueSkips(d: int, v: Json)
    requires d >= 1
    ensures Skips(d, Write(v))
    decreases v
  {
    hide Skips, Quiet, CloseAt, WriteItems, WriteMembers, Quoted;
    WordsAreQuiet();
    match v
    case Null => QuietSkips(d, "null");
    case True => QuietSkips(d, "true");
    case False => QuietSkips(d, "false");
    case Number(text) =>
      NumberIsQuiet(text);
      QuietSkips(d, text);
    case Str(parts) => QuotedSkips(d, parts);
    case Arr(inner, items) =>
      ItemsSkip(d, items);
      ArrSkips(d, inner, WriteItems(items));
    case Obj(inner, members) =>
      MembersSkip(d + 1, members);
      ObjSkips(d, inner, WriteMembers(members));
  }

  lemma BlankSkips(d: int, w: Blank)
    ensures Skips(d, w)
  {
    QuietSkips(d, w);
  }

  /** The punctuation between values, and nothing at all. */
  lemma MarksSkip(d: int)
    ensures Skips(d, []) && Skips(d, [',']) && Skips(d, [':']) && Skips(d, ['[']) && Skips(d, [']'])
  {
    hide Skips;
    QuietSkips(d, []);
    QuietSkips(d, [',']);
    QuietSkips(d, [':']);
    QuietSkips(d, ['[']);
    QuietSkips(d, [']']);
  }

  lemma ArrSkips(d: int, inner: Blank, items: Text)
    requires Skips(d, items)
    ensures Skips(d, ['['] + (inner + (items + [']'])))
  {
    hide Skips;
    MarksSkip(d);
    BlankSkips(d, inner);
    SkipsBoth(d, items, [']']);
    SkipsBoth(d, inner, items + [']']);
    SkipsBoth(d, ['['], inner + (items + [']']));
  }

  lemma ObjSkips(d: int, inner: Blank, members: Text)
    requires d >= 1 && Skips(d + 1, members)
    ensures Skips(d, ['{'] + (inner + (members + ['}'])))
  {
    hide Skips;
    BlankSkips(d + 1, inner);
    SkipsBoth(d + 1, inner, members);
    BracedSkips(d, inner + members);
    Assoc(inner, members, ['}']);
  }

  /** A comma, and what follows it. */
  lemma RestSkips(d: int, comma: Blank, rest: Text)
    requires Skips(d, rest)
    ensures Skips(d, []) && Skips(d, [','] + (comma + rest))
  {
    hide Skips;
    MarksSkip(d);
    BlankSkips(d, comma);
    SkipsBoth(d, comma, rest);
    SkipsBoth(d, [','], comma + rest);
  }

  lemma ItemSkips(d: int, v: Text, after: Blank, more: Text)
    requires Skips(d, v) && Skips(d, more)
    ensures Skips(d, v + (after + more))
  {
    hide Skips;
    BlankSkips(d, after);
    SkipsBoth(d, after, more);
    SkipsBoth(d, v, after + more);
  }

  lemma MemberSkips(d: int, key: Text, w1: Blank, w2: Blank, item: Text)
    requires Skips(d, key) && Skips(d, item)
    ensures Skips(d, key + (w1 + ([':'] + (w2 + item))))
  {
    hide Skips;
    MarksSkip(d);
    BlankSkips(d, w1);
    BlankSkips(d, w2);
    SkipsBoth(d, w2, item);
    SkipsBoth(d, [':'], w2 + item);
    SkipsBoth(d, w1, [':'] + (w2 + item));
    SkipsBoth(d, key, w1 + ([':'] + (w2 + item)));
  }

  lemma {:induction false} ItemsSkip(d: int, items: Items)
    requires d >= 1
    ensures Skips(d, WriteItems(items))
    decreases items
  {
    hide Skips, Write;
    match items
    case NoItems => MarksSkip(d);
    case Item(v, after, comma, rest) =>
      ValueSkips(d, v);
      ItemsSkip(d, rest);
      RestSkips(d, comma, WriteItems(rest));
      ItemSkips(d, Write(v), after, if rest.NoItems? then [] else [','] + (comma + WriteItems(rest)));
  }

  lemma {:induction false} MembersSkip(d: int, members: Members)
    requires d >= 1
    ensures Skips(d, WriteMembers(members))
    decreases members
  {
    hide Skips, Write, Quoted;
    match members
    case NoMembers => MarksSkip(d);
    case Member(key, w1, w2, v, after, comma, rest) =>
      MembersSkip(d, rest);
      RestSkips(d, comma, WriteMembers(rest));
      var more := if rest.NoMembers? then [] else [','] + (comma + WriteMembers(rest));
      ValueSkips(d, v);
      ItemSkips(d, Write(v), after, more);
      QuotedSkips(d, key);
      MemberSkips(d, Quoted(key), w1, w2, Write(v) + (after + more));
  }

  /** A serialized object closes exactly at its own end, whatever follows. */
  lemma ObjectCloses(v: Json, t: Text)
    requires v.Obj?
    ensures CloseAt(START, Write(v) + t) == Some(|Write(v)|)
  {
    hide Skips, CloseAt, WriteMembers;
    var inside := v.inner + WriteMembers(v.members);
    BlankSkips(1, v.inner);
    MembersSkip(1, v.members);
    SkipsBoth(1, v.inner, WriteMembers(v.members));
    Assoc(v.inner, WriteMembers(v.members), ['}']);
    BracedCloses(inside, t);
  }

  lemma BracedCloses(inside: Text, t: Text)
    requires Skips(1, inside)
    ensures CloseAt(START, ['{'] + (inside + ['}']) + t) == Some(|['{'] + (inside + ['}'])|)
  {
    hide CloseAt;
    var rest := ['}'] + t;
    Assoc(['{'], inside + ['}'], t);
    Assoc(inside, ['}'], t);
    CloseCons(START, '{', inside + rest);
    assert Passes(Scan(1, false, false), inside, rest);
    CloseCons(Scan(1, false, false), '}', t);
  }

  lemma {:induction false} SkipGap(t: Text, i: nat, n: nat)
    requires i + n <= |t| && forall k :: i <= k < i + n ==> t[k] != '{'
    ensures Spans(t, i) == Spans(t, i + n)
    decreases n
  {
    if n > 0 {
      SkipGap(t, i + 1, n - 1);
    }
  }

  lemma ObjectAt(t: Text, i: nat, v: Json, rest: Text)
    requires v.Obj? && i <= |t| && t[i..] == Write(v) + rest
    ensures i < |t| && t[i] == '{' && ObjectEnd(t, i) == Some(i + |Write(v)|)
  {
    ObjectCloses(v, rest);
    assert t[i..][0] == '{';
  }

  /** The first span is the object exactly when no brace opens before it; then
      the search goes on right behind it. */
  lemma ObjectIsFirstSpan(before: Text, v: Json, after: Text)
    requires v.Obj?
    ensures var t := before + Write(v) + after;
      var mine := Span(|before|, |before| + |Write(v)|);
      && (Spans(t, 0) != [] && Spans(t, 0)[0] == mine <==> '{' !in before)
      && ('{' !in before ==> Spans(t, 0) == [mine] + Spans(t, mine.to))
  {
    hide CloseAt, Write;
    var t := before + Write(v) + after;
    assert t[|before|..] == Write(v) + after;
    ObjectAt(t, |before|, v, after);
    if '{' !in before {
      SkipGap(t, 0, |before|);
    } else {
      var k := FirstBrace(before);
      SkipGap(t, 0, k);
      assert t[k] == '{';
    }
  }

  lemma FirstBrace(x: Text) returns (k: nat)
    requires '{' in x
    ensures k < |x| && x[k] == '{' && '{' !in x[..k]
  {
    k := 0;
    while x[k] != '{'
      invariant k < |x| && '{' !in x[..k] && '{' in x[k..]
      decreases |x| - k
    {
      assert x[k..] == [x[k]] + x[k + 1..];
      assert x[..k + 1] == x[..k] + [x[k]];
      k := k + 1;
    }
  }

  /** A stray opening brace hides every object behind it. */
  lemma StrayBraceHides(v: Json)
    requires v.Obj?
    ensures Spans(['{'] + Write(v), 0) == []
  {
    ValueSkips(1, v);
    var t := ['{'] + Write(v);
    assert Passes(Scan(1, false, false), Write(v), []);
    assert t[0..] == t && t == ['{'] + (Write(v) + []);
    CloseCons(START, '{', Write(v) + []);
    assert CloseAt(START, t) == None;
  }

  // ----- Documents with many objects -----

  /** Brace-free prose, an object, and so on. */
  datatype Document = Tail(text: Text) | Part(prose: Text, obj: Json, rest: Document)

  function WriteDocument(doc: Document): Text {
    match doc
    case Tail(text) => text
    case Part(prose, obj, rest) => prose + (Write(obj) + WriteDocument(rest))
  }

  ghost predicate BraceFreeProse(doc: Document) {
    match doc
    case Tail(text) => '{' !in text
    case Part(prose, obj, rest) => '{' !in prose && obj.Obj? && BraceFreeProse(rest)
  }

  function ObjectSpans(doc: Document, i: nat): seq<Span> {
    match doc
    case Tail(_) => []
    case Part(prose, obj, rest) =>
      var from := i + |prose|;
      [Span(from, from + |Write(obj)|)] + ObjectSpans(rest, from + |Write(obj)|)
  }

  /** All objects of such a document are found, and nothing else. */
  lemma {:induction false} AllObjectsFound(doc: Document, t: Text, i: nat)
    requires BraceFreeProse(doc) && i <= |t| && t[i..] == WriteDocument(doc)
    ensures Spans(t, i) == ObjectSpans(doc, i)
    decreases doc
  {
    hide CloseAt, Write, Spans, ObjectEnd;
    match doc
    case Tail(text) =>
      TailHasNone(t, i);
    case Part(prose, obj, rest) =>
      var from := i + |prose|;
      PartAt(t, i, prose, obj, WriteDocument(rest));
      AllObjectsFound(rest, t, from + |Write(obj)|);
      assert ObjectSpans(doc, i) == [Span(from, from + |Write(obj)|)] + ObjectSpans(rest, from + |Write(obj)|);
  }

  lemma TailHasNone(t: Text, i: nat)
    requires i <= |t| && '{' !in t[i..]
    ensures Spans(t, i) == []
  {
    forall k | i <= k < |t| ensures t[k] != '{' {
      assert t[k] == t[i..][k - i];
    }
    SkipGap(t, i, |t| - i);
  }

  lemma PartAt(t: Text, i: nat, prose: Text, obj: Json, rest: Text)
    requires '{' !in prose && obj.Obj? && i <= |t| && t[i..] == prose + (Write(obj) + rest)
    ensures var from := i + |prose|; var to := from + |Write(obj)|;
      && to <= |t| && t[to..] == rest
      && Spans(t, i) == [Span(from, to)] + Spans(t, to)
  {
    hide CloseAt, Write, ObjectEnd;
    var from := i + |prose|;
    forall k | i <= k < from ensures t[k] != '{' {
      assert t[k] == t[i..][k - i] == prose[k - i];
    }
    SkipGap(t, i, |prose|);
    assert t[from..] == t[i..][|prose|..] == Write(obj) + rest;
    ObjectAt(t, from, obj, rest);
    assert t[from + |Write(obj)|..] == t[from..][|Write(obj)|..] == rest;
  }
}
