/** Line framing of the ACP server: a reader that pulls bytes in chunks of any
    size, cuts them at newlines and never holds more than one capped line plus
    one chunk. The reference is plain splitting of the whole stream. */
module AcpFraming {
  import opened Wrappers

  type Byte = bv8

  const NEWLINE: Byte := 10
  const READ_CHUNK: nat := 8192

  datatype IoError = IoError

  /** One settled line: at most `cap` bytes, and whether bytes were cut off. */
  datatype Line = Line(oversized: bool, bytes: seq<Byte>)

  // ----- Reference: split the whole stream at newlines -----

  /** Length of the first line of `s`, without its newline. */
  function LineEnd(s: seq<Byte>): (p: nat)
    ensures p <= |s| && (p < |s| ==> s[p] == NEWLINE)
    ensures forall i :: 0 <= i < p ==> s[i] != NEWLINE
  {
    if s == [] || s[0] == NEWLINE then 0 else 1 + LineEnd(s[1..])
  }

  function AfterLine(s: seq<Byte>): (rest: seq<Byte>)
    ensures s != [] ==> |rest| < |s|
  {
    if LineEnd(s) < |s| then s[LineEnd(s) + 1..] else []
  }

  function Pieces(s: seq<Byte>): seq<seq<Byte>>
    decreases |s|
  {
    if s == [] then [] else [s[..LineEnd(s)]] + Pieces(AfterLine(s))
  }

  function Settle(piece: seq<Byte>, cap: nat): Line {
    Line(|piece| > cap, if |piece| > cap then piece[..cap] else piece)
  }

  /** What the next call must settle, and what it leaves, is `FirstLine` and `AfterLine`. */
  function FirstLine(s: seq<Byte>, cap: nat): Option<Line> {
    if s == [] then None else Some(Settle(s[..LineEnd(s)], cap))
  }

  function SettleAll(pieces: seq<seq<Byte>>, cap: nat): (lines: seq<Line>)
    ensures |lines| == |pieces|
    ensures forall i :: 0 <= i < |pieces| ==> lines[i] == Settle(pieces[i], cap)
  {
    seq(|pieces|, i requires 0 <= i < |pieces| => Settle(pieces[i], cap))
  }

  /** Pieces put back together: a newline after each, after the last only if `closed`. */
  function Join(pieces: seq<seq<Byte>>, closed: bool): seq<Byte> {
    if pieces == [] then []
    else if |pieces| == 1 && !closed then pieces[0]
    else pieces[0] + ([NEWLINE] + Join(pieces[1..], closed))
  }

  ghost predicate NewlineFree(pieces: seq<seq<Byte>>) {
    forall i :: 0 <= i < |pieces| ==> NEWLINE !in pieces[i]
  }

  /** The end of the first line is the only place that looks like it. */
  lemma LineEndIs(s: seq<Byte>, p: nat)
    requires p <= |s| && (p < |s| ==> s[p] == NEWLINE)
    requires forall i :: 0 <= i < p ==> s[i] != NEWLINE
    ensures LineEnd(s) == p
  {
    hide LineEnd;
    assert !(LineEnd(s) < p) && !(p < LineEnd(s));
  }

  lemma SplitConcat(a: seq<Byte>, b: seq<Byte>, n: nat)
    requires n <= |a|
    ensures (a + b)[..n] == a[..n]
    ensures (a + b)[n..] == a[n..] + b
  {
  }

  lemma SplitAround(s: seq<Byte>, p: nat)
    requires p < |s|
    ensures s == s[..p] + [s[p]] + s[p + 1..]
  {
  }

  /** A stream whose buffered part `a` holds a newline. */
  lemma CutInFront(a: seq<Byte>, b: seq<Byte>, cap: nat)
    requires NEWLINE in a
    ensures LineEnd(a) < |a|
    ensures FirstLine(a + b, cap) == Some(Settle(a[..LineEnd(a)], cap))
    ensures AfterLine(a + b) == a[LineEnd(a) + 1..] + b
  {
    hide LineEnd, Settle;
    var p := LineEnd(a);
    LineEndIs(a + b, p);
    SplitConcat(a, b, p);
    SplitConcat(a, b, p + 1);
  }

  /** A stream whose buffered part `a` holds no newline. */
  lemma CutBehind(a: seq<Byte>, b: seq<Byte>, cap: nat)
    requires NEWLINE !in a
    ensures AfterLine(a + b) == AfterLine(b)
    ensures |a| > cap ==> FirstLine(a + b, cap) == Some(Line(true, a[..cap]))
    ensures b == [] && a != [] ==> FirstLine(a + b, cap) == Some(Settle(a, cap))
  {
    hide LineEnd;
    var p := |a| + LineEnd(b);
    LineEndIs(a + b, p);
    if LineEnd(b) < |b| {
      assert (a + b)[p + 1..] == b[LineEnd(b) + 1..];
    }
    if |a| > cap {
      assert (a + b)[..p][..cap] == a[..cap];
    }
    if b == [] {
      assert (a + b)[..p] == a;
    }
  }

  lemma NothingLeft(cap: nat)
    ensures FirstLine([], cap) == None && AfterLine([]) == []
  {
  }

  lemma LineAndRest(s: seq<Byte>)
    ensures LineEnd(s) < |s| ==> s == s[..LineEnd(s)] + ([NEWLINE] + AfterLine(s))
    ensures LineEnd(s) == |s| ==> s[..LineEnd(s)] == s && NEWLINE !in s
  {
    hide LineEnd;
    if LineEnd(s) < |s| {
      SplitAround(s, LineEnd(s));
      Reassociate(s[..LineEnd(s)], [NEWLINE], AfterLine(s));
    }
  }

  predicate Closed(s: seq<Byte>) { s != [] && s[|s| - 1] == NEWLINE }

  /** Splitting loses nothing: newline-free pieces that join to the stream. */
  lemma {:induction false} PiecesJoin(s: seq<Byte>)
    ensures NewlineFree(Pieces(s))
    ensures Join(Pieces(s), Closed(s)) == s
    decreases |s|
  {
    hide LineEnd, Pieces, Join, AfterLine, NewlineFree, Closed;
    NoPieces(Closed(s));
    if s != [] {
      LineAndRest(s);
      if LineEnd(s) == |s| {
        UnclosedLine(s);
      } else {
        var rest := AfterLine(s);
        PiecesJoin(rest);
        ClosedLine(s[..LineEnd(s)], rest);
      }
    }
  }

  lemma UnclosedLine(s: seq<Byte>)
    requires s != [] && NEWLINE !in s
    ensures NewlineFree(Pieces(s)) && !Closed(s) && Join(Pieces(s), false) == s
  {
    LonePiece(s);
    hide Pieces;
  }

  lemma ClosedLine(line: seq<Byte>, rest: seq<Byte>)
    requires NEWLINE !in line && NewlineFree(Pieces(rest)) && Join(Pieces(rest), Closed(rest)) == rest
    ensures var s := line + ([NEWLINE] + rest);
      NewlineFree(Pieces(s)) && Join(Pieces(s), Closed(s)) == s
  {
    hide LineEnd, Pieces, AfterLine, Join, NewlineFree, Closed;
    FirstPiece(line, rest);
    ClosedByRest(line, rest);
    FreeCons(line, Pieces(rest));
    NoPieces(true);
    PiecesOfSome(rest);
    JoinCons(line, Pieces(rest), rest == [] || Closed(rest));
  }

  lemma ClosedByRest(line: seq<Byte>, rest: seq<Byte>)
    ensures Closed(line + ([NEWLINE] + rest)) <==> rest == [] || Closed(rest)
  {
  }

  lemma FreeCons(line: seq<Byte>, pieces: seq<seq<Byte>>)
    requires NEWLINE !in line && NewlineFree(pieces)
    ensures NewlineFree([line] + pieces)
  {
  }

  lemma PiecesOfSome(s: seq<Byte>)
    ensures Pieces(s) == [] <==> s == []
  {
  }

  lemma JoinCons(line: seq<Byte>, rest: seq<seq<Byte>>, closed: bool)
    ensures Join([line] + rest, closed) == if rest == [] && !closed then line
      else line + ([NEWLINE] + Join(rest, closed))
  {
    assert ([line] + rest)[1..] == rest;
  }

  /** ... and it is the only such cut: any newline-free pieces that join to the
      stream are the pieces the stream is split into. */
  lemma {:induction false} PiecesUnique(pieces: seq<seq<Byte>>, closed: bool)
    requires NewlineFree(pieces)
    requires pieces != [] && !closed ==> pieces[|pieces| - 1] != []
    ensures Pieces(Join(pieces, closed)) == pieces
  {
    hide LineEnd, Join, Pieces, NewlineFree;
    if pieces != [] {
      HeadAndTail(pieces, closed);
      if |pieces| == 1 && !closed {
        LonePiece(pieces[0]);
      } else {
        FirstPiece(pieces[0], Join(pieces[1..], closed));
        PiecesUnique(pieces[1..], closed);
      }
    } else {
      NoPieces(closed);
    }
  }

  lemma HeadAndTail(pieces: seq<seq<Byte>>, closed: bool)
    requires NewlineFree(pieces) && pieces != []
    ensures NEWLINE !in pieces[0] && NewlineFree(pieces[1..]) && pieces == [pieces[0]] + pieces[1..]
    ensures |pieces| == 1 && !closed ==> pieces == [pieces[0]] && Join(pieces, closed) == pieces[0]
    ensures |pieces| > 1 || closed ==> Join(pieces, closed) == pieces[0] + ([NEWLINE] + Join(pieces[1..], closed))
  {
    forall i | 0 <= i < |pieces[1..]| ensures NEWLINE !in pieces[1..][i] {
      assert pieces[1..][i] == pieces[i + 1];
    }
  }

  lemma NoPieces(closed: bool)
    ensures Join([], closed) == [] && Pieces([]) == [] && NewlineFree([])
  {
  }

  lemma LonePiece(p: seq<Byte>)
    requires NEWLINE !in p && p != []
    ensures Pieces(p) == [p]
  {
    hide LineEnd;
    LineEndIs(p, |p|);
    assert p[..|p|] == p;
  }

  lemma FirstPiece(p: seq<Byte>, tail: seq<Byte>)
    requires NEWLINE !in p
    ensures Pieces(p + ([NEWLINE] + tail)) == [p] + Pieces(tail)
  {
    hide LineEnd;
    var s := p + ([NEWLINE] + tail);
    LineEndIs(s, |p|);
    assert s[..|p|] == p && AfterLine(s) == tail;
  }

  // ----- The byte source: any chunking, and it may fail -----

  class ByteSource {
    var unread: seq<Byte>

    constructor (stream: seq<Byte>)
      ensures unread == stream
    {
      unread := stream;
    }

    /** A read takes any nonempty amount up to a full chunk; nothing at the end
        of the stream only. How much it takes is left open. */
    method Read() returns (r: Result<seq<Byte>, IoError>)
      modifies this
      ensures r.Err? ==> unread == old(unread)
      ensures r.Ok? ==> |r.value| <= READ_CHUNK && old(unread) == r.value + unread
      ensures r.Ok? ==> (r.value == [] <==> old(unread) == [])
    {
      var fails: bool := *;
      if fails {
        return Err(IoError);
      }
      if unread == [] {
        return Ok([]);
      }
      var n: nat :| 1 <= n <= |unread| && n <= READ_CHUNK;
      r := Ok(unread[..n]);
      unread := unread[n..];
    }
  }

  // ----- The reader -----

  class LineReader {
    const reader: ByteSource
    const cap: nat
    var pending: seq<Byte>
    var dropping: bool

    ghost predicate Valid()
      reads this
    {
      |pending| <= cap + READ_CHUNK
    }

    /** The bytes that still have to appear in lines: while the rest of an
        oversized line is being dropped, only what follows its newline. */
    ghost function Stream(): seq<Byte>
      reads this, reader
    {
      if dropping then AfterLine(pending + reader.unread) else pending + reader.unread
    }

    constructor (reader: ByteSource, cap: nat)
      ensures Valid() && this.reader == reader && this.cap == cap
      ensures Stream() == reader.unread
    {
      this.reader, this.cap := reader, cap;
      pending, dropping := [], false;
    }

    /** The rest of an oversized line goes, up to its newline or all of it. */
    method SkipDropped()
      requires Valid()
      modifies this
      ensures Valid() && Stream() == old(Stream())
      ensures dropping ==> pending == []
    {
      hide LineEnd, AfterLine, FirstLine, Settle;
      if dropping {
        if NEWLINE in pending {
          CutInFront(pending, reader.unread, cap);
          pending := pending[LineEnd(pending) + 1..];
          dropping := false;
        } else {
          CutBehind(pending, reader.unread, cap);
          CutBehind([], reader.unread, cap);
          pending := [];
        }
      }
    }

    /** The next line, if the buffer holds one or is over the cap. */
    method SettlePending() returns (line: Option<Line>)
      requires Valid() && (dropping ==> pending == [])
      modifies this
      ensures Valid()
      ensures line.None? ==>
        pending == old(pending) && dropping == old(dropping) && |pending| <= cap && NEWLINE !in pending
      ensures line.Some? ==> line == FirstLine(old(Stream()), cap) && Stream() == AfterLine(old(Stream()))
    {
      hide LineEnd, AfterLine, FirstLine, Settle;
      if NEWLINE in pending {
        CutInFront(pending, reader.unread, cap);
        line := Some(Settle(pending[..LineEnd(pending)], cap));
        pending := pending[LineEnd(pending) + 1..];
        return;
      }
      CutBehind(pending, reader.unread, cap);
      if |pending| > cap {
        line := Some(Line(true, pending[..cap]));
        CutBehind([], reader.unread, cap);
        pending, dropping := [], true;
        return;
      }
      line := None;
    }

    /** Each call settles exactly the next line of the stream, whatever the
        chunks were; a failed read loses no byte. */
    method NextLine() returns (r: Result<Option<Line>, IoError>)
      requires Valid()
      modifies this, reader
      ensures Valid()
      ensures r.Err? ==> Stream() == old(Stream())
      ensures r.Ok? ==> r.value == FirstLine(old(Stream()), cap) && Stream() == AfterLine(old(Stream()))
    {
      hide LineEnd, AfterLine, FirstLine, Settle;
      while true
        invariant Valid()
        invariant Stream() == old(Stream())
        decreases |reader.unread|
      {
        SkipDropped();
        var line := SettlePending();
        if line.Some? {
          return Ok(line);
        }
        ghost var unread := reader.unread;
        var chunk := reader.Read();
        if chunk.Err? {
          return Err(IoError);
        }
        if chunk.value == [] {
          NothingLeft(cap);
          if pending == [] {
            return Ok(None);
          }
          CutBehind(pending, [], cap);
          var rest := pending;
          pending := [];
          return Ok(Some(Settle(rest, cap)));
        }
        Reassociate(pending, chunk.value, reader.unread);
        pending := pending + chunk.value;
      }
    }
  }

  lemma Reassociate<T>(a: seq<T>, b: seq<T>, c: seq<T>)
    ensures a + (b + c) == (a + b) + c
  {
  }

  // ----- The serving loop -----

  /** What the server does with a settled line. */
  datatype Handling = SizeError | Skipped | Parsed(bytes: seq<Byte>)

  function Handle(line: Line, blank: seq<Byte> -> bool): Handling {
    if line.oversized then SizeError else if blank(line.bytes) then Skipped else Parsed(line.bytes)
  }

  function HandleAll(lines: seq<Line>, blank: seq<Byte> -> bool): (hs: seq<Handling>)
    ensures |hs| == |lines|
    ensures forall i :: 0 <= i < |lines| ==> hs[i] == Handle(lines[i], blank)
  {
    seq(|lines|, i requires 0 <= i < |lines| => Handle(lines[i], blank))
  }

  /** The reference for the loop: split, truncate, handle. */
  function Served(s: seq<Byte>, cap: nat, blank: seq<Byte> -> bool): seq<Handling> {
    HandleAll(SettleAll(Pieces(s), cap), blank)
  }

  lemma ServedStep(s: seq<Byte>, cap: nat, blank: seq<Byte> -> bool)
    ensures s == [] ==> Served(s, cap, blank) == []
    ensures s != [] ==>
      Served(s, cap, blank) == [Handle(FirstLine(s, cap).value, blank)] + Served(AfterLine(s), cap, blank)
  {
    hide LineEnd, AfterLine, Settle, Handle;
    if s != [] {
      assert Pieces(s) == [s[..LineEnd(s)]] + Pieces(AfterLine(s));
    }
  }

  /** The loop handles the split of the whole stream, in order; on an input
      error it has handled a prefix of it. */
  method ReadDispatchLoop(stream: seq<Byte>, cap: nat, blank: seq<Byte> -> bool)
    returns (handled: seq<Handling>, failed: bool)
    ensures !failed ==> handled == Served(stream, cap, blank)
    ensures failed ==> handled <= Served(stream, cap, blank)
  {
    hide LineEnd, AfterLine, Settle, Handle, Served;
    var source := new ByteSource(stream);
    var lines := new LineReader(source, cap);
    handled, failed := [], false;
    while true
      invariant lines.Valid() && fresh(lines) && fresh(lines.reader) && lines.cap == cap
      invariant handled + Served(lines.Stream(), cap, blank) == Served(stream, cap, blank)
      decreases |lines.Stream()|
    {
      ghost var rest, done := lines.Stream(), handled;
      ServedStep(rest, cap, blank);
      var r := lines.NextLine();
      if r.Err? {
        return handled, true;
      }
      if r.value.None? {
        return handled, false;
      }
      handled := handled + [Handle(r.value.value, blank)];
      Reassociate(done, [Handle(r.value.value, blank)], Served(AfterLine(rest), cap, blank));
    }
  }
}
