/** The byte pumps of the bridge client: for every connection one task writes the
    downstream payloads to the local socket from a bounded queue, and one reads
    the socket and sends numbered frames upstream. */
module ConnPump {
  import opened Wrappers

  type Bytes = seq<bv8>

  const CONN_READ_BUF: nat := 16384
  const CONN_WRITE_CAPACITY: nat := 16

  function Concat(parts: seq<Bytes>): Bytes {
    if parts == [] then [] else Concat(parts[..|parts| - 1]) + parts[|parts| - 1]
  }

  lemma ConcatSnoc(parts: seq<Bytes>, x: Bytes)
    ensures Concat(parts + [x]) == Concat(parts) + x
  {
    assert (parts + [x])[..|parts|] == parts;
  }

  // ----- Upstream: the read pump -----

  datatype Frame = Frame(number: nat, data: Bytes, fin: bool)

  /** What one read of the local socket gives. */
  datatype Read = Got(data: Bytes) | Eof | Failed

  predicate Possible(r: Read) { r.Got? ==> 0 < |r.data| <= CONN_READ_BUF }

  /** Numbers 0, 1, 2, ...; a frame is empty exactly when it carries the end
      mark, and only the last frame may. */
  ghost predicate WellNumbered(frames: seq<Frame>) {
    && (forall k :: 0 <= k < |frames| ==> frames[k].number == k)
    && (forall k :: 0 <= k < |frames| ==> (frames[k].fin <==> frames[k].data == []))
    && (forall k :: 0 <= k < |frames| - 1 ==> !frames[k].fin)
  }

  function DataOf(frames: seq<Frame>): seq<Bytes> {
    if frames == [] then [] else DataOf(frames[..|frames| - 1]) + [frames[|frames| - 1].data]
  }

  /** The bytes read up to the first that gives none. */
  function BytesRead(input: seq<Read>): Bytes {
    if input == [] || !input[0].Got? then [] else input[0].data + BytesRead(input[1..])
  }

  ghost predicate Ends(input: seq<Read>) { exists k :: 0 <= k < |input| && input[k].Eof? && AllData(input, k) }

  predicate AllData(input: seq<Read>, k: nat)
    requires k <= |input|
  {
    forall j :: 0 <= j < k ==> input[j].Got?
  }

  /** The read loop over what the socket gives until it ends, fails, or the task
      is aborted (the input is used up). */
  method ReadPump(input: seq<Read>) returns (frames: seq<Frame>, failed: bool)
    requires forall k :: 0 <= k < |input| ==> Possible(input[k])
    ensures WellNumbered(frames)
    ensures Concat(DataOf(frames)) == BytesRead(input)
    ensures (frames != [] && frames[|frames| - 1].fin) <==> Ends(input)
    ensures forall k :: 0 <= k < |frames| ==> |frames[k].data| <= CONN_READ_BUF
    ensures failed ==> frames == [] || !frames[|frames| - 1].fin
  {
    hide WellNumbered, DataOf, Concat, BytesRead, Ends;
    frames, failed := [], false;
    var number: nat := 0;
    PumpStart(input);
    while number < |input|
      invariant number == |frames| <= |input|
      invariant AllData(input, number)
      invariant Plain(frames, input)
      invariant Concat(DataOf(frames)) + BytesRead(input[number..]) == BytesRead(input)
    {
      assert Possible(input[number]);
      PumpStep(frames, input);
      match input[number] {
        case Eof =>
          frames := frames + [Frame(number, [], true)];
          return;
        case Failed =>
          failed := true;
          return;
        case Got(data) =>
          frames := frames + [Frame(number, data, false)];
          number := number + 1;
      }
    }
    PumpAborted(frames, input);
  }

  /** One frame for every read so far. */
  ghost predicate Plain(frames: seq<Frame>, input: seq<Read>) {
    |frames| <= |input| && forall k :: 0 <= k < |frames| ==>
      input[k].Got? && 0 < |input[k].data| <= CONN_READ_BUF && frames[k] == Frame(k, input[k].data, false)
  }

  lemma PumpStart(input: seq<Read>)
    ensures Concat(DataOf([])) + BytesRead(input[0..]) == BytesRead(input)
  {
    assert input[0..] == input;
  }

  lemma PumpStep(frames: seq<Frame>, input: seq<Read>)
    requires Plain(frames, input) && |frames| < |input| && Possible(input[|frames|])
    requires AllData(input, |frames|)
    requires Concat(DataOf(frames)) + BytesRead(input[|frames|..]) == BytesRead(input)
    ensures var n, r := |frames|, input[|frames|];
      && WellNumbered(frames) && (frames != [] ==> !frames[n - 1].fin)
      && (r.Eof? ==>
          && WellNumbered(frames + [Frame(n, [], true)])
          && Concat(DataOf(frames + [Frame(n, [], true)])) == BytesRead(input) && Ends(input))
      && (r.Failed? ==> Concat(DataOf(frames)) == BytesRead(input) && !Ends(input))
      && (r.Got? ==> Concat(DataOf(frames + [Frame(n, r.data, false)])) + BytesRead(input[n + 1..]) == BytesRead(input))
  {
    hide Concat, DataOf, BytesRead, Ends, AllData, WellNumbered, Plain;
    var n, done := |frames|, Concat(DataOf(frames));
    PlainIsNumbered(frames, input);
    NextRead(input, n);
    DataOfSnoc(frames, Frame(n, [], true));
    NothingAdded(done);
    if input[n].Got? {
      var data, rest := input[n].data, BytesRead(input[n + 1..]);
      DataOfSnoc(frames, Frame(n, data, false));
      Regroup3(done, data, rest);
    }
  }

  lemma NothingAdded(x: Bytes)
    ensures x + [] == x
  {
  }

  lemma Regroup3(x: Bytes, y: Bytes, z: Bytes)
    ensures x + y + z == x + (y + z)
  {
  }

  lemma PlainIsNumbered(frames: seq<Frame>, input: seq<Read>)
    requires Plain(frames, input)
    ensures WellNumbered(frames) && WellNumbered(frames + [Frame(|frames|, [], true)])
    ensures frames != [] ==> !frames[|frames| - 1].fin
  {
  }

  /** How the next read settles the input. */
  lemma NextRead(input: seq<Read>, n: nat)
    requires n < |input| && AllData(input, n)
    ensures input[n].Got? ==> BytesRead(input[n..]) == input[n].data + BytesRead(input[n + 1..])
    ensures !input[n].Got? ==> BytesRead(input[n..]) == [] && (Ends(input) <==> input[n].Eof?)
  {
    assert input[n..][1..] == input[n + 1..];
    assert !input[n].Got? ==> forall k :: 0 <= k < |input| && AllData(input, k) ==> k <= n;
  }

  lemma PumpAborted(frames: seq<Frame>, input: seq<Read>)
    requires Plain(frames, input) && |frames| == |input| && AllData(input, |input|)
    requires Concat(DataOf(frames)) + BytesRead(input[|frames|..]) == BytesRead(input)
    ensures WellNumbered(frames) && Concat(DataOf(frames)) == BytesRead(input) && !Ends(input)
    ensures frames != [] ==> !frames[|frames| - 1].fin
  {
    hide Concat, DataOf;
    assert input[|frames|..] == [];
  }

  lemma DataOfSnoc(frames: seq<Frame>, f: Frame)
    ensures DataOf(frames + [f]) == DataOf(frames) + [f.data]
    ensures Concat(DataOf(frames + [f])) == Concat(DataOf(frames)) + f.data
  {
    assert (frames + [f])[..|frames|] == frames;
    ConcatSnoc(DataOf(frames), f.data);
  }

  // ----- All connections of a session as a transition system -----

  datatype Command = Data(bytes: Bytes) | CloseAll

  datatype Writer = Waiting | Writing(rest: Bytes) | Stopped

  /** One connection. `offered` are the payloads that reached it, `accepted` those
      that entered its queue, `socket` what it has read: all history. */
  datatype Conn = Conn(
    queue: seq<Command>, open: bool, writer: Writer, written: Bytes, offered: seq<Bytes>, accepted: seq<Bytes>,
    reading: bool, socket: Bytes, frames: seq<Frame>)

  /** All connections ever made, and the table of those that a connection id
      names now. */
  datatype State = State(conns: seq<Conn>, table: map<nat, nat>)

  datatype Event =
    | Open(id: nat)
    | Payload(id: nat, decoded: Option<Bytes>)   // None: the text does not decode
    | CloseDown(id: nat)
    | WriterTakes(c: nat)
    | WriterWrites(c: nat, n: nat)
    | WriterFails(c: nat)
    | WriterEnds(c: nat)
    | GetsBytes(c: nat, data: Bytes)
    | SeesEof(c: nat)
    | StopsReading(c: nat)

  function Init(): State { State([], map[]) }

  const FRESH := Conn([], true, Waiting, [], [], [], true, [], [])

  predicate Enabled(s: State, e: Event) {
    match e
    case Open(_) => true
    case Payload(id, _) => id in s.table ==> s.table[id] < |s.conns|
    case CloseDown(id) => id in s.table ==> s.table[id] < |s.conns|
    case WriterTakes(c) => c < |s.conns| && s.conns[c].writer.Waiting? && s.conns[c].queue != []
    case WriterWrites(c, n) => c < |s.conns| && s.conns[c].writer.Writing? && 0 < n <= |s.conns[c].writer.rest|
    case WriterFails(c) => c < |s.conns| && s.conns[c].writer.Writing?
    case WriterEnds(c) => c < |s.conns| && s.conns[c].writer.Waiting? && s.conns[c].queue == [] && !s.conns[c].open
    case GetsBytes(c, data) => c < |s.conns| && s.conns[c].reading && 0 < |data| <= CONN_READ_BUF
    case SeesEof(c) => c < |s.conns| && s.conns[c].reading
    case StopsReading(c) => c < |s.conns| && s.conns[c].reading
  }

  /** A non-waiting send; it fails on a full queue and when the writer is gone. */
  predicate Takes(c: Conn) { |c.queue| < CONN_WRITE_CAPACITY && !c.writer.Stopped? }

  function Closed(c: Conn): Conn {
    c.(open := false, queue := if Takes(c) then c.queue + [CloseAll] else c.queue)
  }

  /** Offer a nonempty payload. */
  function Offer(c: Conn, data: Bytes): Conn {
    var told := c.(offered := c.offered + [data]);
    if Takes(c) then told.(queue := c.queue + [Data(data)], accepted := c.accepted + [data]) else Closed(told)
  }

  function AfterWrite(c: Conn, n: nat): Conn
    requires c.writer.Writing? && 0 < n <= |c.writer.rest|
  {
    var rest := c.writer.rest[n..];
    c.(written := c.written + c.writer.rest[..n], writer := if rest == [] then Waiting else Writing(rest))
  }

  function AfterTake(c: Conn): Conn
    requires c.queue != []
  {
    c.(queue := c.queue[1..],
       writer := match c.queue[0]
         case CloseAll => Stopped
         case Data(bytes) => if bytes == [] then Waiting else Writing(bytes))
  }

  function Put(s: State, c: nat, x: Conn): State
    requires c < |s.conns|
  {
    s.(conns := s.conns[c := x])
  }

  function Drop(s: State, id: nat): State
    requires id in s.table ==> s.table[id] < |s.conns|
  {
    if id !in s.table then s
    else Put(s, s.table[id], Closed(s.conns[s.table[id]])).(table := s.table - {id})
  }

  function Apply(s: State, e: Event): State
    requires Enabled(s, e)
  {
    match e
    case Open(id) =>
      var kept := if id in s.table && s.table[id] < |s.conns|
        then s.conns[s.table[id] := s.conns[s.table[id]].(open := false)] else s.conns;
      State(kept + [FRESH], s.table[id := |s.conns|])
    case Payload(id, decoded) =>
      if decoded.None? then Drop(s, id)
      else if id !in s.table || decoded.value == [] then s
      else
        var c := s.conns[s.table[id]];
        Put(s, s.table[id], Offer(c, decoded.value)).(table := if Takes(c) then s.table else s.table - {id})
    case CloseDown(id) => Drop(s, id)
    case WriterTakes(c) => Put(s, c, AfterTake(s.conns[c]))
    case WriterWrites(c, n) => Put(s, c, AfterWrite(s.conns[c], n))
    case WriterFails(c) => Put(s, c, s.conns[c].(writer := Stopped))
    case WriterEnds(c) => Put(s, c, s.conns[c].(writer := Stopped))
    case GetsBytes(c, data) =>
      var x := s.conns[c];
      Put(s, c, x.(socket := x.socket + data, frames := x.frames + [Frame(|x.frames|, data, false)]))
    case SeesEof(c) =>
      var x := s.conns[c];
      Put(s, c, x.(reading := false, frames := x.frames + [Frame(|x.frames|, [], true)]))
    case StopsReading(c) => Put(s, c, s.conns[c].(reading := false))
  }

  function Step(s: State, e: Event): State { if Enabled(s, e) then Apply(s, e) else s }

  function Run(es: seq<Event>): State {
    if es == [] then Init() else Step(Run(es[..|es| - 1]), es[|es| - 1])
  }

  // ----- Invariant -----

  function Queued(queue: seq<Command>): Bytes {
    if queue == [] then []
    else (match queue[0] case Data(bytes) => bytes case CloseAll => []) + Queued(queue[1..])
  }

  function InHand(w: Writer): Bytes { if w.Writing? then w.rest else [] }

  /** While the writer lives, nothing accepted is lost: it is written, in hand or
      queued. A closed connection takes nothing more. */
  ghost predicate WriteOk(c: Conn) {
    && |c.queue| <= CONN_WRITE_CAPACITY
    && (!c.writer.Stopped? ==> c.written + InHand(c.writer) + Queued(c.queue) == Concat(c.accepted))
    && c.written <= Concat(c.accepted)
    && c.accepted <= c.offered
    && (c.open ==> c.accepted == c.offered && forall k :: 0 <= k < |c.queue| ==> c.queue[k].Data?)
    && (forall k :: 0 <= k < |c.queue| - 1 ==> c.queue[k].Data?)
    && (!c.open ==> |c.offered| <= |c.accepted| + 1)
  }

  ghost predicate ReadOk(c: Conn) {
    && WellNumbered(c.frames)
    && Concat(DataOf(c.frames)) == c.socket
    && (c.reading ==> c.frames == [] || !c.frames[|c.frames| - 1].fin)
  }

  ghost predicate TableOk(s: State) {
    && (forall id :: id in s.table ==> s.table[id] < |s.conns| && s.conns[s.table[id]].open)
    && (forall id, jd :: id in s.table && jd in s.table && id != jd ==> s.table[id] != s.table[jd])
  }

  ghost predicate Inv(s: State) {
    TableOk(s) && forall c :: 0 <= c < |s.conns| ==> WriteOk(s.conns[c]) && ReadOk(s.conns[c])
  }

  lemma {:induction false} QueuedSnoc(queue: seq<Command>, x: Command)
    ensures Queued(queue + [x]) == Queued(queue) + (if x.Data? then x.bytes else [])
  {
    if queue != [] {
      assert (queue + [x])[1..] == queue[1..] + [x];
      QueuedSnoc(queue[1..], x);
    }
  }

  lemma OfferKeeps(c: Conn, data: Bytes)
    requires WriteOk(c) && c.open
    ensures WriteOk(Offer(c, data)) && (Takes(c) <==> Offer(c, data).open)
  {
    if Takes(c) {
      AcceptKeeps(c, data);
    } else {
      RefuseKeeps(c, data);
    }
    hide WriteOk;
  }

  lemma AcceptKeeps(c: Conn, data: Bytes)
    requires WriteOk(c) && c.open && Takes(c)
    ensures WriteOk(Offer(c, data))
  {
    QueuedSnoc(c.queue, Data(data));
    ConcatSnoc(c.accepted, data);
    hide Queued, Concat;
    Regroup(c.written, InHand(c.writer), Queued(c.queue), data);
    assert c.accepted + [data] == c.offered + [data];
  }

  lemma Regroup(w: Bytes, h: Bytes, q: Bytes, data: Bytes)
    ensures w + h + (q + data) == w + h + q + data
    ensures w <= w + h + q + data
  {
  }

  lemma RefuseKeeps(c: Conn, data: Bytes)
    requires WriteOk(c) && c.open && !Takes(c)
    ensures WriteOk(Offer(c, data))
  {
    hide Queued, Concat;
  }

  lemma CloseKeeps(c: Conn)
    requires WriteOk(c) && c.open
    ensures WriteOk(Closed(c))
  {
    QueuedSnoc(c.queue, CloseAll);
    assert Queued(c.queue) + [] == Queued(c.queue);
    hide Queued, Concat;
  }

  lemma TakeKeeps(c: Conn)
    requires WriteOk(c) && c.writer.Waiting? && c.queue != []
    ensures WriteOk(AfterTake(c))
  {
    hide Concat;
    assert c.written + [] == c.written;
    var q := Queued(c.queue[1..]);
    assert c.queue[0].Data? ==> c.written + (c.queue[0].bytes + q) == c.written + c.queue[0].bytes + q;
    assert c.queue[0].Data? && c.queue[0].bytes == [] ==> [] + q == q;
  }

  lemma WriteKeeps(c: Conn, n: nat)
    requires WriteOk(c) && c.writer.Writing? && 0 < n <= |c.writer.rest|
    ensures WriteOk(AfterWrite(c, n))
  {
    hide Concat, Queued;
    var w, r, q := c.written, c.writer.rest, Queued(c.queue);
    assert r == r[..n] + r[n..];
    assert w + r[..n] + r[n..] + q == w + r + q;
    assert w + r[..n] <= w + r + q;
    assert r[n..] == [] ==> w + r[..n] + [] + q == w + r + q;
  }

  lemma ReadKeeps(c: Conn, data: Bytes, fin: bool)
    requires ReadOk(c) && c.reading && (fin <==> data == [])
    ensures ReadOk(c.(reading := !fin, socket := c.socket + data, frames := c.frames + [Frame(|c.frames|, data, fin)]))
  {
    DataOfSnoc(c.frames, Frame(|c.frames|, data, fin));
    hide DataOf, Concat;
  }

  /** The connection an event is about, other than by opening. */
  function About(s: State, e: Event): Option<nat> {
    match e
    case Open(id) => if id in s.table then Some(s.table[id]) else None
    case Payload(id, _) => if id in s.table then Some(s.table[id]) else None
    case CloseDown(id) => if id in s.table then Some(s.table[id]) else None
    case _ => Some(e.c)
  }

  lemma FreshIsOk()
    ensures WriteOk(FRESH) && ReadOk(FRESH)
  {
    assert [] + [] + Queued([]) == Concat([]);
  }

  lemma CutOffKeeps(c: Conn)
    requires WriteOk(c)
    ensures WriteOk(c.(open := false))
  {
  }

  lemma StopKeeps(c: Conn)
    requires WriteOk(c)
    ensures WriteOk(c.(writer := Stopped))
  {
  }

  lemma StepConn(s: State, e: Event, c: nat)
    requires Inv(s) && Enabled(s, e) && c < |Apply(s, e).conns|
    ensures WriteOk(Apply(s, e).conns[c]) && ReadOk(Apply(s, e).conns[c])
  {
    assert c < |s.conns| ==> WriteOk(s.conns[c]) && ReadOk(s.conns[c]);
    FreshIsOk();
    if c < |s.conns| && About(s, e) == Some(c) {
      StepSubject(s, e, c);
    } else {
      hide WriteOk, ReadOk, Inv, Offer, Closed, AfterTake, AfterWrite;
    }
  }

  lemma StepSubject(s: State, e: Event, c: nat)
    requires Enabled(s, e) && c < |s.conns| && About(s, e) == Some(c) && WriteOk(s.conns[c]) && ReadOk(s.conns[c])
    requires e.Open? || e.Payload? || e.CloseDown? ==> s.conns[c].open
    ensures WriteOk(Apply(s, e).conns[c]) && ReadOk(Apply(s, e).conns[c])
  {
    if e.GetsBytes? || e.SeesEof? || e.StopsReading? {
      WriteSame(s, e, c);
      ReadSide(s, e, c);
    } else {
      ReadSame(s, e, c);
      WriteSide(s, e, c);
    }
    hide *;
  }

  lemma ReadSide(s: State, e: Event, c: nat)
    requires Enabled(s, e) && c < |s.conns| && About(s, e) == Some(c) && ReadOk(s.conns[c])
    requires e.GetsBytes? || e.SeesEof? || e.StopsReading?
    ensures ReadOk(Apply(s, e).conns[c])
  {
    hide ReadOk;
    var x := s.conns[c];
    match e
    case GetsBytes(_, data) => ReadKeeps(x, data, false);
    case SeesEof(_) => EofKeeps(x);
    case StopsReading(_) => AbortKeeps(x);
  }

  lemma EofKeeps(c: Conn)
    requires ReadOk(c) && c.reading
    ensures ReadOk(c.(reading := false, frames := c.frames + [Frame(|c.frames|, [], true)]))
  {
    ReadKeeps(c, [], true);
    hide ReadOk;
    assert c.socket + [] == c.socket;
  }

  lemma AbortKeeps(c: Conn)
    requires ReadOk(c)
    ensures ReadOk(c.(reading := false))
  {
    hide WellNumbered, DataOf, Concat;
  }

  lemma WriteSide(s: State, e: Event, c: nat)
    requires Enabled(s, e) && c < |s.conns| && About(s, e) == Some(c) && WriteOk(s.conns[c])
    requires !(e.GetsBytes? || e.SeesEof? || e.StopsReading?)
    requires e.Open? || e.Payload? || e.CloseDown? ==> s.conns[c].open
    ensures WriteOk(Apply(s, e).conns[c])
  {
    hide WriteOk, Takes, InHand;
    var x := s.conns[c];
    match e
    case Open(_) => CutOffKeeps(x);
    case Payload(_, decoded) =>
      CloseKeeps(x);
      if decoded.Some? {
        OfferKeeps(x, decoded.value);
      }
    case CloseDown(_) => CloseKeeps(x);
    case WriterTakes(_) => TakeKeeps(x);
    case WriterWrites(_, n) => WriteKeeps(x, n);
    case WriterFails(_) => StopKeeps(x);
    case WriterEnds(_) => StopKeeps(x);
  }

  /** Writer steps leave the read side alone, and the other way round. */
  lemma ReadSame(s: State, e: Event, c: nat)
    requires Enabled(s, e) && c < |s.conns| && About(s, e) == Some(c) && ReadOk(s.conns[c])
    requires !e.GetsBytes? && !e.SeesEof?
    ensures ReadOk(Apply(s, e).conns[c])
  {
    hide WellNumbered, DataOf, Concat, Takes;
  }

  lemma WriteSame(s: State, e: Event, c: nat)
    requires Enabled(s, e) && c < |s.conns| && About(s, e) == Some(c) && WriteOk(s.conns[c])
    requires e.GetsBytes? || e.SeesEof? || e.StopsReading?
    ensures WriteOk(Apply(s, e).conns[c])
  {
    hide Concat, Queued;
  }

  lemma StepTable(s: State, e: Event)
    requires TableOk(s) && Enabled(s, e)
    ensures TableOk(Apply(s, e))
  {
    match e
    case Open(_) =>
    case Payload(_, _) => PayloadTable(s, e);
    case CloseDown(_) =>
    case _ => PumpTable(s, e); hide Apply, Enabled;
  }

  lemma PayloadTable(s: State, e: Event)
    requires TableOk(s) && Enabled(s, e) && e.Payload?
    ensures TableOk(Apply(s, e))
  {
    hide Takes;
  }

  /** The pumps leave the table and every connection's open mark alone. */
  lemma PumpTable(s: State, e: Event)
    requires Enabled(s, e) && !e.Open? && !e.Payload? && !e.CloseDown?
    ensures Apply(s, e).table == s.table && |Apply(s, e).conns| == |s.conns|
    ensures forall c :: 0 <= c < |s.conns| ==> Apply(s, e).conns[c].open == s.conns[c].open
  {
  }

  lemma StepKeepsInv(s: State, e: Event)
    requires Inv(s) && Enabled(s, e)
    ensures Inv(Apply(s, e))
  {
    StepTable(s, e);
    forall c | 0 <= c < |Apply(s, e).conns| ensures WriteOk(Apply(s, e).conns[c]) && ReadOk(Apply(s, e).conns[c]) {
      StepConn(s, e, c);
    }
    hide Apply, Enabled, WriteOk, ReadOk, TableOk;
  }

  lemma {:induction false} RunKeepsInv(es: seq<Event>)
    ensures Inv(Run(es))
  {
    hide Apply, Enabled;
    if es != [] {
      RunKeepsInv(es[..|es| - 1]);
      if Enabled(Run(es[..|es| - 1]), es[|es| - 1]) {
        StepKeepsInv(Run(es[..|es| - 1]), es[|es| - 1]);
      }
    }
  }

  // ----- What holds for every connection of every run -----

  /** What was written to the local socket is a prefix of the offered payloads in
      order; a payload is refused only by closing the connection, and nothing is
      accepted after that. */
  lemma WrittenIsPrefix(es: seq<Event>, c: nat)
    requires c < |Run(es).conns|
    ensures var x := Run(es).conns[c];
      && x.written <= Concat(x.accepted)
      && x.accepted <= x.offered && |x.offered| <= |x.accepted| + 1
      && (x.accepted != x.offered ==> !x.open && forall id :: id in Run(es).table ==> Run(es).table[id] != c)
      && |x.queue| <= CONN_WRITE_CAPACITY
  {
    RunKeepsInv(es);
    hide Run;
    assert WriteOk(Run(es).conns[c]);
  }

  /** A writer that has not stopped and has nothing left to do has written all
      that was accepted. */
  lemma IdleWriterIsDone(es: seq<Event>, c: nat)
    requires c < |Run(es).conns|
    requires Run(es).conns[c].writer.Waiting? && Run(es).conns[c].queue == []
    ensures Run(es).conns[c].written == Concat(Run(es).conns[c].accepted)
  {
    RunKeepsInv(es);
    hide Run;
    assert WriteOk(Run(es).conns[c]);
  }

  /** The upstream frames of a connection are numbered from 0, carry what was
      read in order, and only the last may be the empty end frame. */
  lemma FramesCarryTheSocket(es: seq<Event>, c: nat)
    requires c < |Run(es).conns|
    ensures WellNumbered(Run(es).conns[c].frames)
    ensures Concat(DataOf(Run(es).conns[c].frames)) == Run(es).conns[c].socket
  {
    RunKeepsInv(es);
    hide Run;
    assert ReadOk(Run(es).conns[c]);
  }

  // ----- Why a payload is refused, and what is lost -----

  /** Event `e` offers connection `c` a payload while its queue is full or its writer
      is gone. */
  predicate Refuses(s: State, e: Event, c: nat) {
    && e.Payload? && e.decoded.Some? && e.id in s.table && s.table[e.id] == c && c < |s.conns|
    && (|s.conns[c].queue| >= CONN_WRITE_CAPACITY || s.conns[c].writer.Stopped?)
  }

  /** A payload that was not accepted met a full queue or a writer that was gone. */
  lemma {:induction false} RefusalHasReason(es: seq<Event>, c: nat) returns (k: nat)
    requires c < |Run(es).conns| && Run(es).conns[c].accepted != Run(es).conns[c].offered
    ensures k < |es| && Refuses(Run(es[..k]), es[k], c)
  {
    hide Apply, Enabled;
    var before, e := es[..|es| - 1], es[|es| - 1];
    RunKeepsInv(before);
    if c < |Run(before).conns| && Run(before).conns[c].accepted != Run(before).conns[c].offered {
      k := RefusalHasReason(before, c);
      assert before[..k] == es[..k];
    } else {
      k := |es| - 1;
      FirstRefusal(Run(before), e, c);
    }
  }

  lemma FirstRefusal(s: State, e: Event, c: nat)
    requires Enabled(s, e) && c < |Apply(s, e).conns| && Apply(s, e).conns[c].accepted != Apply(s, e).conns[c].offered
    requires c < |s.conns| ==> s.conns[c].accepted == s.conns[c].offered
    ensures Refuses(s, e, c)
  {
  }

  /** A connection that was closed is never offered anything again. */
  lemma {:induction false} ClosedForGood(es: seq<Event>, more: seq<Event>, c: nat)
    requires c < |Run(es).conns| && !Run(es).conns[c].open
    ensures c < |Run(es + more).conns| && !Run(es + more).conns[c].open
    ensures Run(es + more).conns[c].offered == Run(es).conns[c].offered
    ensures Run(es + more).conns[c].accepted == Run(es).conns[c].accepted
    decreases |more|
  {
    hide Apply, Enabled, Inv;
    if more == [] {
      assert es + more == es;
    } else {
      var before, e := es + more[..|more| - 1], more[|more| - 1];
      ClosedForGood(es, more[..|more| - 1], c);
      assert es + more == before + [e] && (es + more)[..|es + more| - 1] == before;
      RunKeepsInv(before);
      if Enabled(Run(before), e) {
        ClosedStep(Run(before), e, c);
      }
    }
  }

  lemma ClosedStep(s: State, e: Event, c: nat)
    requires Inv(s) && Enabled(s, e) && c < |s.conns| && !s.conns[c].open
    ensures var t := Apply(s, e);
      && c < |t.conns| && !t.conns[c].open
      && t.conns[c].offered == s.conns[c].offered && t.conns[c].accepted == s.conns[c].accepted
  {
    hide WriteOk, ReadOk;
  }

  /** A close, a payload that does not decode, one that is refused and a second open
      with the same id each close the connection that the id names. */
  lemma ClosesIff(es: seq<Event>, e: Event, c: nat)
    requires Enabled(Run(es), e) && c < |Run(es).conns| && Run(es).conns[c].open
    ensures c < |Run(es + [e]).conns|
    ensures !Run(es + [e]).conns[c].open <==>
      && (e.CloseDown? || e.Open? || (e.Payload? && e.decoded.None?)
          || (Refuses(Run(es), e, c) && e.decoded.value != []))
      && e.id in Run(es).table && Run(es).table[e.id] == c
  {
    assert (es + [e])[..|es|] == es;
    RunKeepsInv(es);
    hide Run, WriteOk, ReadOk;
  }

  /** If the writer has stopped, all that was accepted is written, and the connection
      is closed. */
  ghost predicate StoppedClean(c: Conn) { c.writer.Stopped? ==> c.written == Concat(c.accepted) && !c.open }

  /** Behind the closing command nothing is queued, so a writer that comes to it, or to
      the end of the queue, has written all it accepted. */
  lemma LastIsClose(c: Conn)
    requires WriteOk(c) && c.writer.Waiting?
    ensures c.queue == [] || c.queue[0].CloseAll? ==> c.written == Concat(c.accepted)
    ensures c.queue != [] && c.queue[0].CloseAll? ==> !c.open
  {
    hide Concat;
    if c.queue == [] || c.queue[0].CloseAll? {
      assert c.queue == [] || |c.queue| == 1;
      NothingQueued(c.queue);
      hide Queued;
      assert c.written + [] + [] == c.written;
    }
  }

  lemma NothingQueued(queue: seq<Command>)
    requires queue == [] || (|queue| == 1 && queue[0].CloseAll?)
    ensures Queued(queue) == []
  {
    assert queue != [] ==> queue[1..] == [] && Queued(queue[1..]) == [];
  }

  lemma TableStops(s: State, e: Event, c: nat)
    requires Enabled(s, e) && (e.Open? || e.Payload? || e.CloseDown?) && About(s, e) == Some(c) && c < |s.conns|
    requires StoppedClean(s.conns[c])
    ensures c < |Apply(s, e).conns| && StoppedClean(Apply(s, e).conns[c])
  {
    hide Concat;
  }

  lemma PumpStops(s: State, e: Event, c: nat)
    requires Enabled(s, e) && !(e.Open? || e.Payload? || e.CloseDown?) && e != WriterFails(c)
    requires About(s, e) == Some(c) && c < |s.conns| && WriteOk(s.conns[c]) && StoppedClean(s.conns[c])
    ensures c < |Apply(s, e).conns| && StoppedClean(Apply(s, e).conns[c])
  {
    if e.WriterTakes? || e.WriterEnds? {
      LastIsClose(s.conns[c]);
    }
    hide WriteOk, Concat;
  }

  lemma OtherStops(s: State, e: Event, c: nat)
    requires Enabled(s, e) && c < |Apply(s, e).conns| && !(c < |s.conns| && About(s, e) == Some(c))
    requires c < |s.conns| ==> StoppedClean(s.conns[c])
    ensures StoppedClean(Apply(s, e).conns[c])
  {
    hide Concat, Offer, Closed, AfterTake, AfterWrite;
  }

  lemma StepStops(s: State, e: Event, c: nat)
    requires Inv(s) && Enabled(s, e) && e != WriterFails(c) && c < |Apply(s, e).conns|
    requires c < |s.conns| ==> StoppedClean(s.conns[c])
    ensures StoppedClean(Apply(s, e).conns[c])
  {
    assert c < |s.conns| ==> WriteOk(s.conns[c]);
    hide Inv, Apply, Enabled, WriteOk, StoppedClean;
    if !(c < |s.conns| && About(s, e) == Some(c)) {
      OtherStops(s, e, c);
    } else if e.Open? || e.Payload? || e.CloseDown? {
      TableStops(s, e, c);
    } else {
      PumpStops(s, e, c);
    }
  }

  /** Unless its socket fails, a writer that has stopped has written everything that
      was accepted, and it stops only behind the closing of its connection. */
  lemma {:induction false} NothingIsLost(es: seq<Event>, c: nat)
    requires c < |Run(es).conns| && forall k :: 0 <= k < |es| ==> es[k] != WriterFails(c)
    ensures StoppedClean(Run(es).conns[c])
  {
    hide Apply, Enabled, Inv, StoppedClean;
    var before, e := es[..|es| - 1], es[|es| - 1];
    RunKeepsInv(before);
    if c < |Run(before).conns| {
      NothingIsLost(before, c);
    }
    if Enabled(Run(before), e) {
      StepStops(Run(before), e, c);
    }
  }
}
