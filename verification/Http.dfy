/** What the HTTP library's response reader computes (z88dk/libhttp/readHeaders.c, readData.c),
    as functions of the header buffer and of what arrives on the socket. */
module Http {
  import opened CStrings
  import opened Memory

  const HDRBUFSZ := 1400
  const EHTTP_HDRERR := -9
  const EHTTP_NOHDREND := -13
  const EHTTP_NOTHTTP := -14
  const EHTTP_NOCHUNKSIZE := -15
  const HDR_END := 1
  const HDR_SEP := "\r\n\r\n"
  const LINE_END := "\r\n"
  const HDR_KEYVALSEP := ": "
  const CONTLEN_HDR := "Content-Length"
  const XFERENC_HDR := "Transfer-Encoding"
  const XFER_CHUNKED := "chunked"

  /** `strtol` with a base, and `atoi`. */
  datatype Numbers = Numbers(strtol: (string, nat) -> int, atoi: string -> int)

  // ---- the socket

  /** What a receive can meet: a piece of the stream, or an error or the end. */
  datatype Arrival = Bytes(data: string) | Fail(rc: int)

  datatype Receipt = Receipt(rc: int, data: string, rest: seq<Arrival>)

  /** `htrecv`, taken to return what `recv` returns: at most one arrival, and at most `n` bytes of it. */
  function Recv(a: seq<Arrival>, n: nat): (r: Receipt)
    ensures r.rc >= 1 ==> r.rc == |r.data| <= n && Stream(a) == r.data + Stream(r.rest)
    ensures r.rc < 1 ==> r.data == [] && Stream(r.rest) == Stream(a)
  {
    if a == [] || n == 0 then Receipt(0, [], a)
    else
      match a[0]
      case Fail(rc) => Receipt(if rc < 1 then rc else 0, [], a[1..])
      case Bytes(d) =>
        if |d| <= n then Receipt(|d|, d, a[1..])
        else
          var rest := [Bytes(d[n..])] + a[1..];
          assert rest[1..] == a[1..];
          Receipt(n, d[..n], rest)
  }

  /** Everything that arrives. */
  function Stream(a: seq<Arrival>): string {
    if a == [] then []
    else if a[0].Fail? then Stream(a[1..])
    else a[0].data + Stream(a[1..])
  }

  // ---- the header block

  datatype Filled = Filled(ended: bool, rc: int, buf: string, n: nat, rest: seq<Arrival>)

  /** The receive loop of `getHeaders`, with `n` bytes received: it stops at the end of the
      headers, at a receive that brings nothing, or with the buffer full. */
  function Fill(b: string, n: nat, a: seq<Arrival>): (r: Filled)
    requires |b| == HDRBUFSZ && n < HDRBUFSZ - 1
    ensures |r.buf| == HDRBUFSZ && r.n < HDRBUFSZ
    decreases HDRBUFSZ - n
  {
    var got := Recv(a, HDRBUFSZ - 1 - n);
    if got.rc < 1 then Filled(false, got.rc, b, n, got.rest)
    else
      var buf, m := Put(b, n, got.data + [NUL]), n + got.rc;
      if Find(buf, 0, HDR_SEP) >= 0 then Filled(true, 0, buf, m, got.rest)
      else if m == HDRBUFSZ - 1 then Filled(false, EHTTP_NOHDREND, buf, m, got.rest)
      else Fill(buf, m, got.rest)
  }

  datatype Header = Header(name: string, data: string)

  datatype Lines = Lines(result: int, next: nat, buf: string, headers: seq<Header>)

  /** `getSingleHeader`. */
  function SingleHeader(b: string, p: nat): (r: Lines)
    ensures |r.buf| == |b|
    ensures r.result != EHTTP_NOHDREND ==> p < r.next <= |b|
    ensures r.result != 0 ==> r.headers == []
  {
    var end := Find(b, p, LINE_END);
    if end == p then Lines(HDR_END, p + 2, b, [])
    else
      var sep := Find(b, p, HDR_KEYVALSEP);
      if end < 0 || sep < 0 then Lines(EHTTP_NOHDREND, p, b, [])
      else
        var buf := b[sep := NUL][end := NUL];
        Lines(0, end + 2, buf, [Header(Str(buf, p), Str(buf, sep + 2))])
  }

  /** The loop over the headers in `getHeaders`. */
  function HeaderLines(b: string, p: nat): (r: Lines)
    ensures |r.buf| == |b|
    decreases |b| - p
  {
    var one := SingleHeader(b, p);
    if one.result == HDR_END then one.(result := 0)
    else if one.result != 0 then one.(result := EHTTP_HDRERR)
    else
      var more := HeaderLines(one.buf, one.next);
      more.(headers := one.headers + more.headers)
  }

  /** `ptr` is -1 for NULL. */
  datatype Block = Block(result: int, ptr: int, buf: string, headers: seq<Header>, rest: seq<Arrival>)

  function GetHeaders(b: string, a: seq<Arrival>): (r: Block)
    requires |b| == HDRBUFSZ
    ensures |r.buf| == HDRBUFSZ
  {
    var f := Fill(b, 0, a);
    if !f.ended then Block(f.rc, -1, f.buf, [], f.rest)
    else
      var e := Find(f.buf, 0, LINE_END);
      if e < 0 then Block(EHTTP_NOTHTTP, -1, f.buf, [], f.rest)
      else
        var l := HeaderLines(f.buf[e := NUL], e + 2);
        Block(l.result, if l.result == 0 then l.next else -1, l.buf, l.headers, f.rest)
  }

  /** The last Content-Length counts. */
  function DataLeft(lib: Numbers, left: int, hs: seq<Header>): int
    decreases |hs|
  {
    if hs == [] then left
    else DataLeft(lib, if hs[0].name == CONTLEN_HDR then lib.strtol(hs[0].data, 0) else left, hs[1..])
  }

  lemma DataLeftEmpty(lib: Numbers, left: int)
    ensures DataLeft(lib, left, []) == left
  {
  }

  lemma {:induction false} DataLeftOf(lib: Numbers, left: int, hs: seq<Header>, more: seq<Header>)
    ensures DataLeft(lib, left, hs + more) == DataLeft(lib, DataLeft(lib, left, hs), more)
    decreases |hs|
  {
    if hs == [] {
      assert hs + more == more;
    } else {
      assert (hs + more)[1..] == hs[1..] + more;
      DataLeftOf(lib, if hs[0].name == CONTLEN_HDR then lib.strtol(hs[0].data, 0) else left, hs[1..], more);
    }
  }

  /** What the headers say the length is: the number in the last Content-Length among them. */
  lemma {:induction false} DataLeftExact(lib: Numbers, left: int, hs: seq<Header>)
    ensures (forall i :: 0 <= i < |hs| ==> hs[i].name != "Content-Length") ==> DataLeft(lib, left, hs) == left
    ensures forall i :: 0 <= i < |hs| && hs[i].name == "Content-Length"
                        && (forall j :: i < j < |hs| ==> hs[j].name != "Content-Length") ==>
              DataLeft(lib, left, hs) == lib.strtol(hs[i].data, 0)
    decreases |hs|
  {
    if hs != [] {
      var rest := hs[1..];
      DataLeftExact(lib, if hs[0].name == CONTLEN_HDR then lib.strtol(hs[0].data, 0) else left, rest);
      forall i | 0 <= i < |hs| && hs[i].name == "Content-Length"
                 && (forall j :: i < j < |hs| ==> hs[j].name != "Content-Length")
        ensures DataLeft(lib, left, hs) == lib.strtol(hs[i].data, 0)
      {
        if i > 0 { assert rest[i - 1] == hs[i]; }
      }
    }
  }

  predicate Chunked(hs: seq<Header>) { Header(XFERENC_HDR, XFER_CHUNKED) in hs }

  lemma NoneChunked()
    ensures !Chunked([])
  {
  }

  lemma ChunkedOf(hs: seq<Header>, more: seq<Header>)
    ensures Chunked(hs + more) <==> Chunked(hs) || Chunked(more)
  {
  }

  // ---- the globals of the library

  datatype State = State(buf: string, dataleft: int, chunked: bool, bufptr: int, bufleft: int, rest: seq<Arrival>)

  datatype Response = Response(rc: int, code: int, s: State, headers: seq<Header>)

  /** The first chunk's size, which has to be in the buffer. */
  function ChunkSize(lib: Numbers, s: State): Response
    requires s.bufptr >= 0
  {
    var end := Find(s.buf, s.bufptr, LINE_END);
    if end < 0 then Response(EHTTP_NOCHUNKSIZE, 0, s, [])
    else
      var buf := s.buf[end := NUL];
      Response(0, 0, s.(buf := buf, dataleft := lib.strtol(Str(buf, s.bufptr), 16),
                        bufleft := s.bufleft - (end - s.bufptr + 2), bufptr := end + 2), [])
  }

  /** The number after the first space of the first line, cut off four characters on. */
  function StatusCode(lib: Numbers, s: State): Response {
    var i := Find(s.buf, 0, " ");
    if i < 0 then Response(EHTTP_NOTHTTP, 0, s, [])
    else
      var buf := if i + 4 < |s.buf| then s.buf[i + 4 := NUL] else s.buf;
      Response(0, lib.atoi(Str(buf, i)), s.(buf := buf), [])
  }

  function ReadHeaders(lib: Numbers, s: State): Response
    requires |s.buf| == HDRBUFSZ
  {
    var g := GetHeaders(s.buf, s.rest);
    var t := State(g.buf, DataLeft(lib, 0, g.headers), Chunked(g.headers), g.ptr,
                   if g.ptr >= 0 then |Str(g.buf, g.ptr)| else s.bufleft, g.rest);
    if g.result != 0 then Response(g.result, 0, t, g.headers)
    else if t.chunked && t.bufptr >= 0 then
      var c := ChunkSize(lib, t);
      if c.rc != 0 then c.(headers := g.headers) else StatusCode(lib, c.s).(headers := g.headers)
    else StatusCode(lib, t).(headers := g.headers)
  }

  // ---- the body

  predicate Settled(t: State) { 0 <= t.bufptr <= t.bufptr + t.bufleft <= |t.buf| }

  /** What is still to be read after the headers: the rest of the buffer, then the socket's. */
  function Unread(t: State): string
    requires Settled(t)
  {
    t.buf[t.bufptr..t.bufptr + t.bufleft] + Stream(t.rest)
  }

  /** `data` is everything that a call put into the caller's buffer, `rc` what it told the caller.
      `Wild` is a copy of a negative number of bytes. */
  datatype Delivery = Delivery(rc: int, data: string, s: State) | Wild

  function Min(m: int, n: int): int { if m < n then m else n }

  /** `readData`. */
  function ReadData(s: State, bufsz: nat): Delivery
    requires Settled(s)
  {
    var k := if s.bufleft == 0 then 0 else Min(s.bufleft, s.dataleft);
    if k < 0 then Wild
    else if k > bufsz then
      Delivery(bufsz, s.buf[s.bufptr..s.bufptr + bufsz],
               s.(dataleft := s.dataleft - bufsz, bufptr := s.bufptr + bufsz, bufleft := s.bufleft - bufsz))
    else
      var kept, t := s.buf[s.bufptr..s.bufptr + k], s.(dataleft := s.dataleft - k, bufleft := 0);
      if t.dataleft < 1 then Delivery(k, kept, t)
      else
        var got := Recv(s.rest, Min(bufsz - k, t.dataleft));
        if got.rc < 1 then Delivery(got.rc, kept, t.(rest := got.rest))
        else Delivery(k + got.rc, kept + got.data, t.(dataleft := t.dataleft - got.rc, rest := got.rest))
  }
}
