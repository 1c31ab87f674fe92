/** Which bytes of a response's body `readData` hands out. */
module HttpBody {
  import opened CStrings
  import opened Http
  import opened HttpText

  predicate Ready(s: State) { Settled(s) && s.dataleft >= 0 }

  /** How much of the body is still to come from the socket. */
  function OnSocket(s: State): int { s.dataleft - Min(s.bufleft, s.dataleft) }

  /** Only a content length below zero, with bytes still buffered, makes a call copy a negative
      number of bytes. */
  lemma WildExact(s: State, bufsz: nat)
    requires Settled(s)
    ensures ReadData(s, bufsz).Wild? <==> s.dataleft < 0 && s.bufleft > 0
  {
  }

  /** So the first call for a response copies a negative number of bytes exactly if its content
      length is below zero and some of its body has come with the headers. */
  lemma WildResponse(lib: Numbers, t: State, s: string, bufsz: nat)
    requires |t.buf| == HDRBUFSZ && Pieces(t.rest) && Stream(t.rest) == s
    requires WellFormed(s) && !Chunked(HeadersOf(s))
    ensures var r, h, n := ReadHeaders(lib, t).s, Find(s, 0, HDR_SEP), Fill(t.buf, 0, t.rest).n;
            && h + 4 <= n <= |s| && Settled(r)
            && (ReadData(r, bufsz).Wild? <==> DataLeft(lib, 0, HeadersOf(s)) < 0 && Str(s[..n], h + 4) != [])
  {
    hide Find, Fill, ReadHeaders, HeadersOf, WellFormed, Str, Stream, TextStatus, DataLeft;
    ReadHeadersOfText(lib, t, s);
    StrShort(s[..Fill(t.buf, 0, t.rest).n], Find(s, 0, HDR_SEP) + 4);
    WildExact(ReadHeaders(lib, t).s, bufsz);
  }

  predicate Bare(s: string) { s != [] && NUL !in s && '\r' !in s && ':' !in s }

  /** A response with one header. */
  function OneHeader(status: string, name: string, value: string, body: string): string {
    status + LINE_END + name + HDR_KEYVALSEP + value + HDR_SEP + body
  }

  predicate Plain(c: char) { c != NUL && c != '\r' && c != ':' }

  /** The characters of such a response: its header starts at `p`, the separator at `sep`, and the
      header lines end at `end`. */
  predicate Laid(s: string, p: nat, sep: nat, end: nat) {
    && 2 < p < sep && sep + 2 < end && end + 4 <= |s|
    && (forall k :: 0 <= k < end && (k < p - 2 || p <= k < sep || sep + 2 <= k) ==> Plain(s[k]))
    && s[p - 2] == '\r' && s[p - 1] == '\n' && s[sep] == ':' && s[sep + 1] == ' '
    && s[end] == '\r' && s[end + 1] == '\n' && s[end + 2] == '\r' && s[end + 3] == '\n'
  }

  lemma BareAt(s: string, k: nat)
    requires Bare(s) && k < |s|
    ensures Plain(s[k])
  {
  }

  lemma OneHeaderLaid(status: string, name: string, value: string, body: string)
    requires Bare(status) && Bare(name) && Bare(value)
    ensures var s, p := OneHeader(status, name, value, body), |status| + 2;
            var sep, end := p + |name|, p + |name| + 2 + |value|;
            && Laid(s, p, sep, end) && s[p..sep] == name && s[sep + 2..end] == value && s[end + 4..] == body
  {
    hide Bare, Plain;
    var s, p := OneHeader(status, name, value, body), |status| + 2;
    var sep, end := p + |name|, p + |name| + 2 + |value|;
    BareSome(status);
    BareSome(name);
    BareSome(value);
    forall k | 0 <= k < p - 2 ensures Plain(s[k]) { BareAt(status, k); }
    forall k | p <= k < sep ensures Plain(s[k]) { BareAt(name, k - p); }
    forall k | sep + 2 <= k < end ensures Plain(s[k]) { BareAt(value, k - sep - 2); }
  }

  lemma BareSome(s: string)
    requires Bare(s)
    ensures s != []
  {
  }

  lemma LineEndIs(s: string, p: nat, q: nat)
    requires p <= q && q + 2 <= |s| && s[q] == '\r' && s[q + 1] == '\n' && forall k :: p <= k < q ==> Plain(s[k])
    ensures Find(s, p, LINE_END) == q
  {
    assert s[q..q + 2] == LINE_END;
    FindIs(s, p, LINE_END, q, 0);
  }

  lemma KeyValSepIs(s: string, p: nat, q: nat)
    requires p <= q && q + 2 <= |s| && s[q] == ':' && s[q + 1] == ' ' && forall k :: p <= k < q ==> Plain(s[k])
    ensures Find(s, p, HDR_KEYVALSEP) == q
  {
    assert s[q..q + 2] == HDR_KEYVALSEP;
    FindIs(s, p, HDR_KEYVALSEP, q, 0);
  }

  /** Two lines with a header in the second, and the empty line after it. */
  lemma LaidPlaces(s: string, p: nat, sep: nat, end: nat)
    requires Laid(s, p, sep, end)
    ensures Find(s, 0, LINE_END) == p - 2 && Find(s, p, HDR_KEYVALSEP) == sep
    ensures Find(s, p, LINE_END) == end && Find(s, end + 2, LINE_END) == end + 2
    ensures Find(s, 0, HDR_SEP) == end
  {
    hide Find;
    LineEndIs(s, 0, p - 2);
    KeyValSepIs(s, p, sep);
    SecondLine(s, p, sep, end);
    LineEndIs(s, end + 2, end + 2);
    HeaderEnd(s, p, sep, end);
  }

  lemma SecondLine(s: string, p: nat, sep: nat, end: nat)
    requires Laid(s, p, sep, end)
    ensures Find(s, p, LINE_END) == end
  {
    hide Find;
    assert s[end..end + 2] == LINE_END;
    FindIs(s, p, LINE_END, end, 0);
  }

  lemma HeaderEnd(s: string, p: nat, sep: nat, end: nat)
    requires Laid(s, p, sep, end)
    ensures Find(s, 0, HDR_SEP) == end
  {
    hide Find;
    assert s[end..end + 4] == HDR_SEP;
    FindIs(s, 0, HDR_SEP, end, 2);
  }

  lemma OneHeaderText(status: string, name: string, value: string, body: string)
    requires Bare(status) && Bare(name) && Bare(value) && |status| + |name| + |value| < 1000
    ensures var s := OneHeader(status, name, value, body);
            && WellFormed(s) && HeadersOf(s) == [Header(name, value)]
            && s[Find(s, 0, HDR_SEP) + 4..] == body && 0 < |s| < 1008 + |body|
  {
    hide Find, Laid;
    OneHeaderLaid(status, name, value, body);
    var s, p := OneHeader(status, name, value, body), |status| + 2;
    var sep, end := p + |name|, p + |name| + 2 + |value|;
    LaidPlaces(s, p, sep, end);
    assert BodyStart(s, end + 2) == end + 4 && TextHeaders(s, end + 2) == [];
  }

  /** An instance: a content length of -1 and a body of one byte, received in one piece. */
  lemma NegativeCopy(lib: Numbers, t: State, bufsz: nat)
    requires |t.buf| == HDRBUFSZ && lib.strtol("-1", 0) == -1
    requires t.rest == [Bytes(OneHeader("A 200", CONTLEN_HDR, "-1", "x"))]
    ensures Settled(ReadHeaders(lib, t).s) && ReadData(ReadHeaders(lib, t).s, bufsz).Wild?
  {
    hide Find, ReadHeaders, HeadersOf, WellFormed, Fill, Stream, OneHeader;
    var s := OneHeader("A 200", CONTLEN_HDR, "-1", "x");
    OneHeaderText("A 200", CONTLEN_HDR, "-1", "x");
    OneArrival(s);
    OnePiece(t, s);
    WildResponse(lib, t, s, bufsz);
    var h := Find(s, 0, HDR_SEP);
    assert s[..|s|] == s && s[h + 4] == s[h + 4..][0];
  }

  lemma Parts(b: string, p: nat, k: nat, n: nat, tail: string)
    requires k <= n && p + n <= |b|
    ensures b[p..p + k] <= b[p..p + n] + tail
    ensures (b[p..p + n] + tail)[k..] == b[p + k..p + n] + tail
  {
    assert b[p..p + n] == b[p..p + k] + b[p + k..p + n];
  }

  /** What one call puts into the buffer is the next part of the body and no more of it than the
      content length and the buffer allow; it never asks the socket for what lies beyond. */
  lemma OneCall(s: State, bufsz: nat)
    requires Ready(s)
    ensures var d := ReadData(s, bufsz);
            && d.Delivery? && Ready(d.s) && |d.data| <= bufsz && |d.data| <= s.dataleft && d.data <= Unread(s)
            && d.s.dataleft == s.dataleft - |d.data|
            && (d.s.dataleft > 0 ==> Unread(d.s) == Unread(s)[|d.data|..])
            && (d.rc >= 1 ==> d.rc == |d.data|)
            && |Stream(s.rest)| - |Stream(d.s.rest)| == OnSocket(s) - OnSocket(d.s)
  {
    hide Recv, Stream, Unread;
    CallData(s, bufsz);
  }

  lemma CallData(s: State, bufsz: nat)
    requires Ready(s)
    ensures var d := ReadData(s, bufsz);
            && d.Delivery? && Settled(d.s) && d.data <= Unread(s)
            && (d.s.dataleft > 0 ==> Unread(d.s) == Unread(s)[|d.data|..])
  {
    hide Recv, Stream;
    var k, n := Min(s.bufleft, s.dataleft), s.bufleft;
    if k > bufsz {
      Parts(s.buf, s.bufptr, bufsz, n, Stream(s.rest));
    } else if k < s.dataleft {
      SocketCall(s, bufsz);
    } else {
      Parts(s.buf, s.bufptr, k, n, Stream(s.rest));
    }
  }

  lemma Appended(all: string, kept: string, data: string, rest: string)
    requires all == kept + (data + rest)
    ensures kept + data <= all && all[|kept + data|..] == rest
  {
    assert all == (kept + data) + rest;
  }

  /** Behind what was kept comes what the socket gives. */
  lemma SocketData(s: State, bufsz: nat)
    requires Ready(s) && s.bufleft < s.dataleft && s.bufleft <= bufsz
    ensures var d, got := ReadData(s, bufsz), Recv(s.rest, Min(bufsz - s.bufleft, s.dataleft - s.bufleft));
            && d.Delivery? && d.data == s.buf[s.bufptr..s.bufptr + s.bufleft] + got.data
            && Settled(d.s) && d.s.bufleft == 0 && d.s.rest == got.rest
  {
    hide Stream, Recv;
    var kept := s.buf[s.bufptr..s.bufptr + s.bufleft];
    assert kept + [] == kept;
  }

  lemma SocketCall(s: State, bufsz: nat)
    requires Ready(s) && s.bufleft < s.dataleft && s.bufleft <= bufsz
    ensures var d := ReadData(s, bufsz);
            && d.Delivery? && Settled(d.s) && d.data <= Unread(s) && Unread(d.s) == Unread(s)[|d.data|..]
  {
    hide Stream, Recv, ReadData;
    SocketData(s, bufsz);
    var d, kept := ReadData(s, bufsz), s.buf[s.bufptr..s.bufptr + s.bufleft];
    var got := Recv(s.rest, Min(bufsz - s.bufleft, s.dataleft - s.bufleft));
    Appended(Unread(s), kept, got.data, Stream(got.rest));
    assert Unread(d.s) == Stream(got.rest);
  }

  /** The receive that a call would make next brings nothing: the peer has closed, or the receive
      fails or times out. */
  predicate Dry(a: seq<Arrival>) { a == [] || a[0].Fail? || a[0].data == [] }

  /** A call tells the caller less than it put into the buffer, so that those bytes are lost,
      exactly when it has emptied the header buffer short of the content length and then either
      has no room left to receive into or receives nothing, be it an error, a timeout or the end. */
  lemma LossExact(s: State, bufsz: nat)
    requires Ready(s)
    ensures ReadData(s, bufsz).Delivery?
    ensures var d := ReadData(s, bufsz);
            d.data != [] && d.rc < |d.data| <==>
              0 < s.bufleft <= bufsz && s.bufleft < s.dataleft && (bufsz == s.bufleft || Dry(s.rest))
  {
    if s.bufleft < s.dataleft && s.bufleft <= bufsz {
      hide Stream;
      SocketData(s, bufsz);
    }
  }

  /** Three bytes of five are in the header buffer, and the caller asks for exactly those. */
  lemma LostBytes(s: State)
    requires Settled(s) && s.bufleft == 3 && s.dataleft == 5 && s.rest == [Bytes("de")]
    ensures ReadData(s, 3).Delivery? && ReadData(ReadData(s, 3).s, 3).Delivery?
    ensures ReadData(s, 3).rc == 0 && ReadData(s, 3).s.dataleft == 2
    ensures |ReadData(s, 3).data| == 3 && ReadData(ReadData(s, 3).s, 3).data == "de"
  {
    LossExact(s, 3);
  }

  /** The same three bytes, room for all five, and a receive that times out before the other two
      arrive: the call reports the error, and the next one hands out the last two. */
  lemma LostToTimeout(s: State, rc: int)
    requires Settled(s) && s.bufleft == 3 && s.dataleft == 5 && s.rest == [Fail(rc), Bytes("de")] && rc < 0
    ensures ReadData(s, 5).Delivery? && ReadData(ReadData(s, 5).s, 5).Delivery?
    ensures ReadData(s, 5).rc == rc && |ReadData(s, 5).data| == 3 && ReadData(s, 5).s.dataleft == 2
    ensures ReadData(ReadData(s, 5).s, 5).rc == 2 && ReadData(ReadData(s, 5).s, 5).data == "de"
  {
    assert s.rest[1..] == [Bytes("de")];
  }

  // ---- runs of calls

  datatype Session = Session(positive: bool, out: string, s: State)

  /** Calls with buffers of these sizes, and what the caller was told it got. */
  function Reads(s: State, sizes: seq<nat>): (r: Session)
    requires Ready(s)
    ensures Ready(r.s)
    decreases |sizes|
  {
    if sizes == [] then Session(true, [], s)
    else
      OneCall(s, sizes[0]);
      var d := ReadData(s, sizes[0]);
      var more := Reads(d.s, sizes[1..]);
      Session(d.rc >= 1 && more.positive, (if d.rc >= 1 then d.data else []) + more.out, more.s)
  }

  lemma Chain(all: string, data: string, more: string, left: nat)
    requires data <= all && more <= all[|data|..]
    ensures data + more <= all
    ensures left <= |all| - |data| && more == all[|data|..][..left] ==> data + more == all[..|data| + left]
  {
    assert all == data + all[|data|..];
  }

  /** While every call returns a positive count the caller gets the body, in order and without a
      gap, as far as the content length falls, and when that has reached zero it has got all of it. */
  lemma {:induction false} BodyDelivered(s: State, sizes: seq<nat>)
    requires Ready(s) && Reads(s, sizes).positive
    ensures var r := Reads(s, sizes);
            && r.out <= Unread(s) && r.s.dataleft == s.dataleft - |r.out|
            && (r.s.dataleft == 0 ==> r.out == Unread(s)[..s.dataleft])
    decreases |sizes|
  {
    if sizes != [] {
      hide ReadData, Unread, Settled;
      OneCall(s, sizes[0]);
      var d := ReadData(s, sizes[0]);
      BodyDelivered(d.s, sizes[1..]);
      if d.s.dataleft > 0 {
        Chain(Unread(s), d.data, Reads(d.s, sizes[1..]).out, d.s.dataleft);
      }
    }
  }

  /** Over any run of calls, whatever they return, no byte is taken from the socket that lies
      beyond the content length. */
  lemma {:induction false} SocketBound(s: State, sizes: seq<nat>)
    requires Ready(s)
    ensures |Stream(s.rest)| - |Stream(Reads(s, sizes).s.rest)| <= OnSocket(s)
    decreases |sizes|
  {
    hide ReadData, Stream, Settled;
    if sizes == [] {
      NothingBeyond(s);
    } else {
      OneCall(s, sizes[0]);
      SocketBound(ReadData(s, sizes[0]).s, sizes[1..]);
    }
  }

  lemma NothingBeyond(s: State)
    requires Ready(s)
    ensures OnSocket(s) >= 0
  {
  }

  /** From the first byte on the socket to the last of the body: the pieces and the buffer sizes
      make no difference to what is delivered. */
  lemma ResponseDelivered(lib: Numbers, t: State, s: string, sizes: seq<nat>)
    requires |t.buf| == HDRBUFSZ && Pieces(t.rest) && Stream(t.rest) == s
    requires WellFormed(s) && !Chunked(HeadersOf(s)) && NUL !in s && DataLeft(lib, 0, HeadersOf(s)) >= 0
    ensures Ready(ReadHeaders(lib, t).s)
    ensures var r, body := Reads(ReadHeaders(lib, t).s, sizes), s[Find(s, 0, HDR_SEP) + 4..];
            r.positive ==>
              && r.out <= body && r.s.dataleft == DataLeft(lib, 0, HeadersOf(s)) - |r.out|
              && (r.s.dataleft == 0 ==> r.out == body[..DataLeft(lib, 0, HeadersOf(s))])
  {
    hide ReadHeaders, HeadersOf, WellFormed, Reads, Unread, TextStatus, Settled, Find;
    FragmentationIndependent(lib, t, s);
    var u := ReadHeaders(lib, t).s;
    if Reads(u, sizes).positive { BodyDelivered(u, sizes); }
  }
}
