/** What the response reader makes of a chunked response (readHeaders.c, readData.c). */
module HttpChunks {
  import opened CStrings
  import opened Memory
  import opened Http
  import opened HttpText
  import opened HttpBody

  /** Where the line with the first chunk's size ends, -1 if nowhere. */
  function SizeEnd(s: string): int
    requires WellFormed(s)
  {
    Find(s, Find(s, 0, HDR_SEP) + 4, LINE_END)
  }

  /** That line has come in, whole, among the first `n` bytes. */
  predicate SizeArrived(s: string, n: nat)
    requires WellFormed(s)
  {
    SizeEnd(s) >= 0 && SizeEnd(s) + 2 <= n
  }

  /** What the line says. */
  function SizeText(s: string): string
    requires WellFormed(s) && SizeEnd(s) >= 0
  {
    s[Find(s, 0, HDR_SEP) + 4..SizeEnd(s)]
  }

  lemma {:induction false} StrSplit(s: string, p: nat, q: nat)
    requires p <= q <= |s| && NUL !in s[p..q]
    ensures |Str(s, p)| == q - p + |Str(s, q)|
    decreases q - p
  {
    if p < q {
      assert s[p] == s[p..q][0];
      assert s[p..q][1..] == s[p + 1..q];
      StrSplit(s, p + 1, q);
    }
  }

  /** The text before the end of the size line, and the two characters that end it, hold no NUL. */
  lemma SizeClean(s: string, p: nat, end: nat)
    requires end == Find(s, p, LINE_END)
    ensures p <= end && end + 2 <= |s| && NUL !in s[p..end + 2] && NUL !in s[p..end]
  {
    hide Find;
    FindClean(s, p, LINE_END);
    assert s[p..end + 2] == s[p..end] + LINE_END;
  }

  /** The size is taken out of a buffer that holds the text from `p` to `n`. */
  lemma SizeOfText(lib: Numbers, t: State, s: string, p: nat, n: nat)
    requires t.bufptr == p && Holds(t.buf, s, p, n) && t.bufleft == |Str(s[..n], p)|
    ensures var c, end := ChunkSize(lib, t), Find(s, p, LINE_END);
            if end < 0 || end + 2 > n then c.rc == EHTTP_NOCHUNKSIZE && c.code == 0 && c.s == t
            else
              && p <= end && c.rc == 0 && c.s.dataleft == lib.strtol(s[p..end], 16)
              && c.s.bufptr == end + 2 && c.s.bufleft == |Str(s[..n], end + 2)| && Holds(c.s.buf, s, end + 2, n)
              && c.s == t.(buf := t.buf[end := NUL], dataleft := c.s.dataleft, bufptr := c.s.bufptr,
                           bufleft := c.s.bufleft)
  {
    hide Find, Str;
    var end := Find(s, p, LINE_END);
    FindHeld(t.buf, s, p, n, LINE_END);
    if 0 <= end && end + 2 <= n {
      SizeClean(s, p, end);
      CutText(t.buf[end := NUL], s, p, end, p, end);
      TakeDrop(s, p, n);
      assert s[..n][p..end + 2] == s[p..end + 2];
      StrSplit(s[..n], p, end + 2);
    }
  }

  /** The status is looked for in front of the header lines, so the rest of the buffer stays. */
  lemma StatusAfter(lib: Numbers, t: State, s: string, p: nat, n: nat)
    requires WellFormed(s) && Holds(t.buf, s, 0, Find(s, 0, LINE_END)) && Find(s, 0, LINE_END) + 4 <= p
    requires Holds(t.buf, s, p, n)
    ensures var r := StatusCode(lib, t);
            && (r.rc, r.code) == TextStatus(lib, s) && r.s == t.(buf := r.s.buf) && Holds(r.s.buf, s, p, n)
            && |r.s.buf| == |t.buf|
  {
    hide Find, StatusCode, TextStatus;
    StatusOfText(lib, t, s);
  }

  /** `readHeaders` on a chunked response, whatever the pieces: it fails exactly if the line with the
      first chunk's size has not come in with the headers, and otherwise that size is the number of
      bytes left and what is left to read starts behind that line. */
  lemma ChunkedOfText(lib: Numbers, t: State, s: string)
    requires |t.buf| == HDRBUFSZ && Pieces(t.rest) && Stream(t.rest) == s
    requires WellFormed(s) && Chunked(HeadersOf(s))
    ensures var r, n := ReadHeaders(lib, t), Fill(t.buf, 0, t.rest).n;
            && r.headers == HeadersOf(s) && n <= |s|
            && (r.rc == EHTTP_NOCHUNKSIZE <==> !SizeArrived(s, n))
            && (r.rc == EHTTP_NOCHUNKSIZE ==> r.code == 0)
            && (SizeArrived(s, n) ==>
                  && (r.rc, r.code) == TextStatus(lib, s) && r.s.chunked
                  && r.s.dataleft == lib.strtol(SizeText(s), 16) && Settled(r.s) && r.s.bufptr == SizeEnd(s) + 2
                  && (Unread(r.s) == s[SizeEnd(s) + 2..] <==> NUL !in s[SizeEnd(s) + 2..n]))
  {
    hide Find, Fill, Str, GetHeaders, HeadersOf, StatusCode, DataLeft, ChunkSize, TextStatus, Unread, Chunked, Holds;
    hide Stream, BodyStart;
    BlockOfText(t.buf, t.rest, s);
    StatusInRange(lib, s);
    var g, n, p := GetHeaders(t.buf, t.rest), Fill(t.buf, 0, t.rest).n, Find(s, 0, HDR_SEP) + 4;
    var u := AfterHeaders(lib, g);
    StrHeld(g.buf, s, p, n);
    SizeOfText(lib, u, s, p, n);
    if SizeArrived(s, n) {
      var c, end := ChunkSize(lib, u), SizeEnd(s);
      CutLater(g.buf, s, Find(s, 0, LINE_END), end);
      StatusAfter(lib, c.s, s, end + 2, n);
      Remaining(StatusCode(lib, c.s).s, s, end + 2, n);
    }
  }

  lemma StatusInRange(lib: Numbers, s: string)
    requires WellFormed(s)
    ensures TextStatus(lib, s).0 != EHTTP_NOCHUNKSIZE
  {
    hide Find, WellFormed;
  }

  lemma CutLater(b: string, s: string, e: nat, end: nat)
    requires Holds(b, s, 0, e) && e < end < |b|
    ensures Holds(b[end := NUL], s, 0, e)
  {
  }

  lemma Remaining(t: State, s: string, p: nat, n: nat)
    requires p <= n <= |s| && t.bufptr == p && t.bufleft == |Str(s[..n], p)| && Holds(t.buf, s, p, n)
    requires Stream(t.rest) == s[n..]
    ensures Settled(t) && (Unread(t) == s[p..] <==> NUL !in s[p..n])
  {
    hide Str, Stream, Unread;
    StrShort(s[..n], p);
    TakeDrop(s, p, n);
    Joined(t, s, p, n);
  }

  /** So of a chunked response without NULs the calls that follow deliver the first chunk, and the
      cut makes no difference unless it is in the headers' piece before the size line's end. */
  lemma ChunkDelivered(lib: Numbers, t: State, s: string, sizes: seq<nat>)
    requires |t.buf| == HDRBUFSZ && Pieces(t.rest) && Stream(t.rest) == s
    requires WellFormed(s) && Chunked(HeadersOf(s)) && NUL !in s
    requires SizeArrived(s, Fill(t.buf, 0, t.rest).n) && lib.strtol(SizeText(s), 16) >= 0
    ensures Ready(ReadHeaders(lib, t).s)
    ensures var r, chunk, size := Reads(ReadHeaders(lib, t).s, sizes), s[SizeEnd(s) + 2..], lib.strtol(SizeText(s), 16);
            r.positive ==>
              r.out <= chunk && r.s.dataleft == size - |r.out| && (r.s.dataleft == 0 ==> r.out == chunk[..size])
  {
    hide ReadHeaders, HeadersOf, WellFormed, Reads, Unread, TextStatus, Settled, Find, Fill, Chunked, SizeText;
    ChunkedOfText(lib, t, s);
    var u := ReadHeaders(lib, t).s;
    if Reads(u, sizes).positive { BodyDelivered(u, sizes); }
  }

  // ---- instances

  /** A chunked response; `body` starts with the first size line. */
  function ChunkedResponse(body: string): string { OneHeader("A 200", XFERENC_HDR, XFER_CHUNKED, body) }

  /** Only the first piece is received if the headers end in it. */
  lemma FirstPiece(t: State, s: string, more: seq<Arrival>)
    requires |t.buf| == HDRBUFSZ && t.rest == [Bytes(s)] + more && WellFormed(s) && |s| < HDRBUFSZ - 1
    ensures Fill(t.buf, 0, t.rest).n == |s|
  {
    hide Find, Stream, Put, BodyStart;
    var got := Recv(t.rest, HDRBUFSZ - 1);
    assert got.data == s && got.rc == |s|;
    FilledOnce(t.buf, s);
    FindHeld(Put(t.buf, 0, s + [NUL]), s, 0, |s|, HDR_SEP);
  }

  lemma Words()
    ensures Bare("A 200") && Bare(XFERENC_HDR) && Bare(XFER_CHUNKED)
  {
  }

  lemma ChunkedText(body: string)
    ensures var s := ChunkedResponse(body);
            && WellFormed(s) && Chunked(HeadersOf(s)) && 0 < |s| < 1008 + |body|
            && 0 <= Find(s, 0, HDR_SEP) <= |s| - 4 && s[Find(s, 0, HDR_SEP) + 4..] == body
  {
    hide Find, BodyStart, OneHeader, HeadersOf, Bare;
    Words();
    OneHeaderText("A 200", XFERENC_HDR, XFER_CHUNKED, body);
  }

  /** The size line that the body starts with. */
  lemma SizeLine(size: string, rest: string)
    requires Bare(size)
    ensures var s := ChunkedResponse(size + LINE_END + rest);
            && WellFormed(s) && 0 <= SizeEnd(s) <= |s| - 2 && SizeText(s) == size && s[SizeEnd(s) + 2..] == rest
  {
    hide Find, WellFormed, OneHeader, HeadersOf;
    var body := size + LINE_END + rest;
    var s := ChunkedResponse(body);
    ChunkedText(body);
    var p := Find(s, 0, HDR_SEP) + 4;
    assert s[p..] == body && |s| - p == |body|;
    forall k | p <= k < p + |size| ensures Plain(s[k]) { BareAt(size, k - p); assert s[k] == s[p..][k - p]; }
    assert s[p + |size|] == s[p..][|size|] && s[p + |size| + 1] == s[p..][|size| + 1];
    LineEndIs(s, p, p + |size|);
    assert s[p..p + |size|] == s[p..][..|size|];
    assert s[p + |size| + 2..] == s[p..][|size| + 2..];
  }

  /** Five bytes in one chunk, received in one piece: they are what is delivered. */
  lemma FiveBytes(lib: Numbers, t: State)
    requires |t.buf| == HDRBUFSZ && lib.strtol("5", 16) == 5
    requires t.rest == [Bytes(ChunkedResponse("5\r\nhello"))]
    ensures var r := ReadHeaders(lib, t);
            && r.s.dataleft == 5 && Settled(r.s) && Unread(r.s) == "hello"
  {
    hide Find, ReadHeaders, HeadersOf, WellFormed, OneHeader, Fill, Chunked, SizeText, SizeEnd, ChunkedResponse, Unread;
    hide TextStatus;
    var body := "5" + LINE_END + "hello";
    assert body == "5\r\nhello";
    var s := ChunkedResponse(body);
    ChunkedText(body);
    SizeLine("5", "hello");
    OneArrival(s);
    OnePiece(t, s);
    ChunkedOfText(lib, t, s);
    assert s[SizeEnd(s) + 2..|s|] == "hello";
  }

  /** The same response cut inside its size line: the call fails. */
  lemma CutSizeLine(lib: Numbers, t: State)
    requires |t.buf| == HDRBUFSZ
    requires t.rest == [Bytes(ChunkedResponse("5")), Bytes("\r\nhello")]
    ensures ReadHeaders(lib, t).rc == EHTTP_NOCHUNKSIZE
  {
    hide Find, ReadHeaders, HeadersOf, Fill, Chunked, SizeText, Unread, TextStatus, BodyStart, Stream;
    var head, tail := ChunkedResponse("5"), "\r\nhello";
    var s := ChunkedResponse("5" + LINE_END + "hello");
    assert s == head + tail;
    TwoArrivals(head, tail);
    ChunkedText("5");
    ChunkedText("5" + LINE_END + "hello");
    SizeLine("5", "hello");
    FirstPiece(t, head, [Bytes(tail)]);
    assert |s[SizeEnd(s) + 2..]| == 5;
    assert !SizeArrived(s, |head|);
    assert Stream(t.rest) == s;
    ChunkedOfText(lib, t, s);
  }

  lemma TwoArrivals(s: string, more: string)
    requires s != [] && more != []
    ensures Stream([Bytes(s), Bytes(more)]) == s + more && Pieces([Bytes(s), Bytes(more)])
  {
    OneArrival(more);
    assert [Bytes(s), Bytes(more)][1..] == [Bytes(more)];
  }
}
