/** What the response reader makes of a response, whatever pieces it arrives in. */
module HttpText {
  import opened CStrings
  import opened Memory
  import opened Http

  // ---- the response as one text

  /** Where the body starts, if every line from `p` to the empty one holds a ": "; else -1. */
  function BodyStart(s: string, p: nat): (r: int)
    ensures r < 0 || p + 2 <= r <= |s|
    decreases |s| - p
  {
    var end, sep := Find(s, p, LINE_END), Find(s, p, HDR_KEYVALSEP);
    if end < 0 then -1
    else if end == p then p + 2
    else if 0 <= sep < end then BodyStart(s, end + 2)
    else -1
  }

  /** A separator that starts before the end of a line ends before it too. */
  lemma SepInside(s: string, p: nat)
    requires 0 <= Find(s, p, HDR_KEYVALSEP) < Find(s, p, LINE_END)
    ensures Find(s, p, HDR_KEYVALSEP) + 2 <= Find(s, p, LINE_END)
  {
    hide Find;
    FindAt(s, p, LINE_END, 0);
    FindAt(s, p, HDR_KEYVALSEP, 1);
  }

  function TextHeaders(s: string, p: nat): seq<Header>
    requires BodyStart(s, p) >= 0
    decreases |s| - p
  {
    var end, sep := Find(s, p, LINE_END), Find(s, p, HDR_KEYVALSEP);
    if end == p then []
    else
      SepInside(s, p);
      [Header(s[p..sep], s[sep + 2..end])] + TextHeaders(s, end + 2)
  }

  /** The first line ends before the first empty line, and from there every line is a header. */
  predicate WellFormed(s: string) {
    && 0 <= Find(s, 0, HDR_SEP) && Find(s, 0, HDR_SEP) + 4 < HDRBUFSZ
    && 0 <= Find(s, 0, LINE_END) && BodyStart(s, Find(s, 0, LINE_END) + 2) >= 0
  }

  function HeadersOf(s: string): seq<Header>
    requires WellFormed(s)
  {
    TextHeaders(s, Find(s, 0, LINE_END) + 2)
  }

  /** Only non-empty pieces arrive. */
  predicate Pieces(a: seq<Arrival>) { forall x :: x in a ==> x.Bytes? && x.data != [] }

  // ---- filling the buffer

  lemma RecvPieces(a: seq<Arrival>, n: nat)
    requires Pieces(a) && a != [] && n > 0
    ensures Recv(a, n).rc >= 1 && Pieces(Recv(a, n).rest)
  {
    assert a[0] in a;
  }

  lemma {:induction false} StreamOfPieces(a: seq<Arrival>)
    requires Pieces(a)
    ensures Stream(a) == [] <==> a == []
  {
    if a != [] { assert a[0] in a; }
  }

  /** One receive puts the next part of the text into the buffer. */
  lemma FillOnce(b: string, n: nat, a: seq<Arrival>, s: string)
    requires |b| == HDRBUFSZ && n < HDRBUFSZ - 1 && Pieces(a) && n < |s|
    requires b[..n] == s[..n] && Stream(a) == s[n..]
    ensures var got := Recv(a, HDRBUFSZ - 1 - n);
            && got.rc >= 1 && n + got.rc <= |s| && Pieces(got.rest)
            && Holds(Put(b, n, got.data + [NUL]), s, 0, n + got.rc)
            && Stream(got.rest) == s[n + got.rc..]
  {
    RecvPieces(a, HDRBUFSZ - 1 - n);
    var got := Recv(a, HDRBUFSZ - 1 - n);
    var buf := Put(b, n, got.data + [NUL]);
    assert s[n..] == got.data + Stream(got.rest);
    assert forall k :: 0 <= k < got.rc ==> s[n..][k] == got.data[k];
    assert forall k :: 0 <= k < n ==> buf[k] == b[..n][k] == s[..n][k];
    assert s[n + got.rc..] == s[n..][got.rc..];
  }

  /** The receives end with the header block in the buffer and the rest of the text to come. */
  lemma {:induction false} FillText(b: string, n: nat, a: seq<Arrival>, s: string)
    requires |b| == HDRBUFSZ && n < HDRBUFSZ - 1 && Pieces(a)
    requires n <= |s| && b[..n] == s[..n] && Stream(a) == s[n..]
    requires var h := Find(s, 0, HDR_SEP); 0 <= h && n < h + 4 < HDRBUFSZ
    ensures var f := Fill(b, n, a);
            && f.ended && Find(s, 0, HDR_SEP) + 4 <= f.n <= |s|
            && Holds(f.buf, s, 0, f.n) && Stream(f.rest) == s[f.n..]
    decreases HDRBUFSZ - n
  {
    hide Recv, Put, Find;
    FillOnce(b, n, a, s);
    var got := Recv(a, HDRBUFSZ - 1 - n);
    var buf, m := Put(b, n, got.data + [NUL]), n + got.rc;
    FindHeld(buf, s, 0, m, HDR_SEP);
    if m < Find(s, 0, HDR_SEP) + 4 {
      assert buf[..m] == s[..m];
      FillText(buf, m, got.rest, s);
    }
  }

  // ---- taking the header lines apart in place

  /** A part of a line that a NUL has been put behind. */
  lemma CutText(buf: string, s: string, i: nat, j: nat, p: nat, end: nat)
    requires p <= i <= j <= end <= |s| && j < |buf| && buf[j] == NUL && NUL !in s[p..end]
    requires forall k :: i <= k < j ==> buf[k] == s[k]
    ensures Str(buf, i) == s[i..j]
  {
    forall k | i <= k < j ensures buf[k] != NUL { assert buf[k] == s[k] == s[p..end][k - p]; }
    assert buf[i..j] == s[i..j];
    StrOf(buf, i, j);
  }

  /** A header line, taken apart: NULs go where it ends and where its name ends. */
  lemma SingleOfText(b: string, s: string, p: nat, n: nat, end: nat, sep: nat)
    requires Holds(b, s, p, n) && p <= sep < end && end + 2 <= n
    requires end == Find(s, p, LINE_END) && sep == Find(s, p, HDR_KEYVALSEP)
    ensures sep + 2 <= end
    ensures SingleHeader(b, p) == Lines(0, end + 2, b[sep := NUL][end := NUL], [Header(s[p..sep], s[sep + 2..end])])
  {
    hide Find, Str;
    SepInside(s, p);
    FindHeld(b, s, p, n, LINE_END);
    FindHeld(b, s, p, n, HDR_KEYVALSEP);
    FindClean(s, p, LINE_END);
    var buf := b[sep := NUL][end := NUL];
    CutText(buf, s, p, sep, p, end);
    CutText(buf, s, sep + 2, end, p, end);
  }

  lemma LastLine(b: string, s: string, p: nat, n: nat)
    requires Holds(b, s, p, n) && Find(s, p, LINE_END) == p && p + 2 <= n
    ensures SingleHeader(b, p) == Lines(HDR_END, p + 2, b, [])
  {
    hide Find, Str;
    FindHeld(b, s, p, n, LINE_END);
  }

  lemma {:induction false} LinesOfText(b: string, s: string, p: nat, n: nat)
    requires Holds(b, s, p, n) && 0 <= BodyStart(s, p) <= n
    ensures var l := HeaderLines(b, p);
            && l.result == 0 && l.next == BodyStart(s, p) && l.headers == TextHeaders(s, p)
            && Holds(l.buf, s, l.next, n) && l.buf[..p] == b[..p]
    decreases |s| - p
  {
    hide Find, Str, SingleHeader;
    var end, sep := Find(s, p, LINE_END), Find(s, p, HDR_KEYVALSEP);
    if end == p {
      LastLine(b, s, p, n);
    } else {
      var buf := b[sep := NUL][end := NUL];
      SepInside(s, p);
      SingleOfText(b, s, p, n, end, sep);
      LinesOfText(buf, s, end + 2, n);
      KeptBefore(b, HeaderLines(buf, end + 2).buf, p, sep, end);
    }
  }

  lemma KeptBefore(b: string, l: string, p: nat, sep: nat, end: nat)
    requires p <= sep < end && end + 2 <= |b| == |l| && l[..end + 2] == b[sep := NUL][end := NUL][..end + 2]
    ensures l[..p] == b[..p]
  {
    assert l[..p] == l[..end + 2][..p];
  }

  // ---- where the body starts

  predicate SepAt(s: string, q: nat) { q + 4 <= |s| && s[q..q + 4] == HDR_SEP }

  /** No empty line comes before `h`, where there is one. */
  predicate FirstSep(s: string, h: nat) {
    SepAt(s, h) && NUL !in s[..h] && forall q :: 0 <= q < h ==> !SepAt(s, q)
  }

  lemma FirstSepFound(s: string)
    requires Find(s, 0, HDR_SEP) >= 0
    ensures FirstSep(s, Find(s, 0, HDR_SEP))
  {
    hide Find;
    var h := Find(s, 0, HDR_SEP);
    FindClean(s, 0, HDR_SEP);
    assert s[0..h] == s[..h];
    forall q | 0 <= q < h ensures !SepAt(s, q) {
      if SepAt(s, q) {
        assert forall k :: 0 <= k < q ==> s[0..q][k] == s[..h][k];
        FindFirst(s, 0, HDR_SEP, q);
      }
    }
  }

  lemma NotBefore(s: string, h: nat, p: nat, end: nat)
    requires FirstSep(s, h) && p <= h && end == Find(s, p, LINE_END)
    ensures p <= end <= h
  {
    hide Find;
    assert s[h..h + 2] == s[h..h + 4][..2] == LINE_END;
    forall k | p <= k < h ensures s[k] != NUL { assert s[k] == s[..h][k]; }
    FindFirst(s, p, LINE_END, h);
  }

  lemma NotAdjacent(s: string, h: nat, p: nat)
    requires FirstSep(s, h) && 2 <= p <= h + 1 && s[p - 2..p] == LINE_END
    ensures p <= h && p + 2 <= |s| && s[p..p + 2] != LINE_END
  {
    assert s[p - 1] == s[p - 2..p][1];
    assert s[h] == s[h..h + 4][0];
    if s[p..p + 2] == LINE_END {
      assert s[p - 2..p + 2] == s[p - 2..p] + s[p..p + 2];
      assert SepAt(s, p - 2);
    }
  }

  /** The lines end at the first empty line, so the body starts where the receives looked for it. */
  lemma {:induction false} BodyAfterSep(s: string, h: nat, p: nat)
    requires FirstSep(s, h) && 2 <= p <= h + 2 && s[p - 2..p] == LINE_END && BodyStart(s, p) >= 0
    ensures BodyStart(s, p) == h + 4
    decreases |s| - p
  {
    hide Find, FirstSep;
    if p == h + 2 {
      SepEnds(s, h);
    } else {
      NotAdjacent(s, h, p);
      NotBefore(s, h, p, Find(s, p, LINE_END));
      BodyAfterSep(s, h, Find(s, p, LINE_END) + 2);
    }
  }

  lemma SepEnds(s: string, h: nat)
    requires FirstSep(s, h)
    ensures Find(s, h + 2, LINE_END) == h + 2
  {
    assert s[h + 2..h + 4] == s[h..h + 4][2..];
    assert s[h + 2] == s[h..h + 4][2];
  }

  // ---- the whole response

  /** What the first line says, read up to its end or for four characters from its first space. */
  function TextStatus(lib: Numbers, s: string): (int, int)
    requires WellFormed(s)
  {
    var i, e := Find(s, 0, " "), Find(s, 0, LINE_END);
    if i < 0 || e <= i then (EHTTP_NOTHTTP, 0)
    else (0, lib.atoi(s[i..if i + 4 < e then i + 4 else e]))
  }

  /** Where the parts of a response lie. */
  lemma Places(s: string)
    requires WellFormed(s)
    ensures var h, e := Find(s, 0, HDR_SEP), Find(s, 0, LINE_END);
            && e <= h && BodyStart(s, e + 2) == h + 4
  {
    hide Find, BodyStart, FirstSep;
    FirstSepFound(s);
    NotBefore(s, Find(s, 0, HDR_SEP), 0, Find(s, 0, LINE_END));
    BodyAfterSep(s, Find(s, 0, HDR_SEP), Find(s, 0, LINE_END) + 2);
  }

  lemma FilledText(b: string, a: seq<Arrival>, s: string)
    requires |b| == HDRBUFSZ && Pieces(a) && Stream(a) == s && WellFormed(s)
    ensures var f := Fill(b, 0, a);
            && f.ended && Find(s, 0, HDR_SEP) + 4 <= f.n <= |s|
            && Holds(f.buf, s, 0, f.n) && Stream(f.rest) == s[f.n..]
  {
    assert s[0..] == s && b[..0] == s[..0];
    FillText(b, 0, a, s);
  }

  /** The header block, taken apart in place after `n` bytes were received. */
  lemma BlockLines(buf: string, s: string, n: nat)
    requires WellFormed(s) && |buf| == HDRBUFSZ && Find(s, 0, HDR_SEP) + 4 <= n && Holds(buf, s, 0, n)
    ensures var e := Find(s, 0, LINE_END);
            && Find(buf, 0, LINE_END) == e && e + 4 <= Find(s, 0, HDR_SEP) + 4
            && var l := HeaderLines(buf[e := NUL], e + 2);
               && l.result == 0 && l.next == Find(s, 0, HDR_SEP) + 4 && l.headers == HeadersOf(s)
               && Holds(l.buf, s, l.next, n) && Holds(l.buf, s, 0, e)
  {
    hide Find, BodyStart, HeaderLines, TextHeaders;
    Places(s);
    var e := Find(s, 0, LINE_END);
    FindHeld(buf, s, 0, n, LINE_END);
    var cut := buf[e := NUL];
    LinesOfText(cut, s, e + 2, n);
    var l := HeaderLines(cut, e + 2);
    assert forall k :: 0 <= k <= e ==> l.buf[k] == l.buf[..e + 2][k] == cut[..e + 2][k] == cut[k];
  }

  /** The block that `getHeaders` finds. */
  lemma BlockOfText(b: string, a: seq<Arrival>, s: string)
    requires |b| == HDRBUFSZ && Pieces(a) && Stream(a) == s && WellFormed(s)
    ensures var g, n, e := GetHeaders(b, a), Fill(b, 0, a).n, Find(s, 0, LINE_END);
            && g.result == 0 && g.ptr == Find(s, 0, HDR_SEP) + 4 && g.headers == HeadersOf(s)
            && g.ptr <= n <= |s| && Holds(g.buf, s, g.ptr, n) && Stream(g.rest) == s[n..]
            && e + 4 <= g.ptr && Holds(g.buf, s, 0, e)
  {
    hide Find, Fill, BodyStart, HeaderLines, HeadersOf, Holds;
    FilledText(b, a, s);
    BlockLines(Fill(b, 0, a).buf, s, Fill(b, 0, a).n);
  }

  /** The globals as `getHeaders` leaves them. */
  function AfterHeaders(lib: Numbers, g: Block): State
    requires g.ptr >= 0
  {
    State(g.buf, DataLeft(lib, 0, g.headers), Chunked(g.headers), g.ptr, |Str(g.buf, g.ptr)|, g.rest)
  }

  lemma StatusOfText(lib: Numbers, t: State, s: string)
    requires WellFormed(s) && Holds(t.buf, s, 0, Find(s, 0, LINE_END)) && Find(s, 0, LINE_END) + 4 <= |t.buf|
    ensures var r := StatusCode(lib, t);
            && (r.rc, r.code) == TextStatus(lib, s)
            && r.s == t.(buf := r.s.buf) && |r.s.buf| == |t.buf|
            && forall k :: Find(s, 0, LINE_END) + 4 <= k < |t.buf| ==> r.s.buf[k] == t.buf[k]
  {
    hide Find, Str;
    var i, e := Find(s, 0, " "), Find(s, 0, LINE_END);
    FindHeld(t.buf, s, 0, e, " ");
    FindClean(s, 0, LINE_END);
    if 0 <= i < e {
      var buf := t.buf[i + 4 := NUL];
      CutText(buf, s, i, if i + 4 < e then i + 4 else e, 0, e);
    }
  }

  /** Every response with well-formed headers that is not chunked is read the same way whatever
      the pieces: the status, the headers and the content length are those of the text. */
  lemma ReadHeadersOfText(lib: Numbers, t: State, s: string)
    requires |t.buf| == HDRBUFSZ && Pieces(t.rest) && Stream(t.rest) == s
    requires WellFormed(s) && !Chunked(HeadersOf(s))
    ensures var r, h, n := ReadHeaders(lib, t), Find(s, 0, HDR_SEP), Fill(t.buf, 0, t.rest).n;
            && (r.rc, r.code) == TextStatus(lib, s) && r.headers == HeadersOf(s)
            && r.s.dataleft == DataLeft(lib, 0, HeadersOf(s)) && !r.s.chunked && |r.s.buf| == HDRBUFSZ
            && r.s.bufptr == h + 4 <= n <= |s| && r.s.bufleft == |Str(s[..n], h + 4)|
            && n < HDRBUFSZ && Holds(r.s.buf, s, h + 4, n) && Stream(r.s.rest) == s[n..]
  {
    hide Find, Fill, Str, GetHeaders, HeadersOf, StatusCode, DataLeft;
    BlockOfText(t.buf, t.rest, s);
    var g, n := GetHeaders(t.buf, t.rest), Fill(t.buf, 0, t.rest).n;
    StrHeld(g.buf, s, g.ptr, n);
    StatusOfText(lib, AfterHeaders(lib, g), s);
  }

  lemma {:induction false} StrShort(b: string, p: nat)
    requires p <= |b|
    ensures |Str(b, p)| <= |b| - p && (|Str(b, p)| == |b| - p <==> NUL !in b[p..])
    decreases |b| - p
  {
    if p < |b| {
      assert b[p..] == [b[p]] + b[p + 1..];
      StrShort(b, p + 1);
    }
  }

  lemma Joined(t: State, s: string, p: nat, n: nat)
    requires Settled(t) && t.bufptr == p && t.bufleft <= n - p
    requires Holds(t.buf, s, p, n) && Stream(t.rest) == s[n..]
    ensures Unread(t) == s[p..] <==> t.bufleft == n - p
  {
    hide Stream;
    assert s[p..] == s[p..n] + s[n..];
    assert t.buf[p..n] == s[p..n];
    assert |Unread(t)| == t.bufleft + |s| - n;
  }

  lemma TakeDrop(s: string, p: nat, n: nat)
    requires p <= n <= |s|
    ensures s[..n][p..] == s[p..n]
  {
  }

  /** What is left to read is the body, exactly when no NUL of it was received with the headers. */
  lemma UnreadIsBody(lib: Numbers, t: State, s: string)
    requires |t.buf| == HDRBUFSZ && Pieces(t.rest) && Stream(t.rest) == s
    requires WellFormed(s) && !Chunked(HeadersOf(s))
    ensures var r, h, n := ReadHeaders(lib, t).s, Find(s, 0, HDR_SEP), Fill(t.buf, 0, t.rest).n;
            && h + 4 <= n <= |s| && Settled(r)
            && (Unread(r) == s[h + 4..] <==> NUL !in s[h + 4..n])
  {
    hide Find, Fill, ReadHeaders, HeadersOf, BodyStart, Str, TextStatus, Unread;
    ReadHeadersOfText(lib, t, s);
    var r, p, n := ReadHeaders(lib, t).s, Find(s, 0, HDR_SEP) + 4, Fill(t.buf, 0, t.rest).n;
    StrShort(s[..n], p);
    TakeDrop(s, p, n);
    Joined(r, s, p, n);
  }

  /** The response has been read as the text says, and the body is still there to read. */
  predicate ReadsAs(lib: Numbers, r: Response, s: string)
    requires WellFormed(s)
  {
    && (r.rc, r.code) == TextStatus(lib, s) && r.headers == HeadersOf(s)
    && r.s.dataleft == DataLeft(lib, 0, HeadersOf(s))
    && Settled(r.s) && Unread(r.s) == s[Find(s, 0, HDR_SEP) + 4..]
  }

  /** However a response without NULs is cut into pieces, and whatever was in the globals before,
      the result is the same down to every byte of the body. */
  lemma FragmentationIndependent(lib: Numbers, t: State, s: string)
    requires |t.buf| == HDRBUFSZ && Pieces(t.rest) && Stream(t.rest) == s
    requires WellFormed(s) && !Chunked(HeadersOf(s)) && NUL !in s
    ensures ReadsAs(lib, ReadHeaders(lib, t), s)
  {
    hide Find, Fill, ReadHeaders, HeadersOf, WellFormed, Str, Unread, TextStatus, Settled;
    ReadHeadersOfText(lib, t, s);
    UnreadIsBody(lib, t, s);
  }

  // ---- a header block that does not end

  predicate NoEnd(s: string) { Find(s, 0, HDR_SEP) < 0 || HDRBUFSZ <= Find(s, 0, HDR_SEP) + 4 }

  lemma RecvNone(n: nat)
    ensures Recv([], n) == Receipt(0, [], [])
  {
  }

  lemma {:induction false} FillNoEnd(b: string, n: nat, a: seq<Arrival>, s: string)
    requires |b| == HDRBUFSZ && n < HDRBUFSZ - 1 && Pieces(a) && NoEnd(s)
    requires n <= |s| && b[..n] == s[..n] && Stream(a) == s[n..] && (n > 0 ==> Holds(b, s, 0, n))
    ensures var f := Fill(b, n, a);
            && !f.ended && f.rc == (if |s| < HDRBUFSZ - 1 then 0 else EHTTP_NOHDREND)
            && (0 < |s| < HDRBUFSZ - 1 ==> Holds(f.buf, s, 0, |s|))
    decreases HDRBUFSZ - n
  {
    hide Put, Find, Recv, Stream, Holds, Pieces;
    StreamOfPieces(a);
    if a == [] {
      RecvNone(HDRBUFSZ - 1 - n);
    } else {
      FillOnce(b, n, a, s);
      var got := Recv(a, HDRBUFSZ - 1 - n);
      var buf, m := Put(b, n, got.data + [NUL]), n + got.rc;
      FindHeld(buf, s, 0, m, HDR_SEP);
      if m < HDRBUFSZ - 1 {
        HeldPrefix(buf, s, m);
        FillNoEnd(buf, m, got.rest, s);
      }
    }
  }

  lemma HeldPrefix(b: string, s: string, n: nat)
    requires Holds(b, s, 0, n)
    ensures n <= |s| && n <= |b| && b[..n] == s[..n]
  {
  }

  /** With no end of the headers among the first 1399 bytes the call fails. */
  lemma HeadersTooLong(lib: Numbers, t: State, s: string)
    requires |t.buf| == HDRBUFSZ && Pieces(t.rest) && Stream(t.rest) == s && NoEnd(s) && HDRBUFSZ - 1 <= |s|
    ensures ReadHeaders(lib, t).rc == EHTTP_NOHDREND
  {
    assert s[0..] == s;
    FillNoEnd(t.buf, 0, t.rest, s);
  }

  /** The number after the first space, read for four characters at most. */
  function FirstNumber(lib: Numbers, s: string): int
    requires Find(s, 0, " ") >= 0
  {
    var i := Find(s, 0, " ");
    lib.atoi(Str(s[..if i + 4 < |s| then i + 4 else |s|], i))
  }

  /** But when the peer closes before the headers end, the call still succeeds exactly when what
      did arrive holds a space, and takes its status from there: the 0 of the last receive passes
      for success, with no body to read. If nothing at all has arrived the search is made in what
      the buffer happens to hold. */
  lemma ClosedEarly(lib: Numbers, t: State, s: string)
    requires |t.buf| == HDRBUFSZ && Pieces(t.rest) && Stream(t.rest) == s && NoEnd(s) && |s| < HDRBUFSZ - 1
    ensures var r, searched := ReadHeaders(lib, t), if s == [] then t.buf else s;
            && (r.rc == 0 <==> Find(searched, 0, " ") >= 0)
            && (r.rc == 0 ==> r.code == FirstNumber(lib, searched))
            && r.s.bufptr == -1 && r.s.dataleft == 0 && r.headers == []
  {
    hide Find, Fill, FirstNumber, Str, Stream;
    assert s[0..] == s;
    FillNoEnd(t.buf, 0, t.rest, s);
    StreamOfPieces(t.rest);
    var buf := Fill(t.buf, 0, t.rest).buf;
    var u := State(buf, 0, false, -1, t.bufleft, Fill(t.buf, 0, t.rest).rest);
    if s == [] {
      FillNothing(t.buf);
      if Find(t.buf, 0, " ") >= 0 { StaleNumber(lib, u); }
    } else {
      FindHeld(buf, s, 0, |s|, " ");
      if Find(s, 0, " ") >= 0 { HeldNumber(lib, u, s); }
    }
  }

  lemma FillNothing(b: string)
    requires |b| == HDRBUFSZ
    ensures Fill(b, 0, []).buf == b
  {
  }

  lemma StaleNumber(lib: Numbers, u: State)
    requires Find(u.buf, 0, " ") >= 0
    ensures StatusCode(lib, u).code == FirstNumber(lib, u.buf)
  {
    hide Find;
    var b, i := u.buf, Find(u.buf, 0, " ");
    if i + 4 < |b| {
      StrHeld(b[i + 4 := NUL], b, i, i + 4);
    } else {
      assert b[..|b|] == b;
    }
  }

  lemma HeldNumber(lib: Numbers, u: State, s: string)
    requires Holds(u.buf, s, 0, |s|) && Find(s, 0, " ") >= 0
    ensures StatusCode(lib, u).code == FirstNumber(lib, s)
  {
    hide Find;
    FindHeld(u.buf, s, 0, |s|, " ");
    var b, i := u.buf, Find(s, 0, " ");
    var cut := if i + 4 < |b| then b[i + 4 := NUL] else b;
    StrHeld(cut, s, i, if i + 4 < |s| then i + 4 else |s|);
  }

  lemma SameSpace(b: string, c: string)
    requires |b| == |c| && Find(b, 0, " ") >= 0 && forall k :: 0 <= k <= Find(b, 0, " ") ==> c[k] == b[k]
    ensures Find(c, 0, " ") == Find(b, 0, " ")
  {
    hide Find;
    var i := Find(b, 0, " ");
    FindClean(b, 0, " ");
    assert c[0..i] == b[0..i];
    FindAt(b, 0, " ", 0);
    FindFirst(c, 0, " ", i);
    FindAt(c, 0, " ", 0);
    var j := Find(c, 0, " ");
    assert forall k :: 0 <= k < j ==> b[0..i][k] == b[k];
    FindFirst(b, 0, " ", j);
  }

  /** Looking for the status once more finds it again. */
  lemma StatusAgain(lib: Numbers, u: State)
    requires Find(u.buf, 0, " ") >= 0
    ensures var r := StatusCode(lib, u);
            r.rc == 0 && Find(r.s.buf, 0, " ") >= 0 && FirstNumber(lib, r.s.buf) == r.code
  {
    hide Find, Str;
    var b, i := u.buf, Find(u.buf, 0, " ");
    var c := StatusCode(lib, u).s.buf;
    SameSpace(b, c);
    if i + 4 < |b| { StrHeld(c, c, i, i + 4); } else { assert c[..|c|] == c; }
  }

  lemma FoundStatus(lib: Numbers, t: State) returns (u: State)
    requires |t.buf| == HDRBUFSZ && ReadHeaders(lib, t).rc == 0
    ensures |u.buf| == HDRBUFSZ && Find(u.buf, 0, " ") >= 0
    ensures ReadHeaders(lib, t).code == StatusCode(lib, u).code && ReadHeaders(lib, t).s == StatusCode(lib, u).s
  {
    hide GetHeaders, Find, Str, DataLeft, Chunked;
    var g := GetHeaders(t.buf, t.rest);
    u := State(g.buf, DataLeft(lib, 0, g.headers), Chunked(g.headers), g.ptr,
               if g.ptr >= 0 then |Str(g.buf, g.ptr)| else t.bufleft, g.rest);
    if u.chunked && u.bufptr >= 0 { u := ChunkSize(lib, u).s; }
  }

  /** So after any response whose status was found, a connection that closes at once, with nothing
      sent, succeeds with the status of that earlier response. */
  lemma StaleStatus(lib: Numbers, t: State)
    requires |t.buf| == HDRBUFSZ && ReadHeaders(lib, t).rc == 0
    ensures var was := ReadHeaders(lib, t);
            && |was.s.buf| == HDRBUFSZ
            && var r := ReadHeaders(lib, was.s.(rest := []));
               r.rc == 0 && r.code == was.code && r.s.bufptr == -1 && r.s.dataleft == 0 && r.headers == []
  {
    var u := FoundStatus(lib, t);
    var was := ReadHeaders(lib, t);
    hide Find, ReadHeaders;
    StatusAgain(lib, u);
    NothingEnds();
    ClosedEarly(lib, was.s.(rest := []), []);
  }

  lemma NothingEnds()
    ensures NoEnd([]) && Pieces([]) && Stream([]) == []
  {
  }

  /** An instance: the connection closes in the middle of the first line, and the call succeeds. */
  lemma TruncatedLine(lib: Numbers, t: State)
    requires |t.buf| == HDRBUFSZ && t.rest == [Bytes("A B")]
    ensures ReadHeaders(lib, t).rc == 0 && ReadHeaders(lib, t).s.bufptr == -1
  {
    hide Find, ReadHeaders;
    OneArrival("A B");
    FindFirst("A B", 0, " ", 1);
    ClosedEarly(lib, t, "A B");
  }

  lemma OneArrival(s: string)
    ensures Stream([Bytes(s)]) == s && (s != [] ==> Pieces([Bytes(s)]))
  {
    assert [Bytes(s)][1..] == [] && s + [] == s;
  }

  /** A response that arrives in one piece is in the buffer whole. */
  lemma OnePiece(t: State, s: string)
    requires |t.buf| == HDRBUFSZ && t.rest == [Bytes(s)] && WellFormed(s) && |s| < HDRBUFSZ - 1
    ensures Fill(t.buf, 0, t.rest).n == |s|
  {
    hide Find, Stream, Put;
    OneArrival(s);
    var got := Recv(t.rest, HDRBUFSZ - 1);
    assert got == Receipt(|s|, s, []);
    FilledOnce(t.buf, s);
    FindHeld(Put(t.buf, 0, s + [NUL]), s, 0, |s|, HDR_SEP);
  }

  lemma FilledOnce(b: string, s: string)
    requires |s| < |b|
    ensures Holds(Put(b, 0, s + [NUL]), s, 0, |s|)
  {
  }

  /** A response without a body. */
  const OK_RESPONSE := "A 204\r\n\r\n"

  lemma OkPlaces()
    ensures Find(OK_RESPONSE, 0, HDR_SEP) == 5 && Find(OK_RESPONSE, 0, LINE_END) == 5 && Find(OK_RESPONSE, 0, " ") == 1
    ensures WellFormed(OK_RESPONSE) && HeadersOf(OK_RESPONSE) == []
  {
    hide Find;
    FindFirst(OK_RESPONSE, 0, HDR_SEP, 5);
    FindAt(OK_RESPONSE, 0, HDR_SEP, 0);
    FindFirst(OK_RESPONSE, 0, LINE_END, 5);
    FindAt(OK_RESPONSE, 0, LINE_END, 0);
    FindFirst(OK_RESPONSE, 7, LINE_END, 7);
    FindFirst(OK_RESPONSE, 0, " ", 1);
    FindAt(OK_RESPONSE, 0, " ", 0);
  }

  /** An instance: a complete response, and then a connection on which nothing arrives. Both calls
      succeed with the number 204. */
  lemma EmptyAfterComplete(lib: Numbers, t: State)
    requires |t.buf| == HDRBUFSZ && t.rest == [Bytes(OK_RESPONSE)] && lib.atoi(" 204") == 204
    ensures var first := ReadHeaders(lib, t);
            && first.rc == 0 && first.code == 204 && |first.s.buf| == HDRBUFSZ
            && var second := ReadHeaders(lib, first.s.(rest := [])); second.rc == 0 && second.code == 204
  {
    hide Find, ReadHeaders, HeadersOf, WellFormed;
    OkPlaces();
    NoneChunked();
    OneArrival(OK_RESPONSE);
    ReadHeadersOfText(lib, t, OK_RESPONSE);
    assert OK_RESPONSE[1..5] == " 204";
    StaleStatus(lib, t);
  }

  /** A response with a NUL in its body, and nothing else to it. */
  const NUL_RESPONSE := "A B\r\n\r\nx\0y"

  lemma NulSep()
    ensures Find(NUL_RESPONSE, 0, HDR_SEP) == 3
  {
    hide Find;
    FindFirst(NUL_RESPONSE, 0, HDR_SEP, 3);
    FindAt(NUL_RESPONSE, 0, HDR_SEP, 0);
  }

  lemma NulLines()
    ensures Find(NUL_RESPONSE, 0, LINE_END) == 3 && Find(NUL_RESPONSE, 5, LINE_END) == 5
  {
    hide Find;
    FindFirst(NUL_RESPONSE, 0, LINE_END, 3);
    FindAt(NUL_RESPONSE, 0, LINE_END, 0);
    FindFirst(NUL_RESPONSE, 5, LINE_END, 5);
  }

  lemma NulPlaces()
    ensures Find(NUL_RESPONSE, 0, HDR_SEP) == 3 && Find(NUL_RESPONSE, 0, LINE_END) == 3
    ensures WellFormed(NUL_RESPONSE) && HeadersOf(NUL_RESPONSE) == []
  {
    hide Find;
    NulSep();
    NulLines();
  }

  /** An instance: of the three bytes of that body only the first can be read. */
  lemma NulInBody(lib: Numbers, t: State)
    requires |t.buf| == HDRBUFSZ && t.rest == [Bytes(NUL_RESPONSE)]
    ensures Settled(ReadHeaders(lib, t).s)
    ensures ReadHeaders(lib, t).rc == 0 && Unread(ReadHeaders(lib, t).s) != NUL_RESPONSE[7..]
  {
    var s := NUL_RESPONSE;
    NulPlaces();
    OneArrival(s);
    hide ReadHeaders, HeadersOf, BodyStart;
    OnePiece(t, s);
    FindFirst(s, 0, " ", 1);
    ReadHeadersOfText(lib, t, s);
    UnreadIsBody(lib, t, s);
    assert s[7..10][1] == NUL;
  }
}
