/** The response reader itself: the globals of the library and its header buffer, which the
    parser writes NULs into. Every method is proved equal to its function in Http. */
module HttpReader {
  import opened CStrings
  import opened Memory
  import Http

  class Reader {
    const lib: Http.Numbers
    const headerbuf: array<char>
    var dataleft: int
    var chunked: bool
    /** An index into the header buffer, -1 for NULL. */
    var bufptr: int
    var bufleft: int
    /** What the socket has still to deliver. */
    var arrivals: seq<Http.Arrival>

    ghost predicate Valid() { headerbuf.Length == Http.HDRBUFSZ }

    ghost function View(): Http.State
      reads this, headerbuf
    {
      Http.State(headerbuf[..], dataleft, chunked, bufptr, bufleft, arrivals)
    }

    constructor (lib: Http.Numbers, arrivals: seq<Http.Arrival>)
      ensures Valid() && fresh(headerbuf) && this.lib == lib
      ensures dataleft == 0 && !chunked && bufptr == -1 && bufleft == 0 && this.arrivals == arrivals
    {
      this.lib := lib;
      headerbuf := new char[Http.HDRBUFSZ];
      dataleft, chunked, bufptr, bufleft := 0, false, -1, 0;
      this.arrivals := arrivals;
    }

    /** `htrecv` into `buf` from index `at`. */
    method Htrecv(buf: array<char>, at: nat, n: nat) returns (rc: int)
      requires at + n <= buf.Length
      modifies this`arrivals, buf
      ensures var got := Http.Recv(old(arrivals), n);
              rc == got.rc && arrivals == got.rest && buf[..] == Put(old(buf[..]), at, got.data)
    {
      var got := Http.Recv(arrivals, n);
      arrivals := got.rest;
      forall k | 0 <= k < |got.data| { buf[at + k] := got.data[k]; }
      rc := got.rc;
      assert buf[..] == Put(old(buf[..]), at, got.data);
    }

    method GetSingleHeader(hdrbuf: nat) returns (next: nat, result: int, headers: seq<Http.Header>)
      requires Valid()
      modifies this`dataleft, this`chunked, headerbuf
      ensures Http.Lines(result, next, headerbuf[..], headers) == Http.SingleHeader(old(headerbuf[..]), hdrbuf)
      ensures dataleft == Http.DataLeft(lib, old(dataleft), headers)
      ensures chunked == (old(chunked) || Http.Chunked(headers))
    {
      hide Find, Str;
      next, result, headers := hdrbuf, Http.EHTTP_NOHDREND, [];
      var end := Find(headerbuf[..], hdrbuf, Http.LINE_END);
      if end >= 0 {
        if end == hdrbuf {
          result := Http.HDR_END;
          next := hdrbuf + 2;
          return;
        }
        var sep := Find(headerbuf[..], hdrbuf, Http.HDR_KEYVALSEP);
        if sep >= 0 {
          headerbuf[sep] := NUL;
          headerbuf[end] := NUL;
          assert headerbuf[..] == old(headerbuf[..])[sep := NUL][end := NUL];
          var hdr := Http.Header(Str(headerbuf[..], hdrbuf), Str(headerbuf[..], sep + 2));
          if hdr.name == Http.CONTLEN_HDR {
            dataleft := lib.strtol(hdr.data, 0);
          }
          if hdr.name == Http.XFERENC_HDR && hdr.data == Http.XFER_CHUNKED {
            chunked := true;
          }
          headers := [hdr];
          result := 0;
          next := end + 2;
        }
      }
    }

    /** The receives of `getHeaders`: `n` bytes are in the buffer with a NUL behind them, if any. */
    method FillBuffer() returns (ended: bool, rc: int, ghost n: nat)
      requires Valid()
      modifies this`arrivals, headerbuf
      ensures Http.Filled(ended, rc, headerbuf[..], n, arrivals) == Http.Fill(old(headerbuf[..]), 0, old(arrivals))
    {
      hide Find, Put, Http.Recv;
      var hdrptr, hremain := 0, Http.HDRBUFSZ - 1;
      n := 0;
      while true
        invariant hdrptr + hremain == Http.HDRBUFSZ - 1 && hremain > 0 && hdrptr >= 0 && n == hdrptr
        invariant Http.Fill(headerbuf[..], hdrptr, arrivals) == Http.Fill(old(headerbuf[..]), 0, old(arrivals))
        decreases hremain
      {
        ghost var b, got := headerbuf[..], Http.Recv(arrivals, hremain);
        var bytes := Htrecv(headerbuf, hdrptr, hremain);
        if bytes < 1 {
          assert headerbuf[..] == b;
          return false, bytes, hdrptr;
        }
        PutPut(b, hdrptr, got.data, [NUL]);
        hdrptr := hdrptr + bytes;
        headerbuf[hdrptr] := NUL;
        assert headerbuf[..] == Put(b, n, got.data + [NUL]) by { PutOne(Put(b, n, got.data), hdrptr, NUL); }
        hremain := hremain - bytes;
        n := hdrptr;
        if Find(headerbuf[..], 0, Http.HDR_SEP) >= 0 {
          return true, 0, hdrptr;
        }
        if hremain < 1 {
          return false, Http.EHTTP_NOHDREND, hdrptr;
        }
      }
    }

    method GetHeaders() returns (ptr: int, result: int, headers: seq<Http.Header>)
      requires Valid()
      modifies this`arrivals, this`dataleft, this`chunked, this`bufleft, headerbuf
      ensures Http.Block(result, ptr, headerbuf[..], headers, arrivals) ==
          Http.GetHeaders(old(headerbuf[..]), old(arrivals))
      ensures dataleft == Http.DataLeft(lib, old(dataleft), headers)
      ensures chunked == (old(chunked) || Http.Chunked(headers))
      ensures bufleft == if ptr >= 0 then |Str(headerbuf[..], ptr)| else old(bufleft)
    {
      hide Find, Str, Http.Fill;
      headers := [];
      var ended, rc, _ := FillBuffer();
      if !ended {
        return -1, rc, [];
      }
      var line := Find(headerbuf[..], 0, Http.LINE_END);
      if line < 0 {
        return -1, Http.EHTTP_NOTHTTP, [];
      }
      ghost var b := headerbuf[..];
      headerbuf[line] := NUL;
      assert headerbuf[..] == b[line := NUL];
      result, ptr, headers := HeaderLoop(line + 2);
      if result == 0 {
        bufleft := |Str(headerbuf[..], ptr)|;
      } else {
        ptr := -1;
      }
    }

    /** The loop over the headers in `getHeaders`. */
    method HeaderLoop(first: nat) returns (result: int, hdrptr: nat, headers: seq<Http.Header>)
      requires Valid()
      modifies this`dataleft, this`chunked, headerbuf
      ensures Http.Lines(result, hdrptr, headerbuf[..], headers) == Http.HeaderLines(old(headerbuf[..]), first)
      ensures dataleft == Http.DataLeft(lib, old(dataleft), headers)
      ensures chunked == (old(chunked) || Http.Chunked(headers))
    {
      hide Find, Str, Http.SingleHeader, Http.DataLeft, Http.Chunked;
      Http.NoneChunked();
      Http.DataLeftEmpty(lib, dataleft);
      hdrptr, result, headers := first, 0, [];
      while true
        invariant var l := Http.HeaderLines(headerbuf[..], hdrptr);
                  Http.HeaderLines(old(headerbuf[..]), first) == l.(headers := headers + l.headers)
        invariant dataleft == Http.DataLeft(lib, old(dataleft), headers)
        invariant chunked == (old(chunked) || Http.Chunked(headers))
        decreases headerbuf.Length - hdrptr
      {
        var hs;
        ghost var p := hdrptr;
        hdrptr, result, hs := GetSingleHeader(hdrptr);
        Http.DataLeftOf(lib, old(dataleft), headers, hs);
        Http.ChunkedOf(headers, hs);
        assert headers + [] == headers;
        if result == Http.HDR_END {
          result := 0;
          return;
        }
        if result != 0 {
          result := Http.EHTTP_HDRERR;
          return;
        }
        headers := headers + hs;
      }
    }

    method ReadHeaders() returns (rc: int, httpcode: int, headers: seq<Http.Header>)
      requires Valid()
      modifies this, headerbuf
      ensures Http.Response(rc, httpcode, View(), headers) == Http.ReadHeaders(lib, old(View()))
    {
      hide Find, Str, Http.GetHeaders, Http.DataLeft;
      dataleft, chunked, httpcode := 0, false, 0;
      Http.DataLeftEmpty(lib, 0);
      bufptr, rc, headers := GetHeaders();
      if rc != 0 {
        return;
      }
      if chunked && bufptr >= 0 {
        rc := ReadChunkSize();
        if rc != 0 {
          return;
        }
      }
      rc, httpcode := ReadStatus();
    }

    /** The part of `readHeaders` for a chunked body. */
    method ReadChunkSize() returns (rc: int)
      requires Valid() && bufptr >= 0
      modifies this`dataleft, this`bufleft, this`bufptr, headerbuf
      ensures Http.Response(rc, 0, View(), []) == Http.ChunkSize(lib, old(View()))
    {
      hide Find, Str;
      var end := Find(headerbuf[..], bufptr, Http.LINE_END);
      if end < 0 {
        return Http.EHTTP_NOCHUNKSIZE;
      }
      headerbuf[end] := NUL;
      assert headerbuf[..] == old(headerbuf[..])[end := NUL];
      dataleft := lib.strtol(Str(headerbuf[..], bufptr), 16);
      bufleft := bufleft - (end - bufptr + 2);
      bufptr := end + 2;
      rc := 0;
    }

    /** The end of `readHeaders`, for the status code. */
    method ReadStatus() returns (rc: int, httpcode: int)
      requires Valid()
      modifies headerbuf
      ensures Http.Response(rc, httpcode, View(), []) == Http.StatusCode(lib, old(View()))
    {
      hide Find, Str;
      var space := Find(headerbuf[..], 0, " ");
      if space < 0 {
        return Http.EHTTP_NOTHTTP, 0;
      }
      if space + 4 < headerbuf.Length {
        headerbuf[space + 4] := NUL;
        assert headerbuf[..] == old(headerbuf[..])[space + 4 := NUL];
      }
      rc, httpcode := 0, lib.atoi(Str(headerbuf[..], space));
    }

    /** `readData`: `buf` holds `bufsz` bytes from its start. With `wild` it is about to copy a
        negative number of bytes, and what happens then is anyone's guess. */
    method ReadData(buf: array<char>, bufsz: nat) returns (rc: int, wild: bool)
      requires Valid() && Http.Settled(View()) && bufsz <= buf.Length && buf != headerbuf
      modifies this`dataleft, this`bufleft, this`bufptr, this`arrivals, buf
      ensures var d := Http.ReadData(old(View()), bufsz);
              if d.Wild? then wild
              else !wild && |d.data| <= bufsz && rc == d.rc && View() == d.s && buf[..] == Put(old(buf[..]), 0, d.data)
    {
      hide Put, Http.Recv, Http.Stream;
      var bytes, full;
      bytes, full, wild := TakeKept(buf, bufsz);
      if wild || full {
        return bufsz, wild;
      }
      rc := Receive(buf, bytes, bufsz - bytes, headerbuf[bufptr..bufptr + bytes], old(buf[..]));
    }

    /** The part of `readData` that empties the header buffer, as far as `buf` has room. */
    method TakeKept(buf: array<char>, bufsz: nat) returns (bytes: nat, full: bool, wild: bool)
      requires Valid() && Http.Settled(View()) && bufsz <= buf.Length && buf != headerbuf
      modifies this`dataleft, this`bufleft, this`bufptr, buf
      ensures var k := if old(bufleft) == 0 then 0 else Http.Min(old(bufleft), old(dataleft));
              && wild == (k < 0) && full == (k > bufsz) && (!wild ==> bytes == if full then bufsz else k)
              && (!wild ==> buf[..] == Put(old(buf[..]), 0, headerbuf[old(bufptr)..old(bufptr) + bytes]))
              && (!wild ==> dataleft == old(dataleft) - bytes && bufptr == old(bufptr) + (if full then bytes else 0)
                            && bufleft == if full then old(bufleft) - bytes else 0)
    {
      hide Put;
      if bufleft == 0 {
        PutNone(buf[..], 0);
        return 0, false, false;
      }
      var get := if bufleft > dataleft then dataleft else bufleft;
      if get < 0 {
        return 0, false, true;
      }
      if get > bufsz {
        CopyKept(buf, bufsz);
        bufleft, dataleft, bufptr := bufleft - bufsz, dataleft - bufsz, bufptr + bufsz;
        return bufsz, true, false;
      }
      CopyKept(buf, get);
      dataleft, bufleft := dataleft - get, 0;
      return get, false, false;
    }

    /** The part of `readData` that asks the socket, with `bytes` of `bufsz` copied already. */
    method Receive(buf: array<char>, bytes: nat, left: nat, ghost kept: string, ghost b: string) returns (rc: int)
      requires bytes + left <= buf.Length == |b| && buf != headerbuf
      requires bytes == |kept| && buf[..] == Put(b, 0, kept)
      modifies this`dataleft, this`arrivals, buf
      ensures var got := Http.Recv(old(arrivals), if old(dataleft) < 1 then 0 else Http.Min(left, old(dataleft)));
              && |kept + got.data| <= bytes + left && buf[..] == Put(b, 0, kept + got.data)
              && rc == (if old(dataleft) >= 1 && got.rc < 1 then got.rc else |kept + got.data|)
              && dataleft == old(dataleft) - |got.data|
              && arrivals == if old(dataleft) < 1 then old(arrivals) else got.rest
    {
      hide Put;
      if dataleft < 1 {
        hide Http.Recv;
        assert kept + [] == kept;
        return bytes;
      }
      PutPut(b, 0, kept, Http.Recv(arrivals, Http.Min(left, dataleft)).data);
      var rcvbytes := Htrecv(buf, bytes, if left > dataleft then dataleft else left);
      if rcvbytes < 1 {
        return rcvbytes;
      }
      dataleft := dataleft - rcvbytes;
      rc := rcvbytes + bytes;
    }

    /** `memcpy` from what is left in the header buffer. */
    method CopyKept(buf: array<char>, n: nat)
      requires Valid() && bufptr >= 0 && bufptr + n <= headerbuf.Length && n <= buf.Length && buf != headerbuf
      modifies buf
      ensures buf[..] == Put(old(buf[..]), 0, headerbuf[bufptr..bufptr + n])
    {
      forall k | 0 <= k < n { buf[k] := headerbuf[bufptr + k]; }
      assert buf[..] == Put(old(buf[..]), 0, headerbuf[bufptr..bufptr + n]);
    }
  }
}
