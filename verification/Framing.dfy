/** The packed message buffers of the server (server/ctfsocket.c) and the two loops that take
    them apart again (client/rxtx.c, spectator/rxtx.c). */
module Framing {
  type Byte = n: int | 0 <= n < 256

  const MSGBUFSZ := 256

  const SPRITEMSG: Byte := 0x01
  const RMSPRITEMSG: Byte := 0x02
  const MESSAGEMSG: Byte := 0x03
  const SCOREBOARD: Byte := 0x04
  const FLAGALERT: Byte := 0x05
  const PINGMSG: Byte := 0x07
  const MMEXIT: Byte := 0x0A
  const ENDGAMESCORE: Byte := 0x0B
  const SPRITEMSG16: Byte := 0x0C
  const PLAYERIDMSG: Byte := 0x0D
  const SPECSCOREBOARDMSG: Byte := 0x0E
  const SPECGAMEEND: Byte := 0x0F
  const VIEWPORT: Byte := 0x42
  const STARTACK: Byte := 0x46

  datatype Message = Message(id: Byte, body: seq<Byte>)

  datatype Reader = PlayerClient | SpectatorClient

  /** What a reader does at a message id: take that many bytes and go on, take them and leave the
      loop, or drop whatever is left. */
  datatype Step = Take(size: nat) | Leave(size: nat) | Drop

  /** The sizes of the structures in common/ctfmessage.h. A map message takes the rest of its
      datagram, so like an unknown id it ends the loop. */
  function StepFor(r: Reader, id: Byte): Step {
    if id == SPRITEMSG then Take(7)
    else if id == RMSPRITEMSG then Take(2)
    else if id == VIEWPORT then Take(4)
    else if id == MESSAGEMSG then Take(43)
    else if id == SCOREBOARD then Take(6)
    else if id == FLAGALERT || id == PINGMSG then Take(1)
    else if id == ENDGAMESCORE then if r.PlayerClient? then Leave(10) else Take(10)
    else if r.PlayerClient? then Drop
    else if id == SPRITEMSG16 then Take(14)
    else if id == PLAYERIDMSG then Take(17)
    else if id == SPECSCOREBOARDMSG then Take(50)
    else if id == SPECGAMEEND then Take(4)
    else if id == MMEXIT then Take(1)
    else Drop
  }

  // ---- the packed form

  function Flat(q: seq<Message>): seq<Byte> {
    if q == [] then [] else [q[0].id] + q[0].body + Flat(q[1..])
  }

  /** The bytes of the buffer in use: the message count, then the messages. */
  function Used(q: seq<Message>): nat { 1 + |Flat(q)| }

  predicate Fits(q: seq<Message>, m: Message) { Used(q) + |m.body| + 2 <= MSGBUFSZ }

  /** The messages that `addMessage` accepts of those offered since the last send. */
  function Accepted(q: seq<Message>, offered: seq<Message>): seq<Message>
    decreases |offered|
  {
    if offered == [] then q
    else Accepted(if Fits(q, offered[0]) then q + [offered[0]] else q, offered[1..])
  }

  lemma {:induction false} FlatSnoc(q: seq<Message>, m: Message)
    ensures Flat(q + [m]) == Flat(q) + [m.id] + m.body
    decreases |q|
  {
    if q == [] {
      assert q + [m] == [m] && Flat([m][1..]) == [];
    } else {
      FlatSnoc(q[1..], m);
      assert (q + [m])[1..] == q[1..] + [m];
    }
  }

  /** The one-byte count cannot wrap. */
  lemma {:induction false} CountBelowUsed(q: seq<Message>)
    ensures |q| < Used(q)
    decreases |q|
  {
    if q != [] { CountBelowUsed(q[1..]); }
  }

  /** However many messages are offered, the buffer holds at most 255 bytes and fewer than 255 messages. */
  lemma {:induction false} AcceptedFit(q: seq<Message>, offered: seq<Message>)
    requires Used(q) < MSGBUFSZ
    ensures |Accepted(q, offered)| < Used(Accepted(q, offered)) < MSGBUFSZ
    decreases |offered|
  {
    if offered == [] {
      CountBelowUsed(q);
    } else {
      FlatSnoc(q, offered[0]);
      AcceptedFit(if Fits(q, offered[0]) then q + [offered[0]] else q, offered[1..]);
    }
  }

  // ---- taking it apart

  datatype End = Waiting | Left | Overrun

  datatype Heard = Heard(msgs: seq<Message>, end: End)

  function With(m: Message, h: Heard): Heard { Heard([m] + h.msgs, h.end) }

  datatype Taken = Stop(heard: Heard) | More(m: Message, next: nat)

  /** The message at position `p` of the receive buffer. */
  function Next(r: Reader, rx: seq<Byte>, p: nat): Taken {
    if |rx| <= p then Stop(Heard([], Overrun))
    else
      var step := StepFor(r, rx[p]);
      if step.Drop? then Stop(Heard([], Waiting))
      else if |rx| < p + 1 + step.size then Stop(Heard([], Overrun))
      else
        var m := Message(rx[p], rx[p + 1..p + 1 + step.size]);
        if step.Leave? then Stop(Heard([m], Left)) else More(m, p + 1 + step.size)
  }

  /** `n` messages from position `p`. */
  function Decode(r: Reader, rx: seq<Byte>, p: nat, n: nat): Heard
    decreases n
  {
    if n == 0 then Heard([], Waiting)
    else
      match Next(r, rx, p)
      case Stop(h) => h
      case More(m, q) => With(m, Decode(r, rx, q, n - 1))
  }

  /** What a reader is to hear of the messages `q`: all of them up to the first that it does not
      know, and nothing after the first that makes it leave. */
  function Listened(r: Reader, q: seq<Message>): Heard {
    if q == [] || StepFor(r, q[0].id).Drop? then Heard([], Waiting)
    else if StepFor(r, q[0].id).Leave? then Heard([q[0]], Left)
    else With(q[0], Listened(r, q[1..]))
  }

  /** Every message has the size of its structure. */
  predicate Sized(r: Reader, q: seq<Message>) {
    forall m :: m in q ==> StepFor(r, m.id).Drop? || StepFor(r, m.id).size == |m.body|
  }

  lemma FlatAt(m: Message, rest: seq<Byte>, rx: seq<Byte>, p: nat)
    requires var k := 1 + |m.body|;
             p + k + |rest| <= |rx| && rx[p..p + k + |rest|] == [m.id] + m.body + rest
    ensures var k := 1 + |m.body|;
            rx[p] == m.id && rx[p + 1..p + k] == m.body && rx[p + k..p + k + |rest|] == rest
  {
    var k, whole := 1 + |m.body|, rx[p..p + 1 + |m.body| + |rest|];
    assert rx[p] == whole[0];
    forall j | 0 <= j < |m.body| ensures rx[p + 1..p + k][j] == m.body[j] { assert rx[p + 1 + j] == whole[1 + j]; }
    forall j | 0 <= j < |rest| ensures rx[p + k..p + k + |rest|][j] == rest[j] { assert rx[p + k + j] == whole[k + j]; }
  }

  lemma NextOf(r: Reader, m: Message, rx: seq<Byte>, p: nat)
    requires StepFor(r, m.id).Drop? || StepFor(r, m.id).size == |m.body|
    requires p + 1 + |m.body| <= |rx| && rx[p] == m.id && rx[p + 1..p + 1 + |m.body|] == m.body
    ensures Next(r, rx, p) ==
              match StepFor(r, m.id)
              case Drop => Stop(Heard([], Waiting))
              case Leave(_) => Stop(Heard([m], Left))
              case Take(_) => More(m, p + 1 + |m.body|)
  {
  }

  lemma {:induction false} DecodeFlat(r: Reader, q: seq<Message>, rx: seq<Byte>, p: nat)
    requires Sized(r, q) && p + |Flat(q)| <= |rx| && rx[p..p + |Flat(q)|] == Flat(q)
    ensures Decode(r, rx, p, |q|) == Listened(r, q)
    decreases |q|
  {
    hide StepFor, Next;
    if q != [] {
      assert q[0] in q;
      FlatAt(q[0], Flat(q[1..]), rx, p);
      NextOf(r, q[0], rx, p);
      if StepFor(r, q[0].id).Take? {
        DecodeFlat(r, q[1..], rx, p + 1 + |q[0].body|);
      }
    }
  }

  /** Whatever is offered between two sends, a reader hears exactly the accepted messages, in
      order, up to the first that ends its loop, and never reads past them, whatever an earlier
      datagram left behind in its buffer. */
  lemma RoundTrip(r: Reader, offered: seq<Message>, stale: seq<Byte>)
    requires Sized(r, Accepted([], offered))
    ensures var q := Accepted([], offered);
            |q| < 256 && Decode(r, [|q|] + Flat(q) + stale, 1, |q|) == Listened(r, q)
  {
    var q := Accepted([], offered);
    AcceptedFit([], offered);
    var rx := [|q|] + Flat(q) + stale;
    assert rx[1..1 + |Flat(q)|] == Flat(q);
    DecodeFlat(r, q, rx, 1);
  }

  lemma {:induction false} AcceptedSized(r: Reader, q: seq<Message>, offered: seq<Message>)
    requires Sized(r, q) && Sized(r, offered)
    ensures Sized(r, Accepted(q, offered))
    decreases |offered|
  {
    if offered != [] {
      AcceptedSized(r, if Fits(q, offered[0]) then q + [offered[0]] else q, offered[1..]);
    }
  }

  /** A reader that knows every message and is never told to leave hears them all. */
  lemma {:induction false} AllListened(r: Reader, q: seq<Message>)
    requires forall m :: m in q ==> StepFor(r, m.id).Take?
    ensures Listened(r, q) == Heard(q, Waiting)
  {
    if q != [] {
      assert q[0] in q;
      AllListened(r, q[1..]);
      assert [q[0]] + q[1..] == q;
    }
  }

  /** `playerBuf[i]` and `playerBufPtr[i]`. */
  class MessageBuffer {
    const buf: array<Byte>
    var ptr: nat
    ghost var queue: seq<Message>

    ghost predicate Valid()
      reads this, buf
    {
      && buf.Length == MSGBUFSZ && ptr == Used(queue) < MSGBUFSZ
      && buf[0] == |queue| && buf[1..ptr] == Flat(queue)
    }

    constructor ()
      ensures Valid() && queue == [] && fresh(buf)
    {
      buf := new Byte[MSGBUFSZ](_ => 0);
      ptr := 1;
      queue := [];
      new;
      assert buf[1..1] == [];
    }

    /** `addMessage`: a message that does not fit is refused and changes nothing. */
    method AddMessage(id: Byte, msg: seq<Byte>) returns (rc: int)
      requires Valid()
      modifies this, buf
      ensures Valid() && rc == if old(Fits(queue, Message(id, msg))) then 0 else -1
      ensures queue == Accepted(old(queue), [Message(id, msg)])
      ensures rc == -1 ==> buf[..] == old(buf[..]) && ptr == old(ptr)
    {
      ghost var m := Message(id, msg);
      assert [m][1..] == [];
      var bytesused := ptr + |msg| + 2;
      if bytesused > MSGBUFSZ {
        return -1;
      }
      CountBelowUsed(queue);
      FlatSnoc(queue, m);
      buf[0] := (buf[0] + 1) % 256;
      buf[ptr] := id;
      ptr := ptr + 1;
      forall k | 0 <= k < |msg| { buf[ptr + k] := msg[k]; }
      ptr := ptr + |msg|;
      queue := queue + [m];
      assert buf[1..old(ptr)] == old(buf[1..ptr]);
      assert buf[1..ptr] == buf[1..old(ptr)] + [id] + msg;
      rc := 0;
    }

    /** `sendMessage`: nothing goes out when nothing is queued, and a failed send keeps the queue. */
    method SendMessage(fails: bool) returns (rc: int, sent: seq<seq<Byte>>)
      requires Valid()
      modifies this, buf
      ensures Valid() && rc == if fails && old(queue) != [] then -1 else 0
      ensures sent == if fails || old(queue) == [] then [] else [[|old(queue)|] + Flat(old(queue))]
      ensures queue == if fails then old(queue) else []
    {
      CountBelowUsed(queue);
      if ptr < 2 {
        return 0, [];
      }
      if fails {
        return -1, [];
      }
      sent := [buf[..ptr]];
      assert buf[..ptr] == [buf[0]] + buf[1..ptr];
      ptr := 1;
      buf[0] := 0;
      queue := [];
      rc := 0;
      assert buf[1..1] == [];
    }
  }

  /** The body of the loop below: what the message at `msgptr` comes to. */
  method ReadMessage(r: Reader, rxbuf: array<Byte>, msgptr: nat) returns (t: Taken)
    ensures t == Next(r, rxbuf[..], msgptr)
  {
    if rxbuf.Length <= msgptr { return Stop(Heard([], Overrun)); }
    var msgType := rxbuf[msgptr];
    var step := StepFor(r, msgType);
    if step.Drop? { return Stop(Heard([], Waiting)); }
    if rxbuf.Length < msgptr + 1 + step.size { return Stop(Heard([], Overrun)); }
    var m := Message(msgType, rxbuf[msgptr + 1..msgptr + 1 + step.size]);
    assert m.body == rxbuf[..][msgptr + 1..msgptr + 1 + step.size];
    t := if step.Leave? then Stop(Heard([m], Left)) else More(m, msgptr + 1 + step.size);
  }

  /** The inner loop of `messageloop` and of the spectator's `getMessage` over a receive buffer. */
  method ReadMessages(r: Reader, rxbuf: array<Byte>) returns (h: Heard)
    requires rxbuf.Length > 0
    ensures h == Decode(r, rxbuf[..], 1, rxbuf[0])
  {
    hide Next;
    var msgptr, numMsgs, log := 1, rxbuf[0], [];
    while numMsgs != 0
      invariant After(log, Decode(r, rxbuf[..], msgptr, numMsgs)) == Decode(r, rxbuf[..], 1, rxbuf[0])
    {
      var t := ReadMessage(r, rxbuf, msgptr);
      if t.Stop? {
        return After(log, t.heard);
      }
      Associate(log, t.m, Decode(r, rxbuf[..], t.next, numMsgs - 1));
      log := log + [t.m];
      msgptr := t.next;
      numMsgs := numMsgs - 1;
    }
    h := Heard(log, Waiting);
  }

  function After(log: seq<Message>, h: Heard): Heard { Heard(log + h.msgs, h.end) }

  lemma Associate(log: seq<Message>, m: Message, h: Heard)
    ensures After(log, With(m, h)) == After(log + [m], h)
  {
  }
}
