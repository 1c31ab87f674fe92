/** The sprite messages on the wire: packed into a client's message buffer behind whatever is
    queued there, refused when it is full, sent, and taken apart by the client. */
module SpriteDelivery {
  import opened CtfServ
  import opened Sprites
  import opened Framing

  /** The bytes of a sprite message that the sprite table does not depend on. */
  datatype Look = Look(rotation: Byte, id: Byte, colour: Byte, flags: Byte, reason: Byte)

  function High(n: int): Byte {
    var h: int := n / 256;
    h % 256
  }

  function Word(low: int, high: int): int { low + 256 * high }

  /** SpriteMsg, RemoveSpriteMsg and MapXY as they are laid out. */
  function Pack(m: Msg, look: nat -> Look): Message {
    match m
    case SpriteMsg(objid, x, y) =>
      var l := look(objid);
      Message(SPRITEMSG, [objid % 256, x % 256, y % 256, l.rotation, l.id, l.colour, l.flags])
    case RemoveMsg(objid) => Message(RMSPRITEMSG, [objid % 256, look(objid).reason])
    case ViewMsg(mapx, mapy) => Message(VIEWPORT, [mapx % 256, High(mapx), mapy % 256, High(mapy)])
  }

  function PackAll(ms: seq<Msg>, look: nat -> Look): (q: seq<Message>)
    ensures |q| == |ms|
  {
    if ms == [] then [] else [Pack(ms[0], look)] + PackAll(ms[1..], look)
  }

  /** What a client makes of a message: nothing, for the sprite table, if it is of another kind. */
  function Unpack(f: Message): Option<Msg> {
    if f.id == SPRITEMSG && |f.body| == 7 then Some(SpriteMsg(f.body[0], f.body[1], f.body[2]))
    else if f.id == RMSPRITEMSG && |f.body| == 2 then Some(RemoveMsg(f.body[0]))
    else if f.id == VIEWPORT && |f.body| == 4 then Some(ViewMsg(Word(f.body[0], f.body[1]), Word(f.body[2], f.body[3])))
    else None
  }

  function Effect(t: Table, f: Message): Table {
    match Unpack(f)
    case Some(m) => Applied(t, m)
    case None => t
  }

  function Effects(t: Table, fs: seq<Message>): Table
    decreases |fs|
  {
    if fs == [] then t else Effects(Effect(t, fs[0]), fs[1..])
  }

  predicate Slotted(ms: seq<Msg>) { forall m :: m in ms ==> m.ViewMsg? || m.objid < MAXOBJS }

  /** Packing loses nothing but what does not fit a byte. */
  lemma UnpackPack(m: Msg, look: nat -> Look)
    requires match m case SpriteMsg(id, x, y) => id < 256 && 0 <= x < 256 && 0 <= y < 256
                     case RemoveMsg(id) => id < 256
                     case ViewMsg(x, y) => 0 <= x < 0x10000 && 0 <= y < 0x10000
    ensures Unpack(Pack(m, look)) == Some(m)
  {
    if m.ViewMsg? {
      WordOf(m.mapx);
      WordOf(m.mapy);
    }
    hide Word, High;
  }

  lemma WordOf(n: int)
    requires 0 <= n < 0x10000
    ensures Word(n % 256, High(n)) == n
  {
  }

  lemma PackEffect(t: Table, m: Msg, look: nat -> Look)
    requires m.ViewMsg? || m.objid < MAXOBJS
    ensures Effect(t, Pack(m, look)) == Applied(t, m)
    ensures |Pack(m, look).body| + 1 == Size(m) && StepFor(PlayerClient, Pack(m, look).id) == Take(|Pack(m, look).body|)
  {
  }

  lemma {:induction false} PackEffects(t: Table, ms: seq<Msg>, look: nat -> Look)
    requires Slotted(ms)
    ensures Effects(t, PackAll(ms, look)) == AppliedAll(t, ms)
    decreases |ms|
  {
    if ms != [] {
      hide Pack, Effect, Applied;
      assert ms[0] in ms;
      PackEffect(t, ms[0], look);
      PackEffects(Applied(t, ms[0]), ms[1..], look);
      AppliedAppend(t, [ms[0]], ms[1..]);
      assert [ms[0]] + ms[1..] == ms && [ms[0]][..0] == [];
      assert AppliedAll(t, [ms[0]]) == Applied(AppliedAll(t, []), ms[0]);
      assert PackAll(ms, look)[1..] == PackAll(ms[1..], look);
    }
  }

  lemma {:induction false} EffectsAppend(t: Table, a: seq<Message>, b: seq<Message>)
    ensures Effects(t, a + b) == Effects(Effects(t, a), b)
    decreases |a|
  {
    if a == [] {
      assert a + b == b;
    } else {
      assert (a + b)[1..] == a[1..] + b;
      EffectsAppend(Effect(t, a[0]), a[1..], b);
    }
  }

  /** Messages of other kinds: status lines, numbers, pings, the end of the game. */
  predicate Plain(q: seq<Message>) { forall m :: m in q ==> Unpack(m) == None }

  lemma {:induction false} PlainEffects(t: Table, q: seq<Message>)
    requires Plain(q)
    ensures Effects(t, q) == t
    decreases |q|
  {
    if q != [] {
      assert q[0] in q;
      PlainEffects(t, q[1..]);
    }
  }

  // ---- the buffer

  lemma OffersFirst(q: seq<Message>, f: Message, fs: seq<Message>)
    ensures Accepted(q, [f] + fs) == Accepted(if Fits(q, f) then q + [f] else q, fs)
  {
    assert ([f] + fs)[1..] == fs;
  }

  lemma AdmitsFirst(used: nat, m: Msg, ms: seq<Msg>, look: nat -> Look)
    ensures var fits := used + Size(m) <= 255;
            PackAll(Admit(used, [m] + ms), look) ==
            (if fits then [Pack(m, look)] else []) + PackAll(Admit(if fits then used + Size(m) else used, ms), look)
  {
    hide Pack;
    assert ([m] + ms)[1..] == ms;
    if used + Size(m) <= 255 {
      var r := Admit(used + Size(m), ms);
      assert ([m] + r)[1..] == r;
    }
  }

  lemma PackFits(q: seq<Message>, m: Msg, look: nat -> Look)
    requires m.ViewMsg? || m.objid < MAXOBJS
    ensures Fits(q, Pack(m, look)) <==> Used(q) + Size(m) <= 255
    ensures Used(q + [Pack(m, look)]) == Used(q) + Size(m)
  {
    hide Pack, Flat;
    PackEffect(Empty(), m, look);
    FlatSnoc(q, Pack(m, look));
  }

  /** Of a round of sprite messages the buffer takes those that `Admit` lets through. */
  lemma {:induction false} AcceptedPack(q: seq<Message>, ms: seq<Msg>, look: nat -> Look)
    requires Slotted(ms)
    ensures Accepted(q, PackAll(ms, look)) == q + PackAll(Admit(Used(q), ms), look)
    decreases |ms|
  {
    if ms == [] {
      assert q + [] == q;
    } else {
      hide Pack, Used, Size, Fits, Accepted, Admit;
      assert ms[0] in ms && ms == [ms[0]] + ms[1..];
      PackFits(q, ms[0], look);
      OffersFirst(q, Pack(ms[0], look), PackAll(ms[1..], look));
      AdmitsFirst(Used(q), ms[0], ms[1..], look);
      AcceptedPack(if Fits(q, Pack(ms[0], look)) then q + [Pack(ms[0], look)] else q, ms[1..], look);
    }
  }

  predicate AllTaken(q: seq<Message>) { forall m :: m in q ==> StepFor(PlayerClient, m.id) == Take(|m.body|) }

  lemma {:induction false} PackTaken(ms: seq<Msg>, look: nat -> Look)
    requires Slotted(ms)
    ensures AllTaken(PackAll(ms, look))
    decreases |ms|
  {
    if ms != [] {
      hide Pack, StepFor;
      assert ms[0] in ms;
      PackEffect(Empty(), ms[0], look);
      PackTaken(ms[1..], look);
    }
  }

  lemma {:induction false} ListenedAppend(q: seq<Message>, rest: seq<Message>)
    requires AllTaken(q)
    ensures Listened(PlayerClient, q + rest).msgs == q + Listened(PlayerClient, rest).msgs
    decreases |q|
  {
    if q == [] {
      assert q + rest == rest;
    } else {
      hide StepFor;
      assert q[0] in q;
      assert (q + rest)[1..] == q[1..] + rest;
      ListenedAppend(q[1..], rest);
      assert Listened(PlayerClient, q + rest) == With(q[0], Listened(PlayerClient, q[1..] + rest));
      assert q == [q[0]] + q[1..];
    }
  }

  lemma {:induction false} ListenedIn(q: seq<Message>)
    ensures forall m :: m in Listened(PlayerClient, q).msgs ==> m in q
    decreases |q|
  {
    if q != [] { ListenedIn(q[1..]); }
  }

  /** The client's loop gets past all of these messages. */
  predicate HeardOut(q: seq<Message>) { forall m :: m in q ==> StepFor(PlayerClient, m.id).Take? }

  lemma HeardTaken(q: seq<Message>)
    requires Sized(PlayerClient, q) && HeardOut(q)
    ensures AllTaken(q)
  {
  }

  /** Behind a message that ends its loop the client hears nothing. */
  lemma {:induction false} ListenedStops(q: seq<Message>, rest: seq<Message>)
    requires !HeardOut(q)
    ensures Listened(PlayerClient, q + rest).msgs == Listened(PlayerClient, q).msgs
    decreases |q|
  {
    hide StepFor;
    assert (q + rest)[0] == q[0] && (q + rest)[1..] == q[1..] + rest;
    if StepFor(PlayerClient, q[0].id).Take? { ListenedStops(q[1..], rest); }
  }

  /** What else is accepted comes behind, and is of what was offered. */
  lemma {:induction false} AcceptedTail(q: seq<Message>, offered: seq<Message>) returns (tail: seq<Message>)
    ensures Accepted(q, offered) == q + tail && forall m :: m in tail ==> m in offered
    decreases |offered|
  {
    if offered == [] {
      tail := [];
      assert q + [] == q;
    } else {
      var f := Fits(q, offered[0]);
      var r := AcceptedTail(if f then q + [offered[0]] else q, offered[1..]);
      tail := if f then [offered[0]] + r else r;
      assert q + [offered[0]] + r == q + ([offered[0]] + r);
    }
  }

  /** What a buffer holds when a frame is sent: what was in it, the sprite messages that fitted,
      and what of the rest fitted behind them. */
  function Queued(q: seq<Message>, ms: seq<Msg>, look: nat -> Look, after: seq<Message>): seq<Message> {
    Accepted(Accepted(q, PackAll(ms, look)), after)
  }

  /** What a client has heard once it has the buffer's messages before it. */
  lemma QueueHeard(q: seq<Message>, d: seq<Msg>, look: nat -> Look, tail: seq<Message>, t: Table)
    requires Plain(q) && Sized(PlayerClient, q) && Slotted(d) && Plain(tail)
    ensures Effects(t, Listened(PlayerClient, q + PackAll(d, look) + tail).msgs) == if HeardOut(q)
        then AppliedAll(t, d) else t
  {
    hide Pack, StepFor, Effect, Unpack;
    var packed := PackAll(d, look);
    if HeardOut(q) {
      HeardTaken(q);
      PackTaken(d, look);
      ListenedAppend(q + packed, tail);
      ListenedIn(tail);
      var heard := Listened(PlayerClient, tail).msgs;
      PlainEffects(t, q);
      PackEffects(t, d, look);
      PlainEffects(AppliedAll(t, d), heard);
      EffectsAppend(t, q, packed);
      EffectsAppend(t, q + packed, heard);
    } else {
      assert q + packed + tail == q + (packed + tail);
      ListenedStops(q, packed + tail);
      ListenedIn(q);
      PlainEffects(t, Listened(PlayerClient, q).msgs);
    }
  }

  /** The table of a client that takes a datagram with these messages apart; `stale` lies behind
      the datagram in its receive buffer, and the count is one byte. */
  function Decoded(t: Table, all: seq<Message>, stale: seq<Byte>): Table {
    var n: Byte := |all| % 256;
    Effects(t, Decode(PlayerClient, [n] + Flat(all) + stale, 1, n).msgs)
  }

  lemma DecodedListened(t: Table, all: seq<Message>, stale: seq<Byte>)
    requires Sized(PlayerClient, all) && |all| < 256
    ensures Decoded(t, all, stale) == Effects(t, Listened(PlayerClient, all).msgs)
  {
    hide StepFor, Effects;
    var n: Byte := |all| % 256;
    var rx := [n] + Flat(all) + stale;
    assert rx[1..1 + |Flat(all)|] == Flat(all);
    DecodeFlat(PlayerClient, all, rx, 1);
  }

  /** What a buffer holds in the end: what it held, the sprite messages admitted, and some more. */
  lemma QueuedParts(q: seq<Message>, ms: seq<Msg>, look: nat -> Look, after: seq<Message>) returns (tail: seq<Message>)
    requires Used(q) < MSGBUFSZ && Slotted(ms)
    ensures var all := Queued(q, ms, look, after);
            && all == q + PackAll(Admit(Used(q), ms), look) + tail && |all| < 256 && Used(all) < MSGBUFSZ
    ensures forall m :: m in tail ==> m in after
  {
    hide Pack, Admit, Used, Accepted;
    var packed := PackAll(ms, look);
    AcceptedFit(q, packed);
    AcceptedFit(Accepted(q, packed), after);
    AcceptedPack(q, ms, look);
    tail := AcceptedTail(Accepted(q, packed), after);
  }

  /** From the server's buffer to the client's sprite table, byte by byte: the client takes
      exactly the sprite messages that fitted behind what was queued before them, or none if one
      of those ends its loop, whatever was queued behind them and whatever an earlier datagram
      left in its receive buffer. */
  lemma DatagramReceived(q: seq<Message>, ms: seq<Msg>, look: nat -> Look, after: seq<Message>, t: Table,
                         stale: seq<Byte>)
    requires Used(q) < MSGBUFSZ && Plain(q) && Sized(PlayerClient, q)
    requires Slotted(ms) && Plain(after) && Sized(PlayerClient, after)
    ensures var all := Queued(q, ms, look, after);
            && |all| < 256 && Used(all) < MSGBUFSZ
            && Decoded(t, all, stale) == if HeardOut(q) then AppliedAll(t, Admit(Used(q), ms)) else t
  {
    hide Pack, StepFor, Admit, Effect, Unpack, Decoded, Listened, Queued;
    var d, all := Admit(Used(q), ms), Queued(q, ms, look, after);
    AdmittedIn(Used(q), ms);
    var tail := QueuedParts(q, ms, look, after);
    PackTaken(d, look);
    assert Sized(PlayerClient, all);
    DecodedListened(t, all, stale);
    QueueHeard(q, d, look, tail, t);
  }
}
