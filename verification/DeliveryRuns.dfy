/** A client's sprite table along a run of the server, as it takes the datagrams apart that it is sent. */
module DeliveryRuns {
  import opened CtfServ
  import opened Game
  import opened Runs
  import opened TankRuns
  import opened Sprites
  import opened SpriteRuns
  import opened Framing
  import opened SpriteDelivery
  import opened ClientSlots

  // ---- what else is in the buffers

  /** Messages other than sprite messages, each of the size of its structure. */
  predicate Ordinary(q: seq<Message>) { Plain(q) && Sized(PlayerClient, q) }

  predicate BufsOrdinary(n: Slots) { forall k :: 0 <= k < |n.bufs| && n.bufs[k].Some? ==> Ordinary(n.bufs[k].value) }

  ghost predicate TalkOrdinary(talk: Talk) { forall k: nat :: Ordinary(talk.before(k)) && Ordinary(talk.after(k)) }

  lemma AcceptedOrdinary(q: seq<Message>, offered: seq<Message>)
    requires Ordinary(q) && Ordinary(offered)
    ensures Ordinary(Accepted(q, offered))
  {
    hide StepFor, Unpack;
    AcceptedSized(PlayerClient, q, offered);
    var tail := AcceptedTail(q, offered);
  }

  lemma SpokenOrdinary(n: Slots, said: nat -> seq<Message>)
    requires Shaped(n) && BufsOrdinary(n) && forall k: nat :: Ordinary(said(k))
    ensures BufsOrdinary(Spoken(n, said))
  {
    hide Ordinary, Accepted;
    forall k | 0 <= k < MAXCLIENTS && n.bufs[k].Some? ensures Ordinary(Accepted(n.bufs[k].value, said(k))) {
      AcceptedOrdinary(n.bufs[k].value, said(k));
    }
  }

  lemma AckOrdinary(o: Obj)
    ensures Ordinary([StartAck(o)])
  {
  }

  lemma AnsweredOrdinary(c: Config, w: World, k: nat, e: Input, sent: bool)
    requires Shaped(w.n) && Connected(w.s, k) && BufsOrdinary(w.n)
    ensures BufsOrdinary(Answered(c, w, k, e, sent))
  {
    hide Ordinary, StartAck, NewTank, Accepted;
    assert Ordinary([]) by { NothingOrdinary(); }
    if w.n.bufs[k].Some? {
      var ack := StartAck(NewTank(c, k, w.s.players[k].value));
      AckOrdinary(NewTank(c, k, w.s.players[k].value));
      AcceptedOrdinary(w.n.bufs[k].value, [ack]);
    }
  }

  lemma NothingOrdinary()
    ensures Ordinary([])
  {
  }

  /** Nothing waits in any buffer. */
  predicate AllSent(n: Slots) { forall k :: 0 <= k < |n.bufs| && n.bufs[k].Some? ==> n.bufs[k].value == [] }

  predicate SentBelow(n: Slots, k: nat) {
    |n.bufs| == MAXCLIENTS && forall j :: 0 <= j < k && j < MAXCLIENTS && n.bufs[j].Some? ==> n.bufs[j].value == []
  }

  lemma {:induction false} SendEmpties(w: World, lost: set<nat>, k: nat)
    requires k <= MAXCLIENTS && Shaped(w.n) && SentBelow(w.n, k)
    requires forall j :: 0 <= j < MAXCLIENTS ==> (w.n.addr[j] <==> w.n.bufs[j].Some?)
    ensures AllSent(Send(w, lost, k).n)
    decreases MAXCLIENTS - k
  {
    hide RemoveClient;
    if k < MAXCLIENTS {
      if w.n.addr[k] && k in lost && w.s.players[k].Some? { SendEmpties(Remove(w, k), lost, k + 1); }
      else if w.n.addr[k] { SendEmpties(w.(n := w.n.(bufs := w.n.bufs[k := Some([])])), lost, k + 1); }
      else { SendEmpties(w, lost, k + 1); }
    }
  }

  lemma {:induction false} BurySent(w: World, k: nat)
    requires k <= MAXCLIENTS && Shaped(w.n) && AllSent(w.n)
    ensures AllSent(Bury(w, k).n)
    decreases MAXCLIENTS - k
  {
    hide RemoveClient;
    if k < MAXCLIENTS {
      if w.s.players[k].Some? && w.s.players[k].value.flags.dead {
        BurySent(Remove(w, k), k + 1);
      } else {
        BurySent(w, k + 1);
      }
    }
  }

  lemma {:induction false} EvictSent(w: World, k: nat)
    requires k <= MAXCLIENTS && Shaped(w.n) && AllSent(w.n)
    ensures AllSent(Evict(w, k).n)
    decreases MAXCLIENTS - k
  {
    hide RemoveClient;
    if k < MAXCLIENTS {
      if w.s.players[k].Some? && !w.s.players[k].value.flags.spectator {
        EvictSent(Remove(w, k), k + 1);
      } else {
        EvictSent(w, k + 1);
      }
    }
  }

  /** A frame leaves every buffer empty. */
  lemma FrameSends(c: Config, w: World, lost: set<nat>, talk: Talk)
    requires ValidConfig(c) && Sync(w.s.players, w.n)
    ensures Shaped(w.n) && AllSent(MakeUpdates(c, w, lost, talk).n)
  {
    Shape(w.s.players, w.n);
    hide Sync, DoObjectUpdates, ViewsFrom, Send, Bury, Evict, CleanFrom, RestartAll, CreateFlags, Accepted, PackAll,
        FrameMsgs;
    var w1 := World(TimeTick(c, ViewsFrom(DoObjectUpdates(c, w.s), 0)), FrameQueued(c, w.s, w.n, talk));
    SendEmpties(w1, lost, 0);
    var w2 := Send(w1, lost, 0);
    var w3 := w2.(s := CleanFrom(c, w2.s, 0));
    BurySent(w3, 0);
    var w4 := Bury(w3, 0);
    EvictSent(w4.(s := w4.s.(gameOver := true)), 0);
  }

  lemma SentOrdinary(n: Slots)
    requires AllSent(n)
    ensures BufsOrdinary(n)
  {
    NothingOrdinary();
  }

  lemma OccupyOrdinary(n: Slots, k: nat)
    requires Shaped(n) && k < MAXCLIENTS && BufsOrdinary(n)
    ensures BufsOrdinary(Occupy(n, k))
  {
    NothingOrdinary();
  }

  lemma TurnOrdinary(c: Config, w: World, e: Input, talk: Talk)
    requires ValidConfig(c) && Sync(w.s.players, w.n) && BufsOrdinary(w.n) && TalkOrdinary(talk)
    ensures Shaped(w.n) && BufsOrdinary(ClientSlots.Turn(c, w, e, talk).n)
  {
    Shape(w.s.players, w.n);
    hide Sync, Ordinary, MakeUpdates, Spoken, Answered, MakeNewPlayer, ClientStep, BufsOrdinary, Occupy;
    match e
    case Tick(lost) =>
      FrameSends(c, w, lost, talk);
      SentOrdinary(MakeUpdates(c, w, lost, talk).n);
    case Hello(_) =>
      var k := FirstUnset(w.n.addr, 0);
      if k < MAXCLIENTS {
        OccupyOrdinary(w.n, k);
        SpokenOrdinary(Occupy(w.n, k), talk.before);
      }
    case _ =>
      if e.k < MAXCLIENTS && w.n.addr[e.k] && w.s.players[e.k].Some? {
        AnsweredOrdinary(c, w, e.k, e, talk.sent);
        SpokenOrdinary(Answered(c, w, e.k, e, talk.sent), talk.before);
      }
  }

  // ---- along a run

  /** A run in which the server says nothing malformed. */
  ghost predicate SoundRun(c: Config, powerups: seq<PowerSpawn>, worlds: seq<World>, inputs: seq<Input>,
                           talks: seq<Talk>) {
    WorldRun(c, powerups, worlds, inputs, talks) && forall n :: 0 <= n < |talks| ==> TalkOrdinary(talks[n])
  }

  lemma {:induction false} RunOrdinary(c: Config, powerups: seq<PowerSpawn>, worlds: seq<World>, inputs: seq<Input>,
                                       talks: seq<Talk>, n: nat)
    requires SoundRun(c, powerups, worlds, inputs, talks) && n < |worlds|
    ensures BufsOrdinary(worlds[n].n)
  {
    hide Sync, Boundary, Init, BufsOrdinary;
    if n == 0 {
      assert BufsOrdinary(Nobody()) by { NobodyOrdinary(); }
    } else {
      RunOrdinary(c, powerups, worlds, inputs, talks, n - 1);
      SlotsInStep(c, powerups, worlds, inputs, talks, n - 1);
      TurnOrdinary(c, worlds[n - 1], inputs[n - 1], talks[n - 1]);
    }
  }

  lemma NobodyOrdinary()
    ensures BufsOrdinary(Nobody())
  {
  }

  /** What is queued for slot `k` before the sprite messages of a frame. */
  function Before(w: World, talk: Talk, k: nat): seq<Message>
    requires Shaped(w.n) && k < MAXCLIENTS
  {
    if w.n.bufs[k].Some? then Accepted(w.n.bufs[k].value, talk.before(k)) else []
  }

  /** The bytes of the buffer that are gone for the sprite messages: those in use, or all of them
      if something in use ends the client's loop. */
  function Spent(w: World, talk: Talk, k: nat): nat
    requires Shaped(w.n) && k < MAXCLIENTS
  {
    var q := Before(w, talk, k);
    if HeardOut(q) then Used(q) else 255
  }

  /** The datagram that slot `k` is sent in a frame. */
  function Datagram(c: Config, w: World, talk: Talk, k: nat): seq<Message>
    requires ValidConfig(c) && Shaped(w.n) && k < MAXCLIENTS
  {
    var buf := FrameQueued(c, w.s, w.n, talk).bufs[k];
    if buf.Some? then buf.value else []
  }

  /** The client of slot `k` takes apart what it is sent in each frame. */
  function Watched(c: Config, w: World, e: Input, talk: Talk, k: nat, t: Table, stale: seq<Byte>): Table
    requires ValidConfig(c) && Shaped(w.n) && k < MAXCLIENTS
  {
    if e.Tick? then Decoded(t, Datagram(c, w, talk, k), stale) else t
  }

  lemma FullAdmits(ms: seq<Msg>)
    ensures Admit(255, ms) == []
    decreases |ms|
  {
  }

  lemma WatchedNext(c: Config, w: World, e: Input, talk: Talk, k: nat, t: Table, stale: seq<Byte>)
    requires ValidConfig(c) && Sync(w.s.players, w.n) && BufsOrdinary(w.n) && TalkOrdinary(talk) && Connected(w.s, k)
    ensures Shaped(w.n) && Watched(c, w, e, talk, k, t, stale) == NextTable(c, w.s, e, k, t, Spent(w, talk, k))
  {
    Shape(w.s.players, w.n);
    if e.Tick? {
      hide FrameMsgs, Accepted, Used, HeardOut, Decoded, Sync, FrameQueued;
      assert InStep(w.s.players, w.n) && FrameQueued(c, w.s, w.n, talk).bufs[k].Some? by {
        StillBuffered(c, w, talk, k);
      }
      AcceptedOrdinary(w.n.bufs[k].value, talk.before(k));
      FrameReceived(c, w, talk, k, t, stale);
      FullAdmits(FrameMsgs(c, w.s, k));
    }
  }

  lemma StillBuffered(c: Config, w: World, talk: Talk, k: nat)
    requires ValidConfig(c) && Sync(w.s.players, w.n) && Connected(w.s, k)
    ensures Shaped(w.n) && InStep(w.s.players, w.n) && FrameQueued(c, w.s, w.n, talk).bufs[k].Some?
  {
    Shape(w.s.players, w.n);
  }

  /** The tables of the client of slot `k`, as it takes apart the datagrams of a run that is orderly
      for it; `stales` is what lies behind each of them in its receive buffer. */
  ghost predicate Plays(c: Config, worlds: seq<World>, inputs: seq<Input>, talks: seq<Talk>, stales: seq<seq<Byte>>,
                        tables: seq<Table>, k: nat, a: nat, b: nat)
    requires ValidConfig(c)
  {
    && k < MAXCLIENTS && a <= b < |tables| == |worlds| == |inputs| + 1 && |talks| == |stales| == |inputs|
    && tables[a] == Empty()
    && forall n :: a <= n < b ==>
         && Shaped(worlds[n].n)
         && tables[n + 1] == Watched(c, worlds[n], inputs[n], talks[n], k, tables[n], stales[n])
         && Orderly(c, worlds[n].s, inputs[n], k, tables[n], tables[n + 1])
  }

  function SpentAlong(worlds: seq<World>, talks: seq<Talk>, k: nat): seq<nat>
    requires |worlds| == |talks| + 1 && k < MAXCLIENTS && forall n :: 0 <= n < |talks| ==> Shaped(worlds[n].n)
  {
    seq(|talks|, n requires 0 <= n < |talks| => Spent(worlds[n], talks[n], k))
  }

  lemma PlaysShows(c: Config, powerups: seq<PowerSpawn>, worlds: seq<World>, inputs: seq<Input>, talks: seq<Talk>,
                   stales: seq<seq<Byte>>, tables: seq<Table>, k: nat, a: nat, b: nat)
    requires SoundRun(c, powerups, worlds, inputs, talks) && Plays(c, worlds, inputs, talks, stales, tables, k, a, b)
    requires Tenure(c, powerups, Games(worlds), inputs, k, a, b)
    ensures forall n :: 0 <= n < |talks| ==> Shaped(worlds[n].n)
    ensures Shows(c, Games(worlds), inputs, tables, SpentAlong(worlds, talks, k), k, a, b)
  {
    hide Sync, Boundary, Init, BufsOrdinary, TalkOrdinary, Orderly, Watched, NextTable, Spent, Run;
    forall n | a <= n < b
      ensures tables[n + 1] == NextTable(c, worlds[n].s, inputs[n], k, tables[n], Spent(worlds[n], talks[n], k))
    {
      SlotsInStep(c, powerups, worlds, inputs, talks, n);
      RunOrdinary(c, powerups, worlds, inputs, talks, n);
      assert Connected(Games(worlds)[n], k);
      WatchedNext(c, worlds[n], inputs[n], talks[n], k, tables[n], stales[n]);
    }
  }

  /** In every state of a run that is orderly for a client, each sprite on its screen stands for an
      object in its view. */
  lemma ClientBacked(c: Config, powerups: seq<PowerSpawn>, worlds: seq<World>, inputs: seq<Input>, talks: seq<Talk>,
                     stales: seq<seq<Byte>>, tables: seq<Table>, k: nat, a: nat, b: nat, n: nat)
    requires SoundRun(c, powerups, worlds, inputs, talks) && Plays(c, worlds, inputs, talks, stales, tables, k, a, b)
    requires Tenure(c, powerups, Games(worlds), inputs, k, a, b) && a <= n <= b
    ensures Backed(tables[n], worlds[n].s, k)
  {
    hide Tenure, Shows, Backed, Orderly, Watched;
    PlaysShows(c, powerups, worlds, inputs, talks, stales, tables, k, a, b);
    RunBacked(c, powerups, Games(worlds), inputs, tables, SpentAlong(worlds, talks, k), k, a, b, n);
  }

  /** From the server's arrays to the client's screen, over whole runs: after the datagram of a round
      of updates the sprites are exactly the live objects in view, exactly if no sprite message that
      the buffer refused, or that the client did not come to, would have changed the screen. */
  lemma ClientAgrees(c: Config, powerups: seq<PowerSpawn>, worlds: seq<World>, inputs: seq<Input>, talks: seq<Talk>,
                     stales: seq<seq<Byte>>, tables: seq<Table>, k: nat, a: nat, b: nat, n: nat)
    requires SoundRun(c, powerups, worlds, inputs, talks) && Plays(c, worlds, inputs, talks, stales, tables, k, a, b)
    requires Tenure(c, powerups, Games(worlds), inputs, k, a, b) && a <= n < b
    requires inputs[n].Tick? && TakesUpdates(c, worlds[n].s, k)
    ensures Shaped(worlds[n].n)
    ensures Agrees(tables[n + 1], DoObjectUpdates(c, worlds[n].s), k) <==>
              NoneMissed(Spent(worlds[n], talks[n], k), tables[n], FrameMsgs(c, worlds[n].s, k))
  {
    hide Tenure, Shows, Agrees, NoneMissed, TakesUpdates, DoObjectUpdates, Orderly, Watched;
    PlaysShows(c, powerups, worlds, inputs, talks, stales, tables, k, a, b);
    RunAgrees(c, powerups, Games(worlds), inputs, tables, SpentAlong(worlds, talks, k), k, a, b, n);
  }
}
