/** What the server holds for each client besides the game: its address, its message buffer and
    its Player record, and the register of the dead (ctfsocket.c, object.c). */
module ClientSlots {
  import opened CtfServ
  import opened Game
  import opened Matchmake
  import opened GameInvariant
  import opened FrameInvariant
  import opened LeavingInvariant
  import opened RunInvariant
  import opened Runs
  import opened Tracking
  import opened LifeCycle
  import opened SpawnerRuns
  import opened SpriteRuns
  import opened Framing
  import opened Sprites
  import opened SpriteDelivery

  /** `cliaddr`, `playerBuf` and `players` for each slot, with the records that `players` points
      to told apart by a number; `deadPlayers` up to `deadPlayerIdx`; the records freed so far, in
      order; and how many were ever made. */
  datatype Slots = Slots(
    addr: seq<bool>, bufs: seq<Option<seq<Message>>>, records: seq<Option<nat>>,
    dead: seq<nat>, freed: seq<nat>, made: nat)

  function Nobody(): Slots {
    Slots(seq(MAXCLIENTS, _ => false), seq(MAXCLIENTS, _ => None), seq(MAXCLIENTS, _ => None), [], [], 0)
  }

  predicate Shaped(n: Slots) {
    |n.addr| == MAXCLIENTS && |n.bufs| == MAXCLIENTS && |n.records| == MAXCLIENTS && |n.dead| <= MAXCLIENTS
  }

  /** `addNewClient` for slot `k`. */
  function Occupy(n: Slots, k: nat): Slots
    requires Shaped(n) && k < MAXCLIENTS
  {
    n.(addr := n.addr[k := true], bufs := n.bufs[k := Some([])], records := n.records[k := Some(n.made)],
        made := n.made + 1)
  }

  /** `removeClient` for slot `k`, whose player is `p`: a spectator's record is freed, and so is
      that of a player who never ran, or who finds the register of the dead full. */
  function Vacate(n: Slots, k: nat, p: Player): Slots
    requires Shaped(n) && k < MAXCLIENTS
  {
    var cleared := n.(addr := n.addr[k := false], bufs := n.bufs[k := None], records := n.records[k := None]);
    if n.records[k] == None then cleared
    else if !p.flags.spectator && (p.flags.running || p.flags.dead) && |n.dead| < MAXCLIENTS then
      cleared.(dead := n.dead + [n.records[k].value])
    else cleared.(freed := n.freed + [n.records[k].value])
  }

  /** The end of `resetGame`'s clean-up: the register is freed and emptied. */
  function Forget(n: Slots): Slots { n.(freed := n.freed + n.dead, dead := []) }

  /** What else is queued for a slot: before the sprite messages of a frame and after them; how the
      sprites of each slot's messages look; and whether what START sends gets through. */
  datatype Talk = Talk(
    before: nat -> seq<Message>, after: nat -> seq<Message>, look: nat -> nat -> Look, sent: bool)

  /** Messages queued for everybody. */
  function Spoken(n: Slots, said: nat -> seq<Message>): (r: Slots)
    requires Shaped(n)
  {
    n.(bufs := seq(MAXCLIENTS, k requires 0 <= k < MAXCLIENTS =>
                     if n.bufs[k].Some? then Some(Accepted(n.bufs[k].value, said(k))) else None))
  }

  /** The sprite messages of a frame that starts in `s`. */
  function SpritesQueued(c: Config, s: State, n: Slots, look: nat -> nat -> Look): (r: Slots)
    requires ValidConfig(c) && Shaped(n)
  {
    n.(bufs := seq(MAXCLIENTS, k requires 0 <= k < MAXCLIENTS =>
                     if n.bufs[k].Some? then Some(Accepted(n.bufs[k].value, PackAll(FrameMsgs(c, s, k), look(k))))
                         else None))
  }

  // ---- the game together with its clients

  datatype World = World(s: State, n: Slots)

  function Remove(w: World, k: nat): (r: World)
    requires k < MAXCLIENTS && w.s.players[k].Some? && Shaped(w.n)
    ensures Shaped(r.n)
  {
    World(RemoveClient(w.s, k), Vacate(w.n, k, w.s.players[k].value))
  }

  /** `sendClientMessages`: what is sent leaves the buffer empty. */
  function Send(w: World, lost: set<nat>, k: nat): (r: World)
    requires k <= MAXCLIENTS && Shaped(w.n)
    ensures Shaped(r.n)
    decreases MAXCLIENTS - k
  {
    if k == MAXCLIENTS then w
    else if w.n.addr[k] && k in lost && w.s.players[k].Some? then Send(Remove(w, k), lost, k + 1)
    else if w.n.addr[k] then Send(w.(n := w.n.(bufs := w.n.bufs[k := Some([])])), lost, k + 1)
    else Send(w, lost, k + 1)
  }

  function Bury(w: World, k: nat): (r: World)
    requires k <= MAXCLIENTS && Shaped(w.n)
    ensures Shaped(r.n)
    decreases MAXCLIENTS - k
  {
    if k == MAXCLIENTS then w
    else if w.s.players[k].Some? && w.s.players[k].value.flags.dead then Bury(Remove(w, k), k + 1)
    else Bury(w, k + 1)
  }

  function Evict(w: World, k: nat): (r: World)
    requires k <= MAXCLIENTS && Shaped(w.n)
    ensures Shaped(r.n)
    decreases MAXCLIENTS - k
  {
    if k == MAXCLIENTS then w
    else if w.s.players[k].Some? && !w.s.players[k].value.flags.spectator then Evict(Remove(w, k), k + 1)
    else Evict(w, k + 1)
  }

  function Reset(c: Config, w: World): World
    requires ValidConfig(c) && Shaped(w.n)
  {
    var e := Evict(w, 0);
    World(RestartAll(c, CreateFlags(c, Cleared(c, e.s)), 0), Forget(e.n))
  }

  function Finish(c: Config, w: World): World
    requires ValidConfig(c) && Shaped(w.n)
  {
    var over := w.s.gameOver || (w.s.running && w.s.playerCount == 0);
    if over then Reset(c, w.(s := w.s.(gameOver := true))) else w
  }

  /** The slots with everything queued when a frame that starts in `s` is sent. */
  function FrameQueued(c: Config, s: State, n: Slots, talk: Talk): (r: Slots)
    requires ValidConfig(c) && Shaped(n)
    ensures Shaped(r) && r == n.(bufs := r.bufs)
  {
    Spoken(SpritesQueued(c, s, Spoken(n, talk.before), talk.look), talk.after)
  }

  /** `makeUpdates`. */
  function MakeUpdates(c: Config, w: World, lost: set<nat>, talk: Talk): World
    requires ValidConfig(c) && Shaped(w.n)
  {
    var w1 := World(TimeTick(c, ViewsFrom(DoObjectUpdates(c, w.s), 0)), FrameQueued(c, w.s, w.n, talk));
    var w2 := Send(w1, lost, 0);
    Finish(c, Bury(w2.(s := CleanFrom(c, w2.s, 0)), 0))
  }

  function FirstUnset(addr: seq<bool>, k: nat): (r: nat)
    requires k <= |addr|
    ensures k <= r <= |addr| && (r < |addr| ==> !addr[r])
    decreases |addr| - k
  {
    if k == |addr| || !addr[k] then k else FirstUnset(addr, k + 1)
  }

  /** The message that tells a client where its tank `o` has been put. */
  function StartAck(o: Obj): Message {
    var x, y := o.x / 16, o.y / 16;
    Message(STARTACK, [x % 256, High(x), y % 256, High(y)])
  }

  /** `startPlayer` queues that message and sends the buffer at once. */
  function Started(n: Slots, k: nat, ack: Message, sent: bool): (r: Slots)
    requires Shaped(n) && k < MAXCLIENTS
    ensures Shaped(r)
  {
    if n.bufs[k] == None then n
    else n.(bufs := n.bufs[k := Some(if sent then [] else Accepted(n.bufs[k].value, [ack]))])
  }

  /** What a message from the client in slot `k`, or its removal by `doPing`, does to the slots. */
  function Answered(c: Config, w: World, k: nat, e: Input, sent: bool): (r: Slots)
    requires Shaped(w.n) && Connected(w.s, k)
    ensures Shaped(r)
  {
    var p := w.s.players[k].value;
    if e.Bye? || e.PingOut? then Vacate(w.n, k, p)
    else if e.Start? && !p.flags.spectator then Started(w.n, k, StartAck(NewTank(c, k, p)), sent)
    else w.n
  }

  function Heard(c: Config, w: World, k: nat, e: Input, talk: Talk): World
    requires Shaped(w.n) && Connected(w.s, k) && !e.Tick? && !e.Hello?
  {
    World(ClientStep(c, w.s, k, e), Spoken(Answered(c, w, k, e, talk.sent), talk.before))
  }

  /** One turn of the message loop, with what it makes the server say. */
  function Turn(c: Config, w: World, e: Input, talk: Talk): World
    requires ValidConfig(c) && Shaped(w.n)
  {
    match e
    case Tick(lost) => MakeUpdates(c, w, lost, talk)
    case Hello(spectator) =>
      var k := FirstUnset(w.n.addr, 0);
      if k < MAXCLIENTS then World(MakeNewPlayer(c, w.s, k, spectator), Spoken(Occupy(w.n, k), talk.before)) else w
    case _ => if e.k < MAXCLIENTS && w.n.addr[e.k] && w.s.players[e.k].Some? then Heard(c, w, e.k, e, talk) else w
  }

  // ---- what every turn keeps

  /** The records that `players` points to. */
  function Held(records: seq<Option<nat>>): multiset<nat> {
    if records == [] then multiset{}
    else
      var l := |records| - 1;
      Held(records[..l]) + if records[l].Some? then multiset{records[l].value} else multiset{}
  }

  function Everywhere(n: Slots): multiset<nat> { Held(n.records) + multiset(n.dead) + multiset(n.freed) }

  /** Every record ever made is in exactly one place: in `players`, in the register of the dead,
      or freed, and there once. */
  ghost predicate Accounted(n: Slots) { forall id: nat :: Everywhere(n)[id] == if id < n.made then 1 else 0 }

  /** Address, buffer and record of a slot are set together or not at all. */
  predicate InStep(players: PlayerList, n: Slots)
    requires Shaped(n)
  {
    forall k :: 0 <= k < MAXCLIENTS ==>
      && n.addr[k] == players[k].Some? && n.bufs[k].Some? == players[k].Some? && n.records[k].Some? == players[k].Some?
  }

  predicate Room(n: Slots) { forall k :: 0 <= k < |n.bufs| && n.bufs[k].Some? ==> Used(n.bufs[k].value) < MSGBUFSZ }

  ghost predicate Sync(players: PlayerList, n: Slots) {
    var all := Shaped(n) && InStep(players, n) && Room(n) && Accounted(n);
    all
  }

  lemma {:induction false} HeldWithout(records: seq<Option<nat>>, k: nat)
    requires k < |records| && records[k].Some?
    ensures Held(records) == Held(records[k := None]) + multiset{records[k].value}
    decreases |records|
  {
    var l := |records| - 1;
    if k < l {
      HeldWithout(records[..l], k);
      assert records[k := None][..l] == records[..l][k := None];
    } else {
      assert records[k := None][..l] == records[..l];
    }
  }

  lemma VacateEverywhere(n: Slots, k: nat, p: Player)
    requires Shaped(n) && k < MAXCLIENTS && n.records[k].Some?
    ensures Everywhere(Vacate(n, k, p)) == Everywhere(n) && Vacate(n, k, p).made == n.made
  {
    hide Held;
    HeldWithout(n.records, k);
  }

  lemma VacateSync(players: PlayerList, players': PlayerList, n: Slots, k: nat)
    requires Sync(players, n) && k < MAXCLIENTS && players[k].Some?
    requires forall j :: 0 <= j < MAXCLIENTS ==> (players'[j].Some? <==> j != k && players[j].Some?)
    ensures Sync(players', Vacate(n, k, players[k].value))
    ensures var f, r := players[k].value.flags, Vacate(n, k, players[k].value);
            && n.records[k].Some?
            && var kept := !f.spectator && (f.running || f.dead) && |n.dead| < 16;
               && r.dead == n.dead + (if kept then [n.records[k].value] else [])
               && r.freed == n.freed + (if kept then [] else [n.records[k].value])
  {
    hide Held, Everywhere;
    assert n.dead + [] == n.dead && n.freed + [] == n.freed;
    VacateEverywhere(n, k, players[k].value);
  }

  lemma OccupyEverywhere(n: Slots, k: nat)
    requires Shaped(n) && k < MAXCLIENTS && n.records[k] == None
    ensures Everywhere(Occupy(n, k)) == Everywhere(n) + multiset{n.made}
  {
    hide Held;
    var r := Occupy(n, k).records;
    HeldWithout(r, k);
    assert r[k := None] == n.records;
    assert r[k].value == n.made;
    assert Held(r) == Held(n.records) + multiset{n.made};
  }

  lemma OccupySync(players: PlayerList, players': PlayerList, n: Slots, k: nat)
    requires Sync(players, n) && k < MAXCLIENTS && players[k] == None
    requires forall j :: 0 <= j < MAXCLIENTS ==> (players'[j].Some? <==> j == k || players[j].Some?)
    ensures Sync(players', Occupy(n, k))
  {
    hide Held, Everywhere;
    OccupyEverywhere(n, k);
    assert Used([]) == 1;
  }

  lemma ForgetSync(players: PlayerList, n: Slots)
    requires Sync(players, n)
    ensures Sync(players, Forget(n))
  {
    hide Held;
    assert Everywhere(Forget(n)) == Everywhere(n);
  }

  lemma BufsSync(players: PlayerList, n: Slots, bufs: seq<Option<seq<Message>>>)
    requires Sync(players, n) && |bufs| == MAXCLIENTS
    requires forall k :: 0 <= k < MAXCLIENTS ==>
        (bufs[k].Some? <==> n.bufs[k].Some?) && (bufs[k].Some? ==> Used(bufs[k].value) < MSGBUFSZ)
    ensures Sync(players, n.(bufs := bufs))
  {
    hide Used;
    assert Everywhere(n.(bufs := bufs)) == Everywhere(n);
  }

  /** Queueing keeps everything, because a buffer never takes more than fits. */
  lemma SpokenSync(players: PlayerList, n: Slots, said: nat -> seq<Message>)
    requires Sync(players, n)
    ensures Sync(players, Spoken(n, said))
  {
    hide Accepted, Used;
    forall k | 0 <= k < MAXCLIENTS && n.bufs[k].Some? ensures Used(Accepted(n.bufs[k].value, said(k))) < MSGBUFSZ {
      AcceptedFit(n.bufs[k].value, said(k));
    }
    BufsSync(players, n, Spoken(n, said).bufs);
  }

  lemma SpritesSync(c: Config, s: State, players: PlayerList, n: Slots, look: nat -> nat -> Look)
    requires ValidConfig(c) && Sync(players, n)
    ensures Sync(players, SpritesQueued(c, s, n, look))
  {
    hide FrameMsgs, PackAll, Accepted, Used;
    forall k | 0 <= k < MAXCLIENTS && n.bufs[k].Some?
      ensures Used(Accepted(n.bufs[k].value, PackAll(FrameMsgs(c, s, k), look(k)))) < MSGBUFSZ
    {
      AcceptedFit(n.bufs[k].value, PackAll(FrameMsgs(c, s, k), look(k)));
    }
    BufsSync(players, n, SpritesQueued(c, s, n, look).bufs);
  }

  lemma SentSync(players: PlayerList, n: Slots, k: nat)
    requires Sync(players, n) && k < MAXCLIENTS && players[k].Some?
    ensures Sync(players, n.(bufs := n.bufs[k := Some([])]))
  {
    assert Used([]) == 1;
    BufsSync(players, n, n.bufs[k := Some([])]);
  }

  predicate SameSlots(players: PlayerList, players': PlayerList) {
    forall k :: 0 <= k < MAXCLIENTS ==> (players'[k].Some? <==> players[k].Some?)
  }

  lemma SyncSame(players: PlayerList, players': PlayerList, n: Slots)
    requires Sync(players, n) && SameSlots(players, players')
    ensures Sync(players', n)
  {
  }

  // ---- removals

  lemma RemovedSlots(s: State, b: nat, c: nat, k: nat)
    requires k < MAXCLIENTS && s.players[k].Some? && Inv(s, b, c, -1)
    ensures forall j :: 0 <= j < MAXCLIENTS ==> (RemoveClient(s, k).players[j].Some? <==> j != k && s.players[j].Some?)
  {
    RemovedPlayers(s, k);
    TeamedPlayers(s, b, -1);
    OrderedTeams(s.players[k := None]);
  }

  lemma RemoveSync(w: World, b: nat, c: nat, k: nat)
    requires k < MAXCLIENTS && w.s.players[k].Some? && Inv(w.s, b, c, -1) && Sync(w.s.players, w.n)
    ensures Sync(Remove(w, k).s.players, Remove(w, k).n)
  {
    hide Sync, Inv, Vacate, RemoveClient;
    RemovedSlots(w.s, b, c, k);
    Shape(w.s.players, w.n);
    VacateSync(w.s.players, RemoveClient(w.s, k).players, w.n, k);
  }

  lemma Shape(players: PlayerList, n: Slots)
    requires Sync(players, n)
    ensures Shaped(n) && InStep(players, n)
  {
  }

  lemma {:induction false} SendSync(w: World, lost: set<nat>, k: nat)
    requires k <= MAXCLIENTS && Inv(w.s, MAXOBJS, 0, -1) && Sync(w.s.players, w.n)
    ensures Shaped(w.n) && Send(w, lost, k).s == SendFrom(w.s, lost, k)
        && Sync(Send(w, lost, k).s.players, Send(w, lost, k).n)
    decreases MAXCLIENTS - k
  {
    hide Sync, Inv, Vacate, RemoveClient;
    Shape(w.s.players, w.n);
    if k < MAXCLIENTS {
      if w.s.players[k].Some? && k in lost {
        RemoveInv(w.s, MAXOBJS, 0, k);
        RemoveSync(w, MAXOBJS, 0, k);
        SendSync(Remove(w, k), lost, k + 1);
      } else if w.s.players[k].Some? {
        SentSync(w.s.players, w.n, k);
        SendSync(w.(n := w.n.(bufs := w.n.bufs[k := Some([])])), lost, k + 1);
      } else {
        SendSync(w, lost, k + 1);
      }
    }
  }

  /** The place that a starting client is told is that of its tank, on the map. */
  lemma StartAckPlace(o: Obj)
    requires 0 <= o.x < 16 * 0x10000 && 0 <= o.y < 16 * 0x10000
    ensures var m := StartAck(o);
            && m.id == STARTACK && |m.body| == 4
            && 0 <= o.x - 16 * Word(m.body[0], m.body[1]) < 16 && 0 <= o.y - 16 * Word(m.body[2], m.body[3]) < 16
  {
    hide High, Word;
    WordOf(o.x / 16);
    WordOf(o.y / 16);
  }

  lemma {:induction false} BurySync(w: World, k: nat)
    requires k <= MAXCLIENTS && Inv(w.s, MAXOBJS, MAXOBJS, -1) && Sync(w.s.players, w.n)
    ensures Shaped(w.n) && Bury(w, k).s == BuryFrom(w.s, k) && Sync(Bury(w, k).s.players, Bury(w, k).n)
    decreases MAXCLIENTS - k
  {
    hide Sync, Inv, Vacate, RemoveClient;
    Shape(w.s.players, w.n);
    if k < MAXCLIENTS {
      if w.s.players[k].Some? && w.s.players[k].value.flags.dead {
        RemoveInv(w.s, MAXOBJS, MAXOBJS, k);
        RemoveSync(w, MAXOBJS, MAXOBJS, k);
        BurySync(Remove(w, k), k + 1);
      } else {
        BurySync(w, k + 1);
      }
    }
  }

  lemma {:induction false} EvictSync(w: World, k: nat)
    requires k <= MAXCLIENTS && Inv(w.s, MAXOBJS, MAXOBJS, -1) && Sync(w.s.players, w.n)
    ensures Shaped(w.n) && Evict(w, k).s == EvictFrom(w.s, k) && Sync(Evict(w, k).s.players, Evict(w, k).n)
    decreases MAXCLIENTS - k
  {
    hide Sync, Inv, Vacate, RemoveClient;
    Shape(w.s.players, w.n);
    if k < MAXCLIENTS {
      if w.s.players[k].Some? && !w.s.players[k].value.flags.spectator {
        RemoveInv(w.s, MAXOBJS, MAXOBJS, k);
        RemoveSync(w, MAXOBJS, MAXOBJS, k);
        EvictSync(Remove(w, k), k + 1);
      } else {
        EvictSync(w, k + 1);
      }
    }
  }

  // ---- frames

  lemma DestructSlots(c: Config, s: State, i: nat)
    requires i <= MAXOBJS
    ensures SameSlots(s.players, DestructFrom(c, s, i).players)
    decreases MAXOBJS - i
  {
    if i < MAXOBJS { DestructSlots(c, DestructSlot(c, s, i), i + 1); }
  }

  /** No slot is taken or given up before the frame is sent. */
  lemma UpdatesSlots(c: Config, s: State)
    requires ValidConfig(c)
    ensures SameSlots(s.players, TimeTick(c, ViewsFrom(DoObjectUpdates(c, s), 0)).players)
  {
    hide DoObjectUpdates, ViewsFrom, TimeTick;
    UpdatedSlots(c, s);
    ViewsStandings(DoObjectUpdates(c, s), 0);
    TimeStandings(c, ViewsFrom(DoObjectUpdates(c, s), 0));
  }

  lemma UpdatedSlots(c: Config, s: State)
    requires ValidConfig(c)
    ensures SameSlots(s.players, DoObjectUpdates(c, s).players)
  {
    hide BeforeDestruction, DestructFrom;
    PlayersThrough(c, s);
    DestructSlots(c, BeforeDestruction(c, s), 0);
    UpdatesFromThere(c, s);
  }

  lemma CleanSlots(c: Config, s: State)
    ensures SameSlots(s.players, CleanFrom(c, s, 0).players)
  {
    forall k | 0 <= k < MAXCLIENTS ensures CleanFrom(c, s, 0).players[k].Some? <==> s.players[k].Some? {
      CleanSome(c, s, 0, k);
    }
  }

  lemma QueuedSync(c: Config, s: State, players: PlayerList, n: Slots, talk: Talk)
    requires ValidConfig(c) && Sync(players, n)
    ensures Shaped(n) && Sync(players, FrameQueued(c, s, n, talk))
  {
    hide Sync, Spoken, SpritesQueued;
    Shape(players, n);
    SpokenSync(players, n, talk.before);
    Shape(players, Spoken(n, talk.before));
    SpritesSync(c, s, players, Spoken(n, talk.before), talk.look);
    Shape(players, SpritesQueued(c, s, Spoken(n, talk.before), talk.look));
    SpokenSync(players, SpritesQueued(c, s, Spoken(n, talk.before), talk.look), talk.after);
  }

  lemma MakeUpdatesSync(c: Config, w: World, lost: set<nat>, talk: Talk)
    requires ValidConfig(c) && Boundary(w.s) && Sync(w.s.players, w.n)
    ensures Shaped(w.n) && MakeUpdates(c, w, lost, talk).s == Frame(c, w.s, lost)
    ensures Sync(MakeUpdates(c, w, lost, talk).s.players, MakeUpdates(c, w, lost, talk).n)
  {
    hide Sync, Inv, Boundary, DoObjectUpdates, Send, Bury, FrameQueued, SendFrom, BuryFrom, CleanFrom, Finish,
        FinishFrame;
    Shape(w.s.players, w.n);
    UpdatesSlots(c, w.s);
    var s1 := TimeTick(c, ViewsFrom(DoObjectUpdates(c, w.s), 0));
    var w1 := World(s1, FrameQueued(c, w.s, w.n, talk));
    QueuedSync(c, w.s, w.s.players, w.n, talk);
    SyncSame(w.s.players, s1.players, w1.n);
    BeforeSending(c, w.s);
    SendSync(w1, lost, 0);
    var w2 := Send(w1, lost, 0);
    SentInv(c, w.s, lost);
    CleanInv(c, w2.s, 0);
    CleanSlots(c, w2.s);
    var w3 := w2.(s := CleanFrom(c, w2.s, 0));
    SyncSame(w2.s.players, w3.s.players, w3.n);
    BurySync(w3, 0);
    BuryInv(w3.s, 0);
    FinishSync(c, Bury(w3, 0));
  }

  lemma FinishSync(c: Config, w: World)
    requires ValidConfig(c) && Inv(w.s, MAXOBJS, MAXOBJS, -1) && Sync(w.s.players, w.n)
    ensures Shaped(w.n) && Finish(c, w).s == FinishFrame(c, w.s) && Sync(Finish(c, w).s.players, Finish(c, w).n)
  {
    hide Sync, Inv, Reset, ResetGame;
    Shape(w.s.players, w.n);
    var over := w.s.(gameOver := true);
    GameOverInv(w.s);
    if w.s.gameOver || (w.s.running && w.s.playerCount == 0) { ResetSync(c, w.(s := over)); }
    assert w.s.gameOver ==> over == w.s;
  }

  lemma GameOverInv(s: State)
    requires Inv(s, MAXOBJS, MAXOBJS, -1)
    ensures Inv(s.(gameOver := true), MAXOBJS, MAXOBJS, -1)
  {
    InvPlayers(s, s.(gameOver := true), MAXOBJS, MAXOBJS, -1);
  }

  lemma ResetSync(c: Config, w: World)
    requires ValidConfig(c) && Inv(w.s, MAXOBJS, MAXOBJS, -1) && Sync(w.s.players, w.n)
    ensures Shaped(w.n) && Reset(c, w).s == ResetGame(c, w.s) && Sync(Reset(c, w).s.players, Reset(c, w).n)
  {
    hide Sync, Inv, Evict, EvictFrom, CreateFlags;
    Shape(w.s.players, w.n);
    EvictSync(w, 0);
    var e := Evict(w, 0);
    ForgetSync(e.s.players, e.n);
    ResetPlayers(c, e.s);
  }

  lemma ResetPlayers(c: Config, s: State)
    requires ValidConfig(c)
    ensures RestartAll(c, CreateFlags(c, Cleared(c, s)), 0).players == s.players
  {
    RestartPlayers(c, CreateFlags(c, Cleared(c, s)), 0);
  }

  lemma RestartPlayers(c: Config, s: State, n: nat)
    requires n <= |s.powerups|
    ensures RestartAll(c, s, n).players == s.players
    decreases |s.powerups| - n
  {
    if n < |s.powerups| { RestartPlayers(c, RestartSpawn(c, s, n), n + 1); }
  }

  // ---- turns

  lemma FirstUnsetSlot(players: PlayerList, addr: seq<bool>, k: nat)
    requires |addr| == MAXCLIENTS && k <= MAXCLIENTS && forall j :: 0 <= j < MAXCLIENTS ==> addr[j] == players[j].Some?
    ensures FirstUnset(addr, k) == FirstSlot(players, k)
    decreases MAXCLIENTS - k
  {
    if k < MAXCLIENTS { FirstUnsetSlot(players, addr, k + 1); }
  }

  lemma JoinedSlots(c: Config, s: State, k: nat, spectator: bool)
    requires ValidConfig(c) && Boundary(s) && k < MAXCLIENTS && s.players[k] == None
    ensures forall j :: 0 <= j < MAXCLIENTS ==>
        (MakeNewPlayer(c, s, k, spectator).players[j].Some? <==> j == k || s.players[j].Some?)
  {
    TeamedPlayers(s, MAXOBJS, -1);
    OrderedTeams(s.players[k := Some(NewPlayer(c, spectator))]);
  }

  lemma MessageSlots(c: Config, s: State, k: nat, e: Input)
    requires ValidConfig(c) && Boundary(s) && Connected(s, k) && Allowed(s, e) && !e.Tick? && !e.Hello? && !e.Bye?
        && !e.PingOut? && e.k == k
    ensures SameSlots(s.players, ClientStep(c, s, k, e).players)
  {
    match e
    case TeamRequest(_, team) =>
      TeamedPlayers(s, MAXOBJS, -1);
      if team <= 2 { OrderedTeams(s.players[k := Some(s.players[k].value.(team := team))]); }
    case MatchStop(_) =>
      forall j | 0 <= j < MAXCLIENTS && s.players[j].Some? && s.players[j].value.flags.matchmaking
        ensures !s.players[j].value.flags.spectator { assert PlayerOk(s, MAXOBJS, -1, j); }
      LeaveStandings(s.players, 0);
    case _ =>
  }

  lemma StartedSync(players: PlayerList, n: Slots, k: nat, ack: Message, sent: bool)
    requires Sync(players, n) && k < MAXCLIENTS
    ensures Sync(players, Started(n, k, ack, sent))
  {
    hide Accepted;
    if n.bufs[k].Some? {
      if sent {
        SentSync(players, n, k);
      } else {
        AcceptedFit(n.bufs[k].value, [ack]);
        BufsSync(players, n, n.bufs[k := Some(Accepted(n.bufs[k].value, [ack]))]);
      }
    }
  }

  lemma HeardSync(c: Config, w: World, k: nat, e: Input, talk: Talk)
    requires ValidConfig(c) && Boundary(w.s) && Sync(w.s.players, w.n) && Connected(w.s, k) && Allowed(w.s, e)
    requires !e.Tick? && !e.Hello? && e.k == k
    ensures Shaped(w.n) && Heard(c, w, k, e, talk).s == ClientStep(c, w.s, k, e)
    ensures Sync(Heard(c, w, k, e, talk).s.players, Heard(c, w, k, e, talk).n)
  {
    hide Sync, Vacate, Spoken, RemoveClient, StartAck, Started, NewTank;
    Shape(w.s.players, w.n);
    var t := ClientStep(c, w.s, k, e);
    var n := Answered(c, w, k, e, talk.sent);
    if e.Bye? || e.PingOut? {
      RemoveSync(w, MAXOBJS, MAXOBJS, k);
    } else {
      MessageSlots(c, w.s, k, e);
      SyncSame(w.s.players, t.players, w.n);
      if e.Start? { StartedSync(t.players, w.n, k, StartAck(NewTank(c, k, w.s.players[k].value)), talk.sent); }
    }
    SpokenSync(t.players, n, talk.before);
  }

  /** A turn of the message loop does to the game what the step of the game does, and address,
      buffer and record of every slot stay in step. */
  lemma TurnSync(c: Config, w: World, e: Input, talk: Talk)
    requires ValidConfig(c) && Boundary(w.s) && Sync(w.s.players, w.n) && Allowed(w.s, e)
    ensures Shaped(w.n) && Turn(c, w, e, talk).s == Game.Step(c, w.s, e)
        && Sync(Turn(c, w, e, talk).s.players, Turn(c, w, e, talk).n)
  {
    hide Sync, Boundary, MakeUpdates, Frame, Heard, ClientStep, MakeNewPlayer, Spoken, Occupy;
    Shape(w.s.players, w.n);
    match e
    case Tick(lost) => MakeUpdatesSync(c, w, lost, talk);
    case Hello(spectator) =>
      FirstUnsetSlot(w.s.players, w.n.addr, 0);
      var k := FirstSlot(w.s.players, 0);
      if k < MAXCLIENTS {
        JoinedSlots(c, w.s, k, spectator);
        OccupySync(w.s.players, MakeNewPlayer(c, w.s, k, spectator).players, w.n, k);
        SpokenSync(MakeNewPlayer(c, w.s, k, spectator).players, Occupy(w.n, k), talk.before);
      }
    case _ => if Connected(w.s, e.k) { HeardSync(c, w, e.k, e, talk); }
  }

  // ---- whole runs

  ghost predicate WorldRun(c: Config, powerups: seq<PowerSpawn>, worlds: seq<World>, inputs: seq<Input>,
                           talks: seq<Talk>) {
    && ValidConfig(c) && Ready(powerups) && |worlds| == |inputs| + 1 && |talks| == |inputs|
    && worlds[0] == World(Init(c, powerups), Nobody())
    && forall n :: 0 <= n < |inputs| ==>
         Shaped(worlds[n].n) && Allowed(worlds[n].s, inputs[n])
             && worlds[n + 1] == Turn(c, worlds[n], inputs[n], talks[n])
  }

  lemma NobodySync()
    ensures Sync(NoPlayers(), Nobody())
  {
    NobodyHeld(Nobody().records);
  }

  lemma {:induction false} NobodyHeld(r: seq<Option<nat>>)
    requires forall k :: 0 <= k < |r| ==> r[k] == None
    ensures Held(r) == multiset{}
  {
    if r != [] { NobodyHeld(r[..|r| - 1]); }
  }

  /** In every state of every run the address, the buffer and the record of each slot are set
      together or not at all, no buffer is over full, and every Player record ever made is in
      `players`, in the register of the dead, or freed, in one of the three and once. */
  lemma {:induction false} SlotsInStep(c: Config, powerups: seq<PowerSpawn>, worlds: seq<World>, inputs: seq<Input>,
                                       talks: seq<Talk>, n: nat)
    requires WorldRun(c, powerups, worlds, inputs, talks) && n < |worlds|
    ensures Boundary(worlds[n].s) && Sync(worlds[n].s.players, worlds[n].n)
  {
    hide Boundary, Sync, Turn, Init;
    if n == 0 {
      InitBoundary(c, powerups);
      InitPlayers(c, powerups);
      NobodySync();
    } else {
      SlotsInStep(c, powerups, worlds, inputs, talks, n - 1);
      TurnSync(c, worlds[n - 1], inputs[n - 1], talks[n - 1]);
      StepBoundary(c, worlds[n - 1].s, inputs[n - 1]);
    }
  }

  lemma InitPlayers(c: Config, powerups: seq<PowerSpawn>)
    requires ValidConfig(c)
    ensures Init(c, powerups).players == NoPlayers()
  {
  }

  function Games(worlds: seq<World>): seq<State> { seq(|worlds|, n requires 0 <= n < |worlds| => worlds[n].s) }

  /** The games of such a run are a run of the game. */
  lemma GamesRun(c: Config, powerups: seq<PowerSpawn>, worlds: seq<World>, inputs: seq<Input>, talks: seq<Talk>)
    requires WorldRun(c, powerups, worlds, inputs, talks)
    ensures Run(c, Games(worlds), inputs) && Games(worlds)[0] == Init(c, powerups)
  {
    hide Turn, Boundary, Sync, Init;
    forall n | 0 <= n < |inputs| ensures worlds[n + 1].s == Game.Step(c, worlds[n].s, inputs[n]) {
      SlotsInStep(c, powerups, worlds, inputs, talks, n);
      TurnSync(c, worlds[n], inputs[n], talks[n]);
    }
  }

  // ---- what the client of a slot gets of a frame

  lemma FrameSlotted(c: Config, s: State, k: nat)
    requires ValidConfig(c) && k < MAXCLIENTS
    ensures Slotted(FrameMsgs(c, s, k))
  {
    var m := DoObjectUpdates(c, s);
    if m.players[k].Some? { ObjectMsgsRound(m.objs, MAXOBJS, m.players[k].value.view); }
  }

  /** From the server's frame to the client's sprite table: the datagram that a slot is sent in a
      frame, taken apart by the client, applies the sprite messages of the frame that its buffer
      had room for, in order, and nothing else; or nothing, if what was queued before them holds a
      message that ends the client's loop. */
  lemma FrameReceived(c: Config, w: World, talk: Talk, k: nat, t: Table, stale: seq<Byte>)
    requires ValidConfig(c) && Sync(w.s.players, w.n) && k < MAXCLIENTS && w.s.players[k].Some?
    requires var q := Accepted(w.n.bufs[k].value, talk.before(k)); Sized(PlayerClient, q) && Plain(q)
    requires Plain(talk.after(k)) && Sized(PlayerClient, talk.after(k))
    ensures var q, all := Accepted(w.n.bufs[k].value, talk.before(k)), FrameQueued(c, w.s, w.n, talk).bufs[k].value;
            && |all| < 256
            && Decoded(t, all, stale) == if HeardOut(q) then AppliedAll(t, Received(c, w.s, k, Used(q))) else t
  {
    hide FrameMsgs, Accepted, Used, Admit, PackAll, HeardOut, Plain, Sized, Decoded;
    var q := Accepted(w.n.bufs[k].value, talk.before(k));
    AcceptedFit(w.n.bufs[k].value, talk.before(k));
    FrameSlotted(c, w.s, k);
    DatagramReceived(q, FrameMsgs(c, w.s, k), talk.look(k), talk.after(k), t, stale);
  }
}
