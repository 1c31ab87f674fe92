/** Tanks over time: wrecks are replaced within sixteen frames, and a gun needs eighteen
    frames between two shots. */
module TankRuns {
  import opened CtfServ
  import opened Game
  import opened Matchmake
  import opened GameInvariant
  import opened FrameInvariant
  import opened RunInvariant
  import opened Runs
  import opened Tracking
  import opened LifeCycle

  /** Player `k`'s tank, or what is left of it, is in slot `i`. */
  predicate Holds(s: State, k: nat, i: nat, kind: Kind) {
    && Connected(s, k) && s.players[k].value.tank == Some(i)
    && i < MAXOBJS && s.objs[i].Some? && s.objs[i].value.owner == k && s.objs[i].value.kind == kind
  }

  predicate Drives(s: State, k: nat) {
    Connected(s, k) && s.players[k].value.tank.Some? && Holds(s, k, s.players[k].value.tank.value, Tank)
  }

  lemma HeldSane(s: State, k: nat, i: nat, kind: Kind)
    requires Boundary(s) && Holds(s, k, i, kind)
    ensures Sane(s.objs[i].value) && !s.objs[i].value.flags.vanished && !s.players[k].value.flags.spectator
  {
    assert SlotOk(s, MAXOBJS, MAXOBJS, i) && PlayerOk(s, MAXOBJS, -1, k);
  }

  /** A slot that is sound once the destructors have run: no destroyed tanks, nothing vanished that is owned. */
  lemma SentSlot(c: Config, s: State, lost: set<nat>, j: nat)
    requires ValidConfig(c) && Boundary(s) && j < MAXOBJS && Sent(c, s, lost).objs[j].Some?
    ensures var o := Sent(c, s, lost).objs[j].value;
            Sane(o) && (o.flags.destroyed ==> o.kind != Tank)
  {
    SentInv(c, s, lost);
    assert SlotOk(Sent(c, s, lost), MAXOBJS, 0, j);
  }

  lemma BuryDrops(s: State, n: nat)
    requires n <= MAXCLIENTS
    ensures s.dropped <= BuryFrom(s, n).dropped
    decreases MAXCLIENTS - n
  {
    if n < MAXCLIENTS {
      if s.players[n].Some? && s.players[n].value.flags.dead {
        VanishDrops(s, n, 0);
        BuryDrops(RemoveClient(s, n), n + 1);
      } else {
        BuryDrops(s, n + 1);
      }
    }
  }

  lemma VanishDrops(s: State, k: nat, i: nat)
    requires i <= MAXOBJS
    ensures s.dropped <= VanishFrom(s, k, i).dropped
    decreases MAXOBJS - i
  {
    if i < MAXOBJS { VanishDrops(VanishSlot(s, k, i), k, i + 1); }
  }

  /** The object in the player's slot after the updates of a frame in which the player stays. */
  lemma HeldThrough(c: Config, s: State, lost: set<nat>, k: nat, i: nat, kind: Kind)
    requires ValidConfig(c) && Boundary(s) && Holds(s, k, i, kind)
    requires Frame(c, s, lost).players[k].Some? && !Frame(c, s, lost).players[k].value.flags.spectator
    ensures Sent(c, s, lost).players[k].Some? && Sent(c, s, lost).players[k].value.tank == Some(i)
    ensures BeforeDestruction(c, s).objs[i].Some?
        && Follows(Updated(s.objs[i].value), BeforeDestruction(c, s).objs[i].value)
    ensures DoObjectUpdates(c, s).objs[i].Some?
        && Destructed(BeforeDestruction(c, s).objs[i].value, DoObjectUpdates(c, s).objs[i].value)
    ensures DoObjectUpdates(c, s).objs[i].value.owner == k && Sent(c, s, lost).objs[i] == DoObjectUpdates(c, s).objs[i]
  {
    HeldSane(s, k, i, kind);
    FrameStays(c, s, lost, k);
    SentDelivers(c, s, lost, k);
    CollidedAt(c, s, i);
    UpdatesAt(c, s, i);
    StartFrame(s);
    TankThrough(c, s, k);
    StillOwned(c, s, lost, k);
  }

  /** A player who stays has not died out, so the wreck of the tank is still theirs. */
  lemma StillOwned(c: Config, s: State, lost: set<nat>, k: nat)
    requires ValidConfig(c) && Boundary(s) && Connected(s, k) && s.players[k].value.tank.Some?
    requires Frame(c, s, lost).players[k].Some? && !Frame(c, s, lost).players[k].value.flags.spectator
    ensures TankLink(DoObjectUpdates(c, s).objs, k, s.players[k].value.tank.value)
  {
    StartFrame(s);
    TankThrough(c, s, k);
    UpdatesInv(c, s);
    StayedOn(c, s, lost, k);
    StayedAlive(c, s, lost, k);
    assert PlayerOk(DoObjectUpdates(c, s), MAXOBJS, -1, k);
  }

  lemma TankThrough(c: Config, s: State, k: nat)
    requires ValidConfig(c) && Connected(s, k) && Inv(s, 0, 0, -1) && Calm(s.objs)
    ensures DoObjectUpdates(c, s).players[k].Some?
        && DoObjectUpdates(c, s).players[k].value.tank == s.players[k].value.tank
  {
    UpdateInv(s, -1, 0);
    SpawnTicksInv(UpdateFrom(s, 0), -1, 0);
    MapInv(c, SpawnTicks(UpdateFrom(s, 0), 0), 0);
    PairsInv(c, MapFrom(c, SpawnTicks(UpdateFrom(s, 0), 0), 0), 0, 1);
    PlayersThrough(c, s);
    DestructLives(c, BeforeDestruction(c, s), 0, k);
  }

  /** After the clean-up: the object is still there, or the player has a new tank. */
  lemma CleanedUp(c: Config, s: State, lost: set<nat>, k: nat, i: nat)
    requires ValidConfig(c) && Boundary(s) && k < MAXCLIENTS && i < MAXOBJS
    requires Frame(c, s, lost).players[k].Some? && !Frame(c, s, lost).players[k].value.flags.spectator
    requires Sent(c, s, lost).players[k].Some? && Sent(c, s, lost).players[k].value.tank == Some(i)
    requires Sent(c, s, lost).objs[i].Some? && Sent(c, s, lost).objs[i].value.owner == k
    ensures var o, t := Sent(c, s, lost).objs[i].value, Frame(c, s, lost);
            if o.flags.destroyed then Tank in t.dropped || Drives(t, k)
            else t.players[k].value.tank == Some(i) && t.objs[i] == Some(o)
  {
    var d := Sent(c, s, lost);
    SentSlot(c, s, lost, i);
    FrameStays(c, s, lost, k);
    FrameBuried(c, s, lost, k);
    BuryDrops(CleanFrom(c, d, 0), 0);
    if d.objs[i].value.flags.destroyed {
      CleanRespawn(c, d, 0, k);
    } else {
      CleanKeep(c, d, 0, i);
      CleanPlayer(c, d, 0, k);
    }
  }

  /** A wreck burns down one frame, or is replaced by a new tank. */
  lemma WreckFrame(c: Config, s: State, lost: set<nat>, k: nat, i: nat)
    requires ValidConfig(c) && Boundary(s) && Holds(s, k, i, Explosion)
    requires Frame(c, s, lost).players[k].Some? && !Frame(c, s, lost).players[k].value.flags.spectator
    ensures var t := Frame(c, s, lost);
            Tank in t.dropped || Drives(t, k)
                || (Holds(t, k, i, Explosion) && t.objs[i].value.ttl == s.objs[i].value.ttl - 1)
  {
    HeldSane(s, k, i, Explosion);
    HeldThrough(c, s, lost, k, i, Explosion);
    CleanedUp(c, s, lost, k, i);
  }

  /** A tank that is not destroyed keeps its slot, with its gun one frame cooler or just fired. */
  lemma TankFrame(c: Config, s: State, lost: set<nat>, k: nat, i: nat)
    requires ValidConfig(c) && Boundary(s) && Holds(s, k, i, Tank)
    requires Frame(c, s, lost).players[k].Some? && !Frame(c, s, lost).players[k].value.flags.spectator
    ensures var t := Frame(c, s, lost);
            || (Holds(t, k, i, Tank) && t.objs[i].value.cooldown == Updated(s.objs[i].value).cooldown)
            || (Holds(t, k, i, Explosion) && t.objs[i].value.ttl == 15)
  {
    HeldSane(s, k, i, Tank);
    HeldThrough(c, s, lost, k, i, Tank);
    SentSlot(c, s, lost, i);
    CleanedUp(c, s, lost, k, i);
  }

  // ---- between frames

  /** The object in slot `i` of player `k` after a message: only its controls can differ. */
  predicate Steady(s: State, t: State, k: nat, i: nat)
    requires k < MAXCLIENTS && i < MAXOBJS && s.objs[i].Some?
  {
    && t.players[k].Some? && t.players[k].value.tank == Some(i)
    && t.objs[i].Some? && t.objs[i].value == s.objs[i].value.(ctrls := t.objs[i].value.ctrls)
  }

  lemma OrderedTank(players: PlayerList, k: nat)
    requires k < MAXCLIENTS && Teamed(players) && players[k].Some?
    ensures Ordered(players)[k].Some? && Ordered(players)[k].value.tank == players[k].value.tank
  {
    OrderedTeams(players);
  }

  lemma MessageSteady(c: Config, s: State, e: Input, k: nat, i: nat, kind: Kind)
    requires ValidConfig(c) && Boundary(s) && Allowed(s, e) && !e.Tick? && Holds(s, k, i, kind)
    requires Step(c, s, e).players[k].Some?
    ensures Steady(s, Step(c, s, e), k, i)
  {
    TeamedPlayers(s, MAXOBJS, -1);
    if e.Hello? { HelloSteady(c, s, e.spectator, k, i); }
    else if Connected(s, e.k) { ClientSteady(c, s, e.k, e, k, i); }
  }

  lemma ClientSteady(c: Config, s: State, q: nat, e: Input, k: nat, i: nat)
    requires ValidConfig(c) && Boundary(s) && Connected(s, q) && Allowed(s, e) && !e.Tick? && !e.Hello? && e.k == q
    requires Connected(s, k) && s.players[k].value.tank == Some(i) && i < MAXOBJS && s.objs[i].Some?
        && s.objs[i].value.owner == k
    requires ClientStep(c, s, q, e).players[k].Some?
    ensures Steady(s, ClientStep(c, s, q, e), k, i)
  {
    match e
    case Start(_) => if !s.players[q].value.flags.spectator { AddAt(s, NewTank(c, q, s.players[q].value), i); }
    case Control(_, _) => ControlSteady(s, q, k, i);
    case Bye(_) => RemoveStays(s, MAXOBJS, MAXOBJS, q, k);
    case PingOut(_) => RemoveStays(s, MAXOBJS, MAXOBJS, q, k);
    case TeamRequest(_, team) =>
      TeamedPlayers(s, MAXOBJS, -1);
      if team <= 2 { OrderedTank(s.players[q := Some(s.players[q].value.(team := team))], k); }
    case MatchStop(_) => StopSteady(s, k);
    case _ =>
  }

  lemma HelloSteady(c: Config, s: State, spectator: bool, k: nat, i: nat)
    requires ValidConfig(c) && Connected(s, k) && Teamed(s.players) && i < MAXOBJS && s.objs[i].Some?
        && s.players[k].value.tank == Some(i)
    ensures Steady(s, Step(c, s, Hello(spectator)), k, i)
  {
    var q := FirstSlot(s.players, 0);
    if q < MAXCLIENTS && !spectator {
      OrderedTank(s.players[q := Some(NewPlayer(c, spectator))], k);
    }
  }

  lemma ControlSteady(s: State, q: nat, k: nat, i: nat)
    requires Connected(s, q) && Connected(s, k) && i < MAXOBJS && s.objs[i].Some? && s.players[k].value.tank == Some(i)
    ensures forall ctrls :: TankOf(s, s.players[q].value).Some? ==>
              Steady(s, Put(s, s.players[q].value.tank.value, TankOf(s, s.players[q].value).value.(ctrls := ctrls)), k,
                  i)
  {
  }

  lemma StopSteady(s: State, k: nat)
    requires Boundary(s) && Connected(s, k)
    ensures LeaveMatchmaking(s.players, 0)[k].Some?
        && LeaveMatchmaking(s.players, 0)[k].value.tank == s.players[k].value.tank
  {
    forall j | 0 <= j < MAXCLIENTS && s.players[j].Some? && s.players[j].value.flags.matchmaking
      ensures !s.players[j].value.flags.spectator { assert PlayerOk(s, MAXOBJS, -1, j); }
    LeaveStandings(s.players, 0);
  }

  // ---- whole runs

  /** How many frames there are among the inputs from `a` up to `b`. */
  function Ticks(inputs: seq<Input>, a: nat, b: nat): nat
    requires a <= b <= |inputs|
    decreases b - a
  {
    if a == b then 0 else Ticks(inputs, a, b - 1) + if inputs[b - 1].Tick? then 1 else 0
  }

  lemma TicksFirst(inputs: seq<Input>, a: nat, b: nat)
    requires a < b <= |inputs|
    ensures Ticks(inputs, a, b) == Ticks(inputs, a + 1, b) + if inputs[a].Tick? then 1 else 0
    decreases b - a
  {
    if a + 1 < b { TicksFirst(inputs, a, b - 1); }
  }

  /** A run from a fresh game in which player `k` is present from state `a` to state `b`. */
  ghost predicate Tenure(c: Config, powerups: seq<PowerSpawn>, states: seq<State>, inputs: seq<Input>, k: nat, a: nat,
                         b: nat)
    requires ValidConfig(c)
  {
    && Ready(powerups) && Run(c, states, inputs) && states[0] == Init(c, powerups)
    && a <= b < |states|
    && forall n :: a <= n <= b ==> Connected(states[n], k) && !states[n].players[k].value.flags.spectator
  }

  lemma TenureStep(c: Config, powerups: seq<PowerSpawn>, states: seq<State>, inputs: seq<Input>, k: nat, a: nat,
                   b: nat, n: nat)
    requires ValidConfig(c) && Tenure(c, powerups, states, inputs, k, a, b) && a <= n < b
    ensures Boundary(states[n]) && Allowed(states[n], inputs[n]) && states[n + 1] == Step(c, states[n], inputs[n])
    ensures Connected(states[n + 1], k) && !states[n + 1].players[k].value.flags.spectator
    ensures Tenure(c, powerups, states, inputs, k, a, n) && Tenure(c, powerups, states, inputs, k, n + 1, b)
  {
    RunBoundary(c, powerups, states, inputs, n);
    assert forall m :: m == n + 1 ==> Connected(states[m], k);
  }

  /** One step of a burning wreck: a new tank, or the same wreck with its clock running. */
  lemma WreckStep(c: Config, s: State, e: Input, k: nat, i: nat)
    requires ValidConfig(c) && Boundary(s) && Allowed(s, e) && Holds(s, k, i, Explosion)
    requires Connected(Step(c, s, e), k) && !Step(c, s, e).players[k].value.flags.spectator
    ensures var t := Step(c, s, e);
            || Tank in t.dropped || Drives(t, k)
            || (Holds(t, k, i, Explosion) && t.objs[i].value.ttl == s.objs[i].value.ttl - if e.Tick? then 1 else 0)
  {
    if e.Tick? { WreckFrame(c, s, e.lost, k, i); } else { MessageSteady(c, s, e, k, i, Explosion); }
  }

  /** A player whose tank has blown up has a new one before the wreck's clock has run out. */
  lemma {:induction false} RespawnInTime(c: Config, powerups: seq<PowerSpawn>, states: seq<State>, inputs: seq<Input>,
                                         k: nat, a: nat, b: nat, i: nat)
    requires ValidConfig(c) && Tenure(c, powerups, states, inputs, k, a, b) && Holds(states[a], k, i, Explosion)
    requires forall n :: a <= n <= b ==> Tank !in states[n].dropped
    requires Ticks(inputs, a, b) > states[a].objs[i].value.ttl
    ensures exists n :: a < n <= b && Drives(states[n], k)
    decreases b - a
  {
    RunBoundary(c, powerups, states, inputs, a);
    HeldSane(states[a], k, i, Explosion);
    TenureStep(c, powerups, states, inputs, k, a, b, a);
    TicksFirst(inputs, a, b);
    WreckStep(c, states[a], inputs[a], k, i);
    hide Step, Tenure, Boundary;
    if !Drives(states[a + 1], k) {
      RespawnInTime(c, powerups, states, inputs, k, a + 1, b, i);
    }
  }

  /** From the frame that destroys the tank on, sixteen frames are enough for a new tank. */
  lemma {:induction false} RespawnWithinSixteen(c: Config, powerups: seq<PowerSpawn>, states: seq<State>,
                                                inputs: seq<Input>, k: nat, a: nat, b: nat, i: nat)
    requires ValidConfig(c) && Tenure(c, powerups, states, inputs, k, a, b) && Holds(states[a], k, i, Explosion)
    requires forall n :: a <= n <= b ==> Tank !in states[n].dropped
    requires Ticks(inputs, a, b) >= 16
    ensures exists n :: a < n <= b && Drives(states[n], k)
  {
    RunBoundary(c, powerups, states, inputs, a);
    HeldSane(states[a], k, i, Explosion);
    RespawnInTime(c, powerups, states, inputs, k, a, b, i);
  }

  /** The tank in slot `i` shoots in the frame that starts in this state. */
  predicate Shoots(s: State, i: nat) {
    i < MAXOBJS && s.objs[i].Some? && s.objs[i].value.ttl != 0 && Fires(Steer(Timers(s.objs[i].value)))
  }

  lemma GunStep(c: Config, s: State, e: Input, k: nat, i: nat)
    requires ValidConfig(c) && Boundary(s) && Allowed(s, e) && Holds(s, k, i, Tank) && Holds(Step(c, s, e), k, i, Tank)
    requires !Step(c, s, e).players[k].value.flags.spectator
    ensures var was, now := s.objs[i].value.cooldown, Step(c, s, e).objs[i].value.cooldown;
            && (e.Tick? && Shoots(s, i) ==> was == 0 && now == 17)
            && (e.Tick? && !Shoots(s, i) ==> now == if was > 0 then was - 1 else 0)
            && (!e.Tick? ==> now == was)
  {
    HeldSane(s, k, i, Tank);
    if e.Tick? {
      TankFrame(c, s, e.lost, k, i);
      GunUpdated(s.objs[i].value);
    } else {
      MessageSteady(c, s, e, k, i, Tank);
    }
  }

  lemma GunUpdated(o: Obj)
    requires Sane(o) && o.kind == Tank
    ensures if Fires(Steer(Timers(o))) then o.cooldown == 0 && Updated(o).cooldown == 17
            else Updated(o).cooldown == if o.cooldown > 0 then o.cooldown - 1 else 0
  {
  }

  /** Player `k` drives the same tank, in slot `i`, from state `a` to state `b`. */
  ghost predicate Drive(c: Config, powerups: seq<PowerSpawn>, states: seq<State>, inputs: seq<Input>, k: nat, a: nat,
                        b: nat, i: nat)
    requires ValidConfig(c)
  {
    Tenure(c, powerups, states, inputs, k, a, b) && forall n :: a <= n <= b ==> Holds(states[n], k, i, Tank)
  }

  function Heat(states: seq<State>, n: nat, i: nat): int
    requires n < |states|
  {
    if i < MAXOBJS && states[n].objs[i].Some? then states[n].objs[i].value.cooldown else 0
  }

  function TickAt(inputs: seq<Input>, n: nat): int
    requires n < |inputs|
  {
    if inputs[n].Tick? then 1 else 0
  }

  lemma GunCools(c: Config, powerups: seq<PowerSpawn>, states: seq<State>, inputs: seq<Input>, k: nat, a: nat, b: nat,
                 i: nat, n: nat)
    requires ValidConfig(c) && Drive(c, powerups, states, inputs, k, a, b, i) && a <= n < b
    ensures Heat(states, n + 1, i) >= Heat(states, n, i) - TickAt(inputs, n)
    ensures inputs[n].Tick? && Shoots(states[n], i) ==> Heat(states, n + 1, i) == 17
  {
    TenureStep(c, powerups, states, inputs, k, a, b, n);
    assert forall m :: m == n || m == n + 1 ==> Holds(states[m], k, i, Tank);
    HeldSane(states[n], k, i, Tank);
    GunStep(c, states[n], inputs[n], k, i);
  }

  /** After a shot the gun is still hot by what is left of eighteen frames. */
  lemma {:induction false} GunHot(c: Config, powerups: seq<PowerSpawn>, states: seq<State>, inputs: seq<Input>, k: nat,
                                  a: nat, b: nat, i: nat, n: nat)
    requires ValidConfig(c) && Drive(c, powerups, states, inputs, k, a, b, i) && a < n <= b
    requires inputs[a].Tick? && Shoots(states[a], i)
    ensures Heat(states, n, i) + Ticks(inputs, a, n) >= 18
    decreases n
  {
    hide Drive, Shoots, Heat;
    GunCools(c, powerups, states, inputs, k, a, b, i, n - 1);
    if a < n - 1 {
      GunHot(c, powerups, states, inputs, k, a, b, i, n - 1);
    }
  }

  /** Two shots from one tank are at least eighteen frames apart. */
  lemma ShotsApart(c: Config, powerups: seq<PowerSpawn>, states: seq<State>, inputs: seq<Input>, k: nat, a: nat,
                   b: nat, i: nat)
    requires ValidConfig(c) && Drive(c, powerups, states, inputs, k, a, b, i) && a < b < |inputs|
    requires inputs[a].Tick? && Shoots(states[a], i) && inputs[b].Tick? && Shoots(states[b], i)
    ensures Ticks(inputs, a, b) >= 18
  {
    GunHot(c, powerups, states, inputs, k, a, b, i, b);
    RunBoundary(c, powerups, states, inputs, b);
    assert Holds(states[b], k, i, Tank);
    HeldSane(states[b], k, i, Tank);
    GunUpdated(states[b].objs[i].value);
  }
}
