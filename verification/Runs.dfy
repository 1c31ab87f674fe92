/** The whole run: what holds between any two steps, from start-up on. */
module Runs {
  import opened CtfServ
  import opened Game
  import opened Matchmake
  import opened GameInvariant
  import opened FrameInvariant
  import opened LeavingInvariant
  import opened RunInvariant

  /** What holds at every frame boundary, and between messages. */
  ghost predicate Boundary(s: State) {
    var all := Inv(s, MAXOBJS, MAXOBJS, -1) && !s.gameOver && NoneDead(s.players, MAXCLIENTS);
    all
  }

  // ---- a fresh game

  predicate Ready(powerups: seq<PowerSpawn>) {
    forall n :: 0 <= n < |powerups| ==>
      && (powerups[n].kind == Fuel || powerups[n].kind == Ammo)
      && MINPWRCOOLDOWN <= powerups[n].cooldown < MAXPWRCOOLDOWN
  }

  lemma NewFlags(c: Config, s: State)
    requires ValidConfig(c) && s.objs == NoObjs()
    ensures var f0 := NewObject(Flag, 0, HomeX(c, 0), HomeY(c, 0), NoDestructor);
            var f1 := NewObject(Flag, 1, HomeX(c, 1), HomeY(c, 1), NoDestructor);
            CreateFlags(c, s) == s.(objs := NoObjs()[0 := Some(f0)][1 := Some(f1)])
  {
    var f0 := NewObject(Flag, 0, HomeX(c, 0), HomeY(c, 0), NoDestructor);
    assert FirstFree(NoObjs(), 0) == 0;
    var o1 := NoObjs()[0 := Some(f0)];
    assert FirstFree(o1, 0) == FirstFree(o1, 1) == 1;
  }

  lemma FreshBoundary(c: Config, s: State)
    requires ValidConfig(c) && s.objs == NoObjs() && !s.gameOver && s.dropped == {} && s.playerCount == 0
        && Ready(s.powerups)
    requires OnlySpectators(s.players, MAXCLIENTS) && NoneDead(s.players, MAXCLIENTS) && Numbered(s.players)
    requires forall k :: 0 <= k < MAXCLIENTS && s.players[k].Some? ==>
        s.players[k].value.team <= 2 && s.players[k].value.tank == None && !s.players[k].value.flags.matchmaking
    ensures Boundary(CreateFlags(c, s))
  {
    NewFlags(c, s);
    var s' := CreateFlags(c, s);
    assert FlagAt(s'.objs, 0, 0) && FlagAt(s'.objs, 1, 1);
    SpectatorsOnly(s.players, 0);
    forall i | 0 <= i < MAXOBJS ensures SlotOk(s', MAXOBJS, MAXOBJS, i) {}
    forall k | 0 <= k < MAXCLIENTS ensures PlayerOk(s', MAXOBJS, -1, k) {}
    forall n | 0 <= n < |s'.powerups| ensures SpawnerOk(s', n) {}
  }

  lemma SpectatorsOnly(players: PlayerList, k: nat)
    requires k <= MAXCLIENTS && OnlySpectators(players, MAXCLIENTS)
    ensures PlayersFrom(players, k) == 0
    decreases MAXCLIENTS - k
  {
    if k < MAXCLIENTS { SpectatorsOnly(players, k + 1); }
  }

  lemma InitBoundary(c: Config, powerups: seq<PowerSpawn>)
    requires ValidConfig(c) && Ready(powerups)
    ensures Boundary(Init(c, powerups))
  {
    FreshBoundary(c, Cleared(c, State(NoObjs(), NoPlayers(), powerups, (0, 0), 0, false, false, c.timeLimit, 0, {})));
  }

  /** Restarting every spawn point changes nothing but the cooldowns. */
  lemma RestartAllReady(c: Config, s: State, n: nat)
    requires n <= |s.powerups| && Ready(s.powerups[..n])
    requires forall m :: 0 <= m < |s.powerups| ==> s.powerups[m].kind == Fuel || s.powerups[m].kind == Ammo
    ensures Ready(RestartAll(c, s, n).powerups)
    ensures RestartAll(c, s, n) == s.(powerups := RestartAll(c, s, n).powerups, draws := RestartAll(c, s, n).draws)
    decreases |s.powerups| - n
  {
    if n < |s.powerups| {
      CooldownRange(c.rand(s.draws));
      RestartAllReady(c, RestartSpawn(c, s, n), n + 1);
    }
  }

  lemma RestartCommutes(c: Config, s: State, n: nat)
    requires ValidConfig(c) && n <= |s.powerups| && s.objs == NoObjs()
    ensures RestartAll(c, CreateFlags(c, s), n) == CreateFlags(c, RestartAll(c, s, n))
    decreases |s.powerups| - n
  {
    NewFlags(c, s);
    if n < |s.powerups| {
      NewFlags(c, RestartSpawn(c, s, n));
      RestartCommutes(c, RestartSpawn(c, s, n), n + 1);
    }
  }

  lemma ResetBoundary(c: Config, s: State)
    requires ValidConfig(c) && Inv(s, MAXOBJS, MAXOBJS, -1)
    ensures Boundary(ResetGame(c, s))
  {
    EvictInv(s, 0);
    var s1 := EvictFrom(s, 0);
    var s2 := Cleared(c, s1);
    Survivors(s1);
    forall m | 0 <= m < |s2.powerups| ensures s2.powerups[m].kind == Fuel || s2.powerups[m].kind == Ammo {
      assert SpawnerOk(s1, m);
    }
    RestartAllReady(c, s2, 0);
    RestartCommutes(c, s2, 0);
    FreshBoundary(c, RestartAll(c, s2, 0));
  }

  /** Exactly the spectators are left, each as before but for the number. */
  predicate OnlyWatchers(players: PlayerList, players': PlayerList) {
    forall k :: 0 <= k < MAXCLIENTS ==>
      && (players'[k].Some? <==> players[k].Some? && players[k].value.flags.spectator)
      && (players'[k].Some? ==> SameButNumber(players[k].value, players'[k].value))
  }

  /** Players from slot `k` on are yet to be evicted. */
  predicate Evicting(players: PlayerList, players': PlayerList, k: nat) {
    forall j :: 0 <= j < MAXCLIENTS ==>
      && (players'[j].Some? <==> players[j].Some? && (j >= k || players[j].value.flags.spectator))
      && (players'[j].Some? ==> SameButNumber(players[j].value, players'[j].value))
  }

  lemma {:induction false} EvictKeeps(players: PlayerList, s: State, k: nat)
    requires k <= MAXCLIENTS && Inv(s, MAXOBJS, MAXOBJS, -1) && Evicting(players, s.players, k)
    ensures var e := EvictFrom(s, k);
            OnlyWatchers(players, e.players) && e.powerups == s.powerups && e.draws == s.draws
    decreases MAXCLIENTS - k
  {
    if k < MAXCLIENTS {
      hide Inv, RemoveClient;
      if s.players[k].Some? && !s.players[k].value.flags.spectator {
        RemoveInv(s, MAXOBJS, MAXOBJS, k);
        RemovedPlayers(s, k);
        RemovedTeams(s, k);
        EvictKeeps(players, RemoveClient(s, k), k + 1);
      } else {
        EvictKeeps(players, s, k + 1);
      }
    }
  }

  lemma RemovedTeams(s: State, k: nat)
    requires k < MAXCLIENTS && s.players[k].Some? && Inv(s, MAXOBJS, MAXOBJS, -1)
    ensures SameTeams(s.players[k := None], Ordered(s.players[k := None]))
  {
    TeamedPlayers(s, MAXOBJS, -1);
    OrderedTeams(s.players[k := None]);
  }

  lemma {:induction false} RestartAllDraws(c: Config, s: State, n: nat)
    requires n <= |s.powerups|
    ensures var r := RestartAll(c, s, n);
            && r == s.(powerups := r.powerups, draws := s.draws + |s.powerups| - n) && |r.powerups| == |s.powerups|
            && (forall m :: 0 <= m < n ==> r.powerups[m] == s.powerups[m])
            && forall m :: n <= m < |s.powerups| ==>
                 r.powerups[m] == s.powerups[m].(cooldown := Cooldown(c.rand(s.draws + m - n)))
    decreases |s.powerups| - n
  {
    if n < |s.powerups| {
      hide Cooldown;
      RestartAllDraws(c, RestartSpawn(c, s, n), n + 1);
    }
  }

  /** A reset is a fresh start: the list, the score and the clock are as after start-up, exactly
      the spectators stay, and every spawn point draws a new cooldown of 240 to 719 frames. */
  lemma ResetFresh(c: Config, s: State)
    requires ValidConfig(c) && Inv(s, MAXOBJS, MAXOBJS, -1)
    ensures var r := ResetGame(c, s);
            && r == Init(c, r.powerups).(players := r.players, draws := s.draws + |s.powerups|)
            && OnlyWatchers(s.players, r.players) && |r.powerups| == |s.powerups|
            && forall m :: 0 <= m < |s.powerups| ==>
                 && r.powerups[m] == s.powerups[m].(cooldown := Cooldown(c.rand(s.draws + m)))
                 && MINPWRCOOLDOWN <= r.powerups[m].cooldown < MAXPWRCOOLDOWN
  {
    hide Inv, EvictFrom, RestartAll, Cooldown, CreateFlags;
    EvictKeeps(s.players, s, 0);
    var s2 := Cleared(c, EvictFrom(s, 0));
    RestartCommutes(c, s2, 0);
    RestartAllDraws(c, s2, 0);
    var r := RestartAll(c, s2, 0);
    NewFlags(c, r);
    NewFlags(c, Cleared(c, State(NoObjs(), NoPlayers(), r.powerups, (0, 0), 0, false, false, c.timeLimit, 0, {})));
    forall m | 0 <= m < |s2.powerups| ensures MINPWRCOOLDOWN <= r.powerups[m].cooldown < MAXPWRCOOLDOWN {
      CooldownRange(c.rand(s.draws + m));
    }
  }

  lemma Survivors(s: State)
    requires Inv(s, MAXOBJS, MAXOBJS, -1) && OnlySpectators(s.players, MAXCLIENTS)
    ensures NoneDead(s.players, MAXCLIENTS) && Numbered(s.players)
    ensures forall k :: 0 <= k < MAXCLIENTS && s.players[k].Some? ==>
        s.players[k].value.team <= 2 && s.players[k].value.tank == None && !s.players[k].value.flags.matchmaking
  {
    forall k | 0 <= k < MAXCLIENTS && s.players[k].Some?
      ensures s.players[k].value.team <= 2 && s.players[k].value.tank == None && !s.players[k].value.flags.dead
          && !s.players[k].value.flags.matchmaking
    {
      assert PlayerOk(s, MAXOBJS, -1, k);
    }
  }

  // ---- one frame

  lemma StartFrame(s: State)
    requires Boundary(s)
    ensures Inv(s, 0, 0, -1) && Calm(s.objs)
  {
    forall i | 0 <= i < MAXOBJS ensures SlotOk(s, 0, 0, i) { assert SlotOk(s, MAXOBJS, MAXOBJS, i); }
    forall k | 0 <= k < MAXCLIENTS ensures PlayerOk(s, 0, -1, k) { assert PlayerOk(s, MAXOBJS, -1, k); }
    forall i | 0 <= i < MAXOBJS && s.objs[i].Some? ensures Quiet(s.objs[i].value) {
      assert SlotOk(s, MAXOBJS, MAXOBJS, i);
    }
  }

  lemma UpdatesInv(c: Config, s: State)
    requires ValidConfig(c) && Inv(s, 0, 0, -1) && Calm(s.objs)
    ensures Inv(DoObjectUpdates(c, s), MAXOBJS, 0, -1)
  {
    UpdateInv(s, -1, 0);
    SpawnTicksInv(UpdateFrom(s, 0), -1, 0);
    var s1 := SpawnTicks(UpdateFrom(s, 0), 0);
    MapInv(c, s1, 0);
    PairsInv(c, MapFrom(c, s1, 0), 0, 1);
    DestructInv(c, CollisionDetect(c, s1), 0);
  }

  lemma FrameBoundary(c: Config, s: State, lost: set<nat>)
    requires ValidConfig(c) && Boundary(s)
    ensures Boundary(Frame(c, s, lost))
  {
    StartFrame(s);
    UpdatesInv(c, s);
    var s1 := DoObjectUpdates(c, s);
    ViewsInv(s1, MAXOBJS, 0, -1, 0);
    var s2 := ViewsFrom(s1, 0);
    TimeTickInv(c, s2, -1);
    SendInv(TimeTick(c, s2), lost, 0);
    var s3 := SendFrom(TimeTick(c, s2), lost, 0);
    CleanInv(c, s3, 0);
    BuryInv(CleanFrom(c, s3, 0), 0);
    FinishBoundary(c, BuryFrom(CleanFrom(c, s3, 0), 0));
  }

  lemma FinishBoundary(c: Config, s: State)
    requires ValidConfig(c) && Inv(s, MAXOBJS, MAXOBJS, -1) && NoneDead(s.players, MAXCLIENTS)
    ensures Boundary(FinishFrame(c, s))
  {
    if s.running && s.playerCount == 0 {
      InvPlayers(s, s.(gameOver := true), MAXOBJS, MAXOBJS, -1);
      ResetBoundary(c, s.(gameOver := true));
    } else if s.gameOver {
      ResetBoundary(c, s);
    }
  }

  // ---- messages from clients

  /** Player `k` joins without a tank, or changes teams. */
  lemma Reseat(s: State, s': State, k: nat)
    requires k < MAXCLIENTS && Boundary(s)
    requires s' == s.(players := s'.players, playerCount := s'.playerCount) && Roster(s'.players, s'.playerCount)
    requires SameTeams(s.players[k := None], s'.players[k := None]) && s'.players[k].Some?
    requires var q := s'.players[k].value;
             && q.team <= 2 && !q.flags.dead && (q.flags.spectator ==> !q.flags.matchmaking)
             && q.tank == (if s.players[k].Some? then s.players[k].value.tank else None)
                 && (q.tank.Some? ==> q.team < 2)
    requires s.players[k].Some? ==> s.players[k].value.flags.spectator == s'.players[k].value.flags.spectator
    ensures Boundary(s')
  {
    assert forall j :: 0 <= j < MAXCLIENTS && j != k ==>
        s.players[j] == s.players[k := None][j] && s'.players[j] == s'.players[k := None][j];
    forall i | 0 <= i < MAXOBJS ensures SlotOk(s', MAXOBJS, MAXOBJS, i) { assert SlotOk(s, MAXOBJS, MAXOBJS, i); }
    forall j | 0 <= j < MAXCLIENTS ensures PlayerOk(s', MAXOBJS, -1, j) { assert PlayerOk(s, MAXOBJS, -1, j); }
    KeepSpawners(s, s');
  }

  /** Renumbering after seating `q` in slot `k` changes no other player but for the number. */
  lemma SeatOrdered(players: PlayerList, k: nat, q: Player)
    requires k < MAXCLIENTS && Teamed(players) && q.team <= 2
    ensures var seated := players[k := Some(q)];
            && SameTeams(players[k := None], Ordered(seated)[k := None])
            && Numbered(Ordered(seated)) && PlayersFrom(Ordered(seated), 0) == PlayersFrom(seated, 0)
            && Ordered(seated)[k].Some? && SameButNumber(q, Ordered(seated)[k].value)
  {
    OrderedTeams(players[k := Some(q)]);
    SameTeamsCount(players[k := Some(q)], Ordered(players[k := Some(q)]));
  }

  lemma SeatCount(players: PlayerList, k: nat, q: Player)
    requires k < MAXCLIENTS && players[k] == None
    ensures PlayersFrom(players[k := Some(q)], 0) == PlayersFrom(players, 0) + if q.flags.spectator then 0 else 1
  {
    CountWithout(players[k := Some(q)], k, 0);
    assert players[k := Some(q)][k := None] == players;
  }

  lemma JoinInv(c: Config, s: State, k: nat, spectator: bool)
    requires ValidConfig(c) && k < MAXCLIENTS && s.players[k] == None && Boundary(s)
    ensures Boundary(MakeNewPlayer(c, s, k, spectator))
  {
    var q := NewPlayer(c, spectator);
    TeamedPlayers(s, MAXOBJS, -1);
    SeatCount(s.players, k, q);
    SeatOrdered(s.players, k, q);
    SameTeamsSelf(s.players[k := None]);
    assert s.players[k := Some(q)][k := None] == s.players[k := None];
    hide Ordered, SameTeams;
    Reseat(s, MakeNewPlayer(c, s, k, spectator), k);
  }

  lemma TeamInv(s: State, k: nat, team: nat)
    requires k < MAXCLIENTS && s.players[k].Some? && team <= 2 && Boundary(s)
    requires s.players[k].value.tank == None || team < 2
    ensures Boundary(s.(players := Ordered(s.players[k := Some(s.players[k].value.(team := team))])))
  {
    var q := s.players[k].value.(team := team);
    TeamedPlayers(s, MAXOBJS, -1);
    assert PlayerOk(s, MAXOBJS, -1, k);
    SameNumbers(s.players, s.players[k := Some(q)], 0);
    SeatOrdered(s.players, k, q);
    hide Ordered, SameTeams;
    Reseat(s, s.(players := Ordered(s.players[k := Some(q)])), k);
  }

  lemma LeaveStandings(players: PlayerList, k: nat)
    requires k <= MAXCLIENTS
    requires forall j :: 0 <= j < MAXCLIENTS && players[j].Some? && players[j].value.flags.matchmaking ==>
        !players[j].value.flags.spectator
    ensures SameStandings(players, LeaveMatchmaking(players, k))
    ensures forall j :: 0 <= j < MAXCLIENTS && players[j].Some? && LeaveMatchmaking(players, k)[j].value.flags.dead ==>
        players[j].value.flags.dead
    decreases MAXCLIENTS - k
  {
    if k < MAXCLIENTS {
      if players[k].Some? && players[k].value.flags.matchmaking {
        var p := players[k].value.(flags := PlayerFlags(false, false, false, false, true, false));
        LeaveStandings(players[k := Some(p)], k + 1);
      } else {
        LeaveStandings(players, k + 1);
      }
    }
  }

  lemma SpawnStep(c: Config, s: State, k: nat)
    requires ValidConfig(c) && k < MAXCLIENTS && s.players[k].Some? && Boundary(s)
    requires s.players[k].value.tank == None && s.players[k].value.team < 2 && !s.players[k].value.flags.spectator
    ensures Boundary(SpawnPlayer(c, s, k).(running := true))
  {
    ExemptPlayer(s, MAXOBJS, MAXOBJS, k);
    forall i | 0 <= i < MAXOBJS && s.objs[i].Some?
        && (s.objs[i].value.kind == Tank || s.objs[i].value.kind == Explosion)
      ensures s.objs[i].value.owner != k { assert SlotOk(s, MAXOBJS, MAXOBJS, i); }
    SpawnInv(c, s, MAXOBJS, k);
    SameGame(SpawnPlayer(c, s, k), SpawnPlayer(c, s, k).(running := true), MAXOBJS, MAXOBJS, -1);
  }

  lemma ControlStep(s: State, k: nat, ctrls: Ctrls)
    requires k < MAXCLIENTS && s.players[k].Some? && Boundary(s) && TankOf(s, s.players[k].value).Some?
    ensures Boundary(Put(s, s.players[k].value.tank.value, TankOf(s, s.players[k].value).value.(ctrls := ctrls)))
  {
    var t := s.players[k].value.tank.value;
    assert PlayerOk(s, MAXOBJS, -1, k) && SlotOk(s, MAXOBJS, MAXOBJS, t);
    PutTame(s, MAXOBJS, MAXOBJS, -1, t, s.objs[t].value.(ctrls := ctrls));
  }

  lemma LeaveStep(s: State, k: nat)
    requires k < MAXCLIENTS && s.players[k].Some? && Boundary(s)
    ensures Boundary(RemoveClient(s, k))
  {
    RemoveInv(s, MAXOBJS, MAXOBJS, k);
    RemoveFrame(s, MAXOBJS, MAXOBJS, k);
  }

  /** A player whose standing does not change. */
  lemma TouchStep(s: State, k: nat, q: Player)
    requires k < MAXCLIENTS && s.players[k].Some? && Boundary(s)
    requires SameStanding(s.players[k].value, q) && !q.flags.dead
    ensures Boundary(PutPlayer(s, k, q))
  {
    InvPlayers(s, PutPlayer(s, k, q), MAXOBJS, MAXOBJS, -1);
  }

  lemma StopStep(s: State)
    requires Boundary(s)
    ensures Boundary(s.(players := LeaveMatchmaking(s.players, 0)))
  {
    forall j | 0 <= j < MAXCLIENTS && s.players[j].Some? && s.players[j].value.flags.matchmaking
      ensures !s.players[j].value.flags.spectator { assert PlayerOk(s, MAXOBJS, -1, j); }
    LeaveStandings(s.players, 0);
    InvPlayers(s, s.(players := LeaveMatchmaking(s.players, 0)), MAXOBJS, MAXOBJS, -1);
  }

  lemma ClientBoundary(c: Config, s: State, k: nat, e: Input)
    requires ValidConfig(c) && Connected(s, k) && Boundary(s) && Allowed(s, e)
    requires !e.Hello? && !e.Tick? && e.k == k
    ensures Boundary(ClientStep(c, s, k, e))
  {
    var p := s.players[k].value;
    match e
    case Start(_) => if !p.flags.spectator { SpawnStep(c, s, k); }
    case Control(_, ctrls) => if TankOf(s, p).Some? { ControlStep(s, k, ctrls); }
    case Bye(_) => LeaveStep(s, k);
    case PingOut(_) => LeaveStep(s, k);
    case ClientReady(_) => TouchStep(s, k, p.(flags := p.flags.(running := true)));
    case ViewportMsg(_, view) => TouchStep(s, k, p.(view := view, flags := p.flags.(newView := true)));
    case TeamRequest(_, team) => if team <= 2 { TeamInv(s, k, team); }
    case MatchStart(_) => TouchStep(s, k, p.(flags := p.flags.(matchmaking := true)));
    case MatchStop(_) => StopStep(s);
    case MatchReady(_) => if p.team < 2 { TouchStep(s, k, p.(flags := p.flags.(ready := true))); }
  }

  lemma StepBoundary(c: Config, s: State, e: Input)
    requires ValidConfig(c) && Boundary(s) && Allowed(s, e)
    ensures Boundary(Step(c, s, e))
  {
    match e
    case Hello(spectator) =>
      var k := FirstSlot(s.players, 0);
      if k < MAXCLIENTS { JoinInv(c, s, k, spectator); }
    case Tick(lost) => FrameBoundary(c, s, lost);
    case _ => if Connected(s, e.k) { ClientBoundary(c, s, e.k, e); }
  }

  /** Every state of every run that starts from a fresh game keeps the boundary invariant. */
  lemma {:induction false} RunBoundary(c: Config, powerups: seq<PowerSpawn>, states: seq<State>, inputs: seq<Input>,
                                       n: nat)
    requires ValidConfig(c) && Ready(powerups) && Run(c, states, inputs) && states[0] == Init(c, powerups)
        && n < |states|
    ensures Boundary(states[n])
  {
    if n == 0 {
      InitBoundary(c, powerups);
    } else {
      RunBoundary(c, powerups, states, inputs, n - 1);
      StepBoundary(c, states[n - 1], inputs[n - 1]);
    }
  }
}
