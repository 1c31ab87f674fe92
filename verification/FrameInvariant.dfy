/** Each stage of a frame, and each client message, keeps the invariant. */
module FrameInvariant {
  import opened CtfServ
  import opened Vectors
  import opened Game
  import opened Matchmake
  import opened GameInvariant

  // ---- powerup spawners

  lemma SpawnTickInv(s: State, x: int, n: nat)
    requires n < |s.powerups| && Inv(s, 0, 0, x)
    ensures Inv(SpawnTick(s, n), 0, 0, x)
    ensures |SpawnTick(s, n).powerups| == |s.powerups|
  {
    var sp := s.powerups[n];
    assert SpawnerOk(s, n);
    var o := NewObject(sp.kind, -1, sp.x, sp.y, ResetSpawn(n));
    var s1 := if sp.cooldown == 1 then AddObject(s, o) else s;
    AddKeeps(s, o);
    var s' := SpawnTick(s, n);
    if sp.cooldown != 0 {
      NoneSpawned(s, x, n);
      TickedSlots(s, x, n);
      KeepPlayers(s, s', 0, x);
      SpawnersTicked(s, s1, n);
      KeepFlag(s.objs, s'.objs, 0);
      KeepFlag(s.objs, s'.objs, 1);
      SingletonAdded(s.objs, FirstFree(s.objs, 0), o);
    }
  }

  lemma TickedSlots(s: State, x: int, n: nat)
    requires n < |s.powerups| && Inv(s, 0, 0, x) && s.powerups[n].cooldown != 0
    ensures SlotsOk(SpawnTick(s, n), 0, 0)
  {
    hide SpawnTick;
    NoneSpawned(s, x, n);
    forall i | 0 <= i < MAXOBJS ensures SlotOk(SpawnTick(s, n), 0, 0, i) {
      assert SlotOk(s, 0, 0, i) && SpawnerOk(s, n);
      TickedSlot(s, n, i);
    }
  }

  lemma TickedSlot(s: State, n: nat, i: nat)
    requires n < |s.powerups| && s.powerups[n].cooldown != 0 && SpawnerOk(s, n)
    requires i < MAXOBJS && SlotOk(s, 0, 0, i) && !SpawnedBy(s.objs, n, i)
    ensures SlotOk(SpawnTick(s, n), 0, 0, i)
  {
    var sp := s.powerups[n];
    AddKeeps(s, NewObject(sp.kind, -1, sp.x, sp.y, ResetSpawn(n)));
  }

  /** While a spawn point cools down it has no powerup on the map. */
  lemma NoneSpawned(s: State, x: int, n: nat)
    requires n < |s.powerups| && Inv(s, 0, 0, x) && s.powerups[n].cooldown != 0
    ensures forall i :: 0 <= i < MAXOBJS ==> !SpawnedBy(s.objs, n, i)
  {
    forall i | 0 <= i < MAXOBJS ensures !SpawnedBy(s.objs, n, i) {
      assert SlotOk(s, 0, 0, i);
    }
  }

  lemma SingletonAdded(objs: ObjList, f: nat, o: Obj)
    requires Singletons(objs) && o.destruct.ResetSpawn?
    requires forall i :: 0 <= i < MAXOBJS ==> !SpawnedBy(objs, o.destruct.spawn, i)
    ensures f < MAXOBJS ==> Singletons(objs[f := Some(o)])
  {
    if f < MAXOBJS {
      var objs' := objs[f := Some(o)];
      forall i, j | 0 <= i < j < MAXOBJS && objs'[i].Some? && objs'[j].Some? && objs'[i].value.destruct.ResetSpawn?
        ensures objs'[i].value.destruct != objs'[j].value.destruct
      {
        assert !SpawnedBy(objs, o.destruct.spawn, i) && !SpawnedBy(objs, o.destruct.spawn, j);
      }
    }
  }

  lemma SpawnersTicked(s: State, s1: State, n: nat)
    requires n < |s.powerups| && s.powerups[n].cooldown != 0
    requires SpawnersOk(s)
    requires s1 == if s.powerups[n].cooldown == 1
        then AddObject(s, NewObject(s.powerups[n].kind, -1, s.powerups[n].x, s.powerups[n].y, ResetSpawn(n))) else s
    ensures SpawnersOk(SpawnTick(s, n))
  {
    var s' := SpawnTick(s, n);
    var o := NewObject(s.powerups[n].kind, -1, s.powerups[n].x, s.powerups[n].y, ResetSpawn(n));
    AddKeeps(s, o);
    forall m | 0 <= m < |s.powerups| ensures SpawnerOk(s', m) {
      assert SpawnerOk(s, m);
      if m == n {
        if s.powerups[n].cooldown == 1 && s.powerups[n].kind !in s'.dropped {
          assert SpawnedBy(s'.objs, n, FirstFree(s.objs, 0));
        }
      } else if s.powerups[m].cooldown == 0 && s.powerups[m].kind !in s.dropped {
        var i :| 0 <= i < MAXOBJS && SpawnedBy(s.objs, m, i);
        assert SpawnedBy(s'.objs, m, i);
      }
    }
  }

  lemma SpawnTicksInv(s: State, x: int, n: nat)
    requires n <= |s.powerups| && Inv(s, 0, 0, x)
    ensures Inv(SpawnTicks(s, n), 0, 0, x)
    decreases |s.powerups| - n
  {
    if n < |s.powerups| {
      SpawnTickInv(s, x, n);
      SpawnTicksInv(SpawnTick(s, n), x, n + 1);
    }
  }

  // ---- players who keep their standing

  predicate SameStanding(p: Player, q: Player) {
    && q.tank == p.tank && q.team == p.team && q.lives == p.lives && q.playernum == p.playernum
    && q.flags.spectator == p.flags.spectator
    && (q.flags.matchmaking && q.flags.spectator ==> p.flags.matchmaking)
  }

  predicate SameStandings(players: PlayerList, players': PlayerList) {
    forall k :: 0 <= k < MAXCLIENTS ==>
      && (players[k].Some? <==> players'[k].Some?)
      && (players[k].Some? ==> SameStanding(players[k].value, players'[k].value))
  }

  /** Dead players stay dead unless the match has ended. */
  lemma InvPlayers(s: State, s': State, b: nat, c: nat, x: int)
    requires Inv(s, b, c, x)
    requires s' == s.(players := s'.players, gameOver := s'.gameOver) && SameStandings(s.players, s'.players)
    requires s.gameOver ==> s'.gameOver
    requires forall k :: 0 <= k < MAXCLIENTS && s.players[k].Some? ==>
               && (s'.players[k].value.flags.dead ==> s.players[k].value.flags.dead)
               && (s.players[k].value.flags.dead ==> s'.players[k].value.flags.dead || s'.gameOver)
    ensures Inv(s', b, c, x)
  {
    forall i | 0 <= i < MAXOBJS ensures SlotOk(s', b, c, i) {
      assert SlotOk(s, b, c, i);
    }
    forall k | 0 <= k < MAXCLIENTS ensures PlayerOk(s', b, x, k) {
      assert PlayerOk(s, b, x, k);
    }
    KeepSpawners(s, s');
    SameNumbers(s.players, s'.players, 0);
  }

  /** Scores, the clock and the random stream do not matter to the invariant. */
  lemma SameGame(s: State, s': State, b: nat, c: nat, x: int)
    requires Inv(s, b, c, x)
    requires s' == s.(teamscore := s'.teamscore, running := s'.running, timeRemaining := s'.timeRemaining,
        draws := s'.draws)
    ensures Inv(s', b, c, x)
  {
    forall i | 0 <= i < MAXOBJS ensures SlotOk(s', b, c, i) { assert SlotOk(s, b, c, i); }
    KeepPlayers(s, s', b, x);
    KeepSpawners(s, s');
  }

  lemma EndMatchPlayers(players: PlayerList, k: nat)
    requires k <= MAXCLIENTS
    ensures SameStandings(players, EndMatchFrom(players, k))
    ensures forall j :: 0 <= j < MAXCLIENTS && players[j].Some? && EndMatchFrom(players, k)[j].value.flags.dead ==>
        players[j].value.flags.dead
    decreases MAXCLIENTS - k
  {
    if k < MAXCLIENTS {
      if players[k].Some? && !players[k].value.flags.spectator {
        EndMatchPlayers(players[k := Some(Quit(players[k].value, false))], k + 1);
      } else {
        EndMatchPlayers(players, k + 1);
      }
    }
  }

  lemma EndMatchInv(s: State, b: nat, c: nat, x: int)
    requires Inv(s, b, c, x)
    ensures Inv(EndMatch(s), b, c, x)
  {
    EndMatchPlayers(s.players, 0);
    InvPlayers(s, EndMatch(s), b, c, x);
  }

  lemma ViewsInv(s: State, b: nat, c: nat, x: int, k: nat)
    requires k <= MAXCLIENTS && Inv(s, b, c, x)
    ensures Inv(ViewsFrom(s, k), b, c, x)
    decreases MAXCLIENTS - k
  {
    if k < MAXCLIENTS {
      if s.players[k] == None {
        ViewsInv(s, b, c, x, k + 1);
      } else {
        var s1 := PutPlayer(s, k, ViewTick(s.players[k].value, TankOf(s, s.players[k].value)));
        InvPlayers(s, s1, b, c, x);
        ViewsInv(s1, b, c, x, k + 1);
      }
    }
  }

  lemma TimeTickInv(c: Config, s: State, x: int)
    requires Inv(s, MAXOBJS, 0, x)
    ensures Inv(TimeTick(c, s), MAXOBJS, 0, x)
  {
    var s1 := s.(timeRemaining := s.timeRemaining - 1);
    if c.timeLimit > -1 && s.running {
      SameGame(s, s1, MAXOBJS, 0, x);
      if s1.timeRemaining == 0 {
        EndMatchInv(s1, MAXOBJS, 0, x);
        assert TimeTick(c, s) == EndMatch(s1);
      } else {
        assert TimeTick(c, s) == s1;
      }
    }
  }

  // ---- walls and flags

  lemma CrashSane(c: Config, o: Obj)
    requires ValidConfig(c) && Sane(o)
    ensures Sane(Crash(c, o)) && SameRole(o, Crash(c, o))
  {
  }

  /** Putting a carried flag down again, once another of its kind lies in slot `f`. */
  lemma DropFlag(s: State, b: nat, c: nat, x: int, i: nat, f: nat)
    requires i < MAXOBJS && s.objs[i].Some? && Inv(s, b, c, x)
    requires s.objs[i].value.flags.hasFlag
    requires Flag in s.dropped || (f < MAXOBJS && f != i && FlagAt(s.objs, OtherTeam(s.objs[i].value.team), f))
    ensures Inv(Put(s, i, Dropped(s.objs[i].value)), b, c, x)
  {
    var o := s.objs[i].value;
    var s' := Put(s, i, Dropped(o));
    assert SlotOk(s, b, c, i);
    DropKeeps(s.objs, i, Dropped(o));
    DropSlots(s, b, c, i);
    KeepPlayers(s, s', b, x);
    KeepSpawners(s, s');
    if Flag !in s.dropped {
      DropFlags(s.objs, i, f);
    }
  }

  lemma DropFlags(objs: ObjList, i: nat, f: nat)
    requires i < MAXOBJS && objs[i].Some? && objs[i].value.kind == Tank && 0 <= objs[i].value.team < 2
    requires f < MAXOBJS && f != i && FlagAt(objs, OtherTeam(objs[i].value.team), f)
    requires FlagKept(objs, 0) && FlagKept(objs, 1)
    ensures FlagKept(objs[i := Some(Dropped(objs[i].value))], 0)
    ensures FlagKept(objs[i := Some(Dropped(objs[i].value))], 1)
  {
    var o := objs[i].value;
    var objs' := objs[i := Some(Dropped(o))];
    DropKeeps(objs, i, Dropped(o));
    KeepFlag(objs, objs', o.team);
    assert FlagAt(objs', OtherTeam(o.team), f);
  }

  lemma DropSlots(s: State, b: nat, c: nat, i: nat)
    requires i < MAXOBJS && s.objs[i].Some? && SlotsOk(s, b, c)
    ensures SlotsOk(Put(s, i, Dropped(s.objs[i].value)), b, c)
  {
    forall j | 0 <= j < MAXOBJS ensures SlotOk(Put(s, i, Dropped(s.objs[i].value)), b, c, j) {
      assert SlotOk(s, b, c, j);
    }
  }

  lemma DropKeeps(objs: ObjList, i: nat, m: Obj)
    requires i < MAXOBJS && objs[i].Some? && m == Dropped(objs[i].value) && objs[i].value.kind == Tank
    ensures forall k, t :: 0 <= k < MAXCLIENTS && TankLink(objs, k, t) ==> TankLink(objs[i := Some(m)], k, t)
    ensures forall n, j :: 0 <= n && 0 <= j < MAXOBJS && SpawnedBy(objs, n, j) ==> SpawnedBy(objs[i := Some(m)], n, j)
    ensures forall j :: 0 <= j < MAXOBJS && FlagAt(objs, m.team, j) ==> FlagAt(objs[i := Some(m)], m.team, j)
    ensures Singletons(objs) ==> Singletons(objs[i := Some(m)])
  {
  }

  lemma CaptureInv(c: Config, s: State, i: nat)
    requires ValidConfig(c) && i < MAXOBJS && s.objs[i].Some? && Inv(s, 0, 0, -1) && s.objs[i].value.flags.hasFlag
    ensures Inv(FlagCaptured(c, s, i), 0, 0, -1)
  {
    var team := s.objs[i].value.team;
    assert 0 <= team < 2 by { assert SlotOk(s, 0, 0, i); }
    var hx, hy := HomeX(c, OtherTeam(team)), HomeY(c, OtherTeam(team));
    HandInInv(s, i, hx, hy);
    EndIfWonInv(c, HandIn(s, i, hx, hy), team);
  }

  lemma EndIfWonInv(c: Config, s: State, team: int)
    requires Inv(s, 0, 0, -1)
    ensures Inv(EndIfWon(c, AddGoal(s, team), team), 0, 0, -1)
  {
    SameGame(s, AddGoal(s, team), 0, 0, -1);
    EndMatchInv(AddGoal(s, team), 0, 0, -1);
  }

  lemma HandInInv(s: State, i: nat, hx: nat, hy: nat)
    requires i < MAXOBJS && s.objs[i].Some? && Inv(s, 0, 0, -1)
    requires s.objs[i].value.flags.hasFlag && 0 <= s.objs[i].value.team < 2
    ensures Inv(HandIn(s, i, hx, hy), 0, 0, -1)
  {
    var other := OtherTeam(s.objs[i].value.team);
    PlaceFlagInv(s, 0, 0, -1, other, hx, hy);
    PlacedFlag(s, other, hx, hy);
    DropFlag(PlaceFlag(s, other, hx, hy), 0, 0, -1, i, FirstFree(s.objs, 0));
  }

  lemma PlacedFlag(s: State, team: int, px: int, py: int)
    ensures forall i :: 0 <= i < MAXOBJS && s.objs[i].Some? ==> PlaceFlag(s, team, px, py).objs[i] == s.objs[i]
    ensures var f, t := FirstFree(s.objs, 0), PlaceFlag(s, team, px, py);
            if f < MAXOBJS then FlagAt(t.objs, team, f) && s.objs[f] == None else Flag in t.dropped
  {
  }

  lemma MapSlotInv(c: Config, s: State, i: nat)
    requires ValidConfig(c) && i < MAXOBJS && Inv(s, 0, 0, -1)
    ensures Inv(MapSlot(c, s, i), 0, 0, -1)
  {
    assert SlotOk(s, 0, 0, i);
    if s.objs[i].Some? {
      var o := Crash(c, s.objs[i].value);
      CrashSane(c, s.objs[i].value);
      PutTame(s, 0, 0, -1, i, o);
      if o.flags.hasFlag && AtHome(c, o) {
        CaptureInv(c, Put(s, i, o), i);
      }
    }
  }

  lemma MapInv(c: Config, s: State, i: nat)
    requires ValidConfig(c) && i <= MAXOBJS && Inv(s, 0, 0, -1)
    ensures Inv(MapFrom(c, s, i), 0, 0, -1)
    decreases MAXOBJS - i
  {
    if i < MAXOBJS {
      MapSlotInv(c, s, i);
      MapInv(c, MapSlot(c, s, i), i + 1);
    }
  }

  // ---- collisions between objects

  lemma RefillSane(u: Obj, w: Obj)
    requires Sane(u) && Sane(w)
    ensures Sane(Refill(u, w)) && SameRole(w, Refill(u, w)) && Refill(u, w).flags == w.flags
        && Refill(u, w).armour == w.armour
  {
  }

  lemma DamagedSane(o: Obj, k: Kind)
    requires Sane(o.(push := Vec(0, 0))) && o.kind != Flag
    requires 0 <= o.push.vel
    requires o.kind == Tank || o.kind == Explosion ==> o.push.vel <= 40
    requires o.kind == Fuel || o.kind == Ammo ==> o.push.vel == 0
    ensures Sane(Damaged(o, k)) && SameRole(o, Damaged(o, k))
  {
  }

  lemma ShoveBound(a: Obj, b: Obj)
    requires a.actual.vel >= 0 && b.actual.vel >= 0
    ensures 0 <= ShovePush(a, b).vel <= MAX_PUSH
  {
    AddVectorSpeed(a.actual, Vec(Reverse(b.actual.dir), b.actual.vel));
  }

  lemma Struck(w: Obj, m: Obj, k: Kind)
    requires Sane(m) && SameRole(w, m) && m.flags == w.flags && m.kind != Flag
    ensures Sane(Damaged(m, k)) && SameRole(w, Damaged(m, k))
  {
    hide Damaged;
    DamagedSane(m, k);
  }

  lemma StruckShoved(w: Obj, m: Obj, v: Vec, k: Kind)
    requires Sane(m) && SameRole(w, m) && m.flags == w.flags && Massive(m) && 0 <= v.vel <= MAX_PUSH
    ensures Sane(Damaged(Shoved(m, v), k)) && SameRole(w, Damaged(Shoved(m, v), k))
  {
    hide Damaged;
    DamagedSane(Shoved(m, v), k);
  }

  lemma Unmoving(o: Obj)
    requires Sane(o)
    ensures o.actual.vel >= 0
  {
  }

  lemma BumpSane(a: Obj, b: Obj)
    requires Sane(a) && Sane(b) && a.kind != Flag && b.kind != Flag
    ensures Sane(Bump(a, b).0) && SameRole(a, Bump(a, b).0)
    ensures Sane(Bump(a, b).1) && SameRole(b, Bump(a, b).1)
  {
    hide Refill, Damaged, ShovePush, Shoved, Massive, Sane;
    RefillSane(a, b);
    var b1 := Refill(a, b);
    RefillSane(b1, a);
    var a1 := Refill(b1, a);
    if Massive(a1) && Massive(b1) {
      Unmoving(a1);
      Unmoving(b1);
      ShoveBound(a1, b1);
      var v := ShovePush(a1, b1);
      StruckShoved(a, a1, v.(dir := Reverse(v.dir)), b1.kind);
      StruckShoved(b, b1, v, a1.kind);
    } else {
      Struck(a, a1, b1.kind);
      Struck(b, b1, a1.kind);
    }
  }

  lemma FlagTouchedInv(c: Config, s: State, f: nat, t: nat)
    requires ValidConfig(c) && f < MAXOBJS && t < MAXOBJS && f != t && s.objs[f].Some? && s.objs[t].Some?
    requires Inv(s, 0, 0, -1) && s.objs[f].value.kind == Flag
    ensures Inv(FlagTouched(c, s, f, t), 0, 0, -1)
  {
    var flag, thing := s.objs[f].value, s.objs[t].value;
    assert SlotOk(s, 0, 0, f) && SlotOk(s, 0, 0, t);
    if !thing.flags.noCollide && !thing.flags.exploding && IsPlayerObject(s.players, thing, t) {
      assert PlayerOk(s, 0, -1, thing.owner);
      assert thing.kind == Tank;
      if thing.team == flag.team {
        PutTame(s, 0, 0, -1, f, flag.(prevx := flag.x, prevy := flag.y, x := HomeX(c, flag.team),
            y := HomeY(c, flag.team)));
      } else {
        StealInv(s, f, t);
      }
    }
  }

  lemma StealInv(s: State, f: nat, t: nat)
    requires f < MAXOBJS && t < MAXOBJS && f != t && s.objs[f].Some? && s.objs[t].Some? && Inv(s, 0, 0, -1)
    requires s.objs[f].value.kind == Flag && s.objs[t].value.kind == Tank && s.objs[t].value.owner >= 0
    requires s.objs[f].value.team == OtherTeam(s.objs[t].value.team)
    ensures Inv(Stolen(s, f, t), 0, 0, -1)
  {
    var s' := Stolen(s, f, t);
    assert SlotOk(s, 0, 0, f) && SlotOk(s, 0, 0, t);
    forall j | 0 <= j < MAXOBJS ensures SlotOk(s', 0, 0, j) {
      assert SlotOk(s, 0, 0, j);
    }
    StealKeeps(s, f, t);
    KeepPlayers(s, s', 0, -1);
    KeepSpawners(s, s');
    assert FlagAt(s'.objs, s.objs[f].value.team, t);
    KeepFlag(s.objs, s'.objs, OtherTeam(s.objs[f].value.team));
  }

  function Stolen(s: State, f: nat, t: nat): State
    requires f < MAXOBJS && t < MAXOBJS && s.objs[f].Some? && s.objs[t].Some?
  {
    Put(Put(s, f, Destroyed(s.objs[f].value)), t, s.objs[t].value.(flags := s.objs[t].value.flags.(hasFlag := true)))
  }

  lemma StealKeeps(s: State, f: nat, t: nat)
    requires f < MAXOBJS && t < MAXOBJS && f != t && s.objs[f].Some? && s.objs[t].Some?
    requires s.objs[f].value.kind == Flag && s.objs[t].value.kind == Tank
    requires !s.objs[f].value.flags.hasFlag && !s.objs[f].value.destruct.ResetSpawn?
        && !s.objs[t].value.destruct.ResetSpawn?
    ensures forall k, u :: 0 <= k < MAXCLIENTS && TankLink(s.objs, k, u) ==> TankLink(Stolen(s, f, t).objs, k, u)
    ensures forall n, j :: 0 <= n && 0 <= j < MAXOBJS && SpawnedBy(s.objs, n, j) ==>
        SpawnedBy(Stolen(s, f, t).objs, n, j)
    ensures forall team, j :: 0 <= j < MAXOBJS && team != s.objs[f].value.team && FlagAt(s.objs, team, j) ==>
        FlagAt(Stolen(s, f, t).objs, team, j)
    ensures Singletons(s.objs) ==> Singletons(Stolen(s, f, t).objs)
  {
  }

  lemma CollidePairInv(c: Config, s: State, i: nat, j: nat)
    requires ValidConfig(c) && i < j < MAXOBJS && Inv(s, 0, 0, -1)
    ensures Inv(CollidePair(c, s, i, j), 0, 0, -1)
  {
    assert SlotOk(s, 0, 0, i) && SlotOk(s, 0, 0, j);
    if s.objs[i].Some? && s.objs[j].Some? && CollidesWith(s.objs[i].value, s.objs[j].value) {
      var a, b := s.objs[i].value, s.objs[j].value;
      if a.kind == Flag || b.kind == Flag {
        if a.kind != b.kind {
          if a.kind == Flag { FlagTouchedInv(c, s, i, j); } else { FlagTouchedInv(c, s, j, i); }
        }
      } else {
        BumpSane(a, b);
        PutTame(s, 0, 0, -1, i, Bump(a, b).0);
        PutTame(Put(s, i, Bump(a, b).0), 0, 0, -1, j, Bump(a, b).1);
      }
    }
  }

  lemma PairsInv(c: Config, s: State, i: nat, j: nat)
    requires ValidConfig(c) && i < j <= MAXOBJS && Inv(s, 0, 0, -1)
    ensures Inv(PairsFrom(c, s, i, j), 0, 0, -1)
    decreases MAXOBJS - i, MAXOBJS - j
  {
    if j < MAXOBJS {
      CollidePairInv(c, s, i, j);
      PairsInv(c, CollidePair(c, s, i, j), i, j + 1);
    } else if i + 2 < MAXOBJS {
      PairsInv(c, s, i + 1, i + 2);
    }
  }
}
