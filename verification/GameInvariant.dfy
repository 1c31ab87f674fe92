/** What every step of the game keeps.

    `Inv(s, b, c, x)` is the invariant inside a frame: the destructors of the slots below
    `b` have run, the slots below `c` are clean, and player `x` (if any) is on its way out.
    Between steps it holds as `Inv(s, MAXOBJS, MAXOBJS, -1)`, the core of `Boundary`. */
module GameInvariant {
  import opened CtfServ
  import opened Vectors
  import opened Game
  import opened Matchmake

  // ---- one object on its own

  predicate Sane(o: Obj) {
    && -1 <= o.owner < MAXCLIENTS
    && o.x >= 0 && o.y >= 0
    && o.commanded.vel >= 0 && o.actual.vel >= 0 && o.push.vel >= 0
    && (o.flags.vanished ==> o.owner == -1)
    && (o.flags.hasFlag ==> o.kind == Tank && o.owner >= 0)
    && (o.kind == Tank <==> o.destruct == DestroyPlayer)
    && (o.kind == Fuel || o.kind == Ammo <==> o.destruct.ResetSpawn?)
    && (o.flags.exploding ==> o.flags.destroyed || o.kind == Explosion)
    && KindSane(o)
  }

  predicate KindSane(o: Obj) {
    match o.kind
    case Tank =>
      && 0 <= o.team < 2 && o.armour == 1 && o.ttl == -1
      && o.commanded.vel <= 40 && o.push.vel <= 40 && o.actual.vel <= 84
      && 0 <= o.ammo <= MAXAMMO && 0 <= o.cooldown <= 18
      && (o.flags.destroyed || o.flags.vanished || o.hp >= 1)
    case Missile =>
      && o.armour == 0 && 0 <= o.ttl <= 20 && o.commanded.vel <= 184
      && (o.push.vel > 0 ==> o.flags.exploding || o.flags.vanished)
      && o.ctrls == NOCTRLS
    case Explosion =>
      && 0 <= o.ttl <= 15 && (o.flags.vanished || (o.flags.noCollide && o.flags.exploding))
      && o.commanded.vel <= 40 && o.push.vel <= 40 && o.actual.vel <= 84
    case Flag => o.owner == -1 && 0 <= o.team < 2 && Inert(o)
    case _ => o.owner == -1 && o.armour == 0 && Inert(o)
  }

  /** Flags and powerups stay where they are put. */
  predicate Inert(o: Obj) {
    && o.ttl == -1 && o.push.vel == 0 && o.commanded.vel == 0 && o.actual.vel == 0
    && o.ctrls == NOCTRLS && o.ammo == 0 && !o.flags.vanished
  }

  // ---- an object among the others

  predicate OwnerOk(players: PlayerList, i: nat, o: Obj) {
    o.owner >= 0 ==>
      && o.owner < MAXCLIENTS
      && players[o.owner].Some?
      && !players[o.owner].value.flags.spectator
      && (o.kind == Tank || o.kind == Explosion ==> players[o.owner].value.tank == Some(i))
  }

  predicate PowerLink(powerups: seq<PowerSpawn>, b: nat, i: nat, o: Obj) {
    o.destruct.ResetSpawn? ==>
      && o.destruct.spawn < |powerups|
      && powerups[o.destruct.spawn].kind == o.kind
      && (powerups[o.destruct.spawn].cooldown == 0 <==> !(o.flags.destroyed && i < b))
  }

  predicate Stage(b: nat, c: nat, i: nat, o: Obj) {
    && (i < b && o.flags.destroyed ==> o.destruct != DestroyPlayer)
    && (i < c ==> !o.flags.destroyed && Unshoved(o))
  }

  predicate Unshoved(o: Obj) { o.kind == Missile ==> o.push.vel == 0 }

  predicate HasLife(players: PlayerList, o: Obj) {
    o.kind == Tank && 0 <= o.owner < MAXCLIENTS && players[o.owner].Some? ==> !players[o.owner].value.flags.dead
  }

  predicate SlotOk(s: State, b: nat, c: nat, i: nat)
    requires i < MAXOBJS
  {
    s.objs[i].Some? ==>
      && Sane(s.objs[i].value)
      && OwnerOk(s.players, i, s.objs[i].value)
      && PowerLink(s.powerups, b, i, s.objs[i].value)
      && Stage(b, c, i, s.objs[i].value)
      && (b < MAXOBJS ==> HasLife(s.players, s.objs[i].value))
  }

  predicate TankLink(objs: ObjList, k: nat, t: nat) {
    && t < MAXOBJS
    && objs[t].Some?
    && objs[t].value.owner == k
    && (objs[t].value.kind == Tank || objs[t].value.kind == Explosion)
  }

  /** The player may have lost the last life in this frame. */
  predicate Out(s: State, b: nat, p: Player) { b > 0 && p.lives == 0 && (p.flags.dead || s.gameOver) }

  predicate PlayerOk(s: State, b: nat, x: int, k: nat)
    requires k < MAXCLIENTS
  {
    s.players[k].Some? ==>
      var p := s.players[k].value;
      && p.team <= 2
      && (p.flags.dead ==> b > 0 && p.lives == 0)
      && (p.flags.spectator ==> p.tank == None && !p.flags.dead && !p.flags.matchmaking)
      && (p.tank.Some? ==> p.team < 2)
      && (p.tank.Some? && !Out(s, b, p) && k != x ==> TankLink(s.objs, k, p.tank.value))
  }

  predicate FlagAt(objs: ObjList, team: int, i: nat)
    requires i < MAXOBJS
  {
    && objs[i].Some?
    && (|| (objs[i].value.kind == Flag && objs[i].value.team == team && !objs[i].value.flags.destroyed)
        || (objs[i].value.flags.hasFlag && OtherTeam(objs[i].value.team) == team))
  }

  /** Somewhere the team's flag lies on the map or is carried by an enemy tank. */
  predicate FlagKept(objs: ObjList, team: int) { exists i :: 0 <= i < MAXOBJS && FlagAt(objs, team, i) }

  predicate SpawnedBy(objs: ObjList, n: nat, i: nat)
    requires i < MAXOBJS
  {
    objs[i].Some? && objs[i].value.destruct == ResetSpawn(n)
  }

  predicate SpawnerOk(s: State, n: nat)
    requires n < |s.powerups|
  {
    var sp := s.powerups[n];
    && (sp.kind == Fuel || sp.kind == Ammo)
    && sp.cooldown < MAXPWRCOOLDOWN
    && (sp.cooldown == 0 && sp.kind !in s.dropped ==> exists i :: 0 <= i < MAXOBJS && SpawnedBy(s.objs, n, i))
  }

  predicate SlotsOk(s: State, b: nat, c: nat) { forall i :: 0 <= i < MAXOBJS ==> SlotOk(s, b, c, i) }

  predicate PlayersOk(s: State, b: nat, x: int) { forall k :: 0 <= k < MAXCLIENTS ==> PlayerOk(s, b, x, k) }

  predicate SpawnersOk(s: State) { forall n :: 0 <= n < |s.powerups| ==> SpawnerOk(s, n) }

  ghost predicate Inv(s: State, b: nat, c: nat, x: int) {
    var all :=
      && SlotsOk(s, b, c)
      && PlayersOk(s, b, x)
      && SpawnersOk(s)
      && Singletons(s.objs)
      && Roster(s.players, s.playerCount)
      && (Flag in s.dropped || (FlagKept(s.objs, 0) && FlagKept(s.objs, 1)));
    all
  }

  /** No spawn point has two live powerups. */
  predicate Singletons(objs: ObjList) {
    forall i, j :: 0 <= i < j < MAXOBJS && objs[i].Some? && objs[j].Some? && objs[i].value.destruct.ResetSpawn? ==>
      objs[i].value.destruct != objs[j].value.destruct
  }

  // ---- changes that leave roles alone

  predicate SameRole(o: Obj, m: Obj) {
    && m.owner == o.owner && m.team == o.team && m.kind == o.kind && m.destruct == o.destruct
    && m.flags.hasFlag == o.flags.hasFlag && m.flags.vanished == o.flags.vanished
    && (o.flags.destroyed ==> m.flags.destroyed)
    && (m.flags.destroyed && !o.flags.destroyed ==> m.kind != Flag)
  }

  lemma PutTame(s: State, b: nat, c: nat, x: int, i: nat, m: Obj)
    requires i < MAXOBJS && s.objs[i].Some? && Inv(s, b, c, x)
    requires SameRole(s.objs[i].value, m) && Sane(m)
    requires m.flags.destroyed && !s.objs[i].value.flags.destroyed ==> b <= i && c <= i
    requires i < c ==> Unshoved(m)
    ensures Inv(Put(s, i, m), b, c, x)
  {
    var s' := Put(s, i, m);
    PutSlots(s, b, c, i, m);
    PutKeeps(s.objs, i, m);
    KeepPlayers(s, s', b, x);
    KeepSpawners(s, s');
    KeepFlag(s.objs, s'.objs, 0);
    KeepFlag(s.objs, s'.objs, 1);
  }

  lemma PutSlots(s: State, b: nat, c: nat, i: nat, m: Obj)
    requires i < MAXOBJS && s.objs[i].Some? && SameRole(s.objs[i].value, m) && Sane(m)
    requires m.flags.destroyed && !s.objs[i].value.flags.destroyed ==> b <= i && c <= i
    requires i < c ==> Unshoved(m)
    requires SlotsOk(s, b, c)
    ensures SlotsOk(Put(s, i, m), b, c)
  {
    forall j | 0 <= j < MAXOBJS ensures SlotOk(Put(s, i, m), b, c, j) {
      assert SlotOk(s, b, c, j);
    }
  }

  /** An object that keeps its role keeps every link to it. */
  lemma PutKeeps(objs: ObjList, i: nat, m: Obj)
    requires i < MAXOBJS && objs[i].Some? && SameRole(objs[i].value, m)
    ensures forall k, t :: 0 <= k < MAXCLIENTS && TankLink(objs, k, t) ==> TankLink(objs[i := Some(m)], k, t)
    ensures forall n, j :: 0 <= n && 0 <= j < MAXOBJS && SpawnedBy(objs, n, j) ==> SpawnedBy(objs[i := Some(m)], n, j)
    ensures forall team, j :: 0 <= j < MAXOBJS && FlagAt(objs, team, j) ==> FlagAt(objs[i := Some(m)], team, j)
    ensures Singletons(objs) ==> Singletons(objs[i := Some(m)])
  {
  }

  lemma KeepPlayers(s: State, s': State, b: nat, x: int)
    requires PlayersOk(s, b, x)
    requires s'.players == s.players && s'.gameOver == s.gameOver
    requires forall k, t :: 0 <= k < MAXCLIENTS && 0 <= t < MAXOBJS && TankLink(s.objs, k, t) ==>
        TankLink(s'.objs, k, t)
    ensures PlayersOk(s', b, x)
  {
    forall k | 0 <= k < MAXCLIENTS ensures PlayerOk(s', b, x, k) {
      assert PlayerOk(s, b, x, k);
    }
  }

  lemma KeepSpawners(s: State, s': State)
    requires SpawnersOk(s)
    requires s'.powerups == s.powerups && s.dropped <= s'.dropped
    requires forall n, i :: 0 <= n < |s.powerups| && 0 <= i < MAXOBJS && SpawnedBy(s.objs, n, i) ==>
        SpawnedBy(s'.objs, n, i)
    ensures SpawnersOk(s')
  {
    forall n | 0 <= n < |s'.powerups| ensures SpawnerOk(s', n) {
      assert SpawnerOk(s, n);
      if s.powerups[n].cooldown == 0 && s.powerups[n].kind !in s.dropped {
        var i :| 0 <= i < MAXOBJS && SpawnedBy(s.objs, n, i);
        assert SpawnedBy(s'.objs, n, i);
      }
    }
  }

  lemma KeepFlag(objs: ObjList, objs': ObjList, team: int)
    requires forall i :: 0 <= i < MAXOBJS && FlagAt(objs, team, i) ==> FlagAt(objs', team, i)
    ensures FlagKept(objs, team) ==> FlagKept(objs', team)
  {
    if FlagKept(objs, team) {
      var i :| 0 <= i < MAXOBJS && FlagAt(objs, team, i);
      assert FlagAt(objs', team, i);
    }
  }

  // ---- adding objects

  predicate Loose(players: PlayerList, o: Obj) {
    && Sane(o)
    && !o.flags.destroyed
    && (o.kind == Missile || o.kind == Flag)
    && Unshoved(o)
    && (o.owner >= 0 ==> players[o.owner].Some? && !players[o.owner].value.flags.spectator)
  }

  lemma AddLoose(s: State, b: nat, c: nat, x: int, o: Obj)
    requires Inv(s, b, c, x) && Loose(s.players, o)
    ensures Inv(AddObject(s, o), b, c, x)
    ensures o.kind == Flag && Flag !in AddObject(s, o).dropped ==> FlagKept(AddObject(s, o).objs, o.team)
  {
    var s' := AddObject(s, o);
    AddKeeps(s, o);
    AddSlots(s, b, c, o);
    KeepPlayers(s, s', b, x);
    KeepSpawners(s, s');
    KeepFlag(s.objs, s'.objs, 0);
    KeepFlag(s.objs, s'.objs, 1);
    AddSingleton(s.objs, FirstFree(s.objs, 0), o);
    if o.kind == Flag && Flag !in s'.dropped {
      assert FlagAt(s'.objs, o.team, FirstFree(s.objs, 0));
    }
  }

  lemma AddSlots(s: State, b: nat, c: nat, o: Obj)
    requires SlotsOk(s, b, c)
    requires Loose(s.players, o)
    ensures SlotsOk(AddObject(s, o), b, c)
  {
    forall i | 0 <= i < MAXOBJS ensures SlotOk(AddObject(s, o), b, c, i) {
      assert SlotOk(s, b, c, i);
    }
  }

  /** Adding an object disturbs none of the others. */
  lemma AddKeeps(s: State, o: Obj)
    ensures forall k, t :: 0 <= k < MAXCLIENTS && TankLink(s.objs, k, t) ==> TankLink(AddObject(s, o).objs, k, t)
    ensures forall n, i :: 0 <= n && 0 <= i < MAXOBJS && SpawnedBy(s.objs, n, i) ==>
        SpawnedBy(AddObject(s, o).objs, n, i)
    ensures forall team, i :: 0 <= i < MAXOBJS && FlagAt(s.objs, team, i) ==> FlagAt(AddObject(s, o).objs, team, i)
    ensures AddObject(s, o).players == s.players && AddObject(s, o).powerups == s.powerups
    ensures s.dropped <= AddObject(s, o).dropped
    ensures AddObject(s, o).gameOver == s.gameOver
  {
  }

  lemma AddSingleton(objs: ObjList, f: nat, o: Obj)
    requires Singletons(objs) && !o.destruct.ResetSpawn?
    ensures f < MAXOBJS ==> Singletons(objs[f := Some(o)])
  {
  }

  lemma PlaceFlagInv(s: State, b: nat, c: nat, x: int, team: int, px: int, py: int)
    requires Inv(s, b, c, x) && 0 <= team < 2 && px >= 0 && py >= 0
    ensures Inv(PlaceFlag(s, team, px, py), b, c, x)
    ensures Flag in PlaceFlag(s, team, px, py).dropped || FlagKept(PlaceFlag(s, team, px, py).objs, team)
  {
    AddLoose(s, b, c, x, NewObject(Flag, team, px, py, NoDestructor));
  }

  // ---- moving and firing

  predicate Quiet(o: Obj) { (o.flags.exploding ==> o.kind == Explosion) && Unshoved(o) }

  /** Before the objects have met, nothing but wreckage is exploding and no missile is pushed. */
  predicate Calm(objs: ObjList) { forall i :: 0 <= i < MAXOBJS && objs[i].Some? ==> Quiet(objs[i].value) }

  lemma TimersSane(o: Obj)
    requires Sane(o)
    ensures Sane(Timers(o)) && SameRole(o, Timers(o)) && (Quiet(o) ==> Quiet(Timers(o)))
  {
  }

  lemma ThrottleSane(o: Obj)
    requires Sane(o)
    ensures Sane(Throttle(o)) && SameRole(o, Throttle(o)) && (Quiet(o) ==> Quiet(Throttle(o)))
  {
  }

  lemma TurnSane(o: Obj)
    requires Sane(o)
    ensures Sane(Turn(o)) && SameRole(o, Turn(o)) && (Quiet(o) ==> Quiet(Turn(o)))
  {
    hide PropsOf;
  }

  lemma SteerSane(o: Obj)
    requires Sane(o)
    ensures Sane(Steer(Timers(o))) && SameRole(o, Steer(Timers(o)))
    ensures Quiet(o) ==> Quiet(Steer(Timers(o)))
  {
    hide Sane, Timers, Throttle, Turn, Quiet;
    TimersSane(o);
    ThrottleSane(Timers(o));
    TurnSane(Throttle(Timers(o)));
  }

  lemma AdvanceSane(o: Obj)
    requires Sane(o) && Quiet(o)
    ensures Sane(Advance(o)) && SameRole(o, Advance(o)) && Quiet(Advance(o))
  {
    AddVectorSpeed(o.commanded, o.push);
  }

  lemma MissileSane(o: Obj)
    requires Sane(o) && Fires(o)
    ensures Sane(MissileOf(o)) && Quiet(MissileOf(o))
  {
  }

  lemma CalmAdd(s: State, o: Obj)
    requires Calm(s.objs) && Quiet(o)
    ensures Calm(AddObject(s, o).objs)
  {
  }

  lemma CalmPut(s: State, i: nat, o: Obj)
    requires Calm(s.objs) && i < MAXOBJS && Quiet(o)
    ensures Calm(Put(s, i, o).objs)
  {
  }

  lemma FireInv(s: State, x: int, i: nat)
    requires i < MAXOBJS && s.objs[i].Some? && Inv(s, 0, 0, x) && Calm(s.objs)
    ensures Inv(FireWeapon(s, i), 0, 0, x) && Calm(FireWeapon(s, i).objs)
    ensures FireWeapon(s, i).objs[i].Some?
  {
    var o := s.objs[i].value;
    assert SlotOk(s, 0, 0, i);
    if Fires(o) {
      MissileSane(o);
      AddLoose(s, 0, 0, x, MissileOf(o));
      CalmAdd(s, MissileOf(o));
      var s1 := AddObject(s, MissileOf(o));
      var m := Shot(o);
      ShotSane(o);
      PutTame(s1, 0, 0, x, i, m);
      CalmPut(s1, i, m);
    }
  }

  lemma ShotSane(o: Obj)
    requires Sane(o) && Fires(o)
    ensures Sane(Shot(o)) && SameRole(o, Shot(o)) && (Quiet(o) ==> Quiet(Shot(o)))
  {
  }

  lemma UpdateInv(s: State, x: int, i: nat)
    requires i <= MAXOBJS && Inv(s, 0, 0, x) && Calm(s.objs)
    ensures Inv(UpdateFrom(s, i), 0, 0, x) && Calm(UpdateFrom(s, i).objs)
    decreases MAXOBJS - i
  {
    if i < MAXOBJS {
      UpdateSlotInv(s, x, i);
      UpdateInv(UpdateSlot(s, i), x, i + 1);
    }
  }

  lemma UpdateSlotInv(s: State, x: int, i: nat)
    requires i < MAXOBJS && Inv(s, 0, 0, x) && Calm(s.objs)
    ensures Inv(UpdateSlot(s, i), 0, 0, x) && Calm(UpdateSlot(s, i).objs)
  {
    assert SlotOk(s, 0, 0, i);
    if s.objs[i].Some? {
      var o := s.objs[i].value;
      if o.ttl == 0 {
        PutTame(s, 0, 0, x, i, Destroyed(o));
        CalmPut(s, i, Destroyed(o));
      } else {
        SteerSane(o);
        var m := Steer(Timers(o));
        PutTame(s, 0, 0, x, i, m);
        CalmPut(s, i, m);
        var s1 := Put(s, i, m);
        FireInv(s1, x, i);
        AdvanceInv(FireWeapon(s1, i), x, i);
      }
    }
  }

  lemma AdvanceInv(s: State, x: int, i: nat)
    requires i < MAXOBJS && s.objs[i].Some? && Inv(s, 0, 0, x) && Calm(s.objs)
    ensures Inv(Put(s, i, Advance(s.objs[i].value)), 0, 0, x) && Calm(Put(s, i, Advance(s.objs[i].value)).objs)
  {
    assert SlotOk(s, 0, 0, i);
    var o := s.objs[i].value;
    AdvanceSane(o);
    PutTame(s, 0, 0, x, i, Advance(o));
    CalmPut(s, i, Advance(o));
  }
}
