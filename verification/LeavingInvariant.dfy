/** Destruction, departure and rebirth: the second half of a frame, and client messages. */
module LeavingInvariant {
  import opened CtfServ
  import opened Game
  import opened Matchmake
  import opened GameInvariant
  import opened FrameInvariant

  // ---- destructors

  /** Slot `i` has nothing left to destroy. */
  lemma PassSlot(s: State, i: nat)
    requires i < MAXOBJS && Inv(s, i, 0, -1)
    requires s.objs[i].Some? && s.objs[i].value.flags.destroyed ==> s.objs[i].value.destruct == NoDestructor
    ensures Inv(s, i + 1, 0, -1)
  {
    var b := i + 1;
    forall j | 0 <= j < MAXOBJS ensures SlotOk(s, b, 0, j) {
      assert SlotOk(s, i, 0, j);
    }
    forall k | 0 <= k < MAXCLIENTS ensures PlayerOk(s, b, -1, k) {
      assert PlayerOk(s, i, -1, k);
    }
  }

  lemma CooldownRange(r: nat)
    ensures MINPWRCOOLDOWN <= Cooldown(r) < MAXPWRCOOLDOWN
  {
  }

  lemma ResetSpawnInv(c: Config, s: State, i: nat)
    requires i < MAXOBJS && s.objs[i].Some? && Inv(s, i, 0, -1)
    requires s.objs[i].value.flags.destroyed && s.objs[i].value.destruct.ResetSpawn?
    ensures Inv(RestartSpawn(c, s, s.objs[i].value.destruct.spawn), i + 1, 0, -1)
    ensures var n := s.objs[i].value.destruct.spawn;
            && n < |s.powerups| && s.powerups[n].cooldown == 0
            && RestartSpawn(c, s, n) == s.(powerups := RestartSpawn(c, s, n).powerups, draws := s.draws + 1)
            && MINPWRCOOLDOWN <= RestartSpawn(c, s, n).powerups[n].cooldown < MAXPWRCOOLDOWN
            && forall m :: 0 <= m < |s.powerups| && m != n ==> RestartSpawn(c, s, n).powerups[m] == s.powerups[m]
  {
    var n := s.objs[i].value.destruct.spawn;
    assert SlotOk(s, i, 0, i);
    var s' := RestartSpawn(c, s, n);
    CooldownRange(c.rand(s.draws));
    var b := i + 1;
    forall j | 0 <= j < MAXOBJS ensures SlotOk(s', b, 0, j) {
      assert SlotOk(s, i, 0, j);
    }
    forall k | 0 <= k < MAXCLIENTS ensures PlayerOk(s', b, -1, k) {
      assert PlayerOk(s, i, -1, k);
    }
    forall m | 0 <= m < |s'.powerups| ensures SpawnerOk(s', m) {
      assert SpawnerOk(s, m);
    }
  }

  lemma WreckSane(o: Obj, owner: int)
    requires Sane(o) && o.kind == Tank && (owner == o.owner || owner == -1)
    ensures Sane(Wreck(o, owner))
  {
  }

  lemma WreckInv(s: State, i: nat)
    requires i < MAXOBJS && s.objs[i].Some? && Inv(s, i, 0, -1)
    requires s.objs[i].value.kind == Tank && !s.objs[i].value.flags.hasFlag
    ensures Inv(WreckTank(s, i), i + 1, 0, -1)
  {
    var o := s.objs[i].value;
    var s' := WreckTank(s, i);
    assert SlotOk(s, i, 0, i);
    WreckSane(o, s'.objs[i].value.owner);
    WreckSlots(s, i);
    WreckPlayers(s, i);
    WreckKeeps(s.objs, i, s'.objs[i].value);
    KeepSpawners(s, s');
    KeepFlag(s.objs, s'.objs, 0);
    KeepFlag(s.objs, s'.objs, 1);
    WreckRoster(s, i);
  }

  lemma WreckKeeps(objs: ObjList, i: nat, m: Obj)
    requires i < MAXOBJS && objs[i].Some? && objs[i].value.kind == Tank && !objs[i].value.flags.hasFlag
    requires !objs[i].value.destruct.ResetSpawn? && !m.destruct.ResetSpawn?
    ensures forall n, j :: 0 <= n && 0 <= j < MAXOBJS && SpawnedBy(objs, n, j) ==> SpawnedBy(objs[i := Some(m)], n, j)
    ensures forall team, j :: 0 <= j < MAXOBJS && FlagAt(objs, team, j) ==> FlagAt(objs[i := Some(m)], team, j)
    ensures Singletons(objs) ==> Singletons(objs[i := Some(m)])
  {
  }

  lemma WreckSlots(s: State, i: nat)
    requires i < MAXOBJS && s.objs[i].Some? && s.objs[i].value.kind == Tank
    requires SlotsOk(s, i, 0)
    ensures SlotsOk(WreckTank(s, i), i + 1, 0)
  {
    var b := i + 1;
    forall j | 0 <= j < MAXOBJS ensures SlotOk(WreckTank(s, i), b, 0, j) {
      assert SlotOk(s, i, 0, i);
      assert SlotOk(s, i, 0, j);
      WreckSlot(s, i, j);
    }
  }

  lemma WreckSlot(s: State, i: nat, j: nat)
    requires i < MAXOBJS && s.objs[i].Some? && s.objs[i].value.kind == Tank && j < MAXOBJS
    requires SlotOk(s, i, 0, i) && SlotOk(s, i, 0, j)
    ensures SlotOk(WreckTank(s, i), i + 1, 0, j)
  {
    if i == j { WreckOwnSlot(s, i); } else { WreckOtherSlot(s, i, j); }
  }

  lemma WreckOwnSlot(s: State, i: nat)
    requires i < MAXOBJS && s.objs[i].Some? && s.objs[i].value.kind == Tank && SlotOk(s, i, 0, i)
    ensures SlotOk(WreckTank(s, i), i + 1, 0, i)
  {
    hide Sane;
    WreckSane(s.objs[i].value, WreckTank(s, i).objs[i].value.owner);
  }

  lemma WreckOtherSlot(s: State, i: nat, j: nat)
    requires i < MAXOBJS && s.objs[i].Some? && s.objs[i].value.kind == Tank && j < MAXOBJS && i != j
    requires SlotOk(s, i, 0, i) && SlotOk(s, i, 0, j)
    ensures SlotOk(WreckTank(s, i), i + 1, 0, j)
  {
    hide Wreck;
  }

  lemma WreckPlayers(s: State, i: nat)
    requires i < MAXOBJS && s.objs[i].Some? && s.objs[i].value.kind == Tank
    requires SlotOk(s, i, 0, i)
    requires PlayersOk(s, i, -1)
    ensures PlayersOk(WreckTank(s, i), i + 1, -1)
  {
    hide WreckTank;
    var b := i + 1;
    forall k | 0 <= k < MAXCLIENTS ensures PlayerOk(WreckTank(s, i), b, -1, k) {
      assert PlayerOk(s, i, -1, k);
      WreckPlayer(s, i, k);
    }
  }

  lemma WreckPlayer(s: State, i: nat, k: nat)
    requires i < MAXOBJS && s.objs[i].Some? && s.objs[i].value.kind == Tank && k < MAXCLIENTS
    requires SlotOk(s, i, 0, i) && PlayerOk(s, i, -1, k)
    ensures PlayerOk(WreckTank(s, i), i + 1, -1, k)
  {
    hide Sane;
    var s' := WreckTank(s, i);
    if s.players[k].Some? && s.players[k].value.tank.Some? && s'.players[k].value.lives != 0
        && s.players[k].value.lives != 0 {
      assert TankLink(s.objs, k, s.players[k].value.tank.value);
    }
  }

  lemma WreckRoster(s: State, i: nat)
    requires i < MAXOBJS && s.objs[i].Some? && Roster(s.players, s.playerCount)
    requires s.objs[i].value.owner >= 0 ==>
        s.objs[i].value.owner < MAXCLIENTS && s.players[s.objs[i].value.owner].Some?
        && !s.players[s.objs[i].value.owner].value.flags.spectator
    ensures Roster(WreckTank(s, i).players, s.playerCount)
  {
    var k := s.objs[i].value.owner;
    if k >= 0 { RosterKept(s.players, k, LoseLife(s.players[k].value), s.playerCount); }
  }

  lemma DestroyInv(s: State, i: nat)
    requires i < MAXOBJS && s.objs[i].Some? && Inv(s, i, 0, -1) && s.objs[i].value.kind == Tank
    ensures Inv(DestroyPlayerObj(s, i), i + 1, 0, -1)
  {
    var o := s.objs[i].value;
    assert SlotOk(s, i, 0, i);
    if o.flags.hasFlag {
      var s1 := PlaceFlag(s, OtherTeam(o.team), o.x, o.y);
      PlaceFlagInv(s, i, 0, -1, OtherTeam(o.team), o.x, o.y);
      PlacedFlag(s, OtherTeam(o.team), o.x, o.y);
      DropFlag(s1, i, 0, -1, i, FirstFree(s.objs, 0));
      WreckInv(Put(s1, i, Dropped(o)), i);
      WreckForgets(s1, i);
    } else {
      WreckInv(s, i);
    }
  }

  /** Wreckage carries no flag, so it makes no difference that the tank carried one. */
  lemma WreckForgets(s: State, i: nat)
    requires i < MAXOBJS && s.objs[i].Some?
    ensures WreckTank(Put(s, i, Dropped(s.objs[i].value)), i) == WreckTank(s, i)
  {
    var d := Put(s, i, Dropped(s.objs[i].value));
    assert forall m: Obj :: d.objs[i := Some(m)] == s.objs[i := Some(m)];
  }

  lemma DestructInv(c: Config, s: State, i: nat)
    requires i <= MAXOBJS && Inv(s, i, 0, -1)
    ensures Inv(DestructFrom(c, s, i), MAXOBJS, 0, -1)
    decreases MAXOBJS - i
  {
    if i < MAXOBJS {
      DestructSlotInv(c, s, i);
      DestructInv(c, DestructSlot(c, s, i), i + 1);
    }
  }

  lemma DestructSlotInv(c: Config, s: State, i: nat)
    requires i < MAXOBJS && Inv(s, i, 0, -1)
    ensures Inv(DestructSlot(c, s, i), i + 1, 0, -1)
  {
    assert SlotOk(s, i, 0, i);
    if s.objs[i].None? || !s.objs[i].value.flags.destroyed || s.objs[i].value.destruct == NoDestructor {
      PassSlot(s, i);
    } else if s.objs[i].value.destruct == DestroyPlayer {
      DestroyInv(s, i);
    } else {
      ResetSpawnInv(c, s, i);
    }
  }

  // ---- a client leaves

  /** The slots below `i` hold nothing of player `k`. */
  predicate Disowned(objs: ObjList, k: nat, i: nat)
    requires i <= MAXOBJS
  {
    forall j :: 0 <= j < i && objs[j].Some? ==> objs[j].value.owner != k
  }

  lemma VanishInv(s: State, b: nat, c: nat, k: nat, i: nat)
    requires k < MAXCLIENTS && i <= MAXOBJS && Inv(s, b, c, k) && Disowned(s.objs, k, i)
    ensures Inv(VanishFrom(s, k, i), b, c, k) && Disowned(VanishFrom(s, k, i).objs, k, MAXOBJS)
    ensures VanishFrom(s, k, i).players == s.players && VanishFrom(s, k, i).playerCount == s.playerCount
    decreases MAXOBJS - i
  {
    if i < MAXOBJS {
      VanishSlotInv(s, b, c, k, i);
      VanishInv(VanishSlot(s, k, i), b, c, k, i + 1);
    }
  }

  lemma VanishSlotInv(s: State, b: nat, c: nat, k: nat, i: nat)
    requires k < MAXCLIENTS && i < MAXOBJS && Inv(s, b, c, k) && Disowned(s.objs, k, i)
    ensures Inv(VanishSlot(s, k, i), b, c, k) && Disowned(VanishSlot(s, k, i).objs, k, i + 1)
    ensures VanishSlot(s, k, i).players == s.players && VanishSlot(s, k, i).playerCount == s.playerCount
  {
    if s.objs[i].Some? {
      if s.objs[i].value.flags.hasFlag { VanishCarrier(s, b, c, k, i); }
      else if s.objs[i].value.owner == k { VanishObj(s, b, c, k, i); }
      VanishFrame(s, k, i);
    }
  }

  lemma VanishFrame(s: State, k: nat, i: nat)
    requires k < MAXCLIENTS && i < MAXOBJS && s.objs[i].Some? && Disowned(s.objs, k, i)
    ensures Disowned(VanishSlot(s, k, i).objs, k, i + 1)
    ensures VanishSlot(s, k, i).players == s.players && VanishSlot(s, k, i).playerCount == s.playerCount
  {
  }

  lemma VanishCarrier(s: State, b: nat, c: nat, k: nat, i: nat)
    requires k < MAXCLIENTS && i < MAXOBJS && s.objs[i].Some? && Inv(s, b, c, k) && s.objs[i].value.flags.hasFlag
    ensures Inv(VanishSlot(s, k, i), b, c, k)
  {
    var o := s.objs[i].value;
    assert SlotOk(s, b, c, i);
    var s1 := PlaceFlag(s, OtherTeam(o.team), o.x, o.y);
    PlaceFlagInv(s, b, c, k, OtherTeam(o.team), o.x, o.y);
    PlacedFlag(s, OtherTeam(o.team), o.x, o.y);
    if o.owner == k { VanishDropped(s, b, c, k, i, s1); }
  }

  /** The leaving carrier's flag lies on the map again, so its tank may go. */
  lemma VanishDropped(s: State, b: nat, c: nat, k: nat, i: nat, s1: State)
    requires k < MAXCLIENTS && i < MAXOBJS && s.objs[i].Some? && Inv(s, b, c, k)
    requires s.objs[i].value.flags.hasFlag && s.objs[i].value.owner == k
    requires s1 == PlaceFlag(s, OtherTeam(s.objs[i].value.team), s.objs[i].value.x, s.objs[i].value.y)
    requires Inv(s1, b, c, k) && s1.objs[i] == s.objs[i]
    ensures Inv(VanishSlot(s, k, i), b, c, k)
  {
    var o := s.objs[i].value;
    PlacedFlag(s, OtherTeam(o.team), o.x, o.y);
    DropFlag(s1, b, c, k, i, FirstFree(s.objs, 0));
    VanishObj(Put(s1, i, Dropped(o)), b, c, k, i);
    VanishForgets(s1, i);
  }

  lemma VanishForgets(s: State, i: nat)
    requires i < MAXOBJS && s.objs[i].Some?
    ensures Put(Put(s, i, Dropped(s.objs[i].value)), i, Vanished(s.objs[i].value)) ==
        Put(s, i, Vanished(s.objs[i].value))
  {
  }

  lemma VanishObj(s: State, b: nat, c: nat, k: nat, i: nat)
    requires k < MAXCLIENTS && i < MAXOBJS && s.objs[i].Some? && Inv(s, b, c, k)
    requires s.objs[i].value.owner == k && !s.objs[i].value.flags.hasFlag
    ensures Inv(Put(s, i, Vanished(s.objs[i].value)), b, c, k)
  {
    var s' := Put(s, i, Vanished(s.objs[i].value));
    assert SlotOk(s, b, c, i);
    VanishSlots(s, b, c, i);
    VanishKeeps(s.objs, i, k);
    forall j | 0 <= j < MAXCLIENTS ensures PlayerOk(s', b, k, j) {
      assert PlayerOk(s, b, k, j);
    }
    KeepSpawners(s, s');
    KeepFlag(s.objs, s'.objs, 0);
    KeepFlag(s.objs, s'.objs, 1);
  }

  lemma VanishSane(o: Obj)
    requires Sane(o) && o.owner >= 0
    ensures Sane(Vanished(o))
  {
  }

  lemma VanishSlots(s: State, b: nat, c: nat, i: nat)
    requires i < MAXOBJS && s.objs[i].Some? && s.objs[i].value.owner >= 0 && SlotsOk(s, b, c)
    ensures SlotsOk(Put(s, i, Vanished(s.objs[i].value)), b, c)
  {
    assert SlotOk(s, b, c, i);
    VanishSane(s.objs[i].value);
    forall j | 0 <= j < MAXOBJS ensures SlotOk(Put(s, i, Vanished(s.objs[i].value)), b, c, j) {
      assert SlotOk(s, b, c, j);
    }
  }

  lemma VanishKeeps(objs: ObjList, i: nat, k: nat)
    requires i < MAXOBJS && objs[i].Some? && objs[i].value.owner == k && !objs[i].value.flags.hasFlag
    requires !objs[i].value.destruct.ResetSpawn? && objs[i].value.kind != Flag
    ensures forall j, t :: 0 <= j < MAXCLIENTS && j != k && TankLink(objs, j, t) ==>
        TankLink(objs[i := Some(Vanished(objs[i].value))], j, t)
    ensures forall n, j :: 0 <= n && 0 <= j < MAXOBJS && SpawnedBy(objs, n, j) ==>
        SpawnedBy(objs[i := Some(Vanished(objs[i].value))], n, j)
    ensures forall team, j :: 0 <= j < MAXOBJS && FlagAt(objs, team, j) ==>
        FlagAt(objs[i := Some(Vanished(objs[i].value))], team, j)
    ensures Singletons(objs) ==> Singletons(objs[i := Some(Vanished(objs[i].value))])
  {
  }

  // ---- the player's record goes

  lemma RemoveInv(s: State, b: nat, c: nat, k: nat)
    requires k < MAXCLIENTS && s.players[k].Some? && Inv(s, b, c, -1)
    ensures Inv(RemoveClient(s, k), b, c, -1)
  {
    assert PlayerOk(s, b, -1, k);
    ExemptPlayer(s, b, c, k);
    if s.players[k].value.flags.spectator {
      RemoveSpectator(s, b, c, k);
    } else {
      VanishInv(s, b, c, k, 0);
      RemovePlayer(VanishFrom(s, k, 0), b, c, k);
    }
  }

  lemma RemoveSpectator(s: State, b: nat, c: nat, k: nat)
    requires k < MAXCLIENTS && s.players[k].Some? && s.players[k].value.flags.spectator && Inv(s, b, c, k)
    ensures Inv(s.(players := s.players[k := None]), b, c, -1)
  {
    CountWithout(s.players, k, 0);
    forall j | 0 <= j < MAXOBJS && s.objs[j].Some? ensures s.objs[j].value.owner != k { assert SlotOk(s, b, c, j); }
    ForgetPlayer(s, s.(players := s.players[k := None]), b, c, k);
  }

  lemma RemovePlayer(s: State, b: nat, c: nat, k: nat)
    requires k < MAXCLIENTS && s.players[k].Some? && !s.players[k].value.flags.spectator && Inv(s, b, c, k)
    requires Disowned(s.objs, k, MAXOBJS)
    ensures Inv(s.(playerCount := s.playerCount - 1, players := Ordered(s.players[k := None])), b, c, -1)
  {
    var gone := s.players[k := None];
    CountWithout(s.players, k, 0);
    forall j | 0 <= j < MAXCLIENTS && gone[j].Some? ensures gone[j].value.team <= 2 { assert PlayerOk(s, b, k, j); }
    OrderedTeams(gone);
    SameTeamsCount(gone, Ordered(gone));
    ForgetPlayer(s, s.(playerCount := s.playerCount - 1, players := Ordered(gone)), b, c, k);
  }

  lemma ExemptPlayer(s: State, b: nat, c: nat, k: nat)
    requires Inv(s, b, c, -1)
    ensures Inv(s, b, c, k)
  {
    forall j | 0 <= j < MAXCLIENTS ensures PlayerOk(s, b, k, j) { assert PlayerOk(s, b, -1, j); }
  }

  lemma ForgetPlayer(s: State, s': State, b: nat, c: nat, k: nat)
    requires k < MAXCLIENTS && Inv(s, b, c, k) && Disowned(s.objs, k, MAXOBJS)
    requires s' == s.(players := s'.players, playerCount := s'.playerCount)
        && SameTeams(s.players[k := None], s'.players)
    requires Roster(s'.players, s'.playerCount)
    ensures Inv(s', b, c, -1)
  {
    forall j | 0 <= j < MAXOBJS ensures SlotOk(s', b, c, j) { assert SlotOk(s, b, c, j); }
    forall j | 0 <= j < MAXCLIENTS ensures PlayerOk(s', b, -1, j) { assert PlayerOk(s, b, k, j); }
    KeepSpawners(s, s');
  }
}
