/** The invariant of every run: start-up, frames and client messages. */
module RunInvariant {
  import opened CtfServ
  import opened Game
  import opened Matchmake
  import opened GameInvariant
  import opened LeavingInvariant

  // ---- cleaning up

  lemma SkipSlot(s: State, i: nat)
    requires i < MAXOBJS && Inv(s, MAXOBJS, i, -1)
    requires s.objs[i].Some? ==> !s.objs[i].value.flags.destroyed && !s.objs[i].value.flags.vanished
    ensures Inv(s, MAXOBJS, i + 1, -1)
  {
    var c := i + 1;
    forall j | 0 <= j < MAXOBJS ensures SlotOk(s, MAXOBJS, c, j) {
      assert SlotOk(s, MAXOBJS, i, j);
    }
  }

  /** Nothing of value is swept away: no flag, no tank and no powerup whose spawn point waits for it. */
  lemma SweepKeeps(s: State, i: nat)
    requires i < MAXOBJS && s.objs[i].Some? && Inv(s, MAXOBJS, i, -1)
    requires s.objs[i].value.flags.destroyed || s.objs[i].value.flags.vanished
    requires !IsPlayerObject(s.players, s.objs[i].value, i) || !s.objs[i].value.flags.destroyed
    ensures forall k, t ::
              && 0 <= k < MAXCLIENTS && s.players[k].Some? && s.players[k].value.tank == Some(t)
              && TankLink(s.objs, k, t)
              ==> TankLink(s.objs[i := None], k, t)
    ensures forall team, j :: 0 <= j < MAXOBJS && FlagAt(s.objs, team, j) ==> FlagAt(s.objs[i := None], team, j)
    ensures forall n, j ::
              0 <= n < |s.powerups| && s.powerups[n].cooldown == 0 && 0 <= j < MAXOBJS && SpawnedBy(s.objs, n, j) ==>
                SpawnedBy(s.objs[i := None], n, j)
    ensures Singletons(s.objs[i := None])
  {
    assert SlotOk(s, MAXOBJS, i, i);
  }

  lemma SweepInv(s: State, i: nat)
    requires i < MAXOBJS && s.objs[i].Some? && Inv(s, MAXOBJS, i, -1)
    requires s.objs[i].value.flags.destroyed || s.objs[i].value.flags.vanished
    requires !IsPlayerObject(s.players, s.objs[i].value, i) || !s.objs[i].value.flags.destroyed
    ensures Inv(s.(objs := s.objs[i := None]), MAXOBJS, i + 1, -1)
  {
    var s' := s.(objs := s.objs[i := None]);
    var c := i + 1;
    SweepKeeps(s, i);
    forall j | 0 <= j < MAXOBJS ensures SlotOk(s', MAXOBJS, c, j) { assert SlotOk(s, MAXOBJS, i, j); }
    forall k | 0 <= k < MAXCLIENTS ensures PlayerOk(s', MAXOBJS, -1, k) { assert PlayerOk(s, MAXOBJS, -1, k); }
    SweptSpawners(s, i);
    KeepFlag(s.objs, s'.objs, 0);
    KeepFlag(s.objs, s'.objs, 1);
  }

  lemma SweptSpawners(s: State, i: nat)
    requires i < MAXOBJS && SpawnersOk(s)
    requires forall n, j ::
               0 <= n < |s.powerups| && s.powerups[n].cooldown == 0 && 0 <= j < MAXOBJS && SpawnedBy(s.objs, n, j) ==>
                 SpawnedBy(s.objs[i := None], n, j)
    ensures SpawnersOk(s.(objs := s.objs[i := None]))
  {
    var s' := s.(objs := s.objs[i := None]);
    forall n | 0 <= n < |s.powerups| ensures SpawnerOk(s', n) {
      assert SpawnerOk(s, n);
      if s.powerups[n].cooldown == 0 && s.powerups[n].kind !in s.dropped {
        var j :| 0 <= j < MAXOBJS && SpawnedBy(s.objs, n, j);
        assert SpawnedBy(s'.objs, n, j);
      }
    }
  }

  // ---- rebirth

  lemma TankSane(c: Config, k: nat, p: Player)
    requires k < MAXCLIENTS && p.team < 2
    ensures Sane(NewTank(c, k, p)) && !NewTank(c, k, p).flags.destroyed
  {
  }

  /** Player `k` has no tank and no wreck. */
  predicate Tankless(objs: ObjList, k: nat) {
    forall i :: 0 <= i < MAXOBJS && objs[i].Some? && (objs[i].value.kind == Tank || objs[i].value.kind == Explosion) ==>
      objs[i].value.owner != k
  }

  /** A tank enters the list for player `k`, who has no other. */
  lemma SpawnInv(c: Config, s: State, d: nat, k: nat)
    requires k < MAXCLIENTS && s.players[k].Some? && Inv(s, MAXOBJS, d, k) && Tankless(s.objs, k)
    requires s.players[k].value.team < 2 && !s.players[k].value.flags.spectator
    ensures Inv(SpawnPlayer(c, s, k), MAXOBJS, d, -1)
  {
    var o := NewTank(c, k, s.players[k].value);
    var s' := SpawnPlayer(c, s, k);
    SpawnSlots(c, s, d, k);
    SpawnPlayers(c, s, MAXOBJS, k);
    AddOther(s, s', o);
    SpawnRoster(c, s, k);
  }

  lemma SpawnRoster(c: Config, s: State, k: nat)
    requires k < MAXCLIENTS && s.players[k].Some? && Roster(s.players, s.playerCount)
    ensures Roster(SpawnPlayer(c, s, k).players, SpawnPlayer(c, s, k).playerCount)
  {
    RosterKept(s.players, k, SpawnPlayer(c, s, k).players[k].value, s.playerCount);
  }

  lemma AddOther(s: State, s': State, o: Obj)
    requires SpawnersOk(s) && Singletons(s.objs) && !o.destruct.ResetSpawn?
    requires s'.objs == AddObject(s, o).objs && s'.dropped == AddObject(s, o).dropped && s'.powerups == s.powerups
    ensures SpawnersOk(s') && Singletons(s'.objs)
    ensures FlagKept(s.objs, 0) ==> FlagKept(s'.objs, 0)
    ensures FlagKept(s.objs, 1) ==> FlagKept(s'.objs, 1)
    ensures s.dropped <= s'.dropped
  {
    AddKeeps(s, o);
    AddSingleton(s.objs, FirstFree(s.objs, 0), o);
    KeepSpawners(s, s');
    KeepFlag(s.objs, s'.objs, 0);
    KeepFlag(s.objs, s'.objs, 1);
  }

  lemma SpawnSlots(c: Config, s: State, d: nat, k: nat)
    requires k < MAXCLIENTS && s.players[k].Some? && SlotsOk(s, MAXOBJS, d) && Tankless(s.objs, k)
    requires s.players[k].value.team < 2 && !s.players[k].value.flags.spectator
    ensures SlotsOk(SpawnPlayer(c, s, k), MAXOBJS, d)
  {
    var s' := SpawnPlayer(c, s, k);
    var f := FirstFree(s.objs, 0);
    TankSane(c, k, s.players[k].value);
    forall i | 0 <= i < MAXOBJS ensures SlotOk(s', MAXOBJS, d, i) {
      if i != f {
        assert SlotOk(s, MAXOBJS, d, i);
      }
    }
  }

  lemma SpawnPlayers(c: Config, s: State, b: nat, k: nat)
    requires k < MAXCLIENTS && s.players[k].Some? && PlayersOk(s, b, k) && s.players[k].value.team < 2
    requires !s.players[k].value.flags.spectator
    ensures PlayersOk(SpawnPlayer(c, s, k), b, -1)
  {
    AddKeeps(s, NewTank(c, k, s.players[k].value));
    forall j | 0 <= j < MAXCLIENTS ensures PlayerOk(SpawnPlayer(c, s, k), b, -1, j) { assert PlayerOk(s, b, k, j); }
  }

  lemma SameFree(objs: ObjList, i: nat, o: Obj, j: nat)
    requires i < MAXOBJS && objs[i].Some? && j <= MAXOBJS
    ensures FirstFree(objs[i := Some(o)], j) == FirstFree(objs, j)
    decreases MAXOBJS - j
  {
    if j < MAXOBJS { SameFree(objs, i, o, j + 1); }
  }

  /** The wreck in slot `i` is swept away and its player gets a new tank in another slot. */
  lemma RespawnInv(c: Config, s: State, i: nat)
    requires i < MAXOBJS && s.objs[i].Some? && Inv(s, MAXOBJS, i, -1)
    requires IsPlayerObject(s.players, s.objs[i].value, i) && s.objs[i].value.flags.destroyed
    ensures Inv(CleanSlot(c, s, i), MAXOBJS, i + 1, -1)
  {
    var o := s.objs[i].value;
    var k := o.owner;
    assert SlotOk(s, MAXOBJS, i, i) && PlayerOk(s, MAXOBJS, -1, k);
    var sA := Put(s, i, Vanished(o));
    ExemptPlayer(s, MAXOBJS, i, k);
    VanishObj(s, MAXOBJS, i, k, i);
    LoneTank(s, i);
    SpawnInv(c, sA, i, k);
    SameFree(s.objs, i, Vanished(o), 0);
    var sB := SpawnPlayer(c, sA, k);
    assert sB.objs[i] == Some(Vanished(o));
    SweepInv(sB, i);
    Reborn(c, s, i);
  }

  lemma Reborn(c: Config, s: State, i: nat)
    requires i < MAXOBJS && s.objs[i].Some? && IsPlayerObject(s.players, s.objs[i].value, i)
        && s.objs[i].value.flags.destroyed
    ensures var sB := SpawnPlayer(c, Put(s, i, Vanished(s.objs[i].value)), s.objs[i].value.owner);
            CleanSlot(c, s, i) == sB.(objs := sB.objs[i := None])
  {
    var sA := Put(s, i, Vanished(s.objs[i].value));
    SameFree(s.objs, i, Vanished(s.objs[i].value), 0);
    var f := FirstFree(s.objs, 0);
    if f < MAXOBJS {
      var t := Some(NewTank(c, s.objs[i].value.owner, s.players[s.objs[i].value.owner].value));
      assert sA.objs[f := t][i := None] == s.objs[f := t][i := None];
    } else {
      assert sA.objs[i := None] == s.objs[i := None];
    }
  }

  lemma LoneTank(s: State, i: nat)
    requires i < MAXOBJS && s.objs[i].Some? && Inv(s, MAXOBJS, i, -1) && IsPlayerObject(s.players, s.objs[i].value, i)
    ensures Tankless(s.objs[i := Some(Vanished(s.objs[i].value))], s.objs[i].value.owner)
  {
    var k := s.objs[i].value.owner;
    var objs := s.objs[i := Some(Vanished(s.objs[i].value))];
    forall j | 0 <= j < MAXOBJS && objs[j].Some? && (objs[j].value.kind == Tank || objs[j].value.kind == Explosion)
      ensures objs[j].value.owner != k
    {
      assert SlotOk(s, MAXOBJS, i, j);
    }
  }

  lemma CleanSlotInv(c: Config, s: State, i: nat)
    requires i < MAXOBJS && Inv(s, MAXOBJS, i, -1)
    ensures Inv(CleanSlot(c, s, i), MAXOBJS, i + 1, -1)
  {
    if s.objs[i].None? || !(s.objs[i].value.flags.vanished || s.objs[i].value.flags.destroyed) {
      SkipSlot(s, i);
    } else if IsPlayerObject(s.players, s.objs[i].value, i) && s.objs[i].value.flags.destroyed {
      RespawnInv(c, s, i);
    } else {
      SweepInv(s, i);
    }
  }

  lemma CleanInv(c: Config, s: State, i: nat)
    requires i <= MAXOBJS && Inv(s, MAXOBJS, i, -1)
    ensures Inv(CleanFrom(c, s, i), MAXOBJS, MAXOBJS, -1)
    decreases MAXOBJS - i
  {
    if i < MAXOBJS {
      CleanSlotInv(c, s, i);
      CleanInv(c, CleanSlot(c, s, i), i + 1);
    }
  }

  // ---- clients lost, buried or evicted

  lemma SendInv(s: State, lost: set<nat>, k: nat)
    requires k <= MAXCLIENTS && Inv(s, MAXOBJS, 0, -1)
    ensures Inv(SendFrom(s, lost, k), MAXOBJS, 0, -1)
    decreases MAXCLIENTS - k
  {
    if k < MAXCLIENTS {
      if s.players[k].Some? && k in lost {
        RemoveInv(s, MAXOBJS, 0, k);
        SendInv(RemoveClient(s, k), lost, k + 1);
      } else {
        SendInv(s, lost, k + 1);
      }
    }
  }

  lemma VanishGame(s: State, k: nat, i: nat)
    requires i <= MAXOBJS
    ensures VanishFrom(s, k, i).players == s.players && VanishFrom(s, k, i).gameOver == s.gameOver
    ensures VanishFrom(s, k, i).powerups == s.powerups && VanishFrom(s, k, i).draws == s.draws
    decreases MAXOBJS - i
  {
    if i < MAXOBJS { VanishGame(VanishSlot(s, k, i), k, i + 1); }
  }

  lemma RemovedPlayers(s: State, k: nat)
    requires k < MAXCLIENTS && s.players[k].Some?
    ensures RemoveClient(s, k).players == if s.players[k].value.flags.spectator then s.players[k := None]
        else Ordered(s.players[k := None])
    ensures RemoveClient(s, k).gameOver == s.gameOver && RemoveClient(s, k).powerups == s.powerups
    ensures RemoveClient(s, k).draws == s.draws
  {
    VanishGame(s, k, 0);
  }

  lemma TeamedPlayers(s: State, b: nat, x: int)
    requires PlayersOk(s, b, x)
    ensures Teamed(s.players)
  {
    forall j | 0 <= j < MAXCLIENTS && s.players[j].Some? ensures s.players[j].value.team <= 2 {
      assert PlayerOk(s, b, x, j);
    }
  }

  /** Removing a client touches no other player but for the numbers. */
  lemma RemoveFrame(s: State, b: nat, c: nat, k: nat)
    requires k < MAXCLIENTS && s.players[k].Some? && Inv(s, b, c, -1)
    ensures SameTeams(s.players[k := None], RemoveClient(s, k).players)
    ensures RemoveClient(s, k).gameOver == s.gameOver && RemoveClient(s, k).powerups == s.powerups
    ensures RemoveClient(s, k).draws == s.draws
  {
    RemovedPlayers(s, k);
    TeamedPlayers(s, b, -1);
    hide RemoveClient, Inv, SameTeams;
    if s.players[k].value.flags.spectator {
      SameTeamsSelf(s.players[k := None]);
    } else {
      OrderedTeams(s.players[k := None]);
    }
  }

  predicate NoneDead(players: PlayerList, k: nat)
    requires k <= MAXCLIENTS
  {
    forall j :: 0 <= j < k && players[j].Some? ==> !players[j].value.flags.dead
  }

  lemma BuryInv(s: State, k: nat)
    requires k <= MAXCLIENTS && Inv(s, MAXOBJS, MAXOBJS, -1) && NoneDead(s.players, k)
    ensures Inv(BuryFrom(s, k), MAXOBJS, MAXOBJS, -1) && NoneDead(BuryFrom(s, k).players, MAXCLIENTS)
    decreases MAXCLIENTS - k
  {
    if k < MAXCLIENTS {
      if s.players[k].Some? && s.players[k].value.flags.dead {
        RemoveInv(s, MAXOBJS, MAXOBJS, k);
        RemoveFrame(s, MAXOBJS, MAXOBJS, k);
        BuryInv(RemoveClient(s, k), k + 1);
      } else {
        BuryInv(s, k + 1);
      }
    }
  }

  predicate OnlySpectators(players: PlayerList, k: nat)
    requires k <= MAXCLIENTS
  {
    forall j :: 0 <= j < k && players[j].Some? ==> players[j].value.flags.spectator
  }

  lemma StillSpectators(players: PlayerList, players': PlayerList, k: nat)
    requires k < MAXCLIENTS && OnlySpectators(players, k) && SameTeams(players[k := None], players')
    ensures OnlySpectators(players', k + 1)
  {
  }

  lemma EvictInv(s: State, k: nat)
    requires k <= MAXCLIENTS && Inv(s, MAXOBJS, MAXOBJS, -1) && OnlySpectators(s.players, k)
    ensures Inv(EvictFrom(s, k), MAXOBJS, MAXOBJS, -1) && OnlySpectators(EvictFrom(s, k).players, MAXCLIENTS)
    decreases MAXCLIENTS - k
  {
    if k < MAXCLIENTS {
      if s.players[k].Some? && !s.players[k].value.flags.spectator {
        RemoveInv(s, MAXOBJS, MAXOBJS, k);
        RemoveFrame(s, MAXOBJS, MAXOBJS, k);
        StillSpectators(s.players, RemoveClient(s, k).players, k);
        EvictInv(RemoveClient(s, k), k + 1);
      } else {
        EvictInv(s, k + 1);
      }
    }
  }
}
