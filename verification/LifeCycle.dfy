/** Lives, wrecks and respawns, and the tank's gun: what happens to one player over time. */
module LifeCycle {
  import opened CtfServ
  import opened Game
  import opened Matchmake
  import opened GameInvariant
  import opened FrameInvariant
  import opened LeavingInvariant
  import opened RunInvariant
  import opened Runs
  import opened Scores
  import opened Tracking

  // ---- other clients leave

  /** If player `k` is still here then nothing of theirs has changed but the number. */
  predicate Stays(s: State, s': State, k: nat)
    requires k < MAXCLIENTS
  {
    s'.players[k].Some? ==>
      && s.players[k].Some?
      && SameButNumber(s.players[k].value, s'.players[k].value)
      && forall j :: 0 <= j < MAXOBJS && s.objs[j].Some? && s.objs[j].value.owner == k ==> s'.objs[j] == s.objs[j]
  }

  lemma VanishAt(s: State, q: nat, i: nat, j: nat)
    requires i <= MAXOBJS && j < MAXOBJS && s.objs[j].Some? && s.objs[j].value.owner != q
    ensures VanishFrom(s, q, i).objs[j] == s.objs[j]
    decreases MAXOBJS - i
  {
    if i < MAXOBJS {
      if s.objs[i].Some? {
        var o := s.objs[i].value;
        AddAt(s, NewObject(Flag, OtherTeam(o.team), o.x, o.y, NoDestructor), j);
      }
      VanishAt(VanishSlot(s, q, i), q, i + 1, j);
    }
  }

  lemma RemoveStays(s: State, b: nat, c: nat, q: nat, k: nat)
    requires q < MAXCLIENTS && s.players[q].Some? && Inv(s, b, c, -1) && k < MAXCLIENTS
    ensures Stays(s, RemoveClient(s, q), k)
  {
    RemoveFrame(s, b, c, q);
    assert s.players[q := None][k] == if k == q then None else s.players[k];
    if k != q {
      forall j | 0 <= j < MAXOBJS && s.objs[j].Some? && s.objs[j].value.owner == k
          ensures RemoveClient(s, q).objs[j] == s.objs[j] {
        VanishAt(s, q, 0, j);
      }
    }
  }

  lemma StaysTrans(s: State, s1: State, s2: State, k: nat)
    requires k < MAXCLIENTS && Stays(s, s1, k) && Stays(s1, s2, k)
    ensures Stays(s, s2, k)
  {
    if s2.players[k].Some? {
      forall j | 0 <= j < MAXOBJS && s.objs[j].Some? && s.objs[j].value.owner == k ensures s2.objs[j] == s.objs[j] {
        assert s1.objs[j] == s.objs[j];
      }
    }
  }

  lemma SendStays(s: State, lost: set<nat>, n: nat, k: nat)
    requires n <= MAXCLIENTS && k < MAXCLIENTS && Inv(s, MAXOBJS, 0, -1)
    ensures Stays(s, SendFrom(s, lost, n), k)
    decreases MAXCLIENTS - n
  {
    if n < MAXCLIENTS {
      if s.players[n].Some? && n in lost {
        RemoveInv(s, MAXOBJS, 0, n);
        RemoveStays(s, MAXOBJS, 0, n, k);
        SendStays(RemoveClient(s, n), lost, n + 1, k);
        StaysTrans(s, RemoveClient(s, n), SendFrom(s, lost, n), k);
      } else {
        SendStays(s, lost, n + 1, k);
      }
    }
  }

  lemma BuryStays(s: State, n: nat, k: nat)
    requires n <= MAXCLIENTS && k < MAXCLIENTS && Inv(s, MAXOBJS, MAXOBJS, -1)
    ensures Stays(s, BuryFrom(s, n), k)
    decreases MAXCLIENTS - n
  {
    if n < MAXCLIENTS {
      if s.players[n].Some? && s.players[n].value.flags.dead {
        RemoveInv(s, MAXOBJS, MAXOBJS, n);
        RemoveStays(s, MAXOBJS, MAXOBJS, n, k);
        BuryStays(RemoveClient(s, n), n + 1, k);
        StaysTrans(s, RemoveClient(s, n), BuryFrom(s, n), k);
      } else {
        BuryStays(s, n + 1, k);
      }
    }
  }

  /** A reset leaves no player but spectators. */
  lemma ResetEvicts(c: Config, s: State, k: nat)
    requires ValidConfig(c) && Inv(s, MAXOBJS, MAXOBJS, -1) && k < MAXCLIENTS
    ensures ResetGame(c, s).players[k].Some? ==> ResetGame(c, s).players[k].value.flags.spectator
  {
    EvictInv(s, 0);
    var s2 := Cleared(c, EvictFrom(s, 0));
    NewFlags(c, s2);
    forall m | 0 <= m < |s2.powerups| ensures s2.powerups[m].kind == Fuel || s2.powerups[m].kind == Ammo {
      assert SpawnerOk(EvictFrom(s, 0), m);
    }
    RestartAllReady(c, CreateFlags(c, s2), 0);
  }

  // ---- cleaning

  lemma CleanKeep(c: Config, s: State, n: nat, j: nat)
    requires n <= MAXOBJS && j < MAXOBJS && s.objs[j].Some?
    requires !s.objs[j].value.flags.destroyed && !s.objs[j].value.flags.vanished
    ensures CleanFrom(c, s, n).objs[j] == s.objs[j]
    decreases MAXOBJS - n
  {
    if n < MAXOBJS {
      CleanKeep(c, CleanSlot(c, s, n), n + 1, j);
    }
  }

  /** Cleaning leaves a player alone unless it sweeps away the object that `tank` points to. */
  lemma CleanPlayer(c: Config, s: State, n: nat, k: nat)
    requires n <= MAXOBJS && k < MAXCLIENTS && s.players[k].Some?
    requires s.players[k].value.tank.Some? ==>
               var t := s.players[k].value.tank.value;
               t < MAXOBJS && s.objs[t].Some? && !s.objs[t].value.flags.destroyed && !s.objs[t].value.flags.vanished
    ensures CleanFrom(c, s, n).players[k] == s.players[k]
    decreases MAXOBJS - n
  {
    if n < MAXOBJS {
      hide CleanSlot;
      CleanSlotPlayer(c, s, n, k);
      CleanPlayer(c, CleanSlot(c, s, n), n + 1, k);
    }
  }

  lemma CleanSlotPlayer(c: Config, s: State, n: nat, k: nat)
    requires n < MAXOBJS && k < MAXCLIENTS && s.players[k].Some?
    requires s.players[k].value.tank.Some? ==>
               var t := s.players[k].value.tank.value;
               t < MAXOBJS && s.objs[t].Some? && !s.objs[t].value.flags.destroyed && !s.objs[t].value.flags.vanished
    ensures CleanSlot(c, s, n).players[k] == s.players[k]
    ensures s.players[k].value.tank.Some? ==>
        CleanSlot(c, s, n).objs[s.players[k].value.tank.value] == s.objs[s.players[k].value.tank.value]
  {
  }

  predicate NewTankOf(c: Config, s: State, k: nat, was: Player)
    requires k < MAXCLIENTS
  {
    && s.players[k].Some?
    && s.players[k].value.lives == was.lives
    && (s.players[k].value.tank.Some? ==>
          var t := s.players[k].value.tank.value;
          t < MAXOBJS && s.objs[t] == Some(NewTank(c, k, was)))
    && (s.players[k].value.tank == None ==> Tank in s.dropped)
  }

  predicate Doomed(s: State, k: nat)
    requires k < MAXCLIENTS
  {
    && s.players[k].Some? && s.players[k].value.tank.Some?
    && var t := s.players[k].value.tank.value;
       t < MAXOBJS && s.objs[t].Some? && s.objs[t].value.owner == k && s.objs[t].value.flags.destroyed
  }

  lemma CleanOther(c: Config, s: State, n: nat, k: nat)
    requires n < MAXOBJS && k < MAXCLIENTS && Doomed(s, k) && n != s.players[k].value.tank.value
    ensures Doomed(CleanSlot(c, s, n), k) && CleanSlot(c, s, n).players[k] == s.players[k]
  {
  }

  lemma CleanOwn(c: Config, s: State, k: nat)
    requires k < MAXCLIENTS && Doomed(s, k)
    ensures NewTankOf(c, CleanSlot(c, s, s.players[k].value.tank.value), k, s.players[k].value)
  {
  }

  /** Sweeping a player's wreck gives that player one new tank, unless the list is full. */
  lemma CleanRespawn(c: Config, s: State, n: nat, k: nat)
    requires n <= MAXOBJS && k < MAXCLIENTS && Doomed(s, k) && n <= s.players[k].value.tank.value
    ensures NewTankOf(c, CleanFrom(c, s, n), k, s.players[k].value)
    decreases MAXOBJS - n
  {
    if n < s.players[k].value.tank.value {
      CleanOther(c, s, n, k);
      CleanRespawn(c, CleanSlot(c, s, n), n + 1, k);
    } else {
      CleanOwn(c, s, k);
      KeepNewTank(c, CleanSlot(c, s, n), n + 1, k, s.players[k].value);
    }
  }

  lemma KeepNewTank(c: Config, s: State, n: nat, k: nat, was: Player)
    requires n <= MAXOBJS && k < MAXCLIENTS && NewTankOf(c, s, k, was)
    ensures NewTankOf(c, CleanFrom(c, s, n), k, was)
  {
    if s.players[k].value.tank.Some? {
      CleanKeep(c, s, n, s.players[k].value.tank.value);
    }
    CleanPlayer(c, s, n, k);
    CleanDropped(c, s, n);
  }

  lemma CleanDropped(c: Config, s: State, n: nat)
    requires n <= MAXOBJS
    ensures s.dropped <= CleanFrom(c, s, n).dropped
    decreases MAXOBJS - n
  {
    if n < MAXOBJS { CleanDropped(c, CleanSlot(c, s, n), n + 1); }
  }

  // ---- losing lives

  lemma StandTrans(p: PlayerList, q: PlayerList, r: PlayerList)
    requires SameStandings(p, q) && SameStandings(q, r)
    ensures SameStandings(p, r)
  {
  }

  lemma UpdateFromPlayers(s: State, i: nat)
    requires i <= MAXOBJS
    ensures UpdateFrom(s, i).players == s.players
    decreases MAXOBJS - i
  {
    if i < MAXOBJS { UpdateFromPlayers(UpdateSlot(s, i), i + 1); }
  }

  lemma SpawnTicksPlayers(s: State, n: nat)
    requires n <= |s.powerups|
    ensures SpawnTicks(s, n).players == s.players
    decreases |s.powerups| - n
  {
    if n < |s.powerups| { SpawnTicksPlayers(SpawnTick(s, n), n + 1); }
  }

  lemma MapSlotPlayers(c: Config, s: State, i: nat)
    requires ValidConfig(c) && i < MAXOBJS
    ensures SameStandings(s.players, MapSlot(c, s, i).players)
  {
    EndMatchPlayers(s.players, 0);
  }

  lemma MapPlayers(c: Config, s: State, i: nat)
    requires ValidConfig(c) && i <= MAXOBJS
    ensures SameStandings(s.players, MapFrom(c, s, i).players)
    decreases MAXOBJS - i
  {
    if i < MAXOBJS {
      MapSlotPlayers(c, s, i);
      MapPlayers(c, MapSlot(c, s, i), i + 1);
      StandTrans(s.players, MapSlot(c, s, i).players, MapFrom(c, s, i).players);
    }
  }

  lemma PairsPlayers(c: Config, s: State, i: nat, j: nat)
    requires ValidConfig(c) && i < j <= MAXOBJS
    ensures PairsFrom(c, s, i, j).players == s.players
    decreases MAXOBJS - i, MAXOBJS - j
  {
    if j < MAXOBJS { PairsPlayers(c, CollidePair(c, s, i, j), i, j + 1); }
    else if i + 2 < MAXOBJS { PairsPlayers(c, s, i + 1, i + 2); }
  }

  /** Until the destructors run nobody's tank, team or lives change. */
  lemma PlayersThrough(c: Config, s: State)
    requires ValidConfig(c)
    ensures SameStandings(s.players, BeforeDestruction(c, s).players)
  {
    var s1 := SpawnTicks(UpdateFrom(s, 0), 0);
    UpdateFromPlayers(s, 0);
    SpawnTicksPlayers(UpdateFrom(s, 0), 0);
    MapPlayers(c, s1, 0);
    PairsPlayers(c, MapFrom(c, s1, 0), 0, 1);
  }

  /** Player `k`'s tank has been destroyed in this frame. */
  predicate Lost(s: State, k: nat)
    requires k < MAXCLIENTS
  {
    Doomed(s, k) && s.objs[s.players[k].value.tank.value].value.kind == Tank
  }

  lemma DestructOther(c: Config, s: State, i: nat, k: nat)
    requires i < MAXOBJS && k < MAXCLIENTS && s.players[k].Some? && Inv(s, i, 0, -1)
    requires !(Lost(s, k) && s.players[k].value.tank == Some(i))
    ensures DestructSlot(c, s, i).players[k] == s.players[k]
    ensures Lost(s, k) && i < s.players[k].value.tank.value ==> Lost(DestructSlot(c, s, i), k)
  {
    assert SlotOk(s, i, 0, i);
    if Lost(s, k) { DestructSlotAt(c, s, i, s.players[k].value.tank.value); }
  }

  lemma DestructOwn(c: Config, s: State, k: nat)
    requires k < MAXCLIENTS && Lost(s, k)
    ensures var t := s.players[k].value.tank.value;
            DestructSlot(c, s, t).players[k] == Some(LoseLife(s.players[k].value))
                || s.objs[t].value.destruct != DestroyPlayer
  {
  }

  lemma NoMoreLost(c: Config, s: State, i: nat, k: nat)
    requires i <= MAXOBJS && k < MAXCLIENTS && s.players[k].Some? && Inv(s, i, 0, -1)
    requires Lost(s, k) ==> s.players[k].value.tank.value < i
    ensures DestructFrom(c, s, i).players[k] == s.players[k]
    decreases MAXOBJS - i
  {
    if i < MAXOBJS {
      DestructOther(c, s, i, k);
      DestructSlotInv(c, s, i);
      var s1 := DestructSlot(c, s, i);
      if Lost(s1, k) && i < s1.players[k].value.tank.value { StillLost(c, s, i, k); }
      NoMoreLost(c, s1, i + 1, k);
    }
  }

  /** The destructor of slot `i` dooms nobody else. */
  lemma StillLost(c: Config, s: State, i: nat, k: nat)
    requires i < MAXOBJS && k < MAXCLIENTS && s.players[k].Some? && DestructSlot(c, s, i).players[k] == s.players[k]
    requires Lost(DestructSlot(c, s, i), k) && s.players[k].value.tank.value != i
    ensures Lost(s, k)
  {
    var t := s.players[k].value.tank.value;
    if s.objs[t].Some? {
      DestructSlotAt(c, s, i, t);
    }
  }

  /** The destructors cost a player one life if the player's tank was destroyed, and none otherwise. */
  lemma DestructLives(c: Config, s: State, i: nat, k: nat)
    requires i <= MAXOBJS && k < MAXCLIENTS && s.players[k].Some? && Inv(s, i, 0, -1)
    requires Lost(s, k) ==> i <= s.players[k].value.tank.value
    ensures DestructFrom(c, s, i).players[k] ==
        Some(if Lost(s, k) then LoseLife(s.players[k].value) else s.players[k].value)
    decreases MAXOBJS - i
  {
    if !Lost(s, k) {
      NoMoreLost(c, s, i, k);
    } else {
      var s1 := DestructSlot(c, s, i);
      DestructSlotInv(c, s, i);
      if i < s.players[k].value.tank.value {
        DestructOther(c, s, i, k);
        DestructLives(c, s1, i + 1, k);
      } else {
        assert SlotOk(s, i, 0, i);
        DestructOwn(c, s, k);
        DestructSlotAt(c, s, i, i);
        NoMoreLost(c, s1, i + 1, k);
      }
    }
  }

  // ---- a whole frame, seen by one player

  function Sent(c: Config, s: State, lost: set<nat>): State
    requires ValidConfig(c)
  {
    SendFrom(TimeTick(c, ViewsFrom(DoObjectUpdates(c, s), 0)), lost, 0)
  }

  lemma ViewsStandings(s: State, n: nat)
    requires n <= MAXCLIENTS
    ensures SameStandings(s.players, ViewsFrom(s, n).players)
    ensures ViewsFrom(s, n) == s.(players := ViewsFrom(s, n).players)
    decreases MAXCLIENTS - n
  {
    if n < MAXCLIENTS && s.players[n].Some? {
      var s1 := PutPlayer(s, n, ViewTick(s.players[n].value, TankOf(s, s.players[n].value)));
      ViewsStandings(s1, n + 1);
      StandTrans(s.players, s1.players, ViewsFrom(s, n).players);
    } else if n < MAXCLIENTS {
      ViewsStandings(s, n + 1);
    }
  }

  lemma TimeStandings(c: Config, s: State)
    ensures SameStandings(s.players, TimeTick(c, s).players) && TimeTick(c, s).objs == s.objs
  {
    EndMatchPlayers(s.players, 0);
  }

  /** The state after `updates` as player `k` finds it when the messages have gone out. */
  predicate Delivered(m: State, s: State, k: nat)
    requires k < MAXCLIENTS
  {
    && m.players[k].Some? && s.players[k].Some?
    && s.players[k].value.tank == m.players[k].value.tank
    && s.players[k].value.lives == m.players[k].value.lives
    && s.players[k].value.team == m.players[k].value.team
    && forall j :: 0 <= j < MAXOBJS && m.objs[j].Some? && m.objs[j].value.owner == k ==> s.objs[j] == m.objs[j]
  }

  lemma SentInv(c: Config, s: State, lost: set<nat>)
    requires ValidConfig(c) && Boundary(s)
    ensures Inv(Sent(c, s, lost), MAXOBJS, 0, -1)
  {
    StartFrame(s);
    UpdatesInv(c, s);
    ViewsInv(DoObjectUpdates(c, s), MAXOBJS, 0, -1, 0);
    TimeTickInv(c, ViewsFrom(DoObjectUpdates(c, s), 0), -1);
    SendInv(TimeTick(c, ViewsFrom(DoObjectUpdates(c, s), 0)), lost, 0);
  }

  lemma SentDelivers(c: Config, s: State, lost: set<nat>, k: nat)
    requires ValidConfig(c) && Boundary(s) && k < MAXCLIENTS && Sent(c, s, lost).players[k].Some?
    ensures Delivered(DoObjectUpdates(c, s), Sent(c, s, lost), k)
  {
    StartFrame(s);
    UpdatesInv(c, s);
    var m := DoObjectUpdates(c, s);
    ViewsInv(m, MAXOBJS, 0, -1, 0);
    ViewsStandings(m, 0);
    var v := ViewsFrom(m, 0);
    TimeTickInv(c, v, -1);
    TimeStandings(c, v);
    SendStays(TimeTick(c, v), lost, 0, k);
  }

  lemma CleanSome(c: Config, s: State, n: nat, k: nat)
    requires n <= MAXOBJS && k < MAXCLIENTS
    ensures CleanFrom(c, s, n).players[k].Some? <==> s.players[k].Some?
    decreases MAXOBJS - n
  {
    if n < MAXOBJS { CleanSome(c, CleanSlot(c, s, n), n + 1, k); }
  }

  /** A player who is still here saw no reset. */
  lemma FrameBuried(c: Config, s: State, lost: set<nat>, k: nat)
    requires ValidConfig(c) && Boundary(s) && k < MAXCLIENTS
    requires Frame(c, s, lost).players[k].Some? && !Frame(c, s, lost).players[k].value.flags.spectator
    ensures Frame(c, s, lost) == BuryFrom(CleanFrom(c, Sent(c, s, lost), 0), 0)
  {
    SentInv(c, s, lost);
    CleanInv(c, Sent(c, s, lost), 0);
    BuryInv(CleanFrom(c, Sent(c, s, lost), 0), 0);
    var b := BuryFrom(CleanFrom(c, Sent(c, s, lost), 0), 0);
    if b.running && b.playerCount == 0 {
      InvPlayers(b, b.(gameOver := true), MAXOBJS, MAXOBJS, -1);
      ResetEvicts(c, b.(gameOver := true), k);
    } else if b.gameOver {
      ResetEvicts(c, b, k);
    }
  }

  /** A player who is still here after the frame saw no reset, was not cut off and did not die out. */
  lemma FrameStays(c: Config, s: State, lost: set<nat>, k: nat)
    requires ValidConfig(c) && Boundary(s) && k < MAXCLIENTS
    requires Frame(c, s, lost).players[k].Some? && !Frame(c, s, lost).players[k].value.flags.spectator
    ensures Sent(c, s, lost).players[k].Some?
    ensures Inv(CleanFrom(c, Sent(c, s, lost), 0), MAXOBJS, MAXOBJS, -1)
    ensures Stays(CleanFrom(c, Sent(c, s, lost), 0), Frame(c, s, lost), k)
  {
    var cleaned := CleanFrom(c, Sent(c, s, lost), 0);
    FrameBuried(c, s, lost, k);
    SentInv(c, s, lost);
    CleanInv(c, Sent(c, s, lost), 0);
    BuryStays(cleaned, 0, k);
    CleanSome(c, Sent(c, s, lost), 0, k);
  }

  // ---- lives

  lemma ViewsDead(s: State, n: nat, k: nat)
    requires n <= MAXCLIENTS && k < MAXCLIENTS && s.players[k].Some?
    ensures ViewsFrom(s, n).players[k].Some?
    ensures ViewsFrom(s, n).players[k].value.flags.dead == s.players[k].value.flags.dead
    decreases MAXCLIENTS - n
  {
    if n < MAXCLIENTS {
      if s.players[n] == None { ViewsDead(s, n + 1, k); }
      else { ViewsDead(PutPlayer(s, n, ViewTick(s.players[n].value, TankOf(s, s.players[n].value))), n + 1, k); }
    }
  }

  lemma CleanDead(c: Config, s: State, n: nat, k: nat)
    requires n <= MAXOBJS && k < MAXCLIENTS && s.players[k].Some?
    ensures CleanFrom(c, s, n).players[k].Some?
    ensures CleanFrom(c, s, n).players[k].value.flags.dead == s.players[k].value.flags.dead
    decreases MAXOBJS - n
  {
    if n < MAXOBJS { CleanDead(c, CleanSlot(c, s, n), n + 1, k); }
  }

  /** If a player is still here after a frame, its updates did not end the match. */
  lemma StayedOn(c: Config, s: State, lost: set<nat>, k: nat)
    requires ValidConfig(c) && Boundary(s) && k < MAXCLIENTS
    requires Frame(c, s, lost).players[k].Some? && !Frame(c, s, lost).players[k].value.flags.spectator
    ensures var v := ViewsFrom(DoObjectUpdates(c, s), 0);
            !DoObjectUpdates(c, s).gameOver && !Sent(c, s, lost).gameOver && TimeTick(c, v).players == v.players
  {
    FrameBuried(c, s, lost, k);
    FrameBoundary(c, s, lost);
    hide DoObjectUpdates, ViewsFrom, SendFrom, CleanFrom, BuryFrom, EndMatchFrom, Frame;
    var m := DoObjectUpdates(c, s);
    ViewsScore(m, 0);
    SendScore(TimeTick(c, ViewsFrom(m, 0)), lost, 0);
    CleanScore(c, Sent(c, s, lost), 0);
    BuryScore(CleanFrom(c, Sent(c, s, lost), 0), 0);
  }

  /** And it did not die out in them. */
  lemma StayedAlive(c: Config, s: State, lost: set<nat>, k: nat)
    requires ValidConfig(c) && Boundary(s) && k < MAXCLIENTS
    requires Frame(c, s, lost).players[k].Some? && !Frame(c, s, lost).players[k].value.flags.spectator
    ensures DoObjectUpdates(c, s).players[k].Some? && !DoObjectUpdates(c, s).players[k].value.flags.dead
  {
    FrameStays(c, s, lost, k);
    SentDelivers(c, s, lost, k);
    StayedOn(c, s, lost, k);
    FrameBoundary(c, s, lost);
    hide DoObjectUpdates, ViewsFrom, SendFrom, CleanFrom, BuryFrom, Frame, Inv, TimeTick;
    var m := DoObjectUpdates(c, s);
    ViewsDead(m, 0, k);
    SentStays(c, s, lost, k);
    CleanDead(c, Sent(c, s, lost), 0, k);
  }

  lemma SentStays(c: Config, s: State, lost: set<nat>, k: nat)
    requires ValidConfig(c) && Boundary(s) && k < MAXCLIENTS
    ensures Stays(TimeTick(c, ViewsFrom(DoObjectUpdates(c, s), 0)), Sent(c, s, lost), k)
  {
    hide DoObjectUpdates, ViewsFrom, SendFrom, TimeTick, Inv;
    StartFrame(s);
    UpdatesInv(c, s);
    ViewsInv(DoObjectUpdates(c, s), MAXOBJS, 0, -1, 0);
    TimeTickInv(c, ViewsFrom(DoObjectUpdates(c, s), 0), -1);
    SendStays(TimeTick(c, ViewsFrom(DoObjectUpdates(c, s), 0)), lost, 0, k);
  }

  /** In one frame a player loses one life if the player's tank was destroyed in it and the
      player's lives are counted, and otherwise none; a player who loses the last one is gone. */
  lemma FrameLives(c: Config, s: State, lost: set<nat>, k: nat)
    requires ValidConfig(c) && Boundary(s) && Connected(s, k)
    ensures BeforeDestruction(c, s).players[k].Some?
    ensures var t := Frame(c, s, lost);
            t.players[k].Some? && !t.players[k].value.flags.spectator ==>
              && t.players[k].value.lives == s.players[k].value.lives -
                 (if Lost(BeforeDestruction(c, s), k) && s.players[k].value.lives > -1 then 1 else 0)
              && (s.players[k].value.lives != 0 ==> t.players[k].value.lives != 0)
  {
    StartFrame(s);
    UpdateInv(s, -1, 0);
    SpawnTicksInv(UpdateFrom(s, 0), -1, 0);
    MapInv(c, SpawnTicks(UpdateFrom(s, 0), 0), 0);
    PairsInv(c, MapFrom(c, SpawnTicks(UpdateFrom(s, 0), 0), 0), 0, 1);
    PlayersThrough(c, s);
    DestructLives(c, BeforeDestruction(c, s), 0, k);
    var t := Frame(c, s, lost);
    if t.players[k].Some? && !t.players[k].value.flags.spectator {
      FrameStays(c, s, lost, k);
      SentDelivers(c, s, lost, k);
      CleanLives(c, Sent(c, s, lost), 0, k);
      StayedAlive(c, s, lost, k);
    }
  }

  lemma CleanLives(c: Config, s: State, n: nat, k: nat)
    requires n <= MAXOBJS && k < MAXCLIENTS && s.players[k].Some?
    ensures CleanFrom(c, s, n).players[k].Some? && CleanFrom(c, s, n).players[k].value.lives == s.players[k].value.lives
    decreases MAXOBJS - n
  {
    if n < MAXOBJS { CleanLives(c, CleanSlot(c, s, n), n + 1, k); }
  }
}
