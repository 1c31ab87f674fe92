/** Powerup spawn points from frame to frame. */
module SpawnerRuns {
  import opened CtfServ
  import opened Game
  import opened GameInvariant
  import opened FrameInvariant
  import opened LeavingInvariant
  import opened RunInvariant
  import opened Runs
  import opened Tracking
  import opened LifeCycle

  lemma UpdateFromPowerups(s: State, i: nat)
    requires i <= MAXOBJS
    ensures UpdateFrom(s, i).powerups == s.powerups && UpdateFrom(s, i).draws == s.draws
    decreases MAXOBJS - i
  {
    if i < MAXOBJS { UpdateFromPowerups(UpdateSlot(s, i), i + 1); }
  }

  lemma MapPowerups(c: Config, s: State, i: nat)
    requires ValidConfig(c) && i <= MAXOBJS
    ensures MapFrom(c, s, i).powerups == s.powerups && MapFrom(c, s, i).draws == s.draws
    decreases MAXOBJS - i
  {
    if i < MAXOBJS { MapPowerups(c, MapSlot(c, s, i), i + 1); }
  }

  lemma PairsPowerups(c: Config, s: State, i: nat, j: nat)
    requires ValidConfig(c) && i < j <= MAXOBJS
    ensures PairsFrom(c, s, i, j).powerups == s.powerups && PairsFrom(c, s, i, j).draws == s.draws
    decreases MAXOBJS - i, MAXOBJS - j
  {
    if j < MAXOBJS { PairsPowerups(c, CollidePair(c, s, i, j), i, j + 1); }
    else if i + 2 < MAXOBJS { PairsPowerups(c, s, i + 1, i + 2); }
  }

  function Ticked(n: nat): nat { if n == 0 then 0 else n - 1 }

  lemma SpawnTicksCount(s: State, n: nat, m: nat)
    requires n <= |s.powerups| && m < |s.powerups|
    ensures |SpawnTicks(s, n).powerups| == |s.powerups| && SpawnTicks(s, n).draws == s.draws
    ensures SpawnTicks(s, n).powerups[m].cooldown == if n <= m then Ticked(s.powerups[m].cooldown)
        else s.powerups[m].cooldown
    decreases |s.powerups| - n
  {
    if n < |s.powerups| { SpawnTicksCount(SpawnTick(s, n), n + 1, m); }
  }

  // ---- what the destructors do to the spawn points

  predicate Smashed(objs: ObjList, j: nat) {
    j < MAXOBJS && objs[j].Some? && objs[j].value.flags.destroyed && objs[j].value.destruct.ResetSpawn?
  }

  /** The destroyed powerups in the slots from `i` on. */
  function SmashedFrom(objs: ObjList, i: nat): set<nat> { set j: nat | i <= j < MAXOBJS && Smashed(objs, j) }

  /** Spawn point `m`'s powerup is among them. */
  predicate SmashedAt(objs: ObjList, i: nat, m: nat) {
    exists j :: i <= j < MAXOBJS && Smashed(objs, j) && SpawnedBy(objs, m, j)
  }

  predicate Restarted(was: PowerSpawn, now: PowerSpawn) {
    was.cooldown == 0 && MINPWRCOOLDOWN <= now.cooldown < MAXPWRCOOLDOWN
  }

  lemma DestructSpawnerSlot(c: Config, s: State, i: nat, m: nat)
    requires i < MAXOBJS && Inv(s, i, 0, -1) && m < |s.powerups|
    ensures var t := DestructSlot(c, s, i);
            && |t.powerups| == |s.powerups|
            && (if Smashed(s.objs, i) && SpawnedBy(s.objs, m, i) then Restarted(s.powerups[m], t.powerups[m])
                else t.powerups[m] == s.powerups[m])
            && t.draws == s.draws + if Smashed(s.objs, i) then 1 else 0
  {
    if Smashed(s.objs, i) { ResetSpawnInv(c, s, i); }
  }

  lemma OthersSmashed(c: Config, s: State, i: nat, j: nat)
    requires i < j < MAXOBJS
    ensures var t := DestructSlot(c, s, i);
            (Smashed(t.objs, j) <==> Smashed(s.objs, j)) && (Smashed(s.objs, j) ==> t.objs[j] == s.objs[j])
  {
  }

  lemma LaterSmashed(c: Config, s: State, i: nat)
    requires i < MAXOBJS
    ensures var t := DestructSlot(c, s, i);
            forall j :: i < j < MAXOBJS ==>
              (Smashed(t.objs, j) <==> Smashed(s.objs, j)) && (Smashed(s.objs, j) ==> t.objs[j] == s.objs[j])
  {
    hide DestructSlot, Smashed;
    forall j | i < j < MAXOBJS
      ensures var t := DestructSlot(c, s, i);
              (Smashed(t.objs, j) <==> Smashed(s.objs, j)) && (Smashed(s.objs, j) ==> t.objs[j] == s.objs[j])
    {
      OthersSmashed(c, s, i, j);
    }
  }

  lemma SmashedCount(c: Config, s: State, i: nat)
    requires i < MAXOBJS
    ensures |SmashedFrom(s.objs, i)| == |SmashedFrom(DestructSlot(c, s, i).objs, i + 1)| + if Smashed(s.objs, i) then 1
        else 0
  {
    hide DestructSlot, Smashed;
    LaterSmashed(c, s, i);
    var b := i + 1;
    var here: set<nat> := if Smashed(s.objs, i) then {i} else {};
    assert SmashedFrom(s.objs, i) == SmashedFrom(DestructSlot(c, s, i).objs, b) + here;
  }

  lemma SmashedNext(c: Config, s: State, i: nat, m: nat)
    requires i < MAXOBJS
    ensures var t := DestructSlot(c, s, i);
            SmashedAt(s.objs, i, m) <==> SmashedAt(t.objs, i + 1, m) || (Smashed(s.objs, i) && SpawnedBy(s.objs, m, i))
  {
    hide DestructSlot, Smashed;
    LaterSmashed(c, s, i);
    var t, b := DestructSlot(c, s, i), i + 1;
    if SmashedAt(t.objs, b, m) {
      var j :| b <= j < MAXOBJS && Smashed(t.objs, j) && SpawnedBy(t.objs, m, j);
      assert SpawnedBy(s.objs, m, j);
    }
    if SmashedAt(s.objs, i, m) && !(Smashed(s.objs, i) && SpawnedBy(s.objs, m, i)) {
      var j :| i <= j < MAXOBJS && Smashed(s.objs, j) && SpawnedBy(s.objs, m, j);
      assert SpawnedBy(t.objs, m, j);
    }
  }

  /** The destructors restart a spawn point exactly if its powerup is destroyed, and draw one
      random number for each destroyed powerup. */
  lemma {:induction false} DestructSpawner(c: Config, s: State, i: nat, m: nat)
    requires i <= MAXOBJS && Inv(s, i, 0, -1) && m < |s.powerups|
    ensures var t := DestructFrom(c, s, i);
            && |t.powerups| == |s.powerups| && t.draws == s.draws + |SmashedFrom(s.objs, i)|
            && (if SmashedAt(s.objs, i, m) then Restarted(s.powerups[m], t.powerups[m])
                else t.powerups[m] == s.powerups[m])
    decreases MAXOBJS - i
  {
    if i < MAXOBJS {
      hide Inv, DestructSlot, Smashed, SmashedFrom, SmashedAt;
      DestructSlotInv(c, s, i);
      DestructSpawnerSlot(c, s, i, m);
      SmashedNext(c, s, i, m);
      SmashedCount(c, s, i);
      DestructSpawner(c, DestructSlot(c, s, i), i + 1, m);
    } else {
      assert SmashedFrom(s.objs, i) == {};
    }
  }

  lemma ViewsPowerups(s: State, n: nat)
    requires n <= MAXCLIENTS
    ensures ViewsFrom(s, n).powerups == s.powerups && ViewsFrom(s, n).draws == s.draws
  {
    ViewsStandings(s, n);
  }

  lemma SendPowerups(s: State, lost: set<nat>, n: nat)
    requires n <= MAXCLIENTS
    ensures SendFrom(s, lost, n).powerups == s.powerups && SendFrom(s, lost, n).draws == s.draws
    decreases MAXCLIENTS - n
  {
    if n < MAXCLIENTS {
      if s.players[n].Some? && n in lost {
        RemovedPlayers(s, n);
        SendPowerups(RemoveClient(s, n), lost, n + 1);
      } else {
        SendPowerups(s, lost, n + 1);
      }
    }
  }

  lemma CleanPowerups(c: Config, s: State, n: nat)
    requires n <= MAXOBJS
    ensures CleanFrom(c, s, n).powerups == s.powerups && CleanFrom(c, s, n).draws == s.draws
    decreases MAXOBJS - n
  {
    if n < MAXOBJS { CleanPowerups(c, CleanSlot(c, s, n), n + 1); }
  }

  lemma BuryPowerups(s: State, n: nat)
    requires n <= MAXCLIENTS
    ensures BuryFrom(s, n).powerups == s.powerups && BuryFrom(s, n).draws == s.draws
    decreases MAXCLIENTS - n
  {
    if n < MAXCLIENTS {
      if s.players[n].Some? && s.players[n].value.flags.dead {
        RemovedPlayers(s, n);
        BuryPowerups(RemoveClient(s, n), n + 1);
      } else {
        BuryPowerups(s, n + 1);
      }
    }
  }

  predicate Resets(c: Config, s: State, lost: set<nat>)
    requires ValidConfig(c)
  {
    var b := BuryFrom(CleanFrom(c, Sent(c, s, lost), 0), 0);
    b.gameOver || (b.running && b.playerCount == 0)
  }

  /** Up to the destructors a frame only counts the cooldowns down. */
  lemma CountedDown(c: Config, s: State, m: nat)
    requires ValidConfig(c) && Boundary(s) && m < |s.powerups|
    ensures var d := BeforeDestruction(c, s);
            && Inv(d, 0, 0, -1) && |d.powerups| == |s.powerups| && d.draws == s.draws
            && d.powerups[m].cooldown == Ticked(s.powerups[m].cooldown)
  {
    hide Inv;
    StartFrame(s);
    UpdateInv(s, -1, 0);
    var s1 := UpdateFrom(s, 0);
    UpdateFromPowerups(s, 0);
    SpawnTicksInv(s1, -1, 0);
    SpawnTicksCount(s1, 0, m);
    var s2 := SpawnTicks(s1, 0);
    MapInv(c, s2, 0);
    MapPowerups(c, s2, 0);
    PairsInv(c, MapFrom(c, s2, 0), 0, 1);
    PairsPowerups(c, MapFrom(c, s2, 0), 0, 1);
  }

  /** After the destructors nothing but a reset touches the spawn points. */
  lemma SpawnersSettled(c: Config, s: State, lost: set<nat>)
    requires ValidConfig(c) && !Resets(c, s, lost)
    ensures Frame(c, s, lost).powerups == DoObjectUpdates(c, s).powerups
        && Frame(c, s, lost).draws == DoObjectUpdates(c, s).draws
  {
    hide DoObjectUpdates;
    var m := DoObjectUpdates(c, s);
    ViewsPowerups(m, 0);
    SendPowerups(TimeTick(c, ViewsFrom(m, 0)), lost, 0);
    CleanPowerups(c, Sent(c, s, lost), 0);
    BuryPowerups(CleanFrom(c, Sent(c, s, lost), 0), 0);
  }

  /** In a frame without a reset a spawn point restarts exactly if its powerup is destroyed in
      it, with a cooldown from 240 to 719; otherwise its cooldown falls by one down to zero.
      There is one draw for each destroyed powerup, so none restarts anything twice. */
  lemma SpawnerFrame(c: Config, s: State, lost: set<nat>, m: nat)
    requires ValidConfig(c) && Boundary(s) && m < |s.powerups| && !Resets(c, s, lost)
    ensures var d, t := BeforeDestruction(c, s), Frame(c, s, lost);
            && |t.powerups| == |s.powerups| && t.draws == s.draws + |SmashedFrom(d.objs, 0)|
            && var was, now := s.powerups[m].cooldown, t.powerups[m].cooldown;
               if SmashedAt(d.objs, 0, m) then was <= 1 && MINPWRCOOLDOWN <= now < MAXPWRCOOLDOWN
               else now == Ticked(was)
  {
    hide Inv, Boundary, Resets, Frame, SmashedFrom, SmashedAt, DestructFrom, BeforeDestruction;
    CountedDown(c, s, m);
    DestructSpawner(c, BeforeDestruction(c, s), 0, m);
    UpdatesFromThere(c, s);
    SpawnersSettled(c, s, lost);
  }

  lemma UpdatesFromThere(c: Config, s: State)
    requires ValidConfig(c)
    ensures DoObjectUpdates(c, s) == DestructFrom(c, BeforeDestruction(c, s), 0)
  {
  }

  /** Two destroyed powerups never belong to one spawn point. */
  lemma SmashedOnce(c: Config, s: State, i: nat, j: nat)
    requires ValidConfig(c) && Boundary(s)
    requires var d := BeforeDestruction(c, s);
             Smashed(d.objs, i) && Smashed(d.objs, j) && d.objs[i].value.destruct == d.objs[j].value.destruct
    ensures i == j
  {
    StartFrame(s);
    UpdateInv(s, -1, 0);
    SpawnTicksInv(UpdateFrom(s, 0), -1, 0);
    MapInv(c, SpawnTicks(UpdateFrom(s, 0), 0), 0);
    PairsInv(c, MapFrom(c, SpawnTicks(UpdateFrom(s, 0), 0), 0), 0, 1);
    var d := BeforeDestruction(c, s);
    assert Singletons(d.objs);
  }

  /** At a frame boundary a spawn point has either a running cooldown and no powerup on the map,
      or no cooldown and exactly one powerup of its own kind. */
  lemma OnePowerup(s: State, m: nat)
    requires Boundary(s) && m < |s.powerups|
    ensures s.powerups[m].cooldown > 0 ==> forall i :: 0 <= i < MAXOBJS ==> !SpawnedBy(s.objs, m, i)
    ensures s.powerups[m].cooldown == 0 && s.powerups[m].kind !in s.dropped ==>
              exists i :: 0 <= i < MAXOBJS && SpawnedBy(s.objs, m, i) && s.objs[i].value.kind == s.powerups[m].kind
    ensures forall i, j ::
              0 <= i < MAXOBJS && 0 <= j < MAXOBJS && SpawnedBy(s.objs, m, i) && SpawnedBy(s.objs, m, j) ==> i == j
  {
    assert SpawnerOk(s, m);
    forall i | 0 <= i < MAXOBJS && SpawnedBy(s.objs, m, i)
        ensures s.powerups[m].cooldown == 0 && s.objs[i].value.kind == s.powerups[m].kind {
      assert SlotOk(s, MAXOBJS, MAXOBJS, i);
    }
  }
}
