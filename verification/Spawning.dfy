/** How clients, tanks and powerups come into the game (object.c `makeNewPlayer`, `spawnPlayer`,
    `cleanObjects`; matchmake.c `setTeam`; powerups.c `updatePowerSpawns`). */
module Spawning {
  import opened CtfServ
  import opened Game
  import opened Matchmake
  import opened Runs
  import opened Tracking

  predicate IsNewPlayer(c: Config, p: Player, spectator: bool) {
    && p.tank == None && p.team == 2 && p.lives == c.maxLives && p.vpcframes == 0
    && p.flags == PlayerFlags(false, false, false, false, spectator, spectator)
    && p.view == (if spectator then Viewport(0, 0, 65535, 65535) else Viewport(0, 0, 0, 0))
  }

  /** A client that joins gets the first free slot, with all the server's lives, neither tank nor
      team, and as a spectator a view of everything; a player is counted. Nobody else changes but in
      the number within the team. */
  lemma JoinExact(c: Config, s: State, spectator: bool)
    requires ValidConfig(c) && Teamed(s.players)
    ensures var t, f := Step(c, s, Hello(spectator)), FirstSlot(s.players, 0);
            if f == MAXCLIENTS then t == s
            else
              && t.players[f].Some? && IsNewPlayer(c, t.players[f].value, spectator)
              && (forall q :: 0 <= q < MAXCLIENTS && q != f ==>
                    if s.players[q].None? then t.players[q].None?
                    else t.players[q].Some? && SameButNumber(s.players[q].value, t.players[q].value))
              && t == s.(players := t.players, playerCount := s.playerCount + if spectator then 0 else 1)
  {
    hide OrderTeams, InOrder, Numbered, TeamBelow;
    var f := FirstSlot(s.players, 0);
    if f < MAXCLIENTS && !spectator { OrderedTeams(s.players[f := Some(NewPlayer(c, spectator))]); }
  }

  /** A client that chooses a team is on it, and all the players of a team are numbered in the order
      of their slots; another choice than the two teams or none is ignored. */
  lemma TeamExact(c: Config, s: State, k: nat, team: nat)
    requires ValidConfig(c) && Teamed(s.players) && Connected(s, k)
    ensures var t, p := Step(c, s, TeamRequest(k, team)), s.players[k].value;
            && t == s.(players := t.players)
            && (team > 2 ==> t == s)
            && (team <= 2 ==>
                  && InOrder(t.players, MAXCLIENTS)
                  && t.players[k].Some? && SameButNumber(p.(team := team), t.players[k].value)
                  && (forall q :: 0 <= q < MAXCLIENTS && q != k ==>
                        if s.players[q].None? then t.players[q].None?
                        else t.players[q].Some? && SameButNumber(s.players[q].value, t.players[q].value)))
  {
    hide OrderTeams, InOrder, Numbered, TeamBelow;
    if team <= 2 { OrderedTeams(s.players[k := Some(s.players[k].value.(team := team))]); }
  }

  /** A whole tank at rest at the spawn point for its player's team and number. */
  predicate IsNewTank(c: Config, o: Obj, k: nat, p: Player) {
    var sp := c.spawns(2 * p.team + p.playernum);
    && o.kind == Tank && o.owner == k && o.team == p.team
    && o.x == sp.mapx * 16 && o.y == sp.mapy * 16 && o.prevx == o.x && o.prevy == o.y
    && o.commanded == Vec(sp.dir, 0) && o.actual == Vec(sp.dir, 0) && o.push.vel == 0
    && o.hp == 100 && o.armour == 1 && o.ammo == 10 && o.cooldown == 0 && o.ttl == -1
    && o.flags == NOFLAGS && o.ctrls == NOCTRLS && o.destruct == DestroyPlayer
  }

  /** A player who starts to play gets a new tank in the first free slot, if there is one, and
      nothing else changes but that the match is running. */
  lemma StartExact(c: Config, s: State, k: nat)
    requires ValidConfig(c) && Connected(s, k) && !s.players[k].value.flags.spectator
    ensures var t, f, p := Step(c, s, Start(k)), FirstFree(s.objs, 0), s.players[k].value;
            && t.running && Connected(t, k)
            && (if f < MAXOBJS then
                  && t.objs[f].Some? && IsNewTank(c, t.objs[f].value, k, p) && t.dropped == s.dropped
                  && t.players[k] == Some(p.(tank := Some(f), vpcframes := 0))
                else
                  t.dropped == s.dropped + {Tank} && t.players[k] == Some(p.(tank := None, vpcframes := 0)))
            && (forall j :: 0 <= j < MAXOBJS && j != f ==> t.objs[j] == s.objs[j])
            && (forall q :: 0 <= q < MAXCLIENTS && q != k ==> t.players[q] == s.players[q])
            && t == s.(objs := t.objs, players := t.players, running := true, dropped := t.dropped)
  {
  }

  /** The spawn points are ordered as if there were two for each team. In no state of any run do two
      players of a team have the same one, but two players of different teams do, exactly if the
      number of the one of team 0 is two higher. */
  lemma SharedSpawn(s: State, j: nat, k: nat)
    requires Boundary(s) && j != k && Connected(s, j) && Connected(s, k)
    requires s.players[j].value.team <= s.players[k].value.team < 2
    ensures var p, q := s.players[j].value, s.players[k].value;
            2 * p.team + p.playernum == 2 * q.team + q.playernum <==> p.team < q.team && p.playernum == q.playernum + 2
  {
  }

  /** Cleaning a slot: what is destroyed or has vanished goes, and a destroyed tank's player gets a
      new one at once, in the first slot that was free with the old one still in its place. */
  lemma CleanSlotExact(c: Config, s: State, i: nat)
    requires i < MAXOBJS && s.objs[i].Some?
    ensures var t, f, o := CleanSlot(c, s, i), FirstFree(s.objs, 0), s.objs[i].value;
            var gone := o.flags.destroyed || o.flags.vanished;
            var again := o.flags.destroyed && IsPlayerObject(s.players, o, i);
            && t.objs[i] == (if gone then None else s.objs[i])
            && (again && f < MAXOBJS ==>
                  && t.objs[f].Some? && IsNewTank(c, t.objs[f].value, o.owner, s.players[o.owner].value)
                  && t.players[o.owner] == Some(s.players[o.owner].value.(tank := Some(f), vpcframes := 0)))
            && (again && f == MAXOBJS ==> t.dropped == s.dropped + {Tank})
            && (!again ==> t.players == s.players && t.dropped == s.dropped)
            && (forall j :: 0 <= j < MAXOBJS && j != i && !(again && j == f) ==> t.objs[j] == s.objs[j])
  {
  }

  /** A powerup that is destroyed sets its spawn point to the next random number modulo 720, but to
      no less than 240. */
  lemma RestartExact(c: Config, s: State, i: nat, n: nat)
    requires i < MAXOBJS && s.objs[i].Some? && n < |s.powerups|
    requires s.objs[i].value.flags.destroyed && s.objs[i].value.destruct == ResetSpawn(n)
    ensures var t, r := DestructSlot(c, s, i), c.rand(s.draws) % 720;
            && |t.powerups| == |s.powerups|
            && t.powerups[n] == s.powerups[n].(cooldown := if r < 240 then 240 else r)
            && (forall m :: 0 <= m < |s.powerups| && m != n ==> t.powerups[m] == s.powerups[m])
            && t == s.(powerups := t.powerups, draws := s.draws + 1)
  {
  }

  /** A powerup of spawn point `n`, at its place. */
  predicate IsPowerup(s: State, n: nat, o: Obj)
    requires n < |s.powerups|
  {
    && o.kind == s.powerups[n].kind && o.x == s.powerups[n].x && o.y == s.powerups[n].y
    && o.destruct == ResetSpawn(n) && o.owner == -1 && o.armour == 0 && o.ttl == -1 && o.flags == NOFLAGS
  }

  lemma TickAt(s: State, n: nat)
    requires n < |s.powerups| && (s.powerups[n].kind == Fuel || s.powerups[n].kind == Ammo)
    ensures var t, f := SpawnTick(s, n), FirstFree(s.objs, 0);
            if s.powerups[n].cooldown == 1 then
              (if f < MAXOBJS then t.objs[f].Some? && IsPowerup(s, n, t.objs[f].value) && t.dropped == s.dropped
               else t.dropped == s.dropped + {s.powerups[n].kind})
              && forall j :: 0 <= j < MAXOBJS && j != f ==> t.objs[j] == s.objs[j]
            else t.objs == s.objs && t.dropped == s.dropped
  {
  }

  lemma TickOthers(s: State, n: nat)
    requires n < |s.powerups|
    ensures var t := SpawnTick(s, n);
            && |t.powerups| == |s.powerups| && s.dropped <= t.dropped
            && forall m :: 0 <= m < |s.powerups| ==>
                 && t.powerups[m].kind == s.powerups[m].kind
                 && t.powerups[m].x == s.powerups[m].x && t.powerups[m].y == s.powerups[m].y
                 && (m != n ==> t.powerups[m] == s.powerups[m])
  {
  }

  /** The slot that the powerup of spawn point `m` has been put into. */
  ghost predicate Arrived(s: State, objs: ObjList, m: nat)
    requires m < |s.powerups|
  {
    exists j :: 0 <= j < MAXOBJS && objs[j].Some? && IsPowerup(s, m, objs[j].value)
  }

  /** A spawn point whose time has come gets its powerup in that frame, unless the list is full. */
  lemma {:induction false} PowerupArrives(s: State, n: nat, m: nat)
    requires n <= m < |s.powerups| && s.powerups[m].cooldown == 1
    requires s.powerups[m].kind == Fuel || s.powerups[m].kind == Ammo
    ensures Arrived(s, SpawnTicks(s, n).objs, m) || s.powerups[m].kind in SpawnTicks(s, n).dropped
    decreases |s.powerups| - n
  {
    hide SpawnTick, FirstFree;
    TickOthers(s, n);
    var t := SpawnTick(s, n);
    if n < m {
      PowerupArrives(t, n + 1, m);
      SameArrived(s, t, SpawnTicks(s, n).objs, m);
    } else {
      TickAt(s, n);
      TicksDrop(t, n + 1);
      var f := FirstFree(s.objs, 0);
      if f < MAXOBJS { SpawnTicksAt(t, n + 1, f); }
    }
  }

  lemma SameArrived(s: State, t: State, objs: ObjList, m: nat)
    requires m < |s.powerups| == |t.powerups|
    requires t.powerups[m].kind == s.powerups[m].kind && t.powerups[m].x == s.powerups[m].x
    requires t.powerups[m].y == s.powerups[m].y
    ensures Arrived(t, objs, m) ==> Arrived(s, objs, m)
  {
    if Arrived(t, objs, m) {
      var j :| 0 <= j < MAXOBJS && objs[j].Some? && IsPowerup(t, m, objs[j].value);
      assert IsPowerup(s, m, objs[j].value);
    }
  }

  lemma {:induction false} TicksDrop(s: State, n: nat)
    requires n <= |s.powerups|
    ensures s.dropped <= SpawnTicks(s, n).dropped
    decreases |s.powerups| - n
  {
    hide SpawnTick;
    if n < |s.powerups| {
      TickOthers(s, n);
      TicksDrop(SpawnTick(s, n), n + 1);
    }
  }
}
