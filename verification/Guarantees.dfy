/** What the boundary invariant means for the game, and that every state of every run has it. */
module Guarantees {
  import opened CtfServ
  import opened Game
  import opened Matchmake
  import opened GameInvariant
  import opened Runs
  import opened Scores
  import opened SpawnerRuns

  // ---- the guarantees, one by one

  /** Either a flag has found no free slot since the last reset, or the team has a flag: on the map and
      whole, or on an enemy tank that is alive and whose player is connected. */
  ghost predicate HasFlag(s: State, team: int) {
    Flag in s.dropped || exists i :: 0 <= i < MAXOBJS && s.objs[i].Some? && HoldsFlag(s, s.objs[i].value, team)
  }

  predicate HoldsFlag(s: State, o: Obj, team: int) {
    && !o.flags.destroyed
    && (|| (o.kind == Flag && o.team == team)
        || (o.kind == Tank && o.flags.hasFlag && o.team != team && Here(s, o.owner)))
  }

  predicate Here(s: State, k: int) { k >= 0 && Connected(s, k) }

  /** No coordinate or speed is negative and no tank is faster than its limits or has nothing left of it;
      ammunition and gun cooldown stay in range. */
  predicate Physical(o: Obj) {
    && o.x >= 0 && o.y >= 0 && o.commanded.vel >= 0 && o.actual.vel >= 0 && o.push.vel >= 0
    && (o.kind == Tank ==>
          && o.commanded.vel <= PropsOf(Tank).maxVel && o.push.vel <= MAX_PUSH
          && o.actual.vel <= PropsOf(Tank).maxVel + MAX_PUSH + 4
          && 0 <= o.ammo <= MAXAMMO && 0 <= o.cooldown <= PropsOf(Tank).gunCooldown
          && (o.hp >= 1 || o.flags.vanished))
  }

  /** An owned object belongs to a connected player, and nothing lies destroyed in the list. */
  predicate Owned(s: State, o: Obj) {
    && (o.owner >= 0 ==> Here(s, o.owner) && !s.players[o.owner].value.flags.spectator)
    && !o.flags.destroyed
  }

  predicate TankOfPlayer(s: State, k: int, i: int) {
    && 0 <= i < MAXOBJS && s.objs[i].Some? && s.objs[i].value.owner == k
    && (s.objs[i].value.kind == Tank || s.objs[i].value.kind == Explosion)
  }

  /** A connected player has not died out; its `playerobj` is its own tank or that tank's
      wreckage, and it owns no other. */
  ghost predicate Manned(s: State, k: int)
    requires Here(s, k)
  {
    var p := s.players[k].value;
    && !p.flags.dead
    && (p.tank.Some? ==> TankOfPlayer(s, k, p.tank.value))
    && forall i :: TankOfPlayer(s, k, i) ==> p.tank == Some(i)
  }

  function PlayerSlots(players: PlayerList, k: nat): set<nat> {
    set j: nat | k <= j < MAXCLIENTS && players[j].Some? && !players[j].value.flags.spectator
  }

  /** A spawn point that cools down has no powerup on the map, and any other has exactly one. */
  ghost predicate Spawned(s: State, n: nat)
    requires n < |s.powerups|
  {
    && (s.powerups[n].cooldown > 0 ==> forall i :: 0 <= i < MAXOBJS ==> !SpawnedBy(s.objs, n, i))
    && (s.powerups[n].cooldown == 0 && s.powerups[n].kind !in s.dropped ==>
        exists i :: 0 <= i < MAXOBJS && SpawnedBy(s.objs, n, i))
    && (forall i, j :: 0 <= i < MAXOBJS && 0 <= j < MAXOBJS && SpawnedBy(s.objs, n, i) && SpawnedBy(s.objs, n, j) ==>
        i == j)
  }

  // ---- each follows from the invariant

  lemma FlagKeptHere(s: State, team: int)
    requires Boundary(s) && 0 <= team < 2
    ensures HasFlag(s, team)
  {
    if Flag !in s.dropped {
      assert FlagKept(s.objs, team);
      var i :| 0 <= i < MAXOBJS && FlagAt(s.objs, team, i);
      assert SlotOk(s, MAXOBJS, MAXOBJS, i);
      assert HoldsFlag(s, s.objs[i].value, team);
    }
  }

  lemma ObjectKept(s: State, i: nat)
    requires Boundary(s) && i < MAXOBJS && s.objs[i].Some?
    ensures Physical(s.objs[i].value) && Owned(s, s.objs[i].value)
  {
    assert SlotOk(s, MAXOBJS, MAXOBJS, i);
  }

  lemma PlayerKept(s: State, k: nat)
    requires Boundary(s) && Connected(s, k)
    ensures Manned(s, k)
  {
    assert PlayerOk(s, MAXOBJS, -1, k);
    forall i | TankOfPlayer(s, k, i) ensures s.players[k].value.tank == Some(i) {
      assert SlotOk(s, MAXOBJS, MAXOBJS, i);
    }
  }

  lemma SpawnerKept(s: State, n: nat)
    requires Boundary(s) && n < |s.powerups|
    ensures Spawned(s, n)
  {
    OnePowerup(s, n);
  }

  lemma {:induction false} PlayersCounted(players: PlayerList, k: nat)
    requires k <= MAXCLIENTS
    ensures PlayersFrom(players, k) == |PlayerSlots(players, k)|
    decreases MAXCLIENTS - k
  {
    if k == MAXCLIENTS {
      assert PlayerSlots(players, k) == {};
    } else {
      PlayersCounted(players, k + 1);
      if players[k].Some? && !players[k].value.flags.spectator {
        assert PlayerSlots(players, k) == PlayerSlots(players, k + 1) + {k};
      } else {
        assert PlayerSlots(players, k) == PlayerSlots(players, k + 1);
      }
    }
  }

  // ---- over whole runs

  ghost predicate ARun(c: Config, powerups: seq<PowerSpawn>, states: seq<State>, inputs: seq<Input>) {
    ValidConfig(c) && Ready(powerups) && Run(c, states, inputs) && states[0] == Init(c, powerups)
  }

  /** No flag is ever lost. */
  lemma FlagNeverLost(c: Config, powerups: seq<PowerSpawn>, states: seq<State>, inputs: seq<Input>, n: nat, team: int)
    requires ARun(c, powerups, states, inputs) && n < |states| && 0 <= team < 2
    ensures HasFlag(states[n], team)
  {
    RunBoundary(c, powerups, states, inputs, n);
    FlagKeptHere(states[n], team);
  }

  lemma ObjectsBehave(c: Config, powerups: seq<PowerSpawn>, states: seq<State>, inputs: seq<Input>, n: nat, i: nat)
    requires ARun(c, powerups, states, inputs) && n < |states| && i < MAXOBJS && states[n].objs[i].Some?
    ensures Physical(states[n].objs[i].value) && Owned(states[n], states[n].objs[i].value)
  {
    RunBoundary(c, powerups, states, inputs, n);
    ObjectKept(states[n], i);
  }

  lemma PlayersManned(c: Config, powerups: seq<PowerSpawn>, states: seq<State>, inputs: seq<Input>, n: nat, k: nat)
    requires ARun(c, powerups, states, inputs) && n < |states| && Connected(states[n], k)
    ensures Manned(states[n], k)
  {
    RunBoundary(c, powerups, states, inputs, n);
    PlayerKept(states[n], k);
  }

  /** `playerCount` is the number of connected players, and no two of a team share a number. */
  lemma PlayersNumbered(c: Config, powerups: seq<PowerSpawn>, states: seq<State>, inputs: seq<Input>, n: nat)
    requires ARun(c, powerups, states, inputs) && n < |states|
    ensures states[n].playerCount == |PlayerSlots(states[n].players, 0)| && Numbered(states[n].players)
  {
    RunBoundary(c, powerups, states, inputs, n);
    PlayersCounted(states[n].players, 0);
  }

  lemma SpawnersExact(c: Config, powerups: seq<PowerSpawn>, states: seq<State>, inputs: seq<Input>, n: nat, m: nat)
    requires ARun(c, powerups, states, inputs) && n < |states| && m < |states[n].powerups|
    ensures Spawned(states[n], m)
  {
    RunBoundary(c, powerups, states, inputs, n);
    SpawnerKept(states[n], m);
  }

  /** Between frames no team ever has the winning score: the match ends in the very frame that
      brings a team up to it, and the score starts again from nil. */
  lemma {:induction false} NobodyPastWinning(c: Config, powerups: seq<PowerSpawn>, states: seq<State>,
                                             inputs: seq<Input>, n: nat)
    requires ARun(c, powerups, states, inputs) && n < |states|
    ensures BelowWinning(c, states[n])
  {
    if n > 0 {
      NobodyPastWinning(c, powerups, states, inputs, n - 1);
      hide Frame;
      if inputs[n - 1].Tick? {
        FrameScore(c, states[n - 1], inputs[n - 1].lost);
      } else {
        MessageScore(c, states[n - 1], inputs[n - 1]);
      }
    }
  }
}
