/** Whose goal it is and where the flags go (object.c `flagCaptured`, `flagCollision`,
    `destroyPlayerObj`, `removePlayer`), from one object up to a whole frame. */
module Captures {
  import opened CtfServ
  import opened Vectors
  import opened Game
  import opened Tracking
  import opened Scores
  import opened Impacts

  // ---- goals

  /** Carries the other team's flag to within sixteen map pixels of the base of `team`, its own. */
  predicate Brings(c: Config, o: Obj, team: nat)
    requires ValidConfig(c) && team < 2
  {
    && o.flags.hasFlag && o.team == team
    && -256 < o.x - c.home[team].mapx * 16 < 256 && -256 < o.y - c.home[team].mapy * 16 < 256
  }

  predicate BringsAt(c: Config, objs: ObjList, k: nat, team: nat)
    requires ValidConfig(c) && team < 2
  {
    k < MAXOBJS && objs[k].Some? && Brings(c, objs[k].value, team)
  }

  /** A flag of `team` that stands at the team's base. */
  predicate FlagAtBase(c: Config, o: Obj, team: nat)
    requires ValidConfig(c) && team < 2
  {
    && o.kind == Flag && o.team == team && o.owner == -1 && !o.flags.destroyed
    && o.x == c.home[team].mapx * 16 && o.y == c.home[team].mapy * 16
  }

  /** Only the two teams' tanks carry flags. */
  predicate Teamwork(objs: ObjList) {
    forall k :: 0 <= k < MAXOBJS && objs[k].Some? && objs[k].value.flags.hasFlag ==> 0 <= objs[k].value.team < 2
  }

  /** One slot: a goal for the team of a carrier that is home, none for the other one, and none
      from anybody else; and the match is over if that goal is the winning one. */
  lemma SlotGoal(c: Config, s: State, i: nat)
    requires ValidConfig(c) && i < MAXOBJS && Teamwork(s.objs)
    ensures var t, g0, g1 := MapSlot(c, s, i), BringsAt(c, s.objs, i, 0), BringsAt(c, s.objs, i, 1);
            && t.teamscore.0 == s.teamscore.0 + (if g0 then 1 else 0)
            && t.teamscore.1 == s.teamscore.1 + (if g1 then 1 else 0)
            && (t.gameOver <==> s.gameOver || (g0 && 0 < c.winningScore == t.teamscore.0)
                                           || (g1 && 0 < c.winningScore == t.teamscore.1))
  {
    hide Crash, FlagCaptured, HomeX, HomeY;
    if s.objs[i].Some? {
      var o := Crash(c, s.objs[i].value);
      CrashFollows(c, s.objs[i].value);
      if o.flags.hasFlag { AtHomeExact(c, o); GoalOf(c, Put(s, i, o), i); }
    }
  }

  lemma AtHomeExact(c: Config, o: Obj)
    requires ValidConfig(c) && 0 <= o.team < 2
    ensures var h := c.home[o.team];
            AtHome(c, o) <==> -256 < o.x - h.mapx * 16 < 256 && -256 < o.y - h.mapy * 16 < 256
  {
  }

  lemma GoalOf(c: Config, s: State, i: nat)
    requires ValidConfig(c) && i < MAXOBJS && s.objs[i].Some? && 0 <= s.objs[i].value.team < 2
    ensures var t, team := FlagCaptured(c, s, i), s.objs[i].value.team;
            && t.teamscore.0 == s.teamscore.0 + (if team == 0 then 1 else 0)
            && t.teamscore.1 == s.teamscore.1 + (if team == 1 then 1 else 0)
            && (t.gameOver <==> s.gameOver || (team == 0 && 0 < c.winningScore == t.teamscore.0)
                                           || (team == 1 && 0 < c.winningScore == t.teamscore.1))
  {
    hide EndMatchFrom, FirstFree, NewObject, HomeX, HomeY;
  }

  /** And the flag it has brought is put up at the base of its own team, in the first free slot. */
  lemma SlotFlag(c: Config, s: State, i: nat, team: nat)
    requires ValidConfig(c) && i < MAXOBJS && team < 2 && BringsAt(c, s.objs, i, team)
    ensures var t, f := MapSlot(c, s, i), FirstFree(s.objs, 0);
            && t.objs[i].Some? && !t.objs[i].value.flags.hasFlag
            && t.dropped == s.dropped + (if f < MAXOBJS then {} else {Flag})
            && (f < MAXOBJS ==> t.objs[f].Some? && FlagAtBase(c, t.objs[f].value, 1 - team))
            && forall j :: 0 <= j < MAXOBJS && j != i && j != f ==> t.objs[j] == s.objs[j]
  {
    hide Crash, EndMatchFrom;
    var o := Crash(c, s.objs[i].value);
    CrashFollows(c, s.objs[i].value);
    FreeWith(s.objs, i, o);
    HandInFlag(c, Put(s, i, o), i, team);
    hide HandIn;
    CapturedObjs(c, Put(s, i, o), i);
  }

  lemma FreeWith(objs: ObjList, i: nat, o: Obj)
    requires i < MAXOBJS && objs[i].Some?
    ensures FirstFree(objs[i := Some(o)], 0) == FirstFree(objs, 0)
  {
    FreeFrom(objs, i, o, 0);
  }

  lemma {:induction false} FreeFrom(objs: ObjList, i: nat, o: Obj, k: nat)
    requires i < MAXOBJS && objs[i].Some? && k <= MAXOBJS
    ensures FirstFree(objs[i := Some(o)], k) == FirstFree(objs, k)
    decreases |objs| - k
  {
    if k < MAXOBJS && objs[k].Some? { FreeFrom(objs, i, o, k + 1); }
  }

  lemma HandInFlag(c: Config, s: State, i: nat, team: nat)
    requires ValidConfig(c) && i < MAXOBJS && s.objs[i].Some? && team < 2 && s.objs[i].value.team == team
    ensures var t, f := HandIn(s, i, HomeX(c, OtherTeam(team)), HomeY(c, OtherTeam(team))), FirstFree(s.objs, 0);
            && t.objs[i].Some? && !t.objs[i].value.flags.hasFlag
            && t.dropped == s.dropped + (if f < MAXOBJS then {} else {Flag})
            && (f < MAXOBJS ==> t.objs[f].Some? && FlagAtBase(c, t.objs[f].value, 1 - team))
            && forall j :: 0 <= j < MAXOBJS && j != i && j != f ==> t.objs[j] == s.objs[j]
  {
  }

  /** The slots from `i` on whose objects bring a flag home for `team`. */
  ghost function Bringers(c: Config, objs: ObjList, team: nat, i: nat): set<nat>
    requires ValidConfig(c) && team < 2
  {
    set k: nat | i <= k < MAXOBJS && BringsAt(c, objs, k, team)
  }

  lemma BringersNext(c: Config, objs: ObjList, team: nat, i: nat)
    requires ValidConfig(c) && team < 2 && i < MAXOBJS
    ensures |Bringers(c, objs, team, i)| ==
            |Bringers(c, objs, team, i + 1)| + if BringsAt(c, objs, i, team) then 1 else 0
  {
    hide BringsAt;
    var ks, rest := Bringers(c, objs, team, i), Bringers(c, objs, team, i + 1);
    if BringsAt(c, objs, i, team) { assert ks == rest + {i}; } else { assert ks == rest; }
  }

  /** Slot `i` alone does not make or unmake carriers in other slots. */
  lemma OtherCarriers(c: Config, s: State, i: nat, j: nat)
    requires ValidConfig(c) && i < MAXOBJS && j < MAXOBJS && i != j
    ensures var o, m := s.objs[j], MapSlot(c, s, i).objs[j]; m == o || (m.Some? && o.None? && !m.value.flags.hasFlag)
  {
    hide Crash, AtHome, EndMatchFrom;
    if s.objs[i].Some? {
      CrashFollows(c, s.objs[i].value);
      var s1 := Put(s, i, Crash(c, s.objs[i].value));
      CapturedObjs(c, s1, i);
    }
  }

  lemma SameBringers(c: Config, s: State, i: nat, team: nat)
    requires ValidConfig(c) && i < MAXOBJS && team < 2 && Teamwork(s.objs)
    ensures Teamwork(MapSlot(c, s, i).objs)
    ensures Bringers(c, MapSlot(c, s, i).objs, team, i + 1) == Bringers(c, s.objs, team, i + 1)
  {
    hide MapSlot, Brings;
    var q := MapSlot(c, s, i).objs;
    forall k: nat | k < MAXOBJS ensures q[k].Some? && q[k].value.flags.hasFlag ==> 0 <= q[k].value.team < 2 {
      if k == i { SlotTeam(c, s, i); } else { OtherCarriers(c, s, i, k); }
    }
    forall k: nat | i < k < MAXOBJS ensures BringsAt(c, q, k, team) == BringsAt(c, s.objs, k, team) {
      OtherCarriers(c, s, i, k);
      Empty(c, q, k, team);
    }
  }

  lemma Empty(c: Config, objs: ObjList, k: nat, team: nat)
    requires ValidConfig(c) && team < 2 && k < MAXOBJS
    ensures objs[k].Some? && !objs[k].value.flags.hasFlag ==> !BringsAt(c, objs, k, team)
  {
  }

  lemma SlotTeam(c: Config, s: State, i: nat)
    requires ValidConfig(c) && i < MAXOBJS && Teamwork(s.objs)
    ensures var q := MapSlot(c, s, i).objs[i]; q.Some? && q.value.flags.hasFlag ==> 0 <= q.value.team < 2
  {
    if s.objs[i].Some? {
      hide Crash, MapSlot;
      MapSlotExactAt(c, s, i, i);
      CrashFollows(c, s.objs[i].value);
    }
  }

  /** Over all the slots each team gets one goal for each of its own carriers that is home. */
  lemma {:induction false} MapGoals(c: Config, s: State, i: nat)
    requires ValidConfig(c) && i <= MAXOBJS && Teamwork(s.objs)
    ensures var t := MapFrom(c, s, i);
            && t.teamscore.0 == s.teamscore.0 + |Bringers(c, s.objs, 0, i)|
            && t.teamscore.1 == s.teamscore.1 + |Bringers(c, s.objs, 1, i)|
    decreases |s.objs| - i
  {
    hide MapSlot, Bringers, Teamwork;
    if i < MAXOBJS {
      SlotGoal(c, s, i);
      SameBringers(c, s, i, 0);
      SameBringers(c, s, i, 1);
      BringersNext(c, s.objs, 0, i);
      BringersNext(c, s.objs, 1, i);
      MapGoals(c, MapSlot(c, s, i), i + 1);
    } else {
      NoBringers(c, s.objs);
    }
  }

  lemma NoBringers(c: Config, objs: ObjList)
    requires ValidConfig(c)
    ensures Bringers(c, objs, 0, MAXOBJS) == {} && Bringers(c, objs, 1, MAXOBJS) == {}
  {
  }

  // ---- a whole frame

  /** What is new in a slot carries no flag. */
  lemma FreshUpdateSlot(s: State, i: nat, j: nat)
    requires i < MAXOBJS && j < MAXOBJS && (s.objs[j].Some? ==> !s.objs[j].value.flags.hasFlag)
    ensures var m := UpdateSlot(s, i).objs[j]; m.Some? ==> !m.value.flags.hasFlag
  {
    hide AddVector, Fires;
  }

  lemma {:induction false} FreshUpdate(s: State, i: nat, j: nat)
    requires i <= MAXOBJS && j < MAXOBJS && (s.objs[j].Some? ==> !s.objs[j].value.flags.hasFlag)
    ensures var m := UpdateFrom(s, i).objs[j]; m.Some? ==> !m.value.flags.hasFlag
    decreases |s.objs| - i
  {
    hide UpdateSlot;
    if i < MAXOBJS {
      FreshUpdateSlot(s, i, j);
      FreshUpdate(UpdateSlot(s, i), i + 1, j);
    }
  }

  lemma {:induction false} FreshSpawn(s: State, n: nat, j: nat)
    requires n <= |s.powerups| && j < MAXOBJS && (s.objs[j].Some? ==> !s.objs[j].value.flags.hasFlag)
    ensures var m := SpawnTicks(s, n).objs[j]; m.Some? ==> !m.value.flags.hasFlag
    decreases |s.powerups| - n
  {
    if n < |s.powerups| { FreshSpawn(SpawnTick(s, n), n + 1, j); }
  }

  /** The slots of the objects whose own updates take them home with a flag, for `team`. */
  ghost function Homecoming(c: Config, s: State, team: nat): set<nat>
    requires ValidConfig(c) && team < 2
  {
    set k: nat | k < MAXOBJS && s.objs[k].Some? && Brings(c, Updated(s.objs[k].value), team)
  }

  lemma MovedBrings(c: Config, s: State, team: nat, k: nat)
    requires ValidConfig(c) && team < 2 && k < MAXOBJS
    ensures BringsAt(c, SpawnTicks(UpdateFrom(s, 0), 0).objs, k, team) <==>
            s.objs[k].Some? && Brings(c, Updated(s.objs[k].value), team)
  {
    hide UpdateFrom, SpawnTicks, Updated;
    if s.objs[k].Some? {
      UpdateAt(s, 0, k);
      SpawnTicksAt(UpdateFrom(s, 0), 0, k);
    } else {
      FreshUpdate(s, 0, k);
      FreshSpawn(UpdateFrom(s, 0), 0, k);
    }
  }

  lemma MovedTeamwork(s: State)
    requires Teamwork(s.objs)
    ensures Teamwork(SpawnTicks(UpdateFrom(s, 0), 0).objs)
  {
    hide UpdateFrom, SpawnTicks;
    var q := SpawnTicks(UpdateFrom(s, 0), 0).objs;
    forall k: nat | k < MAXOBJS ensures q[k].Some? && q[k].value.flags.hasFlag ==> 0 <= q[k].value.team < 2 {
      if s.objs[k].Some? {
        UpdateAt(s, 0, k);
        SpawnTicksAt(UpdateFrom(s, 0), 0, k);
        UpdatedTeam(s.objs[k].value);
      } else {
        FreshUpdate(s, 0, k);
        FreshSpawn(UpdateFrom(s, 0), 0, k);
      }
    }
  }

  lemma UpdatedTeam(o: Obj)
    ensures Updated(o).team == o.team && Updated(o).flags.hasFlag == o.flags.hasFlag
  {
    hide AddVector;
  }

  /** The updates of a frame give each team as many goals as its own carriers come home in it, and
      end the match exactly if that brings a team to the winning score. */
  lemma FrameGoals(c: Config, s: State)
    requires ValidConfig(c) && Teamwork(s.objs)
    ensures var m, n0, n1 := DoObjectUpdates(c, s), |Homecoming(c, s, 0)|, |Homecoming(c, s, 1)|;
            && m.teamscore == (s.teamscore.0 + n0, s.teamscore.1 + n1)
            && (BelowWinning(c, s) ==>
                  (m.gameOver <==> s.gameOver || 0 < c.winningScore <= s.teamscore.0 + n0
                                   || 0 < c.winningScore <= s.teamscore.1 + n1))
  {
    hide UpdateFrom, SpawnTicks, MapFrom, PairsFrom, DestructFrom, Updated, Brings, Teamwork;
    var s1 := UpdateFrom(s, 0);
    var s2 := SpawnTicks(s1, 0);
    var s3 := MapFrom(c, s2, 0);
    UpdateScore(s, 0);
    SpawnScore(s1, 0);
    MovedTeamwork(s);
    MapGoals(c, s2, 0);
    SameHomecoming(c, s, 0);
    SameHomecoming(c, s, 1);
    PairsScore(c, s3, 0, 1);
    DestructScore(c, PairsFrom(c, s3, 0, 1), 0);
    WonExactly(c, s);
  }

  lemma SameHomecoming(c: Config, s: State, team: nat)
    requires ValidConfig(c) && team < 2
    ensures Bringers(c, SpawnTicks(UpdateFrom(s, 0), 0).objs, team, 0) == Homecoming(c, s, team)
  {
    hide UpdateFrom, SpawnTicks, Updated, BringsAt, Brings;
    var q := SpawnTicks(UpdateFrom(s, 0), 0).objs;
    forall k: nat | k < MAXOBJS
      ensures BringsAt(c, q, k, team) <==> s.objs[k].Some? && Brings(c, Updated(s.objs[k].value), team)
    {
      MovedBrings(c, s, team, k);
    }
  }

  // ---- touching a flag

  /** A player's own tank, as it drives around. */
  predicate OwnTank(s: State, o: Obj, t: nat) {
    && 0 <= o.owner < MAXCLIENTS && s.players[o.owner].Some? && s.players[o.owner].value.tank == Some(t)
    && !o.flags.noCollide && !o.flags.exploding
  }

  /** What touching the thing in slot `t` does to the flag in slot `f`: a tank of its own team sends
      it back to its base, the other team's tank takes it along, and nothing else matters to it. */
  predicate FlagMeets(c: Config, s: State, q: State, f: nat, t: nat)
    requires ValidConfig(c) && f < MAXOBJS && t < MAXOBJS && s.objs[f].Some? && s.objs[t].Some?
    requires 0 <= s.objs[f].value.team < 2
  {
    var flag, thing := s.objs[f].value, s.objs[t].value;
    var base := c.home[flag.team];
    && q == s.(objs := s.objs[f := q.objs[f]][t := q.objs[t]]) && q.objs[f].Some? && q.objs[t].Some?
    && var flag', thing' := q.objs[f].value, q.objs[t].value;
       if !Touch(flag, thing) || !OwnTank(s, thing, t) then q == s
       else if thing.team == flag.team then
         && thing' == thing && flag'.x == base.mapx * 16 && flag'.y == base.mapy * 16
         && flag' == flag.(x := flag'.x, y := flag'.y, prevx := flag'.prevx, prevy := flag'.prevy)
         && (flag'.x != flag.x || flag'.y != flag.y ==> flag'.prevx == flag.x && flag'.prevy == flag.y)
       else
         && flag' == flag.(flags := flag.flags.(destroyed := true))
         && thing' == thing.(flags := thing.flags.(hasFlag := true))
  }

  lemma FlagTouchExact(c: Config, s: State, i: nat, j: nat)
    requires ValidConfig(c) && i < j < MAXOBJS && s.objs[i].Some? && s.objs[j].Some?
    requires s.objs[i].value.kind == Flag ==> 0 <= s.objs[i].value.team < 2
    requires s.objs[j].value.kind == Flag ==> 0 <= s.objs[j].value.team < 2
    ensures var a, b, q := s.objs[i].value, s.objs[j].value, CollidePair(c, s, i, j);
            && (a.kind == Flag && b.kind == Flag ==> q == s)
            && (a.kind == Flag && b.kind != Flag ==> FlagMeets(c, s, q, i, j))
            && (a.kind != Flag && b.kind == Flag ==> FlagMeets(c, s, q, j, i))
  {
  }

  // ---- dropping a flag

  /** A tank that carries the flag leaves it where it is wrecked, in the first free slot. */
  lemma WreckDropsFlag(c: Config, s: State, i: nat)
    requires i < MAXOBJS && s.objs[i].Some? && s.objs[i].value.flags.hasFlag && s.objs[i].value.flags.destroyed
    requires s.objs[i].value.destruct == DestroyPlayer && 0 <= s.objs[i].value.team < 2
    ensures var o, q, f := s.objs[i].value, DestructSlot(c, s, i), FirstFree(s.objs, 0);
            && q.objs[i].Some? && !q.objs[i].value.flags.hasFlag
            && q.dropped == s.dropped + (if f < MAXOBJS then {} else {Flag})
            && (f < MAXOBJS ==> q.objs[f].Some? && LeftAt(o, q.objs[f].value))
            && forall j :: 0 <= j < MAXOBJS && j != i && j != f ==> q.objs[j] == s.objs[j]
  {
    hide LoseLife;
  }

  /** The other team's flag at the place of `o`, for everybody to touch. */
  predicate LeftAt(o: Obj, flag: Obj) {
    && flag.kind == Flag && flag.team == 1 - o.team && flag.owner == -1 && flag.flags == NOFLAGS
    && flag.x == o.x && flag.y == o.y
  }

  /** And so does every carrier when a player leaves; the leaving player's objects are done with,
      and other players' carriers go on. */
  lemma LeaverDropsFlag(s: State, k: nat, i: nat)
    requires i < MAXOBJS && s.objs[i].Some? && 0 <= s.objs[i].value.team < 2
    ensures var o, q, f := s.objs[i].value, VanishSlot(s, k, i), FirstFree(s.objs, 0);
            && q.objs[i].Some?
            && (o.owner == k ==> q.objs[i].value.flags == NOFLAGS.(vanished := true) && q.objs[i].value.owner == -1)
            && (o.owner != k ==> q.objs[i] == s.objs[i])
            && (o.flags.hasFlag ==>
                  && q.dropped == s.dropped + (if f < MAXOBJS then {} else {Flag})
                  && (f < MAXOBJS ==> q.objs[f].Some? && LeftAt(o, q.objs[f].value)))
            && forall j :: 0 <= j < MAXOBJS && j != i && !(o.flags.hasFlag && j == f) ==> q.objs[j] == s.objs[j]
  {
  }

  /** A new match starts with each team's flag at its own base. */
  lemma FlagsAtBases(c: Config, s: State)
    requires ValidConfig(c)
    ensures var q := CreateFlags(c, s.(objs := NoObjs()));
            && q.objs[0].Some? && FlagAtBase(c, q.objs[0].value, 0)
            && q.objs[1].Some? && FlagAtBase(c, q.objs[1].value, 1)
            && forall j :: 2 <= j < MAXOBJS ==> q.objs[j] == None
  {
    assert FirstFree(NoObjs(), 0) == 0;
  }
}
