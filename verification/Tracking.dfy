/** Following one object through a frame: what becomes of the object in slot `j`. */
module Tracking {
  import opened CtfServ
  import opened Game
  import opened GameInvariant

  /** The object's own update: time up, or steer, shoot and advance. */
  function Updated(o: Obj): Obj {
    if o.ttl == 0 then Destroyed(o)
    else
      var a := Steer(Timers(o));
      Advance(if Fires(a) then Shot(a) else a)
  }

  /** Still there, where it was or with its old place in `prevx`, `prevy`. */
  predicate Moved(o: Obj, m: Obj) { (m.x == o.x && m.y == o.y) || (m.prevx == o.x && m.prevy == o.y) }

  /** What collisions leave alone. */
  predicate Follows(o: Obj, m: Obj) {
    && m.owner == o.owner && m.team == o.team && m.kind == o.kind && m.destruct == o.destruct
    && m.ttl == o.ttl && m.cooldown == o.cooldown && m.flags.vanished == o.flags.vanished
    && m.ctrls == o.ctrls && m.dirChg == o.dirChg && m.commanded.dir == o.commanded.dir && m.flying == o.flying
    && (o.flags.destroyed ==> m.flags.destroyed)
    && (m.kind != Flag ==> m.x == o.x && m.y == o.y && m.prevx == o.prevx && m.prevy == o.prevy)
  }

  lemma AddAt(s: State, o: Obj, j: nat)
    requires j < MAXOBJS && s.objs[j].Some?
    ensures AddObject(s, o).objs[j] == s.objs[j]
  {
  }

  lemma UpdateSlotAt(s: State, i: nat, j: nat)
    requires i < MAXOBJS && j < MAXOBJS && s.objs[j].Some?
    ensures UpdateSlot(s, i).objs[j] == if i == j then Some(Updated(s.objs[j].value)) else s.objs[j]
  {
    if s.objs[i].Some? && s.objs[i].value.ttl != 0 {
      var s1 := Put(s, i, Steer(Timers(s.objs[i].value)));
      AddAt(s1, MissileOf(s1.objs[i].value), j);
    }
  }

  lemma UpdateAt(s: State, i: nat, j: nat)
    requires i <= MAXOBJS && j < MAXOBJS && s.objs[j].Some?
    ensures UpdateFrom(s, i).objs[j] == if i <= j then Some(Updated(s.objs[j].value)) else s.objs[j]
    decreases MAXOBJS - i
  {
    if i < MAXOBJS {
      UpdateSlotAt(s, i, j);
      UpdateAt(UpdateSlot(s, i), i + 1, j);
    }
  }

  lemma SpawnTicksAt(s: State, n: nat, j: nat)
    requires n <= |s.powerups| && j < MAXOBJS && s.objs[j].Some?
    ensures SpawnTicks(s, n).objs[j] == s.objs[j]
    decreases |s.powerups| - n
  {
    if n < |s.powerups| {
      AddAt(s, NewObject(s.powerups[n].kind, -1, s.powerups[n].x, s.powerups[n].y, ResetSpawn(n)), j);
      SpawnTicksAt(SpawnTick(s, n), n + 1, j);
    }
  }

  lemma HandInAt(s: State, i: nat, x: int, y: int, j: nat)
    requires i < MAXOBJS && s.objs[i].Some? && j < MAXOBJS && s.objs[j].Some?
    ensures HandIn(s, i, x, y).objs[j] == if i == j then Some(Dropped(s.objs[j].value)) else s.objs[j]
  {
    AddAt(s, NewObject(Flag, OtherTeam(s.objs[i].value.team), x, y, NoDestructor), j);
  }

  lemma CapturedObjs(c: Config, s: State, i: nat)
    requires ValidConfig(c) && i < MAXOBJS && s.objs[i].Some?
    ensures var other := OtherTeam(s.objs[i].value.team);
            FlagCaptured(c, s, i).objs == HandIn(s, i, HomeX(c, other), HomeY(c, other)).objs
  {
  }

  lemma CrashFollows(c: Config, o: Obj)
    ensures Follows(o, Crash(c, o)) && SamePlace(o, Crash(c, o)) && Crash(c, o).flags.hasFlag == o.flags.hasFlag
  {
  }

  lemma MapSlotAt(c: Config, s: State, i: nat, j: nat)
    requires ValidConfig(c) && i < MAXOBJS && j < MAXOBJS && s.objs[j].Some?
    ensures MapSlot(c, s, i).objs[j].Some? && Follows(s.objs[j].value, MapSlot(c, s, i).objs[j].value)
    ensures SamePlace(s.objs[j].value, MapSlot(c, s, i).objs[j].value)
  {
    if s.objs[i].Some? {
      var o := Crash(c, s.objs[i].value);
      CrashFollows(c, s.objs[i].value);
      hide Crash, FlagCaptured, HandIn;
      if o.flags.hasFlag && AtHome(c, o) {
        CapturedObjs(c, Put(s, i, o), i);
        HandInAt(Put(s, i, o), i, HomeX(c, OtherTeam(o.team)), HomeY(c, OtherTeam(o.team)), j);
      }
    }
  }

  predicate SamePlace(o: Obj, m: Obj) { m.x == o.x && m.y == o.y && m.prevx == o.prevx && m.prevy == o.prevy }

  lemma MapAt(c: Config, s: State, i: nat, j: nat)
    requires ValidConfig(c) && i <= MAXOBJS && j < MAXOBJS && s.objs[j].Some?
    ensures MapFrom(c, s, i).objs[j].Some? && Follows(s.objs[j].value, MapFrom(c, s, i).objs[j].value)
    ensures SamePlace(s.objs[j].value, MapFrom(c, s, i).objs[j].value)
    decreases MAXOBJS - i
  {
    if i < MAXOBJS {
      MapSlotAt(c, s, i, j);
      MapAt(c, MapSlot(c, s, i), i + 1, j);
    }
  }

  /** A flag that moves goes home, leaving its old place behind; at home it stays. */
  predicate Returned(c: Config, o: Obj, m: Obj)
    requires ValidConfig(c)
  {
    SamePlace(o, m) || (m.prevx == o.x && m.prevy == o.y && m.x == HomeX(c, o.team) && m.y == HomeY(c, o.team))
  }

  lemma FlagTouchedAt(c: Config, s: State, f: nat, t: nat, j: nat)
    requires ValidConfig(c) && f < MAXOBJS && t < MAXOBJS && f != t && s.objs[f].Some? && s.objs[t].Some?
    requires s.objs[f].value.kind == Flag && s.objs[t].value.kind != Flag
    requires j < MAXOBJS && s.objs[j].Some?
    ensures FlagTouched(c, s, f, t).objs[j].Some?
    ensures var o, m := s.objs[j].value, FlagTouched(c, s, f, t).objs[j].value;
            Follows(o, m) && (o.kind == Flag ==> Returned(c, o, m) && (AtHomePoint(c, o) ==> SamePlace(o, m)))
  {
  }

  predicate AtHomePoint(c: Config, o: Obj)
    requires ValidConfig(c)
  {
    o.x == HomeX(c, o.team) && o.y == HomeY(c, o.team)
  }

  lemma BumpFollows(a: Obj, b: Obj)
    ensures Follows(a, Bump(a, b).0) && SamePlace(a, Bump(a, b).0)
    ensures Follows(b, Bump(a, b).1) && SamePlace(b, Bump(a, b).1)
  {
    hide ShovePush, PropsOf;
  }

  lemma CollidePairAt(c: Config, s: State, i: nat, k: nat, j: nat)
    requires ValidConfig(c) && i < k < MAXOBJS && j < MAXOBJS && s.objs[j].Some?
    ensures CollidePair(c, s, i, k).objs[j].Some?
    ensures var o, m := s.objs[j].value, CollidePair(c, s, i, k).objs[j].value;
            Follows(o, m) && (o.kind == Flag ==> Returned(c, o, m) && (AtHomePoint(c, o) ==> SamePlace(o, m)))
  {
    if s.objs[i].Some? && s.objs[k].Some? && CollidesWith(s.objs[i].value, s.objs[k].value) {
      var a, b := s.objs[i].value, s.objs[k].value;
      if a.kind == Flag && b.kind != Flag { FlagTouchedAt(c, s, i, k, j); }
      else if b.kind == Flag && a.kind != Flag { FlagTouchedAt(c, s, k, i, j); }
      else if a.kind != Flag { BumpFollows(a, b); }
    }
  }

  lemma PairsAt(c: Config, s: State, i: nat, k: nat, j: nat)
    requires ValidConfig(c) && i < k <= MAXOBJS && j < MAXOBJS && s.objs[j].Some?
    ensures PairsFrom(c, s, i, k).objs[j].Some?
    ensures var o, m := s.objs[j].value, PairsFrom(c, s, i, k).objs[j].value;
            Follows(o, m) && (o.kind == Flag ==> Returned(c, o, m) && (AtHomePoint(c, o) ==> SamePlace(o, m)))
    decreases MAXOBJS - i, MAXOBJS - k
  {
    if k < MAXOBJS {
      CollidePairAt(c, s, i, k, j);
      PairsAt(c, CollidePair(c, s, i, k), i, k + 1, j);
    } else if i + 2 < MAXOBJS {
      PairsAt(c, s, i + 1, i + 2, j);
    }
  }

  /** What the destructors make of an object: a destroyed tank becomes wreckage, the rest stays. */
  predicate Destructed(o: Obj, m: Obj) {
    if o.flags.destroyed && o.destruct == DestroyPlayer then m == Wreck(o, m.owner)
        && (m.owner == o.owner || m.owner == -1) else m == o
  }

  lemma DestructSlotAt(c: Config, s: State, i: nat, j: nat)
    requires i < MAXOBJS && j < MAXOBJS && s.objs[j].Some?
    ensures DestructSlot(c, s, i).objs[j].Some?
    ensures if i == j then Destructed(s.objs[j].value, DestructSlot(c, s, i).objs[j].value)
            else DestructSlot(c, s, i).objs[j] == s.objs[j]
  {
    if s.objs[i].Some? && s.objs[i].value.flags.destroyed && s.objs[i].value.destruct == DestroyPlayer {
      var o := s.objs[i].value;
      AddAt(s, NewObject(Flag, OtherTeam(o.team), o.x, o.y, NoDestructor), j);
      AddAt(s, NewObject(Flag, OtherTeam(o.team), o.x, o.y, NoDestructor), i);
    }
  }

  lemma DestructAt(c: Config, s: State, i: nat, j: nat)
    requires i <= MAXOBJS && j < MAXOBJS && s.objs[j].Some?
    ensures DestructFrom(c, s, i).objs[j].Some?
    ensures if i <= j then Destructed(s.objs[j].value, DestructFrom(c, s, i).objs[j].value)
            else DestructFrom(c, s, i).objs[j] == s.objs[j]
    decreases MAXOBJS - i
  {
    if i < MAXOBJS {
      DestructSlotAt(c, s, i, j);
      DestructAt(c, DestructSlot(c, s, i), i + 1, j);
    }
  }

  /** The object in slot `j` just before the destructors run. */
  function BeforeDestruction(c: Config, s: State): State
    requires ValidConfig(c)
  {
    CollisionDetect(c, SpawnTicks(UpdateFrom(s, 0), 0))
  }

  lemma CollidedAt(c: Config, s: State, j: nat)
    requires ValidConfig(c) && j < MAXOBJS && s.objs[j].Some?
    ensures BeforeDestruction(c, s).objs[j].Some?
    ensures Follows(Updated(s.objs[j].value), BeforeDestruction(c, s).objs[j].value)
    ensures s.objs[j].value.kind == Flag ==>
        Returned(c, Updated(s.objs[j].value), BeforeDestruction(c, s).objs[j].value)
  {
    var s1 := SpawnTicks(UpdateFrom(s, 0), 0);
    UpdateAt(s, 0, j);
    SpawnTicksAt(UpdateFrom(s, 0), 0, j);
    MapAt(c, s1, 0, j);
    PairsAt(c, MapFrom(c, s1, 0), 0, 1, j);
  }

  lemma UpdatedMoves(o: Obj)
    requires Sane(o)
    ensures Moved(o, Updated(o)) && (o.kind == Flag ==> SamePlace(o, Updated(o)))
    ensures Updated(o).kind == o.kind && Updated(o).team == o.team && Updated(o).owner == o.owner
        && Updated(o).destruct == o.destruct
  {
  }

  /** Through a whole frame's updates every object keeps its slot, and if it moved at all then
      its previous position is the one it had at the start of the frame. */
  lemma UpdatesAt(c: Config, s: State, j: nat)
    requires ValidConfig(c) && j < MAXOBJS && s.objs[j].Some? && Sane(s.objs[j].value)
    ensures DoObjectUpdates(c, s).objs[j].Some?
    ensures Moved(s.objs[j].value, DoObjectUpdates(c, s).objs[j].value)
    ensures BeforeDestruction(c, s).objs[j].Some?
    ensures Destructed(BeforeDestruction(c, s).objs[j].value, DoObjectUpdates(c, s).objs[j].value)
  {
    CollidedAt(c, s, j);
    UpdatedMoves(s.objs[j].value);
    DestructAt(c, BeforeDestruction(c, s), 0, j);
  }
}
