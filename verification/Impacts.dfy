/** What collisions do, in numbers (object.c `detectCollision`, `dealDamage`, `shoveObject`,
    `mapCollision`; powerups.c `powerupTouched`), from one pair up to a whole frame. */
module Impacts {
  import opened CtfServ
  import opened Vectors
  import opened GameMap
  import opened Game
  import opened GameInvariant
  import opened Tracking

  // ---- one pair

  /** Less than sixteen map pixels apart both ways, and not an object in the blind first frames
      of another of the same owner. */
  predicate Touch(a: Obj, b: Obj) {
    && -256 < a.x - b.x < 256 && -256 < a.y - b.y < 256
    && (a.owner == b.owner ==> a.flying == 0 && b.flying == 0)
  }

  function Least(x: int, y: int): int { if x < y then x else y }

  /** A powerup fills up a tank; then a missile takes 45. */
  function HpAfter(o: Obj, other: Obj, hp: int): int {
    (if other.kind == Fuel && other.destruct.ResetSpawn? && o.kind == Tank then Least(100, hp + 50) else hp)
    - (if other.kind == Missile then 45 else 0)
  }

  function AmmoAfter(o: Obj, other: Obj): int {
    if other.kind == Ammo && other.destruct.ResetSpawn? && o.kind == Tank then Least(20, o.ammo + 10) else o.ammo
  }

  predicate Heavy(o: Obj) { o.kind == Tank || o.kind == Missile }

  /** What meeting `other` makes of `o`, its push apart. */
  predicate HitBy(o: Obj, other: Obj, m: Obj) {
    var felled := o.armour == 0 || m.hp < 1;
    && m == o.(hp := HpAfter(o, other, o.hp), ammo := AmmoAfter(o, other), push := m.push, flags := m.flags)
    && m.flags == o.flags.(destroyed := o.flags.destroyed || felled, exploding := o.flags.exploding || felled)
    && (!(Heavy(o) && Heavy(other)) ==> m.push == o.push)
  }

  /** Two objects neither of which is a flag: nothing happens unless they touch, and if they do
      each takes what the other deals out; everything else is left alone. */
  lemma PairExact(c: Config, s: State, i: nat, j: nat)
    requires ValidConfig(c) && i < j < MAXOBJS && s.objs[i].Some? && s.objs[j].Some?
    requires s.objs[i].value.kind != Flag && s.objs[j].value.kind != Flag
    ensures var t, a, b := CollidePair(c, s, i, j), s.objs[i].value, s.objs[j].value;
            && (!Touch(a, b) ==> t == s)
            && (Touch(a, b) ==>
                  && t.objs[i].Some? && HitBy(a, b, t.objs[i].value) && t.objs[j].Some? && HitBy(b, a, t.objs[j].value)
                  && t == s.(objs := s.objs[i := t.objs[i]][j := t.objs[j]]))
  {
    hide ShovePush, Bump, Refill, Damaged;
    var a, b := s.objs[i].value, s.objs[j].value;
    BumpHits(a, b);
    if Touch(a, b) {
      var t := CollidePair(c, s, i, j);
      assert t.objs[i] == Some(Bump(a, b).0) && t.objs[j] == Some(Bump(a, b).1);
    }
  }

  lemma BumpHits(a: Obj, b: Obj)
    ensures HitBy(a, b, Bump(a, b).0) && HitBy(b, a, Bump(a, b).1)
  {
    hide ShovePush;
  }

  /** What the relative movement `v` pushes the object that is run into by; the other one gets the
      same in the opposite direction. */
  predicate Pushes(v: Vec, pa: Vec, pb: Vec) {
    pb == Vec(v.dir, Least(40, v.vel + 8)) && pa == Vec((v.dir + 8) % 16, Least(40, v.vel + 8))
  }

  /** Tanks and missiles push each other apart: the second one along the movement of the first
      relative to its own, less than an eighth of a turn off, the first one the opposite way. */
  lemma ReboundExact(c: Config, s: State, i: nat, j: nat)
    requires ValidConfig(c) && i < j < MAXOBJS && s.objs[i].Some? && s.objs[j].Some?
    requires Touch(s.objs[i].value, s.objs[j].value) && Heavy(s.objs[i].value) && Heavy(s.objs[j].value)
    ensures var t, a, b := CollidePair(c, s, i, j), s.objs[i].value.actual, s.objs[j].value.actual;
            && t.objs[i].Some? && t.objs[j].Some?
            && var pa, pb := t.objs[i].value.push, t.objs[j].value.push;
               var back := Vec((b.dir + 8) % 16, b.vel);
               var dx, dy := Dx(a) + Dx(back), Dy(a) + Dy(back);
               && pa.dir == (pb.dir + 8) % 16 && pa.vel == pb.vel <= 40
               && (b.vel == 0 && a.vel != 0 ==> pb == Vec(a.dir, Least(40, a.vel + 8)))
               && (a.vel == 0 ==> pb == Vec(back.dir, Least(40, b.vel + 8)))
               && (a.vel != 0 && b.vel != 0 && dx == 0 && dy == 0 ==> pb == Vec(0, 8))
               && (a.vel != 0 && b.vel != 0 && (dx != 0 || dy != 0) ==>
                     Along(pb.dir, dx, dy) && InQuadrant(pb.dir, dx, dy)
                     && (pb.vel == 40 ||
                         (pb.vel - 8) * (pb.vel - 8) <= dx * dx + dy * dy < (pb.vel - 7) * (pb.vel - 7)))
  {
    hide Dx, Dy, AddVector, Along, InQuadrant;
    var a, b := s.objs[i].value, s.objs[j].value;
    var back := Vec((b.actual.dir + 8) % 16, b.actual.vel);
    AddVectorExact(a.actual, back);
    var t := CollidePair(c, s, i, j);
    assert t.objs[i] == Some(Bump(a, b).0) && t.objs[j] == Some(Bump(a, b).1) by { hide Bump; }
    BumpPushes(a, b);
  }

  lemma BumpPushes(a: Obj, b: Obj)
    requires Heavy(a) && Heavy(b)
    ensures var v := AddVector(a.actual, Vec((b.actual.dir + 8) % 16, b.actual.vel));
            Pushes(v, Bump(a, b).0.push, Bump(a, b).1.push)
  {
    hide AddVector;
  }

  // ---- walls

  predicate InWall(c: Config, o: Obj)
    requires ValidConfig(c)
  {
    !o.flags.noCollide && o.mapColFudge == 0 && MapCollision(c.rows, o.kind, o.x, o.y)
  }

  /** An object with no armour ends at a wall; another takes ten and its speed, but no more than the
      server's limit, and ends there if nothing is left of it, or else is thrown back with its
      engine stopped and walls ignored for three frames. */
  lemma WallExact(c: Config, o: Obj)
    requires ValidConfig(c)
    ensures var m, hp := Crash(c, o), o.hp - Least(c.maxWallDmg, o.actual.vel + 10);
            && (!InWall(c, o) ==> m == o)
            && (InWall(c, o) && o.armour == 0 ==> m.flags == o.flags.(destroyed := true) && m.hp == o.hp)
            && (InWall(c, o) && o.armour != 0 && hp < 1 ==> m.flags == o.flags.(destroyed := true) && m.hp == hp)
            && (InWall(c, o) && m.flags.destroyed && !o.flags.destroyed ==>
                  m.actual == Vec(o.actual.dir, 0) && m.commanded == o.commanded && m.push == o.push)
            && (InWall(c, o) && o.armour != 0 && hp >= 1 ==>
                  && m.flags == o.flags && m.hp == hp && m.mapColFudge == 3 && m.actual == o.actual
                  && m.commanded == Vec(o.commanded.dir, 0) && m.push == Vec((o.actual.dir + 8) % 16, 16))
            && m.x == o.x && m.y == o.y
  {
    hide MapCollision;
  }

  // ---- a whole pass over the pairs

  /** Hit points, and whether it has been destroyed. */
  datatype Wear = Wear(hp: int, felled: bool)

  /** `o`, which has come to `w`, meets what is in slot `k`. */
  function Met(objs: ObjList, o: Obj, j: nat, k: nat, w: Wear): Wear
    requires k < MAXOBJS
  {
    if k == j || objs[k].None? || objs[k].value.kind == Flag || !Touch(o, objs[k].value) then w
    else
      var hp := HpAfter(o, objs[k].value, w.hp);
      Wear(hp, w.felled || o.armour == 0 || hp < 1)
  }

  /** And all the slots from `k` on. */
  function Worn(objs: ObjList, o: Obj, j: nat, k: nat, w: Wear): Wear
    requires k <= MAXOBJS
    decreases |objs| - k
  {
    if k == MAXOBJS then w else Worn(objs, o, j, k + 1, Met(objs, o, j, k, w))
  }

  function WearOf(o: Obj): Wear { Wear(o.hp, o.flags.destroyed) }

  /** What matters of the others does not change while the pairs are gone through. */
  predicate Bystander(o: Option<Obj>, m: Option<Obj>) {
    && (o.Some? <==> m.Some?)
    && (o.Some? ==> Follows(o.value, m.value) && m.value.armour == o.value.armour)
  }

  predicate Bystanders(objs: ObjList, q: ObjList) { forall k :: 0 <= k < MAXOBJS ==> Bystander(objs[k], q[k]) }

  /** The next slot whose object the one in slot `j` is going to meet, when pair (i, k) is up. */
  function Upcoming(i: nat, k: nat, j: nat): nat {
    if i < j then if k <= j then i else i + 1 else if i == j then k else MAXOBJS
  }

  lemma SameTouch(o: Obj, m: Obj, p: Obj, q: Obj)
    requires Follows(o, m) && Follows(p, q) && o.kind != Flag && p.kind != Flag
    ensures Touch(o, p) == Touch(m, q) == Touch(q, m)
    ensures forall hp :: HpAfter(o, p, hp) == HpAfter(m, q, hp)
  {
  }

  lemma OtherSlots(c: Config, s: State, i: nat, k: nat, j: nat)
    requires ValidConfig(c) && i < k < MAXOBJS && j < MAXOBJS && j != i && j != k
    ensures CollidePair(c, s, i, k).objs[j] == s.objs[j]
  {
    hide Bump;
  }

  lemma PairBystander(c: Config, s: State, i: nat, k: nat, j: nat)
    requires ValidConfig(c) && i < k < MAXOBJS && j < MAXOBJS
    ensures Bystander(s.objs[j], CollidePair(c, s, i, k).objs[j])
  {
    if j != i && j != k {
      OtherSlots(c, s, i, k, j);
    } else if s.objs[j].Some? {
      CollidePairAt(c, s, i, k, j);
      PairArmour(c, s, i, k, j);
    }
  }

  lemma PairArmour(c: Config, s: State, i: nat, k: nat, j: nat)
    requires ValidConfig(c) && i < k < MAXOBJS && (j == i || j == k) && s.objs[j].Some?
    ensures CollidePair(c, s, i, k).objs[j].Some?
    ensures CollidePair(c, s, i, k).objs[j].value.armour == s.objs[j].value.armour
  {
    hide Bump, Touch, HpAfter, AmmoAfter, CollidesWith;
    if s.objs[i].None? || s.objs[k].None? {
      NoPair(c, s, i, k);
    } else if s.objs[i].value.kind == Flag || s.objs[k].value.kind == Flag {
      FlagArmour(c, s, i, k, j);
    } else {
      hide CollidePair;
      PairExact(c, s, i, k);
    }
  }

  lemma FlagArmour(c: Config, s: State, i: nat, k: nat, j: nat)
    requires ValidConfig(c) && i < k < MAXOBJS && (j == i || j == k) && s.objs[i].Some? && s.objs[k].Some?
    requires s.objs[i].value.kind == Flag || s.objs[k].value.kind == Flag
    ensures CollidePair(c, s, i, k).objs[j].Some?
    ensures CollidePair(c, s, i, k).objs[j].value.armour == s.objs[j].value.armour
  {
    hide Bump, CollidesWith;
  }

  lemma StayBystanders(c: Config, objs: ObjList, s: State, i: nat, k: nat)
    requires ValidConfig(c) && i < k < MAXOBJS && Bystanders(objs, s.objs)
    ensures Bystanders(objs, CollidePair(c, s, i, k).objs)
  {
    hide CollidePair, Follows;
    forall j | 0 <= j < MAXOBJS ensures Bystander(objs[j], CollidePair(c, s, i, k).objs[j]) {
      PairBystander(c, s, i, k, j);
      assert Bystander(objs[j], s.objs[j]);
      BystanderTrans(objs[j], s.objs[j], CollidePair(c, s, i, k).objs[j]);
    }
  }

  lemma BystanderTrans(o: Option<Obj>, p: Option<Obj>, q: Option<Obj>)
    requires Bystander(o, p) && Bystander(p, q)
    ensures Bystander(o, q)
  {
  }

  /** One pair does to the object in slot `j` what `Met` says. */
  lemma PairWear(c: Config, objs: ObjList, s: State, i: nat, k: nat, j: nat)
    requires ValidConfig(c) && i < k < MAXOBJS && Bystanders(objs, s.objs)
    requires j < MAXOBJS && objs[j].Some? && objs[j].value.kind != Flag
    ensures s.objs[j].Some? && CollidePair(c, s, i, k).objs[j].Some?
    ensures var was, now := WearOf(s.objs[j].value), WearOf(CollidePair(c, s, i, k).objs[j].value);
            now == if i == j then Met(objs, objs[j].value, j, k, was)
                   else if k == j then Met(objs, objs[j].value, j, i, was) else was
  {
    hide CollidePair, Follows, HpAfter, Touch;
    assert Bystander(objs[j], s.objs[j]);
    PairBystander(c, s, i, k, j);
    if i != j && k != j {
      OtherSlots(c, s, i, k, j);
    } else {
      var l := if i == j then k else i;
      assert Bystander(objs[l], s.objs[l]);
      if objs[l].Some? {
        SameKind(objs[j].value, s.objs[j].value);
        SameKind(objs[l].value, s.objs[l].value);
        if objs[l].value.kind == Flag {
          FlagLeavesHp(c, s, i, k, j);
        } else {
          SameTouch(objs[j].value, s.objs[j].value, objs[l].value, s.objs[l].value);
          PairExact(c, s, i, k);
        }
      } else {
        NoPair(c, s, i, k);
      }
    }
  }

  lemma SameKind(o: Obj, m: Obj)
    requires Follows(o, m)
    ensures m.kind == o.kind
  {
  }

  lemma NoPair(c: Config, s: State, i: nat, k: nat)
    requires ValidConfig(c) && i < k < MAXOBJS && (s.objs[i].None? || s.objs[k].None?)
    ensures CollidePair(c, s, i, k) == s
  {
  }

  lemma FlagLeavesHp(c: Config, s: State, i: nat, k: nat, j: nat)
    requires ValidConfig(c) && i < k < MAXOBJS && s.objs[i].Some? && s.objs[k].Some? && (j == i || j == k)
    requires s.objs[j].value.kind != Flag && s.objs[if i == j then k else i].value.kind == Flag
    ensures CollidePair(c, s, i, k).objs[j].Some?
    ensures WearOf(CollidePair(c, s, i, k).objs[j].value) == WearOf(s.objs[j].value)
  {
    hide Bump;
  }

  /** When all pairs have met, an object that is not a flag has met every other object once, in the
      order of their slots. */
  lemma {:induction false} PassExact(c: Config, objs: ObjList, s: State, i: nat, k: nat, j: nat)
    requires ValidConfig(c) && i < k <= MAXOBJS && i + 1 < MAXOBJS && Bystanders(objs, s.objs)
    requires j < MAXOBJS && objs[j].Some? && objs[j].value.kind != Flag
    ensures s.objs[j].Some? && PairsFrom(c, s, i, k).objs[j].Some?
    ensures WearOf(PairsFrom(c, s, i, k).objs[j].value) ==
            Worn(objs, objs[j].value, j, Upcoming(i, k, j), WearOf(s.objs[j].value))
    decreases |objs| - i, |objs| - k
  {
    hide CollidePair, Met, Bystander;
    Present(objs, s.objs, j);
    if k < MAXOBJS {
      PairWear(c, objs, s, i, k, j);
      StayBystanders(c, objs, s, i, k);
      PassExact(c, objs, CollidePair(c, s, i, k), i, k + 1, j);
    } else if i + 2 < MAXOBJS {
      SkipSelf(objs, j, WearOf(s.objs[j].value));
      PassExact(c, objs, s, i + 1, i + 2, j);
    } else {
      SkipSelf(objs, j, WearOf(s.objs[j].value));
    }
  }

  lemma Present(objs: ObjList, q: ObjList, j: nat)
    requires Bystanders(objs, q) && j < MAXOBJS && objs[j].Some?
    ensures q[j].Some?
  {
    assert Bystander(objs[j], q[j]);
  }

  lemma SkipSelf(objs: ObjList, j: nat, w: Wear)
    requires j < MAXOBJS && objs[j].Some?
    ensures Worn(objs, objs[j].value, j, j, w) == Worn(objs, objs[j].value, j, j + 1, w)
  {
  }

  // ---- a whole frame

  /** The objects when they have moved, new powerups are there and walls have been hit. */
  function Standing(c: Config, s: State): State
    requires ValidConfig(c)
  {
    MapFrom(c, SpawnTicks(UpdateFrom(s, 0), 0), 0)
  }

  lemma {:induction false} MapExactAt(c: Config, s: State, i: nat, j: nat)
    requires ValidConfig(c) && i <= MAXOBJS && j < MAXOBJS && s.objs[j].Some?
    ensures MapFrom(c, s, i).objs[j].Some?
    ensures var o, m := s.objs[j].value, MapFrom(c, s, i).objs[j].value;
            if i <= j then m == Crash(c, o) || m == Dropped(Crash(c, o)) else m == o
    decreases MAXOBJS - i
  {
    hide MapSlot, Crash, Dropped;
    if i < MAXOBJS {
      MapSlotExactAt(c, s, i, j);
      MapExactAt(c, MapSlot(c, s, i), i + 1, j);
    }
  }

  lemma MapSlotExactAt(c: Config, s: State, i: nat, j: nat)
    requires ValidConfig(c) && i < MAXOBJS && j < MAXOBJS && s.objs[j].Some?
    ensures MapSlot(c, s, i).objs[j].Some?
    ensures var o, m := s.objs[j].value, MapSlot(c, s, i).objs[j].value;
            if i == j then m == Crash(c, o) || m == Dropped(Crash(c, o)) else m == o
  {
    hide Crash, AtHome, HandIn, FlagCaptured;
    if s.objs[i].Some? {
      var o := Crash(c, s.objs[i].value);
      if o.flags.hasFlag && AtHome(c, o) {
        CapturedObjs(c, Put(s, i, o), i);
        HandInAt(Put(s, i, o), i, HomeX(c, OtherTeam(o.team)), HomeY(c, OtherTeam(o.team)), j);
      }
    }
  }

  /** The object in slot `j` stands where its own update took it, with what a wall left of it. */
  lemma StandingAt(c: Config, s: State, j: nat)
    requires ValidConfig(c) && j < MAXOBJS && s.objs[j].Some?
    ensures Standing(c, s).objs[j].Some?
    ensures var o, m := Updated(s.objs[j].value), Standing(c, s).objs[j].value;
            m == Crash(c, o) || m == Dropped(Crash(c, o))
  {
    hide Updated, Crash, Dropped;
    UpdateAt(s, 0, j);
    SpawnTicksAt(UpdateFrom(s, 0), 0, j);
    MapExactAt(c, SpawnTicks(UpdateFrom(s, 0), 0), 0, j);
  }

  lemma SelfBystanders(objs: ObjList)
    ensures Bystanders(objs, objs)
  {
  }

  /** Wear and tear of a frame: what the object's own update and the walls leave of it then meets
      every other object in turn. */
  lemma FrameWear(c: Config, s: State, j: nat)
    requires ValidConfig(c) && j < MAXOBJS && s.objs[j].Some? && s.objs[j].value.kind != Flag
    ensures Standing(c, s).objs[j].Some? && BeforeDestruction(c, s).objs[j].Some?
    ensures var u := Standing(c, s).objs;
            WearOf(BeforeDestruction(c, s).objs[j].value) ==
            Worn(u, u[j].value, j, 0, WearOf(Crash(c, Updated(s.objs[j].value))))
  {
    hide Updated, Crash, Worn, Bystanders, PairsFrom;
    StandingAt(c, s, j);
    SelfBystanders(Standing(c, s).objs);
    KindStays(c, s.objs[j].value);
    PassExact(c, Standing(c, s).objs, Standing(c, s), 0, 1, j);
    SkipSelf(Standing(c, s).objs, j, WearOf(Standing(c, s).objs[j].value));
  }

  lemma KindStays(c: Config, o: Obj)
    requires ValidConfig(c)
    ensures Updated(o).kind == o.kind && Crash(c, Updated(o)).kind == o.kind
  {
    hide AddVector, Dx, Dy, MapCollision;
  }

  // ---- a tank under fire

  predicate Strikes(objs: ObjList, o: Obj, j: nat, k: nat) {
    k < MAXOBJS && k != j && objs[k].Some? && objs[k].value.kind == Missile && Touch(o, objs[k].value)
  }

  /** The slots of the missiles that `o`, in slot `j`, touches. */
  ghost function Missiles(objs: ObjList, o: Obj, j: nat): set<nat> {
    set k: nat | k < MAXOBJS && Strikes(objs, o, j, k)
  }

  predicate FuelAt(objs: ObjList, o: Obj, j: nat, k: nat) {
    k < MAXOBJS && k != j && objs[k].Some? && objs[k].value.kind == Fuel && Touch(o, objs[k].value)
  }

  ghost function From(ks: set<nat>, k: nat): set<nat> { set m | m in ks && k <= m }

  lemma FromNext(ks: set<nat>, k: nat)
    ensures |From(ks, k)| == |From(ks, k + 1)| + if k in ks then 1 else 0
  {
    if k in ks { assert From(ks, k) == From(ks, k + 1) + {k}; } else { assert From(ks, k) == From(ks, k + 1); }
  }

  /** Without fuel every missile takes 45, and a tank is destroyed exactly if they take all it has. */
  lemma {:induction false} UnderFire(objs: ObjList, o: Obj, j: nat, k: nat, w: Wear)
    requires k <= MAXOBJS && o.armour != 0 && (!w.felled ==> w.hp >= 1)
    requires forall l: nat :: !FuelAt(objs, o, j, l)
    ensures var n := |From(Missiles(objs, o, j), k)|;
            Worn(objs, o, j, k, w) == Wear(w.hp - 45 * n, w.felled || 45 * n >= w.hp)
    decreases |objs| - k
  {
    var ks := Missiles(objs, o, j);
    if k == MAXOBJS {
      assert From(ks, k) == {};
    } else {
      FromNext(ks, k);
      assert !FuelAt(objs, o, j, k);
      UnderFire(objs, o, j, k + 1, Met(objs, o, j, k, w));
    }
  }

  /** What is left of a tank when it has moved, and a wall has taken ten and its speed if it is in one. */
  function AfterWall(c: Config, o: Obj): int
    requires ValidConfig(c)
  {
    o.hp - if InWall(c, Updated(o)) then Least(c.maxWallDmg, Updated(o).actual.vel + 10) else 0
  }

  /** What a frame does to a tank that gets no fuel: a wall takes its share, each missile that the
      tank touches takes 45, and it is a wreck afterwards exactly if they took all it had. */
  lemma FrameUnderFire(c: Config, s: State, j: nat)
    requires ValidConfig(c) && j < MAXOBJS && s.objs[j].Some? && Sane(s.objs[j].value)
    requires s.objs[j].value.kind == Tank && !s.objs[j].value.flags.destroyed && !s.objs[j].value.flags.vanished
    requires Standing(c, s).objs[j].Some?
    requires forall k: nat :: !FuelAt(Standing(c, s).objs, Standing(c, s).objs[j].value, j, k)
    ensures DoObjectUpdates(c, s).objs[j].Some?
    ensures var u := Standing(c, s).objs;
            var hp, n := AfterWall(c, s.objs[j].value), |Missiles(u, u[j].value, j)|;
            var m := DoObjectUpdates(c, s).objs[j].value;
            && m.hp == hp - 45 * n
            && (if 45 * n >= hp then m.kind == Explosion && m.ttl == 15
                else m.kind == Tank && !m.flags.destroyed)
  {
    hide Updated, Standing, BeforeDestruction, DoObjectUpdates, InWall, FuelAt, Missiles;
    var o := s.objs[j].value;
    var u := Standing(c, s).objs;
    WallExact(c, Updated(o));
    TankUpdated(o);
    StandingAt(c, s, j);
    FrameWear(c, s, j);
    UnderFire(u, u[j].value, j, 0, WearOf(Crash(c, Updated(o))));
    FromAll(Missiles(u, u[j].value, j));
    CollidedAt(c, s, j);
    UpdatesAt(c, s, j);
  }

  lemma FromAll(ks: set<nat>)
    ensures From(ks, 0) == ks
  {
  }

  lemma TankUpdated(o: Obj)
    requires Sane(o) && o.kind == Tank
    ensures var m := Updated(o);
            && m.kind == Tank && m.hp == o.hp && m.armour == 1 && m.flags == o.flags && m.destruct == DestroyPlayer
            && o.ttl != 0
  {
    hide AddVector, Dx, Dy;
  }

  // ---- missiles and powerups

  predicate Touches(objs: ObjList, o: Obj, j: nat, k: nat) {
    k < MAXOBJS && k != j && objs[k].Some? && objs[k].value.kind != Flag && Touch(o, objs[k].value)
  }

  lemma {:induction false} FragileWear(objs: ObjList, o: Obj, j: nat, k: nat, w: Wear)
    requires k <= MAXOBJS && o.armour == 0
    ensures Worn(objs, o, j, k, w).felled <==> w.felled || exists l: nat :: k <= l && Touches(objs, o, j, l)
    decreases |objs| - k
  {
    if k < MAXOBJS {
      FragileWear(objs, o, j, k + 1, Met(objs, o, j, k, w));
      if Touches(objs, o, j, k) { assert Met(objs, o, j, k, w).felled; }
    }
  }

  /** An object with no armour, a missile or a powerup, does not outlast a frame in which its time
      is up, or it is in a wall, or it touches anything but a flag; and nothing else destroys it. */
  lemma FragileFrame(c: Config, s: State, j: nat)
    requires ValidConfig(c) && j < MAXOBJS && s.objs[j].Some? && s.objs[j].value.armour == 0
    requires s.objs[j].value.kind == Missile || s.objs[j].value.kind == Fuel || s.objs[j].value.kind == Ammo
    requires Sane(s.objs[j].value)
    ensures Standing(c, s).objs[j].Some? && DoObjectUpdates(c, s).objs[j].Some?
    ensures var o, u := s.objs[j].value, Standing(c, s).objs;
            DoObjectUpdates(c, s).objs[j].value.flags.destroyed <==>
            || o.flags.destroyed || o.ttl == 0 || InWall(c, Updated(o))
            || exists k: nat :: Touches(u, u[j].value, j, k)
  {
    hide Updated, Standing, BeforeDestruction, DoObjectUpdates, InWall, Touches;
    var o := s.objs[j].value;
    var u := Standing(c, s).objs;
    FragileUpdated(o);
    WallExact(c, Updated(o));
    StandingAt(c, s, j);
    FrameWear(c, s, j);
    CrashArmour(c, Updated(o));
    FragileWear(u, u[j].value, j, 0, WearOf(Crash(c, Updated(o))));
    CollidedAt(c, s, j);
    UpdatesAt(c, s, j);
  }

  lemma CrashArmour(c: Config, o: Obj)
    requires ValidConfig(c)
    ensures Crash(c, o).armour == o.armour
  {
    hide MapCollision;
  }

  lemma FragileUpdated(o: Obj)
    requires o.kind == Missile || o.kind == Fuel || o.kind == Ammo
    ensures var m := Updated(o);
            && m.kind == o.kind && m.armour == o.armour && m.destruct == o.destruct
            && (m.flags.destroyed <==> o.flags.destroyed || o.ttl == 0)
  {
    hide AddVector, Dx, Dy;
  }

  // ---- orders

  lemma PairOrders(c: Config, s: State, i: nat, k: nat, j: nat)
    requires ValidConfig(c) && i < k < MAXOBJS && j < MAXOBJS && s.objs[j].Some?
    ensures CollidePair(c, s, i, k).objs[j].Some?
    ensures CollidePair(c, s, i, k).objs[j].value.commanded == s.objs[j].value.commanded
  {
    hide Bump, Touch, HpAfter, AmmoAfter, CollidesWith;
    if j != i && j != k {
      OtherSlots(c, s, i, k, j);
    } else if s.objs[i].None? || s.objs[k].None? {
      NoPair(c, s, i, k);
    } else if s.objs[i].value.kind == Flag || s.objs[k].value.kind == Flag {
    } else {
      hide CollidePair;
      PairExact(c, s, i, k);
    }
  }

  lemma {:induction false} PassOrders(c: Config, s: State, i: nat, k: nat, j: nat)
    requires ValidConfig(c) && i < k <= MAXOBJS && j < MAXOBJS && s.objs[j].Some?
    ensures PairsFrom(c, s, i, k).objs[j].Some?
    ensures PairsFrom(c, s, i, k).objs[j].value.commanded == s.objs[j].value.commanded
    decreases |s.objs| - i, |s.objs| - k
  {
    hide CollidePair;
    if k < MAXOBJS {
      PairOrders(c, s, i, k, j);
      PassOrders(c, CollidePair(c, s, i, k), i, k + 1, j);
    } else if i + 2 < MAXOBJS {
      PassOrders(c, s, i + 1, i + 2, j);
    }
  }

  /** Before the destructors run, a tank's speed and heading are what its controls made them, but
      a wall stops its engine. */
  lemma FrameOrders(c: Config, s: State, j: nat)
    requires ValidConfig(c) && j < MAXOBJS && s.objs[j].Some?
    ensures BeforeDestruction(c, s).objs[j].Some?
    ensures var m, o := BeforeDestruction(c, s).objs[j].value, Updated(s.objs[j].value);
            m.commanded == o.commanded || (InWall(c, o) && m.commanded == Vec(o.commanded.dir, 0))
  {
    hide Updated, InWall, PairsFrom, Crash;
    StandingAt(c, s, j);
    WallOrders(c, Updated(s.objs[j].value));
    PassOrders(c, Standing(c, s), 0, 1, j);
  }

  lemma WallOrders(c: Config, o: Obj)
    requires ValidConfig(c)
    ensures var m := Crash(c, o);
            m.commanded == o.commanded || (InWall(c, o) && m.commanded == Vec(o.commanded.dir, 0))
  {
    hide MapCollision;
  }
}
