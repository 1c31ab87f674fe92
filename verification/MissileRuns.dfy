/** Missiles over time: at most two from one tank are in the air. */
module MissileRuns {
  import opened CtfServ
  import opened Game
  import opened GameInvariant
  import opened Runs
  import opened Tracking
  import opened LifeCycle
  import opened TankRuns

  predicate Flying(o: Obj) { o.kind == Missile && o.owner >= 0 && !o.flags.destroyed }

  predicate SameFlight(o: Option<Obj>, m: Obj) {
    o.Some? && Flying(o.value) && o.value.owner == m.owner && o.value.ttl == m.ttl
  }

  /** Every missile still flying in `q` was flying in the same slot of `p`, with the same clock. */
  predicate Back(p: ObjList, q: ObjList) {
    forall j :: 0 <= j < MAXOBJS && q[j].Some? && Flying(q[j].value) ==> SameFlight(p[j], q[j].value)
  }

  // ---- everything but the tanks' own turns leaves missiles alone or stops them

  lemma BackTrans(p: ObjList, q: ObjList, r: ObjList)
    requires Back(p, q) && Back(q, r)
    ensures Back(p, r)
  {
  }

  lemma AddBack(s: State, o: Obj)
    requires !Flying(o)
    ensures Back(s.objs, AddObject(s, o).objs)
  {
  }

  lemma PutBack(p: ObjList, i: nat, m: Obj)
    requires i < MAXOBJS && (Flying(m) ==> SameFlight(p[i], m))
    ensures Back(p, p[i := Some(m)])
  {
  }

  lemma FollowsFlight(o: Obj, m: Obj)
    requires Follows(o, m)
    ensures Flying(m) ==> SameFlight(Some(o), m)
  {
  }

  lemma {:induction false} SpawnTicksBack(s: State, n: nat)
    requires n <= |s.powerups|
    ensures Back(s.objs, SpawnTicks(s, n).objs)
    decreases |s.powerups| - n
  {
    if n < |s.powerups| {
      AddBack(s, NewObject(s.powerups[n].kind, -1, s.powerups[n].x, s.powerups[n].y, ResetSpawn(n)));
      SpawnTicksBack(SpawnTick(s, n), n + 1);
    }
  }

  lemma MapSlotBack(c: Config, s: State, i: nat)
    requires ValidConfig(c) && i < MAXOBJS
    ensures Back(s.objs, MapSlot(c, s, i).objs)
  {
    if s.objs[i].Some? {
      var o := Crash(c, s.objs[i].value);
      CrashFollows(c, s.objs[i].value);
      FollowsFlight(s.objs[i].value, o);
      hide Crash, HandIn, FlagCaptured;
      PutBack(s.objs, i, o);
      if o.flags.hasFlag && AtHome(c, o) {
        var s1, other := Put(s, i, o), OtherTeam(o.team);
        CapturedObjs(c, s1, i);
        HandInBack(s1, i, HomeX(c, other), HomeY(c, other));
        BackTrans(s.objs, s1.objs, FlagCaptured(c, s1, i).objs);
      }
    }
  }

  lemma HandInBack(s: State, i: nat, x: int, y: int)
    requires i < MAXOBJS && s.objs[i].Some?
    ensures Back(s.objs, HandIn(s, i, x, y).objs)
  {
    var s1 := PlaceFlag(s, OtherTeam(s.objs[i].value.team), x, y);
    AddBack(s, NewObject(Flag, OtherTeam(s.objs[i].value.team), x, y, NoDestructor));
    PutBack(s1.objs, i, Dropped(s.objs[i].value));
  }

  lemma {:induction false} MapBack(c: Config, s: State, i: nat)
    requires ValidConfig(c) && i <= MAXOBJS
    ensures Back(s.objs, MapFrom(c, s, i).objs)
    decreases MAXOBJS - i
  {
    if i < MAXOBJS {
      hide MapSlot;
      MapSlotBack(c, s, i);
      MapBack(c, MapSlot(c, s, i), i + 1);
      BackTrans(s.objs, MapSlot(c, s, i).objs, MapFrom(c, s, i).objs);
    }
  }

  lemma FlagTouchedBack(c: Config, s: State, f: nat, t: nat)
    requires ValidConfig(c) && f < MAXOBJS && t < MAXOBJS && f != t && s.objs[f].Some? && s.objs[t].Some?
    requires s.objs[f].value.kind == Flag
    ensures Back(s.objs, FlagTouched(c, s, f, t).objs)
  {
  }

  lemma CollidePairBack(c: Config, s: State, i: nat, j: nat)
    requires ValidConfig(c) && i < j < MAXOBJS
    ensures Back(s.objs, CollidePair(c, s, i, j).objs)
  {
    if s.objs[i].Some? && s.objs[j].Some? && CollidesWith(s.objs[i].value, s.objs[j].value) {
      var a, b := s.objs[i].value, s.objs[j].value;
      hide FlagTouched, Bump;
      if a.kind == Flag {
        if b.kind != Flag { FlagTouchedBack(c, s, i, j); }
      } else if b.kind == Flag {
        FlagTouchedBack(c, s, j, i);
      } else {
        BumpFollows(a, b);
        FollowsFlight(a, Bump(a, b).0);
        FollowsFlight(b, Bump(a, b).1);
        PutBack(s.objs, i, Bump(a, b).0);
        PutBack(s.objs[i := Some(Bump(a, b).0)], j, Bump(a, b).1);
      }
    }
  }

  lemma {:induction false} PairsBack(c: Config, s: State, i: nat, j: nat)
    requires ValidConfig(c) && i < j <= MAXOBJS
    ensures Back(s.objs, PairsFrom(c, s, i, j).objs)
    decreases MAXOBJS - i, MAXOBJS - j
  {
    hide CollidePair;
    if j < MAXOBJS {
      CollidePairBack(c, s, i, j);
      PairsBack(c, CollidePair(c, s, i, j), i, j + 1);
      BackTrans(s.objs, CollidePair(c, s, i, j).objs, PairsFrom(c, s, i, j).objs);
    } else if i + 2 < MAXOBJS {
      PairsBack(c, s, i + 1, i + 2);
    }
  }

  lemma DestructSlotBack(c: Config, s: State, i: nat)
    requires ValidConfig(c) && i < MAXOBJS
    ensures Back(s.objs, DestructSlot(c, s, i).objs)
  {
    if s.objs[i].Some? && s.objs[i].value.flags.destroyed && s.objs[i].value.destruct == DestroyPlayer {
      var o := s.objs[i].value;
      AddBack(s, NewObject(Flag, OtherTeam(o.team), o.x, o.y, NoDestructor));
    }
  }

  lemma {:induction false} DestructBack(c: Config, s: State, i: nat)
    requires ValidConfig(c) && i <= MAXOBJS
    ensures Back(s.objs, DestructFrom(c, s, i).objs)
    decreases MAXOBJS - i
  {
    if i < MAXOBJS {
      hide DestructSlot;
      DestructSlotBack(c, s, i);
      DestructBack(c, DestructSlot(c, s, i), i + 1);
      BackTrans(s.objs, DestructSlot(c, s, i).objs, DestructFrom(c, s, i).objs);
    }
  }

  lemma VanishSlotBack(s: State, k: nat, i: nat)
    requires i < MAXOBJS
    ensures Back(s.objs, VanishSlot(s, k, i).objs)
  {
    if s.objs[i].Some? {
      var o := s.objs[i].value;
      AddBack(s, NewObject(Flag, OtherTeam(o.team), o.x, o.y, NoDestructor));
    }
  }

  lemma {:induction false} VanishBack(s: State, k: nat, i: nat)
    requires i <= MAXOBJS
    ensures Back(s.objs, VanishFrom(s, k, i).objs)
    decreases MAXOBJS - i
  {
    if i < MAXOBJS {
      hide VanishSlot;
      VanishSlotBack(s, k, i);
      VanishBack(VanishSlot(s, k, i), k, i + 1);
      BackTrans(s.objs, VanishSlot(s, k, i).objs, VanishFrom(s, k, i).objs);
    }
  }

  lemma RemoveBack(s: State, k: nat)
    requires k < MAXCLIENTS && s.players[k].Some?
    ensures Back(s.objs, RemoveClient(s, k).objs)
  {
    hide Ordered;
    VanishBack(s, k, 0);
  }

  lemma {:induction false} SendBack(s: State, lost: set<nat>, k: nat)
    requires k <= MAXCLIENTS
    ensures Back(s.objs, SendFrom(s, lost, k).objs)
    decreases MAXCLIENTS - k
  {
    if k < MAXCLIENTS {
      hide RemoveClient;
      if s.players[k].Some? && k in lost {
        RemoveBack(s, k);
        SendBack(RemoveClient(s, k), lost, k + 1);
        BackTrans(s.objs, RemoveClient(s, k).objs, SendFrom(s, lost, k).objs);
      } else {
        SendBack(s, lost, k + 1);
      }
    }
  }

  lemma {:induction false} BuryBack(s: State, k: nat)
    requires k <= MAXCLIENTS
    ensures Back(s.objs, BuryFrom(s, k).objs)
    decreases MAXCLIENTS - k
  {
    if k < MAXCLIENTS {
      hide RemoveClient;
      if s.players[k].Some? && s.players[k].value.flags.dead {
        RemoveBack(s, k);
        BuryBack(RemoveClient(s, k), k + 1);
        BackTrans(s.objs, RemoveClient(s, k).objs, BuryFrom(s, k).objs);
      } else {
        BuryBack(s, k + 1);
      }
    }
  }

  lemma CleanSlotBack(c: Config, s: State, i: nat)
    requires i < MAXOBJS
    ensures Back(s.objs, CleanSlot(c, s, i).objs)
  {
    if s.objs[i].Some? {
      var o := s.objs[i].value;
      if 0 <= o.owner < MAXCLIENTS && s.players[o.owner].Some? {
        AddBack(s, NewTank(c, o.owner, s.players[o.owner].value));
      }
    }
  }

  lemma {:induction false} CleanBack(c: Config, s: State, i: nat)
    requires i <= MAXOBJS
    ensures Back(s.objs, CleanFrom(c, s, i).objs)
    decreases MAXOBJS - i
  {
    if i < MAXOBJS {
      hide CleanSlot;
      CleanSlotBack(c, s, i);
      CleanBack(c, CleanSlot(c, s, i), i + 1);
      BackTrans(s.objs, CleanSlot(c, s, i).objs, CleanFrom(c, s, i).objs);
    }
  }

  // ---- the objects' own turns

  /** A missile of player `k` flies in slot `j`. */
  predicate InAir(objs: ObjList, k: nat, j: nat) {
    j < MAXOBJS && objs[j].Some? && Flying(objs[j].value) && objs[j].value.owner == k
  }

  predicate Clocked(objs: ObjList) {
    forall j :: 0 <= j < MAXOBJS && objs[j].Some? && objs[j].value.kind == Missile ==> objs[j].value.ttl >= 0
  }

  /** The object will shoot when its turn comes. */
  predicate Loaded(o: Obj) { o.ttl != 0 && Fires(Steer(Timers(o))) }

  /** No object of player `k` in the slots from `i` on, but for slot `q`, is going to shoot. */
  predicate HoldsFire(objs: ObjList, i: nat, k: nat, q: nat) {
    forall r :: i <= r < MAXOBJS && r != q && objs[r].Some? && objs[r].value.owner == k ==> !Loaded(objs[r].value)
  }

  /** The only object that can appear in a turn is the missile of its shot, in the first free slot. */
  lemma NewInTurn(s: State, i: nat, j: nat)
    requires i < MAXOBJS && j < MAXOBJS && s.objs[j] == None && UpdateSlot(s, i).objs[j].Some?
    ensures s.objs[i].Some? && Loaded(s.objs[i].value) && j == FirstFree(s.objs, 0)
    ensures var m := UpdateSlot(s, i).objs[j].value;
            m.kind == Missile && m.ttl == 20 && m.owner == s.objs[i].value.owner && m.ctrls == NOCTRLS
  {
    hide Advance;
    var a := Put(s, i, Steer(Timers(s.objs[i].value)));
    SameFirstFree(s.objs, i, a.objs[i].value, 0);
  }

  lemma {:induction false} SameFirstFree(objs: ObjList, i: nat, m: Obj, n: nat)
    requires i < MAXOBJS && objs[i].Some? && n <= MAXOBJS
    ensures FirstFree(objs[i := Some(m)], n) == FirstFree(objs, n)
    decreases MAXOBJS - n
  {
    if n < MAXOBJS && objs[n].Some? { SameFirstFree(objs, i, m, n + 1); }
  }

  lemma MissileUpdated(o: Obj)
    requires o.kind == Missile && o.ttl >= 0
    ensures Updated(o).kind == Missile && Updated(o).owner == o.owner && Updated(o).ttl >= 0
    ensures Flying(Updated(o)) ==> Flying(o) && Updated(o).ttl == o.ttl - 1
  {
  }

  lemma UpdatedKind(o: Obj)
    ensures Updated(o).kind == o.kind
  {
  }

  /** One turn: a missile flying after it was flying before it, or it was shot in it. */
  lemma Turned(s: State, i: nat, k: nat, j: nat)
    requires i < MAXOBJS && Clocked(s.objs) && InAir(UpdateSlot(s, i).objs, k, j)
    ensures var m := UpdateSlot(s, i).objs[j].value;
            if s.objs[j].Some? then InAir(s.objs, k, j) && m.ttl == s.objs[j].value.ttl - if i == j then 1 else 0
            else
              && s.objs[i].Some? && Loaded(s.objs[i].value) && s.objs[i].value.owner == k
              && j == FirstFree(s.objs, 0) && m.ttl == 20
  {
    hide UpdateSlot, Updated, Loaded;
    if s.objs[j].Some? {
      UpdateSlotAt(s, i, j);
      UpdatedKind(s.objs[j].value);
      if s.objs[j].value.kind == Missile { MissileUpdated(s.objs[j].value); }
    } else {
      NewInTurn(s, i, j);
    }
  }

  lemma TurnedClocks(s: State, i: nat)
    requires i < MAXOBJS && Clocked(s.objs)
    ensures Clocked(UpdateSlot(s, i).objs)
  {
    hide UpdateSlot, Updated, Loaded;
    forall j | 0 <= j < MAXOBJS && UpdateSlot(s, i).objs[j].Some? && UpdateSlot(s, i).objs[j].value.kind == Missile
      ensures UpdateSlot(s, i).objs[j].value.ttl >= 0
    {
      if s.objs[j].Some? {
        UpdateSlotAt(s, i, j);
        UpdatedKind(s.objs[j].value);
        if s.objs[j].value.kind == Missile { MissileUpdated(s.objs[j].value); }
      } else {
        NewInTurn(s, i, j);
      }
    }
  }

  lemma TurnedFire(s: State, i: nat, k: nat, q: nat)
    requires i < MAXOBJS && HoldsFire(s.objs, i + 1, k, q)
    ensures HoldsFire(UpdateSlot(s, i).objs, i + 1, k, q)
  {
    hide UpdateSlot, Updated;
    var t := UpdateSlot(s, i);
    forall r | i + 1 <= r < MAXOBJS && r != q && t.objs[r].Some? && t.objs[r].value.owner == k
        ensures !Loaded(t.objs[r].value) {
      if s.objs[r].Some? { UpdateSlotAt(s, i, r); } else { NewInTurn(s, i, r); }
    }
  }

  /** What the turns of the slots from `i` on make of the missiles of a player who holds fire. */
  lemma {:induction false} QuietTurns(s: State, i: nat, k: nat, j: nat)
    requires i <= MAXOBJS && Clocked(s.objs) && HoldsFire(s.objs, i, k, MAXOBJS) && InAir(UpdateFrom(s, i).objs, k, j)
    ensures InAir(s.objs, k, j)
    ensures UpdateFrom(s, i).objs[j].value.ttl == s.objs[j].value.ttl - if i <= j then 1 else 0
    decreases MAXOBJS - i
  {
    if i < MAXOBJS {
      hide UpdateSlot, Loaded;
      TurnedClocks(s, i);
      TurnedFire(s, i, k, MAXOBJS);
      QuietTurns(UpdateSlot(s, i), i + 1, k, j);
      Turned(s, i, k, j);
    }
  }

  /** The slot that the shot of the object in slot `q` takes, when the turns start at slot `i`. */
  function ShotSlot(s: State, i: nat, q: nat): nat
    requires i <= q < MAXOBJS
    decreases q - i
  {
    if i == q then FirstFree(s.objs, 0) else ShotSlot(UpdateSlot(s, i), i + 1, q)
  }

  /** Nobody but the object in slot `q` shoots for player `k`: every missile is an old one, one
      frame on, or the only new one. */
  lemma {:induction false} OneShot(s: State, i: nat, q: nat, k: nat, j: nat)
    requires i <= q < MAXOBJS && Clocked(s.objs) && HoldsFire(s.objs, i, k, q)
    requires InAir(UpdateFrom(s, i).objs, k, j) && s.objs[q].Some?
    ensures var m := UpdateFrom(s, i).objs[j].value;
            if s.objs[j].Some? then InAir(s.objs, k, j) && m.ttl == s.objs[j].value.ttl - if i <= j then 1 else 0
            else Loaded(s.objs[q].value) && j == ShotSlot(s, i, q) && 19 <= m.ttl <= 20
    decreases q - i
  {
    hide UpdateSlot, Loaded, Updated;
    var t := UpdateSlot(s, i);
    TurnedClocks(s, i);
    TurnedFire(s, i, k, q);
    UpdateSlotAt(s, i, q);
    if s.objs[j].Some? { UpdateSlotAt(s, i, j); }
    if i == q {
      QuietTurns(t, i + 1, k, j);
    } else {
      OneShot(t, i + 1, q, k, j);
    }
    if InAir(t.objs, k, j) { Turned(s, i, k, j); }
  }

  // ---- one frame

  lemma UpdatesBack(c: Config, s: State)
    requires ValidConfig(c)
    ensures Back(UpdateFrom(s, 0).objs, DoObjectUpdates(c, s).objs)
  {
    hide Back;
    var u := UpdateFrom(s, 0);
    var v := SpawnTicks(u, 0);
    var m := MapFrom(c, v, 0);
    var d := PairsFrom(c, m, 0, 1);
    SpawnTicksBack(u, 0);
    MapBack(c, v, 0);
    BackTrans(u.objs, v.objs, m.objs);
    PairsBack(c, m, 0, 1);
    BackTrans(u.objs, m.objs, d.objs);
    DestructBack(c, d, 0);
    BackTrans(u.objs, d.objs, DestructFrom(c, d, 0).objs);
  }

  lemma ClearedBack(c: Config, s: State, lost: set<nat>)
    requires ValidConfig(c)
    ensures Back(DoObjectUpdates(c, s).objs, BuryFrom(CleanFrom(c, Sent(c, s, lost), 0), 0).objs)
  {
    hide Back, DoObjectUpdates, ViewsFrom, TimeTick;
    var m := DoObjectUpdates(c, s);
    ViewsStandings(m, 0);
    TimeStandings(c, ViewsFrom(m, 0));
    var w := TimeTick(c, ViewsFrom(m, 0));
    var d := Sent(c, s, lost);
    var e := CleanFrom(c, d, 0);
    SendBack(w, lost, 0);
    CleanBack(c, d, 0);
    BackTrans(m.objs, d.objs, e.objs);
    BuryBack(e, 0);
    BackTrans(m.objs, e.objs, BuryFrom(e, 0).objs);
  }

  /** Between frames nothing but the tank of player `k` can shoot for that player. */
  lemma OnlyTheTank(s: State, k: nat, q: nat)
    requires Boundary(s) && Holds(s, k, q, Tank)
    ensures Clocked(s.objs) && HoldsFire(s.objs, 0, k, q)
  {
    forall r | 0 <= r < MAXOBJS && s.objs[r].Some?
      ensures s.objs[r].value.kind == Missile ==> s.objs[r].value.ttl >= 0
      ensures r != q && s.objs[r].value.owner == k ==> !Loaded(s.objs[r].value)
    {
      assert SlotOk(s, MAXOBJS, MAXOBJS, r);
    }
  }

  /** Through a frame in which player `k` keeps its tank, in slot `q`: a missile of theirs was
      in the same slot with one more frame to fly, or is the one that the tank has shot. */
  lemma FrameMissiles(c: Config, s: State, lost: set<nat>, k: nat, q: nat, j: nat)
    requires ValidConfig(c) && Boundary(s) && Holds(s, k, q, Tank)
    requires Frame(c, s, lost).players[k].Some? && !Frame(c, s, lost).players[k].value.flags.spectator
    requires InAir(Frame(c, s, lost).objs, k, j)
    ensures var m := Frame(c, s, lost).objs[j].value;
            if s.objs[j].Some? then InAir(s.objs, k, j) && m.ttl == s.objs[j].value.ttl - 1
            else Shoots(s, q) && j == ShotSlot(s, 0, q) && 19 <= m.ttl <= 20
  {
    hide Frame, Boundary, UpdateFrom, DoObjectUpdates, Sent, BuryFrom, CleanFrom, Fires;
    FrameBuried(c, s, lost, k);
    UpdatesBack(c, s);
    ClearedBack(c, s, lost);
    BackTrans(UpdateFrom(s, 0).objs, DoObjectUpdates(c, s).objs, Frame(c, s, lost).objs);
    OnlyTheTank(s, k, q);
    OneShot(s, 0, q, k, j);
  }

  /** Messages shoot nothing. */
  lemma MessageBack(c: Config, s: State, e: Input)
    requires ValidConfig(c) && !e.Tick?
    ensures Back(s.objs, Step(c, s, e).objs)
  {
    hide Ordered, RemoveClient, LeaveMatchmaking, Startable;
    if !e.Hello? && Connected(s, e.k) {
      var p := s.players[e.k].value;
      match e
      case Start(k) => AddBack(s, NewTank(c, k, p));
      case Control(_, ctrls) =>
        if TankOf(s, p).Some? { PutBack(s.objs, p.tank.value, TankOf(s, p).value.(ctrls := ctrls)); }
      case Bye(k) => RemoveBack(s, k);
      case PingOut(k) => RemoveBack(s, k);
      case _ =>
    }
  }

  // ---- whole runs

  /** The slots of player `k`'s missiles in the air in state `n` that have come there since state `a`. */
  function FiredSince(states: seq<State>, k: nat, a: nat, n: nat): set<nat>
    requires a <= n < |states|
  {
    if n == a then {}
    else set j: nat | j < MAXOBJS && InAir(states[n].objs, k, j)
                      && (j in FiredSince(states, k, a, n - 1) || states[n - 1].objs[j] == None)
  }

  /** The older the shot the less is left of its flight: no clock runs more than three frames
      ahead of the gun's cooldown, and any two are at least seventeen frames apart. */
  predicate Spread(objs: ObjList, slots: set<nat>, k: nat, heat: int) {
    && (forall j :: j in slots ==> InAir(objs, k, j) && objs[j].value.ttl <= heat + 3)
    && (forall j, l :: j in slots && l in slots && j != l ==>
          objs[j].value.ttl - objs[l].value.ttl >= 17 || objs[l].value.ttl - objs[j].value.ttl >= 17)
  }

  /** What a frame makes of a missile with this much to fly. */
  predicate Next(s: State, t: State, k: nat, q: nat, j: nat) {
    InAir(t.objs, k, j) ==>
      if s.objs[j].Some? then InAir(s.objs, k, j) && t.objs[j].value.ttl == s.objs[j].value.ttl - 1
      else Shoots(s, q) && j == ShotSlotOf(s, q) && 19 <= t.objs[j].value.ttl <= 20
  }

  function ShotSlotOf(s: State, q: nat): nat { if q < MAXOBJS then ShotSlot(s, 0, q) else MAXOBJS }

  lemma SpreadFrame(s: State, t: State, k: nat, q: nat, slots: set<nat>, slots': set<nat>, was: int, now: int)
    requires Spread(s.objs, slots, k, was) && 0 <= was
    requires if Shoots(s, q) then was == 0 && now == 17 else now == if was > 0 then was - 1 else 0
    requires forall j :: j in slots' ==> InAir(t.objs, k, j) && (j in slots || s.objs[j] == None) && Next(s, t, k, q, j)
    ensures Spread(t.objs, slots', k, now)
  {
    hide Shoots, ShotSlotOf;
    forall j | j in slots' ensures t.objs[j].value.ttl <= now + 3 { assert Next(s, t, k, q, j); }
    forall j, l | j in slots' && l in slots' && j != l
      ensures t.objs[j].value.ttl - t.objs[l].value.ttl >= 17 || t.objs[l].value.ttl - t.objs[j].value.ttl >= 17
    {
      assert Next(s, t, k, q, j) && Next(s, t, k, q, l);
    }
  }

  lemma SpreadMessage(s: State, t: State, k: nat, slots: set<nat>, slots': set<nat>, heat: int)
    requires Spread(s.objs, slots, k, heat) && Back(s.objs, t.objs)
    requires forall j :: j in slots' ==> InAir(t.objs, k, j) && (j in slots || s.objs[j] == None)
    ensures Spread(t.objs, slots', k, heat)
  {
  }

  lemma SpreadStep(c: Config, s: State, e: Input, k: nat, q: nat, slots: set<nat>, slots': set<nat>)
    requires ValidConfig(c) && Boundary(s) && Allowed(s, e) && Holds(s, k, q, Tank) && Holds(Step(c, s, e), k, q, Tank)
    requires !Step(c, s, e).players[k].value.flags.spectator && Spread(s.objs, slots, k, s.objs[q].value.cooldown)
    requires forall j :: j in slots' ==> InAir(Step(c, s, e).objs, k, j) && (j in slots || s.objs[j] == None)
    ensures Spread(Step(c, s, e).objs, slots', k, Step(c, s, e).objs[q].value.cooldown)
  {
    HeldSane(s, k, q, Tank);
    GunStep(c, s, e, k, q);
    hide Step, Spread, Boundary, Shoots;
    var t := Step(c, s, e);
    if e.Tick? {
      forall j | j in slots' ensures Next(s, t, k, q, j) { FrameNext(c, s, e.lost, k, q, j, t); }
      SpreadFrame(s, t, k, q, slots, slots', s.objs[q].value.cooldown, t.objs[q].value.cooldown);
    } else {
      MessageBack(c, s, e);
      SpreadMessage(s, t, k, slots, slots', t.objs[q].value.cooldown);
    }
  }

  lemma {:induction false} ShotsSpread(c: Config, powerups: seq<PowerSpawn>, states: seq<State>, inputs: seq<Input>,
                                       k: nat, a: nat, b: nat, q: nat, n: nat)
    requires ValidConfig(c) && Drive(c, powerups, states, inputs, k, a, b, q) && a <= n <= b
    ensures Spread(states[n].objs, FiredSince(states, k, a, n), k, Heat(states, n, q))
    decreases n
  {
    if a < n {
      hide Step, Spread, Boundary, InAir;
      ShotsSpread(c, powerups, states, inputs, k, a, b, q, n - 1);
      TenureStep(c, powerups, states, inputs, k, a, b, n - 1);
      assert Holds(states[n - 1], k, q, Tank) && Holds(states[n], k, q, Tank);
      SpreadStep(c, states[n - 1], inputs[n - 1], k, q, FiredSince(states, k, a, n - 1), FiredSince(states, k, a, n));
    }
  }

  lemma FrameNext(c: Config, s: State, lost: set<nat>, k: nat, q: nat, j: nat, t: State)
    requires ValidConfig(c) && Boundary(s) && Holds(s, k, q, Tank) && t == Step(c, s, Tick(lost))
    requires t.players[k].Some? && !t.players[k].value.flags.spectator && InAir(t.objs, k, j)
    ensures Next(s, t, k, q, j)
  {
    FrameMissiles(c, s, lost, k, q, j);
  }

  lemma PickThree(slots: set<nat>) returns (x: nat, y: nat, z: nat)
    requires |slots| > 2
    ensures {x, y, z} <= slots && x != y && y != z && x != z
  {
    x :| x in slots;
    var two := slots - {x};
    assert |two| == |slots| - 1;
    y :| y in two;
    var one := two - {y};
    assert |one| == |two| - 1;
    z :| z in one;
  }

  /** While a player drives one tank, at most two of the missiles shot since are in the air. */
  lemma TwoMissiles(c: Config, powerups: seq<PowerSpawn>, states: seq<State>, inputs: seq<Input>, k: nat, a: nat,
                    b: nat, q: nat, n: nat)
    requires ValidConfig(c) && Drive(c, powerups, states, inputs, k, a, b, q) && a <= n <= b
    ensures |FiredSince(states, k, a, n)| <= 2
  {
    ShotsSpread(c, powerups, states, inputs, k, a, b, q, n);
    RunBoundary(c, powerups, states, inputs, n);
    var objs, slots := states[n].objs, FiredSince(states, k, a, n);
    hide Drive, FiredSince;
    forall j | j in slots ensures 0 <= objs[j].value.ttl <= 20 { assert SlotOk(states[n], MAXOBJS, MAXOBJS, j); }
    if |slots| > 2 { var x, y, z := PickThree(slots); }
  }
}
