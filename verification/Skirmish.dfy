/** A game of two tanks: runs in which a client's sprite table goes wrong. */
module Skirmish {
  import opened CtfServ
  import opened GameMap
  import opened Game
  import opened Runs
  import opened Tracking
  import opened Sprites
  import opened SpriteRuns
  import opened Viewports
  import Framing

  // ---- frames in which every object goes its own way

  /** The object does not shoot, and what becomes of it has neither died nor vanished and carries no flag. */
  predicate Roams(c: Config, o: Obj, m: Obj) {
    && o.ttl != 0 && !Fires(Steer(Timers(o))) && m == Crash(c, Updated(o))
    && !m.flags.destroyed && !m.flags.vanished && !m.flags.hasFlag
  }

  predicate BothRoam(c: Config, o: Option<Obj>, m: Option<Obj>) {
    (o.Some? <==> m.Some?) && (o.Some? ==> Roams(c, o.value, m.value))
  }

  /** Each object goes its own way, and no two meet. */
  predicate Peaceful(c: Config, objs: ObjList, objs': ObjList) {
    && (forall i :: 0 <= i < MAXOBJS ==> BothRoam(c, objs[i], objs'[i]))
    && (forall i, j :: 0 <= i < j < MAXOBJS && objs'[i].Some? && objs'[j].Some? ==>
          !CollidesWith(objs'[i].value, objs'[j].value))
  }

  function Turned(o: Option<Obj>): Option<Obj> { if o == None then None else Some(Updated(o.value)) }

  function AllTurned(objs: ObjList): ObjList { seq(MAXOBJS, i requires 0 <= i < MAXOBJS => Turned(objs[i])) }

  lemma RoamTurn(c: Config, s: State, i: nat, m: Option<Obj>)
    requires i < MAXOBJS && BothRoam(c, s.objs[i], m)
    ensures UpdateSlot(s, i) == s.(objs := s.objs[i := Turned(s.objs[i])])
  {
    if s.objs[i].Some? {
      hide Timers, Steer, Advance, Crash;
      var o := s.objs[i].value;
      assert UpdateSlot(s, i) == Put(s, i, Updated(o));
    } else {
      assert s.objs[i := None] == s.objs;
    }
  }

  lemma {:induction false} RoamTurns(c: Config, s: State, w: ObjList, objs': ObjList, i: nat)
    requires i <= MAXOBJS && (forall j :: 0 <= j < i ==> w[j] == Turned(s.objs[j]))
    requires forall j :: i <= j < MAXOBJS ==> w[j] == s.objs[j] && BothRoam(c, s.objs[j], objs'[j])
    ensures UpdateFrom(s.(objs := w), i) == s.(objs := AllTurned(s.objs))
    decreases MAXOBJS - i
  {
    hide BothRoam, Turned;
    if i < MAXOBJS {
      RoamTurn(c, s.(objs := w), i, objs'[i]);
      RoamTurns(c, s, w[i := Turned(s.objs[i])], objs', i + 1);
    } else {
      assert w == AllTurned(s.objs);
    }
  }

  lemma RoamMap(c: Config, s: State, i: nat, o: Option<Obj>, m: Option<Obj>)
    requires ValidConfig(c) && i < MAXOBJS && BothRoam(c, o, m) && s.objs[i] == Turned(o)
    ensures MapSlot(c, s, i) == s.(objs := s.objs[i := m])
  {
    hide Updated, Crash;
    if o == None { assert s.objs[i := None] == s.objs; }
  }

  lemma {:induction false} RoamMaps(c: Config, s: State, objs: ObjList, w: ObjList, objs': ObjList, i: nat)
    requires ValidConfig(c) && i <= MAXOBJS && (forall j :: 0 <= j < i ==> w[j] == objs'[j])
    requires forall j :: i <= j < MAXOBJS ==> w[j] == Turned(objs[j]) && BothRoam(c, objs[j], objs'[j])
    ensures MapFrom(c, s.(objs := w), i) == s.(objs := objs')
    decreases MAXOBJS - i
  {
    hide BothRoam, Turned, MapSlot;
    if i < MAXOBJS {
      RoamMap(c, s.(objs := w), i, objs[i], objs'[i]);
      RoamMaps(c, s, objs, w[i := objs'[i]], objs', i + 1);
    } else {
      assert w == objs';
    }
  }

  lemma {:induction false} NoneMeet(c: Config, s: State, i: nat, j: nat)
    requires ValidConfig(c) && i < j <= MAXOBJS
    requires forall i, j :: 0 <= i < j < MAXOBJS && s.objs[i].Some? && s.objs[j].Some? ==>
               !CollidesWith(s.objs[i].value, s.objs[j].value)
    ensures PairsFrom(c, s, i, j) == s
    decreases MAXOBJS - i, MAXOBJS - j
  {
    hide CollidesWith;
    if j < MAXOBJS { NoneMeet(c, s, i, j + 1); }
    else if i + 2 < MAXOBJS { NoneMeet(c, s, i + 1, i + 2); }
  }

  lemma {:induction false} NoneDestroyed(c: Config, s: State, i: nat)
    requires i <= MAXOBJS && forall j :: 0 <= j < MAXOBJS && s.objs[j].Some? ==> !s.objs[j].value.flags.destroyed
    ensures DestructFrom(c, s, i) == s
    decreases MAXOBJS - i
  {
    if i < MAXOBJS { NoneDestroyed(c, s, i + 1); }
  }

  lemma Unharmed(c: Config, objs: ObjList, objs': ObjList, i: nat)
    requires Peaceful(c, objs, objs') && i < MAXOBJS && objs'[i].Some?
    ensures !objs'[i].value.flags.destroyed && !objs'[i].value.flags.vanished
  {
    hide Updated, Crash, Fires, Steer, Timers;
    assert BothRoam(c, objs[i], objs'[i]);
  }

  lemma PeacefulUpdates(c: Config, s: State, objs': ObjList)
    requires ValidConfig(c) && s.powerups == [] && Peaceful(c, s.objs, objs')
    ensures DoObjectUpdates(c, s) == s.(objs := objs')
  {
    hide UpdateFrom, MapFrom, PairsFrom, DestructFrom, BothRoam, CollidesWith, Turned;
    RoamTurns(c, s, s.objs, objs', 0);
    var t := s.(objs := AllTurned(s.objs));
    assert SpawnTicks(t, 0) == t;
    RoamMaps(c, s, s.objs, t.objs, objs', 0);
    var m := s.(objs := objs');
    NoneMeet(c, m, 0, 1);
    forall i | 0 <= i < MAXOBJS && objs'[i].Some? ensures !objs'[i].value.flags.destroyed {
      Unharmed(c, s.objs, objs', i);
    }
    NoneDestroyed(c, m, 0);
  }

  lemma {:induction false} NobodyLost(s: State, lost: set<nat>, n: nat)
    requires n <= MAXCLIENTS && forall k :: n <= k < MAXCLIENTS && k in lost ==> s.players[k] == None
    ensures SendFrom(s, lost, n) == s
    decreases MAXCLIENTS - n
  {
    if n < MAXCLIENTS { NobodyLost(s, lost, n + 1); }
  }

  /** The clean-up takes away the one object that has vanished, if it has. */
  lemma {:induction false} CleanOne(c: Config, s: State, i: nat, j: nat)
    requires i <= MAXOBJS && j < MAXOBJS
    requires forall x :: 0 <= x < MAXOBJS && x != j && s.objs[x].Some? ==>
        !s.objs[x].value.flags.destroyed && !s.objs[x].value.flags.vanished
    requires s.objs[j].Some? ==> s.objs[j].value.flags.vanished && !s.objs[j].value.flags.destroyed
    ensures CleanFrom(c, s, i) == if i <= j then s.(objs := s.objs[j := None]) else s
    decreases MAXOBJS - i
  {
    if i < MAXOBJS {
      var t := CleanSlot(c, s, i);
      if i == j {
        assert t == s.(objs := s.objs[j := None]);
        assert t.objs[j := None] == t.objs;
        CleanOne(c, t, i + 1, j);
      } else {
        assert t == s;
        CleanOne(c, s, i + 1, j);
      }
    } else {
      assert i > j;
    }
  }

  lemma {:induction false} NobodyDead(s: State, n: nat)
    requires n <= MAXCLIENTS && forall k :: 0 <= k < MAXCLIENTS && s.players[k].Some? ==> !s.players[k].value.flags.dead
    ensures BuryFrom(s, n) == s
    decreases MAXCLIENTS - n
  {
    if n < MAXCLIENTS { NobodyDead(s, n + 1); }
  }

  // ---- two players

  function FieldSpawn(i: nat): Spawn { Spawn(96 + 48 * i, 184 + 4 * i, 0) }

  function NoRand(i: nat): nat { 0 }

  /** A wall north of the first spawn point, and nothing else on the map. */
  function Wall(): Rows { seq(22, _ => []) + [[MapTile('A', 12)]] }

  function Field(): Config { Config(Wall(), [Place(1000, 0), Place(1100, 0)], FieldSpawn, NoRand, 3, 0, -1, 0, 1) }

  function Two(p: Option<Player>, q: Option<Player>): PlayerList { NoPlayers()[0 := p][1 := q] }

  lemma {:induction false} OrderNobody(players: PlayerList, k: nat, n: seq<nat>)
    requires k <= MAXCLIENTS && |n| == 3 && forall j :: k <= j < MAXCLIENTS ==> players[j] == None
    ensures OrderTeams(players, k, n) == players
    decreases MAXCLIENTS - k
  {
    if k < MAXCLIENTS { OrderNobody(players, k + 1, n); }
  }

  function Numbered(p: Player, n: nat): Player { p.(playernum := n) }

  lemma OrderRest(p: Option<Player>, q: Player, n: seq<nat>)
    requires q.team <= 2 && |n| == 3
    ensures OrderTeams(Two(p, Some(q)), 1, n) == Two(p, Some(Numbered(q, n[q.team])))
  {
    var ps := Two(p, Some(q))[1 := Some(Numbered(q, n[q.team]))];
    assert ps == Two(p, Some(Numbered(q, n[q.team])));
    OrderNobody(ps, 2, n[q.team := n[q.team] + 1]);
  }

  lemma OrderFirst(p: Player, q: Option<Player>)
    requires p.team <= 2
    ensures Ordered(Two(Some(p), q)) == OrderTeams(Two(Some(Numbered(p, 0)), q), 1, [0, 0, 0][p.team := 1])
  {
    assert Two(Some(p), q)[0 := Some(Numbered(p, 0))] == Two(Some(Numbered(p, 0)), q);
  }

  lemma OrderTwo(p: Player, q: Player)
    requires p.team <= 2 && q.team <= 2
    ensures Ordered(Two(Some(p), Some(q))) ==
        Two(Some(Numbered(p, 0)), Some(Numbered(q, if p.team == q.team then 1 else 0)))
  {
    hide OrderTeams, Ordered, Two;
    OrderFirst(p, Some(q));
    OrderRest(Some(Numbered(p, 0)), q, [0, 0, 0][p.team := 1]);
  }

  lemma OrderOne(p: Player)
    requires p.team <= 2
    ensures Ordered(Two(Some(p), None)) == Two(Some(Numbered(p, 0)), None)
  {
    OrderFirst(p, None);
    OrderNobody(Two(Some(Numbered(p, 0)), None), 1, [0, 0, 0][p.team := 1]);
  }

  // ---- the run

  /** The screens that the first client chooses for where its tank starts and for just north of it. */
  function Here(): Viewport { Screen(96, 184) }

  function North(): Viewport { Screen(96, 183) }

  const FORWARD := Ctrls(true, false, false, false, false)

  /** Two players join, pick sides and spawn. The first asks for sprites, drives into the wall, lets
      go, and is thrown back; then its client answers the request made when it was out of view. */
  function Script(): seq<Input> {
    [Hello(false), Hello(false), TeamRequest(0, 0), TeamRequest(1, 1), Start(0), Start(1),
     ClientReady(0), ViewportMsg(0, Here()), Tick({}),
     Control(0, FORWARD), Tick({}), Control(0, NOCTRLS), Tick({}), ViewportMsg(0, North())]
  }

  function HomeFlag(team: int): Obj {
    NewObject(Flag, team, if team == 0 then 16000 else 17600, 0, NoDestructor)
  }

  function TankAt(k: nat): Obj {
    var x, y := 1536 + 1536 * k, 2944 + 128 * k;
    Obj(k, k, Tank, x, y, x, y, Vec(0, 0), Vec(0, 0), Vec(0, 0), 0,
        1, 100, STARTAMMO, 0, -1, 0, NOFLAGS, NOCTRLS, 0, DestroyPlayer)
  }

  /** The first tank under way, at the wall, and thrown back. */
  function Starting(): Obj { TankAt(0).(ctrls := FORWARD) }

  function Crashed(): Obj {
    Starting().(prevy := 2944, y := 2940, actual := Vec(0, 4), push := Vec(8, 16), mapColFudge := 3)
  }

  function Stopping(): Obj { Crashed().(ctrls := NOCTRLS) }

  function ThrownBack(): Obj {
    Stopping().(prevy := 2940, y := 2956, actual := Vec(8, 16), push := Vec(8, 15), mapColFudge := 2)
  }

  function Objects(a: Option<Obj>, b: Option<Obj>): ObjList {
    NoObjs()[0 := Some(HomeFlag(0))][1 := Some(HomeFlag(1))][2 := a][3 := b]
  }

  function Someone(team: nat, tank: Option<nat>): Player {
    Player(tank, team, 3, PlayerFlags(false, false, false, false, false, false), Viewport(0, 0, 0, 0), 0, 0)
  }

  /** The first player once running. */
  function Driver(asked: bool, view: Viewport, wait: nat): Player {
    Player(Some(2), 0, 3, PlayerFlags(true, asked, false, false, false, false), view, wait, 0)
  }

  function Scene(a: Option<Obj>, b: Option<Obj>, p: Option<Player>, q: Option<Player>, n: int, running: bool): State {
    State(Objects(a, b), Two(p, q), [], (0, 0), n, running, false, -1, 0, {})
  }

  function Setting(n: nat): State
    requires n <= 5
  {
    var joined := Someone(2, None);
    if n == 0 then Scene(None, None, None, None, 0, false)
    else if n == 1 then Scene(None, None, Some(joined), None, 1, false)
    else if n == 2 then Scene(None, None, Some(joined), Some(Numbered(joined, 1)), 2, false)
    else if n == 3 then Scene(None, None, Some(Someone(0, None)), Some(joined), 2, false)
    else if n == 4 then Scene(None, None, Some(Someone(0, None)), Some(Someone(1, None)), 2, false)
    else Scene(Some(TankAt(0)), None, Some(Someone(0, Some(2))), Some(Someone(1, None)), 2, true)
  }

  function Playing(a: Obj, p: Player): State {
    Scene(Some(a), Some(TankAt(1)), Some(p), Some(Someone(1, Some(3))), 2, true)
  }

  /** The state after `n` inputs of the script. */
  function Stage(n: nat): State
    requires n <= 14
  {
    if n <= 5 then Setting(n)
    else if n == 6 then Playing(TankAt(0), Someone(0, Some(2)))
    else if n == 7 then Playing(TankAt(0), Someone(0, Some(2)).(flags := Driver(false, Here(), 0).flags))
    else if n == 8 then Playing(TankAt(0), Driver(true, Here(), 0))
    else if n == 9 then Playing(TankAt(0), Driver(false, Here(), 0))
    else if n == 10 then Playing(Starting(), Driver(false, Here(), 0))
    else if n == 11 then Playing(Crashed(), Driver(false, Here(), 5))
    else if n == 12 then Playing(Stopping(), Driver(false, Here(), 5))
    else if n == 13 then Playing(ThrownBack(), Driver(false, Here(), 4))
    else Playing(ThrownBack(), Driver(true, North(), 4))
  }

  // ---- up to the first frame

  lemma FieldValid()
    ensures ValidConfig(Field())
  {
    forall r | 0 <= r < |Wall()| ensures Increasing(Wall()[r]) {}
  }

  lemma StageInit()
    ensures ValidConfig(Field()) && Init(Field(), []) == Stage(0)
  {
    FieldValid();
    hide Wall;
    var f0, f1 := HomeFlag(0), HomeFlag(1);
    var objs: ObjList := NoObjs()[0 := Some(f0)];
    assert FirstFree(NoObjs(), 0) == 0;
    assert FirstFree(objs, 1) == 1 && FirstFree(objs, 0) == 1;
    assert objs[1 := Some(f1)] == Objects(None, None);
    assert NoPlayers() == Two(None, None);
  }

  lemma StageHello(n: nat)
    requires n < 2 && ValidConfig(Field())
    ensures Step(Field(), Stage(n), Hello(false)) == Stage(n + 1)
  {
    hide OrderTeams, Ordered, Wall;
    var p := NewPlayer(Field(), false);
    if n == 0 {
      assert Two(None, None)[0 := Some(p)] == Two(Some(p), None);
      OrderOne(p);
    } else {
      var ps := Two(Some(Numbered(p, 0)), None);
      assert FirstSlot(ps, 1) == 1 && FirstSlot(ps, 0) == 1;
      assert ps[1 := Some(p)] == Two(Some(Numbered(p, 0)), Some(p));
      OrderTwo(Numbered(p, 0), p);
    }
  }

  lemma StageTeam(k: nat)
    requires k < 2 && ValidConfig(Field())
    ensures Step(Field(), Stage(2 + k), TeamRequest(k, k)) == Stage(3 + k)
  {
    hide OrderTeams, Ordered, Wall;
    var s := Stage(2 + k);
    var p := s.players[k].value.(team := k);
    if k == 0 {
      assert s.players[0 := Some(p)] == Two(Some(p), s.players[1]);
      OrderTwo(p, s.players[1].value);
    } else {
      assert s.players[1 := Some(p)] == Two(s.players[0], Some(p));
      OrderTwo(s.players[0].value, p);
    }
  }

  lemma FreeSlot(k: nat)
    requires k < 2
    ensures FirstFree(Stage(4 + k).objs, 0) == 2 + k
  {
    var objs := Stage(4 + k).objs;
    assert FirstFree(objs, 2 + k) == 2 + k;
    assert FirstFree(objs, 2) == 2 + k;
    assert FirstFree(objs, 1) == 2 + k;
  }

  lemma TankSpawns(k: nat)
    requires k < 2
    ensures NewTank(Field(), k, Someone(k, None)) == TankAt(k)
  {
    hide Wall;
  }

  lemma StageStart(k: nat)
    requires k < 2 && ValidConfig(Field())
    ensures Step(Field(), Stage(4 + k), Start(k)) == Stage(5 + k)
  {
    FreeSlot(k);
    TankSpawns(k);
    hide FirstFree, Field, Screen, NewTank, TankAt;
    var s, t := Stage(4 + k), Stage(5 + k);
    assert s.players[k] == Some(Someone(k, None));
    assert s.objs[2 + k := Some(TankAt(k))] == t.objs;
    assert s.players[k := t.players[k]] == t.players;
  }

  lemma SetPlayer(a: Obj, p: Player, q: Player)
    ensures PutPlayer(Playing(a, p), 0, q) == Playing(a, q) && Playing(a, p).players[0] == Some(p)
  {
    assert Playing(a, p).players[0 := Some(q)] == Playing(a, q).players;
  }

  lemma SetTank(a: Obj, p: Player, b: Obj)
    ensures Put(Playing(a, p), 2, b) == Playing(b, p) && Playing(a, p).objs[2] == Some(a)
  {
    assert Playing(a, p).objs[2 := Some(b)] == Playing(b, p).objs;
  }

  lemma SetControls(a: Obj, p: Player, ctrls: Ctrls)
    requires ValidConfig(Field()) && p.tank == Some(2)
    ensures Step(Field(), Playing(a, p), Control(0, ctrls)) == Playing(a.(ctrls := ctrls), p)
  {
    SetPlayer(a, p, p);
    SetTank(a, p, a.(ctrls := ctrls));
    hide Playing, Field;
  }

  lemma SetRunning(a: Obj, p: Player)
    requires ValidConfig(Field())
    ensures Step(Field(), Playing(a, p), ClientReady(0)) == Playing(a, p.(flags := p.flags.(running := true)))
  {
    SetPlayer(a, p, p.(flags := p.flags.(running := true)));
    hide Playing, Field;
  }

  lemma SetView(a: Obj, p: Player, v: Viewport)
    requires ValidConfig(Field())
    ensures Step(Field(), Playing(a, p), ViewportMsg(0, v)) ==
        Playing(a, p.(view := v, flags := p.flags.(newView := true)))
  {
    SetPlayer(a, p, p.(view := v, flags := p.flags.(newView := true)));
    hide Playing, Field;
  }

  /** The inputs that set something for the first player, or for its tank. */
  lemma StageSet(n: nat)
    requires n in {6, 7, 9, 11, 13} && ValidConfig(Field())
    ensures Step(Field(), Stage(n), Script()[n]) == Stage(n + 1)
  {
    hide Step, Wall, Screen, Playing;
    if n in {9, 11} {
      SetControls(TankAt(0), Driver(false, Here(), 0), FORWARD);
      SetControls(Crashed(), Driver(false, Here(), 5), NOCTRLS);
    } else if n == 6 {
      SetRunning(TankAt(0), Someone(0, Some(2)));
    } else {
      SetView(TankAt(0), Someone(0, Some(2)).(flags := Driver(false, Here(), 0).flags), Here());
      SetView(ThrownBack(), Driver(false, Here(), 4), North());
    }
  }

  // ---- frames

  lemma OffTheWall(x: int, y: int, kind: Kind)
    requires 2944 <= y || kind == Flag
    ensures !MapCollision(Wall(), kind, x, y)
  {
    assert forall r :: 0 <= r < |Wall()| && RowMeets(r, y) && y >= 2944 ==> r > 22;
  }

  lemma AtTheWall()
    ensures MapCollision(Wall(), Tank, 1536, 2940)
  {
    assert RowMeets(22, 2940);
    assert Solid(Wall()[22][0]) && TileMeets(Wall()[22][0], 1536);
    assert HitsRow(Wall()[22], 1536);
  }

  lemma Standing(k: nat)
    requires k < 2
    ensures Roams(Field(), HomeFlag(k), HomeFlag(k)) && Roams(Field(), TankAt(k), TankAt(k))
  {
    hide Wall, MapCollision;
    OffTheWall(HomeFlag(k).x, HomeFlag(k).y, Flag);
    OffTheWall(TankAt(k).x, TankAt(k).y, Tank);
  }

  lemma DriveIn()
    ensures Roams(Field(), Starting(), Crashed())
  {
    hide Wall, MapCollision;
    AtTheWall();
    var u := Updated(Starting());
    assert u == Crashed().(commanded := Vec(0, 4), push := Vec(0, 0), mapColFudge := 0);
  }

  lemma ThrowBack()
    ensures Roams(Field(), Stopping(), ThrownBack())
  {
    hide Wall, MapCollision;
    assert Updated(Stopping()) == ThrownBack();
  }

  /** The first tank's way from one stage to the next. */
  predicate Leg(a: Obj, b: Obj) {
    (a, b) in {(TankAt(0), TankAt(0)), (Starting(), Crashed()), (Stopping(), ThrownBack())}
  }

  lemma LegRoams(a: Obj, b: Obj)
    requires Leg(a, b)
    ensures Roams(Field(), a, b)
  {
    hide Wall, Roams;
    Standing(0);
    DriveIn();
    ThrowBack();
  }

  lemma FarApart(b: Obj)
    requires b.x == 1536 && 2940 <= b.y < 3000 && b.owner == 0
    ensures !CollidesWith(HomeFlag(0), HomeFlag(1)) && !CollidesWith(b, TankAt(1))
    ensures forall f :: 0 <= f < 2 ==> !CollidesWith(HomeFlag(f), b) && !CollidesWith(HomeFlag(f), TankAt(1))
  {
  }

  lemma ObjectAt(a: Obj, i: nat)
    requires i < MAXOBJS
    ensures Objects(Some(a), Some(TankAt(1)))[i] ==
            if i < 2 then Some(HomeFlag(i)) else if i == 2 then Some(a) else if i == 3 then Some(TankAt(1)) else None
  {
  }

  lemma LegPeaceful(a: Obj, b: Obj)
    requires Leg(a, b)
    ensures Peaceful(Field(), Objects(Some(a), Some(TankAt(1))), Objects(Some(b), Some(TankAt(1))))
  {
    hide Roams, CollidesWith, HomeFlag, Objects, Field, Wall;
    LegRoams(a, b);
    Standing(0);
    Standing(1);
    assert b.x == 1536 && 2940 <= b.y < 3000 && b.owner == 0;
    FarApart(b);
    forall i | 0 <= i < MAXOBJS
      ensures Objects(Some(a), Some(TankAt(1)))[i] ==
              if i < 2 then Some(HomeFlag(i)) else if i == 2 then Some(a) else if i == 3 then Some(TankAt(1)) else None
      ensures Objects(Some(b), Some(TankAt(1)))[i] ==
              if i < 2 then Some(HomeFlag(i)) else if i == 2 then Some(b) else if i == 3 then Some(TankAt(1)) else None
    {
      ObjectAt(a, i);
      ObjectAt(b, i);
    }
  }

  lemma LegUpdates(a: Obj, b: Obj, p: Player)
    requires Leg(a, b) && ValidConfig(Field())
    ensures DoObjectUpdates(Field(), Playing(a, p)) == Playing(b, p)
  {
    hide Leg, Objects, Peaceful, DoObjectUpdates, Field;
    LegPeaceful(a, b);
    PeacefulUpdates(Field(), Playing(a, p), Objects(Some(b), Some(TankAt(1))));
  }

  lemma {:induction false} ViewsNobody(s: State, k: nat)
    requires k <= MAXCLIENTS && forall j :: k <= j < MAXCLIENTS ==> s.players[j] == None
    ensures ViewsFrom(s, k) == s
    decreases MAXCLIENTS - k
  {
    if k < MAXCLIENTS { ViewsNobody(s, k + 1); }
  }

  lemma DriverViews(b: Obj, p: Player)
    requires !Someone(1, Some(3)).flags.running
    ensures ViewsFrom(Playing(b, p), 0) == Playing(b, ViewTick(p, TankOf(Playing(b, p), p)))
  {
    hide ViewTick;
    var s := Playing(b, p);
    var t := Playing(b, ViewTick(p, TankOf(s, p)));
    assert s.players[0 := t.players[0]] == t.players && t.players[1 := t.players[1]] == t.players;
    assert ViewTick(t.players[1].value, TankOf(t, t.players[1].value)) == t.players[1].value by { NotWatching(t); }
    ViewsNobody(t, 2);
    assert ViewsFrom(t, 1) == t;
  }

  lemma NotWatching(t: State)
    ensures ViewTick(Someone(1, Some(3)), TankOf(t, Someone(1, Some(3)))) == Someone(1, Some(3))
  {
  }

  /** A frame of a game without time limit, phase by phase. */
  lemma FrameIs(c: Config, s: State, lost: set<nat>, v: State, sent: State, cleaned: State)
    requires ValidConfig(c) && c.timeLimit == -1 && ViewsFrom(DoObjectUpdates(c, s), 0) == v
        && SendFrom(v, lost, 0) == sent
    requires CleanFrom(c, sent, 0) == cleaned && BuryFrom(cleaned, 0) == cleaned && !cleaned.gameOver
        && cleaned.playerCount != 0
    ensures Step(c, s, Tick(lost)) == cleaned
  {
    hide DoObjectUpdates, ViewsFrom, SendFrom, CleanFrom, BuryFrom;
  }

  /** Nothing is left to clean up or to bury. */
  lemma PlayingEnds(b: Obj, p: Player)
    requires !b.flags.destroyed && !b.flags.vanished && !p.flags.dead
    ensures CleanFrom(Field(), Playing(b, p), 0) == Playing(b, p) && BuryFrom(Playing(b, p), 0) == Playing(b, p)
  {
    hide CleanFrom, BuryFrom, Wall;
    CleanOne(Field(), Playing(b, p), 0, 4);
    assert Playing(b, p).objs[4 := None] == Playing(b, p).objs;
    NobodyDead(Playing(b, p), 0);
  }

  lemma LegFrame(a: Obj, b: Obj, p: Player)
    requires Leg(a, b) && ValidConfig(Field()) && !p.flags.dead
    ensures Step(Field(), Playing(a, p), Tick({})) == Playing(b, ViewTick(p, TankOf(Playing(b, p), p)))
  {
    assert !b.flags.destroyed && !b.flags.vanished;
    var q := ViewTick(p, TankOf(Playing(b, p), p));
    assert !q.flags.dead;
    hide Leg, Wall, DoObjectUpdates, ViewsFrom, SendFrom, CleanFrom, BuryFrom, Step, ViewTick, Objects;
    LegUpdates(a, b, p);
    DriverViews(b, p);
    NobodyLost(Playing(b, q), {}, 0);
    PlayingEnds(b, q);
    FrameIs(Field(), Playing(a, p), {}, Playing(b, q), Playing(b, q), Playing(b, q));
  }

  lemma StageFrame(n: nat)
    requires n in {8, 10, 12} && ValidConfig(Field())
    ensures Step(Field(), Stage(n), Tick({})) == Stage(n + 1)
  {
    hide Step, Wall;
    if n == 8 {
      LegFrame(TankAt(0), TankAt(0), Driver(true, Here(), 0));
    } else if n == 10 {
      LegFrame(Starting(), Crashed(), Driver(false, Here(), 0));
    } else {
      LegFrame(Stopping(), ThrownBack(), Driver(false, Here(), 5));
    }
  }

  // ---- the script as a run

  lemma StageStep(n: nat)
    requires n < 14 && ValidConfig(Field())
    ensures Step(Field(), Stage(n), Script()[n]) == Stage(n + 1)
  {
    hide Step, Stage, Wall;
    if n < 2 { StageHello(n); }
    else if n < 4 { StageTeam(n - 2); }
    else if n < 6 { StageStart(n - 4); }
    else if n in {8, 10, 12} { StageFrame(n); }
    else { StageSet(n); }
  }

  lemma StageAllowed(n: nat)
    requires n < 14
    ensures Allowed(Stage(n), Script()[n])
  {
    hide Wall, Screen;
  }

  /** The first `n` stages of the script, and then one input more. */
  function Story(n: nat, last: Input): seq<State>
    requires n <= 14 && ValidConfig(Field())
  {
    seq(n + 1, (i: nat) requires i <= n => Stage(i)) + [Step(Field(), Stage(n), last)]
  }

  /** The script is a run from start-up, and may be left at any stage for any other input. */
  lemma SkirmishRun(n: nat, last: Input)
    requires n <= 14 && Allowed(Stage(n), last)
    ensures ValidConfig(Field())
    ensures Run(Field(), Story(n, last), Script()[..n] + [last]) && Story(n, last)[0] == Init(Field(), [])
  {
    hide Step, Stage, Init, Allowed, Wall;
    StageInit();
    var states, inputs := Story(n, last), Script()[..n] + [last];
    forall i | 0 <= i < |inputs|
      ensures Allowed(states[i], inputs[i]) && states[i + 1] == Step(Field(), states[i], inputs[i])
    {
      assert states[i] == Stage(i);
      if i < n {
        StageAllowed(i);
        StageStep(i);
      }
    }
  }

  lemma StageBoundary(n: nat)
    requires n <= 14
    ensures ValidConfig(Field()) && Boundary(Stage(n))
  {
    hide Stage, Boundary, Step, Wall;
    SkirmishRun(n, Tick({}));
    RunBoundary(Field(), [], Story(n, Tick({})), Script()[..n] + [Tick({})], n);
    assert Story(n, Tick({}))[n] == Stage(n);
  }

  // ---- the screen of the first player

  lemma {:induction false} NoMsgs(objs: ObjList, n: nat, view: Viewport)
    requires 4 <= n <= MAXOBJS && forall j :: 4 <= j < MAXOBJS ==> objs[j] == None
    ensures ObjectMsgs(objs, n, view) == ObjectMsgs(objs, 4, view)
    decreases n
  {
    if n > 4 { NoMsgs(objs, n - 1, view); }
  }

  /** A tank that lives in the first player's first screen. */
  predicate InSight(b: Obj) { b.x == 1536 && 184 <= b.y / 16 <= 367 && !Gone(b) }

  lemma OneMsg(b: Obj, k: nat, objid: nat)
    requires k < 2 && InSight(b)
    ensures ObjectMsg(Some(HomeFlag(k)), objid, Here()) == []
    ensures ObjectMsg(Some(b), objid, Here()) == [SpriteMsg(objid, 96, b.y / 16 - 184)]
    ensures ObjectMsg(Some(TankAt(1)), objid, Here()) == [SpriteMsg(objid, 192, 8)]
  {
  }

  lemma TwoTanks(b: Obj)
    requires InSight(b)
    ensures ObjectMsgs(Objects(Some(b), Some(TankAt(1))), MAXOBJS, Here()) ==
            [SpriteMsg(2, 96, b.y / 16 - 184), SpriteMsg(3, 192, 8)]
  {
    var objs := Objects(Some(b), Some(TankAt(1)));
    forall j | 0 <= j < MAXOBJS
      ensures objs[j] ==
              if j < 2 then Some(HomeFlag(j)) else if j == 2 then Some(b) else if j == 3 then Some(TankAt(1)) else None
    {
      ObjectAt(b, j);
    }
    hide ObjectMsg, TankAt, HomeFlag, Objects, Here, InSight;
    NoMsgs(objs, MAXOBJS, Here());
    OneMsg(b, 0, 0);
    OneMsg(b, 1, 1);
    OneMsg(b, 0, 2);
    OneMsg(b, 0, 3);
    assert ObjectMsgs(objs, 1, Here()) == [];
    assert ObjectMsgs(objs, 2, Here()) == [];
    assert ObjectMsgs(objs, 3, Here()) == [SpriteMsg(2, 96, b.y / 16 - 184)];
  }

  lemma Watching(b: Obj, wait: nat)
    requires InSight(b)
    ensures var p := Driver(false, Here(), wait); Updating(p, TankOf(Playing(b, p), p))
  {
  }

  /** A frame that ends with the first tank in view shows both tanks. */
  lemma LegShown(a: Obj, b: Obj, wait: nat)
    requires Leg(a, b) && InSight(b) && ValidConfig(Field())
    ensures var s := Playing(a, Driver(false, Here(), wait));
            && TakesUpdates(Field(), s, 0)
            && FrameMsgs(Field(), s, 0) == [SpriteMsg(2, 96, b.y / 16 - 184), SpriteMsg(3, 192, 8)]
  {
    hide Leg, InSight, DoObjectUpdates, ObjectMsgs, Updating, Wall, Screen, Objects;
    var p := Driver(false, Here(), wait);
    LegUpdates(a, b, p);
    Watching(b, wait);
    TwoTanks(b);
    assert Playing(b, p).players[0] == Some(p);
  }

  /** The first player's screen after a frame from stage `n`, when it was empty before and so many
      bytes of the buffer are in use before its sprites. */
  function ScreenAfter(n: nat, used: nat): Table
    requires n <= 14 && ValidConfig(Field())
  {
    AppliedAll(Empty(), Received(Field(), Stage(n), 0, used))
  }

  lemma StageShown(n: nat)
    requires n == 9 || n == 12
    ensures ValidConfig(Field()) && TakesUpdates(Field(), Stage(n), 0) && Connected(Stage(n), 0)
    ensures exists y, z :: FrameMsgs(Field(), Stage(n), 0) == [SpriteMsg(2, 96, y), SpriteMsg(3, 192, z)]
  {
    FieldValid();
    hide Wall, DoObjectUpdates, FrameMsgs, TakesUpdates;
    if n == 9 { LegShown(TankAt(0), TankAt(0), 0); } else { LegShown(Stopping(), ThrownBack(), 5); }
  }

  /** With two tanks in view the table is right exactly if the buffer has room for both sprites. */
  lemma CrowdedBuffer(used: nat)
    requires used <= 255
    ensures ValidConfig(Field())
    ensures Agrees(ScreenAfter(9, used), DoObjectUpdates(Field(), Stage(9)), 0) <==> used <= 239
  {
    hide Stage, Boundary, DoObjectUpdates, FrameMsgs, TakesUpdates, Agrees, Received, AppliedAll, Wall;
    StageBoundary(9);
    StageShown(9);
    FullScreen(Field(), Stage(9), 0, used);
  }

  /** Five status lines and three scores queued before the sprites of a frame. */
  function Talk(line: seq<Framing.Byte>, score: seq<Framing.Byte>): seq<Framing.Message> {
    var m, n := Framing.Message(Framing.MESSAGEMSG, line), Framing.Message(Framing.SCOREBOARD, score);
    [m, m, m, m, m, n, n, n]
  }

  /** They all fit, and leave no room for two sprites. */
  lemma TalkFills(line: seq<Framing.Byte>, score: seq<Framing.Byte>)
    requires |line| == 43 && |score| == 6
    ensures Framing.Accepted([], Talk(line, score)) == Talk(line, score)
    ensures 239 < Framing.Used(Talk(line, score)) <= 255
  {
    var q, i := Talk(line, score), 0;
    while i < 8
      invariant 0 <= i <= 8 && Framing.Accepted([], q) == Framing.Accepted(q[..i], q[i..])
      invariant Framing.Used(q[..i]) == 1 + if i <= 5 then 44 * i else 220 + 7 * (i - 5)
    {
      assert q[..i + 1] == q[..i] + [q[i]] && q[i..][1..] == q[i + 1..];
      Framing.FlatSnoc(q[..i], q[i]);
      i := i + 1;
    }
    assert q[..8] == q;
  }

  lemma BothShown(n: nat)
    requires n == 9 || n == 12
    ensures ValidConfig(Field()) && ScreenAfter(n, 1)[2] && ScreenAfter(n, 1)[3]
  {
    hide DoObjectUpdates, FrameMsgs, Stage, TakesUpdates, Wall;
    StageShown(n);
    var ms := FrameMsgs(Field(), Stage(n), 0);
    SpritesAdmitted(1, ms);
    assert AppliedAll(Empty(), ms) == Applied(AppliedAll(Empty(), ms[..1]), ms[1]);
  }

  // ---- a client cut off

  function Alone(tank: Option<Obj>): State {
    Scene(Some(TankAt(0)), tank, Stage(9).players[0], None, 1, true)
  }

  /** What happens to the second tank when its client is lost. */
  lemma StageLost()
    ensures RemoveClient(Stage(9), 1) == Alone(Some(Vanished(TankAt(1))))
  {
    TankVanishes();
    hide Wall, Screen, OrderTeams, Ordered, VanishFrom, Objects;
    var s := Stage(9);
    OrderOne(s.players[0].value);
    assert s.players[1 := None] == Two(s.players[0], None);
  }

  lemma TankVanishes()
    ensures VanishFrom(Stage(9), 1, 0) == Stage(9).(objs := Objects(Some(TankAt(0)), Some(Vanished(TankAt(1)))))
  {
    hide Wall, Screen, Two;
    var s := Stage(9);
    var t := Put(s, 3, Vanished(TankAt(1)));
    assert t.objs == Objects(Some(TankAt(0)), Some(Vanished(TankAt(1))));
    VanishNobody(t, 4);
    assert VanishFrom(s, 1, 3) == t;
    assert VanishFrom(s, 1, 2) == t;
    assert VanishFrom(s, 1, 1) == t;
  }

  lemma {:induction false} VanishNobody(s: State, i: nat)
    requires i <= MAXOBJS && forall j :: i <= j < MAXOBJS ==> s.objs[j] == None
    ensures VanishFrom(s, 1, i) == s
    decreases MAXOBJS - i
  {
    if i < MAXOBJS { VanishNobody(s, i + 1); }
  }

  lemma FrameLost()
    requires ValidConfig(Field())
    ensures Step(Field(), Stage(9), Tick({1})) == Alone(None)
  {
    hide ViewsFrom, SendFrom, CleanFrom, BuryFrom, Step, DoObjectUpdates, Wall, Objects;
    var p := Driver(false, Here(), 0);
    LegUpdates(TankAt(0), TankAt(0), p);
    DriverViews(TankAt(0), p);
    assert ViewTick(p, TankOf(Playing(TankAt(0), p), p)) == p by { StillWatching(); }
    SendLost();
    CleanLost();
    FrameIs(Field(), Stage(9), {1}, Stage(9), Alone(Some(Vanished(TankAt(1)))), Alone(None));
  }

  lemma StillWatching()
    ensures var p := Driver(false, Here(), 0); ViewTick(p, TankOf(Playing(TankAt(0), p), p)) == p
  {
  }

  lemma SendLost()
    ensures SendFrom(Stage(9), {1}, 0) == Alone(Some(Vanished(TankAt(1))))
  {
    hide RemoveClient, Wall, Screen;
    StageLost();
    NobodyLost(Alone(Some(Vanished(TankAt(1)))), {1}, 2);
    assert SendFrom(Stage(9), {1}, 1) == Alone(Some(Vanished(TankAt(1))));
  }

  lemma CleanLost()
    ensures CleanFrom(Field(), Alone(Some(Vanished(TankAt(1)))), 0) == Alone(None)
    ensures BuryFrom(Alone(None), 0) == Alone(None)
  {
    hide CleanFrom, BuryFrom, Wall, Screen;
    var s := Alone(Some(Vanished(TankAt(1))));
    CleanOne(Field(), s, 0, 3);
    assert s.objs[3 := None] == Alone(None).objs;
    NobodyDead(Alone(None), 0);
  }

  lemma AloneUnbacked()
    ensures Connected(Alone(None), 0) && Alone(None).objs[3] == None && forall t: Table :: t[3] ==>
        !Backed(t, Alone(None), 0)
  {
    hide Wall, Screen;
  }

  /** The second client is cut off in the frame in which the first has been shown its tank: the
      table was right, the tank is gone at the end of the frame, and the sprite stays. */
  lemma SpriteLeftBehind()
    ensures ValidConfig(Field())
    ensures var s, t := Step(Field(), Stage(9), Tick({1})), ScreenAfter(9, 1);
            && Agrees(t, DoObjectUpdates(Field(), Stage(9)), 0)
            && Connected(s, 0) && s.objs[3] == None && t[3] && !Backed(t, s, 0)
  {
    hide Stage, DoObjectUpdates, Step, Alone, ScreenAfter, Agrees, InView, Backed, Field, Wall;
    BothShown(9);
    FrameLost();
    CrowdedBuffer(1);
    AloneUnbacked();
  }

  // ---- a viewport too late

  lemma OutOfSight()
    ensures var p := Driver(false, Here(), 0);
            && TankOf(Playing(Crashed(), p), p) == Some(Crashed())
            && !Updating(p, Some(Crashed())) && Asking(p, Some(Crashed()))
  {
  }

  /** At the wall the client is asked for a viewport, and its screen is empty after that. */
  lemma AskedAtWall(t: Table)
    ensures ValidConfig(Field()) && FrameMsgs(Field(), Stage(10), 0) == [ViewMsg(96, 183)]
    ensures NextTable(Field(), Stage(10), Tick({}), 0, t, 1) == Empty()
  {
    FieldValid();
    hide Wall, DoObjectUpdates, Updating, Asking, Screen, Objects;
    var p := Driver(false, Here(), 0);
    LegUpdates(Starting(), Crashed(), p);
    OutOfSight();
    assert Playing(Crashed(), p).players[0] == Some(p);
    OneView(t, ViewMsg(96, 183), 1);
  }

  lemma TooLate()
    ensures Connected(Stage(14), 0) && forall t: Table :: t[3] ==> !Backed(t, Stage(14), 0)
  {
    hide Wall;
    forall t: Table | t[3] ensures !Backed(t, Stage(14), 0) {
      assert Stage(14).objs[3] == Some(TankAt(1));
    }
  }

  /** The first tank leaves its screen, and the client is asked for a viewport; it is thrown back,
      and the client is shown both tanks on the old screen; then the client's answer arrives. The
      table was right, and now the sprite of the second tank stands for nothing in view. */
  lemma ViewportTooLate(t: Table)
    ensures ValidConfig(Field())
    ensures var t1 := NextTable(Field(), Stage(10), Tick({}), 0, t, 1);
            var t2 := NextTable(Field(), Stage(12), Tick({}), 0, t1, 1);
            && FrameMsgs(Field(), Stage(10), 0) == [ViewMsg(96, 183)] && t1 == Empty()
            && Agrees(t2, DoObjectUpdates(Field(), Stage(12)), 0) && t2[3]
            && Step(Field(), Stage(13), ViewportMsg(0, Screen(96, 183))) == Stage(14) && !Backed(t2, Stage(14), 0)
  {
    hide Stage, DoObjectUpdates, Step, Boundary, FrameMsgs, TakesUpdates, Agrees, Received, AppliedAll, Backed, Wall;
    AskedAtWall(t);
    StageBoundary(12);
    StageShown(12);
    FullScreen(Field(), Stage(12), 0, 1);
    BothShown(12);
    StageStep(13);
    TooLate();
  }
}
