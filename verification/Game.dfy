/** The game state and what each server operation does to it, as functions
    (object.c, powerups.c, control.c, endgame.c, matchmake.c).

    `GameServer` carries these steps out in place on arrays of objects, and
    `GameInvariant` proves what they keep. */
module Game {
  import opened CtfServ
  import opened Vectors
  import opened GameMap

  datatype Spawn = Spawn(mapx: nat, mapy: nat, dir: Dir)

  datatype Place = Place(mapx: nat, mapy: nat)

  /** Command line options, the loaded map, and `rand()` as an arbitrary stream. */
  datatype Config = Config(
    rows: Rows, home: seq<Place>, spawns: nat -> Spawn, rand: nat -> nat,
    maxLives: int, winningScore: int, timeLimit: int, maxWallDmg: int, minPlayers: int)

  /** `dropped` holds the kinds of object that `addObject` has found no slot for since the last reset; `draws` counts
      calls of `rand()`. */
  datatype State = State(
    objs: ObjList, players: PlayerList, powerups: seq<PowerSpawn>,
    teamscore: (nat, nat), playerCount: int, running: bool, gameOver: bool, timeRemaining: int,
    draws: nat, dropped: set<Kind>)

  predicate ValidConfig(c: Config) {
    && |c.home| == 2
    && Sorted(c.rows)
  }

  // ---- the object list

  function FirstFree(objs: ObjList, i: nat): (r: nat)
    requires i <= MAXOBJS
    ensures i <= r <= MAXOBJS
    ensures r < MAXOBJS ==> objs[r] == None
    ensures forall k :: i <= k < r ==> objs[k].Some?
    decreases |objs| - i
  {
    if i == MAXOBJS || objs[i] == None then i else FirstFree(objs, i + 1)
  }

  function Put(s: State, i: nat, o: Obj): State
    requires i < MAXOBJS
  {
    s.(objs := s.objs[i := Some(o)])
  }

  function PutPlayer(s: State, k: nat, p: Player): State
    requires k < MAXCLIENTS
  {
    s.(players := s.players[k := Some(p)])
  }

  /** `addObject`: the first free slot, or nothing but a complaint when there is none. */
  function AddObject(s: State, o: Obj): State {
    var i := FirstFree(s.objs, 0);
    if i < MAXOBJS then Put(s, i, o) else s.(dropped := s.dropped + {o.kind})
  }

  function NewObject(k: Kind, team: int, x: int, y: int, destruct: Destructor): Obj {
    Obj(-1, team, k, 0, 0, x, y, Vec(0, PropsOf(k).initVel), Vec(0, 0), Vec(0, 0), 0,
        PropsOf(k).armour, 0, 0, 0, PropsOf(k).ttl, 0, NOFLAGS, NOCTRLS, 0, destruct)
  }

  function PlaceFlag(s: State, team: int, x: int, y: int): State {
    AddObject(s, NewObject(Flag, team, x, y, NoDestructor))
  }

  function OtherTeam(team: int): int { (team + 1) % 2 }

  function HomeX(c: Config, team: int): int
    requires ValidConfig(c)
  {
    if 0 <= team < 2 then c.home[team].mapx * 16 else 0
  }

  function HomeY(c: Config, team: int): int
    requires ValidConfig(c)
  {
    if 0 <= team < 2 then c.home[team].mapy * 16 else 0
  }

  // ---- players

  function NewTank(c: Config, k: int, p: Player): Obj {
    var sp := c.spawns(p.team * 2 + p.playernum);
    Obj(k, p.team, Tank, sp.mapx * 16, sp.mapy * 16, sp.mapx * 16, sp.mapy * 16,
        Vec(sp.dir, 0), Vec(sp.dir, 0), Vec(0, 0), 0,
        PropsOf(Tank).armour, PropsOf(Tank).hitpoints, STARTAMMO, 0, -1, 0, NOFLAGS, NOCTRLS, 0, DestroyPlayer)
  }

  /** `spawnPlayer`. When the list is full the player is left without a tank in the list. */
  function SpawnPlayer(c: Config, s: State, k: nat): State
    requires k < MAXCLIENTS && s.players[k].Some?
  {
    var p := s.players[k].value;
    var i := FirstFree(s.objs, 0);
    PutPlayer(AddObject(s, NewTank(c, k, p)), k,
              p.(tank := if i < MAXOBJS then Some(i) else None, vpcframes := 0))
  }

  predicate IsPlayerObject(players: PlayerList, o: Obj, i: nat) {
    && 0 <= o.owner < MAXCLIENTS
    && players[o.owner].Some?
    && players[o.owner].value.tank == Some(i)
  }

  /** `orderTeams` from slot `k` on; `n` holds the next number of each team. */
  function OrderTeams(players: PlayerList, k: nat, n: seq<nat>): PlayerList
    requires k <= MAXCLIENTS && |n| == 3
    decreases |players| - k
  {
    if k == MAXCLIENTS then players
    else if players[k].None? || players[k].value.team > 2 then OrderTeams(players, k + 1, n)
    else
      var p := players[k].value;
      OrderTeams(players[k := Some(p.(playernum := n[p.team]))], k + 1, n[p.team := n[p.team] + 1])
  }

  function Ordered(players: PlayerList): PlayerList { OrderTeams(players, 0, [0, 0, 0]) }

  function NewPlayer(c: Config, spectator: bool): Player {
    var view := if spectator then Viewport(0, 0, 0xFFFF, 0xFFFF) else Viewport(0, 0, 0, 0);
    Player(None, NOTEAM, c.maxLives, PlayerFlags(false, false, false, false, spectator, spectator), view, 0, 0)
  }

  function MakeNewPlayer(c: Config, s: State, k: nat, spectator: bool): State
    requires k < MAXCLIENTS
  {
    var joined := s.players[k := Some(NewPlayer(c, spectator))];
    if spectator then s.(players := joined)
    else s.(playerCount := s.playerCount + 1, players := Ordered(joined))
  }

  /** The sweep of `removePlayer` over the objects from slot `i` on: every carried flag is
      put down, whoever carries it, and the leaving player's objects vanish. */
  function VanishFrom(s: State, k: nat, i: nat): State
    requires i <= MAXOBJS
    decreases |s.objs| - i
  {
    if i == MAXOBJS then s
    else VanishFrom(VanishSlot(s, k, i), k, i + 1)
  }

  function VanishSlot(s: State, k: nat, i: nat): State
    requires i < MAXOBJS
  {
    if s.objs[i] == None then s
    else
      var o := s.objs[i].value;
      var s1 := if o.flags.hasFlag then PlaceFlag(s, OtherTeam(o.team), o.x, o.y) else s;
      if o.owner == k then Put(s1, i, Vanished(o)) else s1
  }

  function Vanished(o: Obj): Obj { o.(flags := NOFLAGS.(vanished := true), owner := -1) }

  /** `removeClient`, which ends in `removePlayer`. */
  function RemoveClient(s: State, k: nat): State
    requires k < MAXCLIENTS && s.players[k].Some?
  {
    if s.players[k].value.flags.spectator then s.(players := s.players[k := None])
    else
      var s1 := VanishFrom(s, k, 0);
      s1.(playerCount := s1.playerCount - 1, players := Ordered(s1.players[k := None]))
  }

  function Quit(p: Player, dead: bool): Player {
    p.(flags := PlayerFlags(false, false, dead, false, false, false))
  }

  /** `endMatch` from slot `k` on. */
  function EndMatchFrom(players: PlayerList, k: nat): PlayerList
    requires k <= MAXCLIENTS
    decreases |players| - k
  {
    if k == MAXCLIENTS then players
    else if players[k].Some? && !players[k].value.flags.spectator then
      EndMatchFrom(players[k := Some(Quit(players[k].value, false))], k + 1)
    else EndMatchFrom(players, k + 1)
  }

  function EndMatch(s: State): State {
    s.(players := EndMatchFrom(s.players, 0), gameOver := true)
  }

  // ---- one object's part of a frame

  function Timers(o: Obj): Obj {
    o.(mapColFudge := if o.mapColFudge != 0 then o.mapColFudge - 1 else 0,
       flying := if o.flying != 0 then o.flying - 1 else 0)
  }

  function Throttle(o: Obj): Obj {
    var pr := PropsOf(o.kind);
    if o.ctrls.accelerate then
      var v := o.commanded.vel + pr.accel;
      o.(commanded := o.commanded.(vel := if v > pr.maxVel then pr.maxVel else v))
    else if o.ctrls.brake then
      var v := o.commanded.vel - pr.brake;
      o.(commanded := o.commanded.(vel := if v < 0 then 0 else v))
    else o
  }

  function Turn(o: Obj): Obj {
    if o.ctrls.rotLeft || o.ctrls.rotRight then
      var n := o.dirChg - 1;
      if n < 1 then
        o.(commanded := o.commanded.(dir := (o.commanded.dir + if o.ctrls.rotLeft then 15 else 1) % 16),
           dirChg := PropsOf(o.kind).turnSpeed)
      else o.(dirChg := n)
    else o
  }

  /** `processObjectControl` before the trigger. */
  function Steer(o: Obj): Obj { if o.flags.exploding then o else Turn(Throttle(o)) }

  predicate Fires(o: Obj) {
    !o.flags.exploding && o.ctrls.fire && o.cooldown == 0 && o.ammo != 0
  }

  function MissileOf(o: Obj): Obj {
    var pr := PropsOf(Missile);
    var v := Vec(o.commanded.dir, o.actual.vel + pr.initVel);
    Obj(o.owner, 0, Missile, o.x, o.y, o.x, o.y, v, v, Vec(0, 0), 0,
        pr.armour, pr.hitpoints, 0, 0, pr.ttl, 5, NOFLAGS, NOCTRLS, 0, NoDestructor)
  }

  function Shot(o: Obj): Obj { o.(ammo := o.ammo - 1, cooldown := PropsOf(o.kind).gunCooldown) }

  function FireWeapon(s: State, i: nat): State
    requires i < MAXOBJS && s.objs[i].Some?
  {
    var o := s.objs[i].value;
    if Fires(o) then
      Put(AddObject(s, MissileOf(o)), i, Shot(o))
    else s
  }

  function ProcessPush(o: Obj): Obj {
    o.(actual := AddVector(o.commanded, o.push),
       push := if o.push.vel != 0 then o.push.(vel := o.push.vel - PropsOf(o.kind).pushDecay) else o.push)
  }

  function MoveObject(o: Obj): Obj {
    var x, y := o.x + Dx(o.actual), o.y + Dy(o.actual);
    o.(prevx := o.x, prevy := o.y,
       x := if x < 0 then 0 else x, y := if y < 0 then 0 else y,
       actual := if x < 0 || y < 0 then o.actual.(vel := 0) else o.actual)
  }

  function Advance(o: Obj): Obj {
    var m := ProcessPush(o);
    var o := if m.actual.vel != 0 then MoveObject(m) else m;
    o.(cooldown := if o.cooldown > 0 then o.cooldown - 1 else o.cooldown,
       ttl := if o.ttl > 0 then o.ttl - 1 else o.ttl)
  }

  function Destroyed(o: Obj): Obj { o.(flags := o.flags.(destroyed := true)) }

  function UpdateSlot(s: State, i: nat): State
    requires i < MAXOBJS
  {
    if s.objs[i] == None then s
    else
      var o := s.objs[i].value;
      if o.ttl == 0 then Put(s, i, Destroyed(o))
      else
        var s1 := FireWeapon(Put(s, i, Steer(Timers(o))), i);
        Put(s1, i, Advance(s1.objs[i].value))
  }

  function UpdateFrom(s: State, i: nat): State
    requires i <= MAXOBJS
    decreases |s.objs| - i
  {
    if i == MAXOBJS then s else UpdateFrom(UpdateSlot(s, i), i + 1)
  }

  // ---- powerups

  function Cooldown(r: nat): nat { if r % MAXPWRCOOLDOWN < MINPWRCOOLDOWN then MINPWRCOOLDOWN else r % MAXPWRCOOLDOWN }

  function RestartSpawn(c: Config, s: State, n: nat): State {
    if n < |s.powerups| then
      s.(powerups := s.powerups[n := s.powerups[n].(cooldown := Cooldown(c.rand(s.draws)))], draws := s.draws + 1)
    else s
  }

  function SpawnTick(s: State, n: nat): State
    requires n < |s.powerups|
  {
    var sp := s.powerups[n];
    var s1 := if sp.cooldown == 1 then AddObject(s, NewObject(sp.kind, -1, sp.x, sp.y, ResetSpawn(n))) else s;
    if sp.cooldown != 0 then s1.(powerups := s1.powerups[n := sp.(cooldown := sp.cooldown - 1)]) else s1
  }

  function SpawnTicks(s: State, n: nat): State
    requires n <= |s.powerups|
    decreases |s.powerups| - n
  {
    if n == |s.powerups| then s else SpawnTicks(SpawnTick(s, n), n + 1)
  }

  // ---- collisions

  function HitWall(c: Config, o: Obj): Obj {
    if o.armour == 0 then Destroyed(o).(actual := o.actual.(vel := 0))
    else
      var dmg := o.actual.vel + 10;
      var hp := o.hp - if dmg > c.maxWallDmg then c.maxWallDmg else dmg;
      if hp <= 0 then Destroyed(o).(hp := hp, actual := o.actual.(vel := 0))
      else
        o.(hp := hp, commanded := o.commanded.(vel := 0), push := Vec(Reverse(o.actual.dir), 16), mapColFudge := 3)
  }

  function Crash(c: Config, o: Obj): Obj {
    if !o.flags.noCollide && o.mapColFudge == 0 && MapCollision(c.rows, o.kind, o.x, o.y) then HitWall(c, o) else o
  }

  predicate Near(x1: int, y1: int, x2: int, y2: int) { Abs(x1 - x2) < 256 && Abs(y1 - y2) < 256 }

  predicate AtHome(c: Config, o: Obj)
    requires ValidConfig(c)
  {
    Near(o.x, o.y, HomeX(c, o.team), HomeY(c, o.team))
  }

  function Dropped(o: Obj): Obj { o.(flags := o.flags.(hasFlag := false)) }

  /** The carried flag goes back to (x, y) and is no longer carried. */
  function HandIn(s: State, i: nat, x: int, y: int): State
    requires i < MAXOBJS && s.objs[i].Some?
  {
    Put(PlaceFlag(s, OtherTeam(s.objs[i].value.team), x, y), i, Dropped(s.objs[i].value))
  }

  function ScoreOf(s: State, team: int): nat { if team == 0 then s.teamscore.0 else s.teamscore.1 }

  function AddGoal(s: State, team: int): State {
    s.(teamscore := if team == 0 then (s.teamscore.0 + 1, s.teamscore.1) else (s.teamscore.0, s.teamscore.1 + 1))
  }

  function EndIfWon(c: Config, s: State, team: int): State {
    if c.winningScore > 0 && ScoreOf(s, team) == c.winningScore then EndMatch(s) else s
  }

  /** `flagCaptured`. */
  function FlagCaptured(c: Config, s: State, i: nat): State
    requires ValidConfig(c) && i < MAXOBJS && s.objs[i].Some?
  {
    var team := s.objs[i].value.team;
    EndIfWon(c, AddGoal(HandIn(s, i, HomeX(c, OtherTeam(team)), HomeY(c, OtherTeam(team))), team), team)
  }

  function MapSlot(c: Config, s: State, i: nat): State
    requires ValidConfig(c) && i < MAXOBJS
  {
    if s.objs[i] == None then s
    else
      var o := Crash(c, s.objs[i].value);
      var s1 := Put(s, i, o);
      if o.flags.hasFlag && AtHome(c, o) then FlagCaptured(c, s1, i) else s1
  }

  function MapFrom(c: Config, s: State, i: nat): State
    requires ValidConfig(c) && i <= MAXOBJS
    decreases |s.objs| - i
  {
    if i == MAXOBJS then s else MapFrom(c, MapSlot(c, s, i), i + 1)
  }

  predicate CollidesWith(a: Obj, b: Obj) {
    && (a.owner == b.owner ==> a.flying == 0 && b.flying == 0)
    && Near(a.x, a.y, b.x, b.y)
  }

  /** `flagCollision` with the flag in slot `f` and the other object in slot `t`. */
  function FlagTouched(c: Config, s: State, f: nat, t: nat): State
    requires ValidConfig(c) && f < MAXOBJS && t < MAXOBJS && f != t && s.objs[f].Some? && s.objs[t].Some?
  {
    var flag, thing := s.objs[f].value, s.objs[t].value;
    if !thing.flags.noCollide && !thing.flags.exploding && IsPlayerObject(s.players, thing, t) then
      if thing.team == flag.team then
        var hx, hy := HomeX(c, flag.team), HomeY(c, flag.team);
        if hx != flag.x || hy != flag.y then Put(s, f, flag.(prevx := flag.x, prevy := flag.y, x := hx, y := hy)) else s
      else
        Put(Put(s, f, Destroyed(flag)), t, thing.(flags := thing.flags.(hasFlag := true)))
    else s
  }

  function FlagCollision(c: Config, s: State, i: nat, j: nat): State
    requires ValidConfig(c) && i < MAXOBJS && j < MAXOBJS && i != j && s.objs[i].Some? && s.objs[j].Some?
  {
    if s.objs[i].value.kind == Flag && s.objs[j].value.kind == Flag then s
    else if s.objs[i].value.kind == Flag then FlagTouched(c, s, i, j)
    else FlagTouched(c, s, j, i)
  }

  /** `powerupTouched`, the collision function of a powerup `u`, applied to `w`. */
  function Refill(u: Obj, w: Obj): Obj {
    if !u.destruct.ResetSpawn? || w.kind != Tank then w
    else if u.kind == Fuel then w.(hp := if w.hp + FUELINC > MAXHP then MAXHP else w.hp + FUELINC)
    else if u.kind == Ammo then w.(ammo := if w.ammo + AMMOINC > MAXAMMO then MAXAMMO else w.ammo + AMMOINC)
    else w
  }

  /** `shoveObject`'s new push for `with` when `obj` runs into it; `obj` gets the reverse. */
  function ShovePush(obj: Obj, with: Obj): Vec {
    var v := AddVector(obj.actual, Vec(Reverse(with.actual.dir), with.actual.vel));
    v.(vel := if v.vel + REBOUND > MAX_PUSH then MAX_PUSH else v.vel + REBOUND)
  }

  function Shoved(o: Obj, push: Vec): Obj { o.(push := push) }

  predicate Massive(o: Obj) { PropsOf(o.kind).mass > 0 }

  /** `dealDamage` to `o` from an object of kind `k`. */
  function Damaged(o: Obj, k: Kind): Obj {
    var d := o.(hp := o.hp - PropsOf(k).damage);
    if d.armour == 0 || d.hp < 1 then d.(flags := d.flags.(destroyed := true, exploding := true)) else d
  }

  function Bump(a: Obj, b: Obj): (Obj, Obj) {
    var b1 := Refill(a, b);
    var a1 := Refill(b1, a);
    if Massive(a1) && Massive(b1) then
      var v := ShovePush(a1, b1);
      (Damaged(Shoved(a1, v.(dir := Reverse(v.dir))), b1.kind), Damaged(Shoved(b1, v), a1.kind))
    else (Damaged(a1, b1.kind), Damaged(b1, a1.kind))
  }

  function CollidePair(c: Config, s: State, i: nat, j: nat): State
    requires ValidConfig(c) && i < j < MAXOBJS
  {
    if s.objs[i] == None || s.objs[j] == None then s
    else
      var a, b := s.objs[i].value, s.objs[j].value;
      if !CollidesWith(a, b) then s
      else if a.kind == Flag || b.kind == Flag then FlagCollision(c, s, i, j)
      else
        var r := Bump(a, b);
        Put(Put(s, i, r.0), j, r.1)
  }

  function PairsFrom(c: Config, s: State, i: nat, j: nat): State
    requires ValidConfig(c) && i < j <= MAXOBJS
    decreases |s.objs| - i, |s.objs| - j
  {
    if j < MAXOBJS then PairsFrom(c, CollidePair(c, s, i, j), i, j + 1)
    else if i + 2 < MAXOBJS then PairsFrom(c, s, i + 1, i + 2)
    else s
  }

  function CollisionDetect(c: Config, s: State): State
    requires ValidConfig(c)
  {
    PairsFrom(c, MapFrom(c, s, 0), 0, 1)
  }

  // ---- destructors

  function LoseLife(p: Player): Player {
    if p.lives > -1 then
      if p.lives == 1 then Quit(p.(lives := 0), true) else p.(lives := p.lives - 1)
    else p
  }

  function Wreck(o: Obj, owner: int): Obj {
    o.(owner := owner, flags := NOFLAGS.(noCollide := true, exploding := true),
       kind := Explosion, ttl := 15, destruct := NoDestructor)
  }

  /** The tank in slot `i` turns into wreckage and its player, if still here, loses a life. */
  function WreckTank(s: State, i: nat): State
    requires i < MAXOBJS && s.objs[i].Some?
  {
    var o := s.objs[i].value;
    if 0 <= o.owner < MAXCLIENTS && s.players[o.owner].Some? then
      var p := LoseLife(s.players[o.owner].value);
      PutPlayer(Put(s, i, Wreck(o, if p.lives == 0 then -1 else o.owner)), o.owner, p)
    else Put(s, i, Wreck(o, o.owner))
  }

  /** `destroyPlayerObj`. A vanished tank has no owner, so no player loses a life for it. */
  function DestroyPlayerObj(s: State, i: nat): State
    requires i < MAXOBJS && s.objs[i].Some?
  {
    var o := s.objs[i].value;
    WreckTank(if o.flags.hasFlag then PlaceFlag(s, OtherTeam(o.team), o.x, o.y) else s, i)
  }

  function DestructSlot(c: Config, s: State, i: nat): State
    requires i < MAXOBJS
  {
    if s.objs[i] == None || !s.objs[i].value.flags.destroyed then s
    else match s.objs[i].value.destruct
      case NoDestructor => s
      case DestroyPlayer => DestroyPlayerObj(s, i)
      case ResetSpawn(n) => RestartSpawn(c, s, n)
  }

  function DestructFrom(c: Config, s: State, i: nat): State
    requires i <= MAXOBJS
    decreases |s.objs| - i
  {
    if i == MAXOBJS then s else DestructFrom(c, DestructSlot(c, s, i), i + 1)
  }

  function DoObjectUpdates(c: Config, s: State): State
    requires ValidConfig(c)
  {
    DestructFrom(c, CollisionDetect(c, SpawnTicks(UpdateFrom(s, 0), 0)), 0)
  }

  // ---- the rest of a frame

  predicate InView(x: int, y: int, v: Viewport) {
    v.left <= x / 16 <= v.right && v.top <= y / 16 <= v.bottom
  }

  /** The viewport bookkeeping of `makeUpdates` for player `p`, whose tank is `t`. */
  function ViewTick(p: Player, t: Option<Obj>): Player {
    if !p.flags.running then p
    else if p.flags.newView then p.(flags := p.flags.(newView := false))
    else
      var n: nat := if p.vpcframes != 0 then p.vpcframes - 1 else 0;
      var out := t.Some? && !InView(t.value.x, t.value.y, p.view);
      p.(vpcframes := if out && n == 0 then 5 else n)
  }

  function TankOf(s: State, p: Player): Option<Obj> {
    if p.tank.Some? && p.tank.value < MAXOBJS then s.objs[p.tank.value] else None
  }

  function ViewsFrom(s: State, k: nat): State
    requires k <= MAXCLIENTS
    decreases |s.players| - k
  {
    if k == MAXCLIENTS then s
    else if s.players[k] == None then ViewsFrom(s, k + 1)
    else ViewsFrom(PutPlayer(s, k, ViewTick(s.players[k].value, TankOf(s, s.players[k].value))), k + 1)
  }

  function TimeTick(c: Config, s: State): State {
    if c.timeLimit > -1 && s.running then
      var s1 := s.(timeRemaining := s.timeRemaining - 1);
      if s1.timeRemaining == 0 then EndMatch(s1) else s1
    else s
  }

  /** `sendClientMessages`, where sending to the clients in `lost` fails. */
  function SendFrom(s: State, lost: set<nat>, k: nat): State
    requires k <= MAXCLIENTS
    decreases |s.players| - k
  {
    if k == MAXCLIENTS then s
    else if s.players[k].Some? && k in lost then SendFrom(RemoveClient(s, k), lost, k + 1)
    else SendFrom(s, lost, k + 1)
  }

  /** One slot of `cleanObjects`. */
  function CleanSlot(c: Config, s: State, i: nat): State
    requires i < MAXOBJS
  {
    if s.objs[i] == None then s
    else
      var o := s.objs[i].value;
      if o.flags.vanished || o.flags.destroyed then
        var s1 := if IsPlayerObject(s.players, o, i) && o.flags.destroyed then SpawnPlayer(c, s, o.owner) else s;
        s1.(objs := s1.objs[i := None])
      else s
  }

  function CleanFrom(c: Config, s: State, i: nat): State
    requires i <= MAXOBJS
    decreases |s.objs| - i
  {
    if i == MAXOBJS then s else CleanFrom(c, CleanSlot(c, s, i), i + 1)
  }

  function BuryFrom(s: State, k: nat): State
    requires k <= MAXCLIENTS
    decreases |s.players| - k
  {
    if k == MAXCLIENTS then s
    else if s.players[k].Some? && s.players[k].value.flags.dead then BuryFrom(RemoveClient(s, k), k + 1)
    else BuryFrom(s, k + 1)
  }

  function EvictFrom(s: State, k: nat): State
    requires k <= MAXCLIENTS
    decreases |s.players| - k
  {
    if k == MAXCLIENTS then s
    else if s.players[k].Some? && !s.players[k].value.flags.spectator then EvictFrom(RemoveClient(s, k), k + 1)
    else EvictFrom(s, k + 1)
  }

  function RestartAll(c: Config, s: State, n: nat): State
    requires n <= |s.powerups|
    decreases |s.powerups| - n
  {
    if n == |s.powerups| then s else RestartAll(c, RestartSpawn(c, s, n), n + 1)
  }

  function CreateFlags(c: Config, s: State): State
    requires ValidConfig(c)
  {
    PlaceFlag(PlaceFlag(s, 0, HomeX(c, 0), HomeY(c, 0)), 1, HomeX(c, 1), HomeY(c, 1))
  }

  /** `initObjList`, with the players kept or not. */
  function Cleared(c: Config, s: State): State {
    s.(objs := NoObjs(), teamscore := (0, 0), playerCount := 0,
       running := false, gameOver := false, timeRemaining := c.timeLimit, dropped := {})
  }

  function ResetGame(c: Config, s: State): State
    requires ValidConfig(c)
  {
    RestartAll(c, CreateFlags(c, Cleared(c, EvictFrom(s, 0))), 0)
  }

  function FinishFrame(c: Config, s: State): State
    requires ValidConfig(c)
  {
    var s1 := if s.running && s.playerCount == 0 then s.(gameOver := true) else s;
    if s1.gameOver then ResetGame(c, s1) else s1
  }

  /** `makeUpdates`: one frame. */
  function Frame(c: Config, s: State, lost: set<nat>): State
    requires ValidConfig(c)
  {
    var s1 := ViewsFrom(DoObjectUpdates(c, s), 0);
    var s2 := SendFrom(TimeTick(c, s1), lost, 0);
    FinishFrame(c, BuryFrom(CleanFrom(c, s2, 0), 0))
  }

  // ---- messages from clients

  datatype Input =
    | Hello(spectator: bool)
    | Start(k: nat)
    | Control(k: nat, ctrls: Ctrls)
    | Bye(k: nat)
    | ClientReady(k: nat)
    | ViewportMsg(k: nat, view: Viewport)
    | TeamRequest(k: nat, team: nat)
    | MatchStart(k: nat)
    | MatchStop(k: nat)
    | MatchReady(k: nat)
    | PingOut(k: nat)
    | Tick(lost: set<nat>)

  predicate Connected(s: State, k: nat) { k < MAXCLIENTS && s.players[k].Some? }

  /** Assumptions about clients: a player spawns once and on a team, and does not leave its
      team for none after that, controls come from spawned players, and spectators do not matchmake. */
  predicate Allowed(s: State, e: Input) {
    match e
    case Start(k) => Connected(s, k) ==>
        (s.players[k].value.flags.spectator || (s.players[k].value.team < 2 && s.players[k].value.tank == None))
    case Control(k, _) => Connected(s, k) ==> s.players[k].value.tank.Some?
    case TeamRequest(k, team) => Connected(s, k) ==> s.players[k].value.tank == None || team != 2
    case MatchStart(k) => Connected(s, k) ==> !s.players[k].value.flags.spectator
    case _ => true
  }

  function FirstSlot(players: PlayerList, k: nat): (r: nat)
    requires k <= MAXCLIENTS
    ensures k <= r <= MAXCLIENTS
    ensures r < MAXCLIENTS ==> players[r] == None
    ensures forall j :: k <= j < r ==> players[j].Some?
    decreases |players| - k
  {
    if k == MAXCLIENTS || players[k] == None then k else FirstSlot(players, k + 1)
  }

  function Startable(players: PlayerList, minPlayers: int, k: nat, count: nat): bool
    requires k <= MAXCLIENTS
    decreases |players| - k
  {
    if k == MAXCLIENTS then count >= minPlayers
    else if players[k] == None then Startable(players, minPlayers, k + 1, count)
    else
      var p := players[k].value;
      p.flags.ready && (p.team <= 1 || p.flags.spectator) && Startable(players, minPlayers, k + 1, count + 1)
  }

  function LeaveMatchmaking(players: PlayerList, k: nat): PlayerList
    requires k <= MAXCLIENTS
    decreases |players| - k
  {
    if k == MAXCLIENTS then players
    else if players[k].Some? && players[k].value.flags.matchmaking then
      var p := players[k].value.(flags := PlayerFlags(false, false, false, false, true, false));
      LeaveMatchmaking(players[k := Some(p)], k + 1)
    else LeaveMatchmaking(players, k + 1)
  }

  /** `getMessage` for one message, `doPing`'s removal, and the frame. */
  function Step(c: Config, s: State, e: Input): State
    requires ValidConfig(c)
  {
    match e
    case Hello(spectator) =>
      var k := FirstSlot(s.players, 0);
      if k < MAXCLIENTS then MakeNewPlayer(c, s, k, spectator) else s
    case Tick(lost) => Frame(c, s, lost)
    case _ => if Connected(s, e.k) then ClientStep(c, s, e.k, e) else s
  }

  function ClientStep(c: Config, s: State, k: nat, e: Input): State
    requires Connected(s, k)
  {
    var p := s.players[k].value;
    match e
    case Start(_) => if p.flags.spectator then s else SpawnPlayer(c, s, k).(running := true)
    case Control(_, ctrls) =>
      if TankOf(s, p).Some? then Put(s, p.tank.value, TankOf(s, p).value.(ctrls := ctrls)) else s
    case Bye(_) => RemoveClient(s, k)
    case PingOut(_) => RemoveClient(s, k)
    case ClientReady(_) => PutPlayer(s, k, p.(flags := p.flags.(running := true)))
    case ViewportMsg(_, view) => PutPlayer(s, k, p.(view := view, flags := p.flags.(newView := true)))
    case TeamRequest(_, team) =>
      if team > 2 then s else s.(players := Ordered(PutPlayer(s, k, p.(team := team)).players))
    case MatchStart(_) => PutPlayer(s, k, p.(flags := p.flags.(matchmaking := true)))
    case MatchStop(_) =>
      if Startable(s.players, c.minPlayers, 0, 0) then s.(players := LeaveMatchmaking(s.players, 0)) else s
    case MatchReady(_) =>
      if p.team < 2 then PutPlayer(s, k, p.(flags := p.flags.(ready := true))) else s
    case _ => s
  }

  /** The state after start-up: no players, both flags at home, spawners cooling down. */
  function Init(c: Config, powerups: seq<PowerSpawn>): State
    requires ValidConfig(c)
  {
    CreateFlags(c, Cleared(c, State(NoObjs(), NoPlayers(), powerups,
                                    (0, 0), 0, false, false, c.timeLimit, 0, {})))
  }

  ghost predicate Run(c: Config, states: seq<State>, inputs: seq<Input>)
    requires ValidConfig(c)
  {
    && |states| == |inputs| + 1
    && forall n :: 0 <= n < |inputs| ==> Allowed(states[n], inputs[n]) && states[n + 1] == Step(c, states[n], inputs[n])
  }
}
