/** Records and constants shared by the Spectank game server (ctfserv.h, ctfmessage.h).

    A flag byte is a record with one boolean for each bit that the modelled code tests,
    and a direction is a value of `Dir`, so that every table lookup by direction is
    checked to be in range where the direction is computed. */
module CtfServ {
  const MAXOBJS := 48
  const MAXCLIENTS := 16

  const STARTAMMO := 10
  const MAXHP := 100
  const MAXAMMO := 20
  const REBOUND := 8
  const MAX_PUSH := 40
  const MAXPWRCOOLDOWN := 720
  const MINPWRCOOLDOWN := 240
  const FUELINC := 50
  const AMMOINC := 10
  const NOTEAM := 2

  datatype Option<+T> = None | Some(value: T)

  type Dir = d: int | 0 <= d < 16

  /** Direction in sixteenths of a turn, clockwise from north, and speed in sixteenths
      of a map pixel for each frame. */
  datatype Vec = Vec(dir: Dir, vel: int)

  datatype Kind = Tank | Missile | Explosion | Flag | Fuel | Ammo

  datatype Props = Props(
    initVel: int, maxVel: int, accel: int, brake: int, turnSpeed: int, gunCooldown: int,
    mass: int, hitpoints: int, armour: int, damage: int, ttl: int, pushDecay: int)

  function PropsOf(k: Kind): Props {
    match k
    case Tank => Props(0, 40, 4, 4, 3, 18, 100, 100, 1, 0, -1, 1)
    case Missile => Props(100, 320, 0, 0, 0, 0, 10, 1, 0, 45, 20, 3)
    case Explosion => Props(0, 0, 0, 0, 0, 0, 0, 0, 0, 0, 0, 0)
    case _ => Props(0, 0, 0, 0, 0, 0, 0, -1, 0, 0, -1, 0)
  }

  /** The function pointer `destructFunc`; `ResetSpawn` carries the spawn point that the
      C object keeps in `extras`. */
  datatype Destructor = NoDestructor | DestroyPlayer | ResetSpawn(spawn: nat)

  datatype Ctrls = Ctrls(accelerate: bool, brake: bool, rotLeft: bool, rotRight: bool, fire: bool)

  const NOCTRLS := Ctrls(false, false, false, false, false)

  datatype ObjFlags = ObjFlags(destroyed: bool, vanished: bool, noCollide: bool, exploding: bool, hasFlag: bool)

  const NOFLAGS := ObjFlags(false, false, false, false, false)

  datatype Obj = Obj(
    owner: int, team: int, kind: Kind,
    prevx: int, prevy: int, x: int, y: int,
    commanded: Vec, actual: Vec, push: Vec, dirChg: int,
    armour: int, hp: int, ammo: int, cooldown: int, ttl: int, flying: int,
    flags: ObjFlags, ctrls: Ctrls, mapColFudge: int, destruct: Destructor)

  datatype Viewport = Viewport(left: int, top: int, right: int, bottom: int)

  datatype PlayerFlags = PlayerFlags(running: bool, newView: bool, dead: bool, matchmaking: bool, ready: bool,
                                     spectator: bool)

  /** `tank` is the pointer `playerobj`, given as the object's slot in the list. */
  datatype Player = Player(
    tank: Option<nat>, team: nat, lives: int, flags: PlayerFlags,
    view: Viewport, vpcframes: nat, playernum: nat)

  datatype PowerSpawn = PowerSpawn(x: nat, y: nat, cooldown: nat, kind: Kind)

  type ObjList = q: seq<Option<Obj>> | |q| == MAXOBJS witness seq(MAXOBJS, _ => None)

  type PlayerList = q: seq<Option<Player>> | |q| == MAXCLIENTS witness seq(MAXCLIENTS, _ => None)

  function NoObjs(): ObjList { seq(MAXOBJS, _ => None) }

  function NoPlayers(): PlayerList { seq(MAXCLIENTS, _ => None) }
}
