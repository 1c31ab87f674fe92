/** What an object does when it is left to itself: controls, motion and shots, in numbers
    (control.c; object.c `updateObjects`, `processPush`, `moveObject`, `fireWeapon`). */
module Driving {
  import opened CtfServ
  import opened Vectors
  import opened Game
  import opened Tracking

  /** The object after `n` updates in which it hits nothing and gets no new controls. */
  function After(o: Obj, n: nat): Obj { if n == 0 then o else Updated(After(o, n - 1)) }

  /** A tank that is not going to run out of time. */
  predicate Drivable(o: Obj) { o.kind == Tank && o.ttl == -1 && !o.flags.exploding }

  // ---- steering

  /** The message with a client's controls reaches the client's own tank, and nothing else. */
  lemma ControlExact(c: Config, s: State, k: nat, ctrls: Ctrls)
    requires ValidConfig(c) && Connected(s, k)
    ensures var t, tank := Step(c, s, Control(k, ctrls)), s.players[k].value.tank;
            if tank.Some? && tank.value < MAXOBJS && s.objs[tank.value].Some? then
              t == s.(objs := s.objs[tank.value := Some(s.objs[tank.value].value.(ctrls := ctrls))])
            else t == s
  {
  }

  /** What one update does to the controls' part of a tank. */
  lemma OneUpdate(o: Obj)
    requires Drivable(o)
    ensures var m := Updated(o);
            && Drivable(m) && m.ctrls == o.ctrls
            && m.commanded == Steer(o).commanded && m.dirChg == Steer(o).dirChg
  {
    hide Advance, Steer, Drivable;
    TimedSteer(o);
    var a := Steer(Timers(o));
    AdvanceKeeps(a);
    AdvanceKeeps(Shot(a));
  }

  lemma TimedSteer(o: Obj)
    requires Drivable(o)
    ensures o.ttl != 0
    ensures var a := Steer(Timers(o));
            && Drivable(a) && Drivable(Shot(a)) && a.ctrls == o.ctrls
            && a.commanded == Steer(o).commanded && a.dirChg == Steer(o).dirChg
  {
  }

  lemma AdvanceKeeps(a: Obj)
    ensures var m := Advance(a);
            && (Drivable(a) ==> Drivable(m)) && m.ctrls == a.ctrls && m.commanded == a.commanded && m.dirChg == a.dirChg
  {
    hide AddVector, Dx, Dy;
  }

  lemma AfterStep(o: Obj, n: nat)
    ensures After(o, n) == if n == 0 then o else Updated(After(o, n - 1))
  {
  }

  lemma {:induction false} Driven(o: Obj, n: nat)
    requires Drivable(o)
    ensures Drivable(After(o, n)) && After(o, n).ctrls == o.ctrls
  {
    hide Updated, After, Drivable;
    AfterStep(o, n);
    if n > 0 {
      Driven(o, n - 1);
      OneUpdate(After(o, n - 1));
    }
  }

  /** The frames until the next turn, and the turns in `n` frames. */
  function Wait(o: Obj): int { if o.dirChg < 1 then 1 else o.dirChg }

  function Turns(wait: int, n: nat): int
    requires 1 <= wait <= 3
  {
    (n + 3 - wait) / 3
  }

  lemma OneTurn(wait: int, n: nat)
    requires 1 <= wait <= 3
    ensures Turns(wait, 0) == 0 && 1 + (wait - 1) % 3 == wait
    ensures var left := 1 + (wait - 1 - n) % 3;
            && 1 <= left <= 3
            && (if left == 1 then Turns(wait, n + 1) == Turns(wait, n) + 1 && 1 + (wait - 1 - (n + 1)) % 3 == 3
                else Turns(wait, n + 1) == Turns(wait, n) && 1 + (wait - 1 - (n + 1)) % 3 == left - 1)
  {
  }

  /** Left is held, or right and not left. */
  predicate Turning(o: Obj, left: bool) { o.ctrls.rotLeft == left && (left || o.ctrls.rotRight) }

  /** `m` is `o` after `n` frames of turning: one sixteenth in every third frame. */
  predicate Turned(o: Obj, m: Obj, left: bool, n: nat)
    requires 0 <= o.dirChg <= 3
  {
    var turns := Turns(Wait(o), n);
    && m.commanded.dir == (if left then o.commanded.dir - turns else o.commanded.dir + turns) % 16
    && Wait(m) == 1 + (Wait(o) - 1 - n) % 3 && 0 <= m.dirChg <= 3
  }

  lemma TurnedOn(o: Obj, p: Obj, m: Obj, left: bool, n: nat)
    requires 0 <= o.dirChg <= 3 && Turned(o, p, left, n) && Drivable(p) && Turning(p, left)
    requires m.commanded.dir == Steer(p).commanded.dir && m.dirChg == Steer(p).dirChg
    ensures Turned(o, m, left, n + 1)
  {
    hide Steer, Drivable, Turns;
    SteerTurns(p);
    OneTurn(Wait(o), n);
    Onwards(o.commanded.dir, Turns(Wait(o), n));
  }

  lemma NotTurned(o: Obj, left: bool)
    requires 0 <= o.dirChg <= 3
    ensures Turned(o, o, left, 0)
  {
    hide Turns;
    OneTurn(Wait(o), 0);
  }

  /** With left held a tank turns one sixteenth to the left every third frame, whatever else is
      held; with right alone, to the right. */
  lemma {:induction false} TurnRate(o: Obj, n: nat, left: bool)
    requires Drivable(o) && 0 <= o.dirChg <= 3 && Turning(o, left)
    ensures Turned(o, After(o, n), left, n)
  {
    hide Updated, After, Drivable, Turned, Steer;
    AfterStep(o, n);
    if n > 0 {
      var p := After(o, n - 1);
      TurnRate(o, n - 1, left);
      Driven(o, n - 1);
      OneUpdate(p);
      TurnedOn(o, p, After(o, n), left, n - 1);
    } else {
      NotTurned(o, left);
    }
  }

  lemma Onwards(d: int, k: int)
    ensures ((d - k) % 16 - 1) % 16 == (d - (k + 1)) % 16 && ((d + k) % 16 + 1) % 16 == (d + (k + 1)) % 16
  {
    Wraps(d - k, -1);
    Wraps(d + k, 1);
  }

  lemma Wraps(a: int, b: int)
    requires -1 <= b <= 1
    ensures (a % 16 + b) % 16 == (a + b) % 16
  {
    var q, r := a / 16, a % 16;
    assert a + b == 16 * q + (r + b);
  }

  lemma SteerTurns(p: Obj)
    requires Drivable(p) && 0 <= p.dirChg <= 3 && (p.ctrls.rotLeft || p.ctrls.rotRight)
    ensures var m := Steer(p);
            if Wait(p) == 1 then
              m.dirChg == 3 && m.commanded.dir == (p.commanded.dir + if p.ctrls.rotLeft then -1 else 1) % 16
            else m.dirChg == Wait(p) - 1 && m.commanded.dir == p.commanded.dir
  {
  }

  /** From rest: one turn in the first frame, and then one in every third. */
  lemma TurnLeft(o: Obj, n: nat)
    requires Drivable(o) && o.dirChg == 0 && o.ctrls.rotLeft
    ensures After(o, n).commanded.dir == (o.commanded.dir - (n + 2) / 3) % 16
  {
    TurnRate(o, n, true);
  }

  lemma TurnRight(o: Obj, n: nat)
    requires Drivable(o) && o.dirChg == 0 && o.ctrls.rotRight && !o.ctrls.rotLeft
    ensures After(o, n).commanded.dir == (o.commanded.dir + (n + 2) / 3) % 16
  {
    TurnRate(o, n, false);
  }

  function Press(o: Obj, ctrls: Ctrls): Obj { o.(ctrls := ctrls) }

  /** As many frames to the right as before to the left bring a tank back to its heading, exactly
      unless their number leaves 1 when divided by 3. */
  lemma TurnBack(o: Obj, n: nat, left: Ctrls, right: Ctrls)
    requires Drivable(o) && o.dirChg == 0 && left.rotLeft && right.rotRight && !right.rotLeft
    ensures After(Press(After(Press(o, left), n), right), n).commanded.dir == o.commanded.dir <==> n % 3 != 1
  {
    hide After, Drivable, Turns;
    var p := Press(o, left);
    DrivablePress(o, left);
    TurnRate(p, n, true);
    Driven(p, n);
    var q := Press(After(p, n), right);
    DrivablePress(After(p, n), right);
    TurnRate(q, n, false);
    Started(n);
    BackAgain(o.commanded.dir, Turns(1, n), Turns(Wait(q), n));
  }

  /** Turns to the left from rest, and to the right right after them. */
  lemma Started(n: nat)
    ensures Turns(1, n) - Turns(1 + (0 - n) % 3, n) == if n % 3 == 1 then 1 else 0
  {
  }

  lemma DrivablePress(o: Obj, ctrls: Ctrls)
    requires Drivable(o)
    ensures Drivable(Press(o, ctrls)) && Press(o, ctrls).commanded == o.commanded && Press(o, ctrls).dirChg == o.dirChg
  {
  }

  lemma BackAgain(d: Dir, l: int, r: int)
    requires 0 <= l - r <= 1
    ensures ((d - l) % 16 + r) % 16 == d <==> l == r
  {
    assert ((d - l) % 16 + r) % 16 == (d - (l - r)) % 16;
  }

  // ---- the throttle

  /** One frame's worth of the throttle. */
  lemma Throttled(o: Obj)
    requires Drivable(o) && 0 <= o.commanded.vel <= 40
    ensures var v, w := o.commanded.vel, Steer(o).commanded.vel;
            if o.ctrls.accelerate then w == (if v + 4 < 40 then v + 4 else 40)
            else if o.ctrls.brake then w == (if v - 4 > 0 then v - 4 else 0)
            else w == v
  {
  }

  /** Accelerating gains four in every frame up to forty, also with the brake held. */
  lemma {:induction false} Accelerates(o: Obj, n: nat)
    requires Drivable(o) && o.ctrls.accelerate && 0 <= o.commanded.vel <= 40
    ensures After(o, n).commanded.vel == if o.commanded.vel + 4 * n < 40 then o.commanded.vel + 4 * n else 40
  {
    hide Updated, After, Steer, Drivable;
    AfterStep(o, n);
    if n > 0 {
      Accelerates(o, n - 1);
      Driven(o, n - 1);
      OneUpdate(After(o, n - 1));
      Throttled(After(o, n - 1));
    }
  }

  /** Braking alone takes four off in every frame down to nothing. */
  lemma {:induction false} Brakes(o: Obj, n: nat)
    requires Drivable(o) && o.ctrls.brake && !o.ctrls.accelerate && 0 <= o.commanded.vel <= 40
    ensures After(o, n).commanded.vel == if o.commanded.vel - 4 * n > 0 then o.commanded.vel - 4 * n else 0
  {
    hide Updated, After, Steer, Drivable;
    AfterStep(o, n);
    if n > 0 {
      Brakes(o, n - 1);
      Driven(o, n - 1);
      OneUpdate(After(o, n - 1));
      Throttled(After(o, n - 1));
    }
  }

  lemma Unpressed(o: Obj)
    requires Drivable(o)
    ensures !o.ctrls.accelerate && !o.ctrls.brake ==> Steer(o).commanded.vel == o.commanded.vel
    ensures !o.ctrls.rotLeft && !o.ctrls.rotRight ==>
              Steer(o).commanded.dir == o.commanded.dir && Steer(o).dirChg == o.dirChg
  {
  }

  /** With neither a tank keeps its speed, and with no turn held its heading. */
  lemma {:induction false} KeepsOn(o: Obj, n: nat)
    requires Drivable(o)
    ensures !o.ctrls.accelerate && !o.ctrls.brake ==> After(o, n).commanded.vel == o.commanded.vel
    ensures !o.ctrls.rotLeft && !o.ctrls.rotRight ==>
              After(o, n).commanded.dir == o.commanded.dir && After(o, n).dirChg == o.dirChg
  {
    hide Updated, After, Steer, Drivable;
    AfterStep(o, n);
    if n > 0 {
      KeepsOn(o, n - 1);
      Driven(o, n - 1);
      OneUpdate(After(o, n - 1));
      Unpressed(After(o, n - 1));
    }
  }

  lemma WreckUpdate(o: Obj)
    requires o.flags.exploding
    ensures var m := Updated(o); m.flags.exploding && m.commanded == o.commanded && m.ammo == o.ammo
  {
    hide AddVector, Dx, Dy;
  }

  /** Wreckage does not answer its controls. */
  lemma {:induction false} WreckIgnores(o: Obj, n: nat)
    requires o.flags.exploding
    ensures After(o, n).flags.exploding && After(o, n).commanded == o.commanded && After(o, n).ammo == o.ammo
  {
    hide Updated, After;
    AfterStep(o, n);
    if n > 0 {
      WreckIgnores(o, n - 1);
      WreckUpdate(After(o, n - 1));
    }
  }

  // ---- motion

  /** What the table of directions means: north is up the map, and a turn to the right goes on to
      the east. */
  lemma Compass(vel: int)
    ensures Dx(Vec(0, vel)) == 0 && Dy(Vec(0, vel)) == -vel && Dx(Vec(4, vel)) == vel && Dy(Vec(4, vel)) == 0
    ensures Dx(Vec(8, vel)) == 0 && Dy(Vec(8, vel)) == vel && Dx(Vec(12, vel)) == -vel && Dy(Vec(12, vel)) == 0
  {
  }

  /** Each heading is a sixteenth of a turn, give or take a degree and a half, clockwise of the one
      before it, sixteen units long within three per cent, and opposite to the one half a turn on. */
  lemma Rose(d: Dir)
    ensures var p, q, r := VECTBL[d], VECTBL[(d + 1) % 16], VECTBL[(d + 8) % 16];
            && 241 < p.0 * p.0 + p.1 * p.1 < 262
            && 385 * (p.0 * q.0 + p.1 * q.1) < 1000 * (p.0 * q.1 - p.1 * q.0) < 443 * (p.0 * q.0 + p.1 * q.1)
            && r.0 == -p.0 && r.1 == -p.1
  {
    assert d == 0 || d == 1 || d == 2 || d == 3 || d == 4 || d == 5 || d == 6 || d == 7 || d == 8 || d == 9 || d == 10
        || d == 11 || d == 12 || d == 13 || d == 14 || d == 15;
  }

  function Clamped(x: int): int { if x < 0 then 0 else x }

  /** One update of an object that is not pushed takes it one step along its heading, but not over
      the map's upper or left edge, where it stops; its old place is remembered. */
  lemma StepExact(o: Obj)
    requires o.ttl != 0 && o.push.vel == 0 && Steer(o).commanded.vel != 0
    ensures var m, v := Updated(o), Steer(o).commanded;
            var x, y := o.x + Dx(v), o.y + Dy(v);
            && m.x == Clamped(x) && m.y == Clamped(y) && m.prevx == o.x && m.prevy == o.y
            && m.actual == (if x < 0 || y < 0 then Vec(v.dir, 0) else v)
  {
    hide Dx, Dy, AddVector, Steer;
    Resting(o);
    Coasts(Steer(Timers(o)));
    Coasts(Shot(Steer(Timers(o))));
  }

  lemma Resting(o: Obj)
    ensures var a := Steer(Timers(o));
            && a.x == o.x && a.y == o.y && a.push == o.push && a.commanded == Steer(o).commanded && a.actual == o.actual
  {
  }

  lemma Coasts(a: Obj)
    requires a.push.vel == 0 && a.commanded.vel != 0
    ensures AddVector(a.commanded, a.push) == a.commanded
  {
    hide Dx, Dy;
  }

  /** The pushed object goes where heading and push together take it; the push wears off by one
      in every frame for a tank. */
  lemma PushedStep(o: Obj)
    requires Drivable(o) && o.push.vel != 0
    ensures var m, v := Updated(o), AddVector(Steer(o).commanded, o.push);
            && m.push == Vec(o.push.dir, o.push.vel - 1)
            && (v.vel != 0 ==> m.x == Clamped(o.x + Dx(v)) && m.y == Clamped(o.y + Dy(v)))
            && (v.vel == 0 ==> m.x == o.x && m.y == o.y)
  {
    hide Dx, Dy, AddVector, Steer;
    Resting(o);
    StillTank(o);
  }

  lemma StillTank(o: Obj)
    requires Drivable(o)
    ensures Steer(Timers(o)).kind == Tank
  {
  }

  /** An object at rest with no push stays where it is. */
  lemma StaysPut(o: Obj)
    requires o.ttl != 0 && o.push.vel == 0 && Steer(o).commanded.vel == 0
    ensures Updated(o).x == o.x && Updated(o).y == o.y && Updated(o).actual.vel == 0
  {
    hide AddVector, Advance, Steer;
    Resting(o);
    Rests(Steer(Timers(o)));
    Rests(Shot(Steer(Timers(o))));
  }

  lemma Rests(a: Obj)
    requires a.push.vel == 0 && a.commanded.vel == 0
    ensures Advance(a).x == a.x && Advance(a).y == a.y && Advance(a).actual.vel == 0
  {
    hide Heading, Dx, Dy;
  }

  lemma {:induction false} PushWearsOff(o: Obj, n: nat)
    requires Drivable(o) && o.push.vel >= 0
    ensures After(o, n).push.vel == if n < o.push.vel then o.push.vel - n else 0
  {
    hide Updated, After, Drivable;
    AfterStep(o, n);
    if n > 0 {
      PushWearsOff(o, n - 1);
      Driven(o, n - 1);
      if After(o, n - 1).push.vel != 0 { PushedStep(After(o, n - 1)); } else { NoPush(After(o, n - 1)); }
    }
  }

  lemma NoPush(o: Obj)
    requires Drivable(o) && o.push.vel == 0
    ensures Updated(o).push.vel == 0
  {
    hide AddVector;
  }

  /** The frames in which walls are ignored run out one by one. */
  lemma {:induction false} FudgeWearsOff(o: Obj, n: nat)
    requires Drivable(o) && o.mapColFudge >= 0
    ensures After(o, n).mapColFudge == Clamped(o.mapColFudge - n)
  {
    hide Updated, After, Drivable;
    AfterStep(o, n);
    if n > 0 {
      FudgeWearsOff(o, n - 1);
      Driven(o, n - 1);
      OneFudge(After(o, n - 1));
    }
  }

  lemma OneFudge(o: Obj)
    requires Drivable(o) && o.mapColFudge >= 0
    ensures Updated(o).mapColFudge == Clamped(o.mapColFudge - 1)
  {
    hide AddVector, Dx, Dy;
  }

  // ---- missiles

  /** A missile in the air, away from the edges for `n` more steps. */
  predicate Flies(o: Obj, n: nat) {
    && o.kind == Missile && o.ctrls == NOCTRLS && o.push.vel == 0 && o.commanded.vel > 0 && n <= o.ttl
    && o.flying >= 0 && 0 <= o.x + n * Dx(o.commanded) && 0 <= o.y + n * Dy(o.commanded) && 0 <= o.x && 0 <= o.y
  }

  lemma Between(x: int, d: int, n: nat, k: nat)
    requires 0 <= x && 0 <= x + n * d && k <= n
    ensures 0 <= x + k * d
  {
    if d < 0 { assert k * d >= n * d by { assert (n - k) * d <= 0; } } else { assert k * d >= 0; }
  }

  lemma Fewer(o: Obj, n: nat, k: nat)
    requires Flies(o, n) && k <= n
    ensures Flies(o, k)
    ensures o.kind == Missile && o.ctrls == NOCTRLS && o.push.vel == 0 && o.commanded.vel > 0 && n <= o.ttl
    ensures o.flying >= 0 && 0 <= o.x + n * Dx(o.commanded) && 0 <= o.y + n * Dy(o.commanded)
  {
    hide Dx, Dy;
    Between(o.x, Dx(o.commanded), n, k);
    Between(o.y, Dy(o.commanded), n, k);
  }

  lemma MoreSteps(k: nat, d: int)
    ensures (k + 1) * d == k * d + d
  {
  }

  /** A missile flies on in a straight line, the same step in every frame. */
  lemma {:induction false} MissileFlight(o: Obj, n: nat)
    requires Flies(o, n)
    ensures var m := After(o, n);
            && m.x == o.x + n * Dx(o.commanded) && m.y == o.y + n * Dy(o.commanded)
            && m.ttl == o.ttl - n && m.flying == Clamped(o.flying - n) && m.flags.destroyed == o.flags.destroyed
            && m.kind == Missile && m.ctrls == NOCTRLS && m.push.vel == 0 && m.commanded == o.commanded
  {
    hide Dx, Dy, Updated, After, Flies;
    AfterStep(o, n);
    Fewer(o, n, n);
    if n > 0 {
      var k := n - 1;
      Fewer(o, n, k);
      MissileFlight(o, k);
      MoreSteps(k, Dx(o.commanded));
      MoreSteps(k, Dy(o.commanded));
      MissileStep(After(o, k));
    }
  }

  lemma MissileStep(p: Obj)
    requires p.kind == Missile && p.ctrls == NOCTRLS && p.push.vel == 0 && p.commanded.vel > 0
    requires p.ttl > 0 && p.flying >= 0
    requires p.x + Dx(p.commanded) >= 0 && p.y + Dy(p.commanded) >= 0
    ensures var m := Updated(p);
            && m.x == p.x + Dx(p.commanded) && m.y == p.y + Dy(p.commanded) && m.ttl == p.ttl - 1
            && m.flying == Clamped(p.flying - 1) && m.flags.destroyed == p.flags.destroyed
            && m.kind == Missile && m.ctrls == NOCTRLS && m.push.vel == 0 && m.commanded == p.commanded
  {
    hide Dx, Dy;
  }

  /** And when its time is up it is destroyed. */
  lemma TimeUp(o: Obj)
    ensures Updated(o).flags.destroyed <==> o.ttl == 0 || o.flags.destroyed
  {
    hide AddVector, Dx, Dy;
  }

  // ---- shots

  /** The trigger of a tank is pulled, its gun is cold, and there is a round in it. */
  predicate Shoots(o: Obj) { Drivable(o) && o.ctrls.fire && o.cooldown == 0 && o.ammo != 0 }

  /** What leaves the gun of a tank `o` that has steered to `dir`: a missile of the tank's owner, at
      the tank's place, along the tank's heading, a hundred faster than the tank, with twenty frames
      to fly, and blind for its owner for five. */
  predicate IsShotOf(m: Obj, o: Obj, dir: Dir) {
    && m.kind == Missile && m.owner == o.owner && m.x == o.x && m.y == o.y
    && m.commanded == Vec(dir, o.actual.vel + 100) && m.actual == m.commanded && m.push.vel == 0
    && m.ttl == 20 && m.flying == 5 && m.armour == 0 && m.hp == 1 && m.destruct == NoDestructor
    && m.flags == NOFLAGS && m.ctrls == NOCTRLS
  }

  /** Before slot `i` has its turn its tank shoots exactly if `Shoots` says so; the missile is put
      into the first free slot, and the tank has a round less and a hot gun. */
  lemma ShotExact(s: State, i: nat)
    requires i < MAXOBJS && s.objs[i].Some? && Drivable(s.objs[i].value)
    ensures var o, t, f := s.objs[i].value, UpdateSlot(s, i), FirstFree(s.objs, 0);
            && t.objs[i].Some?
            && (Shoots(o) ==> t.objs[i].value.ammo == o.ammo - 1 && t.objs[i].value.cooldown == 17)
            && (!Shoots(o) ==> t.objs[i].value.ammo == o.ammo)
            && (!Shoots(o) && o.cooldown >= 0 ==> t.objs[i].value.cooldown == Clamped(o.cooldown - 1))
            && (Shoots(o) && f < MAXOBJS ==>
                  f != i && t.objs[f].Some? && IsShotOf(t.objs[f].value, o, Steer(o).commanded.dir))
            && (forall j :: 0 <= j < MAXOBJS && j != i && !(Shoots(o) && j == f) ==> t.objs[j] == s.objs[j])
            && t == s.(objs := t.objs, dropped := s.dropped + if Shoots(o) && f == MAXOBJS then {Missile} else {})
  {
    hide Advance, Steer, MissileOf, Shot;
    var o := s.objs[i].value;
    var p := Steer(Timers(o));
    SameFree(s.objs, i, p);
    Aimed(o);
    FiredShot(p, o);
    Recoil(p);
    assert UpdateSlot(s, i).objs[i] == Some(Advance(if Shoots(o) then Shot(p) else p));
  }

  /** What the shot depends on is not yet touched when the trigger is looked at. */
  lemma Aimed(o: Obj)
    requires Drivable(o)
    ensures var p := Steer(Timers(o));
            && Drivable(p) && p.ctrls == o.ctrls && p.cooldown == o.cooldown && p.ammo == o.ammo && p.owner == o.owner
            && p.x == o.x && p.y == o.y && p.actual == o.actual && p.commanded == Steer(o).commanded
  {
  }

  lemma FiredShot(p: Obj, o: Obj)
    requires p.owner == o.owner && p.x == o.x && p.y == o.y && p.actual == o.actual
    ensures IsShotOf(MissileOf(p), o, p.commanded.dir)
  {
  }

  lemma Recoil(p: Obj)
    requires Drivable(p)
    ensures Advance(Shot(p)).ammo == p.ammo - 1 && Advance(Shot(p)).cooldown == 17
    ensures Advance(p).ammo == p.ammo && (p.cooldown >= 0 ==> Advance(p).cooldown == Clamped(p.cooldown - 1))
  {
    hide AddVector, Dx, Dy;
  }

  lemma SameFree(objs: ObjList, i: nat, p: Obj)
    requires i < MAXOBJS && objs[i].Some?
    ensures FirstFree(objs[i := Some(p)], 0) == FirstFree(objs, 0)
  {
    FreeAgain(objs, i, p, 0);
  }

  lemma {:induction false} FreeAgain(objs: ObjList, i: nat, p: Obj, k: nat)
    requires i < MAXOBJS && objs[i].Some? && k <= MAXOBJS
    ensures FirstFree(objs[i := Some(p)], k) == FirstFree(objs, k)
    decreases |objs| - k
  {
    if k < MAXOBJS && objs[k].Some? { FreeAgain(objs, i, p, k + 1); }
  }
}
