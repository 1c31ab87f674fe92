/** Steering over whole runs: what the controls that a player holds make of the tank's heading and
    speed (control.c `processObjectControl`). */
module DrivingRuns {
  import opened CtfServ
  import opened Game
  import opened GameInvariant
  import opened Runs
  import opened Tracking
  import opened TankRuns
  import D = Driving
  import opened Impacts

  /** The part of a tank that steering is about. */
  predicate Steered(o: Obj, m: Obj) {
    m.commanded.dir == Steer(o).commanded.dir && m.dirChg == Steer(o).dirChg && m.ctrls == o.ctrls
  }

  /** A frame that a tank survives turns it as its controls say, whatever it meets, and gives it the
      speed that they say unless it has hit a wall. */
  lemma SteeredFrame(c: Config, s: State, lost: set<nat>, k: nat, i: nat)
    requires ValidConfig(c) && Boundary(s) && Holds(s, k, i, Tank) && Holds(Frame(c, s, lost), k, i, Tank)
    requires !Frame(c, s, lost).players[k].value.flags.spectator
    ensures var o, m := s.objs[i].value, Frame(c, s, lost).objs[i].value;
            && Steered(o, m)
            && (m.commanded.vel == Steer(o).commanded.vel || (InWall(c, Updated(o)) && m.commanded.vel == 0))
  {
    hide Frame, Sane, Boundary, Updated, Steer, InWall;
    HeldSane(s, k, i, Tank);
    HeldThrough(c, s, lost, k, i, Tank);
    CleanedUp(c, s, lost, k, i);
    FrameOrders(c, s, i);
    LiveTank(s, i);
    D.OneUpdate(s.objs[i].value);
    SentSlot(c, s, lost, i);
  }

  lemma LiveTank(s: State, i: nat)
    requires Boundary(s) && i < MAXOBJS && s.objs[i].Some? && s.objs[i].value.kind == Tank
    ensures D.Drivable(s.objs[i].value)
  {
    assert SlotOk(s, MAXOBJS, MAXOBJS, i);
  }

  lemma SteeredStep(c: Config, s: State, e: Input, k: nat, i: nat)
    requires ValidConfig(c) && Boundary(s) && Allowed(s, e) && Holds(s, k, i, Tank) && Holds(Step(c, s, e), k, i, Tank)
    requires !Step(c, s, e).players[k].value.flags.spectator
    ensures var o, m := s.objs[i].value, Step(c, s, e).objs[i].value;
            && D.Drivable(o)
            && (e.Tick? ==> Steered(o, m))
            && (!e.Tick? ==> m.commanded == o.commanded && m.dirChg == o.dirChg)
  {
    hide Frame, Boundary, Steered;
    LiveTank(s, i);
    if e.Tick? { SteeredFrame(c, s, e.lost, k, i); } else { MessageSteady(c, s, e, k, i, Tank); }
  }

  /** Player `k` drives the tank in slot `i` from state `a` to state `b` and holds left all the time,
      or right and not left. */
  ghost predicate Holding(c: Config, powerups: seq<PowerSpawn>, states: seq<State>, inputs: seq<Input>, k: nat, a: nat,
                          b: nat, i: nat, left: bool)
    requires ValidConfig(c)
  {
    && Drive(c, powerups, states, inputs, k, a, b, i) && i < MAXOBJS
    && forall n :: a <= n <= b ==> states[n].objs[i].Some? && D.Turning(states[n].objs[i].value, left)
  }

  lemma HoldingStep(c: Config, powerups: seq<PowerSpawn>, states: seq<State>, inputs: seq<Input>, k: nat, a: nat,
                    b: nat, i: nat, left: bool)
    requires ValidConfig(c) && Holding(c, powerups, states, inputs, k, a, b, i, left) && a < b
    ensures Holding(c, powerups, states, inputs, k, a, b - 1, i, left) && b <= |inputs|
    ensures var n := b - 1;
            && Boundary(states[n]) && Allowed(states[n], inputs[n]) && states[b] == Step(c, states[n], inputs[n])
            && Holds(states[n], k, i, Tank) && Holds(states[b], k, i, Tank)
            && !states[b].players[k].value.flags.spectator
            && D.Turning(states[n].objs[i].value, left)
  {
    hide Boundary, Holds, Step;
    TenureStep(c, powerups, states, inputs, k, a, b, b - 1);
    assert Holds(states[b - 1], k, i, Tank) && Holds(states[b], k, i, Tank);
  }

  /** While a turn is held the tank's heading changes by a sixteenth every third frame. */
  lemma {:induction false} TurnsInRun(c: Config, powerups: seq<PowerSpawn>, states: seq<State>, inputs: seq<Input>,
                                      k: nat, a: nat, b: nat, i: nat, left: bool)
    requires ValidConfig(c) && Holding(c, powerups, states, inputs, k, a, b, i, left)
    requires states[a].objs[i].Some? && 0 <= states[a].objs[i].value.dirChg <= 3
    ensures states[b].objs[i].Some?
    ensures D.Turned(states[a].objs[i].value, states[b].objs[i].value, left, Ticks(inputs, a, b))
    decreases b - a
  {
    hide Boundary, Holds, Step, Run, D.Turned;
    if a == b {
      D.NotTurned(states[a].objs[i].value, left);
    } else {
      HoldingStep(c, powerups, states, inputs, k, a, b, i, left);
      TurnsInRun(c, powerups, states, inputs, k, a, b - 1, i, left);
      SteeredStep(c, states[b - 1], inputs[b - 1], k, i);
      var o, p, m := states[a].objs[i].value, states[b - 1].objs[i].value, states[b].objs[i].value;
      if inputs[b - 1].Tick? {
        D.TurnedOn(o, p, m, left, Ticks(inputs, a, b - 1));
      } else {
        SameTurned(o, p, m, left, Ticks(inputs, a, b));
      }
    }
  }

  lemma SameTurned(o: Obj, p: Obj, m: Obj, left: bool, n: nat)
    requires 0 <= o.dirChg <= 3 && D.Turned(o, p, left, n) && m.commanded == p.commanded && m.dirChg == p.dirChg
    ensures D.Turned(o, m, left, n)
  {
  }
}
