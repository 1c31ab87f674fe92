/** The viewport protocol over runs: once a client has told the server its viewport. */
module ViewportRuns {
  import opened CtfServ
  import opened Game
  import opened Runs
  import opened TankRuns
  import opened Sprites
  import opened SpriteRuns
  import opened Viewports

  lemma ViewStep(c: Config, s: State, e: Input, k: nat)
    requires ValidConfig(c) && Boundary(s) && Connected(s, k) && !(e.ViewportMsg? && e.k == k)
    requires Connected(Step(c, s, e), k) && !Step(c, s, e).players[k].value.flags.spectator
    ensures Step(c, s, e).players[k].value.view == s.players[k].value.view
  {
    hide Boundary, Frame;
    if e.Tick? { FrameView(c, s, e.lost, k); } else { MessageView(c, s, e, k); }
  }

  /** Player `k` sends viewport `v` as input `a` and no other up to state `b`. */
  ghost predicate Adopts(c: Config, powerups: seq<PowerSpawn>, states: seq<State>, inputs: seq<Input>, k: nat, a: nat,
                         b: nat, v: Viewport)
    requires ValidConfig(c)
  {
    && Tenure(c, powerups, states, inputs, k, a, b) && a < b && inputs[a] == ViewportMsg(k, v)
    && forall m :: a < m < b ==> !(inputs[m].ViewportMsg? && inputs[m].k == k)
  }

  /** Until the client sends another one, that is the viewport the server goes by. */
  lemma {:induction false} ViewKept(c: Config, powerups: seq<PowerSpawn>, states: seq<State>, inputs: seq<Input>,
                                    k: nat, a: nat, b: nat, v: Viewport, n: nat)
    requires ValidConfig(c) && Adopts(c, powerups, states, inputs, k, a, b, v) && a < n <= b
    ensures states[n].players[k].Some? && states[n].players[k].value.view == v
    decreases n
  {
    hide Boundary, Frame, Allowed;
    TenureStep(c, powerups, states, inputs, k, a, b, n - 1);
    assert Connected(states[n - 1], k);
    if a < n - 1 {
      ViewKept(c, powerups, states, inputs, k, a, b, v, n - 1);
      ViewStep(c, states[n - 1], inputs[n - 1], k);
    }
  }

  predicate FitsByte(m: Msg) { m.SpriteMsg? ==> 0 <= m.x <= VPXPIXELS && 0 <= m.y <= VPYPIXELS }

  /** Where player `k`'s tank is once the objects of a frame have moved, if it has one. */
  function TankMoved(c: Config, s: State, k: nat): Option<Obj>
    requires ValidConfig(c) && k < MAXCLIENTS
  {
    var m := DoObjectUpdates(c, s);
    if m.players[k].Some? then TankOf(m, m.players[k].value) else None
  }

  /** From the moment a client chooses the viewport for a position, until it chooses again: no
      frame in which its tank ends in view asks it for another, and every sprite that any frame
      sends it has offsets that fit a byte. */
  lemma ViewportHolds(c: Config, powerups: seq<PowerSpawn>, states: seq<State>, inputs: seq<Input>, k: nat, a: nat,
                      b: nat, px: Word, py: Word, n: nat)
    requires ValidConfig(c) && px < 65408 && py < 65504
    requires Adopts(c, powerups, states, inputs, k, a, b, Screen(px, py)) && a < n < b && inputs[n].Tick?
    ensures var ms, tank := FrameMsgs(c, states[n], k), TankMoved(c, states[n], k);
            && (tank.Some? && InView(tank.value.x, tank.value.y, Screen(px, py)) ==> forall m :: m in ms ==>
                !m.ViewMsg?)
            && (forall m :: m in ms ==> FitsByte(m))
  {
    ViewKept(c, powerups, states, inputs, k, a, b, Screen(px, py), n);
    TenureStep(c, powerups, states, inputs, k, a, b, n);
    UpdatesView(c, states[n], k);
    ScreenContains(px, py);
    hide DoObjectUpdates, Boundary, Adopts, Tenure, Step;
    ObjectMsgsBytes(DoObjectUpdates(c, states[n]).objs, MAXOBJS, Screen(px, py));
  }
}
