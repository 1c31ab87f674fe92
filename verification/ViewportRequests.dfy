/** How often a client is asked for a new viewport (object.c `makeSpriteUpdates`). */
module ViewportRequests {
  import opened CtfServ
  import opened Game
  import opened RunInvariant
  import opened Runs
  import opened Tracking
  import opened LifeCycle
  import opened TankRuns
  import opened Sprites
  import opened SpriteRuns

  /** The frame that starts in `s` asks client `k` for a new viewport. */
  ghost predicate Requests(c: Config, s: State, k: nat)
    requires ValidConfig(c) && k < MAXCLIENTS
  {
    exists m :: m in FrameMsgs(c, s, k) && m.ViewMsg?
  }

  lemma {:induction false} ViewsWait(s: State, n: nat, k: nat)
    requires n <= MAXCLIENTS && k < MAXCLIENTS && s.players[k].Some?
    ensures ViewsFrom(s, n).players[k] ==
            if n <= k then Some(ViewTick(s.players[k].value, TankOf(s, s.players[k].value))) else s.players[k]
    decreases |s.players| - n
  {
    hide ViewTick;
    if n < MAXCLIENTS {
      if s.players[n] == None { ViewsWait(s, n + 1, k); }
      else { ViewsWait(PutPlayer(s, n, ViewTick(s.players[n].value, TankOf(s, s.players[n].value))), n + 1, k); }
    }
  }

  /** A request finds the wait over and starts another one of five frames; any other frame takes at
      most one off it. */
  lemma TickWait(objs: ObjList, p: Player, tank: Option<Obj>)
    ensures var asks := exists m :: m in Updates(objs, p, tank) && m.ViewMsg?;
            var was, now := p.vpcframes, ViewTick(p, tank).vpcframes;
            (asks ==> was <= 1 && now == 5) && (!asks ==> was - 1 <= now <= was)
  {
    ObjectMsgsBytes(objs, MAXOBJS, p.view);
    if Asking(p, tank) {
      var ms := Updates(objs, p, tank);
      assert ms[0] in ms && ms[0].ViewMsg?;
    }
  }

  /** In a frame that the player's tank survives, nothing else changes the wait. */
  lemma RequestFrame(c: Config, s: State, lost: set<nat>, k: nat, i: nat)
    requires ValidConfig(c) && Boundary(s) && Holds(s, k, i, Tank) && Holds(Frame(c, s, lost), k, i, Tank)
    requires !Frame(c, s, lost).players[k].value.flags.spectator
    ensures var was, now := s.players[k].value.vpcframes, Frame(c, s, lost).players[k].value.vpcframes;
            (Requests(c, s, k) ==> was <= 1 && now == 5) && (!Requests(c, s, k) ==> was - 1 <= now <= was)
  {
    hide Boundary, DoObjectUpdates, CleanFrom, SendFrom, Frame, ViewsFrom, ViewTick, Updates;
    var m := DoObjectUpdates(c, s);
    UpdatesView(c, s, k);
    HeldSane(s, k, i, Tank);
    TickWait(m.objs, m.players[k].value, TankOf(m, m.players[k].value));
    ViewsWait(m, 0, k);
    StayedOn(c, s, lost, k);
    FrameStays(c, s, lost, k);
    SentStays(c, s, lost, k);
    KeptTank(c, s, lost, k, i);
  }

  /** The player whose tank survives is not touched by the clean-up. */
  lemma KeptTank(c: Config, s: State, lost: set<nat>, k: nat, i: nat)
    requires ValidConfig(c) && Boundary(s) && Holds(s, k, i, Tank) && Holds(Frame(c, s, lost), k, i, Tank)
    requires !Frame(c, s, lost).players[k].value.flags.spectator
    ensures Sent(c, s, lost).players[k].Some?
    ensures CleanFrom(c, Sent(c, s, lost), 0).players[k] == Sent(c, s, lost).players[k]
  {
    hide Boundary, CleanFrom, Sent, Updated;
    HeldSane(s, k, i, Tank);
    UpdatedMoves(s.objs[i].value);
    HeldThrough(c, s, lost, k, i, Tank);
    SentSlot(c, s, lost, i);
    CleanPlayer(c, Sent(c, s, lost), 0, k);
  }

  lemma ClientWait(c: Config, s: State, q: nat, e: Input, k: nat)
    requires ValidConfig(c) && Boundary(s) && Connected(s, q) && Connected(s, k) && !e.Tick? && !e.Hello? && e.k == q
    requires Allowed(s, e) && s.players[k].value.tank.Some? && !s.players[k].value.flags.spectator
    requires Connected(ClientStep(c, s, q, e), k)
    ensures ClientStep(c, s, q, e).players[k].value.vpcframes == s.players[k].value.vpcframes
  {
    match e
    case Bye(_) => RemoveStays(s, MAXOBJS, MAXOBJS, q, k);
    case PingOut(_) => RemoveStays(s, MAXOBJS, MAXOBJS, q, k);
    case TeamRequest(_, team) =>
      TeamedPlayers(s, MAXOBJS, -1);
      if team <= 2 { OrderedView(s.players[q := Some(s.players[q].value.(team := team))], k); }
    case MatchStop(_) => LeaveView(s.players, 0, k);
    case _ =>
  }

  /** No message shortens the wait of a player with a tank. */
  lemma MessageWait(c: Config, s: State, e: Input, k: nat)
    requires ValidConfig(c) && Boundary(s) && !e.Tick? && Allowed(s, e)
    requires Connected(s, k) && s.players[k].value.tank.Some? && !s.players[k].value.flags.spectator
    requires Connected(Step(c, s, e), k)
    ensures Step(c, s, e).players[k].value.vpcframes == s.players[k].value.vpcframes
  {
    TeamedPlayers(s, MAXOBJS, -1);
    if e.Hello? {
      var q := FirstSlot(s.players, 0);
      if q < MAXCLIENTS && !e.spectator { OrderedView(s.players[q := Some(NewPlayer(c, e.spectator))], k); }
    } else if Connected(s, e.k) {
      ClientWait(c, s, e.k, e, k);
    }
  }

  ghost predicate Asks(c: Config, s: State, e: Input, k: nat)
    requires ValidConfig(c) && k < MAXCLIENTS
  {
    e.Tick? && Requests(c, s, k)
  }

  lemma WaitStep(c: Config, powerups: seq<PowerSpawn>, states: seq<State>, inputs: seq<Input>, k: nat, a: nat,
                 b: nat, i: nat, n: nat)
    requires ValidConfig(c) && Drive(c, powerups, states, inputs, k, a, b, i) && a <= n < b
    ensures k < MAXCLIENTS && states[n].players[k].Some? && states[n + 1].players[k].Some?
    ensures var was, now := states[n].players[k].value.vpcframes, states[n + 1].players[k].value.vpcframes;
            && (Asks(c, states[n], inputs[n], k) ==> was <= 1 && now == 5)
            && (!Asks(c, states[n], inputs[n], k) ==> was - (if inputs[n].Tick? then 1 else 0) <= now)
  {
    hide Boundary, Frame, Requests, ClientStep;
    TenureStep(c, powerups, states, inputs, k, a, b, n);
    assert Holds(states[n], k, i, Tank) && Holds(states[n + 1], k, i, Tank);
    HeldSane(states[n], k, i, Tank);
    if inputs[n].Tick? {
      RequestFrame(c, states[n], inputs[n].lost, k, i);
    } else {
      MessageWait(c, states[n], inputs[n], k);
    }
  }

  lemma {:induction false} StillWaiting(c: Config, powerups: seq<PowerSpawn>, states: seq<State>, inputs: seq<Input>,
                                        k: nat, a: nat, b: nat, i: nat, n: nat)
    requires ValidConfig(c) && Drive(c, powerups, states, inputs, k, a, b, i) && a < n <= b
    requires k < MAXCLIENTS && Asks(c, states[a], inputs[a], k)
    ensures states[n].players[k].Some? && states[n].players[k].value.vpcframes + Ticks(inputs, a, n) >= 6
    decreases n
  {
    hide Asks, Ready, Holds, Step, Allowed;
    WaitStep(c, powerups, states, inputs, k, a, b, i, n - 1);
    if a < n - 1 {
      StillWaiting(c, powerups, states, inputs, k, a, b, i, n - 1);
    } else {
      AsksTick(c, states[a], inputs[a], k);
    }
  }

  lemma AsksTick(c: Config, s: State, e: Input, k: nat)
    requires ValidConfig(c) && k < MAXCLIENTS && Asks(c, s, e, k)
    ensures e.Tick?
  {
  }

  /** A player that drives one tank is asked for a viewport at most once in five frames. */
  lemma RequestsApart(c: Config, powerups: seq<PowerSpawn>, states: seq<State>, inputs: seq<Input>, k: nat, a: nat,
                      b: nat, i: nat)
    requires ValidConfig(c) && Drive(c, powerups, states, inputs, k, a, b + 1, i) && a < b < |inputs|
    requires k < MAXCLIENTS && Asks(c, states[a], inputs[a], k) && Asks(c, states[b], inputs[b], k)
    ensures Ticks(inputs, a, b) >= 5
  {
    hide Asks, Ready, Holds, Step, Allowed;
    StillWaiting(c, powerups, states, inputs, k, a, b + 1, i, b);
    WaitStep(c, powerups, states, inputs, k, a, b + 1, i, b);
  }
}
