/** When a match starts, how long it lasts and when it ends (endgame.c; matchmake.c
    `isGameStartable`; object.c `makeUpdates`). */
module Clock {
  import opened CtfServ
  import opened Game
  import opened Matchmake
  import opened RunInvariant
  import opened Runs
  import opened Scores
  import opened LifeCycle
  import opened TankRuns

  // ---- the clock

  predicate Timed(c: Config, s: State) { 0 <= c.timeLimit && s.running }

  /** The state at the end of a frame, before it is known whether the match is over. */
  function Left(c: Config, s: State, lost: set<nat>): State
    requires ValidConfig(c)
  {
    BuryFrom(CleanFrom(c, Sent(c, s, lost), 0), 0)
  }

  lemma LeftScore(c: Config, s: State, lost: set<nat>)
    requires ValidConfig(c)
    ensures var m, t := DoObjectUpdates(c, s), Left(c, s, lost);
            && t.teamscore == m.teamscore && t.running == s.running
            && t.timeRemaining == s.timeRemaining - (if Timed(c, s) then 1 else 0)
            && (t.gameOver <==> m.gameOver || (Timed(c, s) && s.timeRemaining == 1))
  {
    WonExactly(c, s);
    hide DoObjectUpdates, ViewsFrom, SendFrom, CleanFrom, BuryFrom, EndMatchFrom;
    var m := DoObjectUpdates(c, s);
    var v := ViewsFrom(m, 0);
    ViewsScore(m, 0);
    SendScore(TimeTick(c, v), lost, 0);
    CleanScore(c, Sent(c, s, lost), 0);
    BuryScore(CleanFrom(c, Sent(c, s, lost), 0), 0);
  }

  /** Why a match ends with this frame: it was over already, a team has won it, its time is up, or
      it is running and nobody is left to play it. */
  ghost predicate Ends(c: Config, s: State, lost: set<nat>)
    requires ValidConfig(c)
  {
    || s.gameOver
    || Reached(c, s, DoObjectUpdates(c, s), 0) || Reached(c, s, DoObjectUpdates(c, s), 1)
    || (Timed(c, s) && s.timeRemaining == 1)
    || (s.running && PlayersFrom(Left(c, s, lost).players, 0) == 0)
  }

  /** A frame ends the match exactly for one of those reasons, and then everything is set back; and
      otherwise it takes one off the clock of a match that is timed and running, and the score is
      that of the frame's updates. */
  lemma FrameClock(c: Config, s: State, lost: set<nat>)
    requires ValidConfig(c) && Boundary(s)
    ensures var t := Frame(c, s, lost);
            if Ends(c, s, lost) then
              !t.running && !t.gameOver && t.teamscore == (0, 0) && t.timeRemaining == c.timeLimit
            else
              && t == Left(c, s, lost) && t.running == s.running && !t.gameOver
              && t.teamscore == DoObjectUpdates(c, s).teamscore
              && t.timeRemaining == s.timeRemaining - (if Timed(c, s) then 1 else 0)
  {
    hide DoObjectUpdates, SendFrom, CleanFrom, BuryFrom, ResetGame, EndMatchFrom, ViewsFrom;
    var t := Left(c, s, lost);
    LeftScore(c, s, lost);
    WonExactly(c, s);
    LeftCount(c, s, lost);
    ResetScore(c, t);
    ResetScore(c, t.(gameOver := true));
  }

  lemma LeftCount(c: Config, s: State, lost: set<nat>)
    requires ValidConfig(c) && Boundary(s)
    ensures Left(c, s, lost).playerCount == PlayersFrom(Left(c, s, lost).players, 0)
  {
    SentInv(c, s, lost);
    CleanInv(c, Sent(c, s, lost), 0);
    BuryInv(CleanFrom(c, Sent(c, s, lost), 0), 0);
  }

  lemma ClockStep(c: Config, s: State, e: Input, k: nat)
    requires ValidConfig(c) && Boundary(s) && s.running && Connected(Step(c, s, e), k)
    requires !Step(c, s, e).players[k].value.flags.spectator
    ensures var t := Step(c, s, e);
            && t.running && t.timeRemaining == s.timeRemaining - (if 0 <= c.timeLimit && e.Tick? then 1 else 0)
            && (0 <= c.timeLimit && e.Tick? ==> s.timeRemaining != 1)
  {
    hide Boundary, Frame, Left, Ends, ClientStep;
    if e.Tick? {
      FrameClock(c, s, e.lost);
      LeftScore(c, s, e.lost);
      StaysLeft(c, s, e.lost, k);
    } else {
      MessageScore(c, s, e);
    }
  }

  /** A player who is still here has seen no reset. */
  lemma StaysLeft(c: Config, s: State, lost: set<nat>, k: nat)
    requires ValidConfig(c) && Boundary(s) && k < MAXCLIENTS
    requires Frame(c, s, lost).players[k].Some? && !Frame(c, s, lost).players[k].value.flags.spectator
    ensures Frame(c, s, lost) == Left(c, s, lost)
    ensures !(Timed(c, s) && s.timeRemaining == 1)
  {
    FrameBuried(c, s, lost, k);
    LeftScore(c, s, lost);
    FrameClock(c, s, lost);
  }

  /** While player `k` is here a running match goes on, and each frame takes one off its clock, which
      never runs out: so it has fewer frames than were on the clock. */
  lemma {:induction false} ClockInRun(c: Config, powerups: seq<PowerSpawn>, states: seq<State>, inputs: seq<Input>,
                                      k: nat, a: nat, b: nat)
    requires ValidConfig(c) && Tenure(c, powerups, states, inputs, k, a, b) && states[a].running
    ensures states[b].running
    ensures states[b].timeRemaining == states[a].timeRemaining - (if 0 <= c.timeLimit then Ticks(inputs, a, b) else 0)
    ensures 0 <= c.timeLimit && 0 < states[a].timeRemaining ==> Ticks(inputs, a, b) < states[a].timeRemaining
    decreases b - a
  {
    hide Boundary, Step, Ready;
    if a < b {
      TenureStep(c, powerups, states, inputs, k, a, b, b - 1);
      ClockInRun(c, powerups, states, inputs, k, a, b - 1);
      ClockStep(c, states[b - 1], inputs[b - 1], k);
    }
  }

  /** At the end of a match every player is neither playing nor ready nor dead, and nothing else about
      them has changed; spectators look on. */
  lemma {:induction false} EndMatchExact(players: PlayerList, k: nat)
    requires k <= MAXCLIENTS
    ensures var after := EndMatchFrom(players, k);
            forall j :: 0 <= j < MAXCLIENTS ==>
              if k <= j && players[j].Some? && !players[j].value.flags.spectator then
                after[j] == Some(players[j].value.(flags := PlayerFlags(false, false, false, false, false, false)))
              else after[j] == players[j]
    decreases |players| - k
  {
    if k < MAXCLIENTS {
      if players[k].Some? && !players[k].value.flags.spectator {
        EndMatchExact(players[k := Some(Quit(players[k].value, false))], k + 1);
      } else {
        EndMatchExact(players, k + 1);
      }
    }
  }

  // ---- from matchmaking to the match

  /** A client's word about itself: that it has its first map, where its viewport is, that it is at the
      matchmaking screen, and, once it is on a team, that it is ready. Nothing else changes. */
  lemma WordExact(c: Config, s: State, k: nat, view: Viewport)
    requires ValidConfig(c) && Connected(s, k)
    ensures var p, f := s.players[k].value, s.players[k].value.flags;
            && Step(c, s, ClientReady(k)).players[k] == Some(p.(flags := f.(running := true)))
            && Step(c, s, ViewportMsg(k, view)).players[k] == Some(p.(flags := f.(newView := true), view := view))
            && Step(c, s, MatchStart(k)).players[k] == Some(p.(flags := f.(matchmaking := true)))
            && Step(c, s, MatchReady(k)).players[k] == Some(p.(flags := f.(ready := f.ready || p.team < 2)))
    ensures forall e :: e == ClientReady(k) || e == ViewportMsg(k, view) || e == MatchStart(k) || e == MatchReady(k) ==>
              Step(c, s, e) == s.(players := s.players[k := Step(c, s, e).players[k]])
  {
  }

  /** Everybody connected is ready and has chosen a team or to look on. */
  predicate AllSet(players: PlayerList, k: nat) {
    forall j :: k <= j < MAXCLIENTS && players[j].Some? ==>
      players[j].value.flags.ready && (players[j].value.team < 2 || players[j].value.flags.spectator)
  }

  function Clients(players: PlayerList, k: nat): set<nat> {
    set j: nat | k <= j < MAXCLIENTS && players[j].Some?
  }

  lemma ClientsNext(players: PlayerList, k: nat)
    requires k < MAXCLIENTS
    ensures |Clients(players, k)| == |Clients(players, k + 1)| + if players[k].Some? then 1 else 0
  {
    var ks, rest := Clients(players, k), Clients(players, k + 1);
    if players[k].Some? { assert ks == rest + {k}; } else { assert ks == rest; }
  }

  lemma {:induction false} StartableFrom(players: PlayerList, minPlayers: int, k: nat, count: nat)
    requires k <= MAXCLIENTS
    ensures Startable(players, minPlayers, k, count) <==>
            AllSet(players, k) && count + |Clients(players, k)| >= minPlayers
    decreases |players| - k
  {
    hide Clients;
    if k == MAXCLIENTS {
      NoClients(players);
    } else {
      ClientsNext(players, k);
      StartableFrom(players, minPlayers, k + 1, if players[k].Some? then count + 1 else count);
    }
  }

  lemma NoClients(players: PlayerList)
    ensures Clients(players, MAXCLIENTS) == {}
  {
  }

  /** Who has been at the matchmaking screen leaves it, ready to play; nobody else changes. */
  predicate LeftScreen(players: PlayerList, players': PlayerList, k: nat) {
    forall j :: 0 <= j < MAXCLIENTS ==>
      if k <= j && players[j].Some? && players[j].value.flags.matchmaking then
        players'[j] == Some(players[j].value.(flags := PlayerFlags(false, false, false, false, true, false)))
      else players'[j] == players[j]
  }

  lemma {:induction false} LeaveExact(players: PlayerList, k: nat)
    requires k <= MAXCLIENTS
    ensures LeftScreen(players, LeaveMatchmaking(players, k), k)
    decreases |players| - k
  {
    if k < MAXCLIENTS {
      if players[k].Some? && players[k].value.flags.matchmaking {
        var p := players[k].value.(flags := PlayerFlags(false, false, false, false, true, false));
        LeaveExact(players[k := Some(p)], k + 1);
      } else {
        LeaveExact(players, k + 1);
      }
    }
  }

  /** A request to start the match is granted exactly if everybody connected is ready and on a team
      or looking on, and there are enough of them. */
  lemma MatchStopExact(c: Config, s: State, k: nat)
    requires ValidConfig(c) && Connected(s, k)
    ensures var t := Step(c, s, MatchStop(k));
            && t == s.(players := t.players)
            && (if AllSet(s.players, 0) && |Clients(s.players, 0)| >= c.minPlayers
                then LeftScreen(s.players, t.players, 0) else t == s)
  {
    hide Startable, LeaveMatchmaking, AllSet, Clients, LeftScreen;
    StartableFrom(s.players, c.minPlayers, 0, 0);
    LeaveExact(s.players, 0);
  }
}
