/** A player's lives over a whole stay (object.c `destroyPlayerObj`). */
module Lives {
  import opened CtfServ
  import opened Game
  import opened Matchmake
  import opened RunInvariant
  import opened Runs
  import opened LifeCycle
  import opened TankRuns

  lemma OrderedLives(players: PlayerList, k: nat)
    requires k < MAXCLIENTS && Teamed(players) && players[k].Some?
    ensures Ordered(players)[k].Some? && Ordered(players)[k].value.lives == players[k].value.lives
  {
    OrderedTeams(players);
  }

  lemma LeaveLives(players: PlayerList, n: nat, k: nat)
    requires n <= MAXCLIENTS && k < MAXCLIENTS && players[k].Some?
    ensures LeaveMatchmaking(players, n)[k].Some?
        && LeaveMatchmaking(players, n)[k].value.lives == players[k].value.lives
    decreases MAXCLIENTS - n
  {
    if n < MAXCLIENTS {
      if players[n].Some? && players[n].value.flags.matchmaking {
        var q := players[n].value.(flags := PlayerFlags(false, false, false, false, true, false));
        LeaveLives(players[n := Some(q)], n + 1, k);
      } else {
        LeaveLives(players, n + 1, k);
      }
    }
  }

  lemma ClientLives(c: Config, s: State, q: nat, e: Input, k: nat)
    requires ValidConfig(c) && Boundary(s) && Connected(s, q) && Connected(s, k) && !e.Tick? && !e.Hello? && e.k == q
    requires Connected(ClientStep(c, s, q, e), k)
    ensures ClientStep(c, s, q, e).players[k].value.lives == s.players[k].value.lives
  {
    match e
    case Bye(_) => RemoveStays(s, MAXOBJS, MAXOBJS, q, k);
    case PingOut(_) => RemoveStays(s, MAXOBJS, MAXOBJS, q, k);
    case TeamRequest(_, team) =>
      TeamedPlayers(s, MAXOBJS, -1);
      if team <= 2 { OrderedLives(s.players[q := Some(s.players[q].value.(team := team))], k); }
    case MatchStop(_) => LeaveLives(s.players, 0, k);
    case _ =>
  }

  /** No message costs a life. */
  lemma MessageLives(c: Config, s: State, e: Input, k: nat)
    requires ValidConfig(c) && Boundary(s) && !e.Tick? && Connected(s, k) && Connected(Step(c, s, e), k)
    ensures Step(c, s, e).players[k].value.lives == s.players[k].value.lives
  {
    if e.Hello? {
      TeamedPlayers(s, MAXOBJS, -1);
      var q := FirstSlot(s.players, 0);
      if q < MAXCLIENTS && !e.spectator { OrderedLives(s.players[q := Some(NewPlayer(c, e.spectator))], k); }
    } else if Connected(s, e.k) {
      ClientLives(c, s, e.k, e, k);
    }
  }

  /** A player that starts with any lives always has some left while it stays, and if they are
      counted they never rise. */
  lemma {:induction false} LivesLast(c: Config, powerups: seq<PowerSpawn>, states: seq<State>, inputs: seq<Input>,
                                     k: nat, a: nat, b: nat)
    requires ValidConfig(c) && Tenure(c, powerups, states, inputs, k, a, b) && states[a].players[k].value.lives != 0
    ensures states[b].players[k].Some?
    ensures var was, now := states[a].players[k].value.lives, states[b].players[k].value.lives;
            if was < 0 then now == was else 1 <= now <= was
    decreases b - a
  {
    assert Connected(states[a], k) && Connected(states[b], k);
    if a < b {
      hide Frame, Step, Boundary, Init;
      var n := b - 1;
      TenureStep(c, powerups, states, inputs, k, a, b, n);
      assert Connected(states[n], k);
      LivesLast(c, powerups, states, inputs, k, a, n);
      StepLives(c, states[n], inputs[n], k);
    }
  }

  lemma StepLives(c: Config, s: State, e: Input, k: nat)
    requires ValidConfig(c) && Boundary(s) && Connected(s, k) && s.players[k].value.lives != 0
    requires Connected(Step(c, s, e), k) && !Step(c, s, e).players[k].value.flags.spectator
    ensures var was, now := s.players[k].value.lives, Step(c, s, e).players[k].value.lives;
            if was < 0 then now == was else 1 <= now <= was
  {
    hide Frame, Boundary;
    if e.Tick? { FrameLives(c, s, e.lost, k); } else { MessageLives(c, s, e, k); }
  }
}
