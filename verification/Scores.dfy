/** The score and the end of a match (object.c `flagCaptured`, endgame.c). */
module Scores {
  import opened CtfServ
  import opened Game

  /** Neither the score nor the end of the match is touched. */
  predicate SameScore(s: State, t: State) { t.teamscore == s.teamscore && t.gameOver == s.gameOver }

  /** Nor is the clock. */
  predicate SameMatch(s: State, t: State) {
    SameScore(s, t) && t.running == s.running && t.timeRemaining == s.timeRemaining
  }

  // ---- what does not score

  lemma {:induction false} UpdateScore(s: State, i: nat)
    requires i <= MAXOBJS
    ensures SameMatch(s, UpdateFrom(s, i))
    decreases MAXOBJS - i
  {
    if i < MAXOBJS { UpdateScore(UpdateSlot(s, i), i + 1); }
  }

  lemma {:induction false} SpawnScore(s: State, n: nat)
    requires n <= |s.powerups|
    ensures SameMatch(s, SpawnTicks(s, n))
    decreases |s.powerups| - n
  {
    if n < |s.powerups| { SpawnScore(SpawnTick(s, n), n + 1); }
  }

  lemma {:induction false} PairsScore(c: Config, s: State, i: nat, j: nat)
    requires ValidConfig(c) && i < j <= MAXOBJS
    ensures SameMatch(s, PairsFrom(c, s, i, j))
    decreases MAXOBJS - i, MAXOBJS - j
  {
    hide Bump;
    if j < MAXOBJS { PairsScore(c, CollidePair(c, s, i, j), i, j + 1); }
    else if i + 2 < MAXOBJS { PairsScore(c, s, i + 1, i + 2); }
  }

  lemma {:induction false} DestructScore(c: Config, s: State, i: nat)
    requires i <= MAXOBJS
    ensures SameMatch(s, DestructFrom(c, s, i))
    decreases MAXOBJS - i
  {
    if i < MAXOBJS { DestructScore(c, DestructSlot(c, s, i), i + 1); }
  }

  lemma {:induction false} ViewsScore(s: State, k: nat)
    requires k <= MAXCLIENTS
    ensures SameMatch(s, ViewsFrom(s, k))
    decreases MAXCLIENTS - k
  {
    if k < MAXCLIENTS {
      ViewsScore(if s.players[k] == None then s
          else PutPlayer(s, k, ViewTick(s.players[k].value, TankOf(s, s.players[k].value))), k + 1);
    }
  }

  lemma {:induction false} VanishScore(s: State, q: nat, i: nat)
    requires i <= MAXOBJS
    ensures SameMatch(s, VanishFrom(s, q, i))
    decreases MAXOBJS - i
  {
    if i < MAXOBJS { VanishScore(VanishSlot(s, q, i), q, i + 1); }
  }

  lemma RemoveScore(s: State, q: nat)
    requires Connected(s, q)
    ensures SameMatch(s, RemoveClient(s, q))
  {
    VanishScore(s, q, 0);
  }

  lemma {:induction false} SendScore(s: State, lost: set<nat>, k: nat)
    requires k <= MAXCLIENTS
    ensures SameMatch(s, SendFrom(s, lost, k))
    decreases MAXCLIENTS - k
  {
    if k < MAXCLIENTS {
      hide RemoveClient;
      if s.players[k].Some? && k in lost {
        RemoveScore(s, k);
        SendScore(RemoveClient(s, k), lost, k + 1);
      } else {
        SendScore(s, lost, k + 1);
      }
    }
  }

  lemma {:induction false} CleanScore(c: Config, s: State, i: nat)
    requires i <= MAXOBJS
    ensures SameMatch(s, CleanFrom(c, s, i))
    decreases MAXOBJS - i
  {
    if i < MAXOBJS { CleanScore(c, CleanSlot(c, s, i), i + 1); }
  }

  lemma {:induction false} BuryScore(s: State, k: nat)
    requires k <= MAXCLIENTS
    ensures SameMatch(s, BuryFrom(s, k))
    decreases MAXCLIENTS - k
  {
    if k < MAXCLIENTS {
      hide RemoveClient;
      if s.players[k].Some? && s.players[k].value.flags.dead {
        RemoveScore(s, k);
        BuryScore(RemoveClient(s, k), k + 1);
      } else {
        BuryScore(s, k + 1);
      }
    }
  }

  // ---- goals

  /** The team's score went past the winning score, or up to it. */
  predicate Reached(c: Config, s: State, t: State, team: int) {
    0 < c.winningScore && ScoreOf(s, team) < c.winningScore <= ScoreOf(t, team)
  }

  predicate NoLess(s: State, t: State) { s.teamscore.0 <= t.teamscore.0 && s.teamscore.1 <= t.teamscore.1 }

  /** One slot scores at most one goal, and ends the match exactly if that is the winning one. */
  lemma SlotScore(c: Config, s: State, i: nat)
    requires ValidConfig(c) && i < MAXOBJS
    ensures var t := MapSlot(c, s, i);
            && NoLess(s, t) && t.teamscore.0 + t.teamscore.1 <= s.teamscore.0 + s.teamscore.1 + 1
            && t.running == s.running && t.timeRemaining == s.timeRemaining
            && (t.gameOver <==> s.gameOver || Reached(c, s, t, 0) || Reached(c, s, t, 1))
  {
    hide Crash, AtHome, EndMatchFrom;
  }

  lemma {:induction false} MapScore(c: Config, s: State, i: nat)
    requires ValidConfig(c) && i <= MAXOBJS
    ensures var t := MapFrom(c, s, i);
            && NoLess(s, t) && (t.gameOver <==> s.gameOver || Reached(c, s, t, 0) || Reached(c, s, t, 1))
            && t.running == s.running && t.timeRemaining == s.timeRemaining
    decreases MAXOBJS - i
  {
    if i < MAXOBJS {
      hide MapSlot;
      SlotScore(c, s, i);
      MapScore(c, MapSlot(c, s, i), i + 1);
    }
  }

  /** The updates of a frame end the match exactly if they bring some team to the winning score. */
  lemma WonExactly(c: Config, s: State)
    requires ValidConfig(c)
    ensures var m := DoObjectUpdates(c, s);
            && NoLess(s, m) && (m.gameOver <==> s.gameOver || Reached(c, s, m, 0) || Reached(c, s, m, 1))
            && m.running == s.running && m.timeRemaining == s.timeRemaining
  {
    hide UpdateFrom, SpawnTicks, MapFrom, PairsFrom, DestructFrom;
    var s1 := UpdateFrom(s, 0);
    var s2 := SpawnTicks(s1, 0);
    var s3 := MapFrom(c, s2, 0);
    UpdateScore(s, 0);
    SpawnScore(s1, 0);
    MapScore(c, s2, 0);
    PairsScore(c, s3, 0, 1);
    DestructScore(c, PairsFrom(c, s3, 0, 1), 0);
  }

  predicate BelowWinning(c: Config, s: State) {
    0 < c.winningScore ==> s.teamscore.0 < c.winningScore && s.teamscore.1 < c.winningScore
  }

  /** After a frame the score is what the updates made it, or back to nil because the match is over. */
  lemma FrameScore(c: Config, s: State, lost: set<nat>)
    requires ValidConfig(c) && BelowWinning(c, s)
    ensures var t, m := Frame(c, s, lost), DoObjectUpdates(c, s);
            && BelowWinning(c, t) && (t.teamscore == m.teamscore || t.teamscore == (0, 0))
            && (Reached(c, s, m, 0) || Reached(c, s, m, 1) ==> t.teamscore == (0, 0) && !t.running)
  {
    hide DoObjectUpdates, ViewsFrom, SendFrom, CleanFrom, BuryFrom, ResetGame, EndMatchFrom;
    WonExactly(c, s);
    var s1 := ViewsFrom(DoObjectUpdates(c, s), 0);
    var s2 := SendFrom(TimeTick(c, s1), lost, 0);
    var s3 := CleanFrom(c, s2, 0);
    ViewsScore(DoObjectUpdates(c, s), 0);
    SendScore(TimeTick(c, s1), lost, 0);
    CleanScore(c, s2, 0);
    BuryScore(s3, 0);
    ResetScore(c, BuryFrom(s3, 0));
    ResetScore(c, BuryFrom(s3, 0).(gameOver := true));
  }

  lemma ResetScore(c: Config, s: State)
    requires ValidConfig(c)
    ensures ResetGame(c, s).teamscore == (0, 0) && !ResetGame(c, s).running && !ResetGame(c, s).gameOver
    ensures ResetGame(c, s).timeRemaining == c.timeLimit
  {
    hide EvictFrom;
    RestartScore(c, CreateFlags(c, Cleared(c, EvictFrom(s, 0))), 0);
  }

  lemma {:induction false} RestartScore(c: Config, s: State, n: nat)
    requires n <= |s.powerups|
    ensures SameMatch(s, RestartAll(c, s, n))
    decreases |s.powerups| - n
  {
    if n < |s.powerups| { RestartScore(c, RestartSpawn(c, s, n), n + 1); }
  }

  /** A player, not a spectator, starts to play. */
  predicate Starts(s: State, e: Input) { e.Start? && Connected(s, e.k) && !s.players[e.k].value.flags.spectator }

  /** No message scores or turns the clock, and one that has a player start sets it going. */
  lemma MessageScore(c: Config, s: State, e: Input)
    requires ValidConfig(c) && !e.Tick?
    ensures SameScore(s, Step(c, s, e)) && Step(c, s, e).timeRemaining == s.timeRemaining
    ensures Step(c, s, e).running <==> s.running || Starts(s, e)
  {
    hide RemoveClient;
    if !e.Hello? && Connected(s, e.k) { RemoveScore(s, e.k); }
  }
}
