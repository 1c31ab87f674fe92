/** The score over a match: as long as anybody stays on, each team has exactly the goals that its own
    carriers have brought home (object.c `flagCaptured`). */
module GoalRuns {
  import opened CtfServ
  import opened Game
  import opened GameInvariant
  import opened Runs
  import opened Scores
  import opened LifeCycle
  import opened TankRuns
  import opened Captures

  lemma BoundaryTeamwork(s: State)
    requires Boundary(s)
    ensures Teamwork(s.objs)
  {
    forall k | 0 <= k < MAXOBJS && s.objs[k].Some? && s.objs[k].value.flags.hasFlag
      ensures 0 <= s.objs[k].value.team < 2
    {
      assert SlotOk(s, MAXOBJS, MAXOBJS, k);
    }
  }

  /** A frame in which player `k` stays adds the goals of its homecomings. */
  lemma GoalsInFrame(c: Config, s: State, lost: set<nat>, k: nat)
    requires ValidConfig(c) && Boundary(s) && k < MAXCLIENTS
    requires Frame(c, s, lost).players[k].Some? && !Frame(c, s, lost).players[k].value.flags.spectator
    ensures Frame(c, s, lost).teamscore ==
            (s.teamscore.0 + |Homecoming(c, s, 0)|, s.teamscore.1 + |Homecoming(c, s, 1)|)
  {
    FrameBuried(c, s, lost, k);
    BoundaryTeamwork(s);
    FrameGoals(c, s);
    hide DoObjectUpdates, ViewsFrom, SendFrom, CleanFrom, BuryFrom, EndMatchFrom, Frame, Homecoming, Boundary;
    var m := DoObjectUpdates(c, s);
    ViewsScore(m, 0);
    SendScore(TimeTick(c, ViewsFrom(m, 0)), lost, 0);
    CleanScore(c, Sent(c, s, lost), 0);
    BuryScore(CleanFrom(c, Sent(c, s, lost), 0), 0);
  }

  /** The homecomings for `team` in the frames among the inputs from `a` up to `b`. */
  ghost function Goals(c: Config, states: seq<State>, inputs: seq<Input>, team: nat, a: nat, b: nat): nat
    requires ValidConfig(c) && team < 2 && a <= b <= |inputs| && |states| == |inputs| + 1
    decreases b - a
  {
    if a == b then 0
    else Goals(c, states, inputs, team, a, b - 1) +
         if inputs[b - 1].Tick? then |Homecoming(c, states[b - 1], team)| else 0
  }

  lemma GoalsInStep(c: Config, s: State, e: Input, k: nat)
    requires ValidConfig(c) && Boundary(s) && Connected(Step(c, s, e), k)
    requires !Step(c, s, e).players[k].value.flags.spectator
    ensures Step(c, s, e).teamscore ==
            if e.Tick? then (s.teamscore.0 + |Homecoming(c, s, 0)|, s.teamscore.1 + |Homecoming(c, s, 1)|)
            else s.teamscore
  {
    hide Frame, Homecoming, Boundary, ClientStep;
    if e.Tick? { GoalsInFrame(c, s, e.lost, k); } else { MessageScore(c, s, e); }
  }

  /** While player `k` is here no goal is lost, made up or given to the other team. */
  lemma {:induction false} GoalsInRun(c: Config, powerups: seq<PowerSpawn>, states: seq<State>, inputs: seq<Input>,
                                      k: nat, a: nat, b: nat)
    requires ValidConfig(c) && Tenure(c, powerups, states, inputs, k, a, b)
    ensures states[b].teamscore.0 == states[a].teamscore.0 + Goals(c, states, inputs, 0, a, b)
    ensures states[b].teamscore.1 == states[a].teamscore.1 + Goals(c, states, inputs, 1, a, b)
    decreases b - a
  {
    hide Boundary, Step, Homecoming;
    if a < b {
      TenureStep(c, powerups, states, inputs, k, a, b, b - 1);
      GoalsInRun(c, powerups, states, inputs, k, a, b - 1);
      GoalsInStep(c, states[b - 1], inputs[b - 1], k);
    }
  }
}
