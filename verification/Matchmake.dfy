/** Team numbers and the count of players (matchmake.c, `orderTeams`). */
module Matchmake {
  import opened CtfServ
  import opened Game

  predicate SameButNumber(p: Player, q: Player) { q == p.(playernum := q.playernum) }

  /** How many players of `team` sit in the slots below `k`. */
  function TeamBelow(players: PlayerList, team: nat, k: nat): nat
    requires k <= MAXCLIENTS
    decreases players, k
  {
    if k == 0 then 0
    else TeamBelow(players, team, k - 1) + (if players[k - 1].Some? && players[k - 1].value.team == team then 1 else 0)
  }

  /** `orderTeams` gives every player the number of team mates in lower slots, and changes nothing else. */
  predicate InOrder(players: PlayerList, k: nat)
    requires k <= MAXCLIENTS
  {
    forall j :: 0 <= j < k && players[j].Some? ==>
        players[j].value.playernum == TeamBelow(players, players[j].value.team, j)
  }

  predicate SameTeams(players: PlayerList, players': PlayerList) {
    forall j :: 0 <= j < MAXCLIENTS ==>
      && (players[j].Some? <==> players'[j].Some?)
      && (players[j].Some? ==> SameButNumber(players[j].value, players'[j].value))
  }

  lemma TeamBelowSame(players: PlayerList, players': PlayerList, team: nat, k: nat)
    requires k <= MAXCLIENTS && SameTeams(players, players')
    ensures TeamBelow(players', team, k) == TeamBelow(players, team, k)
  {
  }

  predicate Teamed(players: PlayerList) {
    forall j :: 0 <= j < MAXCLIENTS && players[j].Some? ==> players[j].value.team <= 2
  }

  predicate CountsBelow(players: PlayerList, k: nat, n: seq<nat>)
    requires k <= MAXCLIENTS
  {
    |n| == 3 && forall t :: 0 <= t < 3 ==> n[t] == TeamBelow(players, t, k)
  }

  lemma Renumbered(players: PlayerList, k: nat, m: nat)
    requires k < MAXCLIENTS && players[k].Some? && InOrder(players, k)
    requires m == TeamBelow(players, players[k].value.team, k)
    ensures InOrder(players[k := Some(players[k].value.(playernum := m))], k + 1)
    ensures forall t: nat, j: nat :: t < 3 && j <= MAXCLIENTS ==>
              TeamBelow(players[k := Some(players[k].value.(playernum := m))], t, j) == TeamBelow(players, t, j)
  {
    var players' := players[k := Some(players[k].value.(playernum := m))];
    forall t: nat, j: nat | j <= MAXCLIENTS ensures TeamBelow(players', t, j) == TeamBelow(players, t, j) {
      TeamBelowSame(players, players', t, j);
    }
  }

  lemma OrderTeamsCounts(players: PlayerList, k: nat, n: seq<nat>)
    requires k <= MAXCLIENTS && InOrder(players, k) && Teamed(players) && CountsBelow(players, k, n)
    ensures InOrder(OrderTeams(players, k, n), MAXCLIENTS) && SameTeams(players, OrderTeams(players, k, n))
    decreases MAXCLIENTS - k
  {
    if k < MAXCLIENTS {
      if players[k].None? {
        OrderTeamsCounts(players, k + 1, n);
      } else {
        var p := players[k].value;
        Renumbered(players, k, n[p.team]);
        OrderTeamsCounts(players[k := Some(p.(playernum := n[p.team]))], k + 1, n[p.team := n[p.team] + 1]);
      }
    }
  }

  lemma TeamBelowMonotone(players: PlayerList, team: nat, j: nat, k: nat)
    requires j <= k <= MAXCLIENTS
    ensures TeamBelow(players, team, j) <= TeamBelow(players, team, k)
  {
    if j < k { TeamBelowMonotone(players, team, j, k - 1); }
  }

  /** After `orderTeams` a team's numbers are 0, 1, 2, ... in slot order, so no two are equal. */
  lemma OrderedTeams(players: PlayerList)
    requires Teamed(players)
    ensures InOrder(Ordered(players), MAXCLIENTS) && SameTeams(players, Ordered(players)) && Numbered(Ordered(players))
  {
    OrderTeamsCounts(players, 0, [0, 0, 0]);
    var ps := Ordered(players);
    forall j, k | 0 <= j < k < MAXCLIENTS && ps[j].Some? && ps[k].Some? && ps[j].value.team == ps[k].value.team < 2
      ensures ps[j].value.playernum != ps[k].value.playernum
    {
      TeamBelowMonotone(ps, ps[k].value.team, j + 1, k);
    }
  }

  // ---- counting players

  lemma CountWithout(players: PlayerList, k: nat, j: nat)
    requires k < MAXCLIENTS && j <= MAXCLIENTS && players[k].Some?
    ensures PlayersFrom(players[k := None], j) ==
            PlayersFrom(players, j) - if j <= k && !players[k].value.flags.spectator then 1 else 0
    decreases MAXCLIENTS - j
  {
    if j < MAXCLIENTS { CountWithout(players, k, j + 1); }
  }

  lemma SameTeamsCount(players: PlayerList, players': PlayerList)
    requires SameTeams(players, players')
    ensures PlayersFrom(players', 0) == PlayersFrom(players, 0)
  {
    SameNumbers(players, players', 0);
  }

  lemma SameNumbers(players: PlayerList, players': PlayerList, k: nat)
    requires k <= MAXCLIENTS
    requires forall j :: 0 <= j < MAXCLIENTS ==>
      && (players[j].Some? <==> players'[j].Some?)
      && (players[j].Some? ==> players'[j].value.flags.spectator == players[j].value.flags.spectator)
    ensures PlayersFrom(players', k) == PlayersFrom(players, k)
    decreases MAXCLIENTS - k
  {
    if k < MAXCLIENTS { SameNumbers(players, players', k + 1); }
  }

  function PlayersFrom(players: PlayerList, k: nat): nat
    requires k <= MAXCLIENTS
    decreases |players| - k
  {
    if k == MAXCLIENTS then 0
    else (if players[k].Some? && !players[k].value.flags.spectator then 1 else 0) + PlayersFrom(players, k + 1)
  }

  /** No two players of a team share a number. */
  predicate Numbered(players: PlayerList) {
    forall j, k :: 0 <= j < k < MAXCLIENTS && players[j].Some? && players[k].Some?
                   && players[j].value.team == players[k].value.team < 2 ==>
                     players[j].value.playernum != players[k].value.playernum
  }

  predicate Roster(players: PlayerList, count: int) { count == PlayersFrom(players, 0) && Numbered(players) }

  /** A change to one player's record that leaves its team, number and role alone. */
  lemma RosterKept(players: PlayerList, k: nat, q: Player, count: int)
    requires k < MAXCLIENTS && players[k].Some? && Roster(players, count)
    requires q.team == players[k].value.team && q.playernum == players[k].value.playernum
    requires q.flags.spectator == players[k].value.flags.spectator
    ensures Roster(players[k := Some(q)], count)
  {
    SameNumbers(players, players[k := Some(q)], 0);
  }

  lemma SameTeamsSelf(players: PlayerList)
    ensures SameTeams(players, players)
  {
  }
}
