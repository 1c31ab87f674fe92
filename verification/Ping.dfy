/** The ping counters of the server (server/ctfsocket.c, doPing and getMessage). */
module Ping {
  const MAXRSPMISS := 4
  const PINGFRAMES := 60
  const MAXCLIENTS := 16

  datatype Counters = Counters(frames: nat, rspmiss: nat)

  /** What `doPing` does about one client. */
  datatype Outcome = Nothing | Pinged | Removed

  function Tick(c: Counters): (Counters, Outcome) {
    if c.rspmiss > MAXRSPMISS then (c, Removed)
    else if c.frames > PINGFRAMES then (Counters(0, c.rspmiss + 1), Pinged)
    else (Counters(c.frames + 1, c.rspmiss), Nothing)
  }

  // ---- the history of one client

  /** A call to `doPing` with the client matchmaking or running, one with the client doing
      neither, and a datagram from the client. */
  datatype Event = Call | Idle | Datagram

  /** How many calls have gone by since the client was heard. */
  function Silent(es: seq<Event>): (n: nat)
    ensures n <= |es|
  {
    if es == [] then 0
    else match es[|es| - 1]
         case Call => Silent(es[..|es| - 1]) + 1
         case Idle => Silent(es[..|es| - 1])
         case Datagram => 0
  }

  datatype Client = Connected(c: Counters) | Gone

  function After(es: seq<Event>): Client {
    if es == [] then Connected(Counters(0, 0))
    else
      var before := After(es[..|es| - 1]);
      if before.Gone? then Gone
      else match es[|es| - 1]
           case Call => if Tick(before.c).1.Removed? then Gone else Connected(Tick(before.c).0)
           case Idle => before
           case Datagram => Connected(Counters(0, 0))
  }

  /** Somewhere in the history there are 311 calls with nothing heard between them. */
  ghost predicate PangOut(es: seq<Event>) { exists k :: 0 <= k <= |es| && Silent(es[..k]) == 311 }

  lemma PangOutSnoc(es: seq<Event>, e: Event)
    ensures PangOut(es + [e]) <==> PangOut(es) || Silent(es + [e]) == 311
  {
    hide Silent;
    var t := es + [e];
    assert t[..|t|] == t;
    assert forall k :: 0 <= k <= |es| ==> t[..k] == es[..k];
  }

  /** The counters spell the number of silent calls out, and a client is removed exactly when it
      lets the 311th silent call come. */
  lemma {:induction false} PingExact(es: seq<Event>)
    ensures After(es).Gone? <==> PangOut(es)
    ensures After(es).Connected? ==>
              var c := After(es).c;
              && Silent(es) == 62 * c.rspmiss + c.frames <= 310
              && c.frames <= 61
  {
    if es == [] {
      assert forall k :: 0 <= k <= |es| ==> Silent(es[..k]) == 0;
    } else {
      var l := |es| - 1;
      assert es == es[..l] + [es[l]];
      PingExact(es[..l]);
      PangOutSnoc(es[..l], es[l]);
    }
  }

  /** A new client that says nothing is silent for as many calls as there are. */
  lemma {:induction false} SilentCalls(n: nat)
    ensures Silent(seq(n, _ => Call)) == n
  {
    if n > 0 {
      SilentCalls(n - 1);
      assert seq(n, _ => Call)[..n - 1] == seq(n - 1, _ => Call);
    }
  }

  /** A ping goes out at the 62nd silent call and every 62 calls after it. */
  lemma PingTimes(es: seq<Event>)
    requires After(es).Connected?
    ensures Tick(After(es).c).1.Pinged? <==> Silent(es + [Call]) % 62 == 0
    ensures Tick(After(es).c).1.Removed? <==> Silent(es + [Call]) == 311
  {
    PingExact(es);
    SilentCall(es);
    PingDue(After(es).c);
  }

  lemma SilentCall(es: seq<Event>)
    ensures Silent(es + [Call]) == Silent(es) + 1
  {
    assert (es + [Call])[..|es|] == es;
  }

  lemma PingDue(c: Counters)
    requires c.frames <= 61 && c.rspmiss <= 5 && 62 * c.rspmiss + c.frames <= 310
    ensures Tick(c).1.Pinged? <==> (62 * c.rspmiss + c.frames + 1) % 62 == 0
    ensures Tick(c).1.Removed? <==> 62 * c.rspmiss + c.frames == 310
  {
    var n := 62 * c.rspmiss + c.frames + 1;
    if c.frames == 61 {
      assert n == 62 * (c.rspmiss + 1);
    } else {
      assert n == 62 * c.rspmiss + (c.frames + 1);
    }
  }

  /** `pingdata` and which clients are there. */
  class PingData {
    const frames: array<nat>
    const rspmiss: array<nat>

    ghost predicate Valid() { frames.Length == MAXCLIENTS && rspmiss.Length == MAXCLIENTS && frames != rspmiss }

    ghost function At(i: nat): Counters
      requires Valid() && i < MAXCLIENTS
      reads frames, rspmiss
    {
      Counters(frames[i], rspmiss[i])
    }

    constructor ()
      ensures Valid() && forall i :: 0 <= i < MAXCLIENTS ==> At(i) == Counters(0, 0)
    {
      frames := new nat[MAXCLIENTS](_ => 0);
      rspmiss := new nat[MAXCLIENTS](_ => 0);
    }

    /** A new client, or any datagram from a known one. */
    method Reset(clientid: nat)
      requires Valid() && clientid < MAXCLIENTS
      modifies frames, rspmiss
      ensures At(clientid) == Counters(0, 0)
      ensures forall i :: 0 <= i < MAXCLIENTS && i != clientid ==> At(i) == old(At(i))
    {
      frames[clientid] := 0;
      rspmiss[clientid] := 0;
    }

    /** `doPing`. Removing a client leaves its counters for the next one in its slot to reset. */
    method DoPing(flagged: seq<bool>) returns (outcome: seq<Outcome>)
      requires Valid() && |flagged| == MAXCLIENTS
      modifies frames, rspmiss
      ensures |outcome| == MAXCLIENTS
      ensures forall i :: 0 <= i < MAXCLIENTS ==>
                (At(i), outcome[i]) == if flagged[i] then Tick(old(At(i))) else (old(At(i)), Nothing)
    {
      outcome := [];
      for i := 0 to MAXCLIENTS
        invariant |outcome| == i
        invariant forall j :: 0 <= j < i ==>
                    (At(j), outcome[j]) == if flagged[j] then Tick(old(At(j))) else (old(At(j)), Nothing)
        invariant forall j :: i <= j < MAXCLIENTS ==> At(j) == old(At(j))
      {
        if flagged[i] {
          if rspmiss[i] > MAXRSPMISS {
            outcome := outcome + [Removed];
            continue;
          }
          if frames[i] > PINGFRAMES {
            outcome := outcome + [Pinged];
            frames[i] := 0;
            rspmiss[i] := rspmiss[i] + 1;
            continue;
          }
          frames[i] := frames[i] + 1;
        }
        outcome := outcome + [Nothing];
      }
    }
  }
}
