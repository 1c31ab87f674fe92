/** The client's sprite table against the server's objects, frame after frame. */
module SpriteRuns {
  import opened CtfServ
  import opened Game
  import opened Matchmake
  import opened GameInvariant
  import opened FrameInvariant
  import opened LeavingInvariant
  import opened RunInvariant
  import opened Runs
  import opened Tracking
  import opened LifeCycle
  import opened TankRuns
  import opened Sprites

  // ---- viewports stay

  predicate SameViews(players: PlayerList, players': PlayerList) {
    forall k :: 0 <= k < MAXCLIENTS && players[k].Some? && players'[k].Some? ==>
        players'[k].value.view == players[k].value.view && players'[k].value.vpcframes == players[k].value.vpcframes
  }

  lemma EndMatchViews(players: PlayerList, k: nat)
    requires k <= MAXCLIENTS
    ensures SameViews(players, EndMatchFrom(players, k))
    decreases MAXCLIENTS - k
  {
    if k < MAXCLIENTS {
      if players[k].Some? && !players[k].value.flags.spectator {
        EndMatchViews(players[k := Some(Quit(players[k].value, false))], k + 1);
      } else {
        EndMatchViews(players, k + 1);
      }
    }
  }

  lemma MapViews(c: Config, s: State, i: nat)
    requires ValidConfig(c) && i <= MAXOBJS
    ensures SameViews(s.players, MapFrom(c, s, i).players) && SameStandings(s.players, MapFrom(c, s, i).players)
    decreases MAXOBJS - i
  {
    if i < MAXOBJS {
      EndMatchViews(s.players, 0);
      MapSlotPlayers(c, s, i);
      MapViews(c, MapSlot(c, s, i), i + 1);
      StandTrans(s.players, MapSlot(c, s, i).players, MapFrom(c, s, i).players);
    }
  }

  lemma UpdatesView(c: Config, s: State, k: nat)
    requires ValidConfig(c) && Boundary(s) && Connected(s, k)
    ensures DoObjectUpdates(c, s).players[k].Some?
    ensures DoObjectUpdates(c, s).players[k].value.view == s.players[k].value.view
    ensures DoObjectUpdates(c, s).players[k].value.vpcframes == s.players[k].value.vpcframes
    ensures DoObjectUpdates(c, s).players[k].value.flags.spectator ==> s.players[k].value.flags.spectator
  {
    StartFrame(s);
    UpdateInv(s, -1, 0);
    SpawnTicksInv(UpdateFrom(s, 0), -1, 0);
    var s1 := SpawnTicks(UpdateFrom(s, 0), 0);
    UpdateFromPlayers(s, 0);
    SpawnTicksPlayers(UpdateFrom(s, 0), 0);
    MapInv(c, s1, 0);
    MapViews(c, s1, 0);
    PairsInv(c, MapFrom(c, s1, 0), 0, 1);
    PairsPlayers(c, MapFrom(c, s1, 0), 0, 1);
    PlayersThrough(c, s);
    DestructLives(c, BeforeDestruction(c, s), 0, k);
  }

  lemma ViewsView(s: State, n: nat, k: nat)
    requires n <= MAXCLIENTS && k < MAXCLIENTS && s.players[k].Some?
    ensures ViewsFrom(s, n).players[k].Some? && ViewsFrom(s, n).players[k].value.view == s.players[k].value.view
    decreases MAXCLIENTS - n
  {
    if n < MAXCLIENTS {
      if s.players[n] == None { ViewsView(s, n + 1, k); }
      else { ViewsView(PutPlayer(s, n, ViewTick(s.players[n].value, TankOf(s, s.players[n].value))), n + 1, k); }
    }
  }

  lemma CleanView(c: Config, s: State, n: nat, k: nat)
    requires n <= MAXOBJS && k < MAXCLIENTS && s.players[k].Some?
    ensures CleanFrom(c, s, n).players[k].Some? && CleanFrom(c, s, n).players[k].value.view == s.players[k].value.view
    decreases MAXOBJS - n
  {
    if n < MAXOBJS { CleanView(c, CleanSlot(c, s, n), n + 1, k); }
  }

  // ---- objects stay in their place

  predicate InPlace(o: Option<Obj>, m: Option<Obj>) {
    o.Some? ==> m.Some? && m.value.x == o.value.x && m.value.y == o.value.y
  }

  lemma VanishPlace(s: State, q: nat, i: nat, j: nat)
    requires i <= MAXOBJS && j < MAXOBJS
    ensures InPlace(s.objs[j], VanishFrom(s, q, i).objs[j])
    decreases MAXOBJS - i
  {
    if i < MAXOBJS {
      if s.objs[j].Some? && s.objs[i].Some? {
        var o := s.objs[i].value;
        AddAt(s, NewObject(Flag, OtherTeam(o.team), o.x, o.y, NoDestructor), j);
      }
      VanishPlace(VanishSlot(s, q, i), q, i + 1, j);
    }
  }

  lemma RemovePlace(s: State, q: nat, j: nat)
    requires q < MAXCLIENTS && s.players[q].Some? && j < MAXOBJS
    ensures InPlace(s.objs[j], RemoveClient(s, q).objs[j])
  {
    VanishPlace(s, q, 0, j);
  }

  lemma BuryPlace(s: State, n: nat, j: nat)
    requires n <= MAXCLIENTS && j < MAXOBJS
    ensures InPlace(s.objs[j], BuryFrom(s, n).objs[j])
    decreases MAXCLIENTS - n
  {
    if n < MAXCLIENTS {
      if s.players[n].Some? && s.players[n].value.flags.dead {
        RemovePlace(s, n, j);
        BuryPlace(RemoveClient(s, n), n + 1, j);
      } else {
        BuryPlace(s, n + 1, j);
      }
    }
  }

  // ---- clients cut off

  /** The object belongs to one of the clients that could not be sent to. */
  predicate CutOff(lost: set<nat>, o: Obj) { o.owner >= 0 && o.owner in lost }

  lemma SendKeeps(s: State, lost: set<nat>, n: nat, j: nat)
    requires n <= MAXCLIENTS && j < MAXOBJS && s.objs[j].Some? && !CutOff(lost, s.objs[j].value)
    ensures SendFrom(s, lost, n).objs[j] == s.objs[j]
    decreases MAXCLIENTS - n
  {
    if n < MAXCLIENTS {
      if s.players[n].Some? && n in lost {
        VanishAt(s, n, 0, j);
        SendKeeps(RemoveClient(s, n), lost, n + 1, j);
      } else {
        SendKeeps(s, lost, n + 1, j);
      }
    }
  }

  lemma SendGone(s: State, lost: set<nat>, n: nat, q: nat)
    requires n <= q < MAXCLIENTS && q in lost && Inv(s, MAXOBJS, 0, -1)
    ensures SendFrom(s, lost, n).players[q] == None
    decreases MAXCLIENTS - n
  {
    if s.players[n].Some? && n in lost {
      RemoveInv(s, MAXOBJS, 0, n);
      if n < q {
        SendGone(RemoveClient(s, n), lost, n + 1, q);
      } else {
        RemovedPlayers(s, n);
        TeamedPlayers(s, MAXOBJS, -1);
        OrderedTeams(s.players[n := None]);
        SendStays(RemoveClient(s, n), lost, n + 1, q);
      }
    } else if n < q {
      SendGone(s, lost, n + 1, q);
    } else {
      SendStays(s, lost, n + 1, q);
    }
  }

  function Cleaned(c: Config, s: State, lost: set<nat>): State
    requires ValidConfig(c)
  {
    CleanFrom(c, Sent(c, s, lost), 0)
  }

  /** A live object outlasts the sends and the clean-up of a frame exactly if its owner does. */
  lemma LiveStays(c: Config, s: State, lost: set<nat>, j: nat)
    requires ValidConfig(c) && Boundary(s) && j < MAXOBJS
    requires DoObjectUpdates(c, s).objs[j].Some? && !Gone(DoObjectUpdates(c, s).objs[j].value)
    ensures Cleaned(c, s, lost).objs[j] == DoObjectUpdates(c, s).objs[j] <==>
        !CutOff(lost, DoObjectUpdates(c, s).objs[j].value)
  {
    hide DoObjectUpdates, Boundary, Inv, CleanFrom, SendFrom;
    var m := DoObjectUpdates(c, s);
    ViewsStandings(m, 0);
    TimeStandings(c, ViewsFrom(m, 0));
    if CutOff(lost, m.objs[j].value) {
      OwnerGone(c, s, lost, j);
    } else {
      SendKeeps(TimeTick(c, ViewsFrom(m, 0)), lost, 0, j);
      CleanKeep(c, Sent(c, s, lost), 0, j);
    }
  }

  lemma OwnerGone(c: Config, s: State, lost: set<nat>, j: nat)
    requires ValidConfig(c) && Boundary(s) && j < MAXOBJS && DoObjectUpdates(c, s).objs[j].Some?
    requires CutOff(lost, DoObjectUpdates(c, s).objs[j].value)
    ensures Cleaned(c, s, lost).objs[j] != DoObjectUpdates(c, s).objs[j]
  {
    hide DoObjectUpdates, Boundary, CleanFrom, SendFrom;
    var m := DoObjectUpdates(c, s);
    var q := m.objs[j].value.owner;
    UpdatedOwner(c, s, j);
    BeforeSending(c, s);
    var v := TimeTick(c, ViewsFrom(m, 0));
    SendGone(v, lost, 0, q);
    SentInv(c, s, lost);
    CleanInv(c, Sent(c, s, lost), 0);
    CleanSome(c, Sent(c, s, lost), 0, q);
    assert SlotOk(Cleaned(c, s, lost), MAXOBJS, MAXOBJS, j);
  }

  lemma UpdatedOwner(c: Config, s: State, j: nat)
    requires ValidConfig(c) && Boundary(s) && j < MAXOBJS && DoObjectUpdates(c, s).objs[j].Some?
    ensures DoObjectUpdates(c, s).objs[j].value.owner < MAXCLIENTS
  {
    StartFrame(s);
    UpdatesInv(c, s);
    assert SlotOk(DoObjectUpdates(c, s), MAXOBJS, 0, j);
  }

  lemma BeforeSending(c: Config, s: State)
    requires ValidConfig(c) && Boundary(s)
    ensures Inv(TimeTick(c, ViewsFrom(DoObjectUpdates(c, s), 0)), MAXOBJS, 0, -1)
  {
    hide Inv, DoObjectUpdates;
    StartFrame(s);
    UpdatesInv(c, s);
    ViewsInv(DoObjectUpdates(c, s), MAXOBJS, 0, -1, 0);
    TimeTickInv(c, ViewsFrom(DoObjectUpdates(c, s), 0), -1);
  }

  // ---- the table

  /** Every sprite shown stands for an object that is in the player's view. */
  predicate Backed(t: Table, s: State, k: nat) {
    Connected(s, k) ==>
      forall j :: 0 <= j < MAXOBJS && t[j] ==>
        s.objs[j].Some? && InView(s.objs[j].value.x, s.objs[j].value.y, s.players[k].value.view)
  }

  /** The table shows exactly the live objects in the player's view. */
  predicate Agrees(t: Table, m: State, k: nat) {
    Connected(m, k) ==>
      forall j :: 0 <= j < MAXOBJS ==>
        (t[j] <==>
          && m.objs[j].Some? && InView(m.objs[j].value.x, m.objs[j].value.y, m.players[k].value.view)
          && !Gone(m.objs[j].value))
  }

  predicate TakesUpdates(c: Config, s: State, k: nat)
    requires ValidConfig(c) && k < MAXCLIENTS
  {
    var m := DoObjectUpdates(c, s);
    && m.players[k].Some? && !m.players[k].value.flags.spectator
    && Updating(m.players[k].value, TankOf(m, m.players[k].value))
  }

  predicate IsAsked(c: Config, s: State, k: nat)
    requires ValidConfig(c) && k < MAXCLIENTS
  {
    var m := DoObjectUpdates(c, s);
    && m.players[k].Some? && !m.players[k].value.flags.spectator
    && Asking(m.players[k].value, TankOf(m, m.players[k].value))
  }

  /** After a round of updates the table agrees with the objects, whatever moved, died,
      vanished or took over a slot in this frame. */
  lemma UpdatesAgree(c: Config, s: State, k: nat, t: Table)
    requires ValidConfig(c) && Boundary(s) && Connected(s, k) && Backed(t, s, k) && TakesUpdates(c, s, k)
    ensures Agrees(AppliedAll(t, FrameMsgs(c, s, k)), DoObjectUpdates(c, s), k)
  {
    var m := DoObjectUpdates(c, s);
    UpdatesView(c, s, k);
    forall j | 0 <= j < MAXOBJS
      ensures AppliedAll(t, FrameMsgs(c, s, k))[j] <==>
              m.objs[j].Some? && InView(m.objs[j].value.x, m.objs[j].value.y, m.players[k].value.view)
                  && !Gone(m.objs[j].value)
    {
      ObjectMsgsApplied(m.objs, MAXOBJS, m.players[k].value.view, t, j);
      if s.objs[j].Some? {
        assert SlotOk(s, MAXOBJS, MAXOBJS, j);
        UpdatesAt(c, s, j);
      }
    }
  }

  lemma FrameView(c: Config, s: State, lost: set<nat>, k: nat)
    requires ValidConfig(c) && Boundary(s) && Connected(s, k)
    requires Frame(c, s, lost).players[k].Some? && !Frame(c, s, lost).players[k].value.flags.spectator
    ensures Frame(c, s, lost).players[k].value.view == s.players[k].value.view
  {
    hide Inv, Boundary, DoObjectUpdates, CleanFrom, SendFrom, Frame;
    var m := DoObjectUpdates(c, s);
    UpdatesView(c, s, k);
    ViewsView(m, 0, k);
    var v := ViewsFrom(m, 0);
    EndMatchViews(v.players, 0);
    TimeStandings(c, v);
    BeforeSending(c, s);
    FrameStays(c, s, lost, k);
    SendStays(TimeTick(c, v), lost, 0, k);
    CleanView(c, Sent(c, s, lost), 0, k);
  }

  /** Every sprite shown stands for a live object in the player's view. */
  predicate OnlyLive(t: Table, m: State, k: nat) {
    Connected(m, k) ==>
      forall j :: 0 <= j < MAXOBJS && t[j] ==>
        m.objs[j].Some? && InView(m.objs[j].value.x, m.objs[j].value.y, m.players[k].value.view)
            && !Gone(m.objs[j].value)
  }

  /** No sprite shown belongs to a client that is cut off. */
  predicate NoneCutOff(t: Table, m: State, lost: set<nat>) {
    forall j :: 0 <= j < MAXOBJS && t[j] && m.objs[j].Some? ==> !CutOff(lost, m.objs[j].value)
  }

  /** Objects leave the list without a word to the other players exactly if their owners are cut
      off: everything a player has just been shown is still there after the clean-up, or not. */
  lemma CutOffExact(c: Config, s: State, lost: set<nat>, k: nat, t: Table)
    requires ValidConfig(c) && Boundary(s) && Connected(s, k) && OnlyLive(t, DoObjectUpdates(c, s), k)
    ensures var m := DoObjectUpdates(c, s);
            (forall j :: 0 <= j < MAXOBJS && t[j] ==> Cleaned(c, s, lost).objs[j] == m.objs[j]) <==>
                NoneCutOff(t, m, lost)
  {
    UpdatesView(c, s, k);
    hide DoObjectUpdates, Boundary, Cleaned, CutOff, InView;
    var m, e := DoObjectUpdates(c, s), Cleaned(c, s, lost);
    forall j | 0 <= j < MAXOBJS && t[j]
        ensures m.objs[j].Some? && (e.objs[j] == m.objs[j] <==> !CutOff(lost, m.objs[j].value)) {
      LiveStays(c, s, lost, j);
    }
  }

  /** The same at the end of the frame: an object of a lost client is no longer in its slot, and
      any other is where it was, though its owner may have died and left. */
  lemma CutOffFrame(c: Config, s: State, lost: set<nat>, k: nat, j: nat)
    requires ValidConfig(c) && Boundary(s) && k < MAXCLIENTS && j < MAXOBJS
    requires Frame(c, s, lost).players[k].Some? && !Frame(c, s, lost).players[k].value.flags.spectator
    requires DoObjectUpdates(c, s).objs[j].Some? && !Gone(DoObjectUpdates(c, s).objs[j].value)
    ensures var o, t := DoObjectUpdates(c, s).objs[j], Frame(c, s, lost);
            if CutOff(lost, o.value) then t.objs[j] != o else InPlace(o, t.objs[j])
  {
    hide DoObjectUpdates, Boundary, SendFrom, CleanFrom, Inv, Frame;
    var o := DoObjectUpdates(c, s).objs[j];
    FrameBuried(c, s, lost, k);
    if CutOff(lost, o.value) {
      LostGone(c, s, lost, k, j);
    } else {
      LiveStays(c, s, lost, j);
      BuryPlace(Cleaned(c, s, lost), 0, j);
    }
  }

  lemma LostGone(c: Config, s: State, lost: set<nat>, k: nat, j: nat)
    requires ValidConfig(c) && Boundary(s) && k < MAXCLIENTS && j < MAXOBJS
    requires Frame(c, s, lost).players[k].Some? && !Frame(c, s, lost).players[k].value.flags.spectator
    requires DoObjectUpdates(c, s).objs[j].Some? && CutOff(lost, DoObjectUpdates(c, s).objs[j].value)
    ensures Frame(c, s, lost).objs[j] != DoObjectUpdates(c, s).objs[j]
  {
    hide DoObjectUpdates, SendFrom, CleanFrom, Frame;
    var q := DoObjectUpdates(c, s).objs[j].value.owner;
    UpdatedOwner(c, s, j);
    BeforeSending(c, s);
    SendGone(TimeTick(c, ViewsFrom(DoObjectUpdates(c, s), 0)), lost, 0, q);
    CleanSome(c, Sent(c, s, lost), 0, q);
    FrameBuried(c, s, lost, k);
    SentInv(c, s, lost);
    CleanInv(c, Sent(c, s, lost), 0);
    BuryStays(Cleaned(c, s, lost), 0, q);
    FrameBoundary(c, s, lost);
    assert SlotOk(Frame(c, s, lost), MAXOBJS, MAXOBJS, j);
  }

  lemma LiveBacked(c: Config, s: State, lost: set<nat>, k: nat, t: Table)
    requires ValidConfig(c) && Boundary(s) && Connected(s, k) && OnlyLive(t, DoObjectUpdates(c, s), k)
    requires NoneCutOff(t, DoObjectUpdates(c, s), lost)
    requires Frame(c, s, lost).players[k].Some? && !Frame(c, s, lost).players[k].value.flags.spectator
    ensures Backed(t, Frame(c, s, lost), k)
  {
    UpdatesView(c, s, k);
    FrameView(c, s, lost, k);
    hide DoObjectUpdates, Frame, CutOff, Gone;
    forall j | 0 <= j < MAXOBJS && t[j]
      ensures Frame(c, s, lost).objs[j].Some?
          && InView(Frame(c, s, lost).objs[j].value.x, Frame(c, s, lost).objs[j].value.y,
          Frame(c, s, lost).players[k].value.view)
    {
      CutOffFrame(c, s, lost, k, j);
    }
  }

  // ---- what the buffer lets through

  /** What reaches player `k` of the sprite messages of a frame, when `used` bytes of the
      player's buffer are in use before them. */
  function Received(c: Config, s: State, k: nat, used: nat): seq<Msg>
    requires ValidConfig(c) && k < MAXCLIENTS
  {
    Admit(used, FrameMsgs(c, s, k))
  }

  lemma FrameRound(c: Config, s: State, k: nat)
    requires ValidConfig(c) && k < MAXCLIENTS && TakesUpdates(c, s, k)
    ensures Round(FrameMsgs(c, s, k))
  {
    var m := DoObjectUpdates(c, s);
    ObjectMsgsRound(m.objs, MAXOBJS, m.players[k].value.view);
  }

  /** After a round of updates the table agrees with the objects exactly if no message that the
      buffer refused would have changed it. */
  lemma ReceivedAgree(c: Config, s: State, k: nat, t: Table, used: nat)
    requires ValidConfig(c) && Boundary(s) && Connected(s, k) && Backed(t, s, k) && TakesUpdates(c, s, k)
    ensures Agrees(AppliedAll(t, Received(c, s, k, used)), DoObjectUpdates(c, s), k) <==>
        NoneMissed(used, t, FrameMsgs(c, s, k))
  {
    UpdatesView(c, s, k);
    UpdatesAgree(c, s, k, t);
    FrameRound(c, s, k);
    hide DoObjectUpdates, FrameMsgs, InView, Gone, Admit, AppliedAll, NoneMissed;
    AdmittedSame(used, t, FrameMsgs(c, s, k));
    AgreeUnique(AppliedAll(t, Received(c, s, k, used)), AppliedAll(t, FrameMsgs(c, s, k)), DoObjectUpdates(c, s), k);
  }

  lemma AgreeUnique(t: Table, u: Table, m: State, k: nat)
    requires Connected(m, k) && Agrees(u, m, k)
    ensures Agrees(t, m, k) <==> t == u
  {
    if Agrees(t, m, k) {
      assert forall j :: 0 <= j < MAXOBJS ==> t[j] == u[j];
    }
  }

  /** With enough room for the whole round nothing is missed. */
  lemma RoomForAll(c: Config, s: State, k: nat, t: Table, used: nat)
    requires ValidConfig(c) && k < MAXCLIENTS && used + SizeAll(FrameMsgs(c, s, k)) <= 255
    ensures NoneMissed(used, t, FrameMsgs(c, s, k)) && NoStale(used, t, FrameMsgs(c, s, k))
  {
    hide FrameMsgs;
    AllAdmitted(used, FrameMsgs(c, s, k));
  }

  /** On an empty screen a round of `n` sprites agrees exactly if all of them fit: with an
      otherwise empty buffer, up to 31 of them. */
  lemma FullScreen(c: Config, s: State, k: nat, used: nat)
    requires ValidConfig(c) && Boundary(s) && Connected(s, k) && TakesUpdates(c, s, k) && used <= 255
    requires forall m :: m in FrameMsgs(c, s, k) ==> m.SpriteMsg?
    ensures Agrees(AppliedAll(Empty(), Received(c, s, k, used)), DoObjectUpdates(c, s), k)
            <==> |FrameMsgs(c, s, k)| <= (255 - used) / 8
  {
    FrameRound(c, s, k);
    hide DoObjectUpdates, FrameMsgs, Boundary, Agrees, Received;
    var ms := FrameMsgs(c, s, k);
    var room := (255 - used) / 8;
    ReceivedAgree(c, s, k, Empty(), used);
    SpritesAdmitted(used, ms);
    if |ms| > room {
      var x := ms[room];
      assert x in ms;
      assert x !in ms[..room] by { assert forall i :: 0 <= i < room ==> ms[i].objid != ms[room].objid; }
      RoundEffect(Empty(), x);
    }
  }

  /** What gets through shows only live objects exactly if no removal was refused of a sprite shown. */
  lemma ReceivedLive(c: Config, s: State, k: nat, t: Table, used: nat)
    requires ValidConfig(c) && Boundary(s) && Connected(s, k) && Backed(t, s, k) && TakesUpdates(c, s, k)
    ensures OnlyLive(AppliedAll(t, Received(c, s, k, used)), DoObjectUpdates(c, s), k) <==>
        NoStale(used, t, FrameMsgs(c, s, k))
  {
    UpdatesView(c, s, k);
    UpdatesAgree(c, s, k, t);
    FrameRound(c, s, k);
    hide DoObjectUpdates, FrameMsgs, InView, Gone, Admit, AppliedAll;
    var ms := FrameMsgs(c, s, k);
    var d := Admit(used, ms);
    var full, got := AppliedAll(t, ms), AppliedAll(t, d);
    AdmittedIn(used, ms);
    AdmittedRound(used, ms);
    RoundApplied(t, ms);
    RoundApplied(t, d);
    LiveIsShown(full, got, DoObjectUpdates(c, s), k);
    forall m | m in ms && m !in d ensures got[m.objid] == t[m.objid] { OnlyAbout(ms, d, m); }
    StaleExact(t, ms, d, full, got);
  }

  lemma LiveIsShown(full: Table, got: Table, m: State, k: nat)
    requires Connected(m, k) && Agrees(full, m, k)
    ensures OnlyLive(got, m, k) <==> forall j :: 0 <= j < MAXOBJS && got[j] ==> full[j]
  {
  }

  lemma StaleExact(t: Table, ms: seq<Msg>, d: seq<Msg>, full: Table, got: Table)
    requires Sets(t, ms, full) && Sets(t, d, got) && (forall x :: x in d ==> x in ms)
    requires forall m :: m in ms && m !in d ==> got[m.objid] == t[m.objid]
    ensures (forall j :: 0 <= j < MAXOBJS && got[j] ==> full[j])
            <==> forall m :: m in ms && m !in d && m.RemoveMsg? && m.objid < MAXOBJS ==> !t[m.objid]
  {
    if forall m :: m in ms && m !in d && m.RemoveMsg? && m.objid < MAXOBJS ==> !t[m.objid] {
      forall j | 0 <= j < MAXOBJS && got[j] ensures full[j] {
        if m :| m in ms && m.objid == j { assert m in d ==> got[m.objid] == m.SpriteMsg?; }
      }
    }
  }

  // ---- messages between frames

  lemma MessagePlace(c: Config, s: State, e: Input, j: nat)
    requires ValidConfig(c) && !e.Tick? && j < MAXOBJS
    ensures InPlace(s.objs[j], Step(c, s, e).objs[j])
  {
    if !e.Hello? && Connected(s, e.k) {
      match e
      case Start(q) => if s.objs[j].Some? { AddAt(s, NewTank(c, q, s.players[q].value), j); }
      case Bye(q) => RemovePlace(s, q, j);
      case PingOut(q) => RemovePlace(s, q, j);
      case _ =>
    }
  }

  lemma OrderedView(players: PlayerList, k: nat)
    requires k < MAXCLIENTS && Teamed(players) && players[k].Some?
    ensures Ordered(players)[k].Some? && Ordered(players)[k].value.view == players[k].value.view
    ensures Ordered(players)[k].value.vpcframes == players[k].value.vpcframes
  {
    OrderedTeams(players);
  }

  lemma LeaveView(players: PlayerList, n: nat, k: nat)
    requires n <= MAXCLIENTS && k < MAXCLIENTS && players[k].Some?
    ensures LeaveMatchmaking(players, n)[k].Some? && LeaveMatchmaking(players, n)[k].value.view == players[k].value.view
    ensures LeaveMatchmaking(players, n)[k].value.vpcframes == players[k].value.vpcframes
    decreases MAXCLIENTS - n
  {
    if n < MAXCLIENTS {
      if players[n].Some? && players[n].value.flags.matchmaking {
        var q := players[n].value.(flags := PlayerFlags(false, false, false, false, true, false));
        LeaveView(players[n := Some(q)], n + 1, k);
      } else {
        LeaveView(players, n + 1, k);
      }
    }
  }

  lemma ClientView(c: Config, s: State, q: nat, e: Input, k: nat)
    requires ValidConfig(c) && Boundary(s) && Connected(s, q) && Connected(s, k) && !e.Tick? && !e.Hello? && e.k == q
    requires !(e.ViewportMsg? && q == k) && Connected(ClientStep(c, s, q, e), k)
    ensures ClientStep(c, s, q, e).players[k].value.view == s.players[k].value.view
  {
    match e
    case Bye(_) => RemoveStays(s, MAXOBJS, MAXOBJS, q, k);
    case PingOut(_) => RemoveStays(s, MAXOBJS, MAXOBJS, q, k);
    case TeamRequest(_, team) =>
      TeamedPlayers(s, MAXOBJS, -1);
      if team <= 2 { OrderedView(s.players[q := Some(s.players[q].value.(team := team))], k); }
    case MatchStop(_) => LeaveView(s.players, 0, k);
    case _ =>
  }

  lemma MessageView(c: Config, s: State, e: Input, k: nat)
    requires ValidConfig(c) && Boundary(s) && !e.Tick? && Connected(s, k) && Connected(Step(c, s, e), k)
    requires !(e.ViewportMsg? && e.k == k)
    ensures Step(c, s, e).players[k].value.view == s.players[k].value.view
  {
    TeamedPlayers(s, MAXOBJS, -1);
    if e.Hello? {
      var q := FirstSlot(s.players, 0);
      if q < MAXCLIENTS && !e.spectator { OrderedView(s.players[q := Some(NewPlayer(c, e.spectator))], k); }
    } else if Connected(s, e.k) {
      ClientView(c, s, e.k, e, k);
    }
  }

  /** Every sprite shown stands for an object that is in viewport `v`. */
  predicate AllInView(t: Table, s: State, v: Viewport) {
    forall j :: 0 <= j < MAXOBJS && t[j] ==> s.objs[j].Some? && InView(s.objs[j].value.x, s.objs[j].value.y, v)
  }

  /** After a client's viewport message its sprites still stand for objects in view exactly if
      they already are in view of the new viewport. */
  lemma ViewportExact(c: Config, s: State, k: nat, v: Viewport, t: Table)
    requires ValidConfig(c) && Connected(s, k)
    ensures Backed(t, Step(c, s, ViewportMsg(k, v)), k) <==> AllInView(t, s, v)
  {
  }

  lemma MessageBacked(c: Config, s: State, e: Input, k: nat, t: Table)
    requires ValidConfig(c) && Boundary(s) && !e.Tick? && Connected(s, k) && Connected(Step(c, s, e), k)
    requires Backed(t, s, k) && (e.ViewportMsg? && e.k == k ==> AllInView(t, s, e.view))
    ensures Backed(t, Step(c, s, e), k)
  {
    if e.ViewportMsg? && e.k == k {
      ViewportExact(c, s, k, e.view, t);
    } else {
      MessageView(c, s, e, k);
      forall j | 0 <= j < MAXOBJS && t[j]
        ensures var o := Step(c, s, e).objs[j];
                o.Some? && InView(o.value.x, o.value.y, Step(c, s, e).players[k].value.view)
      {
        MessagePlace(c, s, e, j);
      }
    }
  }

  // ---- whole runs

  function NextTable(c: Config, s: State, e: Input, k: nat, t: Table, used: nat): Table
    requires ValidConfig(c) && k < MAXCLIENTS
  {
    if e.Tick? then AppliedAll(t, Received(c, s, k, used)) else t
  }

  /** What a run must keep to for the sprites on a screen to stand for objects. `u` is the table
      after the input: what a frame leaves shown is alive, in view, and does not belong to a
      client that is cut off; and a new viewport still has in view what is shown. */
  predicate Orderly(c: Config, s: State, e: Input, k: nat, t: Table, u: Table)
    requires ValidConfig(c) && k < MAXCLIENTS
  {
    && (e.Tick? ==> OnlyLive(u, DoObjectUpdates(c, s), k) && NoneCutOff(u, DoObjectUpdates(c, s), e.lost))
    && (e.ViewportMsg? && e.k == k ==> AllInView(t, s, e.view))
  }

  lemma AskedClears(c: Config, s: State, k: nat, t: Table, used: nat)
    requires ValidConfig(c) && k < MAXCLIENTS && IsAsked(c, s, k)
    ensures AppliedAll(t, Received(c, s, k, used)) == if used + 5 <= 255 then Empty() else t
  {
    hide DoObjectUpdates;
    OneView(t, FrameMsgs(c, s, k)[0], used);
  }

  lemma OneView(t: Table, m: Msg, used: nat)
    requires m.ViewMsg?
    ensures AppliedAll(t, Admit(used, [m])) == if used + 5 <= 255 then Empty() else t
  {
    assert [m][1..] == [] && Admit(used + 5, []) == [] && Admit(used, []) == [];
    assert [m][..0] == [] && AppliedAll(t, [m]) == Applied(AppliedAll(t, []), m);
  }

  lemma NothingSent(c: Config, s: State, k: nat, t: Table, used: nat)
    requires ValidConfig(c) && k < MAXCLIENTS && !TakesUpdates(c, s, k) && !IsAsked(c, s, k)
    ensures AppliedAll(t, Received(c, s, k, used)) == t
  {
    hide DoObjectUpdates;
    assert FrameMsgs(c, s, k) == [] && Received(c, s, k, used) == [];
  }

  /** What the first condition comes to for each kind of frame: of a round of updates, that no
      removal of a sprite shown is refused; nothing, of a request that gets through; and of a frame
      that changes nothing on the screen, that what is shown is alive and still in view. */
  lemma FrameExact(c: Config, s: State, k: nat, t: Table, used: nat)
    requires ValidConfig(c) && Boundary(s) && Connected(s, k) && Backed(t, s, k)
    ensures OnlyLive(AppliedAll(t, Received(c, s, k, used)), DoObjectUpdates(c, s), k) <==>
              if TakesUpdates(c, s, k) then NoStale(used, t, FrameMsgs(c, s, k))
              else (IsAsked(c, s, k) && used + 5 <= 255) || OnlyLive(t, DoObjectUpdates(c, s), k)
  {
    hide DoObjectUpdates, Boundary, Backed, NoStale, TakesUpdates, IsAsked, Received, AppliedAll;
    if TakesUpdates(c, s, k) {
      ReceivedLive(c, s, k, t, used);
    } else if IsAsked(c, s, k) {
      AskedClears(c, s, k, t, used);
    } else {
      NothingSent(c, s, k, t, used);
    }
  }

  lemma StepBacked(c: Config, s: State, e: Input, k: nat, t: Table, u: Table)
    requires ValidConfig(c) && Boundary(s) && Connected(s, k) && Backed(t, s, k) && Orderly(c, s, e, k, t, u)
    requires Connected(Step(c, s, e), k) && !Step(c, s, e).players[k].value.flags.spectator && (!e.Tick? ==> u == t)
    ensures Backed(u, Step(c, s, e), k)
  {
    if e.Tick? {
      hide Frame, Boundary, DoObjectUpdates, Backed, NoneCutOff;
      LiveBacked(c, s, e.lost, k, u);
    } else {
      MessageBacked(c, s, e, k, t);
    }
  }

  /** The tables of player `k`'s client along an orderly run, when so many bytes of the player's
      buffer are in use before the sprite messages of each frame. */
  ghost predicate Shows(c: Config, states: seq<State>, inputs: seq<Input>, tables: seq<Table>, used: seq<nat>,
                        k: nat, a: nat, b: nat)
    requires ValidConfig(c)
  {
    && k < MAXCLIENTS && a <= b < |tables| == |states| == |inputs| + 1 && |used| == |inputs|
    && tables[a] == Empty()
    && forall n :: a <= n < b ==>
         && tables[n + 1] == NextTable(c, states[n], inputs[n], k, tables[n], used[n])
         && Orderly(c, states[n], inputs[n], k, tables[n], tables[n + 1])
  }

  lemma EmptyBacked(s: State, k: nat)
    ensures Backed(Empty(), s, k)
  {
  }

  lemma Unticked(c: Config, s: State, e: Input, k: nat, t: Table, used: nat)
    requires ValidConfig(c) && k < MAXCLIENTS
    ensures !e.Tick? ==> NextTable(c, s, e, k, t, used) == t
  {
  }

  /** In every state of an orderly run each sprite on the player's screen stands for an object
      of the game that is in the player's view. */
  lemma {:induction false} RunBacked(c: Config, powerups: seq<PowerSpawn>, states: seq<State>, inputs: seq<Input>,
                                     tables: seq<Table>, used: seq<nat>, k: nat, a: nat, b: nat, n: nat)
    requires ValidConfig(c) && Tenure(c, powerups, states, inputs, k, a, b)
    requires Shows(c, states, inputs, tables, used, k, a, b) && a <= n <= b
    ensures Backed(tables[n], states[n], k)
    decreases n
  {
    hide Step, Boundary, Backed, Orderly, Init, NextTable;
    EmptyBacked(states[a], k);
    if a < n {
      RunBacked(c, powerups, states, inputs, tables, used, k, a, b, n - 1);
      TenureStep(c, powerups, states, inputs, k, a, b, n - 1);
      assert Connected(states[n - 1], k);
      assert !inputs[n - 1].Tick? ==> tables[n] == tables[n - 1] by {
        Unticked(c, states[n - 1], inputs[n - 1], k, tables[n - 1], used[n - 1]);
      }
      StepBacked(c, states[n - 1], inputs[n - 1], k, tables[n - 1], tables[n]);
    }
  }

  /** And after a round of sprite updates the sprites are exactly the live objects in view,
      exactly if no message that the buffer refused would have changed the screen. */
  lemma RunAgrees(c: Config, powerups: seq<PowerSpawn>, states: seq<State>, inputs: seq<Input>,
                  tables: seq<Table>, used: seq<nat>, k: nat, a: nat, b: nat, n: nat)
    requires ValidConfig(c) && Tenure(c, powerups, states, inputs, k, a, b)
    requires Shows(c, states, inputs, tables, used, k, a, b) && a <= n < b
    requires inputs[n].Tick? && TakesUpdates(c, states[n], k)
    ensures Agrees(tables[n + 1], DoObjectUpdates(c, states[n]), k) <==>
              NoneMissed(used[n], tables[n], FrameMsgs(c, states[n], k))
  {
    RunBacked(c, powerups, states, inputs, tables, used, k, a, b, n);
    TenureStep(c, powerups, states, inputs, k, a, b, n);
    assert Connected(states[n], k);
    ReceivedAgree(c, states[n], k, tables[n], used[n]);
  }
}
