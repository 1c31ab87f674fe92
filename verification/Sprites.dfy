/** What a frame sends to one player's client, and the client's sprite table
    (object.c `makeSpriteUpdates`; client/sprites.c; client/viewport.c). */
module Sprites {
  import opened CtfServ
  import opened Game

  datatype Msg =
    | SpriteMsg(objid: nat, x: int, y: int)
    | RemoveMsg(objid: nat)
    | ViewMsg(mapx: int, mapy: int)

  // ---- the server's side

  predicate Gone(o: Obj) { o.flags.destroyed || o.flags.vanished }

  /** The message about one object, if there is one to send. */
  function ObjectMsg(o: Option<Obj>, objid: nat, view: Viewport): seq<Msg> {
    if o == None then []
    else if InView(o.value.x, o.value.y, view) then
      if Gone(o.value) then [RemoveMsg(objid)]
      else [SpriteMsg(objid, o.value.x / 16 - view.left, o.value.y / 16 - view.top)]
    else if InView(o.value.prevx, o.value.prevy, view) then [RemoveMsg(objid)]
    else []
  }

  /** The messages about the objects below slot `n`. */
  function ObjectMsgs(objs: ObjList, n: nat, view: Viewport): seq<Msg>
    requires n <= MAXOBJS
    decreases objs, n
  {
    if n == 0 then [] else ObjectMsgs(objs, n - 1, view) + ObjectMsg(objs[n - 1], n - 1, view)
  }

  predicate OutOfView(p: Player, tank: Option<Obj>) { tank.Some? && !InView(tank.value.x, tank.value.y, p.view) }

  /** The client takes sprite updates in this frame. */
  predicate Updating(p: Player, tank: Option<Obj>) { p.flags.running && !p.flags.newView && !OutOfView(p, tank) }

  /** The client is asked for a new viewport in this frame. */
  predicate Asking(p: Player, tank: Option<Obj>) { p.flags.running && !p.flags.newView && OutOfView(p,
                   tank) && p.vpcframes <= 1 }

  /** `makeSpriteUpdates` for a player who is not a spectator, given what `makeUpdates` checks first. */
  function Updates(objs: ObjList, p: Player, tank: Option<Obj>): seq<Msg> {
    if Updating(p, tank) then ObjectMsgs(objs, MAXOBJS, p.view)
    else if Asking(p, tank) then [ViewMsg(tank.value.x / 16 % 0x10000, tank.value.y / 16 % 0x10000)]
    else []
  }

  /** What a frame that starts in `s` sends to player `k`. */
  function FrameMsgs(c: Config, s: State, k: nat): seq<Msg>
    requires ValidConfig(c) && k < MAXCLIENTS
  {
    var m := DoObjectUpdates(c, s);
    if m.players[k] == None || m.players[k].value.flags.spectator then []
    else Updates(m.objs, m.players[k].value, TankOf(m, m.players[k].value))
  }

  // ---- the client's side

  type Table = t: seq<bool> | |t| == MAXOBJS witness seq(MAXOBJS, _ => false)

  function Empty(): Table { seq(MAXOBJS, _ => false) }

  function Applied(t: Table, m: Msg): Table {
    match m
    case SpriteMsg(id, _, _) => if id < MAXOBJS then t[id := true] else t
    case RemoveMsg(id) => if id < MAXOBJS then t[id := false] else t
    case ViewMsg(_, _) => Empty()
  }

  function AppliedAll(t: Table, ms: seq<Msg>): Table {
    if ms == [] then t else Applied(AppliedAll(t, ms[..|ms| - 1]), ms[|ms| - 1])
  }

  /** The client's sprite table: whether `sprtbl` has a sprite for each object id. */
  class SpriteTable {
    const sprtbl: array<bool>

    ghost predicate Valid()
      reads this
    {
      sprtbl.Length == MAXOBJS
    }

    ghost function View(): Table
      requires Valid()
      reads this, sprtbl
    {
      sprtbl[..]
    }

    constructor ()
      ensures Valid() && View() == Empty() && fresh(sprtbl)
    {
      sprtbl := new bool[MAXOBJS](_ => false);
      new;
      assert sprtbl[..] == Empty();
    }

    /** `manageSprite`: an unknown sprite is created, a known one only moves. */
    method ManageSprite(objid: nat)
      requires Valid() && objid < MAXOBJS
      modifies sprtbl
      ensures View() == old(View())[objid := true]
    {
      if !sprtbl[objid] {
        sprtbl[objid] := true;
      }
      assert sprtbl[..] == old(sprtbl[..])[objid := true];
    }

    method RemoveSprite(objid: nat)
      requires Valid() && objid < MAXOBJS
      modifies sprtbl
      ensures View() == old(View())[objid := false]
    {
      if sprtbl[objid] {
        sprtbl[objid] := false;
      }
      assert sprtbl[..] == old(sprtbl[..])[objid := false];
    }

    method RemoveAllSprites()
      requires Valid()
      modifies sprtbl
      ensures View() == Empty()
    {
      for i := 0 to MAXOBJS
        invariant forall j :: 0 <= j < i ==> !sprtbl[j]
      {
        if sprtbl[i] {
          sprtbl[i] := false;
        }
      }
      assert sprtbl[..] == Empty();
    }

    /** The client's part of `messageloop` for the messages of one datagram, in order. */
    method Receive(ms: seq<Msg>)
      requires Valid() && forall m :: m in ms ==> m.ViewMsg? || m.objid < MAXOBJS
      modifies sprtbl
      ensures View() == AppliedAll(old(View()), ms)
    {
      for i := 0 to |ms|
        invariant View() == AppliedAll(old(View()), ms[..i])
      {
        assert ms[..i + 1][..i] == ms[..i] && ms[i] in ms;
        match ms[i]
        case SpriteMsg(id, _, _) => ManageSprite(id);
        case RemoveMsg(id) => RemoveSprite(id);
        case ViewMsg(_, _) => RemoveAllSprites();
      }
      assert ms[..|ms|] == ms;
    }
  }

  // ---- one round of updates

  lemma AppliedAppend(t: Table, a: seq<Msg>, b: seq<Msg>)
    ensures AppliedAll(t, a + b) == AppliedAll(AppliedAll(t, a), b)
  {
    if b == [] {
      assert a + b == a;
    } else {
      assert (a + b)[..|a + b| - 1] == a + b[..|b| - 1];
      AppliedAppend(t, a, b[..|b| - 1]);
    }
  }

  /** Whether the client shows the sprite of a slot after the message about it. */
  predicate Shown(o: Option<Obj>, view: Viewport, was: bool) {
    if o == None then was
    else if InView(o.value.x, o.value.y, view) then !Gone(o.value)
    else was && !InView(o.value.prevx, o.value.prevy, view)
  }

  lemma OneApplied(t: Table, o: Option<Obj>, objid: nat, view: Viewport)
    requires objid < MAXOBJS
    ensures AppliedAll(t, ObjectMsg(o, objid, view)) == t[objid := Shown(o, view, t[objid])]
  {
    var ms := ObjectMsg(o, objid, view);
    if ms != [] {
      assert ms[..0] == [];
      assert AppliedAll(t, ms[..0]) == t;
    }
  }

  lemma {:induction false} ObjectMsgsApplied(objs: ObjList, n: nat, view: Viewport, t: Table, j: nat)
    requires n <= MAXOBJS && j < MAXOBJS
    ensures AppliedAll(t, ObjectMsgs(objs, n, view))[j] == if j < n then Shown(objs[j], view, t[j]) else t[j]
    decreases n
  {
    if n > 0 {
      hide Shown, ObjectMsg;
      ObjectMsgsApplied(objs, n - 1, view, t, j);
      NextApplied(objs, n, view, t);
    }
  }

  lemma NextApplied(objs: ObjList, n: nat, view: Viewport, t: Table)
    requires 0 < n <= MAXOBJS
    ensures var r := AppliedAll(t, ObjectMsgs(objs, n - 1, view));
            AppliedAll(t, ObjectMsgs(objs, n, view)) == r[n - 1 := Shown(objs[n - 1], view, r[n - 1])]
  {
    var ms := ObjectMsgs(objs, n - 1, view);
    AppliedAppend(t, ms, ObjectMsg(objs[n - 1], n - 1, view));
    OneApplied(AppliedAll(t, ms), objs[n - 1], n - 1, view);
  }

  /** Every message a player gets is about a slot of the list, and a sprite's offsets within the
      player's own 224 by 184 pixel viewport fit their bytes. */
  lemma ObjectMsgsBytes(objs: ObjList, n: nat, view: Viewport)
    requires n <= MAXOBJS
    ensures forall m :: m in ObjectMsgs(objs, n, view) ==>
              && !m.ViewMsg? && m.objid < n
              && (m.SpriteMsg? ==> 0 <= m.x <= view.right - view.left && 0 <= m.y <= view.bottom - view.top)
    decreases n
  {
    if n > 0 { ObjectMsgsBytes(objs, n - 1, view); }
  }

  /** A point, in sixteenths of a pixel, that the viewport shows. */
  predicate Within(view: Viewport, x: int, y: int) {
    16 * view.left <= x < 16 * (view.right + 1) && 16 * view.top <= y < 16 * (view.bottom + 1)
  }

  /** The message is one that a frame has for a client with this viewport: a sprite stands for a live
      object in view, at the pixel of the viewport that the object is at, and a removal for one that
      is gone or has left the view in this frame. */
  predicate IsNews(objs: ObjList, n: nat, view: Viewport, m: Msg)
    requires n <= MAXOBJS
  {
    && !m.ViewMsg? && m.objid < n && objs[m.objid].Some?
    && var o := objs[m.objid].value;
       if m.SpriteMsg? then
         && Within(view, o.x, o.y) && !o.flags.destroyed && !o.flags.vanished
         && 0 <= o.x - 16 * (view.left + m.x) < 16 && 0 <= o.y - 16 * (view.top + m.y) < 16
       else if Within(view, o.x, o.y) then o.flags.destroyed || o.flags.vanished
       else Within(view, o.prevx, o.prevy)
  }

  lemma OneIsNews(o: Obj, objid: nat, view: Viewport, m: Msg)
    ensures m in ObjectMsg(Some(o), objid, view) <==>
            && !m.ViewMsg? && m.objid == objid
            && (if m.SpriteMsg? then
                  && Within(view, o.x, o.y) && !o.flags.destroyed && !o.flags.vanished
                  && 0 <= o.x - 16 * (view.left + m.x) < 16 && 0 <= o.y - 16 * (view.top + m.y) < 16
                else if Within(view, o.x, o.y) then o.flags.destroyed || o.flags.vanished
                else Within(view, o.prevx, o.prevy))
  {
  }

  /** A frame's messages are exactly its news. */
  lemma {:induction false} NewsExact(objs: ObjList, n: nat, view: Viewport, m: Msg)
    requires n <= MAXOBJS
    ensures m in ObjectMsgs(objs, n, view) <==> IsNews(objs, n, view, m)
    decreases n
  {
    hide ObjectMsg, Within;
    if n > 0 {
      NewsExact(objs, n - 1, view, m);
      if objs[n - 1].Some? { OneIsNews(objs[n - 1].value, n - 1, view, m); } else { NoObject(n - 1, view); }
    }
  }

  lemma NoObject(objid: nat, view: Viewport)
    ensures ObjectMsg(None, objid, view) == []
  {
  }

  // ---- what the message buffer lets through

  /** The bytes that a message takes in the buffer, id included. */
  function Size(m: Msg): nat {
    match m
    case SpriteMsg(_, _, _) => 8
    case RemoveMsg(_) => 3
    case ViewMsg(_, _) => 5
  }

  function SizeAll(ms: seq<Msg>): nat { if ms == [] then 0 else Size(ms[0]) + SizeAll(ms[1..]) }

  /** The messages that `addMessage` accepts when `used` bytes of the buffer are in use. */
  function Admit(used: nat, ms: seq<Msg>): seq<Msg>
    decreases |ms|
  {
    if ms == [] then []
    else if used + Size(ms[0]) <= 255 then [ms[0]] + Admit(used + Size(ms[0]), ms[1..])
    else Admit(used, ms[1..])
  }

  /** A round of sprite updates: messages about different slots. */
  predicate Round(ms: seq<Msg>) {
    && (forall i :: 0 <= i < |ms| ==> !ms[i].ViewMsg? && ms[i].objid < MAXOBJS)
    && (forall i, j :: 0 <= i < j < |ms| ==> ms[i].objid != ms[j].objid)
  }

  /** A refused message would have changed nothing on the screen. */
  predicate NoneMissed(used: nat, t: Table, ms: seq<Msg>) {
    forall m :: m in ms && m !in Admit(used, ms) ==> Applied(t, m) == t
  }

  /** No sprite that is shown should have been removed by a refused message. */
  predicate NoStale(used: nat, t: Table, ms: seq<Msg>) {
    forall m :: m in ms && m !in Admit(used, ms) && m.RemoveMsg? && m.objid < MAXOBJS ==> !t[m.objid]
  }

  lemma {:induction false} AdmittedIn(used: nat, ms: seq<Msg>)
    ensures forall m :: m in Admit(used, ms) ==> m in ms
    decreases |ms|
  {
    if ms != [] {
      AdmittedIn(used + Size(ms[0]), ms[1..]);
      AdmittedIn(used, ms[1..]);
    }
  }

  lemma {:induction false} AdmittedRound(used: nat, ms: seq<Msg>)
    requires Round(ms)
    ensures Round(Admit(used, ms))
    decreases |ms|
  {
    if ms != [] {
      var u := if used + Size(ms[0]) <= 255 then used + Size(ms[0]) else used;
      AdmittedRound(u, ms[1..]);
      AdmittedIn(u, ms[1..]);
      forall m | m in ms[1..] ensures m.objid != ms[0].objid {
        var i :| 0 <= i < |ms[1..]| && ms[1..][i] == m;
        assert ms[i + 1] == m;
      }
    }
  }

  /** Everything is accepted exactly if it all fits together. */
  lemma {:induction false} AllAdmitted(used: nat, ms: seq<Msg>)
    requires used <= 255
    ensures |Admit(used, ms)| <= |ms|
    ensures Admit(used, ms) == ms <==> used + SizeAll(ms) <= 255
    decreases |ms|
  {
    if ms != [] {
      if used + Size(ms[0]) <= 255 {
        AllAdmitted(used + Size(ms[0]), ms[1..]);
        assert ms == [ms[0]] + ms[1..];
        assert Admit(used, ms)[1..] == Admit(used + Size(ms[0]), ms[1..]);
      } else {
        AllAdmitted(used, ms[1..]);
      }
    }
  }

  /** The entries that the messages are about are set by them, and all others are as in `t`. */
  predicate Sets(t: Table, ms: seq<Msg>, r: Table) {
    && (forall m :: m in ms ==> !m.ViewMsg? && m.objid < MAXOBJS && r[m.objid] == m.SpriteMsg?)
    && (forall j :: 0 <= j < MAXOBJS && (forall m :: m in ms ==> m.objid != j) ==> r[j] == t[j])
  }

  lemma SetsSnoc(t: Table, ms: seq<Msg>, r: Table, x: Msg)
    requires Sets(t, ms, r) && !x.ViewMsg? && x.objid < MAXOBJS && forall m :: m in ms ==> m.objid != x.objid
    ensures Sets(t, ms + [x], r[x.objid := x.SpriteMsg?])
  {
    var all, r' := ms + [x], r[x.objid := x.SpriteMsg?];
    assert forall m :: m in all <==> m in ms || m == x;
    forall j | 0 <= j < MAXOBJS && forall m :: m in all ==> m.objid != j ensures r'[j] == t[j] {
      assert x in all;
    }
  }

  lemma {:induction false} RoundApplied(t: Table, ms: seq<Msg>)
    requires Round(ms)
    ensures Sets(t, ms, AppliedAll(t, ms))
    decreases |ms|
  {
    if ms != [] {
      hide Sets;
      var l := |ms| - 1;
      var r, x := ms[..l], ms[l];
      RoundApplied(t, r);
      assert ms == r + [x];
      forall m | m in r ensures m.objid != x.objid {
        var i :| 0 <= i < l && r[i] == m;
        assert ms[i] == m;
      }
      SetsSnoc(t, r, AppliedAll(t, r), x);
    }
  }

  lemma RoundEffect(t: Table, m: Msg)
    requires !m.ViewMsg? && m.objid < MAXOBJS
    ensures Applied(t, m) == t <==> t[m.objid] == m.SpriteMsg?
  {
    if t[m.objid] != m.SpriteMsg? { assert Applied(t, m)[m.objid] != t[m.objid]; }
  }

  /** What gets through leaves the same table as everything would, exactly if nothing that
      mattered was refused. */
  lemma AdmittedSame(used: nat, t: Table, ms: seq<Msg>)
    requires Round(ms)
    ensures AppliedAll(t, Admit(used, ms)) == AppliedAll(t, ms) <==> NoneMissed(used, t, ms)
  {
    hide Admit, AppliedAll, Applied;
    var d := Admit(used, ms);
    AdmittedIn(used, ms);
    AdmittedRound(used, ms);
    RoundApplied(t, d);
    RoundApplied(t, ms);
    forall m | m in ms && m !in d
      ensures Applied(t, m) == t <==> AppliedAll(t, d)[m.objid] == AppliedAll(t, ms)[m.objid]
    {
      RoundEffect(t, m);
      OnlyAbout(ms, d, m);
    }
    if NoneMissed(used, t, ms) {
      forall j | 0 <= j < MAXOBJS ensures AppliedAll(t, d)[j] == AppliedAll(t, ms)[j] {
        if m :| m in ms && m.objid == j { if m in d { assert AppliedAll(t, d)[m.objid] == m.SpriteMsg?; } }
      }
    }
  }

  lemma OnlyAbout(ms: seq<Msg>, d: seq<Msg>, m: Msg)
    requires Round(ms) && m in ms && m !in d && forall x :: x in d ==> x in ms
    ensures forall x :: x in d ==> x.objid != m.objid
  {
    forall x | x in d ensures x.objid != m.objid {
      var i :| 0 <= i < |ms| && ms[i] == m;
      var j :| 0 <= j < |ms| && ms[j] == x;
      if i < j { assert ms[i].objid != ms[j].objid; } else { assert ms[j].objid != ms[i].objid; }
    }
  }

  lemma RoundSnoc(r: seq<Msg>, m: Msg)
    requires Round(r) && !m.ViewMsg? && m.objid < MAXOBJS && forall x :: x in r ==> x.objid != m.objid
    ensures Round(r + [m])
  {
    assert forall i :: 0 <= i < |r| ==> r[i] in r;
  }

  lemma {:induction false} ObjectMsgsRound(objs: ObjList, n: nat, view: Viewport)
    requires n <= MAXOBJS
    ensures Round(ObjectMsgs(objs, n, view)) && forall m :: m in ObjectMsgs(objs, n, view) ==>
        !m.ViewMsg? && m.objid < n
    decreases n
  {
    if n > 0 {
      hide Round, InView;
      ObjectMsgsRound(objs, n - 1, view);
      var r, o := ObjectMsgs(objs, n - 1, view), ObjectMsg(objs[n - 1], n - 1, view);
      if o == [] { assert r + o == r; } else { RoundSnoc(r, o[0]); }
    } else {
      assert ObjectMsgs(objs, 0, view) == [];
    }
  }

  /** From an empty screen, sprites alone get through as long as eight bytes are left. */
  lemma {:induction false} SpritesAdmitted(used: nat, ms: seq<Msg>)
    requires used <= 255 && forall m :: m in ms ==> m.SpriteMsg?
    ensures var room := (255 - used) / 8;
            Admit(used, ms) == if |ms| <= room then ms else ms[..room]
    decreases |ms|
  {
    if ms != [] {
      assert ms[0] in ms;
      if used + 8 <= 255 {
        SpritesAdmitted(used + 8, ms[1..]);
        var r := (255 - used) / 8;
        assert (255 - (used + 8)) / 8 == r - 1;
        assert ms == [ms[0]] + ms[1..];
        if |ms| > r { assert ms[..r] == [ms[0]] + ms[1..][..r - 1]; }
      } else {
        SpritesAdmitted(used, ms[1..]);
        assert ms[1..][..0] == [];
      }
    }
  }
}
