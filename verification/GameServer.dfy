/** The game server in the form of its C source: global arrays changed in place, slot by slot.

    Every method is proved to do what the function of the same name in `Game` says, so all
    that is proved about those functions holds of this server. */
module GameServer {
  import opened CtfServ
  import opened Vectors
  import opened GameMap
  import G = Game
  import opened GameInvariant
  import opened FrameInvariant
  import opened LeavingInvariant
  import opened Runs
  import opened Sprites
  import opened SpriteDelivery
  import opened ClientSlots
  import Framing

  class Server {
    const c: G.Config
    const objlist: array<Option<Obj>>
    const players: array<Option<Player>>
    const powerups: array<PowerSpawn>
    var teamscore: (nat, nat)
    var playerCount: int
    var running: bool
    var gameOver: bool
    var timeRemaining: int
    var draws: nat
    var dropped: set<Kind>

    // Each client's address, message buffer and Player record, and the register of the dead.
    const cliaddr: array<bool>
    const playerBuf: array<Option<seq<Framing.Message>>>
    const records: array<Option<nat>>
    const deadPlayers: array<nat>
    var deadPlayerIdx: nat
    var made: nat
    ghost var freed: seq<nat>

    ghost predicate Valid()
      reads this`deadPlayerIdx
    {
      && G.ValidConfig(c)
      && objlist.Length == MAXOBJS && players.Length == MAXCLIENTS
      && cliaddr.Length == MAXCLIENTS && playerBuf.Length == MAXCLIENTS && records.Length == MAXCLIENTS
      && deadPlayers.Length == MAXCLIENTS && deadPlayerIdx <= MAXCLIENTS
      && Apart()
    }

    /** The arrays are different arrays. */
    ghost predicate Apart() {
      && (objlist as object) != players && (objlist as object) != powerups && (players as object) != powerups
      && {objlist as object, players, powerups} !! {cliaddr as object, playerBuf, records, deadPlayers}
      && (cliaddr as object) != playerBuf && (cliaddr as object) != records && (cliaddr as object) != deadPlayers
      && (playerBuf as object) != records && (playerBuf as object) != deadPlayers && (records as object) != deadPlayers
    }

    ghost function Net(): (n: Slots)
      requires Valid()
      reads this`deadPlayerIdx, this`made, this`freed, cliaddr, playerBuf, records, deadPlayers
      ensures Shaped(n)
    {
      Slots(cliaddr[..], playerBuf[..], records[..], deadPlayers[..deadPlayerIdx], freed, made)
    }

    ghost function View(): G.State
      requires Valid()
      reads this, objlist, players, powerups
    {
      G.State(objlist[..], players[..], powerups[..], teamscore, playerCount, running, gameOver, timeRemaining, draws,
          dropped)
    }

    // ---- single assignments

    method Store(i: nat, o: Obj)
      requires Valid() && i < MAXOBJS
      modifies objlist
      ensures View() == G.Put(old(View()), i, o)
    {
      objlist[i] := Some(o);
      assert objlist[..] == old(objlist[..])[i := Some(o)];
    }

    method Free(i: nat)
      requires Valid() && i < MAXOBJS
      modifies objlist
      ensures View() == old(View()).(objs := old(View()).objs[i := None])
    {
      objlist[i] := None;
      assert objlist[..] == old(objlist[..])[i := None];
    }

    method StorePlayer(k: nat, p: Player)
      requires Valid() && k < MAXCLIENTS
      modifies players
      ensures View() == G.PutPlayer(old(View()), k, p)
    {
      players[k] := Some(p);
      assert players[..] == old(players[..])[k := Some(p)];
    }

    // ---- the object list

    method AddObject(o: Obj)
      requires Valid()
      modifies this`dropped, objlist
      ensures View() == G.AddObject(old(View()), o)
    {
      var i := 0;
      while i < MAXOBJS
        invariant i <= MAXOBJS && View() == old(View())
        invariant G.FirstFree(View().objs, 0) == G.FirstFree(View().objs, i)
      {
        if objlist[i] == None {
          Store(i, o);
          return;
        }
        i := i + 1;
      }
      dropped := dropped + {o.kind};
    }

    method PlaceFlag(team: int, x: int, y: int)
      requires Valid()
      modifies this`dropped, objlist
      ensures View() == G.PlaceFlag(old(View()), team, x, y)
    {
      AddObject(G.NewObject(Flag, team, x, y, NoDestructor));
    }

    // ---- players

    method SpawnPlayer(k: nat)
      requires Valid() && k < MAXCLIENTS && players[k].Some?
      modifies this`dropped, objlist, players
      ensures View() == G.SpawnPlayer(c, old(View()), k)
    {
      var p := players[k].value;
      ghost var f := G.FirstFree(View().objs, 0);
      var slot := None;
      var po := G.NewTank(c, k, p);
      var i := 0;
      while i < MAXOBJS && slot == None
        invariant i <= MAXOBJS && View() == old(View())
        invariant if slot == None then f == G.FirstFree(View().objs, i) else slot == Some(f) && f < MAXOBJS
        decreases MAXOBJS - i, slot == None
      {
        if objlist[i] == None { slot := Some(i); } else { i := i + 1; }
      }
      AddObject(po);
      StorePlayer(k, p.(tank := slot, vpcframes := 0));
    }

    method OrderTeams()
      requires Valid()
      modifies players
      ensures View() == old(View()).(players := G.Ordered(old(View()).players))
    {
      var teampos := [0, 0, 0];
      var k := 0;
      while k < MAXCLIENTS
        invariant k <= MAXCLIENTS && |teampos| == 3
        invariant View() == old(View()).(players := View().players)
        invariant G.OrderTeams(View().players, k, teampos) == G.Ordered(old(View()).players)
      {
        if players[k].Some? && players[k].value.team <= 2 {
          var p := players[k].value;
          StorePlayer(k, p.(playernum := teampos[p.team]));
          teampos := teampos[p.team := teampos[p.team] + 1];
        }
        k := k + 1;
      }
    }

    method MakeNewPlayer(k: nat, spectator: bool)
      requires Valid() && k < MAXCLIENTS
      modifies this`playerCount, players
      ensures View() == G.MakeNewPlayer(c, old(View()), k, spectator)
    {
      StorePlayer(k, G.NewPlayer(c, spectator));
      if !spectator {
        playerCount := playerCount + 1;
        OrderTeams();
      }
    }

    /** `removeClient`: the address and the buffer go, the player's objects vanish, and the record
        is freed or goes into the register of the dead. */
    method RemoveClient(k: nat)
      requires Valid() && k < MAXCLIENTS && players[k].Some?
      modifies this`playerCount, this`dropped, this`deadPlayerIdx, this`freed
      modifies objlist, players, cliaddr, playerBuf, records, deadPlayers
      ensures Valid() && View() == G.RemoveClient(old(View()), k)
      ensures Net() == Vacate(old(Net()), k, old(players[k]).value)
    {
      hide Vacate, G.VanishFrom;
      var p := players[k].value;
      ReleaseSlot(k, p);
      if p.flags.spectator {
        ClearPlayer(k);
      } else {
        SweepObjects(k);
        playerCount := playerCount - 1;
        ClearPlayer(k);
        OrderTeams();
      }
    }

    method ClearPlayer(k: nat)
      requires Valid() && k < MAXCLIENTS
      modifies players
      ensures View() == old(View()).(players := old(View()).players[k := None])
    {
      players[k] := None;
      assert players[..] == old(players[..])[k := None];
    }

    /** What `removeClient` does outside the game. */
    method ReleaseSlot(k: nat, p: Player)
      requires Valid() && k < MAXCLIENTS
      modifies this`deadPlayerIdx, this`freed, cliaddr, playerBuf, records, deadPlayers
      ensures Valid() && View() == old(View()) && Net() == Vacate(old(Net()), k, p)
    {
      cliaddr[k] := false;
      playerBuf[k] := None;
      assert cliaddr[..] == old(cliaddr[..])[k := false] && playerBuf[..] == old(playerBuf[..])[k := None];
      ReleaseRecord(k, p);
    }

    /** The sweep of `removePlayer` over the objects. */
    method SweepObjects(k: nat)
      requires Valid() && k < MAXCLIENTS
      modifies this`dropped, objlist
      ensures View() == G.VanishFrom(old(View()), k, 0)
      ensures players[..] == old(players[..]) && playerCount == old(playerCount)
    {
      var i := 0;
      while i < MAXOBJS
        invariant i <= MAXOBJS && G.VanishFrom(View(), k, i) == G.VanishFrom(old(View()), k, 0)
      {
        if objlist[i].Some? {
          var obj := objlist[i].value;
          if obj.flags.hasFlag {
            PlaceFlag(G.OtherTeam(obj.team), obj.x, obj.y);
          }
          if obj.owner == k {
            Store(i, obj.(flags := NOFLAGS.(vanished := true), owner := -1));
          }
        }
        i := i + 1;
      }
    }

    /** Where the record of the player `p` goes that `players` pointed to in slot `k`. */
    method ReleaseRecord(k: nat, p: Player)
      requires Valid() && k < MAXCLIENTS
      modifies this`deadPlayerIdx, this`freed, records, deadPlayers
      ensures Valid() && View() == old(View()) && Net().addr == old(Net()).addr && Net().bufs == old(Net()).bufs
          && made == old(made)
      ensures var n := Vacate(old(Net()), k, p); records[..] == n.records && Net().dead == n.dead && freed == n.freed
    {
      var r := records[k];
      records[k] := None;
      assert records[..] == old(records[..])[k := None];
      if r.Some? {
        if !p.flags.spectator && (p.flags.running || p.flags.dead) && deadPlayerIdx < MAXCLIENTS {
          deadPlayers[deadPlayerIdx] := r.value;
          deadPlayerIdx := deadPlayerIdx + 1;
          assert deadPlayers[..deadPlayerIdx] == old(deadPlayers[..deadPlayerIdx]) + [r.value];
        } else {
          freed := freed + [r.value];
        }
      }
    }

    method EndMatch()
      requires Valid()
      modifies this`gameOver, players
      ensures View() == G.EndMatch(old(View()))
    {
      var k := 0;
      while k < MAXCLIENTS
        invariant k <= MAXCLIENTS && View() == old(View()).(players := View().players)
        invariant G.EndMatchFrom(View().players, k) == G.EndMatchFrom(old(View()).players, 0)
      {
        if players[k].Some? && !players[k].value.flags.spectator {
          StorePlayer(k, players[k].value.(flags := PlayerFlags(false, false, false, false, false, false)));
        }
        k := k + 1;
      }
      gameOver := true;
    }

    // ---- moving and firing

    method FireWeapon(i: nat)
      requires Valid() && i < MAXOBJS && objlist[i].Some?
      modifies this`dropped, objlist
      ensures View() == if old(objlist[i]).value.cooldown != 0 || old(objlist[i]).value.ammo == 0 then old(View())
                        else G.Put(G.AddObject(old(View()), G.MissileOf(old(objlist[i]).value)), i,
                            G.Shot(old(objlist[i]).value))
    {
      var firer := objlist[i].value;
      if firer.cooldown != 0 || firer.ammo == 0 {
        return;
      }
      AddObject(G.MissileOf(firer));
      firer := firer.(ammo := firer.ammo - 1);
      firer := firer.(cooldown := PropsOf(firer.kind).gunCooldown);
      Store(i, firer);
    }

    /** `processObjectControl`. */
    method ProcessObjectControl(i: nat)
      requires Valid() && i < MAXOBJS && objlist[i].Some?
      modifies this`dropped, objlist
      ensures View() == G.FireWeapon(G.Put(old(View()), i, G.Steer(old(objlist[i]).value)), i)
    {
      var obj := objlist[i].value;
      var props := PropsOf(obj.kind);
      if obj.flags.exploding {
        assert objlist[..] == objlist[..][i := Some(obj)];
        return;
      }
      var vel := obj.commanded.vel;
      if obj.ctrls.accelerate {
        vel := vel + props.accel;
        if vel > props.maxVel { vel := props.maxVel; }
      } else if obj.ctrls.brake {
        vel := vel - props.brake;
        if vel < 0 { vel := 0; }
      }
      obj := obj.(commanded := obj.commanded.(vel := vel));
      if obj.ctrls.rotLeft {
        obj := obj.(dirChg := obj.dirChg - 1);
        if obj.dirChg < 1 {
          obj := obj.(commanded := obj.commanded.(dir := (obj.commanded.dir + 15) % 16), dirChg := props.turnSpeed);
        }
      } else if obj.ctrls.rotRight {
        obj := obj.(dirChg := obj.dirChg - 1);
        if obj.dirChg < 1 {
          obj := obj.(commanded := obj.commanded.(dir := (obj.commanded.dir + 1) % 16), dirChg := props.turnSpeed);
        }
      }
      assert obj == G.Steer(old(objlist[i]).value);
      Store(i, obj);
      if obj.ctrls.fire {
        FireWeapon(i);
      }
    }

    /** `moveObject`. */
    method MoveObject(i: nat)
      requires Valid() && i < MAXOBJS && objlist[i].Some?
      modifies objlist
      ensures View() == G.Put(old(View()), i, G.MoveObject(old(objlist[i]).value))
    {
      var obj := objlist[i].value;
      var dx, dy := Dx(obj.actual), Dy(obj.actual);
      obj := obj.(prevx := obj.x, prevy := obj.y);
      obj := obj.(x := obj.x + dx, y := obj.y + dy);
      if obj.x < 0 {
        obj := obj.(x := 0, actual := obj.actual.(vel := 0));
      }
      if obj.y < 0 {
        obj := obj.(y := 0, actual := obj.actual.(vel := 0));
      }
      Store(i, obj);
    }

    /** `processPush`. */
    method ProcessPush(i: nat)
      requires Valid() && i < MAXOBJS && objlist[i].Some?
      modifies objlist
      ensures View() == G.Put(old(View()), i, G.ProcessPush(old(objlist[i]).value))
    {
      var obj := objlist[i].value;
      obj := obj.(actual := AddVector(obj.commanded, obj.push));
      if obj.push.vel != 0 {
        obj := obj.(push := obj.push.(vel := obj.push.vel - PropsOf(obj.kind).pushDecay));
      }
      Store(i, obj);
    }

    /** The rest of an object's turn, once its controls are read. */
    method Advance(i: nat)
      requires Valid() && i < MAXOBJS && objlist[i].Some?
      modifies objlist
      ensures View() == G.Put(old(View()), i, G.Advance(old(objlist[i]).value))
    {
      ProcessPush(i);
      if objlist[i].value.actual.vel != 0 {
        MoveObject(i);
      }
      var obj := objlist[i].value;
      if obj.cooldown > 0 { obj := obj.(cooldown := obj.cooldown - 1); }
      if obj.ttl > 0 { obj := obj.(ttl := obj.ttl - 1); }
      Store(i, obj);
      assert obj == G.Advance(old(objlist[i]).value);
      assert objlist[..] == old(objlist[..])[i := Some(obj)];
    }

    /** One object's turn in the first loop of `doObjectUpdates`. */
    method UpdateSlot(i: nat)
      requires Valid() && i < MAXOBJS
      modifies this`dropped, objlist
      ensures View() == G.UpdateSlot(old(View()), i)
    {
      hide G.Steer, G.Fires, G.Advance;
      if objlist[i] == None {
        return;
      }
      var obj := objlist[i].value;
      if obj.ttl == 0 {
        Store(i, obj.(flags := obj.flags.(destroyed := true)));
        return;
      }
      if obj.mapColFudge != 0 { obj := obj.(mapColFudge := obj.mapColFudge - 1); }
      if obj.flying != 0 { obj := obj.(flying := obj.flying - 1); }
      assert obj == G.Timers(old(objlist[i]).value);
      Store(i, obj);
      ProcessObjectControl(i);
      PutTwice(old(View()), i, obj, G.Steer(obj));
      Advance(i);
    }

    // ---- powerups

    method RestartSpawn(n: nat)
      requires Valid() && n < powerups.Length
      modifies this`draws, powerups
      ensures View() == G.RestartSpawn(c, old(View()), n)
    {
      var r := c.rand(draws) % MAXPWRCOOLDOWN;
      draws := draws + 1;
      if r < MINPWRCOOLDOWN { r := MINPWRCOOLDOWN; }
      powerups[n] := powerups[n].(cooldown := r);
      assert powerups[..] == old(powerups[..])[n := old(powerups[n]).(cooldown := r)];
    }

    /** `updatePowerSpawns`. */
    method UpdatePowerSpawns()
      requires Valid()
      modifies this`dropped, objlist, powerups
      ensures View() == G.SpawnTicks(old(View()), 0)
    {
      var n := 0;
      while n < powerups.Length
        invariant n <= powerups.Length
        invariant G.SpawnTicks(View(), n) == G.SpawnTicks(old(View()), 0)
      {
        ghost var was := View();
        var sp := powerups[n];
        if sp.cooldown == 1 {
          AddObject(G.NewObject(sp.kind, -1, sp.x, sp.y, ResetSpawn(n)));
        }
        if sp.cooldown != 0 {
          label L:
          powerups[n] := sp.(cooldown := sp.cooldown - 1);
          assert powerups[..] == old@L(powerups[..])[n := sp.(cooldown := sp.cooldown - 1)];
        }
        assert View() == G.SpawnTick(was, n);
        n := n + 1;
      }
    }

    // ---- collisions

    /** `flagCaptured`. */
    method FlagCaptured(i: nat)
      requires Valid() && i < MAXOBJS && objlist[i].Some?
      modifies this`teamscore, this`gameOver, this`dropped, objlist, players
      ensures View() == G.FlagCaptured(c, old(View()), i)
    {
      var capturer := objlist[i].value;
      var other := G.OtherTeam(capturer.team);
      PlaceFlag(other, G.HomeX(c, other), G.HomeY(c, other));
      Store(i, capturer.(flags := capturer.flags.(hasFlag := false)));
      var score;
      if capturer.team == 0 {
        score := teamscore.0 + 1;
        teamscore := (score, teamscore.1);
      } else {
        score := teamscore.1 + 1;
        teamscore := (teamscore.0, score);
      }
      if c.winningScore > 0 && score == c.winningScore {
        EndMatch();
      }
    }

    /** One object's turn in the first loop of `collisionDetect`: the map, then the flag point. */
    method MapSlot(i: nat)
      requires Valid() && i < MAXOBJS && (objlist[i].Some? ==> objlist[i].value.x >= 0 && objlist[i].value.y >= 0)
      modifies this`teamscore, this`gameOver, this`dropped, objlist, players
      ensures View() == G.MapSlot(c, old(View()), i)
    {
      if objlist[i] == None {
        return;
      }
      var obj := objlist[i].value;
      var hit := DetectMapCollision(c.rows, obj.kind, obj.x, obj.y);
      if !obj.flags.noCollide && obj.mapColFudge == 0 && hit {
        if obj.armour == 0 {
          obj := obj.(flags := obj.flags.(destroyed := true), actual := obj.actual.(vel := 0));
        } else {
          var dmg := obj.actual.vel + 10;
          if dmg > c.maxWallDmg { dmg := c.maxWallDmg; }
          obj := obj.(hp := obj.hp - dmg);
          if obj.hp <= 0 {
            obj := obj.(flags := obj.flags.(destroyed := true), actual := obj.actual.(vel := 0));
          } else {
            obj := obj.(commanded := obj.commanded.(vel := 0), push := Vec(Reverse(obj.actual.dir), 16),
                mapColFudge := 3);
          }
        }
      }
      assert obj == G.Crash(c, old(objlist[i]).value);
      Store(i, obj);
      if obj.flags.hasFlag && G.AtHome(c, obj) {
        FlagCaptured(i);
      }
    }

    /** `flagCollision`, called when at least one of the two objects is a flag. */
    method FlagCollision(i: nat, j: nat)
      requires Valid() && i < MAXOBJS && j < MAXOBJS && i != j && objlist[i].Some? && objlist[j].Some?
      modifies objlist
      ensures View() == G.FlagCollision(c, old(View()), i, j)
    {
      if objlist[i].value.kind == Flag && objlist[j].value.kind == Flag {
        return;
      }
      var f, t := j, i;
      if objlist[i].value.kind == Flag {
        f, t := i, j;
      }
      var flag, thing := objlist[f].value, objlist[t].value;
      if !thing.flags.noCollide && !thing.flags.exploding && 0 <= thing.owner < MAXCLIENTS
         && players[thing.owner].Some? && players[thing.owner].value.tank == Some(t) {
        if thing.team == flag.team {
          var hx, hy := G.HomeX(c, flag.team), G.HomeY(c, flag.team);
          if hx != flag.x || hy != flag.y {
            flag := flag.(prevx := flag.x, prevy := flag.y);
            flag := flag.(x := hx, y := hy);
            Store(f, flag);
          }
        } else {
          Store(f, flag.(flags := flag.flags.(destroyed := true)));
          Store(t, thing.(flags := thing.flags.(hasFlag := true)));
        }
      }
    }

    /** `powerupTouched`, the collision function of powerups only. */
    method PowerupTouched(u: nat, w: nat)
      requires Valid() && u < MAXOBJS && w < MAXOBJS && u != w && objlist[u].Some? && objlist[w].Some?
      modifies objlist
      ensures View() == G.Put(old(View()), w, G.Refill(old(objlist[u]).value, old(objlist[w]).value))
    {
      var powerup, with := objlist[u].value, objlist[w].value;
      if powerup.destruct.ResetSpawn? && with.kind == Tank {
        if powerup.kind == Fuel {
          with := with.(hp := with.hp + FUELINC);
          if with.hp > MAXHP { with := with.(hp := MAXHP); }
        } else if powerup.kind == Ammo {
          with := with.(ammo := with.ammo + AMMOINC);
          if with.ammo > MAXAMMO { with := with.(ammo := MAXAMMO); }
        }
      }
      Store(w, with);
    }

    /** `shoveObject`. */
    method ShoveObject(i: nat, j: nat)
      requires Valid() && i < MAXOBJS && j < MAXOBJS && i != j && objlist[i].Some? && objlist[j].Some?
      modifies objlist
      ensures var v := G.ShovePush(old(objlist[i]).value, old(objlist[j]).value);
              View() == G.Put(G.Put(old(View()), i, G.Shoved(old(objlist[i]).value, v.(dir := Reverse(v.dir)))), j,
                  G.Shoved(old(objlist[j]).value, v))
    {
      var obj, with := objlist[i].value, objlist[j].value;
      var rel := with.actual;
      rel := rel.(dir := (rel.dir + 8) % 16);
      var cvec := AddVector(obj.actual, rel);
      cvec := cvec.(vel := cvec.vel + REBOUND);
      if cvec.vel > MAX_PUSH { cvec := cvec.(vel := MAX_PUSH); }
      Store(j, with.(push := cvec));
      cvec := cvec.(dir := (cvec.dir + 8) % 16);
      Store(i, obj.(push := cvec));
      assert objlist[..] == old(objlist[..])[i := objlist[i]][j := objlist[j]];
    }

    /** `dealDamage`. */
    method DealDamage(i: nat, j: nat)
      requires Valid() && i < MAXOBJS && j < MAXOBJS && i != j && objlist[i].Some? && objlist[j].Some?
      modifies objlist
      ensures View() == G.Put(G.Put(old(View()), i, G.Damaged(old(objlist[i]).value, old(objlist[j]).value.kind)),
                              j, G.Damaged(old(objlist[j]).value, old(objlist[i]).value.kind))
    {
      var obj1, obj2 := objlist[i].value, objlist[j].value;
      obj1 := obj1.(hp := obj1.hp - PropsOf(obj2.kind).damage);
      obj2 := obj2.(hp := obj2.hp - PropsOf(obj1.kind).damage);
      if obj1.armour == 0 || obj1.hp < 1 {
        obj1 := obj1.(flags := obj1.flags.(destroyed := true, exploding := true));
      }
      if obj2.armour == 0 || obj2.hp < 1 {
        obj2 := obj2.(flags := obj2.flags.(destroyed := true, exploding := true));
      }
      Store(i, obj1);
      Store(j, obj2);
    }

    /** One pair of the second loop of `collisionDetect`. */
    method CollidePair(i: nat, j: nat)
      requires Valid() && i < j < MAXOBJS && objlist[i].Some?
      modifies objlist
      ensures View() == G.CollidePair(c, old(View()), i, j)
      ensures objlist[i].Some?
    {
      if objlist[j] == None || !G.CollidesWith(objlist[i].value, objlist[j].value) {
        return;
      }
      if objlist[i].value.kind == Flag || objlist[j].value.kind == Flag {
        FlagCollision(i, j);
      } else {
        hide G.Bump;
        BumpPair(i, j);
      }
    }

    /** The part of `collisionDetect` for two objects of which neither is a flag. */
    method BumpPair(i: nat, j: nat)
      requires Valid() && i < j < MAXOBJS && objlist[i].Some? && objlist[j].Some?
      modifies objlist
      ensures var r := G.Bump(old(objlist[i]).value, old(objlist[j]).value);
              objlist[..] == old(objlist[..])[i := Some(r.0)][j := Some(r.1)]
    {
      PowerupTouched(i, j);
      PowerupTouched(j, i);
      if PropsOf(objlist[i].value.kind).mass > 0 && PropsOf(objlist[j].value.kind).mass > 0 {
        ShoveObject(i, j);
      }
      DealDamage(i, j);
    }

    /** `collisionDetect`. The invariant is what keeps map coordinates from being negative. */
    method CollisionDetect()
      requires Valid() && Inv(View(), 0, 0, -1)
      modifies this`teamscore, this`gameOver, this`dropped, objlist, players
      ensures View() == G.CollisionDetect(c, old(View())) && Inv(View(), 0, 0, -1)
    {
      var i := 0;
      while i < MAXOBJS
        invariant i <= MAXOBJS && Inv(View(), 0, 0, -1)
        invariant G.MapFrom(c, View(), i) == G.MapFrom(c, old(View()), 0)
      {
        assert SlotOk(View(), 0, 0, i);
        MapSlotInv(c, View(), i);
        MapSlot(i);
        i := i + 1;
      }
      PairsInv(c, View(), 0, 1);
      CollidePairs();
    }

    method CollidePairs()
      requires Valid()
      modifies objlist
      ensures View() == G.PairsFrom(c, old(View()), 0, 1)
    {
      ghost var all := G.PairsFrom(c, View(), 0, 1);
      var i := 0;
      while i < MAXOBJS - 1
        invariant i <= MAXOBJS - 1
        invariant if i < MAXOBJS - 1 then G.PairsFrom(c, View(), i, i + 1) == all else View() == all
      {
        var j := i + 1;
        while j < MAXOBJS
          invariant i < j <= MAXOBJS && G.PairsFrom(c, View(), i, j) == all
        {
          if objlist[i] == None {
            RestOfRow(c, View(), i, j);
            break;
          }
          CollidePair(i, j);
          j := j + 1;
        }
        assert G.PairsFrom(c, View(), i, MAXOBJS) == all;
        i := i + 1;
      }
    }

    // ---- destructors

    /** `destroyPlayerObj`. */
    method DestroyPlayerObj(i: nat)
      requires Valid() && i < MAXOBJS && objlist[i].Some?
      modifies this`dropped, objlist, players
      ensures View() == G.DestroyPlayerObj(old(View()), i)
    {
      var obj := objlist[i].value;
      if obj.flags.hasFlag {
        PlaceFlag(G.OtherTeam(obj.team), obj.x, obj.y);
      }
      if 0 <= obj.owner < MAXCLIENTS && players[obj.owner].Some? {
        var k, p := obj.owner, players[obj.owner].value;
        if p.lives > -1 {
          p := p.(lives := p.lives - 1);
          if p.lives == 0 {
            p := p.(flags := PlayerFlags(false, false, true, false, false, false));
            obj := obj.(owner := -1);
          }
        }
        StorePlayer(k, p);
      }
      obj := obj.(flags := NOFLAGS.(noCollide := true, exploding := true));
      obj := obj.(kind := Explosion, ttl := 15, destruct := NoDestructor);
      Store(i, obj);
    }

    /** `doObjectUpdates`. */
    method DoObjectUpdates()
      requires Valid() && Boundary(View())
      modifies this`teamscore, this`gameOver, this`draws, this`dropped, objlist, players, powerups
      ensures View() == G.DoObjectUpdates(c, old(View()))
    {
      StartFrame(View());
      UpdateInv(View(), -1, 0);
      SpawnTicksInv(G.UpdateFrom(View(), 0), -1, 0);
      ghost var s0 := View();
      var i := 0;
      while i < MAXOBJS
        invariant i <= MAXOBJS && G.UpdateFrom(View(), i) == G.UpdateFrom(s0, 0)
      {
        UpdateSlot(i);
        i := i + 1;
      }
      UpdatePowerSpawns();
      CollisionDetect();
      RunDestructors();
    }

    method RunDestructors()
      requires Valid() && Inv(View(), 0, 0, -1)
      modifies this`draws, this`dropped, objlist, players, powerups
      ensures View() == G.DestructFrom(c, old(View()), 0)
    {
      var i := 0;
      while i < MAXOBJS
        invariant i <= MAXOBJS && Inv(View(), i, 0, -1)
        invariant G.DestructFrom(c, View(), i) == G.DestructFrom(c, old(View()), 0)
      {
        assert SlotOk(View(), i, 0, i);
        DestructSlotInv(c, View(), i);
        DestructSlot(i);
        i := i + 1;
      }
    }

    method DestructSlot(i: nat)
      requires Valid() && i < MAXOBJS
      requires objlist[i].Some? && objlist[i].value.destruct.ResetSpawn? ==>
          objlist[i].value.destruct.spawn < powerups.Length
      modifies this`draws, this`dropped, objlist, players, powerups
      ensures View() == G.DestructSlot(c, old(View()), i)
    {
      if objlist[i].Some? && objlist[i].value.flags.destroyed {
        match objlist[i].value.destruct
        case NoDestructor =>
        case DestroyPlayer => DestroyPlayerObj(i);
        case ResetSpawn(n) => RestartSpawn(n);
      }
    }

    // ---- the rest of a frame

    /** The viewport part of `makeUpdates`; what is sent to the clients is in MakeSpriteUpdates. */
    method UpdateViews()
      requires Valid()
      modifies players
      ensures View() == G.ViewsFrom(old(View()), 0)
    {
      var k := 0;
      while k < MAXCLIENTS
        invariant k <= MAXCLIENTS && G.ViewsFrom(View(), k) == G.ViewsFrom(old(View()), 0)
      {
        if players[k].Some? && players[k].value.flags.running {
          UpdateView(k);
        } else {
          assert players[k].Some? ==> players[..] == players[..][k := Some(players[k].value)];
        }
        k := k + 1;
      }
    }

    method UpdateView(k: nat)
      requires Valid() && k < MAXCLIENTS && players[k].Some? && players[k].value.flags.running
      modifies players
      ensures View() == G.PutPlayer(old(View()), k,
          G.ViewTick(old(players[k]).value, G.TankOf(old(View()), old(players[k]).value)))
    {
      var p := players[k].value;
      if p.flags.newView {
        p := p.(flags := p.flags.(newView := false));
      } else {
        if p.vpcframes != 0 { p := p.(vpcframes := p.vpcframes - 1); }
        if p.tank.Some? && p.tank.value < MAXOBJS && objlist[p.tank.value].Some? {
          var t := objlist[p.tank.value].value;
          if !G.InView(t.x, t.y, p.view) && p.vpcframes == 0 {
            p := p.(vpcframes := 5);
          }
        }
      }
      StorePlayer(k, p);
    }

    /** `makeSpriteUpdates`: what a player who is not a spectator is sent in this frame. */
    method MakeSpriteUpdates(k: nat) returns (ms: seq<Msg>)
      requires Valid() && k < MAXCLIENTS && players[k].Some?
      ensures ms == Updates(View().objs, players[k].value, G.TankOf(View(), players[k].value))
    {
      var p := players[k].value;
      ms := [];
      if !p.flags.running || p.flags.newView {
        return;
      }
      var wait := p.vpcframes;
      if wait != 0 { wait := wait - 1; }
      if p.tank.Some? && p.tank.value < MAXOBJS && objlist[p.tank.value].Some? {
        var t := objlist[p.tank.value].value;
        if !G.InView(t.x, t.y, p.view) {
          if wait == 0 {
            ms := [ViewMsg(t.x / 16 % 0x10000, t.y / 16 % 0x10000)];
          }
          return;
        }
      }
      var objid := 0;
      while objid < MAXOBJS
        invariant objid <= MAXOBJS && ms == ObjectMsgs(objlist[..], objid, p.view)
      {
        if objlist[objid].Some? {
          var obj := objlist[objid].value;
          if G.InView(obj.x, obj.y, p.view) {
            if obj.flags.destroyed || obj.flags.vanished {
              ms := ms + [RemoveMsg(objid)];
            } else {
              ms := ms + [SpriteMsg(objid, obj.x / 16 - p.view.left, obj.y / 16 - p.view.top)];
            }
          } else if G.InView(obj.prevx, obj.prevy, p.view) {
            ms := ms + [RemoveMsg(objid)];
          }
        }
        objid := objid + 1;
      }
    }

    method CheckTime()
      requires Valid()
      modifies this`timeRemaining, this`gameOver, players
      ensures View() == G.TimeTick(c, old(View()))
    {
      if c.timeLimit > -1 && running {
        timeRemaining := timeRemaining - 1;
        if timeRemaining == 0 {
          EndMatch();
        }
      }
    }

    /** `sendClientMessages`: every buffer is sent and emptied, and a client that cannot be sent to is removed. */
    method SendClientMessages(lost: set<nat>)
      requires Valid()
      modifies this`playerCount, this`dropped, this`deadPlayerIdx, this`freed
      modifies objlist, players, cliaddr, playerBuf, records, deadPlayers
      ensures Valid() && World(View(), Net()) == Send(old(World(View(), Net())), lost, 0)
    {
      var k := 0;
      while k < MAXCLIENTS
        invariant Valid() && k <= MAXCLIENTS
            && Send(World(View(), Net()), lost, k) == Send(old(World(View(), Net())), lost, 0)
      {
        if cliaddr[k] {
          if k in lost && players[k].Some? {
            RemoveClient(k);
          } else {
            SetBuffer(k, []);
          }
        }
        k := k + 1;
      }
    }

    method SetBuffer(k: nat, q: seq<Framing.Message>)
      requires Valid() && k < MAXCLIENTS
      modifies playerBuf
      ensures View() == old(View()) && Net() == old(Net()).(bufs := old(Net()).bufs[k := Some(q)])
    {
      playerBuf[k] := Some(q);
      assert playerBuf[..] == old(playerBuf[..])[k := Some(q)];
    }

    /** `cleanObjects`. */
    method CleanObjects()
      requires Valid()
      modifies this`dropped, objlist, players
      ensures View() == G.CleanFrom(c, old(View()), 0)
    {
      var i := 0;
      while i < MAXOBJS
        invariant i <= MAXOBJS && G.CleanFrom(c, View(), i) == G.CleanFrom(c, old(View()), 0)
      {
        ghost var was := View();
        if objlist[i].Some? && (objlist[i].value.flags.vanished || objlist[i].value.flags.destroyed) {
          var obj := objlist[i].value;
          if 0 <= obj.owner < MAXCLIENTS && players[obj.owner].Some? && players[obj.owner].value.tank == Some(i)
              && obj.flags.destroyed {
            SpawnPlayer(obj.owner);
          }
          Free(i);
        }
        assert View() == G.CleanSlot(c, was, i);
        i := i + 1;
      }
    }

    method BuryDead()
      requires Valid()
      modifies this`playerCount, this`dropped, this`deadPlayerIdx, this`freed
      modifies objlist, players, cliaddr, playerBuf, records, deadPlayers
      ensures Valid() && World(View(), Net()) == Bury(old(World(View(), Net())), 0)
    {
      var k := 0;
      while k < MAXCLIENTS
        invariant Valid() && k <= MAXCLIENTS && Bury(World(View(), Net()), k) == Bury(old(World(View(), Net())), 0)
      {
        if players[k].Some? && players[k].value.flags.dead {
          RemoveClient(k);
        }
        k := k + 1;
      }
    }

    method CreateFlags()
      requires Valid()
      modifies this`dropped, objlist
      ensures View() == G.CreateFlags(c, old(View()))
    {
      PlaceFlag(0, G.HomeX(c, 0), G.HomeY(c, 0));
      PlaceFlag(1, G.HomeX(c, 1), G.HomeY(c, 1));
    }

    /** `initObjList` with the players kept and the register of the dead already freed. */
    method InitObjList()
      requires Valid() && deadPlayerIdx == 0
      modifies this`teamscore, this`playerCount, this`running, this`gameOver, this`timeRemaining, this`dropped, objlist
      ensures View() == G.Cleared(c, old(View())) && Net() == old(Net())
    {
      var i := 0;
      while i < MAXOBJS
        invariant i <= MAXOBJS && View() == old(View()).(objs := View().objs)
        invariant forall j :: 0 <= j < i ==> objlist[j] == None
      {
        objlist[i] := None;
        i := i + 1;
      }
      assert objlist[..] == NoObjs();
      teamscore, playerCount, running, gameOver := (0, 0), 0, false, false;
      timeRemaining, dropped := c.timeLimit, {};
    }

    /** `resetGame`. */
    method ResetGame()
      requires Valid()
      modifies this, objlist, players, powerups, cliaddr, playerBuf, records, deadPlayers
      ensures Valid() && World(View(), Net()) == Reset(c, old(World(View(), Net())))
    {
      EvictPlayers();
      FreeDead();
      InitObjList();
      CreateFlags();
      RestartSpawns();
    }

    method EvictPlayers()
      requires Valid()
      modifies this`playerCount, this`dropped, this`deadPlayerIdx, this`freed
      modifies objlist, players, cliaddr, playerBuf, records, deadPlayers
      ensures Valid() && World(View(), Net()) == Evict(old(World(View(), Net())), 0)
    {
      var k := 0;
      while k < MAXCLIENTS
        invariant Valid() && k <= MAXCLIENTS && Evict(World(View(), Net()), k) == Evict(old(World(View(), Net())), 0)
      {
        if players[k].Some? && !players[k].value.flags.spectator {
          RemoveClient(k);
        }
        k := k + 1;
      }
    }

    method FreeDead()
      requires Valid()
      modifies this`deadPlayerIdx, this`freed
      ensures Valid() && deadPlayerIdx == 0 && View() == old(View()) && Net() == Forget(old(Net()))
    {
      var i := 0;
      while i < deadPlayerIdx
        invariant i <= deadPlayerIdx == old(deadPlayerIdx)
        invariant freed == old(freed) + deadPlayers[..i]
      {
        freed := freed + [deadPlayers[i]];
        assert deadPlayers[..i + 1] == deadPlayers[..i] + [deadPlayers[i]];
        i := i + 1;
      }
      deadPlayerIdx := 0;
    }

    /** `resetPowerupSpawnPoints`. */
    method RestartSpawns()
      requires Valid()
      modifies this`draws, powerups
      ensures View() == G.RestartAll(c, old(View()), 0)
    {
      var n := 0;
      while n < powerups.Length
        invariant n <= powerups.Length && G.RestartAll(c, View(), n) == G.RestartAll(c, old(View()), 0)
      {
        RestartSpawn(n);
        n := n + 1;
      }
    }

    // ---- the clients' buffers

    /** `addMessage`, for each of the messages in turn. */
    method Queue(k: nat, offered: seq<Framing.Message>)
      requires Valid() && k < MAXCLIENTS && playerBuf[k].Some?
      modifies playerBuf
      ensures View() == old(View())
      ensures var q := Framing.Accepted(old(playerBuf[k]).value, offered);
              Net() == old(Net()).(bufs := old(Net()).bufs[k := Some(q)])
    {
      var q := playerBuf[k].value;
      for i := 0 to |offered|
        invariant Framing.Accepted(q, offered[i..]) == Framing.Accepted(old(playerBuf[k]).value, offered)
      {
        assert offered[i..][1..] == offered[i + 1..];
        if Framing.Fits(q, offered[i]) {
          q := q + [offered[i]];
        }
      }
      SetBuffer(k, q);
    }

    /** Messages for every client that has a buffer. */
    method Speak(said: nat -> seq<Framing.Message>)
      requires Valid()
      modifies playerBuf
      ensures View() == old(View()) && Net() == Spoken(old(Net()), said)
    {
      hide Framing.Accepted;
      ghost var n := Spoken(Net(), said);
      for k := 0 to MAXCLIENTS
        invariant View() == old(View()) && Net() == old(Net()).(bufs := Net().bufs)
        invariant forall j :: 0 <= j < k ==> playerBuf[j] == n.bufs[j]
        invariant forall j :: k <= j < MAXCLIENTS ==> playerBuf[j] == old(playerBuf[j])
      {
        if playerBuf[k].Some? {
          Queue(k, said(k));
        }
      }
      assert playerBuf[..] == n.bufs;
    }

    /** The calls of `makeSpriteUpdates` in `makeUpdates`, where `s` is the state when the frame began. */
    method QueueSprites(ghost s: G.State, look: nat -> nat -> Look)
      requires Valid() && View() == G.DoObjectUpdates(c, s)
      requires forall k :: 0 <= k < MAXCLIENTS && playerBuf[k].Some? ==> players[k].Some?
      modifies playerBuf
      ensures View() == old(View()) && Net() == SpritesQueued(c, s, old(Net()), look)
    {
      hide Framing.Accepted, G.DoObjectUpdates, PackAll, Updates;
      ghost var n := SpritesQueued(c, s, Net(), look);
      for k := 0 to MAXCLIENTS
        invariant View() == old(View()) && Net() == old(Net()).(bufs := Net().bufs)
        invariant forall j :: 0 <= j < k ==> playerBuf[j] == n.bufs[j]
        invariant forall j :: k <= j < MAXCLIENTS ==> playerBuf[j] == old(playerBuf[j])
      {
        if playerBuf[k].Some? {
          var ms := [];
          if !players[k].value.flags.spectator {
            ms := MakeSpriteUpdates(k);
          }
          assert ms == FrameMsgs(c, s, k);
          Queue(k, PackAll(ms, look(k)));
        }
      }
      assert playerBuf[..] == n.bufs;
    }

    // ---- the whole frame

    /** `makeUpdates`: one frame. Sending to the clients in `lost` fails; `talk` is what else is
        queued for the clients in it. */
    method MakeUpdates(lost: set<nat>, talk: Talk)
      requires Valid() && Boundary(View()) && Sync(players[..], Net())
      modifies this, objlist, players, powerups, cliaddr, playerBuf, records, deadPlayers
      ensures Valid() && World(View(), Net()) == ClientSlots.MakeUpdates(c, old(World(View(), Net())), lost, talk)
      ensures View() == G.Frame(c, old(View()), lost) && Boundary(View()) && Sync(players[..], Net())
    {
      hide Boundary, Sync, G.Frame;
      ghost var w := World(View(), Net());
      FrameBoundary(c, w.s, lost);
      MakeUpdatesSync(c, w, lost, talk);
      QueueFrame(talk);
      UpdateViews();
      CheckTime();
      SendClientMessages(lost);
      CleanObjects();
      BuryDead();
      FinishFrame();
    }

    /** `makeUpdates` up to the last message for a client. */
    method QueueFrame(talk: Talk)
      requires Valid() && Boundary(View()) && Sync(players[..], Net())
      modifies this`teamscore, this`gameOver, this`draws, this`dropped, objlist, players, powerups, playerBuf
      ensures View() == G.DoObjectUpdates(c, old(View())) && Net() == FrameQueued(c, old(View()), old(Net()), talk)
    {
      ghost var s, n := View(), Net();
      Shape(s.players, n);
      UpdatedSlots(c, s);
      hide Boundary, Sync, G.DoObjectUpdates, SpritesQueued;
      DoObjectUpdates();
      Speak(talk.before);
      assert forall k :: 0 <= k < MAXCLIENTS ==> (playerBuf[k].Some? <==> n.bufs[k].Some?);
      QueueSprites(s, talk.look);
      Speak(talk.after);
    }

    /** The match is over when it was won, timed out, or everybody has gone. */
    method FinishFrame()
      requires Valid()
      modifies this, objlist, players, powerups, cliaddr, playerBuf, records, deadPlayers
      ensures Valid() && World(View(), Net()) == Finish(c, old(World(View(), Net())))
    {
      if running && playerCount == 0 {
        gameOver := true;
      }
      if gameOver {
        ResetGame();
      }
    }

    // ---- messages from clients

    /** `addNewClient`: the first free slot, or a refusal. */
    method AddNewClient(spectator: bool) returns (k: nat)
      requires Valid()
      modifies this`playerCount, this`made, players, cliaddr, playerBuf, records
      ensures Valid() && k == FirstUnset(old(Net()).addr, 0)
      ensures View() == if k < MAXCLIENTS then G.MakeNewPlayer(c, old(View()), k, spectator) else old(View())
      ensures Net() == if k < MAXCLIENTS then Occupy(old(Net()), k) else old(Net())
    {
      k := 0;
      while k < MAXCLIENTS && cliaddr[k]
        invariant k <= MAXCLIENTS && FirstUnset(cliaddr[..], 0) == FirstUnset(cliaddr[..], k)
      {
        k := k + 1;
      }
      if k < MAXCLIENTS {
        cliaddr[k] := true;
        playerBuf[k] := Some([]);
        records[k] := Some(made);
        made := made + 1;
        assert cliaddr[..] == old(cliaddr[..])[k := true] && playerBuf[..] == old(playerBuf[..])[k := Some([])];
        assert records[..] == old(records[..])[k := Some(old(made))];
        MakeNewPlayer(k, spectator);
      }
    }

    /** `isGameStartable`. */
    method IsGameStartable() returns (startable: bool)
      requires Valid()
      ensures startable == G.Startable(players[..], c.minPlayers, 0, 0)
    {
      var count, k := 0, 0;
      while k < MAXCLIENTS
        invariant k <= MAXCLIENTS && 0 <= count
        invariant G.Startable(players[..], c.minPlayers, k, count) == G.Startable(players[..], c.minPlayers, 0, 0)
      {
        if players[k].Some? {
          var p := players[k].value;
          if !p.flags.ready {
            return false;
          }
          if p.team > 1 && !p.flags.spectator {
            return false;
          }
          count := count + 1;
        }
        k := k + 1;
      }
      startable := count >= c.minPlayers;
    }

    /** `tryToStopMatchmaking`. */
    method TryToStopMatchmaking()
      requires Valid()
      modifies players
      ensures View() == if G.Startable(old(View()).players, c.minPlayers, 0, 0)
                        then old(View()).(players := G.LeaveMatchmaking(old(View()).players, 0)) else old(View())
    {
      var startable := IsGameStartable();
      if startable {
        var k := 0;
        while k < MAXCLIENTS
          invariant k <= MAXCLIENTS && View() == old(View()).(players := View().players)
          invariant G.LeaveMatchmaking(View().players, k) == G.LeaveMatchmaking(old(View()).players, 0)
        {
          if players[k].Some? && players[k].value.flags.matchmaking {
            StorePlayer(k, players[k].value.(flags := PlayerFlags(false, false, false, false, true, false)));
          }
          k := k + 1;
        }
      }
    }

    /** `getMessage` for one message from a connected client other than START and BYE. */
    method GameMessage(k: nat, e: G.Input)
      requires Valid() && G.Connected(View(), k) && !e.Bye? && !e.PingOut? && !e.Start?
      modifies objlist, players
      ensures View() == G.ClientStep(c, old(View()), k, e)
    {
      var p := players[k].value;
      match e
      case Control(_, ctrls) =>
        if p.tank.Some? && p.tank.value < MAXOBJS && objlist[p.tank.value].Some? {
          Store(p.tank.value, objlist[p.tank.value].value.(ctrls := ctrls));
        }
      case ClientReady(_) => StorePlayer(k, p.(flags := p.flags.(running := true)));
      case ViewportMsg(_, view) =>
        p := p.(view := view);
        StorePlayer(k, p.(flags := p.flags.(newView := true)));
      case TeamRequest(_, team) =>
        if team <= 2 {
          StorePlayer(k, p.(team := team));
          OrderTeams();
        }
      case MatchStart(_) => StorePlayer(k, p.(flags := p.flags.(matchmaking := true)));
      case MatchStop(_) => TryToStopMatchmaking();
      case MatchReady(_) =>
        if p.team < 2 {
          StorePlayer(k, p.(flags := p.flags.(ready := true)));
        }
      case _ =>
    }

    /** `startPlayer`. What is queued for the player goes out at once, if it gets through. */
    method StartPlayer(k: nat, sent: bool)
      requires Valid() && G.Connected(View(), k)
      modifies this`running, this`dropped, objlist, players, playerBuf
      ensures View() == G.ClientStep(c, old(View()), k, G.Start(k))
      ensures Net() == Answered(c, old(World(View(), Net())), k, G.Start(k), sent)
    {
      hide StartAck, Framing.Accepted, G.NewTank;
      var p := players[k].value;
      if !p.flags.spectator {
        SpawnPlayer(k);
        running := true;
        if playerBuf[k].Some? {
          if sent { SetBuffer(k, []); } else { Queue(k, [StartAck(G.NewTank(c, k, p))]); }
        }
      }
    }

    /** The dispatch of a connected client's message, or the client's removal by `doPing`. */
    method ClientMessage(k: nat, e: G.Input, sent: bool)
      requires Valid() && G.Connected(View(), k)
      modifies this`playerCount, this`running, this`dropped, this`deadPlayerIdx, this`freed
      modifies objlist, players, cliaddr, playerBuf, records, deadPlayers
      ensures Valid() && View() == G.ClientStep(c, old(View()), k, e)
      ensures Net() == Answered(c, old(World(View(), Net())), k, e, sent)
    {
      hide StartAck, Started, G.NewTank, G.SpawnPlayer, Vacate;
      if e.Bye? || e.PingOut? {
        RemoveClient(k);
      } else if e.Start? {
        StartPlayer(k, sent);
      } else {
        GameMessage(k, e);
      }
    }

    /** One turn of the message loop: a message is dispatched, or a frame is run, and `talk` is
        what it makes the server say. */
    method MessageLoopTurn(e: G.Input, talk: Talk)
      requires Valid() && Boundary(View()) && G.Allowed(View(), e) && Sync(players[..], Net())
      modifies this, objlist, players, powerups, cliaddr, playerBuf, records, deadPlayers
      ensures Valid() && World(View(), Net()) == Turn(c, old(World(View(), Net())), e, talk)
      ensures View() == G.Step(c, old(View()), e) && Boundary(View()) && Sync(players[..], Net())
    {
      hide Boundary, Sync, G.Allowed, G.Step, Turn;
      StepBoundary(c, View(), e);
      TurnSync(c, World(View(), Net()), e, talk);
      if e.Tick? {
        TickTurn(e.lost, talk);
      } else {
        Dispatch(e, talk);
      }
    }

    /** A connected client's message, and what it makes the server say. */
    method Hear(k: nat, e: G.Input, talk: Talk)
      requires Valid() && G.Connected(View(), k) && !e.Tick? && !e.Hello?
      modifies this, objlist, players, cliaddr, playerBuf, records, deadPlayers
      ensures Valid() && World(View(), Net()) == Heard(c, old(World(View(), Net())), k, e, talk)
    {
      hide G.ClientStep, Spoken, Answered;
      ClientMessage(k, e, talk.sent);
      Speak(talk.before);
    }

    /** A message is dispatched. */
    method Dispatch(e: G.Input, talk: Talk)
      requires Valid() && !e.Tick?
      modifies this, objlist, players, cliaddr, playerBuf, records, deadPlayers
      ensures Valid() && World(View(), Net()) == Turn(c, old(World(View(), Net())), e, talk)
    {
      hide Heard, G.MakeNewPlayer, Spoken, Occupy;
      if e.Hello? {
        var k := AddNewClient(e.spectator);
        if k < MAXCLIENTS {
          Speak(talk.before);
        }
      } else if e.k < MAXCLIENTS && cliaddr[e.k] && players[e.k].Some? {
        Hear(e.k, e, talk);
      }
    }

    method TickTurn(lost: set<nat>, talk: Talk)
      requires Valid() && Boundary(View()) && Sync(players[..], Net())
      modifies this, objlist, players, powerups, cliaddr, playerBuf, records, deadPlayers
      ensures Valid() && World(View(), Net()) == Turn(c, old(World(View(), Net())), G.Tick(lost), talk)
      ensures View() == G.Step(c, old(View()), G.Tick(lost)) && Boundary(View()) && Sync(players[..], Net())
    {
      hide Boundary, Sync;
      MakeUpdates(lost, talk);
    }

    /** Start-up: an empty list but for the two flags, and the spawn points the map has. */
    constructor (cfg: G.Config, spawns: seq<PowerSpawn>)
      requires G.ValidConfig(cfg) && Ready(spawns)
      ensures Valid() && c == cfg && World(View(), Net()) == World(G.Init(cfg, spawns), Nobody())
      ensures Boundary(View()) && Sync(players[..], Net())
      ensures fresh(objlist) && fresh(players) && fresh(powerups)
      ensures fresh(cliaddr) && fresh(playerBuf) && fresh(records) && fresh(deadPlayers)
    {
      hide G.ValidConfig, Ready, Boundary, Sync, G.Init, Nobody, Shaped;
      c := cfg;
      objlist := new Option<Obj>[MAXOBJS](_ => None);
      players := new Option<Player>[MAXCLIENTS](_ => None);
      powerups := new PowerSpawn[|spawns|](i requires 0 <= i < |spawns| => spawns[i]);
      cliaddr := new bool[MAXCLIENTS](_ => false);
      playerBuf := new Option<seq<Framing.Message>>[MAXCLIENTS](_ => None);
      records := new Option<nat>[MAXCLIENTS](_ => None);
      deadPlayers := new nat[MAXCLIENTS](_ => 0);
      deadPlayerIdx, made, freed := 0, 0, [];
      teamscore, playerCount, running, gameOver := (0, 0), 0, false, false;
      timeRemaining, draws, dropped := cfg.timeLimit, 0, {};
      new;
      assert Apart();
      assert Blank(spawns) by { hide Apart; }
      hide Blank, Apart;
      FirstFlags(spawns);
    }

    /** Nothing has been put anywhere yet. */
    ghost predicate Blank(spawns: seq<PowerSpawn>)
      reads this, objlist, players, powerups, cliaddr, playerBuf, records, deadPlayers
    {
      && G.ValidConfig(c)
      && objlist.Length == MAXOBJS && players.Length == MAXCLIENTS && powerups.Length == |spawns|
      && cliaddr.Length == MAXCLIENTS && playerBuf.Length == MAXCLIENTS && records.Length == MAXCLIENTS
          && deadPlayers.Length == MAXCLIENTS
      && (forall i :: 0 <= i < MAXOBJS ==> objlist[i] == None)
      && (forall k :: 0 <= k < MAXCLIENTS ==>
          players[k] == None && !cliaddr[k] && playerBuf[k] == None && records[k] == None)
      && (forall i :: 0 <= i < |spawns| ==> powerups[i] == spawns[i])
      && deadPlayerIdx == 0 && made == 0 && freed == []
      && teamscore == (0, 0) && playerCount == 0 && !running && !gameOver
      && timeRemaining == c.timeLimit && draws == 0 && dropped == {}
    }

    /** The end of start-up, when everything is empty. */
    method FirstFlags(spawns: seq<PowerSpawn>)
      requires Blank(spawns) && Apart() && Ready(spawns)
      modifies this`dropped, objlist
      ensures Valid() && World(View(), Net()) == World(G.Init(c, spawns), Nobody())
      ensures Boundary(View()) && Sync(players[..], Net())
    {
      hide Boundary, Sync;
      assert objlist[..] == NoObjs() && players[..] == NoPlayers() && powerups[..] == spawns;
      assert Net() == Nobody();
      NobodySync();
      InitBoundary(c, spawns);
      InitPlayers(c, spawns);
      CreateFlags();
    }
  }

  /** Once slot `i` is empty the rest of its row is skipped. */
  lemma RestOfRow(c: G.Config, s: G.State, i: nat, j: nat)
    requires G.ValidConfig(c) && i < j <= MAXOBJS && s.objs[i] == None
    ensures G.PairsFrom(c, s, i, j) == G.PairsFrom(c, s, i, MAXOBJS)
    decreases MAXOBJS - j
  {
    if j < MAXOBJS { RestOfRow(c, s, i, j + 1); }
  }

  lemma PutTwice(s: G.State, i: nat, o: Obj, m: Obj)
    requires i < MAXOBJS
    ensures G.Put(G.Put(s, i, o), i, m) == G.Put(s, i, m)
  {
  }
}
