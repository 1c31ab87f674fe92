/** Reading a map row: its tiles, and the spawn points, flag points and powerups in it (map.c). */
module MapRows {
  import opened GameMap

  const MAXCOLS := 1024
  const MAXROWS := 1024
  const MAXSPAWNS := 10
  const MAXPWRSPAWNS := 20

  /** `char` is signed in the C code, so codes from 128 up compare below a space. */
  predicate IsTile(c: char) { ' ' < c < 128 as char }

  predicate IsEnd(c: char) { c == '\r' || c == '\n' || c == '\0' }

  predicate IsDigit(c: char) { '0' <= c <= '9' }

  predicate IsPowerup(c: char) { c == 'f' || c == 'g' }

  /** Spawn digits are repainted as the spawn tile. */
  function Painted(c: char): char { if IsDigit(c) then 's' else c }

  /** Where the scan of a text row stops. */
  predicate EndsAt(text: seq<char>, e: nat) {
    && e <= |text|
    && (forall i :: 0 <= i < e ==> !IsEnd(text[i]))
    && (e < MAXCOLS ==> e < |text| && IsEnd(text[e]))
    && e <= MAXCOLS
  }

  // ---- what a row registers

  /** A place in map pixels, 16 bits each. */
  datatype Corner = Corner(mapx: nat, mapy: nat)

  datatype Powerup = Powerup(tile: char, at: Corner)

  /** `spawnpoints`, `numSpawns`, `flags`, and the powerup spawn points up to `pwridx`. */
  datatype Marks = Marks(spawns: seq<Corner>, numSpawns: nat, flags: seq<Corner>, powerups: seq<Powerup>)

  predicate Sized(m: Marks) { |m.spawns| == MAXSPAWNS && |m.flags| == 2 && |m.powerups| <= MAXPWRSPAWNS }

  /** Two tile rows up; in the top two rows that wraps. */
  function Above(y: nat): nat { (y - 2) * 8 % 0x10000 }

  /** The last of the first `n` places where `c` stands, or -1. */
  function LastOf(text: seq<char>, n: nat, c: char): (r: int)
    requires n <= |text|
    ensures -1 <= r < n && (r >= 0 ==> text[r] == c) && forall k :: r < k < n ==> text[k] != c
  {
    if n == 0 then -1 else if text[n - 1] == c then n - 1 else LastOf(text, n - 1, c)
  }

  function Digits(text: seq<char>, n: nat): set<nat>
    requires n <= |text|
  {
    set i | 0 <= i < n && IsDigit(text[i])
  }

  /** The powerups of a row, in its order. */
  ghost predicate Lists(text: seq<char>, n: nat, offered: seq<MapTile>)
    requires n <= |text|
  {
    && Increasing(offered)
    && forall t :: t in offered <==> 0 <= t.x < n && IsPowerup(text[t.x]) && t.tile == text[t.x]
  }

  function Offers(powerups: seq<Powerup>, offered: seq<MapTile>, y: nat): seq<Powerup> {
    var all := powerups + seq(|offered|, i requires 0 <= i < |offered| =>
        Powerup(offered[i].tile, Corner(offered[i].x * 8, Above(y))));
    if |all| <= MAXPWRSPAWNS then all else all[..MAXPWRSPAWNS]
  }

  /** Each digit and each flag letter of the row moves its point to the last place where it stands
      in the row, digits are counted, and powerups are added while there is room. */
  ghost predicate Registers(text: seq<char>, n: nat, y: nat, m: Marks, r: Marks)
    requires n <= |text| && Sized(m)
  {
    && Sized(r)
    && (forall d :: 0 <= d < MAXSPAWNS ==> r.spawns[d] == Moved(m.spawns[d], LastOf(text, n, '0' + d as char), y * 8))
    && r.numSpawns == m.numSpawns + |Digits(text, n)|
    && (forall t :: 0 <= t < 2 ==> r.flags[t] == Moved(m.flags[t], LastOf(text, n, 'a' + t as char), Above(y)))
    && exists offered :: Lists(text, n, offered) && r.powerups == Offers(m.powerups, offered, y)
  }

  function Moved(p: Corner, x: int, mapy: nat): Corner { if x < 0 then p else Corner(x * 8, mapy) }

  lemma DigitNext(text: seq<char>, n: nat)
    requires n < |text|
    ensures |Digits(text, n + 1)| == |Digits(text, n)| + if IsDigit(text[n]) then 1 else 0
  {
    if IsDigit(text[n]) {
      assert Digits(text, n + 1) == Digits(text, n) + {n};
    } else {
      assert Digits(text, n + 1) == Digits(text, n);
    }
  }

  lemma ListNext(text: seq<char>, n: nat, offered: seq<MapTile>)
    requires n < |text| && Lists(text, n, offered)
    ensures Lists(text, n + 1, if IsPowerup(text[n]) then offered + [MapTile(text[n], n)] else offered)
  {
    if IsPowerup(text[n]) {
      var t := MapTile(text[n], n);
      assert forall i :: 0 <= i < |offered| ==> offered[i] in offered;
      assert Increasing(offered + [t]);
      assert forall u :: u in offered + [t] <==> u in offered || u == t;
    }
  }

  lemma OfferNext(powerups: seq<Powerup>, offered: seq<MapTile>, t: MapTile, y: nat)
    requires |powerups| <= MAXPWRSPAWNS
    ensures var was := Offers(powerups, offered, y);
            Offers(powerups, offered + [t], y) ==
            if |was| < MAXPWRSPAWNS then was + [Powerup(t.tile, Corner(t.x * 8, Above(y)))] else was
  {
  }

  /** What one character does, at column `i` of row `y`. */
  predicate Notes(c: char, i: nat, y: nat, m: Marks, r: Marks)
    requires Sized(m)
  {
    && Sized(r)
    && (forall d :: 0 <= d < MAXSPAWNS ==>
        r.spawns[d] == if c == '0' + d as char then Corner(i * 8, y * 8) else m.spawns[d])
    && r.numSpawns == m.numSpawns + (if IsDigit(c) then 1 else 0)
    && (forall t :: 0 <= t < 2 ==> r.flags[t] == if c == 'a' + t as char then Corner(i * 8, Above(y)) else m.flags[t])
    && r.powerups == m.powerups +
         if IsPowerup(c) && |m.powerups| < MAXPWRSPAWNS then [Powerup(c, Corner(i * 8, Above(y)))] else []
  }

  lemma RegistersNext(text: seq<char>, i: nat, y: nat, was: Marks, m: Marks, r: Marks)
    requires i < |text| && Sized(was) && Registers(text, i, y, was, m) && Notes(text[i], i, y, m, r)
    ensures Registers(text, i + 1, y, was, r)
  {
    hide Offers, Digits, Lists, Above;
    var offered :| Lists(text, i, offered) && m.powerups == Offers(was.powerups, offered, y);
    DigitNext(text, i);
    ListNext(text, i, offered);
    OfferNext(was.powerups, offered, MapTile(text[i], i), y);
    var more := if IsPowerup(text[i]) then offered + [MapTile(text[i], i)] else offered;
    assert Lists(text, i + 1, more) && r.powerups == Offers(was.powerups, more, y);
  }

  lemma NothingNoted(c: char, i: nat, y: nat, m: Marks, r: Marks)
    requires Sized(m) && IsEnd(c) && Notes(c, i, y, m, r)
    ensures r == m
  {
    assert r.spawns == m.spawns && r.flags == m.flags && r.powerups == m.powerups;
  }

  method Register(c: char, i: nat, y: nat, marks: Marks) returns (r: Marks)
    requires Sized(marks)
    ensures Sized(r) && Notes(c, i, y, marks, r)
  {
    r := marks;
    if '0' <= c <= '9' {
      var spawn := (c - '0') as int;
      r := r.(spawns := r.spawns[spawn := Corner(i * 8, y * 8)], numSpawns := r.numSpawns + 1);
    } else if c == 'a' || c == 'b' {
      var team := (c - 'a') as int;
      r := r.(flags := r.flags[team := Corner(i * 8, Above(y))]);
    } else if c == 'f' || c == 'g' {
      if |r.powerups| < MAXPWRSPAWNS {
        r := r.(powerups := r.powerups + [Powerup(c, Corner(i * 8, Above(y)))]);
      }
    }
  }

  /** Build the tile list of one text row, registering what is marked in it and repainting its
      spawn digits in place. */
  method BuildMapRow(text: array<char>, y: nat, was: Marks) returns (row: seq<MapTile>, marks: Marks, ghost end: nat)
    requires text.Length >= MAXCOLS || exists e :: 0 <= e < text.Length && IsEnd(text[e])
    requires y < MAXROWS && Sized(was)
    modifies text
    ensures EndsAt(old(text[..]), end)
    ensures Increasing(row)
    ensures forall t :: t in row <==>
              0 <= t.x < end && IsTile(old(text[..])[t.x]) && t.tile == Painted(old(text[..])[t.x])
    ensures Registers(old(text[..]), end, y, was, marks)
    ensures forall i :: 0 <= i < text.Length ==>
              text[i] == if i < end then Painted(old(text[i])) else old(text[i])
  {
    hide Registers, Notes, Sized;
    ghost var all := text[..];
    row, marks, end := [], was, 0;
    NothingYet(all, y, was);
    for i := 0 to MAXCOLS
      invariant end == i <= text.Length && Sized(marks) && Registers(all, i, y, was, marks)
      invariant forall k :: 0 <= k < i ==> !IsEnd(all[k]) && text[k] == Painted(all[k])
      invariant forall k :: i <= k < text.Length ==> text[k] == all[k]
      invariant forall t :: t in row <==> 0 <= t.x < i && IsTile(all[t.x]) && t.tile == Painted(all[t.x])
      invariant Increasing(row)
    {
      ghost var m := marks;
      marks := Register(text[i], i, y, marks);
      if IsDigit(text[i]) {
        text[i] := 's';
      }
      if IsTile(text[i]) {
        row := row + [MapTile(text[i], i)];
      } else if IsEnd(text[i]) {
        NothingNoted(all[i], i, y, m, marks);
        break;
      }
      RegistersNext(all, i, y, was, m, marks);
      end := end + 1;
    }
  }

  lemma NothingYet(text: seq<char>, y: nat, was: Marks)
    requires Sized(was)
    ensures Registers(text, 0, y, was, was)
  {
    assert Digits(text, 0) == {};
    assert Lists(text, 0, []) && was.powerups == Offers(was.powerups, [], y);
  }
}
