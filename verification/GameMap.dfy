/** Map rows and collision with them (map.c).

    A row's linked list of tiles is a sequence. Tile columns and rows are 128 units of a
    sixteenth of a pixel wide, objects are 256. */
module GameMap {
  import opened CtfServ

  datatype MapTile = MapTile(tile: char, x: nat)

  type Rows = seq<seq<MapTile>>

  predicate Increasing(row: seq<MapTile>) {
    forall i, j :: 0 <= i < j < |row| ==> row[i].x < row[j].x
  }

  predicate Sorted(rows: Rows) {
    forall r :: 0 <= r < |rows| ==> Increasing(rows[r])
  }

  predicate Solid(t: MapTile) { 'A' <= t.tile <= 'Z' }

  predicate RowMeets(r: nat, y: int) { r * 128 < y + 256 && y < r * 128 + 128 }

  /** Closed intervals: touching counts. */
  predicate TileMeets(t: MapTile, x: int) { t.x * 128 <= x + 256 && x <= t.x * 128 + 128 }

  predicate HitsRow(row: seq<MapTile>, x: int) {
    exists k :: 0 <= k < |row| && Solid(row[k]) && TileMeets(row[k], x)
  }

  /** Some solid tile overlaps the object's square. */
  predicate HitsMap(rows: Rows, x: int, y: int) {
    exists r :: 0 <= r < |rows| && RowMeets(r, y) && HitsRow(rows[r], x)
  }

  predicate MapCollision(rows: Rows, kind: Kind, x: int, y: int) {
    kind != Flag && HitsMap(rows, x, y)
  }

  /** The point (px, py) is in a solid tile: tiles are squares of 128 by 128 units, and both ends of
      one count sideways, but only its upper end downwards. */
  predicate SolidAt(rows: Rows, px: int, py: int) {
    exists r, k :: 0 <= r < |rows| && 0 <= k < |rows[r]| && 'A' <= rows[r][k].tile <= 'Z'
      && 0 <= px - 128 * rows[r][k].x <= 128 && 0 <= py - 128 * r < 128
  }

  /** An object that is not a flag is in a wall exactly if some point of its own square, 256 units wide
      and high, is in a solid tile. */
  lemma MapCollisionExact(rows: Rows, kind: Kind, x: int, y: int)
    ensures MapCollision(rows, kind, x, y) <==>
            kind != Flag && exists px, py :: 0 <= px - x <= 256 && 0 <= py - y < 256 && SolidAt(rows, px, py)
  {
    if MapCollision(rows, kind, x, y) {
      var r :| 0 <= r < |rows| && RowMeets(r, y) && HitsRow(rows[r], x);
      var k :| 0 <= k < |rows[r]| && Solid(rows[r][k]) && TileMeets(rows[r][k], x);
      var tx := rows[r][k].x * 128;
      var px, py := if x < tx then tx else x, if y < r * 128 then r * 128 else y;
      assert SolidAt(rows, px, py);
    }
    if px, py :| 0 <= px - x <= 256 && 0 <= py - y < 256 && SolidAt(rows, px, py) {
      var r, k :| 0 <= r < |rows| && 0 <= k < |rows[r]| && 'A' <= rows[r][k].tile <= 'Z'
        && 0 <= px - 128 * rows[r][k].x <= 128 && 0 <= py - 128 * r < 128;
      assert Solid(rows[r][k]) && TileMeets(rows[r][k], x) && RowMeets(r, y);
      assert HitsRow(rows[r], x);
    }
  }

  /** `detectMapCollision`: leaves a row at the first tile beyond the object, and tests a
      tile only by its two edges. Both shortcuts lose nothing. */
  method DetectMapCollision(rows: Rows, kind: Kind, x: nat, y: nat) returns (hit: bool)
    requires Sorted(rows)
    ensures hit == MapCollision(rows, kind, x, y)
  {
    if kind == Flag {
      return false;
    }
    var objy := y / 128;
    while objy * 128 < y + 256
      invariant y / 128 <= objy
      invariant forall r :: 0 <= r < objy && r < |rows| && RowMeets(r, y) ==> !HitsRow(rows[r], x)
      decreases y + 256 - objy * 128
    {
      if objy > |rows| - 1 {
        return false;
      }
      var row := rows[objy];
      var t := 0;
      while t < |row|
        invariant 0 <= t <= |row|
        invariant forall k :: 0 <= k < t ==> !(Solid(row[k]) && TileMeets(row[k], x))
      {
        var tx := row[t].x * 128;
        var txmax := tx + 128;
        var obxmax := x + 256;
        if obxmax < tx {
          assert forall k :: t <= k < |row| ==> row[t].x <= row[k].x;
          break;
        }
        if Solid(row[t]) {
          if tx >= x && tx <= obxmax {
            assert RowMeets(objy, y);
            return true;
          }
          if txmax >= x && txmax <= obxmax {
            assert RowMeets(objy, y);
            return true;
          }
        }
        t := t + 1;
      }
      objy := objy + 1;
    }
    hit := false;
  }
}
