/** The line editor of the matchmaking screens (client/mminput.c, resetinput and handleKey). */
module LineEditor {
  type Byte = n: int | 0 <= n < 256

  const INPUTSZ := 140
  const DELETE: Byte := 12
  const ENTER: Byte := 13

  predicate Printable(key: Byte) { 32 <= key <= 127 }

  // ---- what a line of keys means

  /** The text being typed, whether an effective key has been seen, and whether it is complete. */
  datatype Line = Line(text: seq<Byte>, debounced: bool, ready: bool)

  const EMPTY := Line([], false, false)

  function Press(l: Line, key: Byte, length: int): Line {
    if key == DELETE then Line(if l.text == [] then [] else l.text[..|l.text| - 1], true, l.ready)
    else if key == ENTER then if l.debounced then l.(ready := true) else l.(debounced := true)
    else if !Printable(key) then l
    else if |l.text| >= INPUTSZ || |l.text| >= length then l.(debounced := true)
    else Line(l.text + [key], true, l.ready)
  }

  function Typed(l: Line, keys: seq<Byte>, length: int): Line
    decreases |keys|
  {
    if keys == [] then l else Typed(Press(l, keys[0], length), keys[1..], length)
  }

  /** Deleting undoes typing while there is room. */
  lemma DeleteUndoes(l: Line, key: Byte, length: int)
    requires Printable(key) && |l.text| < length <= INPUTSZ
    ensures Press(Press(l, key, length), DELETE, length).text == l.text
  {
    assert (l.text + [key])[..|l.text|] == l.text;
  }

  /** Printable keys alone leave the first of them, as many as fit. */
  lemma {:induction false} PrintableKeys(l: Line, keys: seq<Byte>, length: int)
    requires 0 <= |l.text| <= length <= INPUTSZ && forall k :: k in keys ==> Printable(k)
    ensures var all := l.text + keys;
            Typed(l, keys, length).text == if |all| <= length then all else all[..length]
    decreases |keys|
  {
    if keys == [] {
      assert l.text + keys == l.text;
    } else {
      assert keys[0] in keys;
      PrintableKeys(Press(l, keys[0], length), keys[1..], length);
      if |l.text| < length {
        assert l.text + keys == l.text + [keys[0]] + keys[1..];
      } else {
        assert (l.text + keys)[..length] == l.text == (l.text + keys[1..])[..length];
      }
    }
  }

  /** A key that can end the debouncing. */
  predicate Effective(key: Byte) { key == DELETE || key == ENTER || Printable(key) }

  /** The line is complete exactly when an Enter has come after some effective key, so that an
      Enter still held down from the screen before does not complete it. */
  lemma {:induction false} ReadyExact(keys: seq<Byte>, length: int)
    ensures Typed(EMPTY, keys, length).debounced <==> exists i :: 0 <= i < |keys| && Effective(keys[i])
    ensures Typed(EMPTY, keys, length).ready <==>
              exists i, j :: 0 <= i < j < |keys| && Effective(keys[i]) && keys[j] == ENTER
    decreases |keys|
  {
    if keys != [] {
      var l := |keys| - 1;
      ReadyExact(keys[..l], length);
      TypedSnoc(EMPTY, keys, length);
      assert forall i :: 0 <= i < l ==> keys[..l][i] == keys[i];
    }
  }

  lemma {:induction false} TypedSnoc(l: Line, keys: seq<Byte>, length: int)
    requires keys != []
    ensures Typed(l, keys, length) == Press(Typed(l, keys[..|keys| - 1], length), keys[|keys| - 1], length)
    decreases |keys|
  {
    if |keys| == 1 {
      assert keys[..0] == [] && keys[1..] == [];
    } else {
      var p := Press(l, keys[0], length);
      TypedSnoc(p, keys[1..], length);
      assert keys[1..][..|keys| - 2] == keys[..|keys| - 1][1..];
    }
  }

  /** The text never outgrows the field. */
  lemma {:induction false} TypedFits(l: Line, keys: seq<Byte>, length: int)
    requires |l.text| == 0 || |l.text| <= length
    ensures var t := Typed(l, keys, length).text; |t| == 0 || |t| <= length
    decreases |keys|
  {
    if keys != [] { TypedFits(Press(l, keys[0], length), keys[1..], length); }
  }

  // ---- the byte past the buffer

  /** Enter stores its NUL past the buffer: it counts, and the text fills the buffer. */
  predicate Spill(l: Line, key: Byte) { key == ENTER && l.debounced && |l.text| == INPUTSZ }

  predicate Spills(l: Line, keys: seq<Byte>, length: int)
    decreases |keys|
  {
    keys != [] && (Spill(l, keys[0]) || Spills(Press(l, keys[0], length), keys[1..], length))
  }

  /** It happens exactly if some Enter of the run finds such a line. */
  lemma {:induction false} SpillsExact(l: Line, keys: seq<Byte>, length: int)
    ensures Spills(l, keys, length) <==> exists j :: 0 <= j < |keys| && Spill(Typed(l, keys[..j], length), keys[j])
    decreases |keys|
  {
    if keys != [] {
      hide Press, Spill;
      var p, rest := Press(l, keys[0], length), keys[1..];
      SpillsExact(p, rest, length);
      assert keys[..0] == [];
      forall j | 0 <= j < |rest| ensures Typed(p, rest[..j], length) == Typed(l, keys[..j + 1], length) {
        var b := j + 1;
        assert keys[..b][1..] == rest[..j];
      }
      if j :| 0 <= j < |rest| && Spill(Typed(p, rest[..j], length), rest[j]) {
        var b := j + 1;
        assert Spill(Typed(l, keys[..b], length), keys[b]);
      }
      if j :| 0 < j < |keys| && Spill(Typed(l, keys[..j], length), keys[j]) {
        var b := j - 1;
        assert Spill(Typed(p, rest[..b], length), rest[b]);
      }
    }
  }

  /** A field shorter than the buffer is safe, whatever is typed. */
  lemma {:induction false} ShortFieldSafe(l: Line, keys: seq<Byte>, length: int)
    requires length < INPUTSZ && (|l.text| == 0 || |l.text| <= length)
    ensures !Spills(l, keys, length)
    decreases |keys|
  {
    if keys != [] { ShortFieldSafe(Press(l, keys[0], length), keys[1..], length); }
  }

  /** An instance: a field of 140 characters, filled with a printable key, and then Enter. */
  lemma FullLineSpills(key: Byte)
    requires Printable(key)
    ensures Spills(EMPTY, seq(INPUTSZ, _ => key) + [ENTER], INPUTSZ)
  {
    hide Spills, Typed;
    var typed := seq(INPUTSZ, _ => key);
    var keys := typed + [ENTER];
    assert keys[..INPUTSZ] == typed && EMPTY.text + typed == typed;
    PrintableKeys(EMPTY, typed, INPUTSZ);
    ReadyExact(typed, INPUTSZ);
    assert Effective(typed[0]);
    SpillsExact(EMPTY, keys, INPUTSZ);
    assert Spill(Typed(EMPTY, keys[..INPUTSZ], INPUTSZ), keys[INPUTSZ]);
  }

  // ---- the cursor

  lemma DivMod(i: nat, w: nat, q: nat, r: nat)
    requires w >= 1 && i == q * w + r && r < w
    ensures i / w == q && i % w == r
  {
    var d := i / w - q;
    assert i == (i / w) * w + i % w;
    assert d * w == r - i % w;
    AtLeastOnce(d, w);
    AtLeastOnce(-d, w);
  }

  lemma AtLeastOnce(d: int, w: nat)
    ensures d >= 1 ==> d * w >= w
  {
    if d >= 1 { assert d * w == (d - 1) * w + w; }
  }

  /** One character on: the next column, or the first column of the next row. */
  lemma NextCell(i: nat, w: nat)
    requires w >= 1
    ensures i % w == w - 1 ==> (i + 1) % w == 0 && (i + 1) / w == i / w + 1
    ensures i % w < w - 1 ==> (i + 1) % w == i % w + 1 && (i + 1) / w == i / w
  {
    assert i == (i / w) * w + i % w;
    if i % w == w - 1 {
      assert i + 1 == (i / w + 1) * w + 0;
      DivMod(i + 1, w, i / w + 1, 0);
    } else {
      DivMod(i + 1, w, i / w, i % w + 1);
    }
  }

  /** The static variables of mminput.c. Screen output is left out. */
  class Editor {
    const inputbuf: array<Byte>
    var inputidx: nat
    var inputReady: bool
    var debounceEnter: bool
    var startx: nat
    var starty: nat
    var width: nat
    var length: int
    var curx: int
    var cury: int
    /** A NUL has been stored past the end of the buffer. */
    var overrun: bool

    /** The buffer holds the text with zeros after it. */
    ghost predicate Valid()
      reads this, inputbuf
    {
      && inputbuf.Length == INPUTSZ && inputidx <= INPUTSZ && (inputidx == 0 || inputidx <= length)
      && forall i :: inputidx <= i < INPUTSZ ==> inputbuf[i] == 0
    }

    /** In a field that is not of width 0 the cursor is where the next character goes, until the
        line is complete. */
    ghost predicate CursorValid()
      reads this
    {
      width >= 1 && !inputReady ==> curx - startx == inputidx % width && cury - starty == inputidx / width
    }

    ghost function View(): Line
      requires Valid()
      reads this, inputbuf
    {
      Line(inputbuf[..inputidx], debounceEnter, inputReady)
    }

    /** `resetinput`. */
    constructor (sx: nat, sy: nat, wid: nat, len: int)
      ensures Valid() && CursorValid() && View() == EMPTY && length == len && width == wid && !overrun
          && fresh(inputbuf)
    {
      inputbuf := new Byte[INPUTSZ](_ => 0);
      startx, starty, width, length := sx, sy, wid, len;
      inputReady, debounceEnter, curx, cury, inputidx, overrun := false, false, sx, sy, 0, false;
    }

    /** `handleKey`. The NUL that Enter stores is past the buffer exactly if the text fills it,
        which only a field of 140 characters or more allows. */
    method HandleKey(key: Byte)
      requires Valid() && CursorValid()
      modifies this`inputidx, this`inputReady, this`debounceEnter, this`curx, this`cury, this`overrun, inputbuf
      ensures Valid() && CursorValid() && View() == Press(old(View()), key, length)
      ensures overrun == (old(overrun) || Spill(old(View()), key))
    {
      if key == DELETE {
        Delete();
      } else if key == ENTER {
        if debounceEnter {
          if inputidx < INPUTSZ {
            inputbuf[inputidx] := 0;
          } else {
            overrun := true;
          }
          assert inputbuf[..] == old(inputbuf[..]);
          inputReady := true;
          curx, cury := startx, starty;
        } else {
          debounceEnter := true;
        }
      } else if 32 <= key <= 127 {
        debounceEnter := true;
        if inputidx < INPUTSZ && inputidx < length {
          Insert(key);
        }
      }
    }

    /** The delete key. */
    method Delete()
      requires Valid() && CursorValid()
      modifies this`inputidx, this`debounceEnter, this`curx, this`cury, inputbuf
      ensures Valid() && CursorValid() && View() == Press(old(View()), DELETE, length)
    {
      debounceEnter := true;
      if inputidx == 0 { return; }
      inputidx := inputidx - 1;
      inputbuf[inputidx] := 0;
      if width >= 1 { NextCell(inputidx, width); }
      if curx > startx {
        curx := curx - 1;
      } else {
        cury := cury - 1;
        curx := startx + width - 1;
      }
      assert inputbuf[..inputidx] == old(inputbuf[..inputidx])[..inputidx];
    }

    /** A printable key with room for it. */
    method Insert(key: Byte)
      requires Valid() && CursorValid() && inputidx < length && inputidx < INPUTSZ && debounceEnter
      modifies this`inputidx, this`curx, this`cury, inputbuf
      ensures Valid() && CursorValid() && View() == old(View()).(text := old(View()).text + [key])
    {
      if width >= 1 { NextCell(inputidx, width); }
      if curx >= startx + width - 1 {
        curx := startx;
        cury := cury + 1;
      } else {
        curx := curx + 1;
      }
      inputbuf[inputidx] := key;
      inputidx := inputidx + 1;
      assert inputbuf[..inputidx] == old(inputbuf[..inputidx]) + [key];
    }

    /** Any keys whatever, one after the other. */
    method HandleKeys(keys: seq<Byte>)
      requires Valid() && CursorValid()
      modifies this`inputidx, this`inputReady, this`debounceEnter, this`curx, this`cury, this`overrun, inputbuf
      ensures Valid() && CursorValid() && View() == Typed(old(View()), keys, length)
      ensures overrun == (old(overrun) || Spills(old(View()), keys, length))
    {
      hide Press, Spill;
      for i := 0 to |keys|
        invariant Valid() && CursorValid()
        invariant Typed(View(), keys[i..], length) == Typed(old(View()), keys, length)
        invariant overrun || Spills(View(), keys[i..], length) <==> old(overrun) || Spills(old(View()), keys, length)
      {
        HandleKey(keys[i]);
      }
    }
  }
}
