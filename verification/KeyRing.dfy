/** The circular keyboard buffer that an interrupt fills (client/mminput.c, isr and checkKey). */
module KeyRing {
  const KBUFSZ := 8

  type Byte = n: int | 0 <= n < 256

  /** Where `checkKey` is: about to compare the offsets, to read the key, to move the read offset
      past it, or to wrap that offset. An interrupt can come at each of these points. */
  datatype Main = Comparing | Reading | Moving(k: Byte) | Wrapping

  datatype Ring = Ring(kbuf: seq<Byte>, bufoffset: nat, readoffset: nat, main: Main)

  predicate Valid(r: Ring) {
    && |r.kbuf| == KBUFSZ && r.bufoffset < KBUFSZ
    && (if r.main.Wrapping? then 1 <= r.readoffset <= KBUFSZ else r.readoffset < KBUFSZ)
  }

  /** `isr`: a key, or 0 when none is down. */
  function Isr(r: Ring, k: Byte): (t: Ring)
    requires Valid(r)
    ensures Valid(t)
  {
    if k == 0 then r
    else r.(kbuf := r.kbuf[r.bufoffset := k], bufoffset := (r.bufoffset + 1) % KBUFSZ)
  }

  /** The next step of `checkKey`; the step that moves the read offset hands the key on. */
  function Advance(r: Ring): (t: (Ring, seq<Byte>))
    requires Valid(r)
    ensures Valid(t.0)
  {
    match r.main
    case Comparing => (if r.readoffset != r.bufoffset then r.(main := Reading) else r, [])
    case Reading => (r.(main := Moving(r.kbuf[r.readoffset])), [])
    case Moving(k) => (r.(main := Wrapping, readoffset := r.readoffset + 1), [k])
    case Wrapping => (r.(main := Comparing, readoffset := if r.readoffset == KBUFSZ then 0 else r.readoffset), [])
  }

  // ---- runs

  datatype Event = Interrupt(k: Byte) | Step

  function After(r: Ring, es: seq<Event>): (t: Ring)
    requires Valid(r)
    ensures Valid(t)
    decreases |es|
  {
    if es == [] then r
    else
      var t := After(r, es[..|es| - 1]);
      match es[|es| - 1]
      case Interrupt(k) => Isr(t, k)
      case Step => Advance(t).0
  }

  function Pressed(es: seq<Event>): seq<Byte> {
    if es == [] then []
    else Pressed(es[..|es| - 1]) + (if es[|es| - 1].Interrupt? && es[|es| - 1].k != 0 then [es[|es| - 1].k] else [])
  }

  function Delivered(r: Ring, es: seq<Event>): seq<Byte>
    requires Valid(r)
    decreases |es|
  {
    if es == [] then []
    else Delivered(r, es[..|es| - 1]) + (if es[|es| - 1].Step? then Advance(After(r, es[..|es| - 1])).1 else [])
  }

  /** The keys from the read offset up to the write offset: what the ring seems to hold. */
  function Pending(r: Ring): (q: seq<Byte>)
    requires Valid(r)
    ensures |q| < KBUFSZ
  {
    seq((r.bufoffset - r.readoffset) % KBUFSZ, i requires 0 <= i => r.kbuf[(r.readoffset + i) % KBUFSZ])
  }

  /** At no moment of the run have eight keys been pressed and not yet been handed on. */
  ghost predicate NeverEight(r: Ring, es: seq<Event>)
    requires Valid(r)
  {
    forall n :: 0 <= n <= |es| ==> |Pressed(es[..n])| - |Delivered(r, es[..n])| < KBUFSZ
  }

  /** At every moment of the run the keys handed on and the keys in the ring are all the keys
      pressed, in order. */
  ghost predicate InOrder(r: Ring, es: seq<Event>)
    requires Valid(r)
  {
    forall n :: 0 <= n <= |es| ==> Delivered(r, es[..n]) + Pending(After(r, es[..n])) == Pressed(es[..n])
  }

  /** A key that goes on is the one that seems oldest. */
  predicate Coupled(r: Ring)
    requires Valid(r)
  {
    && (r.main.Reading? || r.main.Moving? ==> Pending(r) != [])
    && (r.main.Moving? ==> Pending(r)[0] == r.main.k)
  }

  lemma IsrLength(r: Ring, k: Byte)
    requires Valid(r) && k != 0 && |Pending(r)| < KBUFSZ - 1
    ensures |Pending(Isr(r, k))| == |Pending(r)| + 1
  {
  }

  /** The slot written is the first one behind what the ring holds. */
  lemma IsrSlot(r: Ring, i: nat)
    requires Valid(r) && i < KBUFSZ
    ensures (r.readoffset + i) % KBUFSZ == r.bufoffset <==> i == |Pending(r)|
  {
  }

  lemma IsrPending(r: Ring, k: Byte)
    requires Valid(r) && Coupled(r) && k != 0 && |Pending(r)| < KBUFSZ - 1
    ensures Pending(Isr(r, k)) == Pending(r) + [k] && Coupled(Isr(r, k))
  {
    var t, n := Isr(r, k), |Pending(r)|;
    IsrLength(r, k);
    forall i | 0 <= i <= n ensures Pending(t)[i] == (Pending(r) + [k])[i] {
      IsrSlot(r, i);
    }
  }

  lemma MovedPending(r: Ring)
    requires Valid(r) && r.main.Moving? && Pending(r) != []
    ensures Pending(Advance(r).0) == Pending(r)[1..]
  {
    var t, n := Advance(r).0, |Pending(r)|;
    assert |Pending(t)| == n - 1;
    forall i | 0 <= i < n - 1 ensures Pending(t)[i] == Pending(r)[i + 1] {
      assert (t.readoffset + i) % KBUFSZ == (r.readoffset + (i + 1)) % KBUFSZ;
    }
  }

  lemma WrappedPending(r: Ring)
    requires Valid(r) && r.main.Wrapping?
    ensures Pending(Advance(r).0) == Pending(r)
  {
    var t := Advance(r).0;
    assert |Pending(t)| == |Pending(r)|;
    forall i | 0 <= i < |Pending(t)| ensures Pending(t)[i] == Pending(r)[i] {
      assert (t.readoffset + i) % KBUFSZ == (r.readoffset + i) % KBUFSZ;
    }
  }

  lemma AdvancePending(r: Ring)
    requires Valid(r) && Coupled(r)
    ensures Coupled(Advance(r).0) && Advance(r).1 + Pending(Advance(r).0) == Pending(r)
  {
    match r.main
    case Moving(k) => MovedPending(r);
    case Wrapping => WrappedPending(r);
    case _ =>
  }

  lemma {:induction false} NoLoss(r: Ring, es: seq<Event>)
    requires Valid(r) && Coupled(r) && Pending(r) == [] && NeverEight(r, es)
    ensures Coupled(After(r, es)) && Delivered(r, es) + Pending(After(r, es)) == Pressed(es)
    decreases |es|
  {
    hide Pending, Coupled, Isr, Advance;
    if es != [] {
      var l := |es| - 1;
      var t := After(r, es[..l]);
      assert NeverEight(r, es[..l]) by {
        forall n | 0 <= n <= l ensures es[..l][..n] == es[..n] {}
      }
      NoLoss(r, es[..l]);
      assert es[..l + 1] == es;
      match es[l] {
        case Step => AdvancePending(t);
        case Interrupt(k) => if k != 0 { IsrPending(t, k); } else { IsrNone(t); }
      }
    } else {
      assert Pressed(es) == [];
    }
  }

  lemma IsrNone(r: Ring)
    requires Valid(r)
    ensures Isr(r, 0) == r
  {
  }

  /** However interrupts and the steps of `checkKey` interleave, keys come out in the order they
      were pressed and none is lost, exactly as long as there are never eight of them waiting:
      the eighth makes the ring look empty. */
  lemma RingExact(r: Ring, es: seq<Event>)
    requires Valid(r) && r.main.Comparing? && r.readoffset == r.bufoffset
    ensures InOrder(r, es) <==> NeverEight(r, es)
  {
    hide After, Delivered, Pressed;
    if NeverEight(r, es) {
      forall n | 0 <= n <= |es| ensures Delivered(r, es[..n]) + Pending(After(r, es[..n])) == Pressed(es[..n]) {
        assert forall m :: 0 <= m <= n ==> es[..n][..m] == es[..m];
        NoLoss(r, es[..n]);
      }
    }
    if InOrder(r, es) {
      forall n | 0 <= n <= |es| ensures |Pressed(es[..n])| - |Delivered(r, es[..n])| < KBUFSZ {
        assert |Delivered(r, es[..n]) + Pending(After(r, es[..n]))| == |Pressed(es[..n])|;
      }
    }
  }

  /** Keys pressed one after the other while `checkKey` stands still. */
  lemma {:induction false} Presses(r: Ring, es: seq<Event>)
    requires Valid(r) && r.main.Comparing? && forall e :: e in es ==> e.Interrupt? && e.k != 0
    ensures |Pressed(es)| == |es| && Delivered(r, es) == []
    ensures var t := After(r, es);
            t.main.Comparing? && t.readoffset == r.readoffset && t.bufoffset == (r.bufoffset + |es|) % KBUFSZ
    decreases |es|
  {
    hide Pending, Advance;
    if es != [] {
      var l := |es| - 1;
      assert es[l] in es;
      Presses(r, es[..l]);
      OneFurther(r.bufoffset, l);
    }
  }

  lemma OneFurther(o: nat, n: nat)
    ensures ((o + n) % KBUFSZ + 1) % KBUFSZ == (o + n + 1) % KBUFSZ
  {
  }

  /** An instance of the failing case: after eight keys the ring seems empty, and all are lost. */
  lemma EightKeys(r: Ring)
    requires Valid(r) && r.main.Comparing? && r.readoffset == r.bufoffset
    ensures var es := seq(8, i => Interrupt(65));
            && |Pressed(es)| == 8 && Delivered(r, es) == [] && Pending(After(r, es)) == [] && !InOrder(r, es)
  {
    var es := seq(8, i => Interrupt(65));
    Presses(r, es);
    assert es[..8] == es;
    assert |Delivered(r, es[..8]) + Pending(After(r, es[..8]))| != |Pressed(es[..8])|;
  }

  /** `kbuf`, `bufoffset` and `readoffset`. */
  class Keyboard {
    const kbuf: array<Byte>
    var bufoffset: nat
    var readoffset: nat

    ghost function View(main: Main): Ring
      reads this, kbuf
    {
      Ring(kbuf[..], bufoffset, readoffset, main)
    }

    constructor ()
      ensures Valid(View(Comparing)) && readoffset == bufoffset && fresh(kbuf)
    {
      kbuf := new Byte[KBUFSZ](_ => 0);
      bufoffset, readoffset := 0, 0;
    }

    method Interrupt(k: Byte, ghost main: Main)
      requires Valid(View(main))
      modifies this`bufoffset, kbuf
      ensures View(main) == Isr(old(View(main)), k)
    {
      if k != 0 {
        kbuf[bufoffset] := k;
        bufoffset := bufoffset + 1;
        if bufoffset == KBUFSZ { bufoffset := 0; }
      }
    }

    /** `checkKey` up to `handleKey`, with no interrupt in between: all four steps, or only the first. */
    method CheckKey() returns (keys: seq<Byte>)
      requires Valid(View(Comparing))
      modifies this`readoffset
      ensures var r := Advance(old(View(Comparing))).0;
              if r.main.Comparing? then View(Comparing) == old(View(Comparing)) && keys == []
              else var m := Advance(Advance(r).0); View(Comparing) == Advance(m.0).0 && keys == m.1
    {
      keys := [];
      if readoffset != bufoffset {
        var k := kbuf[readoffset];
        readoffset := readoffset + 1;
        if readoffset == KBUFSZ { readoffset := 0; }
        keys := [k];
      }
    }
  }
}
