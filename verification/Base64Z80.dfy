/** The Z80 base 64 encoder, register by register (z88dk/libhttp/base64enc.c and
    asmsnippets/base64enc.asm, which share all but the padding paths and the outer loop).

    A and C are bit vectors because the code rotates them through carry. B only counts,
    and DE and HL only point, so those are numbers that wrap at 256 and at 65536. */
module Base64Z80 {
  import opened Memory
  import opened Rfc4648

  type Byte = n: int | 0 <= n < 256

  type Word = n: int | 0 <= n < 0x10000

  const TOP := 0x10000

  // ---- shifts and rotates through carry

  function Rr(x: bv8, carry: bool): bv8 { (x >> 1) | (if carry then 0x80 else 0) }

  function Rl(x: bv8, carry: bool): bv8 { (x << 1) | (if carry then 1 else 0) }

  predicate Bit0(x: bv8) { x & 1 == 1 }

  predicate Bit7(x: bv8) { x & 0x80 == 0x80 }

  // ---- what the routine writes

  /** One call's four bytes. Without conversion the last index of a padded group is written raw. */
  function Out4(s: seq<bv8>, converts: bool): (r: seq<bv8>)
    requires 1 <= |s| <= 3
    ensures |r| == 4
  {
    if converts || |s| == 3 then Quantum(s)
    else if |s| == 2 then Quantum(s)[2 := Sextet(Group(s[0], s[1], 0), 2)]
    else Quantum(s)[1 := Sextet(Group(s[0], 0, 0), 1)]
  }

  function Out(s: seq<bv8>, converts: bool): (r: seq<bv8>)
    ensures |r| == Quads(|s|)
  {
    if s == [] then []
    else if |s| <= 3 then Out4(s, converts)
    else Out4(s[..3], converts) + Out(s[3..], converts)
  }

  lemma LetterMoves(i: bv8)
    requires i < 64
    ensures Letter(i) != i
  {
  }

  lemma Out4IsRfc(s: seq<bv8>, converts: bool)
    requires 1 <= |s| <= 3
    ensures Out4(s, converts) == Quantum(s) <==> converts || |s| == 3
  {
    hide Sextet, Group, Letter;
    if |s| == 2 {
      LetterMoves(Sextet(Group(s[0], s[1], 0), 2));
      assert Quantum(s)[2] == Letter(Sextet(Group(s[0], s[1], 0), 2));
    } else if |s| == 1 {
      LetterMoves(Sextet(Group(s[0], 0, 0), 1));
      assert Quantum(s)[1] == Letter(Sextet(Group(s[0], 0, 0), 1));
    }
  }

  /** The output is the RFC's exactly when the padding is converted or there is none. */
  lemma {:induction false} OutIsRfc(s: seq<bv8>, converts: bool)
    ensures Out(s, converts) == Encode(s) <==> converts || |s| % 3 == 0
    decreases |s|
  {
    hide Out4, Quantum;
    if |s| > 3 {
      Out4IsRfc(s[..3], converts);
      OutIsRfc(s[3..], converts);
      assert Out(s, converts)[4..] == Out(s[3..], converts) && Encode(s)[4..] == Encode(s[3..]);
    } else if s != [] {
      Out4IsRfc(s, converts);
    }
  }

  // ---- the indices, as the code forms them, and what it keeps at the top of C meanwhile

  function Index1(x: bv8): (r: bv8) ensures r < 64 { x >> 2 }

  function Index2(x: bv8, y: bv8): (r: bv8) ensures r < 64 { ((x & 3) << 4) | (y >> 4) }

  function Index3(y: bv8, z: bv8): (r: bv8) ensures r < 64 { ((y & 15) << 2) | (z >> 6) }

  function Index4(z: bv8): (r: bv8) ensures r < 64 { z & 63 }

  function LowTwo(x: bv8): bv8 { x << 6 }

  function LowFour(y: bv8): bv8 { y << 4 }

  /** They are the RFC's groups of six bits. */
  lemma Indices(x: bv8, y: bv8, z: bv8)
    ensures Sextet(Group(x, y, z), 0) == Index1(x) && Sextet(Group(x, y, z), 1) == Index2(x, y)
    ensures Sextet(Group(x, y, z), 2) == Index3(y, z) && Sextet(Group(x, y, z), 3) == Index4(z)
  {
  }

  /** The last index of a padded group. */
  function Kept(i: bv8, converts: bool): bv8
    requires i < 64
  {
    if converts then Letter(i) else i
  }

  /** What follows the second of a call's four bytes. */
  function Last(s: seq<bv8>, converts: bool): (r: seq<bv8>)
    requires 2 <= |s| <= 3
    ensures |r| == 2
  {
    if |s| == 2 then [Kept(Index3(s[1], 0), converts), PAD]
    else [Letter(Index3(s[1], s[2])), Letter(Index4(s[2]))]
  }

  /** What follows the first of a call's four bytes. */
  function Tail(s: seq<bv8>, converts: bool): (r: seq<bv8>)
    requires 1 <= |s| <= 3
    ensures |r| == 3
  {
    if |s| == 1 then [Kept(Index2(s[0], 0), converts), PAD, PAD]
    else [Letter(Index2(s[0], s[1]))] + Last(s, converts)
  }

  lemma OutParts(s: seq<bv8>, converts: bool)
    requires 1 <= |s| <= 3
    ensures Out4(s, converts) == [Letter(Index1(s[0]))] + Tail(s, converts)
  {
    hide Sextet, Group, Letter, Index1, Index2, Index3, Index4;
    Indices(s[0], if |s| > 1 then s[1] else 0, if |s| > 2 then s[2] else 0);
  }

  class Z80 {
    var a: bv8
    var b: Byte
    var c: bv8
    var carry: bool
    var de: Word
    var hl: Word
    var stack: seq<Word>
    const mem: array<bv8>
    const lut: Word
    /** Whether the padding paths call `convert`: base64enc.c does, base64enc.asm does not. */
    const converts: bool

    /** The alphabet lies at the table's address. */
    ghost predicate Table()
      requires mem.Length == TOP && lut + 64 < TOP
      reads mem
    {
      forall i: bv8 :: i < 64 ==> mem[lut + i as int] == Letter(i)
    }

    /** All of memory, and the whole alphabet in it. */
    ghost predicate Loaded()
      reads mem
    {
      mem.Length == TOP && lut + 64 < TOP && Table()
    }

    /** The next `m` bytes to write do not wrap and miss the table. */
    ghost predicate Room(m: nat)
      reads this`de
    {
      de + m < TOP && (de + m <= lut || lut + 64 <= de)
    }

    /** `s` lies at HL, and the next `m` bytes to write miss it. */
    ghost predicate Reads(s: seq<bv8>, m: nat)
      reads this`de, this`hl, mem
    {
      && mem.Length == TOP && hl + |s| < TOP && (forall k :: 0 <= k < |s| ==> mem[hl + k] == s[k])
      && (hl + |s| <= de || de + m <= hl)
    }

    /** `.convert`: push de, push hl, ld hl, LUT, ld d, 0, ld e, a, add hl, de, ld a, (hl), pop hl, pop de.
        Adding to the table's address clears the carry. */
    method Convert()
      requires Loaded() && a < 64
      modifies this`a, this`carry, this`de, this`hl, this`stack
      ensures a == Letter(old(a)) && !carry && de == old(de) && hl == old(hl) && stack == old(stack)
    {
      stack := [de] + stack;
      stack := [hl] + stack;
      hl := lut;
      de := a as int;
      carry := hl + de >= TOP;
      hl := (hl + de) % TOP;
      a := mem[hl];
      hl, stack := stack[0], stack[1..];
      de, stack := stack[0], stack[1..];
    }

    /** ld (de), a and inc de */
    method StoreA()
      requires Loaded() && Room(1)
      modifies this`de, mem
      ensures mem[..] == Put(old(mem[..]), old(de), [a]) && de == old(de) + 1
      ensures Loaded()
    {
      mem[de] := a;
      assert mem[..] == Put(old(mem[..]), de, [a]);
      de := (de + 1) % TOP;
    }

    /** call convert, ld (de), a, inc de */
    method Emit()
      requires Loaded() && a < 64 && Room(1)
      modifies this`a, this`carry, this`de, this`hl, this`stack, mem
      ensures mem[..] == Put(old(mem[..]), old(de), [Letter(old(a))]) && de == old(de) + 1
      ensures !carry && hl == old(hl) && stack == old(stack)
      ensures Loaded()
    {
      hide Letter;
      Convert();
      StoreA();
    }

    /** The last index of a padded group: only base64enc.c calls convert first. */
    method EmitKept()
      requires Loaded() && a < 64 && Room(1)
      modifies this`a, this`carry, this`de, this`hl, this`stack, mem
      ensures mem[..] == Put(old(mem[..]), old(de), [Kept(old(a), converts)]) && de == old(de) + 1
      ensures hl == old(hl) && stack == old(stack)
      ensures Loaded()
    {
      hide Letter;
      if converts { Emit(); } else { StoreA(); }
    }

    /** The first index goes to A, the two bits left over to the top of C. */
    method FirstIndex()
      requires mem.Length == TOP
      modifies this`a, this`c, this`carry
      ensures a == Index1(mem[hl]) && c == LowTwo(mem[hl]) && !carry
    {
      c := 0;                            // ld c, 0
      a := mem[hl];                      // ld a, (hl)
      carry, a := Bit0(a), a >> 1;       // srl a
      carry, c := Bit0(c), Rr(c, carry); // rr c
      carry, a := Bit0(a), a >> 1;       // srl a
      carry, c := Bit0(c), Rr(c, carry); // rr c
    }

    /** The second index goes to A and the low half of the second byte to the top of C. The two
        bits kept in C move to A by way of the carry, which must be clear at the start. */
    method SecondIndex(ghost first: bv8)
      requires mem.Length == TOP && c == LowTwo(first) && !carry
      modifies this`a, this`c, this`carry
      ensures a == Index2(first, mem[hl]) && c == LowFour(mem[hl]) && !carry
    {
      a := mem[hl];                      // ld a, (hl)
      carry, c := Bit7(c), Rl(c, carry); // rl c
      carry, c := Bit7(c), Rl(c, carry); // rl c
      carry, a := Bit0(a), Rr(a, carry); // rra
      carry, c := Bit0(c), Rr(c, carry); // rr c
      carry, a := Bit0(a), Rr(a, carry); // rra
      carry, c := Bit0(c), Rr(c, carry); // rr c
      carry, a := Bit0(a), Rr(a, carry); // rra
      carry, c := Bit0(c), Rr(c, carry); // rr c
      carry, a := Bit0(a), Rr(a, carry); // rra
      carry, c := Bit0(c), Rr(c, carry); // rr c
    }

    /** The third index goes to A: the low half of the second byte with the top of the third. */
    method ThirdIndex(ghost second: bv8)
      requires mem.Length == TOP && c == LowFour(second)
      modifies this`a, this`c, this`carry
      ensures a == Index3(second, mem[hl])
    {
      carry, c := Bit0(c), Rr(c, Bit0(c)); // rrc c
      carry, c := Bit0(c), Rr(c, Bit0(c)); // rrc c
      a := mem[hl];                        // ld a, (hl)
      carry, a := false, a & 0xC0;         // and 0xC0
      carry, a := Bit7(a), Rl(a, Bit7(a)); // rlca
      carry, a := Bit7(a), Rl(a, Bit7(a)); // rlca
      carry, a := false, a | c;            // or c
    }

    /** The two bits kept in C become the last index of a group of one byte. */
    method LowTwoDown(ghost first: bv8)
      requires c == LowTwo(first) && !carry
      modifies this`a, this`carry
      ensures a == Index2(first, 0)
    {
      a := c;                              // ld a, c
      carry, a := Bit0(a), Rr(a, carry);   // rra
      carry, a := Bit0(a), Rr(a, carry);   // rra
    }

    /** The four bits kept in C become the last index of a group of two bytes. */
    method LowFourDown(ghost second: bv8)
      requires c == LowFour(second)
      modifies this`a, this`carry
      ensures a == Index3(second, 0)
    {
      a := c;                              // ld a, c
      carry, a := Bit0(a), Rr(a, Bit0(a)); // rrca
      carry, a := Bit0(a), Rr(a, Bit0(a)); // rrca
    }

    /** `F_encodetriplet`: up to three bytes from (hl) become four at (de). */
    method EncodeTriplet(ghost s: seq<bv8>)
      requires Loaded() && Room(4) && Reads(s, 4) && |s| == Taken(b)
      modifies this`a, this`b, this`c, this`carry, this`de, this`hl, this`stack, mem
      ensures mem[..] == Put(old(mem[..]), old(de), Out4(s, converts))
      ensures b == (old(b) - |s|) % 256 && hl == old(hl) + |s| && de == old(de) + 4 && stack == old(stack)
      ensures Loaded()
    {
      hide Index1, Index2, Index3, Index4, LowTwo, LowFour, Letter, Out4, Tail, Table, Put;
      ghost var m, p := mem[..], de;
      FirstIndex();
      assert a == Index1(s[0]) && c == LowTwo(s[0]);
      Emit();
      PutPut(m, p, [Letter(Index1(s[0]))], Tail(s, converts));
      OutParts(s, converts);
      b := (b - 1) % 256;                  // dec b
      if b == 0 {                          // jr z, padtwo
        PadTwo(s);
        return;
      }
      hl := (hl + 1) % TOP;                // inc hl
      SecondByte(s);
    }

    /** The part of `F_encodetriplet` that follows the first `inc hl`. */
    method SecondByte(ghost s: seq<bv8>)
      requires 2 <= |s| <= 3 && Loaded() && Room(3) && |s| == (if b == 1 then 2 else 3)
      requires hl + |s| - 1 < TOP && mem[hl] == s[1] && (|s| == 3 ==> mem[hl + 1] == s[2])
      requires hl + |s| - 1 <= de || de + 3 <= hl
      requires c == LowTwo(s[0]) && !carry
      modifies this`a, this`b, this`c, this`carry, this`de, this`hl, this`stack, mem
      ensures mem[..] == Put(old(mem[..]), old(de), Tail(s, converts))
      ensures b == (old(b) - |s| + 1) % 256 && hl == old(hl) + |s| - 1 && de == old(de) + 3 && stack == old(stack)
      ensures Loaded()
    {
      hide Index1, Index2, Index3, Index4, LowTwo, LowFour, Letter, Last, Table, Put;
      ghost var m, p := mem[..], de;
      SecondIndex(s[0]);
      ghost var i := a;
      Emit();
      PutPut(m, p, [Letter(i)], Last(s, converts));
      b := (b - 1) % 256;                  // dec b
      if b == 0 {                          // jr z, padone
        PadOne(s);
        return;
      }
      hl := (hl + 1) % TOP;                // inc hl
      ThirdByte(s);
    }

    /** The part of `F_encodetriplet` that follows the second `inc hl`. */
    method ThirdByte(ghost s: seq<bv8>)
      requires |s| == 3 && Loaded() && Room(2) && hl + 1 < TOP && mem[hl] == s[2] && (hl < de || de + 2 <= hl)
      requires c == LowFour(s[1])
      modifies this`a, this`b, this`c, this`carry, this`de, this`hl, this`stack, mem
      ensures mem[..] == Put(old(mem[..]), old(de), Last(s, converts))
      ensures b == (old(b) - 1) % 256 && hl == old(hl) + 1 && de == old(de) + 2 && stack == old(stack)
      ensures Loaded()
    {
      hide Index1, Index2, Index3, Index4, LowTwo, LowFour, Letter, Table, Put;
      ghost var m, p := mem[..], de;
      ThirdIndex(s[1]);
      ghost var i := a;
      Emit();
      a := mem[hl];                        // ld a, (hl)
      carry, a := false, Index4(a);        // and 0x3F
      PutPut(m, p, [Letter(i)], [Letter(a)]);
      Emit();
      b := (b - 1) % 256;                  // dec b
      hl := (hl + 1) % TOP;                // inc hl
    }

    /** `.padtwo`: one byte was left, whose two last bits are at the top of C. */
    method PadTwo(ghost s: seq<bv8>)
      requires |s| == 1 && Loaded() && Room(3) && hl + 1 < TOP && c == LowTwo(s[0]) && !carry
      modifies this`a, this`carry, this`de, this`hl, this`stack, mem
      ensures mem[..] == Put(old(mem[..]), old(de), Tail(s, converts))
      ensures hl == old(hl) + 1 && de == old(de) + 3 && stack == old(stack)
      ensures Loaded()
    {
      hide Index1, Index2, Index3, Index4, LowTwo, LowFour, Letter, Table, Put;
      ghost var m, p := mem[..], de;
      LowTwoDown(s[0]);
      ghost var k := Kept(a, converts);
      EmitKept();
      PutPut(m, p, [k], [PAD]);
      PutPut(m, p, [k, PAD], [PAD]);
      a := PAD;                            // ld a, '='
      StoreA();
      StoreA();
      hl := (hl + 1) % TOP;                // inc hl
    }

    /** `.padone`: two bytes were left, and the four last bits are at the top of C. */
    method PadOne(ghost s: seq<bv8>)
      requires |s| == 2 && Loaded() && Room(2) && hl + 1 < TOP && c == LowFour(s[1])
      modifies this`a, this`carry, this`de, this`hl, this`stack, mem
      ensures mem[..] == Put(old(mem[..]), old(de), Last(s, converts))
      ensures hl == old(hl) + 1 && de == old(de) + 2 && stack == old(stack)
      ensures Loaded()
    {
      hide Index1, Index2, Index3, Index4, LowTwo, LowFour, Letter, Table, Put;
      ghost var m, p := mem[..], de;
      LowFourDown(s[1]);
      ghost var k := Kept(a, converts);
      EmitKept();
      PutPut(m, p, [k], [PAD]);
      a := PAD;                            // ld a, '='
      StoreA();
      hl := (hl + 1) % TOP;                // inc hl
    }

    /** A call to `F_encodetriplet` on the first bytes of the input `s`: encoding the rest after
        them completes what encoding all of `s` was to write. */
    method EncodeNext(ghost s: seq<bv8>)
      requires s != [] && Taken(b) == First(|s|)
      requires Loaded() && Room(Quads(|s|)) && Reads(s, Quads(|s|))
      modifies this`a, this`b, this`c, this`carry, this`de, this`hl, this`stack, mem
      ensures var r := s[First(|s|)..];
              && Loaded() && Room(Quads(|r|)) && Reads(r, Quads(|r|))
              && Put(mem[..], de, Out(r, converts)) == Put(old(mem[..]), old(de), Out(s, converts))
              && hl + |r| == old(hl) + |s| && de + Quads(|r|) == old(de) + Quads(|s|)
      ensures b == (old(b) - First(|s|)) % 256
      ensures stack == old(stack)
    {
      hide Put, Table, Out, Out4;
      OutStep(mem[..], de, s, converts);
      EncodeTriplet(s[..First(|s|)]);
    }

    /** `.lessthan256`: C bytes from (hl), where 0 counts as 256. */
    method EncodeShort(ghost s: seq<bv8>)
      requires |s| == Count(c as int) && Loaded() && Room(Quads(|s|)) && Reads(s, Quads(|s|))
      modifies this`a, this`b, this`c, this`carry, this`de, this`hl, this`stack, mem
      ensures mem[..] == Put(old(mem[..]), old(de), Out(s, converts))
      ensures hl == old(hl) + |s| && de == old(de) + Quads(|s|) && stack == old(stack)
      ensures Loaded()
    {
      hide Put, Table, Out, Quads;
      b := c as int;                       // ld b, c
      EncodeLoop(s);
    }

    /** `.looplt256`: B bytes from (hl), where 0 counts as 256. */
    method EncodeLoop(ghost s: seq<bv8>)
      requires |s| == Count(b) && Loaded() && Room(Quads(|s|)) && Reads(s, Quads(|s|))
      modifies this`a, this`b, this`c, this`carry, this`de, this`hl, this`stack, mem
      ensures mem[..] == Put(old(mem[..]), old(de), Out(s, converts))
      ensures hl == old(hl) + |s| && de == old(de) + Quads(|s|) && stack == old(stack)
      ensures Loaded()
    {
      hide Put, Table, Out, Quads;
      ghost var r := s;
      var more := true;
      while more
        invariant (more <==> r != []) && b == |r| % 256 && |r| <= |s|
        invariant Loaded() && Room(Quads(|r|)) && Reads(r, Quads(|r|))
        invariant Put(mem[..], de, Out(r, converts)) == Put(old(mem[..]), old(de), Out(s, converts))
        invariant hl + |r| == old(hl) + |s| && de + Quads(|r|) == old(de) + Quads(|s|) && stack == old(stack)
        decreases |r|
      {
        EncodeNext(r);                     // call F_encodetriplet
        r := r[First(|r|)..];
        more := b != 0;                    // ld a, b; and a; jr nz, looplt256
      }
      OutOfNone(mem[..], de, converts);
    }

    /** `F_encodetriplet` on three bytes at a time while more than 255 are left, with the count
        in BC pushed around the call, and `.lessthan256` on the rest. */
    method EncodeLong(ghost s: seq<bv8>)
      requires |s| == Count(256 * b + c as int) && Loaded() && Room(Quads(|s|)) && Reads(s, Quads(|s|))
      modifies this`a, this`b, this`c, this`carry, this`de, this`hl, this`stack, mem
      ensures mem[..] == Put(old(mem[..]), old(de), Out(s, converts))
      ensures hl == old(hl) + |s| && de == old(de) + Quads(|s|) && stack == old(stack)
      ensures Loaded()
    {
      hide Put, Table, Out, Quads;
      ghost var r := s;
      while b != 0                         // ld a, b; and a; jr z, lessthan256
        invariant |r| == Count(256 * b + c as int)
        invariant Loaded() && Room(Quads(|r|)) && Reads(r, Quads(|r|))
        invariant Put(mem[..], de, Out(r, converts)) == Put(old(mem[..]), old(de), Out(s, converts))
        invariant hl + |r| == old(hl) + |s| && de + Quads(|r|) == old(de) + Quads(|s|) && stack == old(stack)
        decreases |r|
      {
        PushCount();                       // push bc; ld b, 3
        EncodeNext(r);                     // call F_encodetriplet
        PopCount();                        // pop bc; dec bc; dec bc; dec bc
        r := r[3..];
      }
      EncodeShort(r);
    }

    method PushCount()
      requires b != 0
      modifies this`b, this`stack
      ensures b == 3 && stack == [256 * old(b) + c as int] + old(stack)
    {
      stack := [256 * b + c as int] + stack;
      b := 3;
    }

    method PopCount()
      requires stack != [] && stack[0] >= 256
      modifies this`b, this`c, this`stack
      ensures 256 * b + c as int == old(stack[0]) - 3 && stack == old(stack)[1..]
    {
      var bc := (stack[0] - 3) % TOP;
      var low := bc % 256;
      b, c := bc / 256, low as bv8;
      assert c as int == low;
      stack := stack[1..];
    }
  }

  /** A byte count of 0 runs as 256. */
  function Count(n: nat): nat { if n == 0 then 256 else n }

  /** How many of `n` bytes are encoded first. */
  function First(n: nat): nat { if n < 3 then n else 3 }

  /** How many bytes `n` bytes become. */
  function Quads(n: nat): (r: nat)
    ensures r % 4 == 0
  {
    4 * ((n + 2) / 3)
  }

  lemma OutStep(m: seq<bv8>, p: nat, s: seq<bv8>, converts: bool)
    requires s != [] && p + Quads(|s|) <= |m|
    ensures var t := First(|s|);
            && Quads(|s|) == 4 + Quads(|s| - t)
            && Put(Put(m, p, Out4(s[..t], converts)), p + 4, Out(s[t..], converts)) == Put(m, p, Out(s, converts))
  {
    hide Put, Out4;
    var t := First(|s|);
    if |s| <= 3 {
      assert s[..t] == s && s[t..] == [] && Out4(s, converts) + [] == Out4(s, converts);
    }
    PutPut(m, p, Out4(s[..t], converts), Out(s[t..], converts));
  }

  lemma OutOfNone(m: seq<bv8>, p: nat, converts: bool)
    requires p <= |m|
    ensures Quads(0) == 0 && Put(m, p, Out([], converts)) == m
  {
  }


  /** How many bytes one call takes with this value of B. */
  function Taken(b: Byte): nat { if b == 1 || b == 2 then b else 3 }

  /** In memory a decoder finds the input again, exactly when the padding is converted or there is none. */
  lemma WrittenIsRfc(m: seq<bv8>, p: nat, s: seq<bv8>, converts: bool)
    requires p + Quads(|s|) <= |m|
    ensures var t := Put(m, p, Out(s, converts))[p..p + Quads(|s|)];
            && (t == Encode(s) <==> converts || |s| % 3 == 0)
            && |t| % 4 == 0 && (t == Encode(s) ==> Decode(t) == s)
  {
    hide Put, Encode, Decode, Out;
    var t := Put(m, p, Out(s, converts))[p..p + Quads(|s|)];
    assert t == Out(s, converts);
    OutIsRfc(s, converts);
    DecodeEncode(s);
  }
}
