/** Base 64 as section 4 of RFC 4648 defines it, with a decoder. */
module Rfc4648 {
  const PAD: bv8 := 61

  /** Table 1: "A".."Z", "a".."z", "0".."9", "+", "/". */
  function Letter(i: bv8): bv8
    requires i < 64
  {
    if i < 26 then i + 65
    else if i < 52 then i + 71
    else if i < 62 then i - 4
    else if i == 62 then 43
    else 47
  }

  /** The first, second, third and fourth group of six bits of a 24-bit input group. */
  function Sextet(group: bv24, n: nat): (r: bv8)
    requires n < 4
    ensures r < 64
  {
    if n == 0 then ((group >> 18) & 63) as bv8
    else if n == 1 then ((group >> 12) & 63) as bv8
    else if n == 2 then ((group >> 6) & 63) as bv8
    else (group & 63) as bv8
  }

  function Group(a: bv8, b: bv8, c: bv8): bv24 { (a as bv24 << 16) | (b as bv24 << 8) | c as bv24 }

  function Letters(group: bv24): seq<bv8> {
    [Letter(Sextet(group, 0)), Letter(Sextet(group, 1)), Letter(Sextet(group, 2)), Letter(Sextet(group, 3))]
  }

  /** One quantum: three octets, or a final one or two with zero bits on the right and padding. */
  function Quantum(s: seq<bv8>): (r: seq<bv8>)
    requires 1 <= |s| <= 3
    ensures |r| == 4
  {
    if |s| == 3 then Letters(Group(s[0], s[1], s[2]))
    else if |s| == 2 then Letters(Group(s[0], s[1], 0))[..3] + [PAD]
    else Letters(Group(s[0], 0, 0))[..2] + [PAD, PAD]
  }

  function Encode(s: seq<bv8>): (r: seq<bv8>)
    ensures |r| == 4 * ((|s| + 2) / 3)
  {
    if s == [] then []
    else if |s| <= 3 then Quantum(s)
    else Quantum(s[..3]) + Encode(s[3..])
  }

  // ---- decoding

  function Value(c: bv8): bv8 {
    if 65 <= c <= 90 then c - 65
    else if 97 <= c <= 122 then c - 71
    else if 48 <= c <= 57 then c + 4
    else if c == 43 then 62
    else 63
  }

  lemma ValueLetter(i: bv8)
    requires i < 64
    ensures Value(Letter(i)) == i && Letter(i) != PAD
  {
  }

  function Join(v: bv8, w: bv8, x: bv8, y: bv8): bv24 {
    (v as bv24 << 18) | (w as bv24 << 12) | (x as bv24 << 6) | y as bv24
  }

  function Octet(group: bv24, n: nat): bv8
    requires n < 3
  {
    if n == 0 then ((group >> 16) & 255) as bv8
    else if n == 1 then ((group >> 8) & 255) as bv8
    else (group & 255) as bv8
  }

  function Unquantum(q: seq<bv8>): seq<bv8>
    requires |q| == 4
  {
    if q[2] == PAD then [Octet(Join(Value(q[0]), Value(q[1]), 0, 0), 0)]
    else if q[3] == PAD then
      var g := Join(Value(q[0]), Value(q[1]), Value(q[2]), 0);
      [Octet(g, 0), Octet(g, 1)]
    else
      var g := Join(Value(q[0]), Value(q[1]), Value(q[2]), Value(q[3]));
      [Octet(g, 0), Octet(g, 1), Octet(g, 2)]
  }

  function Decode(t: seq<bv8>): seq<bv8>
    requires |t| % 4 == 0
  {
    if t == [] then [] else Unquantum(t[..4]) + Decode(t[4..])
  }

  lemma JoinSextets(g: bv24)
    ensures Join(Sextet(g, 0), Sextet(g, 1), Sextet(g, 2), Sextet(g, 3)) == g
  {
  }

  lemma OctetsOfGroup(a: bv8, b: bv8, c: bv8)
    ensures Octet(Group(a, b, c), 0) == a && Octet(Group(a, b, c), 1) == b && Octet(Group(a, b, c), 2) == c
  {
  }

  lemma TailBits(a: bv8, b: bv8)
    ensures Sextet(Group(a, 0, 0), 2) == 0 && Sextet(Group(a, 0, 0), 3) == 0
    ensures Sextet(Group(a, b, 0), 3) == 0
  {
  }

  lemma UnquantumQuantum(s: seq<bv8>)
    requires 1 <= |s| <= 3
    ensures Unquantum(Quantum(s)) == s
  {
    var b, c := if |s| > 1 then s[1] else 0, if |s| > 2 then s[2] else 0;
    var g := Group(s[0], b, c);
    forall n | 0 <= n < 4 ensures Value(Letter(Sextet(g, n))) == Sextet(g, n) && Letter(Sextet(g, n)) != PAD {
      ValueLetter(Sextet(g, n));
    }
    JoinSextets(g);
    OctetsOfGroup(s[0], b, c);
    TailBits(s[0], b);
  }

  /** The decoder recovers every input. */
  lemma {:induction false} DecodeEncode(s: seq<bv8>)
    ensures Decode(Encode(s)) == s
    decreases |s|
  {
    if |s| > 3 {
      UnquantumQuantum(s[..3]);
      DecodeEncode(s[3..]);
      assert Encode(s)[..4] == Quantum(s[..3]) && Encode(s)[4..] == Encode(s[3..]);
      assert s == s[..3] + s[3..];
    } else if s != [] {
      UnquantumQuantum(s);
      assert Encode(s)[..4] == Quantum(s) && Encode(s)[4..] == [];
    }
  }
}
