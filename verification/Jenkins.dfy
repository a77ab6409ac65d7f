/**
 Bob Jenkins' lookup3 hash on a little-endian machine.  The code reads the key in 32-bit words, 16-bit
 half-words or bytes, depending on its alignment.  `Hash` is the hash in terms of the key's bytes
 alone; all three ways of reading are proved to compute it.
 */
module Jenkins {
  import opened Prelude

  type U32 = x: int | 0 <= x < TWO32

  type Byte = x: int | 0 <= x < 0x100

  /** The internal state. */
  datatype Abc = Abc(a: U32, b: U32, c: U32)

  // ---------------------------------------------------------------- 32-bit arithmetic

  /** Addition and subtraction modulo 2^32. */
  function Add(x: U32, y: U32): U32 { if x + y >= TWO32 then x + y - TWO32 else x + y }

  function Sub(x: U32, y: U32): U32 { if x < y then x - y + TWO32 else x - y }

  lemma {:induction false} XorTwiceBits(x: nat, r: nat, n: nat)
    requires x < Pow2(n)
    ensures XorBits(XorBits(x, r, n), r, n) == x
  {
    if n > 0 {
      XorTwiceBits(x / 2, r / 2, n - 1);
      Split((x % 2 + r % 2) % 2, XorBits(x / 2, r / 2, n - 1));
      XorBit(x % 2, r % 2);
    }
  }

  lemma Split(bit: nat, rest: nat)
    requires bit < 2
    ensures (bit + 2 * rest) / 2 == rest && (bit + 2 * rest) % 2 == bit
  {
  }

  lemma XorBit(b: nat, r: nat)
    requires b < 2 && r < 2
    ensures ((b + r) % 2 + r) % 2 == b
  {
  }

  function Xor(x: U32, y: U32): U32 {
    Pow2Is();
    XorBits(x, y, 32)
  }

  /** Rotation to the left by `k` bits; by one bit, the top bit comes round to the bottom. */
  function Rot(x: U32, k: nat): U32 {
    if k == 0 then x
    else
      var y := Rot(x, k - 1);
      if 2 * y < TWO32 then 2 * y else 2 * y - TWO32 + 1
  }

  // ---------------------------------------------------------------- mixing

  /** One line of mix: x -= z; x ^= rot(z, k); z += y. */
  function Line(x: U32, y: U32, z: U32, k: nat): (U32, U32) {
    (Xor(Sub(x, z), Rot(z, k)), Add(z, y))
  }

  function Mix(s: Abc): Abc {
    var (a, c) := Line(s.a, s.b, s.c, 4);
    var (b, a) := Line(s.b, c, a, 6);
    var (c, b) := Line(c, a, b, 8);
    var (a, c) := Line(a, b, c, 16);
    var (b, a) := Line(b, c, a, 19);
    var (c, b) := Line(c, a, b, 4);
    Abc(a, b, c)
  }

  /** Undoes one line, given what the line left in x and z. */
  function UndoLine(x: U32, y: U32, z: U32, k: nat): (U32, U32) {
    (Add(Xor(x, Rot(Sub(z, y), k)), Sub(z, y)), Sub(z, y))
  }

  function Unmix(s: Abc): Abc {
    var (c, b) := UndoLine(s.c, s.a, s.b, 4);
    var (b, a) := UndoLine(b, c, s.a, 19);
    var (a, c) := UndoLine(a, b, c, 16);
    var (c, b) := UndoLine(c, a, b, 8);
    var (b, a) := UndoLine(b, c, a, 6);
    var (a, c) := UndoLine(a, b, c, 4);
    Abc(a, b, c)
  }

  lemma AddSub(x: U32, y: U32)
    ensures Sub(Add(x, y), y) == x && Add(Sub(x, y), y) == x
  {
  }

  lemma XorTwice(x: U32, r: U32)
    ensures Xor(Xor(x, r), r) == x
  {
    Pow2Is();
    XorTwiceBits(x, r, 32);
  }

  lemma LineUndone(x: U32, y: U32, z: U32, k: nat)
    ensures var (x', z') := Line(x, y, z, k); UndoLine(x', y, z', k) == (x, z)
  {
    hide Rot, Add, Sub, Xor;
    AddSub(z, y);
    AddSub(x, z);
    XorTwice(Sub(x, z), Rot(z, k));
  }

  lemma UndoneLine(x: U32, y: U32, z: U32, k: nat)
    ensures var (x', z') := UndoLine(x, y, z, k); Line(x', y, z', k) == (x, z)
  {
    hide Rot, Add, Sub, Xor;
    AddSub(z, y);
    var w := Sub(z, y);
    XorTwice(x, Rot(w, k));
    AddSub(Xor(x, Rot(w, k)), w);
  }

  /** mix loses nothing: it is a bijection on the state, with Unmix as its inverse. */
  lemma MixIsBijective(s: Abc)
    ensures Unmix(Mix(s)) == s && Mix(Unmix(s)) == s
  {
    hide Line, UndoLine;
    MixUndone(s);
    UnmixUndone(s);
  }

  lemma MixUndone(s: Abc)
    ensures Unmix(Mix(s)) == s
  {
    hide Line, UndoLine;
    var (a1, c1) := Line(s.a, s.b, s.c, 4);
    LineUndone(s.a, s.b, s.c, 4);
    var (b1, a2) := Line(s.b, c1, a1, 6);
    LineUndone(s.b, c1, a1, 6);
    var (c2, b2) := Line(c1, a2, b1, 8);
    LineUndone(c1, a2, b1, 8);
    var (a3, c3) := Line(a2, b2, c2, 16);
    LineUndone(a2, b2, c2, 16);
    var (b3, a4) := Line(b2, c3, a3, 19);
    LineUndone(b2, c3, a3, 19);
    LineUndone(c3, a4, b3, 4);
  }

  lemma UnmixUndone(s: Abc)
    ensures Mix(Unmix(s)) == s
  {
    hide Line, UndoLine;
    var (c1, b1) := UndoLine(s.c, s.a, s.b, 4);
    UndoneLine(s.c, s.a, s.b, 4);
    var (b2, a1) := UndoLine(b1, c1, s.a, 19);
    UndoneLine(b1, c1, s.a, 19);
    var (a2, c2) := UndoLine(a1, b2, c1, 16);
    UndoneLine(a1, b2, c1, 16);
    var (c3, b3) := UndoLine(c2, a2, b2, 8);
    UndoneLine(c2, a2, b2, 8);
    var (b4, a3) := UndoLine(b3, c3, a2, 6);
    UndoneLine(b3, c3, a2, 6);
    UndoneLine(a3, b4, c3, 4);
  }

  /** One line of final: x ^= y; x -= rot(y, k). */
  function FinalLine(x: U32, y: U32, k: nat): U32 {
    Sub(Xor(x, y), Rot(y, k))
  }

  function Final(s: Abc): Abc {
    var c := FinalLine(s.c, s.b, 14);
    var a := FinalLine(s.a, c, 11);
    var b := FinalLine(s.b, a, 25);
    var c := FinalLine(c, b, 16);
    var a := FinalLine(a, c, 4);
    var b := FinalLine(b, a, 14);
    var c := FinalLine(c, b, 24);
    Abc(a, b, c)
  }

  // ---------------------------------------------------------------- the hash of a byte string

  /** Byte `i` of the key, or zero beyond its end. */
  function At(key: seq<Byte>, i: nat): Byte {
    if i < |key| then key[i] else 0
  }

  /** Four bytes, least significant first. */
  function Word(key: seq<Byte>, i: nat): U32 {
    At(key, i) + 0x100 * At(key, i + 1) + 0x1_0000 * At(key, i + 2) + 0x100_0000 * At(key, i + 3)
  }

  /** Twelve bytes of the key, padded with zeros, are added to the state. */
  function AddBlock(s: Abc, key: seq<Byte>): Abc {
    Abc(Add(s.a, Word(key, 0)), Add(s.b, Word(key, 4)), Add(s.c, Word(key, 8)))
  }

  function Blocks(s: Abc, key: seq<Byte>): U32
    decreases |key|
  {
    if |key| > 12 then Blocks(Mix(AddBlock(s, key)), key[12..])
    else if key == [] then s.c
    else Final(AddBlock(s, key)).c
  }

  function Seed(length: nat): Abc {
    var n := Add(0xdeadbeef, length % TWO32);
    Abc(n, n, n)
  }

  /** The hash in terms of the key's bytes. */
  function Hash(key: seq<Byte>): U32 {
    Blocks(Seed(|key|), key)
  }

  // ---------------------------------------------------------------- reading memory

  /** A little-endian word, and half-word, of memory. */
  function ReadWord(mem: seq<Byte>, i: nat): U32
    requires i + 4 <= |mem|
  {
    mem[i] as int + 0x100 * (mem[i + 1] as int) + 0x1_0000 * (mem[i + 2] as int) + 0x100_0000 * (mem[i + 3] as int)
  }

  function ReadHalf(mem: seq<Byte>, i: nat): (r: U32)
    requires i + 2 <= |mem|
    ensures r < 0x1_0000
  {
    mem[i] as int + 0x100 * (mem[i + 1] as int)
  }

  /** The first `n` bytes from `i` on, least significant first, but at most four. */
  function Part(mem: seq<Byte>, i: nat, n: nat): (r: U32)
    requires n > 0 ==> i + (if n < 4 then n else 4) <= |mem|
    ensures n < 4 ==> r < 0x100_0000
  {
    (if n > 0 then mem[i] as int else 0) + 0x100 * (if n > 1 then mem[i + 1] as int else 0)
    + 0x1_0000 * (if n > 2 then mem[i + 2] as int else 0) + 0x100_0000 * (if n > 3 then mem[i + 3] as int else 0)
  }

  /** How many bytes of a key of `length` bytes lie at `i` or beyond. */
  function Beyond(length: nat, i: nat): nat {
    if length > i then length - i else 0
  }

  lemma WordIsPart(mem: seq<Byte>, off: nat, length: nat, i: nat)
    requires off <= length <= |mem|
    ensures Word(mem[off..length], i) == Part(mem, off + i, Beyond(length, off + i))
  {
  }

  lemma AddTwice(x: U32, p: U32, q: U32)
    requires p + q < TWO32
    ensures Add(Add(x, p), q) == Add(x, p + q)
  {
  }

  /** The masks of the last switch on the word path: 0xff, 0xffff, 0xffffff. */
  function Masked(w: U32, n: nat): U32 {
    if n == 0 then 0 else if n == 1 then w % 0x100 else if n == 2 then w % 0x1_0000
    else if n == 3 then w % 0x100_0000 else w
  }

  lemma MaskedIsPart(mem: seq<Byte>, i: nat, n: nat)
    requires i + 4 <= |mem|
    ensures Masked(ReadWord(mem, i), n) == Part(mem, i, n)
  {
    var b0, b1, b2, b3: int := mem[i], mem[i + 1], mem[i + 2], mem[i + 3];
    if n == 1 {
      assert (b0 + 0x100 * (b1 + 0x100 * b2 + 0x1_0000 * b3)) % 0x100 == b0;
    } else if n == 2 {
      assert (b0 + 0x100 * b1 + 0x1_0000 * (b2 + 0x100 * b3)) % 0x1_0000 == b0 + 0x100 * b1;
    } else if n == 3 {
      assert (b0 + 0x100 * b1 + 0x1_0000 * b2 + 0x100_0000 * b3) % 0x100_0000 == b0 + 0x100 * b1 + 0x1_0000 * b2;
    }
  }

  /** On the half-word path: up to four bytes are added, in one or two pieces. */
  method AddHalves(x: U32, mem: seq<Byte>, i: nat, n: nat) returns (r: U32)
    requires n > 0 ==> i + (if n < 4 then n else 4) <= |mem|
    ensures r == Add(x, Part(mem, i, n))
  {
    if n >= 4 {
      return Add(x, ReadHalf(mem, i) + 0x1_0000 * ReadHalf(mem, i + 2));
    }
    r := x;
    if n == 3 {
      r := Add(r, 0x1_0000 * (mem[i + 2] as int));
    }
    if n >= 2 {
      r := Add(r, ReadHalf(mem, i));
    }
    if n == 1 {
      r := Add(r, mem[i]);
    }
    if n == 3 {
      AddTwice(x, 0x1_0000 * (mem[i + 2] as int), ReadHalf(mem, i));
    }
  }

  /** On the byte path: up to four bytes are added one by one, the most significant first; in whole
      blocks the code starts with the least significant one, to the same effect. */
  method AddBytes(x: U32, mem: seq<Byte>, i: nat, n: nat) returns (r: U32)
    requires n > 0 ==> i + (if n < 4 then n else 4) <= |mem|
    ensures r == Add(x, Part(mem, i, n))
  {
    r := x;
    ghost var sum: U32 := 0;
    if n > 3 {
      AddTwice(x, sum, 0x100_0000 * (mem[i + 3] as int));
      r, sum := Add(r, 0x100_0000 * (mem[i + 3] as int)), 0x100_0000 * (mem[i + 3] as int);
    }
    if n > 2 {
      AddTwice(x, sum, 0x1_0000 * (mem[i + 2] as int));
      r, sum := Add(r, 0x1_0000 * (mem[i + 2] as int)), sum + 0x1_0000 * (mem[i + 2] as int);
    }
    if n > 1 {
      AddTwice(x, sum, 0x100 * (mem[i + 1] as int));
      r, sum := Add(r, 0x100 * (mem[i + 1] as int)), sum + 0x100 * (mem[i + 1] as int);
    }
    if n > 0 {
      AddTwice(x, sum, mem[i]);
      r, sum := Add(r, mem[i]), sum + mem[i];
    }
  }

  /** Four bytes, or what is left of them, as three additions see them. */
  lemma AddedBlock(s: Abc, mem: seq<Byte>, off: nat, length: nat)
    requires off <= length <= |mem|
    ensures AddBlock(s, mem[off..length]) ==
      Abc(Add(s.a, Part(mem, off, Beyond(length, off))), Add(s.b, Part(mem, off + 4, Beyond(length, off + 4))),
          Add(s.c, Part(mem, off + 8, Beyond(length, off + 8))))
  {
    hide Part, Word, Add;
    WordIsPart(mem, off, length, 0);
    WordIsPart(mem, off, length, 4);
    WordIsPart(mem, off, length, 8);
  }

  /** A word is read, and what lies beyond the end of the key is masked off; a word that has nothing of
      the key is not read. */
  method AddMasked(x: U32, mem: seq<Byte>, i: nat, n: nat) returns (r: U32)
    requires n > 0 ==> i + 4 <= |mem|
    ensures r == Add(x, Part(mem, i, n))
  {
    if n == 0 {
      return x;
    }
    MaskedIsPart(mem, i, n);
    return Add(x, Masked(ReadWord(mem, i), n));
  }

  /** A word that has something of the key can be read whole. */
  predicate WordFits(size: nat, length: nat, at: nat) {
    at < length ==> at + 4 <= size
  }

  lemma WordsFit(size: nat, length: nat, off: nat)
    requires (length + 3) / 4 * 4 <= size && off % 4 == 0
    ensures WordFits(size, length, off) && WordFits(size, length, off + 4) && WordFits(size, length, off + 8)
    ensures (off + 12) % 4 == 0
  {
  }

  /** A key at an address divisible by four is read word by word; the word that holds its end can be
      read to its own end. */
  method HashWords(mem: seq<Byte>, length: nat) returns (hash: U32)
    requires (length + 3) / 4 * 4 <= |mem|
    ensures hash == Hash(mem[..length])
  {
    hide Mix, Final, Add, Part, Word, Seed;
    var s, off := Seed(length), 0;
    while length - off > 12
      invariant 0 <= off <= length && off % 4 == 0 && Hash(mem[..length]) == Blocks(s, mem[off..length])
    {
      WordsFit(|mem|, length, off);
      AddedBlock(s, mem, off, length);
      MaskedIsPart(mem, off, Beyond(length, off));
      MaskedIsPart(mem, off + 4, Beyond(length, off + 4));
      MaskedIsPart(mem, off + 8, Beyond(length, off + 8));
      s := Abc(Add(s.a, ReadWord(mem, off)), Add(s.b, ReadWord(mem, off + 4)), Add(s.c, ReadWord(mem, off + 8)));
      s := Mix(s);
      assert mem[off..length][12..] == mem[off + 12..length];
      off := off + 12;
    }
    if length - off == 0 {
      return s.c;
    }
    WordsFit(|mem|, length, off);
    AddedBlock(s, mem, off, length);
    var a := AddMasked(s.a, mem, off, Beyond(length, off));
    var b := AddMasked(s.b, mem, off + 4, Beyond(length, off + 4));
    var c := AddMasked(s.c, mem, off + 8, Beyond(length, off + 8));
    s := Abc(a, b, c);
    s := Final(s);
    return s.c;
  }

  /** A key at an even address is read half-word by half-word. */
  method HashHalves(mem: seq<Byte>, length: nat) returns (hash: U32)
    requires length <= |mem|
    ensures hash == Hash(mem[..length])
  {
    hide Mix, Final, Add, Part, Word, Seed;
    var s, off := Seed(length), 0;
    while length - off > 12
      invariant 0 <= off <= length && Hash(mem[..length]) == Blocks(s, mem[off..length])
    {
      AddedBlock(s, mem, off, length);
      var a := AddHalves(s.a, mem, off, Beyond(length, off));
      var b := AddHalves(s.b, mem, off + 4, Beyond(length, off + 4));
      var c := AddHalves(s.c, mem, off + 8, Beyond(length, off + 8));
      s := Abc(a, b, c);
      s := Mix(s);
      assert mem[off..length][12..] == mem[off + 12..length];
      off := off + 12;
    }
    if length - off == 0 {
      return s.c;
    }
    AddedBlock(s, mem, off, length);
    var a := AddHalves(s.a, mem, off, Beyond(length, off));
    var b := AddHalves(s.b, mem, off + 4, Beyond(length, off + 4));
    var c := AddHalves(s.c, mem, off + 8, Beyond(length, off + 8));
    s := Abc(a, b, c);
    s := Final(s);
    return s.c;
  }

  /** Any other key is read byte by byte. */
  method HashBytes(mem: seq<Byte>, length: nat) returns (hash: U32)
    requires length <= |mem|
    ensures hash == Hash(mem[..length])
  {
    hide Mix, Final, Add, Part, Word, Seed;
    var s, off := Seed(length), 0;
    while length - off > 12
      invariant 0 <= off <= length && Hash(mem[..length]) == Blocks(s, mem[off..length])
    {
      AddedBlock(s, mem, off, length);
      var a := AddBytes(s.a, mem, off, Beyond(length, off));
      var b := AddBytes(s.b, mem, off + 4, Beyond(length, off + 4));
      var c := AddBytes(s.c, mem, off + 8, Beyond(length, off + 8));
      s := Abc(a, b, c);
      s := Mix(s);
      assert mem[off..length][12..] == mem[off + 12..length];
      off := off + 12;
    }
    if length - off == 0 {
      return s.c;
    }
    AddedBlock(s, mem, off, length);
    var a := AddBytes(s.a, mem, off, Beyond(length, off));
    var b := AddBytes(s.b, mem, off + 4, Beyond(length, off + 4));
    var c := AddBytes(s.c, mem, off + 8, Beyond(length, off + 8));
    s := Abc(a, b, c);
    s := Final(s);
    return s.c;
  }

  /** jenkins_hash: whatever the alignment, the hash is that of the key's bytes. */
  method JenkinsHash(mem: seq<Byte>, address: nat, length: nat) returns (hash: U32)
    requires length <= |mem|
    requires address % 4 == 0 ==> (length + 3) / 4 * 4 <= |mem|
    ensures hash == Hash(mem[..length])
  {
    if address % 4 == 0 {
      hash := HashWords(mem, length);
    } else if address % 2 == 0 {
      hash := HashHalves(mem, length);
    } else {
      hash := HashBytes(mem, length);
    }
  }
}
