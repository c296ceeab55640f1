/** Bit arrays packed into bytes padded to whole 32-byte chunks, updated in place, and their meaning as
    plain sequences of bits. */
module PackedArray {
  import opened Bits

  type Byte = bv8
  const CHUNK := 32

  /* ---------- single bits of a byte ---------- */

  /** `1 << j` */
  function One(j: nat): Byte
    requires j < 8
  {
    if j == 0 then 1 else if j == 1 then 2 else if j == 2 then 4 else if j == 3 then 8
    else if j == 4 then 16 else if j == 5 then 32 else if j == 6 then 64 else 128
  }

  predicate BitOf(b: Byte, j: nat) { j < 8 && b & One(j) != 0 }

  predicate SingleBit(m: Byte) { m != 0 && m & (m - 1) == 0 }

  lemma OneIsSingle(j: nat)
    requires j < 8
    ensures SingleBit(One(j))
  {
  }

  lemma OneDiffers(i: nat, j: nat)
    requires i < 8 && j < 8
    ensures One(i) == One(j) <==> i == j
  {
  }

  lemma MaskXor(a: Byte, b: Byte, m: Byte)
    requires SingleBit(m)
    ensures ((a ^ b) & m != 0) == ((a & m != 0) != (b & m != 0))
  {
  }

  lemma MaskAnd(a: Byte, b: Byte, m: Byte)
    requires SingleBit(m)
    ensures ((a & b) & m != 0) == (a & m != 0 && b & m != 0)
  {
  }

  lemma MaskSet(a: Byte, n: Byte, m: Byte)
    requires SingleBit(m) && SingleBit(n)
    ensures ((a | n) & m != 0) == (n == m || a & m != 0)
    ensures ((a & !n) & m != 0) == (n != m && a & m != 0)
  {
  }

  lemma {:induction false} BitOfXor(a: Byte, b: Byte, j: nat)
    ensures BitOf(a ^ b, j) == (BitOf(a, j) != BitOf(b, j))
  {
    if j < 8 {
      OneIsSingle(j);
      MaskXor(a, b, One(j));
    }
  }

  lemma BitOfAnd(a: Byte, b: Byte, j: nat)
    ensures BitOf(a & b, j) == (BitOf(a, j) && BitOf(b, j))
  {
    if j < 8 {
      OneIsSingle(j);
      MaskAnd(a, b, One(j));
    }
  }

  /** `|= 1 << r` or `&= !(1 << r)` */
  function SetIn(b: Byte, r: nat, v: bool): (c: Byte)
    requires r < 8
  {
    if v then b | One(r) else b & !One(r)
  }

  lemma SetInBit(b: Byte, r: nat, v: bool, j: nat)
    requires r < 8 && j < 8
    ensures BitOf(SetIn(b, r, v), j) == if j == r then v else BitOf(b, j)
  {
    OneIsSingle(r);
    OneIsSingle(j);
    OneDiffers(r, j);
    MaskSet(b, One(r), One(j));
  }

  lemma ShiftOne(b: Byte, j: nat)
    requires j < 7
    ensures (b >> 1) as nat == (b as nat) / 2 && BitOf(b, 0) == ((b as nat) % 2 == 1)
    ensures BitOf(b, j + 1) == BitOf(b >> 1, j)
  {
  }

  /** Bit `j` of a byte weighs 2^j. */
  lemma {:induction false} BitWeight(b: Byte, j: nat)
    requires j < 8
    ensures BitOf(b, j) == BitAt(b as nat, j)
    decreases j
  {
    if j == 0 {
      ShiftOne(b, 0);
    } else {
      ShiftOne(b, j - 1);
      BitWeight(b >> 1, j - 1);
    }
  }

  /** What a bit of weight `w` adds when it goes from `was` to `v`. */
  function Change(was: bool, v: bool, w: int): int { if was == v then 0 else if v then w else -w }

  /** Setting a bit moves the byte's value by that bit's weight, or not at all. */
  lemma {:induction false} SetInWeight(b: Byte, r: nat, v: bool)
    requires r < 8
    ensures SetIn(b, r, v) as int == b as int + Change(BitOf(b, r), v, Pow2(r))
  {
    OneWeight(r);
    SetInSum(b, One(r), v);
  }

  lemma {:induction false} OneWeight(r: nat)
    requires r < 8
    ensures One(r) as nat == Pow2(r) && SingleBit(One(r))
  {
    assert Pow2(4) == 16 && Pow2(6) == 64;
  }

  lemma SetInSum(b: Byte, m: Byte, v: bool)
    requires SingleBit(m)
    ensures (if v then b | m else b & !m) as int
         == b as int + Change(b & m != 0, v, m as int)
  {
  }

  lemma BitOfConst(j: nat)
    requires j < 8
    ensures !BitOf(0, j) && BitOf(0xFF, j)
  {
  }

  /* ---------- words as bits, whatever the bits of a word are ---------- */

  function UnpackBy<T>(bit: (T, nat) -> bool, s: seq<T>): (r: Bits)
    ensures |r| == 8 * |s|
  {
    seq(8 * |s|, j requires 0 <= j < 8 * |s| => bit(s[j / 8], j % 8))
  }

  lemma ByAt<T>(bit: (T, nat) -> bool, s: seq<T>, j: nat)
    requires j < 8 * |s|
    ensures UnpackBy(bit, s)[j] == bit(s[j / 8], j % 8)
  {
  }

  lemma IndexShift(j: nat, n: nat)
    requires j >= 8 * n
    ensures (j - 8 * n) / 8 == j / 8 - n && (j - 8 * n) % 8 == j % 8
  {
  }

  lemma ByConcat<T>(bit: (T, nat) -> bool, a: seq<T>, b: seq<T>)
    ensures UnpackBy(bit, a + b) == UnpackBy(bit, a) + UnpackBy(bit, b)
  {
    var l, r := UnpackBy(bit, a + b), UnpackBy(bit, a) + UnpackBy(bit, b);
    forall j | 0 <= j < 8 * (|a| + |b|) ensures l[j] == r[j] {
      if j >= 8 * |a| { IndexShift(j, |a|); }
    }
  }

  lemma SameIndex(i: nat, j: nat)
    ensures i / 8 == j / 8 && i % 8 == j % 8 <==> i == j
  {
  }

  lemma BySet<T>(bit: (T, nat) -> bool, s: seq<T>, i: nat, x: T, v: bool)
    requires i < 8 * |s|
    requires forall j :: 0 <= j < 8 ==> bit(x, j) == if j == i % 8 then v else bit(s[i / 8], j)
    ensures UnpackBy(bit, s[i / 8 := x]) == UnpackBy(bit, s)[i := v]
  {
    var l, r := UnpackBy(bit, s[i / 8 := x]), UnpackBy(bit, s)[i := v];
    forall j | 0 <= j < 8 * |s| ensures l[j] == r[j] {
      SameIndex(i, j);
    }
  }

  /* ---------- bytes as bits ---------- */

  /** All bits of a stretch of memory, lowest bit of each byte first. */
  function Unpack(s: seq<Byte>): (r: Bits)
    ensures |r| == 8 * |s|
  {
    UnpackBy(BitOf, s)
  }

  lemma UnpackAt(s: seq<Byte>, j: nat)
    requires j < 8 * |s|
    ensures Unpack(s)[j] == BitOf(s[j / 8], j % 8)
  {
    ByAt(BitOf, s, j);
  }

  lemma UnpackConcat(a: seq<Byte>, b: seq<Byte>)
    ensures Unpack(a + b) == Unpack(a) + Unpack(b)
  {
    ByConcat(BitOf, a, b);
  }

  lemma UnpackSlice(s: seq<Byte>, i: nat, j: nat)
    requires i <= j <= |s|
    ensures Unpack(s[i..j]) == Unpack(s)[8 * i..8 * j]
  {
    assert s == s[..i] + (s[i..j] + s[j..]);
    UnpackConcat(s[..i], s[i..j] + s[j..]);
    UnpackConcat(s[i..j], s[j..]);
  }

  function XorBytes(a: seq<Byte>, b: seq<Byte>): (c: seq<Byte>)
    requires |a| == |b|
    ensures |c| == |a| && forall i :: 0 <= i < |c| ==> c[i] == a[i] ^ b[i]
  {
    seq(|a|, i requires 0 <= i < |a| => a[i] ^ b[i])
  }

  function AndBytes(a: seq<Byte>, b: seq<Byte>): (c: seq<Byte>)
    requires |a| == |b|
    ensures |c| == |a| && forall i :: 0 <= i < |c| ==> c[i] == a[i] & b[i]
  {
    seq(|a|, i requires 0 <= i < |a| => a[i] & b[i])
  }

  /** Byte-wise operations are bit-wise operations. */
  lemma UnpackXor(a: seq<Byte>, b: seq<Byte>)
    requires |a| == |b|
    ensures Unpack(XorBytes(a, b)) == XorBits(Unpack(a), Unpack(b))
  {
    var c := XorBytes(a, b);
    forall j | 0 <= j < 8 * |a| ensures Unpack(c)[j] == (Unpack(a)[j] != Unpack(b)[j]) {
      UnpackAt(c, j);
      UnpackAt(a, j);
      UnpackAt(b, j);
      BitOfXor(a[j / 8], b[j / 8], j % 8);
    }
  }

  lemma UnpackAnd(a: seq<Byte>, b: seq<Byte>)
    requires |a| == |b|
    ensures Unpack(AndBytes(a, b)) == AndBits(Unpack(a), Unpack(b))
  {
    var c := AndBytes(a, b);
    forall j | 0 <= j < 8 * |a| ensures Unpack(c)[j] == (Unpack(a)[j] && Unpack(b)[j]) {
      UnpackAt(c, j);
      UnpackAt(a, j);
      UnpackAt(b, j);
      BitOfAnd(a[j / 8], b[j / 8], j % 8);
    }
  }

  /** Setting a bit in its byte sets that bit and no other. */
  lemma UnpackSet(s: seq<Byte>, i: nat, v: bool)
    requires i < 8 * |s|
    ensures Unpack(s[i / 8 := SetIn(s[i / 8], i % 8, v)]) == Unpack(s)[i := v]
  {
    var b := s[i / 8];
    forall j | 0 <= j < 8 ensures BitOf(SetIn(b, i % 8, v), j) == if j == i % 8 then v else BitOf(b, j) {
      SetInBit(b, i % 8, v, j);
    }
    BySet(BitOf, s, i, SetIn(b, i % 8, v), v);
  }

  lemma UnpackConst(s: seq<Byte>, v: bool)
    requires forall i :: 0 <= i < |s| ==> s[i] == if v then 0xFF else 0
    ensures Unpack(s) == BoolSeq(8 * |s|, v)
  {
    forall j | 0 <= j < 8 * |s| ensures Unpack(s)[j] == v {
      UnpackAt(s, j);
      BitOfConst(j % 8);
    }
  }

  /* ---------- counting ones ---------- */

  /** `count_ones` */
  function CountOnes(s: Bits): nat { if |s| == 0 then 0 else CountOnes(s[..|s| - 1]) + if s[|s| - 1] then 1 else 0 }

  lemma {:induction false} CountParity(s: Bits)
    ensures Parity(s) == (CountOnes(s) % 2 == 1)
  {
    if |s| > 0 { CountParity(s[..|s| - 1]); }
  }

  lemma {:induction false} CountConcat(a: Bits, b: Bits)
    ensures CountOnes(a + b) == CountOnes(a) + CountOnes(b)
  {
    if |b| == 0 {
      assert a + b == a;
    } else {
      var n := |b| - 1;
      CountConcat(a, b[..n]);
      assert (a + b)[..|a + b| - 1] == a + b[..n];
    }
  }

  /** `cnt` ones in the first `i` bytes. */
  predicate Counted(s: seq<Byte>, i: nat, cnt: nat) { i <= |s| && cnt == CountOnes(Unpack(s[..i])) }

  function Word(s: seq<Byte>, i: nat, j: nat): (cnt: nat)
    requires i <= j <= |s|
  {
    CountOnes(Unpack(s[i..j]))
  }

  lemma CountStart(s: seq<Byte>)
    ensures Counted(s, 0, 0)
  {
    assert s[..0] == [];
  }

  lemma CountWord(s: seq<Byte>, i: nat, j: nat, cnt: nat)
    requires i <= j <= |s| && Counted(s, i, cnt)
    ensures Counted(s, j, cnt + Word(s, i, j))
  {
    CountConcat(Unpack(s[..i]), Unpack(s[i..j]));
    UnpackConcat(s[..i], s[i..j]);
    assert s[..j] == s[..i] + s[i..j];
  }

  lemma CountAll(s: seq<Byte>, cnt: nat)
    requires Counted(s, |s|, cnt)
    ensures Parity(Unpack(s)) == (cnt % 2 == 1)
  {
    assert s[..|s|] == s;
    CountParity(Unpack(s));
  }

  /** The low bit of the number of ones in the four 64-bit words of a chunk. */
  method ParityOfWords(chunk: seq<Byte>) returns (odd: bool)
    requires |chunk| == CHUNK
    ensures odd == Parity(Unpack(chunk))
  {
    var cnt: nat, i: nat := 0, 0;
    CountStart(chunk);
    while i < CHUNK
      invariant i % 8 == 0 && 0 <= i <= CHUNK && Counted(chunk, i, cnt)
    {
      var j := i + 8;
      CountWord(chunk, i, j, cnt);
      cnt := cnt + Word(chunk, i, j);
      i := j;
    }
    CountAll(chunk, cnt);
    odd := cnt % 2 == 1;
  }

  /** `acc` has the parity of the first `i` bytes. */
  predicate Folded(acc: seq<Byte>, s: seq<Byte>, i: nat) {
    |acc| == CHUNK && i <= |s| && Parity(Unpack(acc)) == Parity(Unpack(s[..i]))
  }

  lemma FoldStep(acc: seq<Byte>, s: seq<Byte>, i: nat, j: nat)
    requires Folded(acc, s, i) && j == i + CHUNK && j <= |s|
    ensures Folded(XorBytes(acc, s[i..j]), s, j)
  {
    var chunk := s[i..j];
    UnpackXor(acc, chunk);
    ParityXor(Unpack(acc), Unpack(chunk), XorBits(Unpack(acc), Unpack(chunk)));
    UnpackConcat(s[..i], chunk);
    ParityConcat(Unpack(s[..i]), Unpack(chunk));
    assert s[..j] == s[..i] + chunk;
  }

  lemma FoldStart(s: seq<Byte>)
    ensures Folded(ZeroChunk(), s, 0)
  {
    assert s[..0] == [];
  }

  lemma FoldEnd(acc: seq<Byte>, s: seq<Byte>)
    requires Folded(acc, s, |s|)
    ensures |acc| == CHUNK && Parity(Unpack(acc)) == Parity(Unpack(s))
  {
    assert s[..|s|] == s;
  }

  function ZeroChunk(): (r: seq<Byte>)
    ensures |r| == CHUNK && !Parity(Unpack(r))
  {
    var r := seq(CHUNK, i => 0);
    UnpackConst(r, false);
    ParityZero(Unpack(r));
    r
  }

  /** XOR-folding the chunks and counting ones gives the XOR of all bits. */
  method FoldParity(s: seq<Byte>) returns (odd: bool)
    requires |s| % CHUNK == 0
    ensures odd == Parity(Unpack(s))
  {
    var acc, i := ZeroChunk(), 0;
    FoldStart(s);
    while i < |s|
      invariant i % CHUNK == 0 && i <= |s| && Folded(acc, s, i)
    {
      var j := i + CHUNK;
      FoldStep(acc, s, i, j);
      acc := XorBytes(acc, s[i..j]);
      i := j;
    }
    FoldEnd(acc, s);
    odd := ParityOfWords(acc);
  }

  lemma AndSlice(x: seq<Byte>, y: seq<Byte>, i: nat, j: nat)
    requires |x| == |y| && i <= j <= |x|
    ensures AndBytes(x, y)[i..j] == AndBytes(x[i..j], y[i..j])
  {
  }

  lemma FoldInnerStep(acc: seq<Byte>, x: seq<Byte>, y: seq<Byte>, i: nat, j: nat)
    requires |x| == |y| && Folded(acc, AndBytes(x, y), i) && j == i + CHUNK && j <= |x|
    ensures Folded(XorBytes(acc, AndBytes(x[i..j], y[i..j])), AndBytes(x, y), j)
  {
    FoldStep(acc, AndBytes(x, y), i, j);
    AndSlice(x, y, i, j);
  }

  lemma FoldInnerEnd(acc: seq<Byte>, x: seq<Byte>, y: seq<Byte>)
    requires |x| == |y| && Folded(acc, AndBytes(x, y), |x|)
    ensures |acc| == CHUNK && Parity(Unpack(acc)) == Parity(AndBits(Unpack(x), Unpack(y)))
  {
    FoldEnd(acc, AndBytes(x, y));
    UnpackAnd(x, y);
  }

  /** The same over the chunks of `x` AND `y`. */
  method FoldInner(x: seq<Byte>, y: seq<Byte>) returns (odd: bool)
    requires |x| == |y| && |x| % CHUNK == 0
    ensures odd == Parity(AndBits(Unpack(x), Unpack(y)))
  {
    ghost var anded := AndBytes(x, y);
    var acc, i := ZeroChunk(), 0;
    FoldStart(anded);
    while i < |x|
      invariant i % CHUNK == 0 && i <= |x| && Folded(acc, anded, i)
    {
      var j := i + CHUNK;
      FoldInnerStep(acc, x, y, i, j);
      acc := XorBytes(acc, AndBytes(x[i..j], y[i..j]));
      i := j;
    }
    FoldInnerEnd(acc, x, y);
    odd := ParityOfWords(acc);
  }

  /* ---------- the array ---------- */

  /** `align_max_len`: up to whole chunks. */
  function AlignMaxLen(len: nat): (r: nat)
    ensures r % CHUNK == 0 && len <= r < len + CHUNK
  {
    if len % CHUNK == 0 then len else len + (CHUNK - len % CHUNK)
  }

  /** Block copy of whole bytes is a copy of bits. */
  lemma BlockCopy(dest: seq<Byte>, at: nat, src: seq<Byte>, n: nat)
    requires n <= |src| && at + n <= |dest|
    ensures Unpack(dest[..at] + src[..n] + dest[at + n..]) == Splice(Unpack(dest), 8 * at, Unpack(src)[..8 * n])
  {
    UnpackConcat(dest[..at] + src[..n], dest[at + n..]);
    UnpackConcat(dest[..at], src[..n]);
    UnpackSlice(dest, 0, at);
    UnpackSlice(src, 0, n);
    UnpackSlice(dest, at + n, |dest|);
  }

  /** Copying one more bit. */
  lemma SpliceNext(dest: Bits, at: nat, src: Bits, i: nat)
    requires i < |src| && at + |src| <= |dest|
    ensures Splice(dest, at, src[..i])[at + i := src[i]] == Splice(dest, at, src[..i + 1])
  {
  }

  /** One 32-byte AND or XOR, stored into `d`. */
  method StoreAndChunk(d: array<Byte>, a: array<Byte>, b: array<Byte>, i: nat)
    requires i + CHUNK <= d.Length == a.Length == b.Length && a != d && b != d
    modifies d
    ensures forall k :: 0 <= k < d.Length ==> d[k] == if i <= k < i + CHUNK then a[k] & b[k] else old(d[k])
  {
    forall k | 0 <= k < CHUNK { d[i + k] := a[i + k] & b[i + k]; }
  }

  /** The first `i` bytes are ANDed with `e`, the rest is as it was. */
  predicate AndedTo(now: seq<Byte>, was: seq<Byte>, e: seq<Byte>, i: nat) {
    && |now| == |was| == |e|
    && forall k :: 0 <= k < |now| ==> now[k] == if k < i then was[k] & e[k] else was[k]
  }

  lemma AndedNext(now: seq<Byte>, next: seq<Byte>, was: seq<Byte>, e: seq<Byte>, i: nat, j: nat)
    requires AndedTo(now, was, e, i) && i <= j <= |now| == |next|
    requires forall k :: 0 <= k < |now| ==> next[k] == if i <= k < j then now[k] & e[k] else now[k]
    ensures AndedTo(next, was, e, j)
  {
  }

  method AndChunk(d: array<Byte>, e: array<Byte>, i: nat)
    requires i + CHUNK <= d.Length == e.Length && e != d
    modifies d
    ensures forall k :: 0 <= k < d.Length ==> d[k] == if i <= k < i + CHUNK then old(d[k]) & e[k] else old(d[k])
  {
    forall k | 0 <= k < CHUNK { d[i + k] := d[i + k] & e[i + k]; }
  }

  /** The first `i` bytes are XORed with `e`, the rest is as it was. */
  predicate XoredTo(now: seq<Byte>, was: seq<Byte>, e: seq<Byte>, i: nat) {
    && |now| == |was| == |e|
    && forall k :: 0 <= k < |now| ==> now[k] == if k < i then was[k] ^ e[k] else was[k]
  }

  lemma XoredNext(now: seq<Byte>, next: seq<Byte>, was: seq<Byte>, e: seq<Byte>, i: nat, j: nat)
    requires XoredTo(now, was, e, i) && i <= j <= |now| == |next|
    requires forall k :: 0 <= k < |now| ==> next[k] == if i <= k < j then now[k] ^ e[k] else now[k]
    ensures XoredTo(next, was, e, j)
  {
  }

  method XorChunk(d: array<Byte>, e: array<Byte>, i: nat)
    requires i + CHUNK <= d.Length == e.Length && e != d
    modifies d
    ensures forall k :: 0 <= k < d.Length ==> d[k] == if i <= k < i + CHUNK then old(d[k]) ^ e[k] else old(d[k])
  {
    forall k | 0 <= k < CHUNK { d[i + k] := d[i + k] ^ e[i + k]; }
  }

  method StoreAnd(d: array<Byte>, a: array<Byte>, b: array<Byte>)
    requires d.Length == a.Length == b.Length && d.Length % CHUNK == 0 && a != d && b != d
    modifies d
    ensures d[..] == AndBytes(a[..], b[..])
  {
    var i := 0;
    while i < d.Length
      invariant 0 <= i <= d.Length && i % CHUNK == 0
      invariant forall k :: 0 <= k < i ==> d[k] == a[k] & b[k]
    {
      StoreAndChunk(d, a, b, i);
      i := i + CHUNK;
    }
  }

  method AndInto(d: array<Byte>, e: array<Byte>)
    requires d.Length == e.Length && d.Length % CHUNK == 0 && e != d
    modifies d
    ensures d[..] == AndBytes(old(d[..]), e[..])
  {
    var i := 0;
    while i < d.Length
      invariant 0 <= i <= d.Length && i % CHUNK == 0 && AndedTo(d[..], old(d[..]), e[..], i)
    {
      ghost var now := d[..];
      AndChunk(d, e, i);
      AndedNext(now, d[..], old(d[..]), e[..], i, i + CHUNK);
      i := i + CHUNK;
    }
  }

  method XorInto(d: array<Byte>, e: array<Byte>)
    requires d.Length == e.Length && d.Length % CHUNK == 0 && e != d
    modifies d
    ensures d[..] == XorBytes(old(d[..]), e[..])
  {
    var i := 0;
    while i < d.Length
      invariant 0 <= i <= d.Length && i % CHUNK == 0 && XoredTo(d[..], old(d[..]), e[..], i)
    {
      ghost var now := d[..];
      XorChunk(d, e, i);
      XoredNext(now, d[..], old(d[..]), e[..], i, i + CHUNK);
      i := i + CHUNK;
    }
  }

  /** Memory that begins with the bytes `src` and goes on with zeros. */
  lemma PaddedMemory(mem: seq<Byte>, src: seq<Byte>, len: nat)
    requires |src| == len <= |mem| && mem[..len] == src
    requires forall k :: len <= k < |mem| ==> mem[k] == 0
    ensures Unpack(mem)[..8 * len] == Unpack(src)
    ensures forall j :: 8 * len <= j < |Unpack(mem)| ==> !Unpack(mem)[j]
  {
    UnpackSlice(mem, 0, len);
    UnpackSlice(mem, len, |mem|);
    assert mem[len..] == mem[len..|mem|];
    UnpackConst(mem[len..], false);
    forall j | 8 * len <= j < |Unpack(mem)| ensures !Unpack(mem)[j] {
      assert Unpack(mem)[8 * len..8 * |mem|][j - 8 * len] == Unpack(mem)[j];
    }
  }

  /** Zeros after the first `n` bits do not change the parity. */
  lemma {:induction false} ZeroAfter(m: Bits, n: nat)
    requires n <= |m| && forall j :: n <= j < |m| ==> !m[j]
    ensures Parity(m) == Parity(m[..n])
  {
    ParityConcat(m[..n], m[n..]);
    ParityZero(m[n..]);
    assert m == m[..n] + m[n..];
  }

  /** What comes after `n` bits does not count when one side is zero there. */
  lemma AndPrefix(a: Bits, b: Bits, n: nat)
    requires n <= |a| == |b| && forall j :: n <= j < |a| ==> !a[j] || !b[j]
    ensures Parity(AndBits(a, b)) == Parity(AndBits(a[..n], b[..n]))
  {
    ZeroAfter(AndBits(a, b), n);
    assert AndBits(a, b)[..n] == AndBits(a[..n], b[..n]);
  }

  class BitArray {
    var data: array<Byte>
    var bitSize: nat
    var byteSize: nat

    ghost predicate Valid()
      reads this
    {
      data.Length == AlignMaxLen(byteSize) && bitSize <= 8 * byteSize
    }

    /** No byte more than the bits need. */
    ghost predicate Snug()
      reads this
    {
      byteSize == CeilDiv8(bitSize)
    }

    /** Every bit of the aligned memory. */
    ghost function Memory(): (r: Bits)
      reads this, data
      ensures |r| == 8 * data.Length
    {
      Unpack(data[..])
    }

    /** The bits of the array's bytes, padding of the last byte included, and how many are valid. */
    ghost function Value(): (v: BitVec)
      requires Valid()
      reads this, data
      ensures Snug() ==> v.Valid()
    {
      BitVec(Memory()[..8 * byteSize], bitSize)
    }

    /** The memory after the last byte is zero. */
    ghost predicate ZeroTail()
      reads this, data
    {
      forall j :: 8 * byteSize <= j < |Memory()| ==> !Memory()[j]
    }

    /** `new`; an array of no bits panics. */
    constructor New(n: nat)
      requires n > 0
      ensures Valid() && Snug() && fresh(data) && bitSize == n
      ensures Memory() == BoolSeq(8 * data.Length, false) && ZeroTail()
    {
      bitSize, byteSize := n, CeilDiv8(n);
      var d := new Byte[AlignMaxLen(CeilDiv8(n))](i => 0);
      data := d;
      new;
      UnpackConst(data[..], false);
    }

    /** `ones`: the whole memory is filled, the part after the last byte too. */
    constructor Ones(n: nat)
      requires n > 0
      ensures Valid() && Snug() && fresh(data) && bitSize == n
      ensures Memory() == BoolSeq(8 * data.Length, true)
    {
      bitSize, byteSize := n, CeilDiv8(n);
      var d := new Byte[AlignMaxLen(CeilDiv8(n))](i => 0xFF);
      data := d;
      new;
      UnpackConst(data[..], true);
    }

    /** `set_bit` */
    method SetBit(i: nat, v: bool)
      requires Valid() && i < bitSize
      modifies data
      ensures Memory() == old(Memory())[i := v]
      ensures data[..] == old(data[..])[i / 8 := data[i / 8]]
      ensures data[i / 8] as int == old(data[i / 8]) as int + Change(old(Memory()[i]), v, Pow2(i % 8))
      ensures old(ZeroTail()) ==> ZeroTail()
    {
      UnpackAt(data[..], i);
      SetInWeight(data[i / 8], i % 8, v);
      UnpackSet(data[..], i, v);
      data[i / 8] := SetIn(data[i / 8], i % 8, v);
      assert data[..] == old(data[..])[i / 8 := SetIn(old(data[i / 8]), i % 8, v)];
    }

    /** `get` */
    method Get(i: nat) returns (b: bool)
      requires Valid() && i < bitSize
      ensures b == Memory()[i] && b == BitAt(data[i / 8] as nat, i % 8)
    {
      UnpackAt(data[..], i);
      BitWeight(data[i / 8], i % 8);
      b := BitOf(data[i / 8], i % 8);
    }

    /** The byte-aligned path of `copy_from`: one block of bytes. */
    method CopyBlock(at: nat, source: BitArray)
      requires Valid() && source.Valid() && source.Snug() && source.data != data
      requires at + source.bitSize <= bitSize && at % 8 == 0 && source.bitSize % 8 == 0
      modifies data
      ensures Memory() == Splice(old(Memory()), at, source.Memory()[..source.bitSize])
    {
      var st, n := at / 8, source.byteSize;
      forall k | 0 <= k < n { data[st + k] := source.data[k]; }
      assert data[..] == old(data[..])[..st] + source.data[..][..n] + old(data[..])[st + n..];
      BlockCopy(old(data[..]), st, source.data[..], n);
      assert 8 * st == at && 8 * n == source.bitSize;
    }

    /** One more bit of `src`, the source's bits, which is being copied into what was `m`. */
    method CopyBit(at: nat, source: BitArray, i: nat, ghost m: Bits, ghost src: Bits)
      requires Valid() && source.Valid() && source.data != data && at + source.bitSize <= bitSize
      requires i < |src| == source.bitSize && source.Memory()[..source.bitSize] == src
      requires |m| == |Memory()| && Memory() == Splice(m, at, src[..i])
      modifies data
      ensures Memory() == Splice(m, at, src[..i + 1])
    {
      SpliceNext(m, at, src, i);
      var b := source.Get(i);
      SetBit(i + at, b);
    }

    /** The other path: bit by bit. */
    method CopyBits(at: nat, source: BitArray)
      requires Valid() && source.Valid() && source.data != data && at + source.bitSize <= bitSize
      modifies data
      ensures Memory() == Splice(old(Memory()), at, source.Memory()[..source.bitSize])
    {
      ghost var m, src := Memory(), source.Memory()[..source.bitSize];
      assert Splice(m, at, src[..0]) == m;
      for i := 0 to source.bitSize
        invariant source.Memory()[..source.bitSize] == src
        invariant Memory() == Splice(m, at, src[..i])
      {
        CopyBit(at, source, i, m, src);
      }
      assert src[..source.bitSize] == src;
    }

    /** `copy_from`: on either path the target bits are the source's valid bits and every other bit,
        neighbours in shared bytes included, is unchanged. */
    method CopyFrom(at: nat, source: BitArray)
      requires Valid() && source.Valid() && source.Snug() && source.data != data && at + source.bitSize <= bitSize
      modifies data
      ensures Memory() == Splice(old(Memory()), at, source.Memory()[..source.bitSize])
      ensures old(ZeroTail()) ==> ZeroTail()
    {
      if at % 8 != 0 || source.bitSize % 8 != 0 {
        CopyBits(at, source);
      } else {
        CopyBlock(at, source);
      }
    }

    /** `from_byte_slice`: whole chunks first, then a zeroed chunk that the remaining bytes are copied
        over. No bytes at all give an empty array. */
    constructor FromByteSlice(src: seq<Byte>, n: nat)
      requires |src| >= CeilDiv8(n)
      ensures Valid() && Snug() && fresh(data) && bitSize == n
      ensures Value() == BitVec(Unpack(src[..CeilDiv8(n)]), n) && ZeroTail()
    {
      var len := CeilDiv8(n);
      bitSize, byteSize := n, len;
      var d := new Byte[AlignMaxLen(len)];
      var pass, i := len - len % CHUNK, 0;
      while i < pass
        invariant 0 <= i <= pass && i % CHUNK == 0
        invariant forall k :: 0 <= k < i ==> d[k] == src[k]
      {
        forall k | 0 <= k < CHUNK { d[i + k] := src[i + k]; }
        i := i + CHUNK;
      }
      if len % CHUNK != 0 {
        forall k | 0 <= k < CHUNK { d[pass + k] := 0; }
        forall k | 0 <= k < len - pass { d[pass + k] := src[pass + k]; }
      }
      data := d;
      new;
      PaddedMemory(data[..], src[..len], len);
    }

    /** `to_slice` */
    method ToSlice(st: nat, end: nat) returns (r: BitArray)
      requires Valid() && st <= end <= byteSize
      ensures fresh(r) && fresh(r.data) && r.Valid() && r.Snug() && r.ZeroTail()
      ensures r.Value() == BitVec(Memory()[8 * st..8 * end], 8 * (end - st))
    {
      var bytes := data[st..end];
      r := new BitArray.FromByteSlice(bytes, 8 * (end - st));
      assert bytes[..end - st] == data[..][st..end];
      UnpackSlice(data[..], st, end);
    }

    /** `mut_and`, `inplace_and`, `inplace_xor`: chunk by chunk over the aligned memory. */
    method MutAnd(a: BitArray, b: BitArray)
      requires Valid() && Snug() && a.Valid() && a.Snug() && b.Valid() && b.Snug()
      requires a.bitSize == b.bitSize == bitSize && a.data != data && b.data != data
      modifies data
      ensures |a.Memory()| == |b.Memory()| && Memory() == AndBits(a.Memory(), b.Memory())
      ensures a.ZeroTail() || b.ZeroTail() ==> ZeroTail()
    {
      StoreAnd(data, a.data, b.data);
      UnpackAnd(a.data[..], b.data[..]);
    }

    method InplaceAnd(other: BitArray)
      requires Valid() && Snug() && other.Valid() && other.Snug() && other.bitSize == bitSize && other.data != data
      modifies data
      ensures |other.Memory()| == |old(Memory())| && Memory() == AndBits(old(Memory()), other.Memory())
      ensures old(ZeroTail()) || other.ZeroTail() ==> ZeroTail()
    {
      UnpackAnd(data[..], other.data[..]);
      AndInto(data, other.data);
    }

    method InplaceXor(other: BitArray)
      requires Valid() && Snug() && other.Valid() && other.Snug() && other.bitSize == bitSize && other.data != data
      modifies data
      ensures |other.Memory()| == |old(Memory())| && Memory() == XorBits(old(Memory()), other.Memory())
      ensures old(ZeroTail()) && other.ZeroTail() ==> ZeroTail()
    {
      UnpackXor(data[..], other.data[..]);
      XorInto(data, other.data);
    }

    /** `parity`: the XOR of every stored bit; where the memory after the last byte is zero, of the
        array's own bytes. */
    method Odd() returns (odd: bool)
      requires Valid()
      ensures odd == Parity(Memory())
      ensures ZeroTail() ==> odd == Parity(Value().bits)
    {
      odd := FoldParity(data[..]);
      if ZeroTail() { ZeroAfter(Memory(), 8 * byteSize); }
    }

    /** `inner_prod`: the XOR of the pairwise ANDs of all stored bits. */
    method InnerProd(y: BitArray) returns (odd: bool)
      requires Valid() && Snug() && y.Valid() && y.Snug() && y.bitSize == bitSize
      ensures |y.Memory()| == |Memory()| && odd == Parity(AndBits(Memory(), y.Memory()))
      ensures |Value().bits| == |y.Value().bits|
      ensures ZeroTail() || y.ZeroTail() ==> odd == Parity(AndBits(Value().bits, y.Value().bits))
    {
      odd := FoldInner(data[..], y.data[..]);
      if ZeroTail() || y.ZeroTail() { AndPrefix(Memory(), y.Memory(), 8 * byteSize); }
    }

    /** `==` compares whole aligned memories, padding included. */
    method Equals(other: BitArray) returns (eq: bool)
      requires Valid() && Snug() && other.Valid() && other.Snug()
      ensures eq ==> bitSize == other.bitSize && data[..] == other.data[..]
      ensures !eq ==> bitSize != other.bitSize || data[..] != other.data[..]
    {
      if bitSize != other.bitSize { return false; }
      var i := 0;
      while i < data.Length
        invariant 0 <= i <= data.Length && i % CHUNK == 0
        invariant forall k :: 0 <= k < i ==> data[k] == other.data[k]
      {
        if data[i..i + CHUNK] != other.data[i..i + CHUNK] {
          assert data[..][i..i + CHUNK] != other.data[..][i..i + CHUNK];
          return false;
        }
        assert forall k :: i <= k < i + CHUNK ==> data[k] == data[i..i + CHUNK][k - i] == other.data[k];
        i := i + CHUNK;
      }
      eq := true;
    }

    /** `shrink_to_partial_last_byte`: bytes stay, so the array stays snug exactly when the new size
        needs as many bytes. */
    method ShrinkToPartialLastByte(partial: nat)
      requires Valid() && partial <= bitSize && (partial == bitSize || partial + 8 > bitSize)
      modifies this`bitSize
      ensures Valid() && bitSize == partial
      ensures Snug() <==> CeilDiv8(partial) == byteSize
    {
      if bitSize == partial { return; }
      bitSize := partial;
    }
  }

  lemma {:induction false} ParityOnes(n: nat)
    ensures Parity(BoolSeq(n, true)) == (n % 2 == 1)
  {
    if n > 0 {
      ParityOnes(n - 1);
      assert BoolSeq(n, true)[..n - 1] == BoolSeq(n - 1, true);
    }
  }

  lemma WholeBytesEven(bytes: nat)
    ensures !Parity(BoolSeq(8 * bytes, true))
  {
    ParityOnes(8 * bytes);
  }

  /** `parity` of `ones(n)` is even for every n: it agrees with the XOR of the n valid bits exactly when
      n is even, because `ones` also fills the memory after the last byte. */
  method ParityOfOnes(n: nat) returns (odd: bool)
    requires n > 0
    ensures !odd && (odd == Parity(BoolSeq(n, true)) <==> n % 2 == 0)
  {
    var x := new BitArray.Ones(n);
    odd := x.Odd();
    WholeBytesEven(x.data.Length);
    ParityOnes(n);
  }

  /** A fresh array of whole bytes stays snug when it is shrunk once; shrinking twice need not. */
  lemma OneShrinkIsSnug(bytes: nat, partial: nat)
    requires partial <= 8 * bytes && (partial == 8 * bytes || partial + 8 > 8 * bytes)
    ensures CeilDiv8(partial) == bytes
  {
  }

  /** From 16 bits to 9 to 2: two bytes for two bits. */
  method ShrinkTwice() returns (x: BitArray)
    ensures fresh(x) && x.Valid() && x.bitSize == 2 && x.byteSize == 2 && !x.Snug()
  {
    x := new BitArray.New(16);
    x.ShrinkToPartialLastByte(9);
    x.ShrinkToPartialLastByte(2);
  }
}
