/** The bytes the servers exchange. */
module Wire {
  import opened Bits
  import PackedArray

  type Byte = x: int | 0 <= x < 256

  /** `[u8; 32]` */
  type Block = s: seq<Byte> | |s| == 32 witness seq(32, _ => 0)

  /** The encoding of commitments in 32 bytes; only some byte strings decode. */
  datatype Codec<!C> = Codec(enc: C -> Block, dec: Block -> Option<C>)

  /** The codec carries every commitment of a group of `M` elements. */
  ghost predicate LosslessBelow(k: Codec<int>, M: nat) {
    forall c :: 0 <= c < M ==> k.dec(k.enc(c)) == Some(c)
  }

  datatype Cmd<C> =
    | BeaverExchange(sender: Byte, bitSize: nat, a: seq<Byte>, b: seq<Byte>)
    | Handshake(peer: Byte)
    | DabitExchange(sender: Byte, bitSize: nat, data: seq<Byte>)
    | AggCommit(sender: Byte, commit: C)

  const U32 := 0x1_0000_0000

  /* ---------- 32-bit numbers ---------- */

  /** `to_le_bytes` */
  function Le32(n: nat): (r: seq<Byte>)
    ensures |r| == 4
  {
    [n % 256, n / 256 % 256, n / 0x1_0000 % 256, n / 0x100_0000 % 256]
  }

  /** `from_le_bytes` */
  function FromLe32(s: seq<Byte>): (n: nat)
    requires |s| == 4
    ensures n < U32
  {
    var a: int, b: int, c: int, d: int := s[0], s[1], s[2], s[3];
    a + 256 * b + 0x1_0000 * c + 0x100_0000 * d
  }

  lemma Le32RoundTrip(n: nat)
    requires n < U32
    ensures FromLe32(Le32(n)) == n
  {
    var m := n / 256;
    var k := m / 256;
    assert n / 0x1_0000 == k && n / 0x100_0000 == k / 256;
    assert n == n % 256 + 256 * m && m == m % 256 + 256 * k && k == k % 256 + 256 * (k / 256);
  }

  /* ---------- commands ---------- */

  /** The slices have the length the receiver will cut, and the size fits its field. */
  predicate WellSized<C>(c: Cmd<C>) {
    match c
    case BeaverExchange(_, n, a, b) => n < U32 && |a| == |b| == CeilDiv8(n)
    case DabitExchange(_, n, data) => n < U32 && |data| == CeilDiv8(n)
    case _ => true
  }

  /** Well sized, and if it is a commitment, one that its encoding determines. */
  ghost predicate Readable<C>(k: Codec<C>, c: Cmd<C>) {
    WellSized(c) && (c.AggCommit? ==> k.dec(k.enc(c.commit)) == Some(c.commit))
  }

  function Serialize<C>(k: Codec<C>, c: Cmd<C>): seq<Byte> {
    match c
    case BeaverExchange(sender, n, a, b) => [0, sender] + Le32(n) + a + b
    case Handshake(peer) => [1, peer]
    case DabitExchange(sender, n, data) => [2, sender] + Le32(n) + data
    case AggCommit(sender, commit) => [3, sender] + k.enc(commit)
  }

  /** Where every byte of a command stands: the kind, the sender, the size lowest byte first, the arrays. */
  predicate Layout<C>(k: Codec<C>, c: Cmd<C>, buffer: seq<Byte>) {
    match c
    case BeaverExchange(sender, n, a, b) =>
      && |buffer| == 6 + |a| + |b| && buffer[0] == 0 && buffer[1] == sender && SizeAt(buffer, n)
      && buffer[6..6 + |a|] == a && buffer[6 + |a|..] == b
    case Handshake(peer) => |buffer| == 2 && buffer[0] == 1 && buffer[1] == peer
    case DabitExchange(sender, n, data) =>
      && |buffer| == 6 + |data| && buffer[0] == 2 && buffer[1] == sender && SizeAt(buffer, n)
      && buffer[6..] == data
    case AggCommit(sender, commit) =>
      |buffer| == 34 && buffer[0] == 3 && buffer[1] == sender && buffer[2..] == k.enc(commit)
  }

  predicate SizeAt(buffer: seq<Byte>, n: nat)
    requires |buffer| >= 6
  {
    forall i :: 0 <= i < 4 ==> buffer[2 + i] == n / Pow2(8 * i) % 256
  }

  lemma SizeIsThere(buffer: seq<Byte>, n: nat)
    requires |buffer| >= 6 && buffer[2..6] == Le32(n)
    ensures SizeAt(buffer, n)
  {
    Le32Bytes(n);
    forall i | 0 <= i < 4 ensures buffer[2 + i] == n / Pow2(8 * i) % 256 { assert buffer[2 + i] == buffer[2..6][i]; }
  }

  lemma SerializeLayout<C>(k: Codec<C>, c: Cmd<C>)
    ensures Layout(k, c, Serialize(k, c))
  {
    if c.BeaverExchange? || c.DabitExchange? {
      assert Serialize(k, c)[2..6] == Le32(c.bitSize);
      SizeIsThere(Serialize(k, c), c.bitSize);
    }
  }

  /** `serialize` fills a buffer field by field. */
  method SerializeCmd<C>(k: Codec<C>, c: Cmd<C>) returns (buffer: seq<Byte>)
    ensures buffer == Serialize(k, c) && Layout(k, c, buffer)
  {
    buffer := [];
    match c {
      case BeaverExchange(sender, n, a, b) =>
        buffer := buffer + [0];
        buffer := buffer + [sender];
        buffer := buffer + Le32(n);
        buffer := buffer + a;
        buffer := buffer + b;
      case Handshake(peer) =>
        buffer := buffer + [1];
        buffer := buffer + [peer];
      case DabitExchange(sender, n, data) =>
        buffer := buffer + [2];
        buffer := buffer + [sender];
        buffer := buffer + Le32(n);
        buffer := buffer + data;
      case AggCommit(sender, commit) =>
        buffer := buffer + [3];
        buffer := buffer + [sender];
        buffer := buffer + k.enc(commit);
    }
    assert buffer == Serialize(k, c);
    SerializeLayout(k, c);
  }

  /** `&data[st..end]`, which panics out of range. */
  function Cut(data: seq<Byte>, st: nat, end: nat): (r: Option<seq<Byte>>)
    ensures r.Some? <==> st <= end <= |data|
    ensures r.Some? ==> |r.value| == end - st
  {
    if st <= end <= |data| then Some(data[st..end]) else None
  }

  function DeserializeBeaver<C>(data: seq<Byte>): (r: Option<Cmd<C>>)
    requires |data| >= 2
    ensures r.Some? ==> WellSized(r.value)
  {
    if |data| < 6 then None
    else
      var n := FromLe32(data[2..6]);
      var size := CeilDiv8(n);
      match (Cut(data, 6, 6 + size), Cut(data, 6 + size, 6 + 2 * size))
      case (Some(a), Some(b)) => Some(BeaverExchange(data[1], n, a, b))
      case _ => None
  }

  function DeserializeDabit<C>(data: seq<Byte>): (r: Option<Cmd<C>>)
    requires |data| >= 2
    ensures r.Some? ==> WellSized(r.value)
  {
    if |data| < 6 then None
    else
      var n := FromLe32(data[2..6]);
      match Cut(data, 6, 6 + CeilDiv8(n))
      case Some(d) => Some(DabitExchange(data[1], n, d))
      case None => None
  }

  /** `deserialize`; `None` stands for every panic on the way. Bytes after the command are ignored. */
  function Deserialize<C>(k: Codec<C>, data: seq<Byte>): (r: Option<Cmd<C>>)
    ensures r.Some? ==> WellSized(r.value)
  {
    if |data| < 2 then None
    else if data[0] == 0 then DeserializeBeaver(data)
    else if data[0] == 1 then Some(Handshake(data[1]))
    else if data[0] == 2 then DeserializeDabit(data)
    else if data[0] == 3 then
      match Cut(data, 2, 34)
      case None => None
      case Some(bytes) =>
        match k.dec(bytes)
        case None => None
        case Some(commit) => Some(AggCommit(data[1], commit))
    else None
  }

  lemma BeaverRoundTrip<C>(sender: Byte, n: nat, a: seq<Byte>, b: seq<Byte>, rest: seq<Byte>,
                           data: seq<Byte>)
    requires n < U32 && |a| == |b| == CeilDiv8(n) && data == [0, sender] + Le32(n) + a + b + rest
    ensures DeserializeBeaver<C>(data) == Some(BeaverExchange(sender, n, a, b))
  {
    Le32RoundTrip(n);
    var size := CeilDiv8(n);
    assert data[2..6] == Le32(n);
    assert data[6..6 + size] == a;
    assert data[6 + size..6 + 2 * size] == b;
  }

  lemma DabitRoundTrip<C>(sender: Byte, n: nat, d: seq<Byte>, rest: seq<Byte>, data: seq<Byte>)
    requires n < U32 && |d| == CeilDiv8(n) && data == [2, sender] + Le32(n) + d + rest
    ensures DeserializeDabit<C>(data) == Some(DabitExchange(sender, n, d))
  {
    Le32RoundTrip(n);
    assert data[2..6] == Le32(n);
    assert data[6..6 + CeilDiv8(n)] == d;
  }

  /** A readable command is read back from its bytes, whatever follows them. */
  lemma ReadBack<C>(k: Codec<C>, c: Cmd<C>, rest: seq<Byte>)
    requires Readable(k, c)
    ensures Deserialize(k, Serialize(k, c) + rest) == Some(c)
  {
    var data := Serialize(k, c) + rest;
    match c
    case BeaverExchange(sender, n, a, b) => BeaverRoundTrip<C>(sender, n, a, b, rest, data);
    case Handshake(peer) =>
    case DabitExchange(sender, n, d) => DabitRoundTrip<C>(sender, n, d, rest, data);
    case AggCommit(sender, commit) => assert data[2..34] == k.enc(commit);
  }

  /** Whatever the codec, the round trip holds exactly for the readable commands. */
  lemma RoundTripIff<C>(k: Codec<C>, c: Cmd<C>)
    ensures Deserialize(k, Serialize(k, c)) == Some(c) <==> Readable(k, c)
  {
    if Readable(k, c) {
      ReadBack(k, c, []);
      assert Serialize(k, c) + [] == Serialize(k, c);
    } else if WellSized(c) {
      assert Serialize(k, c)[2..34] == k.enc(c.commit);
    }
  }

  /** Different commands have different encodings, and none is the beginning of another's. */
  lemma EncodingsDiffer<C>(k: Codec<C>, c: Cmd<C>, d: Cmd<C>)
    requires Readable(k, c) && Readable(k, d) && Serialize(k, c) <= Serialize(k, d)
    ensures c == d
  {
    ReadBack(k, c, Serialize(k, d)[|Serialize(k, c)|..]);
    assert Serialize(k, c) + Serialize(k, d)[|Serialize(k, c)|..] == Serialize(k, d);
    ReadBack(k, d, []);
    assert Serialize(k, d) + [] == Serialize(k, d);
  }

  /** The data begins with the bytes of `c`; for a commitment, with bytes that decode to it. */
  predicate Begins<C(==)>(k: Codec<C>, c: Cmd<C>, data: seq<Byte>) {
    match c
    case AggCommit(sender, commit) => |data| >= 34 && data[..2] == [3, sender] && k.dec(data[2..34]) == Some(commit)
    case _ => Serialize(k, c) <= data
  }

  /** What is read was written: the receiver makes command `c` of the data exactly when `c` is well sized and the
      data begins with it; on everything else it panics. */
  lemma ReadIff<C>(k: Codec<C>, c: Cmd<C>, data: seq<Byte>)
    ensures Deserialize(k, data) == Some(c) <==> WellSized(c) && Begins(k, c, data)
  {
    if c.AggCommit? {
    } else if WellSized(c) && Begins(k, c, data) {
      ReadBack(k, c, data[|Serialize(k, c)|..]);
      assert data == Serialize(k, c) + data[|Serialize(k, c)|..];
    } else if Deserialize(k, data) == Some(c) {
      WasWritten(k, c, data);
    }
  }

  lemma WasWritten<C>(k: Codec<C>, c: Cmd<C>, data: seq<Byte>)
    requires Deserialize(k, data) == Some(c) && !c.AggCommit?
    ensures Serialize(k, c) <= data
  {
    if c.Handshake? {
      assert data == [data[0], data[1]] + data[2..];
    } else {
      FromLe32RoundTrip(data[2..6]);
      assert data[..6] == [data[0], data[1]] + data[2..6];
    }
  }

  lemma FromLe32RoundTrip(s: seq<Byte>)
    requires |s| == 4
    ensures Le32(FromLe32(s)) == s
  {
    var n, a: int, b: int, c: int, d: int := FromLe32(s), s[0], s[1], s[2], s[3];
    var k: int := c + 256 * d;
    var m: int := b + 256 * k;
    assert n == a + 256 * m && n / 256 == m;
    assert m / 256 == k && n / 0x1_0000 == k;
    assert k / 256 == d && n / 0x100_0000 == d;
  }

  /* ---------- 32 bytes are enough ---------- */

  /** `n` bytes of `c`, lowest first. */
  function LeBytes(c: nat, n: nat): (r: seq<Byte>)
    ensures |r| == n
  {
    if n == 0 then [] else [c % 256] + LeBytes(c / 256, n - 1)
  }

  function FromLe(s: seq<Byte>): nat {
    if s == [] then 0 else s[0] + 256 * FromLe(s[1..])
  }

  /** Byte `i` counts in units of 256^i. */
  lemma {:induction false} LeBytesAt(c: nat, n: nat, i: nat)
    requires i < n
    ensures LeBytes(c, n)[i] == c / Pow2(8 * i) % 256
    decreases i
  {
    if i > 0 {
      LeBytesAt(c / 256, n - 1, i - 1);
      DropByte(c, 8 * (i - 1));
    }
  }

  lemma {:induction false} ShrTwice(c: nat, m: nat, k: nat)
    ensures Shr(c, m + k) == Shr(Shr(c, m), k)
    decreases m
  {
    if m > 0 { ShrTwice(c / 2, m - 1, k); }
  }

  lemma DropByte(c: nat, k: nat)
    ensures c / Pow2(8 + k) == c / 256 / Pow2(k)
  {
    ShrTwice(c, 8, k);
    ShrMask(c, 8 + k);
    ShrMask(c, 8);
    ShrMask(c / 256, k);
    assert Pow2(8) == 256;
  }

  /** The size field is the four lowest bytes of the size, lowest first. */
  lemma {:induction false} Le32Bytes(n: nat)
    ensures Le32(n) == LeBytes(n, 4)
    ensures forall i :: 0 <= i < 4 ==> Le32(n)[i] == n / Pow2(8 * i) % 256
  {
    LeUnrolled(n);
    forall i | 0 <= i < 4 ensures Le32(n)[i] == n / Pow2(8 * i) % 256 { LeBytesAt(n, 4, i); }
  }

  lemma {:induction false} LeUnrolled(n: nat)
    ensures Le32(n) == LeBytes(n, 4)
  {
    var a, b, c := n / 256, n / 0x1_0000, n / 0x100_0000;
    assert a / 256 == b && b / 256 == c;
    assert LeBytes(n, 4) == [n % 256] + LeBytes(a, 3) && LeBytes(a, 3) == [a % 256] + LeBytes(b, 2);
    assert LeBytes(b, 2) == [b % 256] + LeBytes(c, 1) && LeBytes(c, 1) == [c % 256] + LeBytes(c / 256, 0);
  }

  lemma {:induction false} LeRoundTrip(c: nat, n: nat)
    requires c < Pow2(8 * n)
    ensures FromLe(LeBytes(c, n)) == c
  {
    if n > 0 {
      Pow2Add(8, 8 * (n - 1));
      assert Pow2(8) == 256;
      LeRoundTrip(c / 256, n - 1);
      assert LeBytes(c, n)[1..] == LeBytes(c / 256, n - 1);
    }
  }

  function ToBlock(c: nat): Block { LeBytes(c, 32) }

  /** Residues below `M`, written in 32 bytes. */
  function ByteCodec(M: nat): Codec<int> {
    Codec(c => ToBlock(if 0 <= c < M then c else 0), s => if FromLe(s) < M then Some(FromLe(s)) else None)
  }

  /** Every group of at most 2^256 elements has such a codec. */
  lemma CodecExists(M: nat)
    requires M <= Pow2(8 * 32)
    ensures LosslessBelow(ByteCodec(M), M)
  {
    var k := ByteCodec(M);
    forall c | 0 <= c < M ensures k.dec(k.enc(c)) == Some(c) {
      LeRoundTrip(c, 32);
      assert k.enc(c) == ToBlock(c);
    }
  }

  /* ---------- from bit arrays to bytes and back ---------- */

  /** A byte from its eight bits, lowest first. */
  function ByteVal(b: Bits): (r: nat)
    ensures r < Pow2(|b|)
  {
    if |b| == 0 then 0 else (if b[0] then 1 else 0) + 2 * ByteVal(b[1..])
  }

  lemma {:induction false} ByteBit(b: Bits, j: nat)
    requires j < |b|
    ensures BitAt(ByteVal(b), j) == b[j]
    decreases j
  {
    if j > 0 { ByteBit(b[1..], j - 1); }
  }

  function AsByte(b: Bits): Byte
    requires |b| == 8
  {
    assert Pow2(8) == 256;
    ByteVal(b)
  }

  /** The memory of a bit array: `get_inner_memref`. */
  function Bytes(bits: Bits): (r: seq<Byte>)
    requires |bits| % 8 == 0
    ensures |r| == |bits| / 8
    ensures forall i :: 0 <= i < |r| ==> r[i] == AsByte(bits[8 * i..8 * i + 8])
  {
    seq(|bits| / 8, i requires 0 <= i < |bits| / 8 => AsByte(bits[8 * i..8 * i + 8]))
  }

  function FromBytes(s: seq<Byte>): (r: Bits)
    ensures |r| == 8 * |s| && forall j :: 0 <= j < |r| ==> r[j] == BitAt(s[j / 8], j % 8)
  {
    seq(8 * |s|, j requires 0 <= j < 8 * |s| => BitAt(s[j / 8], j % 8))
  }

  lemma BytesRoundTrip(bits: Bits)
    requires |bits| % 8 == 0
    ensures FromBytes(Bytes(bits)) == bits
  {
    forall j | 0 <= j < |bits| ensures FromBytes(Bytes(bits))[j] == bits[j] {
      var i := j / 8;
      ByteBit(bits[8 * i..8 * i + 8], j % 8);
    }
  }

  /** The bytes of a packed array, as numbers. */
  function AsBytes(s: seq<PackedArray.Byte>): (r: seq<Byte>)
    ensures |r| == |s| && forall i :: 0 <= i < |s| ==> r[i] == s[i] as int
  {
    seq(|s|, i requires 0 <= i < |s| => s[i] as int)
  }

  /** The bits of a packed array are those its bytes are read as on the wire. */
  lemma MemoryBits(s: seq<PackedArray.Byte>)
    ensures PackedArray.Unpack(s) == FromBytes(AsBytes(s))
  {
    var a, b := PackedArray.Unpack(s), FromBytes(AsBytes(s));
    forall j | 0 <= j < 8 * |s| ensures a[j] == b[j] {
      PackedArray.UnpackAt(s, j);
      PackedArray.BitWeight(s[j / 8], j % 8);
    }
  }

  /** A byte is the sum of its bits' weights. */
  lemma {:induction false} ByteOfBits(x: nat, b: Bits)
    requires x < Pow2(|b|) && forall j :: 0 <= j < |b| ==> b[j] == BitAt(x, j)
    ensures ByteVal(b) == x
    decreases |b|
  {
    if |b| > 0 {
      forall j | 0 <= j < |b| - 1 ensures b[1..][j] == BitAt(x / 2, j) { assert b[j + 1] == BitAt(x, j + 1); }
      ByteOfBits(x / 2, b[1..]);
      assert b[0] == BitAt(x, 0);
    }
  }

  /** What is sent of a packed array is its bytes, one by one. */
  lemma BytesSent(s: seq<PackedArray.Byte>)
    ensures Bytes(PackedArray.Unpack(s)) == AsBytes(s)
  {
    MemoryBits(s);
    var bits := FromBytes(AsBytes(s));
    forall i | 0 <= i < |s| ensures AsByte(bits[8 * i..8 * i + 8]) == s[i] as int {
      ByteSent(AsBytes(s), i);
    }
  }

  lemma ByteSent(s: seq<Byte>, i: nat)
    requires i < |s|
    ensures AsByte(FromBytes(s)[8 * i..8 * i + 8]) == s[i]
  {
    var b := FromBytes(s)[8 * i..8 * i + 8];
    assert Pow2(8) == 256;
    forall j | 0 <= j < 8 ensures b[j] == BitAt(s[i], j) { assert b[j] == FromBytes(s)[8 * i + j]; }
    ByteOfBits(s[i], b);
  }

  /** `from_byte_slice`, which panics when the slice is too short. */
  function FromByteSlice(src: seq<Byte>, bitSize: nat): (r: Option<BitVec>)
    ensures r.Some? ==> r.value.Valid() && r.value.size == bitSize
  {
    if |src| < CeilDiv8(bitSize) then None
    else Some(BitVec(FromBytes(src[..CeilDiv8(bitSize)]), bitSize))
  }

  function Memory(v: BitVec): (r: seq<Byte>)
    requires v.Valid()
    ensures |r| == CeilDiv8(v.size) && |v.bits| % 8 == 0 && r == Bytes(v.bits)
  {
    Bytes(v.bits)
  }

  /** `size as u32` */
  function AsU32(n: nat): (r: nat)
    ensures r < U32 && (n - r) % U32 == 0 && (r == n <==> n < U32)
  {
    n % U32
  }

  /** `send_beaver_shares` and `send_dabit_shares`: the size is cast to 32 bits. */
  function BeaverCmd<C>(owner: Byte, u: BitVec, v: BitVec): Cmd<C>
    requires u.Valid() && v.Valid()
  {
    BeaverExchange(owner, AsU32(u.size), Memory(u), Memory(v))
  }

  function DabitCmd<C>(owner: Byte, e: BitVec): Cmd<C>
    requires e.Valid()
  {
    DabitExchange(owner, AsU32(e.size), Memory(e))
  }

  /** `handle_cmd` on a beaver or daBit command: the arrays it stores. */
  function Stored<C>(c: Cmd<C>): Option<seq<BitVec>> {
    match c
    case BeaverExchange(_, n, a, b) =>
      (match (FromByteSlice(a, n), FromByteSlice(b, n))
       case (Some(u), Some(v)) => Some([u, v])
       case _ => None)
    case DabitExchange(_, n, data) =>
      (match FromByteSlice(data, n)
       case Some(e) => Some([e])
       case None => None)
    case _ => None
  }

  /** The commands the handler builds are well sized exactly when the size fits 32 bits. */
  lemma HandlerSizes<C>(owner: Byte, u: BitVec, v: BitVec)
    requires u.Valid() && v.Valid() && u.size == v.size
    ensures WellSized(BeaverCmd<C>(owner, u, v)) <==> u.size < U32
    ensures WellSized(DabitCmd<C>(owner, u)) <==> u.size < U32
  {
    if u.size >= U32 { TruncatedSize(u.size); }
  }

  /** Truncation to 32 bits loses bytes. */
  lemma TruncatedSize(n: nat)
    requires n >= U32
    ensures CeilDiv8(AsU32(n)) < CeilDiv8(n)
  {
  }

  lemma SliceBack(v: BitVec)
    requires v.Valid()
    ensures FromByteSlice(Bytes(v.bits), v.size) == Some(v)
  {
    BytesRoundTrip(v.bits);
    assert Bytes(v.bits)[..CeilDiv8(v.size)] == Bytes(v.bits);
  }

  /** What one server broadcasts is what the others store, bit for bit, padding included. */
  lemma SharesArrive<C>(k: Codec<C>, owner: Byte, u: BitVec, v: BitVec)
    requires u.Valid() && v.Valid() && u.size == v.size < U32
    ensures Deserialize(k, Serialize(k, BeaverCmd<C>(owner, u, v))) == Some(BeaverCmd<C>(owner, u, v))
    ensures Stored(BeaverCmd<C>(owner, u, v)) == Some([u, v])
    ensures Deserialize(k, Serialize(k, DabitCmd<C>(owner, u))) == Some(DabitCmd<C>(owner, u))
    ensures Stored(DabitCmd<C>(owner, u)) == Some([u])
  {
    HandlerSizes<C>(owner, u, v);
    RoundTripIff(k, BeaverCmd<C>(owner, u, v));
    RoundTripIff(k, DabitCmd<C>(owner, u));
    SliceBack(u);
    SliceBack(v);
  }
}
