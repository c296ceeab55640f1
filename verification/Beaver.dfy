/** The provider of Beaver triples: dealing, and handing the triples out in lockstep. */
module Beaver {
  import opened Bits
  import opened Folds
  import opened AndLayer

  /* ---------- dealing ---------- */

  /** The dealer's share of c, for its own shares of a and b and everyone else's triples. */
  function DealerC(a: Bits, b: Bits, others: seq<Triple>): (c: Bits)
    requires |a| == |b| && TriplesFit(others, |a|)
    ensures |c| == |a|
  {
    XorBits(AndBits(XorIn(a, As(others)), XorIn(b, Bs(others))), XorIn(BoolSeq(|a|, false), Cs(others)))
  }

  function DealerShare(a: Bits, b: Bits, others: seq<Triple>): (t: Triple)
    requires |a| == |b| && TriplesFit(others, |a|)
    ensures TripleFits(t, |a|)
  {
    Triple(a, b, DealerC(a, b, others))
  }

  lemma RecHead(own: Bits, rows: seq<Bits>, j: nat)
    ensures Rec([own] + rows, j) == (At(own, j) != Rec(rows, j))
  {
    ParityConcat([At(own, j)], Col(rows, j));
    ParityOne([At(own, j)]);
    assert Col([own] + rows, j) == [At(own, j)] + Col(rows, j);
  }

  lemma HeadRows(t: Triple, others: seq<Triple>)
    ensures As([t] + others) == [t.a] + As(others)
    ensures Bs([t] + others) == [t.b] + Bs(others)
    ensures Cs([t] + others) == [t.c] + Cs(others)
  {
  }

  lemma DealerBit(a: Bits, b: Bits, others: seq<Triple>, j: nat)
    requires |a| == |b| && TriplesFit(others, |a|) && j < |a|
    ensures DealerC(a, b, others)[j]
         == ((Rec([a] + As(others), j) && Rec([b] + Bs(others), j)) != Rec(Cs(others), j))
  {
    XorInBit(a, As(others), j);
    XorInBit(b, Bs(others), j);
    XorInBit(BoolSeq(|a|, false), Cs(others), j);
    RecHead(a, As(others), j);
    RecHead(b, Bs(others), j);
  }

  /** On every bit of every stored byte the parties' shares satisfy c = a AND b, whatever was drawn. */
  lemma DealerDeals(a: Bits, b: Bits, others: seq<Triple>)
    requires |a| == |b| && TriplesFit(others, |a|)
    ensures TriplesFit([DealerShare(a, b, others)] + others, |a|)
    ensures Dealt([DealerShare(a, b, others)] + others, |a|)
  {
    var t := DealerShare(a, b, others);
    var all := [t] + others;
    HeadRows(t, others);
    forall j | 0 <= j < |a| ensures Rec(Cs(all), j) == (Rec(As(all), j) && Rec(Bs(all), j)) {
      DealerBit(a, b, others, j);
      RecHead(t.c, Cs(others), j);
    }
  }

  /** The dealer keeps what it drew for itself. */
  lemma DealerKeeps(a: Bits, b: Bits, others: seq<Triple>)
    requires |a| == |b| && TriplesFit(others, |a|)
    ensures DealerShare(a, b, others).a == a && DealerShare(a, b, others).b == b
  {
  }

  /** Good triples determine the dealer's: whatever it holds beside the others' is what it deals itself when
      it draws that a and b. */
  lemma DealerRecovers(t: Triple, others: seq<Triple>, w: nat)
    requires TriplesFit([t] + others, w) && Dealt([t] + others, w)
    ensures TripleFits(t, w) && TriplesFit(others, w) && DealerShare(t.a, t.b, others) == t
  {
    OthersFit(t, others, w);
    HeadRows(t, others);
    var c := DealerC(t.a, t.b, others);
    forall j | 0 <= j < w ensures c[j] == t.c[j] {
      DealerBit(t.a, t.b, others, j);
      RecHead(t.c, Cs(others), j);
    }
  }

  lemma OthersFit(t: Triple, others: seq<Triple>, w: nat)
    requires TriplesFit([t] + others, w)
    ensures TripleFits(t, w) && TriplesFit(others, w)
  {
    assert ([t] + others)[0] == t;
    assert forall i :: 0 <= i < |others| ==> ([t] + others)[i + 1] == others[i];
  }

  /* ---------- slices ---------- */

  /** `to_slice` on each of the three arrays, in bytes. */
  function Slice(t: Triple, st: nat, end: nat): (r: Triple)
    requires st <= end && 8 * end <= |t.a| && |t.a| == |t.b| == |t.c|
    ensures TripleFits(r, 8 * (end - st))
  {
    Triple(t.a[8 * st..8 * end], t.b[8 * st..8 * end], t.c[8 * st..8 * end])
  }

  /** The next `size` bytes after the first `used`. */
  function Next(t: Triple, used: nat, size: nat): (r: Triple)
    requires 8 * (used + size) <= |t.a| && |t.a| == |t.b| == |t.c|
    ensures TripleFits(r, 8 * size)
  {
    Slice(t, used, used + size)
  }

  function Slices(ts: seq<Triple>, w: nat, st: nat, end: nat): (r: seq<Triple>)
    requires st <= end && 8 * end <= w && TriplesFit(ts, w)
    ensures |r| == |ts| && TriplesFit(r, 8 * (end - st))
    ensures forall i :: 0 <= i < |ts| ==> r[i] == Slice(ts[i], st, end)
  {
    seq(|ts|, i requires 0 <= i < |ts| => Slice(ts[i], st, end))
  }

  lemma CutRec(rows: seq<Bits>, cut: seq<Bits>, w: nat, from: nat, to: nat, j: nat)
    requires |cut| == |rows| && from <= to <= w && Rect(rows, w) && from + j < to
    requires forall i :: 0 <= i < |rows| ==> cut[i] == rows[i][from..to]
    ensures Rec(cut, j) == Rec(rows, from + j)
  {
    SameColumn(cut, j, rows, from + j);
  }

  lemma RowsCut(ts: seq<Triple>, w: nat, st: nat, end: nat)
    requires st <= end && 8 * end <= w && TriplesFit(ts, w)
    ensures forall i :: 0 <= i < |ts| ==> As(Slices(ts, w, st, end))[i] == As(ts)[i][8 * st..8 * end]
    ensures forall i :: 0 <= i < |ts| ==> Bs(Slices(ts, w, st, end))[i] == Bs(ts)[i][8 * st..8 * end]
    ensures forall i :: 0 <= i < |ts| ==> Cs(Slices(ts, w, st, end))[i] == Cs(ts)[i][8 * st..8 * end]
  {
  }

  lemma SliceA(ts: seq<Triple>, w: nat, st: nat, end: nat, j: nat)
    requires st <= end && 8 * end <= w && TriplesFit(ts, w) && 8 * st + j < 8 * end
    ensures Rec(As(Slices(ts, w, st, end)), j) == Rec(As(ts), 8 * st + j)
  {
    RowsCut(ts, w, st, end);
    CutRec(As(ts), As(Slices(ts, w, st, end)), w, 8 * st, 8 * end, j);
  }

  lemma SliceB(ts: seq<Triple>, w: nat, st: nat, end: nat, j: nat)
    requires st <= end && 8 * end <= w && TriplesFit(ts, w) && 8 * st + j < 8 * end
    ensures Rec(Bs(Slices(ts, w, st, end)), j) == Rec(Bs(ts), 8 * st + j)
  {
    RowsCut(ts, w, st, end);
    CutRec(Bs(ts), Bs(Slices(ts, w, st, end)), w, 8 * st, 8 * end, j);
  }

  lemma SliceC(ts: seq<Triple>, w: nat, st: nat, end: nat, j: nat)
    requires st <= end && 8 * end <= w && TriplesFit(ts, w) && 8 * st + j < 8 * end
    ensures Rec(Cs(Slices(ts, w, st, end)), j) == Rec(Cs(ts), 8 * st + j)
  {
    RowsCut(ts, w, st, end);
    CutRec(Cs(ts), Cs(Slices(ts, w, st, end)), w, 8 * st, 8 * end, j);
  }

  /** Parties that take the same bytes hold matching shares of good triples. */
  lemma SliceDealt(ts: seq<Triple>, w: nat, st: nat, end: nat)
    requires st <= end && 8 * end <= w && TriplesFit(ts, w) && Dealt(ts, w)
    ensures Dealt(Slices(ts, w, st, end), 8 * (end - st))
  {
    var r := Slices(ts, w, st, end);
    forall j | 0 <= j < 8 * (end - st) ensures Rec(Cs(r), j) == (Rec(As(r), j) && Rec(Bs(r), j)) {
      SliceA(ts, w, st, end, j);
      SliceB(ts, w, st, end, j);
      SliceC(ts, w, st, end, j);
    }
  }

  /* ---------- sequences of takes ---------- */

  function Total(reqs: seq<nat>): nat { if |reqs| == 0 then 0 else reqs[0] + Total(reqs[1..]) }

  /** What a sequence of takes hands out. */
  function TakeAll(t: Triple, used: nat, reqs: seq<nat>): (r: seq<Triple>)
    requires |t.a| == |t.b| == |t.c| && 8 * (used + Total(reqs)) <= |t.a|
    ensures |r| == |reqs|
    decreases |reqs|
  {
    if |reqs| == 0 then []
    else [Slice(t, used, used + reqs[0])] + TakeAll(t, used + reqs[0], reqs[1..])
  }

  function ConcatA(ts: seq<Triple>): Bits { if |ts| == 0 then [] else ts[0].a + ConcatA(ts[1..]) }
  function ConcatB(ts: seq<Triple>): Bits { if |ts| == 0 then [] else ts[0].b + ConcatB(ts[1..]) }
  function ConcatC(ts: seq<Triple>): Bits { if |ts| == 0 then [] else ts[0].c + ConcatC(ts[1..]) }

  lemma SlicesJoin(s: Bits, i: nat, j: nat, k: nat)
    requires i <= j <= k <= |s|
    ensures s[i..j] + s[j..k] == s[i..k]
  {
  }

  /** No byte is handed out twice and none is skipped: what any sequence of takes hands out is, end
      to end, one contiguous stretch of the storage. */
  lemma {:induction false} TakesAreContiguous(t: Triple, used: nat, reqs: seq<nat>)
    requires |t.a| == |t.b| == |t.c| && 8 * (used + Total(reqs)) <= |t.a|
    ensures ConcatA(TakeAll(t, used, reqs)) == t.a[8 * used..8 * (used + Total(reqs))]
    ensures ConcatB(TakeAll(t, used, reqs)) == t.b[8 * used..8 * (used + Total(reqs))]
    ensures ConcatC(TakeAll(t, used, reqs)) == t.c[8 * used..8 * (used + Total(reqs))]
    decreases |reqs|
  {
    if |reqs| > 0 {
      var i, j, k := 8 * used, 8 * (used + reqs[0]), 8 * (used + Total(reqs));
      TakesAreContiguous(t, used + reqs[0], reqs[1..]);
      assert TakeAll(t, used, reqs)[1..] == TakeAll(t, used + reqs[0], reqs[1..]);
      SlicesJoin(t.a, i, j, k);
      SlicesJoin(t.b, i, j, k);
      SlicesJoin(t.c, i, j, k);
    }
  }

  /** What every party holds after its `k`-th take. */
  function TakenAt(ts: seq<Triple>, w: nat, used: nat, reqs: seq<nat>, k: nat): (r: seq<Triple>)
    requires TriplesFit(ts, w) && 8 * (used + Total(reqs)) <= w && k < |reqs|
    ensures |r| == |ts|
    ensures forall i :: 0 <= i < |ts| ==> r[i] == TakeAll(ts[i], used, reqs)[k]
  {
    seq(|ts|, i requires 0 <= i < |ts| => TakeAll(ts[i], used, reqs)[k])
  }

  lemma {:induction false} TakenSplit(ts: seq<Triple>, w: nat, used: nat, reqs: seq<nat>, k: nat)
    requires TriplesFit(ts, w) && 8 * (used + Total(reqs)) <= w && k < |reqs|
    ensures k == 0 ==> TakenAt(ts, w, used, reqs, k) == Slices(ts, w, used, used + reqs[0])
    ensures k > 0 ==> reqs[1..][k - 1] == reqs[k]
    ensures k > 0 ==> TakenAt(ts, w, used, reqs, k) == TakenAt(ts, w, used + reqs[0], reqs[1..], k - 1)
  {
  }

  /** Matching shares of good triples, `w` bits wide. */
  predicate GoodTriples(ts: seq<Triple>, w: nat) { TriplesFit(ts, w) && Dealt(ts, w) }

  lemma {:induction false} FirstTaken(ts: seq<Triple>, w: nat, used: nat, reqs: seq<nat>)
    requires TriplesFit(ts, w) && Dealt(ts, w) && 8 * (used + Total(reqs)) <= w && 0 < |reqs|
    ensures GoodTriples(TakenAt(ts, w, used, reqs, 0), 8 * reqs[0])
  {
    TakenSplit(ts, w, used, reqs, 0);
    SliceDealt(ts, w, used, used + reqs[0]);
  }

  /** After any sequence of takes of equal sizes by all parties, the slices are good triples. */
  lemma {:induction false} TakesStayDealt(ts: seq<Triple>, w: nat, used: nat, reqs: seq<nat>, k: nat)
    requires TriplesFit(ts, w) && Dealt(ts, w) && 8 * (used + Total(reqs)) <= w && k < |reqs|
    ensures GoodTriples(TakenAt(ts, w, used, reqs, k), 8 * reqs[k])
    decreases |reqs|
  {
    if k == 0 {
      FirstTaken(ts, w, used, reqs);
    } else {
      TakesStayDealt(ts, w, used + reqs[0], reqs[1..], k - 1);
      TakenSplit(ts, w, used, reqs, k);
    }
  }

  /* ---------- the provider ---------- */

  class BeaverProvider {
    var storage: Option<Triple>
    var used: nat
    var lastReport: nat

    predicate Valid()
      reads this
    {
      lastReport <= used && (storage.Some? ==> TripleFits(storage.value, |storage.value.a|))
    }

    /** `inner_byte_size` of the storage. */
    function Bytes(): nat
      reads this
      requires storage.Some?
    {
      |storage.value.a| / 8
    }

    constructor ()
      ensures Valid() && storage == None && used == 0 && lastReport == 0
    {
      storage, used, lastReport := None, 0, 0;
    }

    /** `drawn` is what the seeded generator yields, in whole bytes. */
    method GenerateWithSeed(drawn: Triple)
      requires Valid() && TripleFits(drawn, |drawn.a|) && |drawn.a| > 0
      modifies this`storage
      ensures Valid() && storage == Some(drawn)
    {
      storage := Some(drawn);
    }

    /** `a` and `b` are drawn for the dealer, `others` are the triples the other parties draw.
        Usage counters are left as they were. */
    method GenerateAsDealer(a: Bits, b: Bits, others: seq<Triple>)
      requires Valid() && |a| == |b| > 0 && TriplesFit(others, |a|) && |others| > 0
      modifies this`storage
      ensures Valid() && storage == Some(DealerShare(a, b, others))
      ensures storage.value.a == a && storage.value.b == b && Dealt([storage.value] + others, |a|)
    {
      var recA, recB, recC := a, b, BoolSeq(|a|, false);
      for i := 0 to |others|
        invariant recA == XorIn(a, As(others[..i]))
        invariant recB == XorIn(b, Bs(others[..i]))
        invariant recC == XorIn(BoolSeq(|a|, false), Cs(others[..i]))
      {
        XorInOne(a, As(others), i);
        XorInOne(b, Bs(others), i);
        XorInOne(BoolSeq(|a|, false), Cs(others), i);
        assert As(others[..i]) == As(others)[..i] && As(others[..i + 1]) == As(others)[..i + 1];
        assert Bs(others[..i]) == Bs(others)[..i] && Bs(others[..i + 1]) == Bs(others)[..i + 1];
        assert Cs(others[..i]) == Cs(others)[..i] && Cs(others[..i + 1]) == Cs(others)[..i + 1];
        recA, recB, recC := XorBits(recA, others[i].a), XorBits(recB, others[i].b), XorBits(recC, others[i].c);
      }
      assert others[..|others|] == others;
      storage := Some(Triple(a, b, XorBits(AndBits(recA, recB), recC)));
      DealerDeals(a, b, others);
    }

    /** `take`: the next `reqSize` bytes of each of the three arrays. */
    method Take(reqSize: nat) returns (t: Triple)
      requires Valid() && storage.Some? && used + reqSize <= Bytes()
      modifies this`used
      ensures Valid() && used == old(used) + reqSize
      ensures t == Next(storage.value, old(used), reqSize) && TripleFits(t, 8 * reqSize)
    {
      t := Next(storage.value, used, reqSize);
      used := used + reqSize;
    }

    /** `report_beaver_usage_then_reset`: bits handed out since the last report. */
    method ReportThenReset() returns (bits: nat)
      requires Valid()
      modifies this`lastReport
      ensures Valid() && lastReport == used && bits == 8 * (used - old(lastReport))
    {
      bits := (used - lastReport) * 8;
      lastReport := used;
    }
  }

  lemma {:induction false} XorInOne(own: Bits, rows: seq<Bits>, i: nat)
    requires AllLong(rows, |own|) && i < |rows|
    ensures AllLong(rows[..i], |own|) && AllLong(rows[..i + 1], |own|)
    ensures |rows[i]| == |own| && XorIn(own, rows[..i + 1]) == XorBits(XorIn(own, rows[..i]), rows[i])
  {
    assert rows[i] in rows;
    assert rows[..i + 1][..i] == rows[..i];
  }

  /* ---------- usage reports ---------- */

  datatype Call = TakeCall(bytes: nat) | ReportCall

  /** The counters of a provider, and everything it has reported. */
  datatype Usage = Usage(used: nat, lastReport: nat, reported: nat)

  /** The effect of one call on the counters, as the two methods specify it. */
  function AfterCall(u: Usage, c: Call): Usage
    requires u.lastReport <= u.used
  {
    match c
    case TakeCall(n) => u.(used := u.used + n)
    case ReportCall => Usage(u.used, u.used, u.reported + 8 * (u.used - u.lastReport))
  }

  function AfterCalls(u: Usage, cs: seq<Call>): (r: Usage)
    requires u.lastReport <= u.used
    ensures r.lastReport <= r.used
    decreases |cs|
  {
    if |cs| == 0 then u else AfterCalls(AfterCall(u, cs[0]), cs[1..])
  }

  function BytesTaken(cs: seq<Call>): nat
  {
    if |cs| == 0 then 0 else BytesTaken(cs[..|cs| - 1]) + if cs[|cs| - 1].TakeCall? then cs[|cs| - 1].bytes else 0
  }

  /** The calls up to and including the last report. */
  function UpToReport(cs: seq<Call>): seq<Call> {
    if |cs| == 0 then [] else if cs[|cs| - 1].ReportCall? then cs else UpToReport(cs[..|cs| - 1])
  }

  lemma {:induction false} CallsSplit(u: Usage, cs: seq<Call>)
    requires u.lastReport <= u.used && |cs| > 0
    ensures AfterCalls(u, cs) == AfterCall(AfterCalls(u, cs[..|cs| - 1]), cs[|cs| - 1])
    decreases |cs|
  {
    if |cs| == 1 {
      assert cs[1..] == [] && cs[..0] == [];
    } else {
      CallsSplit(AfterCall(u, cs[0]), cs[1..]);
      assert cs[1..][..|cs| - 2] == cs[..|cs| - 1][1..];
    }
  }

  /** Reports sum to 8 times the bytes handed out up to the last report. */
  lemma {:induction false} ReportsAddUp(cs: seq<Call>)
    ensures AfterCalls(Usage(0, 0, 0), cs).reported == 8 * BytesTaken(UpToReport(cs))
    ensures AfterCalls(Usage(0, 0, 0), cs).reported == 8 * AfterCalls(Usage(0, 0, 0), cs).lastReport
    ensures AfterCalls(Usage(0, 0, 0), cs).used == BytesTaken(cs)
  {
    if |cs| > 0 {
      ReportsAddUp(cs[..|cs| - 1]);
      CallsSplit(Usage(0, 0, 0), cs);
    }
  }

  /** The sizes asked for by the takes among the calls. */
  function Takes(cs: seq<Call>): (r: seq<nat>)
    ensures Total(r) == BytesTaken(cs)
  {
    if |cs| == 0 then []
    else
      var r := Takes(cs[..|cs| - 1]);
      match cs[|cs| - 1]
      case TakeCall(n) => TotalNext(r, n); r + [n]
      case ReportCall => r
  }

  lemma {:induction false} TotalNext(reqs: seq<nat>, n: nat)
    ensures Total(reqs + [n]) == Total(reqs) + n
  {
    if |reqs| > 0 {
      TotalNext(reqs[1..], n);
      assert (reqs + [n])[1..] == reqs[1..] + [n];
    }
  }

  lemma {:induction false} TakeAllNext(t: Triple, used: nat, reqs: seq<nat>, n: nat, end: nat)
    requires |t.a| == |t.b| == |t.c| && end == used + Total(reqs) && 8 * (end + n) <= |t.a|
    ensures Total(reqs + [n]) == Total(reqs) + n
    ensures TakeAll(t, used, reqs + [n]) == TakeAll(t, used, reqs) + [Next(t, end, n)]
    decreases |reqs|
  {
    TotalNext(reqs, n);
    if |reqs| > 0 {
      var h, rest := reqs[0], reqs[1..];
      TakeAllNext(t, used + h, rest, n, end);
      assert (reqs + [n])[0] == h && (reqs + [n])[1..] == rest + [n];
    } else {
      assert [n][1..] == [];
    }
  }

  lemma {:induction false} TakenSoFar(cs: seq<Call>, i: nat)
    requires i <= |cs|
    ensures BytesTaken(cs[..i]) <= BytesTaken(cs)
    decreases |cs| - i
  {
    if i < |cs| {
      TakenSoFar(cs, i + 1);
      assert cs[..i + 1][..i] == cs[..i];
    } else {
      assert cs[..i] == cs;
    }
  }

  /** What the first `i` calls have done, from counters `u` on a storage of `t`. */
  ghost predicate Performed(p: BeaverProvider, t: Triple, u: Usage, done: seq<Call>, out: seq<Triple>, reported: nat)
    reads p
  {
    && p.Valid() && p.storage == Some(t) && u.lastReport <= u.used
    && p.used == u.used + BytesTaken(done) && p.used <= p.Bytes()
    && Usage(p.used, p.lastReport, reported) == AfterCalls(u, done)
    && out == TakeAll(t, u.used, Takes(done))
  }

  /** One call on the provider, by the method it stands for. */
  method PerformOne(p: BeaverProvider, ghost t: Triple, ghost u: Usage, ghost done: seq<Call>, c: Call,
                    out: seq<Triple>, reported: nat)
      returns (out': seq<Triple>, reported': nat)
    requires Performed(p, t, u, done, out, reported) && p.storage.Some?
    requires c.TakeCall? ==> p.used + c.bytes <= p.Bytes()
    modifies p`used, p`lastReport
    ensures Performed(p, t, u, done + [c], out', reported')
  {
    out', reported' := out, reported;
    assert (done + [c])[..|done|] == done;
    CallsSplit(u, done + [c]);
    match c
    case TakeCall(n) =>
      TakeAllNext(t, u.used, Takes(done), n, p.used);
      var s := p.Take(n);
      out' := out + [s];
    case ReportCall =>
      var bits := p.ReportThenReset();
      reported' := reported + bits;
  }

  /** Any sequence of calls on a provider: the takes hand out the next stretches of the storage, and what
      its reports add up to, from fresh counters, is 8 times the bytes taken up to the last of them. */
  method Perform(p: BeaverProvider, cs: seq<Call>) returns (out: seq<Triple>, reported: nat)
    requires p.Valid() && p.storage.Some? && p.used + BytesTaken(cs) <= p.Bytes()
    modifies p`used, p`lastReport
    ensures p.Valid() && p.used == old(p.used) + BytesTaken(cs) && p.used <= p.Bytes()
    ensures out == TakeAll(p.storage.value, old(p.used), Takes(cs))
    ensures Usage(p.used, p.lastReport, reported) == AfterCalls(Usage(old(p.used), old(p.lastReport), 0), cs)
    ensures old(p.used) == old(p.lastReport) == 0 ==> reported == 8 * BytesTaken(UpToReport(cs))
  {
    ghost var t, u := p.storage.value, Usage(p.used, p.lastReport, 0);
    out, reported := [], 0;
    assert cs[..0] == [];
    for i := 0 to |cs|
      invariant Performed(p, t, u, cs[..i], out, reported)
    {
      TakenSoFar(cs, i + 1);
      assert cs[..i + 1] == cs[..i] + [cs[i]];
      assert cs[..i + 1][..i] == cs[..i];
      out, reported := PerformOne(p, t, u, cs[..i], cs[i], out, reported);
    }
    assert cs[..|cs|] == cs;
    ReportsAddUp(cs);
  }
}
