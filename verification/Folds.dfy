/** Folds over what peers sent do not depend on the order in which it arrived. */
module Folds {
  import opened Bits

  function Map<T, U>(f: T -> U, s: seq<T>): (r: seq<U>)
    ensures |r| == |s| && forall i :: 0 <= i < |s| ==> r[i] == f(s[i])
  {
    seq(|s|, i requires 0 <= i < |s| => f(s[i]))
  }

  function Sum(s: seq<int>): int
  {
    if |s| == 0 then 0 else Sum(s[..|s| - 1]) + s[|s| - 1]
  }

  function Without<T>(s: seq<T>, k: nat): (r: seq<T>)
    requires k < |s|
    ensures multiset(s) == multiset(r) + multiset{s[k]}
    ensures |r| == |s| - 1
  {
    assert s == s[..k] + [s[k]] + s[k + 1..];
    s[..k] + s[k + 1..]
  }

  lemma {:induction false} SumConcat(a: seq<int>, b: seq<int>)
    ensures Sum(a + b) == Sum(a) + Sum(b)
  {
    if |b| == 0 {
      assert a + b == a;
    } else {
      var n := |b| - 1;
      SumConcat(a, b[..n]);
      assert (a + b)[..|a + b| - 1] == a + b[..n];
    }
  }

  lemma SumUpdate(s: seq<int>, i: nat, x: int)
    requires i < |s|
    ensures Sum(s[i := x]) == Sum(s) - s[i] + x
  {
    assert s == s[..i] + ([s[i]] + s[i + 1..]) && s[i := x] == s[..i] + ([x] + s[i + 1..]);
    SumConcat(s[..i], [s[i]] + s[i + 1..]);
    SumConcat(s[..i], [x] + s[i + 1..]);
    SumConcat([s[i]], s[i + 1..]);
    SumConcat([x], s[i + 1..]);
    assert [s[i]][..0] == [] && [x][..0] == [];
  }

  lemma {:induction false} SumNonNeg(s: seq<int>)
    requires forall i :: 0 <= i < |s| ==> s[i] >= 0
    ensures Sum(s) >= 0
    ensures Sum(s) == 0 <==> forall i :: 0 <= i < |s| ==> s[i] == 0
  {
    if |s| > 0 {
      var n := |s| - 1;
      SumNonNeg(s[..n]);
      assert forall i :: 0 <= i < |s| ==> i == n || s[i] == s[..n][i];
    }
  }

  lemma {:induction false} SumMiddle(a: seq<int>, x: int, b: seq<int>)
    ensures Sum(a + ([x] + b)) == Sum(a + b) + x
  {
    SumConcat(a, [x] + b);
    SumConcat([x], b);
    SumConcat(a, b);
    assert [x][..0] == [];
  }

  lemma MapParts<T, U>(f: T -> U, a: seq<T>, b: seq<T>)
    ensures Map(f, a + b) == Map(f, a) + Map(f, b)
  {
  }

  lemma SumWithout<T>(f: T -> int, s: seq<T>, k: nat)
    requires k < |s|
    ensures Sum(Map(f, s)) == Sum(Map(f, Without(s, k))) + f(s[k])
  {
    var a, b := s[..k], s[k + 1..];
    MapParts(f, a, [s[k]] + b);
    MapParts(f, [s[k]], b);
    MapParts(f, a, b);
    assert s == a + ([s[k]] + b);
    assert Map(f, [s[k]]) == [f(s[k])];
    SumMiddle(Map(f, a), f(s[k]), Map(f, b));
  }

  lemma LastOf<T>(a: seq<T>, b: seq<T>) returns (k: nat)
    requires |a| > 0 && multiset(a) == multiset(b)
    ensures k < |b| && b[k] == a[|a| - 1]
    ensures multiset(a[..|a| - 1]) == multiset(Without(b, k))
  {
    var n := |a| - 1;
    assert a == a[..n] + [a[n]];
    assert a[n] in multiset(a);
    assert a[n] in b;
    k :| 0 <= k < |b| && b[k] == a[n];
    var rest := Without(b, k);
    assert multiset(a[..n]) == multiset(a) - multiset{a[n]};
    assert multiset(rest) == multiset(b) - multiset{a[n]};
  }

  lemma {:induction false} SumPerm<T>(f: T -> int, a: seq<T>, b: seq<T>)
    requires multiset(a) == multiset(b)
    ensures Sum(Map(f, a)) == Sum(Map(f, b))
    decreases |a|
  {
    if |a| == 0 {
      assert |multiset(a)| == |multiset(b)|;
    } else {
      var n := |a| - 1;
      var k := LastOf(a, b);
      SumPerm(f, a[..n], Without(b, k));
      assert Map(f, a)[..n] == Map(f, a[..n]);
      SumWithout(f, b, k);
    }
  }

  lemma {:induction false} ParityIsSum(s: Bits, t: seq<int>)
    requires |s| == |t|
    requires forall i :: 0 <= i < |s| ==> t[i] == if s[i] then 1 else 0
    ensures Parity(s) == (Sum(t) % 2 == 1)
  {
    if |s| > 0 { ParityIsSum(s[..|s| - 1], t[..|s| - 1]); }
  }

  lemma ParityPerm<T>(f: T -> bool, a: seq<T>, b: seq<T>)
    requires multiset(a) == multiset(b)
    ensures Parity(Map(f, a)) == Parity(Map(f, b))
  {
    var g := (x: T) => if f(x) then 1 else 0;
    SumPerm(g, a, b);
    ParityIsSum(Map(f, a), Map(g, a));
    ParityIsSum(Map(f, b), Map(g, b));
  }

  /** Reordering the senders reorders what they sent. */
  lemma {:induction false} MapPerm<T, U>(f: T -> U, a: seq<T>, b: seq<T>)
    requires multiset(a) == multiset(b)
    ensures multiset(Map(f, a)) == multiset(Map(f, b))
    decreases |a|
  {
    if |a| == 0 {
      assert |multiset(a)| == |multiset(b)|;
    } else {
      var n := |a| - 1;
      var k := LastOf(a, b);
      MapPerm(f, a[..n], Without(b, k));
      assert Map(f, a) == Map(f, a[..n]) + [f(a[n])];
      assert Map(f, Without(b, k)) == Map(f, b[..k]) + Map(f, b[k + 1..]);
      assert Map(f, b) == Map(f, b[..k]) + [f(b[k])] + Map(f, b[k + 1..]);
    }
  }

  /* ---------- peers ---------- */

  function Range(n: nat): (r: seq<nat>)
    ensures |r| == n && forall i :: 0 <= i < n ==> r[i] == i
  {
    seq(n, i => i)
  }

  /** The peers of party `p`, in increasing order. */
  function Peers(n: nat, p: nat): (r: seq<nat>)
    requires p < n
    ensures |r| == n - 1
    ensures forall q :: q in r <==> 0 <= q < n && q != p
  {
    var r := Range(p) + seq(n - 1 - p, i => p + 1 + i);
    assert forall i :: 0 <= i < n - 1 ==> r[i] == if i < p then i else i + 1;
    assert forall q :: 0 <= q < n && q != p ==> q in r by {
      forall q | 0 <= q < n && q != p ensures q in r { assert r[if q < p then q else q - 1] == q; }
    }
    r
  }

  predicate NoDup(s: seq<nat>) { forall i, j :: 0 <= i < j < |s| ==> s[i] != s[j] }

  lemma {:induction false} NoDupMultiset(s: seq<nat>, e: nat)
    requires NoDup(s)
    ensures multiset(s)[e] == if e in s then 1 else 0
  {
    if |s| > 0 {
      var n := |s| - 1;
      NoDupMultiset(s[..n], e);
      assert s == s[..n] + [s[n]];
    }
  }

  lemma SamePeople(a: seq<nat>, b: seq<nat>)
    requires NoDup(a) && NoDup(b)
    requires forall e :: e in a <==> e in b
    ensures multiset(a) == multiset(b)
  {
    forall e: nat ensures multiset(a)[e] == multiset(b)[e] {
      NoDupMultiset(a, e);
      NoDupMultiset(b, e);
    }
  }

  /** A party together with its peers is everyone. */
  lemma PeersAndSelf(n: nat, p: nat)
    requires p < n
    ensures NoDup(Peers(n, p))
    ensures multiset(Peers(n, p) + [p]) == multiset(Range(n))
  {
    forall q ensures q in Peers(n, p) + [p] <==> q in Range(n) {
      if 0 <= q < n { assert Range(n)[q] == q; }
    }
    SamePeople(Peers(n, p) + [p], Range(n));
  }

  /** What party `p` finds in its storage when shares are listed by peer. */
  function FromPeers<M>(outs: seq<M>, p: nat): (r: seq<M>)
    requires p < |outs|
    ensures |r| == |outs| - 1
    ensures forall i :: 0 <= i < |r| ==> Peers(|outs|, p)[i] < |outs| && r[i] == outs[Peers(|outs|, p)[i]]
    ensures forall m :: m in r ==> m in outs
  {
    var peers := Peers(|outs|, p);
    assert forall i :: 0 <= i < |peers| ==> peers[i] in peers;
    seq(|peers|, i requires 0 <= i < |peers| => outs[peers[i]])
  }

  lemma FromPeersPerm<M>(outs: seq<M>, p: nat)
    requires p < |outs|
    ensures multiset(FromPeers(outs, p) + [outs[p]]) == multiset(outs)
  {
    var n := |outs|;
    PeersAndSelf(n, p);
    var f := (q: nat) => if q < n then outs[q] else outs[p];
    MapPerm(f, Peers(n, p) + [p], Range(n));
    var peers := Peers(n, p);
    assert forall i :: 0 <= i < |peers| ==> peers[i] in peers;
    assert Map(f, peers + [p]) == FromPeers(outs, p) + [outs[p]];
    assert Map(f, Range(n)) == outs;
  }

  /* ---------- opening a shared stream ---------- */

  predicate AllLong(inbox: seq<Bits>, w: nat) { forall m :: m in inbox ==> |m| == w }

  /** `inplace_reconstruct`: XOR in every received share, in the order of arrival. */
  function XorIn(own: Bits, inbox: seq<Bits>): (r: Bits)
    requires AllLong(inbox, |own|)
    ensures |r| == |own|
  {
    if |inbox| == 0 then own
    else
      assert inbox[|inbox| - 1] in inbox;
      XorBits(XorIn(own, inbox[..|inbox| - 1]), inbox[|inbox| - 1])
  }

  lemma {:induction false} XorInBit(own: Bits, inbox: seq<Bits>, j: nat)
    requires AllLong(inbox, |own|) && j < |own|
    ensures XorIn(own, inbox)[j] == (own[j] != Rec(inbox, j))
  {
    if |inbox| > 0 {
      var n := |inbox| - 1;
      assert inbox[n] in inbox;
      XorInBit(own, inbox[..n], j);
      assert Col(inbox, j)[..n] == Col(inbox[..n], j);
    }
  }

  lemma RecPerm(a: seq<Bits>, b: seq<Bits>, j: nat)
    requires multiset(a) == multiset(b)
    ensures Rec(a, j) == Rec(b, j)
  {
    var f := (m: Bits) => At(m, j);
    ParityPerm(f, a, b);
    assert Map(f, a) == Col(a, j) && Map(f, b) == Col(b, j);
  }

  lemma LongPerm(a: seq<Bits>, b: seq<Bits>, w: nat)
    requires AllLong(a, w) && multiset(a) == multiset(b)
    ensures AllLong(b, w)
  {
    forall m | m in b ensures |m| == w { assert m in multiset(b) && m in a; }
  }

  /** The reconstruction does not depend on the order in which shares arrive. */
  lemma {:induction false} XorInAnyOrder(own: Bits, a: seq<Bits>, b: seq<Bits>)
    requires AllLong(a, |own|) && multiset(a) == multiset(b)
    ensures AllLong(b, |own|) && XorIn(own, a) == XorIn(own, b)
  {
    LongPerm(a, b, |own|);
    forall j | 0 <= j < |own| ensures XorIn(own, a)[j] == XorIn(own, b)[j] {
      XorInBit(own, a, j);
      XorInBit(own, b, j);
      RecPerm(a, b, j);
    }
  }

  /** Every party opens the same stream: the XOR over all parties' broadcasts. */
  lemma XorInOpens(outs: seq<Bits>, p: nat, w: nat, j: nat)
    requires p < |outs| && j < w && Rect(outs, w)
    ensures AllLong(FromPeers(outs, p), |outs[p]|)
    ensures XorIn(outs[p], FromPeers(outs, p))[j] == Rec(outs, j)
  {
    var inbox := FromPeers(outs, p);
    XorInBit(outs[p], inbox, j);
    FromPeersPerm(outs, p);
    RecPerm(inbox + [outs[p]], outs, j);
    assert Col(inbox + [outs[p]], j)[..|inbox|] == Col(inbox, j);
  }
}
