/** The index ranges built by `process_weak_table_chunked`: begins step by one chunk
    size, ends are a possibly different chunk size further on, in usize arithmetic.
    Nothing here assumes that the sums are representable: a wrapped end lies before its
    begin, and the range is empty. */
module Ranges {
  import opened Arithmetic

  datatype Range = Range(begin: nat, end: nat) {
    predicate Has(i: nat) {
      begin <= i < end
    }
  }

  function StepRanges(from: nat, bound: nat, step: nat, len: nat): seq<Range>
    requires step > 0
    decreases bound - from
  {
    if from >= bound then []
    else [Range(from, Min(AddUsize(from, len), bound))] + StepRanges(from + step, bound, step, len)
  }

  /** Range by range: there is one for every multiple of `step` below the bound, it begins there,
      and it ends `len` further on, as far as the bound and the word size allow. */
  lemma {:induction false} StepRangesAt(from: nat, bound: nat, step: nat, len: nat, k: nat)
    requires step > 0
    ensures k < |StepRanges(from, bound, step, len)| <==> from + k * step < bound
    ensures from + k * step < bound ==>
      StepRanges(from, bound, step, len)[k]
        == Range(from + k * step, Min((from + k * step + len) % USIZE_VALUES, bound))
    decreases bound - from
  {
    if from >= bound {
    } else if k == 0 {
    } else {
      MulAdd(k - 1, 1, step);
      StepRangesAt(from + step, bound, step, len, k - 1);
    }
  }

  /** The iterator chain `(from..bound).step_by(step).map(..).collect()`. */
  method CollectRanges(from: nat, bound: nat, step: nat, len: nat) returns (ranges: seq<Range>)
    requires step > 0
    ensures forall k: nat :: k < |ranges| <==> from + k * step < bound
    ensures forall k: nat :: k < |ranges| ==>
      ranges[k] == Range(from + k * step, Min((from + k * step + len) % USIZE_VALUES, bound))
    ensures ranges == StepRanges(from, bound, step, len)
  {
    ranges := [];
    var begin := from;
    while begin < bound
      invariant ranges + StepRanges(begin, bound, step, len) == StepRanges(from, bound, step, len)
    {
      var end := Min(AddUsize(begin, len), bound);
      ranges := ranges + [Range(begin, end)];
      begin := begin + step;
    }
    forall k: nat
      ensures k < |ranges| <==> from + k * step < bound
      ensures k < |ranges| ==>
        ranges[k] == Range(from + k * step, Min((from + k * step + len) % USIZE_VALUES, bound))
    {
      StepRangesAt(from, bound, step, len, k);
    }
  }

  lemma {:induction false} StepRangesCount(from: nat, bound: nat, step: nat, len: nat)
    requires step > 0
    ensures |StepRanges(from, bound, step, len)| <= if from < bound then bound - from else 0
    decreases bound - from
  {
    if from >= bound {
    } else {
      StepRangesCount(from + step, bound, step, len);
    }
  }

  lemma {:induction false} StepRangesEnd(from: nat, bound: nat, step: nat, len: nat, k: nat)
    requires step > 0 && k < |StepRanges(from, bound, step, len)|
    ensures StepRanges(from, bound, step, len)[k].end <= bound
    decreases bound - from
  {
    if k == 0 {
    } else {
      StepRangesEnd(from + step, bound, step, len, k - 1);
    }
  }

  /** How many of the ranges contain `i`. */
  function Hits(rs: seq<Range>, i: nat): nat {
    if rs == [] then 0 else (if rs[0].Has(i) then 1 else 0) + Hits(rs[1..], i)
  }

  lemma {:induction false} HitsIsCount(rs: seq<Range>, i: nat)
    ensures Hits(rs, i) == |set k | 0 <= k < |rs| && rs[k].Has(i)|
    decreases |rs|
  {
    if rs == [] {
    } else {
      var last := |rs| - 1;
      HitsIsCount(rs[..last], i);
      HitsLast(rs, i);
      var before := set k | 0 <= k < last && rs[..last][k].Has(i);
      assert (set k | 0 <= k < |rs| && rs[k].Has(i)) == if rs[last].Has(i) then before + {last} else before;
    }
  }

  lemma {:induction false} HitsLast(rs: seq<Range>, i: nat)
    requires rs != []
    ensures Hits(rs, i) == Hits(rs[..|rs| - 1], i) + if rs[|rs| - 1].Has(i) then 1 else 0
  {
    if |rs| == 1 {
      assert rs[..0] == [] && rs[1..] == [];
    } else {
      HitsLast(rs[1..], i);
      assert rs[1..][..|rs| - 2] == rs[..|rs| - 1][1..];
    }
  }

  lemma {:induction false} HitsWitness(rs: seq<Range>, i: nat)
    ensures Hits(rs, i) > 0 <==> exists k :: 0 <= k < |rs| && rs[k].Has(i)
  {
    if rs == [] {
    } else {
      HitsWitness(rs[1..], i);
      if k :| 0 <= k < |rs[1..]| && rs[1..][k].Has(i) {
        assert rs[k + 1].Has(i);
      }
      if k :| 0 <= k < |rs| && rs[k].Has(i) {
        assert k > 0 ==> rs[1..][k - 1].Has(i);
      }
    }
  }

  lemma {:induction false} HitsTwice(rs: seq<Range>, k: nat, l: nat, i: nat)
    requires k < l < |rs| && rs[k].Has(i) && rs[l].Has(i)
    ensures Hits(rs, i) > 1
  {
    if k == 0 {
      HitsWitness(rs[1..], i);
      assert rs[1..][l - 1].Has(i);
    } else {
      HitsTwice(rs[1..], k - 1, l - 1, i);
    }
  }

  lemma HitsFirst(from: nat, n: nat, e: nat, b: nat, i: nat)
    requires e > 0 && b < USIZE_VALUES && i < n < USIZE_VALUES && from < n
    ensures Hits(StepRanges(from, n, e, b), i)
         == (if from <= i < from + b < USIZE_VALUES then 1 else 0) + Hits(StepRanges(from + e, n, e, b), i)
  {
    var rs := StepRanges(from, n, e, b);
    assert rs[1..] == StepRanges(from + e, n, e, b);
    assert AddUsize(from, b) == if from + b < USIZE_VALUES then from + b else from + b - USIZE_VALUES;
  }

  // ---------- Entry packets: step and length agree ----------

  /** No end of a range wraps around in usize arithmetic. */
  predicate NoWrap(from: nat, bound: nat, step: nat, len: nat)
    requires step > 0
    decreases bound - from
  {
    from < bound ==> from + len < USIZE_VALUES && NoWrap(from + step, bound, step, len)
  }

  /** Where the last range begins. */
  function LastBegin(from: nat, bound: nat, step: nat): (last: nat)
    requires step > 0 && from < bound
    ensures from <= last < bound
    decreases bound - from
  {
    if from + step >= bound then from else LastBegin(from + step, bound, step)
  }

  lemma {:induction false} NoWrapLast(from: nat, bound: nat, step: nat, len: nat)
    requires step > 0 && from < bound
    ensures NoWrap(from, bound, step, len) <==> LastBegin(from, bound, step) + len < USIZE_VALUES
    decreases bound - from
  {
    if from + step >= bound {
    } else {
      NoWrapLast(from + step, bound, step, len);
    }
  }

  lemma {:induction false} LastBeginClosed(from: nat, bound: nat, step: nat, q: nat)
    requires step > 0 && from < bound && q == (bound - 1 - from) / step
    ensures LastBegin(from, bound, step) == from + q * step
    decreases bound - from
  {
    var r := (bound - 1 - from) % step;
    assert bound - 1 - from == q * step + r;
    if from + step >= bound {
      DivUnique(bound - 1 - from, step, 0, bound - 1 - from);
    } else {
      FloorBound(1, step, bound - 1 - from);
      MulAdd(q - 1, 1, step);
      DivUnique(bound - 1 - (from + step), step, q - 1, r);
      LastBeginClosed(from + step, bound, step, q - 1);
    }
  }

  /** Whether an end wraps is decided by the last begin alone. */
  lemma NoWrapIff(from: nat, bound: nat, step: nat, len: nat)
    requires step > 0
    ensures NoWrap(from, bound, step, len)
       <==> (from < bound ==> from + (bound - 1 - from) / step * step + len < USIZE_VALUES)
  {
    if from < bound {
      NoWrapLast(from, bound, step, len);
      LastBeginClosed(from, bound, step, (bound - 1 - from) / step);
    }
  }

  /** How far the entry packets reach: to the bound, or to the begin of the last packet if its end wraps. */
  function Reach(from: nat, bound: nat, e: nat): nat
    requires e > 0
  {
    if from >= bound then from
    else if LastBegin(from, bound, e) + e < USIZE_VALUES then bound
    else LastBegin(from, bound, e)
  }

  /** Every entry up to there is in one packet, and no other entry is in any, for all sizes. */
  lemma {:induction false} EntryCoverage(from: nat, bound: nat, e: nat, i: nat)
    requires 0 < e < USIZE_VALUES && bound < USIZE_VALUES
    ensures Hits(StepRanges(from, bound, e, e), i) == if from <= i < Reach(from, bound, e) then 1 else 0
    decreases bound - from
  {
    if from >= bound {
    } else {
      EntryCoverage(from + e, bound, e, i);
      if i < bound {
        HitsFirst(from, bound, e, e, i);
      } else {
        HitsOutside(from, bound, e, e, i);
      }
    }
  }

  lemma {:induction false} HitsOutside(from: nat, bound: nat, step: nat, len: nat, i: nat)
    requires step > 0 && i >= bound
    ensures Hits(StepRanges(from, bound, step, len), i) == 0
    decreases bound - from
  {
    if from >= bound {
    } else {
      HitsOutside(from + step, bound, step, len, i);
      assert StepRanges(from, bound, step, len)[1..] == StepRanges(from + step, bound, step, len);
    }
  }

  /** The packets reach every entry iff no end wraps around. */
  lemma ReachIsBoundIff(from: nat, bound: nat, e: nat)
    requires 0 < e < USIZE_VALUES && from < bound < USIZE_VALUES
    ensures Reach(from, bound, e) == bound <==> NoWrap(from, bound, e, e)
    ensures from <= Reach(from, bound, e) <= bound
  {
    NoWrapLast(from, bound, e, e);
  }

  /** Consecutive, non-empty ranges from `from` to `bound`. */
  ghost predicate Tiles(rs: seq<Range>, from: nat, bound: nat)
    decreases |rs|
  {
    if rs == [] then from >= bound
    else rs[0].begin == from && from < rs[0].end <= bound && Tiles(rs[1..], rs[0].end, bound)
  }

  /** With equal step and length the ranges tile the interval, unless an end wraps around. */
  lemma {:induction false} EntryRangesTile(from: nat, bound: nat, e: nat)
    requires 0 < e < USIZE_VALUES && bound < USIZE_VALUES
    ensures Tiles(StepRanges(from, bound, e, e), from, bound) <==> NoWrap(from, bound, e, e)
    decreases bound - from
  {
    if from >= bound {
    } else {
      EntryRangesTile(from + e, bound, e);
      var rs := StepRanges(from, bound, e, e);
      assert rs[1..] == StepRanges(from + e, bound, e, e);
      if from + e >= bound {
        assert rs[1..] == [];
      }
      if from + e >= USIZE_VALUES {
        assert AddUsize(from, e) == from + e - USIZE_VALUES;
      }
    }
  }

  /** A wrapped end at a concrete input: with the largest chunk size and a table whose first
      entry has been deleted, the one entry packet is inverted and reaches nothing. */
  lemma WrappedEndExample()
    ensures StepRanges(1, 10, USIZE_VALUES - 1, USIZE_VALUES - 1) == [Range(1, 0)]
    ensures !Tiles(StepRanges(1, 10, USIZE_VALUES - 1, USIZE_VALUES - 1), 1, 10)
    ensures Reach(1, 10, USIZE_VALUES - 1) == 1
  {
    assert AddUsize(1, USIZE_VALUES - 1) == 0;
    assert StepRanges(1 + (USIZE_VALUES - 1), 10, USIZE_VALUES - 1, USIZE_VALUES - 1) == [];
  }

  // ---------- Bin packets: step and length differ ----------

  /** The number of the last packet whose end does not wrap around. */
  function LastUnwrapped(e: nat, b: nat): nat
    requires e > 0 && b < USIZE_VALUES
  {
    (USIZE_VALUES - 1 - b) / e
  }

  /** The number of bin packets that visit bin `i`: those from the first that reaches it to the
      last that starts at or before it, as far as their ends do not wrap around. */
  function BinVisits(i: nat, e: nat, b: nat): nat
    requires e > 0 && b < USIZE_VALUES
  {
    var first, last := CeilDiv(i - b + 1, e), Min(i / e, LastUnwrapped(e, b));
    if first <= last then last - first + 1 else 0
  }

  /** Hits counted from packet number `k` on. */
  lemma {:induction false} HitsFrom(k: nat, from: nat, n: nat, e: nat, b: nat, i: nat, q: nat, lo: nat, cap: nat)
    requires e > 0 && b < USIZE_VALUES && from == k * e && i < n < USIZE_VALUES
    requires q == i / e && lo == CeilDiv(i - b + 1, e) && cap == LastUnwrapped(e, b)
    ensures var first, last := if k > lo then k else lo, Min(q, cap);
            Hits(StepRanges(from, n, e, b), i) == if first <= last then last - first + 1 else 0
    decreases n - from
  {
    FloorBound(k, e, i);
    CeilBound(k, e, i - b + 1);
    FloorBound(k, e, USIZE_VALUES - 1 - b);
    assert from <= i <==> k <= q;
    assert i < from + b <==> lo <= k;
    assert from + b < USIZE_VALUES <==> k <= cap;
    if from >= n {
    } else {
      MulAdd(k, 1, e);
      HitsFrom(k + 1, from + e, n, e, b, i, q, lo, cap);
      HitsFirst(from, n, e, b, i);
    }
  }

  /** Bin `i` is visited: its offset within an entry chunk is below the bin chunk size, and the
      end of the first packet that reaches it does not wrap around. */
  predicate Visited(i: nat, e: nat, b: nat)
    requires e > 0
  {
    i % e < b && CeilDiv(i - b + 1, e) * e + b < USIZE_VALUES
  }

  /** `lo` is the first packet to reach `i`, `m` packets span a bin chunk: packet `lo + m` starts after `i`. */
  lemma VisitsAtMost(i: nat, e: nat, b: nat, lo: nat, m: nat)
    requires e > 0 && lo == CeilDiv(i - b + 1, e) && m == CeilDiv(b, e)
    ensures i / e < lo + m
  {
    CeilBound(m, e, b);
    CeilBound(lo, e, i - b + 1);
    MulAdd(lo, m, e);
    FloorBound(lo + m, e, i);
  }

  /** Packet `i / e` reaches `i` exactly if the offset of `i` within its entry chunk is below `b`,
      and packet `i / e + 1` starts after `i` in any case. */
  lemma LastVisit(i: nat, e: nat, b: nat, q: nat, r: nat)
    requires e > 0 && b > 0 && q == i / e && r == i % e
    ensures CeilDiv(i - b + 1, e) <= q + 1
    ensures CeilDiv(i - b + 1, e) <= q <==> r < b
  {
    assert i == q * e + r;
    CeilBound(q, e, i - b + 1);
    MulAdd(q, 1, e);
    CeilBound(q + 1, e, i - b + 1);
  }

  lemma VisitBounds(i: nat, e: nat, b: nat)
    requires e > 0 && 0 < b < USIZE_VALUES
    ensures BinVisits(i, e, b) <= CeilDiv(b, e)
    ensures BinVisits(i, e, b) > 0 <==> Visited(i, e, b)
  {
    var lo := CeilDiv(i - b + 1, e);
    LastVisit(i, e, b, i / e, i % e);
    VisitsAtMost(i, e, b, lo, CeilDiv(b, e));
    FloorBound(lo, e, USIZE_VALUES - 1 - b);
  }

  /** Bin coverage exactly as coded, for every table and all chunk sizes: the closed form, the
      bins left out, and the bound on repeats. */
  lemma BinCoverage(n: nat, e: nat, b: nat, i: nat)
    requires 0 < e < USIZE_VALUES && 0 < b < USIZE_VALUES && i < n < USIZE_VALUES
    ensures Hits(StepRanges(0, n, e, b), i) == BinVisits(i, e, b)
    ensures Hits(StepRanges(0, n, e, b), i) > 0 <==> Visited(i, e, b)
    ensures Hits(StepRanges(0, n, e, b), i) <= CeilDiv(b, e)
  {
    HitsFrom(0, 0, n, e, b, i, i / e, CeilDiv(i - b + 1, e), LastUnwrapped(e, b));
    VisitBounds(i, e, b);
  }

  /** Every bin is visited: one packet holds them all, or the stepping does not exceed the length
      and the end of the first packet that reaches the last bin does not wrap around. */
  predicate CoversAllBins(n: nat, e: nat, b: nat)
    requires e > 0
  {
    n <= b || (e <= b && CeilDiv(n - b, e) * e + b < USIZE_VALUES)
  }

  lemma EarlierBinVisited(n: nat, e: nat, b: nat, i: nat)
    requires e > 0 && 0 < b < USIZE_VALUES && i < n && CoversAllBins(n, e, b)
    ensures Visited(i, e, b)
  {
    RemainderBounds(i, e);
    if n > b {
      CeilMono(i - b + 1, n - b, e);
      MulMono(CeilDiv(i - b + 1, e), CeilDiv(n - b, e), e);
    }
  }

  lemma MissedBin(n: nat, e: nat, b: nat) returns (i: nat)
    requires e > 0 && 0 < b < USIZE_VALUES && !CoversAllBins(n, e, b)
    ensures i < n && !Visited(i, e, b)
  {
    if b < e {
      RemainderBounds(b, e);
      i := b;
    } else {
      i := n - 1;
    }
  }

  lemma AllBinsVisited(n: nat, e: nat, b: nat)
    requires 0 < e < USIZE_VALUES && 0 < b < USIZE_VALUES && n < USIZE_VALUES
    ensures (forall i: nat :: i < n ==> Hits(StepRanges(0, n, e, b), i) > 0) <==> CoversAllBins(n, e, b)
  {
    forall i: nat | i < n
      ensures Hits(StepRanges(0, n, e, b), i) > 0 <==> Visited(i, e, b)
    {
      BinCoverage(n, e, b, i);
    }
    if CoversAllBins(n, e, b) {
      forall i: nat | i < n ensures Visited(i, e, b) {
        EarlierBinVisited(n, e, b, i);
      }
    } else {
      var i := MissedBin(n, e, b);
      assert !(Hits(StepRanges(0, n, e, b), i) > 0);
    }
  }

  ghost predicate VisitedExactlyOnce(n: nat, e: nat, b: nat)
    requires e > 0
  {
    forall i: nat :: i < n ==> Hits(StepRanges(0, n, e, b), i) == 1
  }

  lemma SmallTableVisits(n: nat, e: nat, b: nat, i: nat)
    requires 0 < e < USIZE_VALUES && 0 < b < USIZE_VALUES && i < n <= b
    ensures Hits(StepRanges(0, n, e, b), i) == 1 <==> i < e || e + b >= USIZE_VALUES
  {
    BinCoverage(n, e, b, i);
    FloorBound(1, e, i);
    FloorBound(1, e, USIZE_VALUES - 1 - b);
  }

  /** A table that one bin chunk holds: every bin is visited by the first packet, and by the
      second too if there is one and its end does not wrap around. */
  lemma SmallTableOnce(n: nat, e: nat, b: nat)
    requires 0 < e < USIZE_VALUES && 0 < b < USIZE_VALUES && n <= b
    ensures VisitedExactlyOnce(n, e, b) <==> n <= e || e + b >= USIZE_VALUES
  {
    forall i: nat | i < n
      ensures Hits(StepRanges(0, n, e, b), i) == 1 <==> i < e || e + b >= USIZE_VALUES
    {
      SmallTableVisits(n, e, b, i);
    }
    if n > e {
      assert VisitedExactlyOnce(n, e, b) ==> Hits(StepRanges(0, n, e, b), n - 1) == 1;
    }
  }

  /** With equal chunk sizes a bin is visited once, or not at all if its packet is inverted. */
  lemma EqualSizesVisits(e: nat, i: nat)
    requires 0 < e < USIZE_VALUES
    ensures BinVisits(i, e, e) == if i / e <= LastUnwrapped(e, e) then 1 else 0
  {
    var q, r := i / e, i % e;
    assert i == q * e + r;
    LastVisit(i, e, e, q, r);
    if q > 0 {
      MulAdd(q - 1, 1, e);
      CeilBound(q - 1, e, i - e + 1);
    }
  }

  lemma EqualSizesOnce(n: nat, e: nat)
    requires 0 < e < n < USIZE_VALUES
    ensures VisitedExactlyOnce(n, e, e) <==> NoWrap(0, n, e, e)
  {
    var last := (n - 1) / e;
    NoWrapIff(0, n, e, e);
    FloorBound(last, e, USIZE_VALUES - 1 - e);
    forall i: nat | i < n
      ensures Hits(StepRanges(0, n, e, e), i) == if i / e <= LastUnwrapped(e, e) then 1 else 0
      ensures i / e <= last
    {
      BinCoverage(n, e, e, i);
      EqualSizesVisits(e, i);
      FloorBound(i / e, e, i);
      FloorBound(i / e, e, n - 1);
    }
    assert VisitedExactlyOnce(n, e, e) ==> Hits(StepRanges(0, n, e, e), n - 1) == 1;
  }

  lemma UnequalSizesNotOnce(n: nat, e: nat, b: nat)
    requires 0 < e < USIZE_VALUES && 0 < b < n < USIZE_VALUES && e != b
    ensures !VisitedExactlyOnce(n, e, b)
  {
    BinCoverage(n, e, b, b);
    RemainderBounds(b, e);
    if b < e {
      assert Hits(StepRanges(0, n, e, b), b) == 0;
    } else {
      BinCoverage(n, e, b, e);
      DivUnique(e, e, 1, 0);
      CeilBound(0, e, 1);
      assert Hits(StepRanges(0, n, e, b), e) == 1 ==> LastUnwrapped(e, b) == 0;
      assert LastUnwrapped(e, b) == 0 ==> Hits(StepRanges(0, n, e, b), b) == 0;
    }
  }

  /** Every bin of a table is visited exactly once iff the chunk sizes agree and no end wraps, or
      one bin chunk holds the table and no second packet reaches into it. */
  lemma ExactlyOnceIff(n: nat, e: nat, b: nat)
    requires 0 < e < USIZE_VALUES && 0 < b < USIZE_VALUES && n < USIZE_VALUES
    ensures VisitedExactlyOnce(n, e, b)
       <==> (if n <= b then n <= e || e + b >= USIZE_VALUES else e == b && NoWrap(0, n, e, b))
  {
    if n <= b {
      SmallTableOnce(n, e, b);
    } else if e == b {
      EqualSizesOnce(n, e);
    } else {
      UnequalSizesNotOnce(n, e, b);
    }
  }

  /** Every bin of every table is visited exactly once iff the bin chunk size is the largest usize,
      or the chunk sizes agree and divide it. */
  lemma AlwaysExactlyOnceIff(e: nat, b: nat)
    requires 0 < e < USIZE_VALUES && 0 < b < USIZE_VALUES
    ensures (forall n: nat :: n < USIZE_VALUES ==> VisitedExactlyOnce(n, e, b))
       <==> b == USIZE_VALUES - 1 || (e == b && (USIZE_VALUES - 1) % e == 0)
  {
    var largest := USIZE_VALUES - 1;
    ExactlyOnceIff(largest, e, b);
    if b < largest && e == b {
      MultipleIff(e);
    }
    if b == largest || (e == b && largest % e == 0) {
      forall n: nat | n < USIZE_VALUES
        ensures VisitedExactlyOnce(n, e, b)
      {
        ExactlyOnceIff(n, e, b);
        if n > b {
          NoWrapShorter(n, e);
        }
      }
    }
  }

  /** The largest table has no wrapped end iff `e` divides its size. */
  lemma MultipleIff(e: nat)
    requires 0 < e < USIZE_VALUES - 1
    ensures NoWrap(0, USIZE_VALUES - 1, e, e) <==> (USIZE_VALUES - 1) % e == 0
  {
    NoWrapIff(0, USIZE_VALUES - 1, e, e);
    var q, r := (USIZE_VALUES - 2) / e, (USIZE_VALUES - 2) % e;
    assert USIZE_VALUES - 2 == q * e + r;
    MulAdd(q, 1, e);
    if r == e - 1 {
      DivUnique(USIZE_VALUES - 1, e, q + 1, 0);
    } else {
      DivUnique(USIZE_VALUES - 1, e, q, r + 1);
    }
  }

  lemma NoWrapShorter(n: nat, e: nat)
    requires 0 < e < USIZE_VALUES - 1 && 0 < n < USIZE_VALUES && (USIZE_VALUES - 1) % e == 0
    ensures NoWrap(0, n, e, e)
  {
    MultipleIff(e);
    NoWrapIff(0, USIZE_VALUES - 1, e, e);
    NoWrapIff(0, n, e, e);
    FloorBound((n - 1) / e, e, n - 1);
    FloorBound((n - 1) / e, e, USIZE_VALUES - 2);
    MulMono((n - 1) / e, (USIZE_VALUES - 2) / e, e);
  }

  const DEFAULT_ENTRIES_CHUNK_SIZE: nat := 1024
  const DEFAULT_BINS_CHUNK_SIZE: nat := 4096
  const LAST_UNWRAPPED_BY_DEFAULT: nat := 0x3F_FFFF_FFFF_FFFB

  /** With the default sizes visits repeat, up to four times from bin 3072 on; only at the very end
      of the address space do wrapped ends take visits away again. */
  lemma DefaultBinVisits(n: nat, i: nat)
    requires i < n < USIZE_VALUES
    ensures Hits(StepRanges(0, n, DEFAULT_ENTRIES_CHUNK_SIZE, DEFAULT_BINS_CHUNK_SIZE), i)
         == if i < 3072 then i / 1024 + 1
            else if i / 1024 <= LAST_UNWRAPPED_BY_DEFAULT then 4
            else LAST_UNWRAPPED_BY_DEFAULT + 4 - i / 1024
  {
    BinCoverage(n, DEFAULT_ENTRIES_CHUNK_SIZE, DEFAULT_BINS_CHUNK_SIZE, i);
  }
}
