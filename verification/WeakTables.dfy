/** Weak hash tables of the VM and the work packets that update them (weak_proc.rs). */
module WeakTables {
  import opened Arithmetic
  import opened Ranges

  datatype Slot = Deleted | Record(key: nat, value: nat)

  /** A bin of the hash index holds an entry number. */
  datatype Bin = EmptyBin | DeletedBin | Ref(entry: nat)

  /** What `st_update_bins_range` does to one bin: drop a reference to a deleted entry. */
  function UpdateBin(entries: seq<Slot>, bin: Bin): Bin {
    if bin.Ref? && bin.entry < |entries| && entries[bin.entry].Deleted? then DeletedBin else bin
  }

  /** The bins after a pass over `[lo, hi)`. */
  function UpdatedBins(entries: seq<Slot>, bins: seq<Bin>, lo: nat, hi: nat): seq<Bin> {
    seq(|bins|, i requires 0 <= i < |bins| => if lo <= i < hi then UpdateBin(entries, bins[i]) else bins[i])
  }

  predicate IsDeletion(update: Slot -> Slot, slot: Slot) {
    !slot.Deleted? && update(slot).Deleted?
  }

  /** The entries after a pass over `[lo, hi)`. */
  function Updated(update: Slot -> Slot, entries: seq<Slot>, lo: nat, hi: nat): seq<Slot> {
    seq(|entries|, i requires 0 <= i < |entries| => if lo <= i < hi then update(entries[i]) else entries[i])
  }

  /** The deletions a pass over `[lo, hi)` reports. */
  function Deletions(update: Slot -> Slot, entries: seq<Slot>, lo: nat, hi: nat): nat
    decreases hi - lo
  {
    if lo >= hi || hi > |entries| then 0
    else Deletions(update, entries, lo, hi - 1) + (if IsDeletion(update, entries[hi - 1]) then 1 else 0)
  }

  /** `st_get_num_entries`: the entries that are not deleted. */
  function NumEntries(entries: seq<Slot>): nat {
    if entries == [] then 0
    else NumEntries(entries[..|entries| - 1]) + if entries[|entries| - 1].Deleted? then 0 else 1
  }

  /** A pass over the first entries leaves the others out of the count of deletions. */
  lemma {:induction false} DeletionsPrefix(update: Slot -> Slot, entries: seq<Slot>, lo: nat, hi: nat, n: nat)
    requires hi <= n <= |entries|
    ensures Deletions(update, entries[..n], lo, hi) == Deletions(update, entries, lo, hi)
    decreases hi
  {
    if lo >= hi {
    } else {
      DeletionsPrefix(update, entries, lo, hi - 1, n);
    }
  }

  /** What a pass deletes is what the table then lacks. */
  lemma {:induction false} DeletionsConserve(update: Slot -> Slot, entries: seq<Slot>, lo: nat, hi: nat)
    requires update(Deleted) == Deleted && (lo < hi ==> hi <= |entries|)
    ensures NumEntries(Updated(update, entries, lo, hi)) + Deletions(update, entries, lo, hi) == NumEntries(entries)
    decreases |entries|
  {
    var n := |entries| - 1;
    if entries == [] {
    } else if lo < hi && hi == |entries| {
      DeletionsConserve(update, entries[..n], lo, n);
      DeletionsPrefix(update, entries, lo, n, n);
      assert Updated(update, entries, lo, hi)[..n] == Updated(update, entries[..n], lo, n);
    } else {
      DeletionsConserve(update, entries[..n], lo, hi);
      if lo < hi {
        DeletionsPrefix(update, entries, lo, hi, n);
      }
      assert Updated(update, entries, lo, hi)[..n] == Updated(update, entries[..n], lo, hi);
    }
  }

  /** A pass over an inverted range is one over the empty range at its begin. */
  lemma PassOverInverted(update: Slot -> Slot, entries: seq<Slot>, lo: nat, hi: nat)
    ensures var end := if lo < hi then hi else lo;
            && Updated(update, entries, lo, end) == Updated(update, entries, lo, hi)
            && Deletions(update, entries, lo, end) == Deletions(update, entries, lo, hi)
  {
  }

  lemma BinPassOverInverted(entries: seq<Slot>, bins: seq<Bin>, lo: nat, hi: nat)
    ensures UpdatedBins(entries, bins, lo, if lo < hi then hi else lo) == UpdatedBins(entries, bins, lo, hi)
  {
  }

  /** The deletions among those of the first `n` entries that are in one of the ranges. */
  function DeletionsIn(update: Slot -> Slot, entries: seq<Slot>, rs: seq<Range>, n: nat): nat {
    if n == 0 || n > |entries| then 0
    else DeletionsIn(update, entries, rs, n - 1)
         + (if Hits(rs, n - 1) > 0 && IsDeletion(update, entries[n - 1]) then 1 else 0)
  }

  lemma {:induction false} DeletionsInSplit(update: Slot -> Slot, entries: seq<Slot>, rs: seq<Range>, n: nat)
    requires rs != [] && n <= |entries| && forall i: nat :: Hits(rs, i) <= 1
    ensures DeletionsIn(update, entries, rs, n)
         == Deletions(update, entries, rs[0].begin, Min(rs[0].end, n)) + DeletionsIn(update, entries, rs[1..], n)
  {
    if n == 0 {
    } else {
      DeletionsInSplit(update, entries, rs, n - 1);
      assert Hits(rs, n - 1) <= 1;
    }
  }

  lemma {:induction false} DeletionsInInterval(update: Slot -> Slot, entries: seq<Slot>, rs: seq<Range>,
                                               lo: nat, hi: nat, n: nat)
    requires n <= |entries| && forall i: nat :: Hits(rs, i) > 0 <==> lo <= i < hi
    ensures DeletionsIn(update, entries, rs, n) == Deletions(update, entries, lo, Min(hi, n))
  {
    if n == 0 {
    } else {
      DeletionsInInterval(update, entries, rs, lo, hi, n - 1);
      assert Hits(rs, n - 1) > 0 <==> lo <= n - 1 < hi;
    }
  }

  datatype Packet = UpdateTableEntriesParallel(range: Range) | UpdateTableBinsParallel(range: Range)

  function EntryPackets(rs: seq<Range>): seq<Packet> {
    seq(|rs|, i requires 0 <= i < |rs| => UpdateTableEntriesParallel(rs[i]))
  }

  function BinPackets(rs: seq<Range>): seq<Packet> {
    seq(|rs|, i requires 0 <= i < |rs| => UpdateTableBinsParallel(rs[i]))
  }

  class WeakTable {
    const entries: array<Slot>
    const bins: array<Bin>

    constructor (entries: array<Slot>, bins: array<Bin>)
      ensures this.entries == entries && this.bins == bins
    {
      this.entries, this.bins := entries, bins;
    }

    /** `st_update_entries_range`, entry by entry. */
    method UpdateEntriesRange(begin: nat, end: nat, update: Slot -> Slot) returns (deleted: nat)
      requires end <= entries.Length
      modifies entries
      ensures deleted == Deletions(update, old(entries[..]), begin, end)
      ensures forall i :: 0 <= i < entries.Length ==>
        entries[i] == if begin <= i < end then update(old(entries[i])) else old(entries[i])
      ensures entries[..] == Updated(update, old(entries[..]), begin, end)
    {
      deleted := 0;
      var i := begin;
      while i < end
        invariant i == begin || i <= end
        invariant deleted == Deletions(update, old(entries[..]), begin, i)
        invariant forall j :: 0 <= j < entries.Length ==>
          entries[j] == if begin <= j < i then update(old(entries[j])) else old(entries[j])
      {
        if IsDeletion(update, entries[i]) {
          deleted := deleted + 1;
        }
        entries[i] := update(entries[i]);
        i := i + 1;
      }
    }

    /** `st_update_bins_range`, bin by bin. */
    method UpdateBinsRange(begin: nat, end: nat)
      requires end <= bins.Length
      modifies bins
      ensures forall i :: 0 <= i < bins.Length ==>
        bins[i] == if begin <= i < end then UpdateBin(entries[..], old(bins[i])) else old(bins[i])
      ensures bins[..] == UpdatedBins(entries[..], old(bins[..]), begin, end)
    {
      var i := begin;
      while i < end
        invariant forall j :: 0 <= j < bins.Length ==>
          bins[j] == if begin <= j < i && j < end then UpdateBin(entries[..], old(bins[j])) else old(bins[j])
      {
        bins[i] := UpdateBin(entries[..], bins[i]);
        i := i + 1;
      }
    }
  }
}
