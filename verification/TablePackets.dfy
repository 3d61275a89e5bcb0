/** The code of the packets of a weak table, and of their set-up, as it runs when nothing
    interferes.  Each method is a run of the protocol: it takes a state of `TableUpdate` that
    describes the memory before the call to the one that describes it after. */
module TablePackets {
  import opened AfterAll
  import opened Arithmetic
  import opened Ranges
  import opened WeakTables
  import opened TableUpdate
  import opened ChunkedTables

  lemma {:induction false} RunConcat(t: Task, s: State, a: seq<Event>, b: seq<Event>)
    requires CanRun(t, s, a) && CanRun(t, Run(t, s, a), b)
    ensures CanRun(t, s, a + b) && Run(t, s, a + b) == Run(t, Run(t, s, a), b)
    decreases |a|
  {
    if a == [] {
      assert a + b == b;
    } else {
      RunConcat(t, Do(t, s, a[0]), a[1..], b);
      assert (a + b)[1..] == a[1..] + b;
    }
  }

  lemma RunCons(t: Task, s: State, ev: Event, evs: seq<Event>)
    requires Enabled(t, s, ev) && CanRun(t, Do(t, s, ev), evs)
    ensures CanRun(t, s, [ev] + evs) && Run(t, s, [ev] + evs) == Run(t, Do(t, s, ev), evs)
  {
    assert ([ev] + evs)[1..] == evs;
  }

  lemma RunSnoc(t: Task, s: State, evs: seq<Event>, ev: Event)
    requires CanRun(t, s, evs) && Enabled(t, Run(t, s, evs), ev)
    ensures CanRun(t, s, evs + [ev]) && Run(t, s, evs + [ev]) == Do(t, Run(t, s, evs), ev)
  {
    RunCons(t, Run(t, s, evs), ev, []);
    RunConcat(t, s, evs, [ev]);
  }

  // ---------- The bucket ----------

  function EntryBag(rs: seq<Range>, pcs: seq<EntryPc>): multiset<Packet>
    requires |rs| == |pcs|
  {
    if pcs == [] then multiset{}
    else (if pcs[0].Queued? then multiset{UpdateTableEntriesParallel(rs[0])} else multiset{})
         + EntryBag(rs[1..], pcs[1..])
  }

  function BinBag(rs: seq<Range>, pcs: seq<BinPc>): multiset<Packet>
    requires |rs| == |pcs|
  {
    if pcs == [] then multiset{}
    else (if pcs[0].InBucket? then multiset{UpdateTableBinsParallel(rs[0])} else multiset{})
         + BinBag(rs[1..], pcs[1..])
  }

  lemma {:induction false} EntryBagUnchanged(rs: seq<Range>, p: seq<EntryPc>, q: seq<EntryPc>)
    requires |rs| == |p| == |q| && forall k :: 0 <= k < |p| ==> (p[k].Queued? <==> q[k].Queued?)
    ensures EntryBag(rs, p) == EntryBag(rs, q)
  {
    if rs == [] {
    } else {
      EntryBagUnchanged(rs[1..], p[1..], q[1..]);
    }
  }

  lemma {:induction false} EntryBagFull(rs: seq<Range>, pcs: seq<EntryPc>)
    requires |rs| == |pcs| && forall k :: 0 <= k < |pcs| ==> pcs[k].Queued?
    ensures EntryBag(rs, pcs) == multiset(EntryPackets(rs))
  {
    if rs == [] {
    } else {
      EntryBagFull(rs[1..], pcs[1..]);
      assert EntryPackets(rs) == [UpdateTableEntriesParallel(rs[0])] + EntryPackets(rs[1..]);
    }
  }

  lemma {:induction false} EntryBagEmpty(rs: seq<Range>, pcs: seq<EntryPc>)
    requires |rs| == |pcs| && forall k :: 0 <= k < |pcs| ==> !pcs[k].Queued?
    ensures EntryBag(rs, pcs) == multiset{}
  {
    if rs == [] {
    } else {
      EntryBagEmpty(rs[1..], pcs[1..]);
    }
  }

  lemma {:induction false} BinBagUnchanged(rs: seq<Range>, p: seq<BinPc>, q: seq<BinPc>)
    requires |rs| == |p| == |q| && forall j :: 0 <= j < |p| ==> (p[j].InBucket? <==> q[j].InBucket?)
    ensures BinBag(rs, p) == BinBag(rs, q)
  {
    if rs == [] {
    } else {
      BinBagUnchanged(rs[1..], p[1..], q[1..]);
    }
  }

  lemma {:induction false} BinBagFull(rs: seq<Range>, pcs: seq<BinPc>)
    requires |rs| == |pcs| && forall j :: 0 <= j < |pcs| ==> pcs[j].InBucket?
    ensures BinBag(rs, pcs) == multiset(BinPackets(rs))
  {
    if rs == [] {
    } else {
      BinBagFull(rs[1..], pcs[1..]);
      assert BinPackets(rs) == [UpdateTableBinsParallel(rs[0])] + BinPackets(rs[1..]);
    }
  }

  lemma {:induction false} BinBagEmpty(rs: seq<Range>, pcs: seq<BinPc>)
    requires |rs| == |pcs| && forall j :: 0 <= j < |pcs| ==> !pcs[j].InBucket?
    ensures BinBag(rs, pcs) == multiset{}
  {
    if rs == [] {
    } else {
      BinBagEmpty(rs[1..], pcs[1..]);
    }
  }

  /** The packets of the table that are in the bucket. */
  ghost function Bag(t: Task, s: State): multiset<Packet>
    requires Shaped(t, s)
  {
    EntryBag(t.entryRanges, s.entryPc) + BinBag(t.binRanges, s.binPc)
  }

  /** `s` describes the table and the barrier; the bucket also holds `others`. */
  ghost predicate Represents(t: Task, s: State, table: WeakTable, afterAll: AfterAll<Packet>, others: multiset<Packet>)
    reads table.entries, table.bins, afterAll, afterAll.stage
  {
    && Shaped(t, s)
    && table.entries[..] == s.entries
    && table.bins[..] == s.bins
    && afterAll.counter == s.counter
    && afterAll.packets == (if s.packets == [] then [] else BinPackets(t.binRanges))
    && afterAll.stage.packets == others + Bag(t, s)
  }

  // ---------- UpdateTableEntriesParallel ----------

  function Visits(k: nat, n: nat): seq<Event> {
    if n == 0 then [] else Visits(k, n - 1) + [VisitEntry(k)]
  }

  function CountDownEvents(counter: Usize, k: nat): seq<Event> {
    if counter == 1 then [FetchSub(k), TakePackets(k), BulkAddBins(k)] else [FetchSub(k)]
  }

  /** The range that packet `k` was given, visited in order. */
  function RangeEvents(r: Range, k: nat): seq<Event> {
    Visits(k, if r.begin < r.end then r.end - r.begin else 0) + [EndEntry(k)]
  }

  /** The range, and then the report to the barrier. */
  function EntryPacketEvents(r: Range, counter: Usize, k: nat): seq<Event> {
    RangeEvents(r, k) + CountDownEvents(counter, k)
  }

  ghost predicate JustStarted(t: Task, s: State, k: nat) {
    && Shaped(t, s) && k < |s.entryPc|
    && t.entryRanges[k].end <= |s.entries|
    && s.entryPc[k] == Running(t.entryRanges[k].begin, 0)
  }

  /** Packet `k` has come to entry `i` without interference. */
  ghost function Reached(t: Task, s: State, k: nat, i: nat): State
    requires JustStarted(t, s, k)
  {
    var begin := t.entryRanges[k].begin;
    s.(entries := Updated(t.update, s.entries, begin, i),
       entryPc := s.entryPc[k := Running(i, Deletions(t.update, s.entries, begin, i))])
  }

  lemma ReachedBegin(t: Task, s: State, k: nat)
    requires JustStarted(t, s, k)
    ensures Reached(t, s, k, t.entryRanges[k].begin) == s
  {
    var i := t.entryRanges[k].begin;
    assert Updated(t.update, s.entries, i, i) == s.entries;
    assert s.entryPc[k := s.entryPc[k]] == s.entryPc;
  }

  lemma VisitNext(t: Task, s: State, k: nat, i: nat)
    requires JustStarted(t, s, k) && t.entryRanges[k].begin <= i < t.entryRanges[k].end
    ensures Enabled(t, Reached(t, s, k, i), VisitEntry(k))
    ensures Do(t, Reached(t, s, k, i), VisitEntry(k)) == Reached(t, s, k, i + 1)
  {
    var s' := Do(t, Reached(t, s, k, i), VisitEntry(k));
    assert s'.entries == Updated(t.update, s.entries, t.entryRanges[k].begin, i + 1);
    assert s'.entryPc == Reached(t, s, k, i + 1).entryPc;
  }

  lemma {:induction false} VisitsRun(t: Task, s: State, k: nat, n: nat)
    requires JustStarted(t, s, k) && (n > 0 ==> t.entryRanges[k].begin + n <= t.entryRanges[k].end)
    ensures CanRun(t, s, Visits(k, n)) && Run(t, s, Visits(k, n)) == Reached(t, s, k, t.entryRanges[k].begin + n)
  {
    if n == 0 {
      ReachedBegin(t, s, k);
    } else {
      VisitsRun(t, s, k, n - 1);
      VisitNext(t, s, k, t.entryRanges[k].begin + n - 1);
      RunSnoc(t, s, Visits(k, n - 1), VisitEntry(k));
    }
  }

  lemma RangeEnds(t: Task, s: State, k: nat)
    requires JustStarted(t, s, k)
    ensures var r := t.entryRanges[k];
            var s1 := Reached(t, s, k, if r.begin < r.end then r.end else r.begin);
            var deleted := Deletions(t.update, s.entries, r.begin, r.end);
            && Enabled(t, s1, EndEntry(k))
            && Do(t, s1, EndEntry(k)) == s.(entries := Updated(t.update, s.entries, r.begin, r.end),
                                            entryPc := s.entryPc[k := RangeDone(deleted)])
  {
    PassOverInverted(t.update, s.entries, t.entryRanges[k].begin, t.entryRanges[k].end);
  }

  lemma RangeRun(t: Task, s: State, k: nat)
    requires JustStarted(t, s, k)
    ensures var r, evs := t.entryRanges[k], RangeEvents(t.entryRanges[k], k);
            var deleted := Deletions(t.update, s.entries, r.begin, r.end);
            CanRun(t, s, evs)
            && Run(t, s, evs) == s.(entries := Updated(t.update, s.entries, r.begin, r.end),
                                    entryPc := s.entryPc[k := RangeDone(deleted)])
  {
    var r := t.entryRanges[k];
    var n := if r.begin < r.end then r.end - r.begin else 0;
    VisitsRun(t, s, k, n);
    RangeEnds(t, s, k);
    RunSnoc(t, s, Visits(k, n), EndEntry(k));
  }

  lemma CountDownRun(t: Task, s: State, k: nat)
    requires Inv(t, s) && k < |s.entryPc| && s.entryPc[k].RangeDone?
    ensures var evs := CountDownEvents(s.counter, k);
            CanRun(t, s, evs)
            && var s' := Run(t, s, evs);
            && Shaped(t, s')
            && s' == s.(counter := FetchSubOne(s.counter),
                        packets := if s.counter == 1 then [] else s.packets,
                        binPc := if s.counter == 1 then Enqueue(s.binPc, t.AllBinPackets()) else s.binPc,
                        entryPc := s.entryPc[k := Finished(s.entryPc[k].deleted, s.counter == 1)])
    ensures s.counter == 1 ==> s.packets == t.AllBinPackets() && NoBinReleased(s)
  {
    PendingExtremes(s.entryPc);
    if s.counter == 1 {
      LastCountRun(t, s, k);
    } else {
      RunCons(t, s, FetchSub(k), []);
    }
  }

  lemma LastCountRun(t: Task, s: State, k: nat)
    requires Shaped(t, s) && k < |s.entryPc| && s.entryPc[k].RangeDone? && s.counter == 1
    ensures var evs := [FetchSub(k), TakePackets(k), BulkAddBins(k)];
            CanRun(t, s, evs)
            && Run(t, s, evs) == s.(counter := 0, packets := [], binPc := Enqueue(s.binPc, s.packets),
                                    entryPc := s.entryPc[k := Finished(s.entryPc[k].deleted, true)])
  {
    var s1 := Do(t, s, FetchSub(k));
    var s2 := Do(t, s1, TakePackets(k));
    var s3 := Do(t, s2, BulkAddBins(k));
    RunCons(t, s2, BulkAddBins(k), []);
    RunCons(t, s1, TakePackets(k), [BulkAddBins(k)]);
    RunCons(t, s, FetchSub(k), [TakePackets(k), BulkAddBins(k)]);
    assert [FetchSub(k)] + ([TakePackets(k)] + [BulkAddBins(k)]) == [FetchSub(k), TakePackets(k), BulkAddBins(k)];
    assert s3.entryPc == s.entryPc[k := Finished(s.entryPc[k].deleted, true)];
  }

  /** Nothing of the bucket changes, except that the last count puts in the bin packets. */
  lemma CountDownBag(t: Task, s: State, k: nat)
    requires Inv(t, s) && k < |s.entryPc| && s.entryPc[k].RangeDone?
    ensures var evs := CountDownEvents(s.counter, k);
            CanRun(t, s, evs) && Shaped(t, Run(t, s, evs))
            && Bag(t, Run(t, s, evs))
               == Bag(t, s) + if s.counter == 1 then multiset(BinPackets(t.binRanges)) else multiset{}
  {
    CountDownRun(t, s, k);
    var s' := Run(t, s, CountDownEvents(s.counter, k));
    EntryBagUnchanged(t.entryRanges, s.entryPc, s'.entryPc);
    if s.counter == 1 {
      BinBagEmpty(t.binRanges, s.binPc);
      forall j | 0 <= j < |s.binPc| ensures s'.binPc[j].InBucket? {
        assert t.AllBinPackets()[j] == j;
      }
      BinBagFull(t.binRanges, s'.binPc);
    }
  }

  /** What that run does to the memory. */
  lemma CountDownMemory(t: Task, s: State, k: nat)
    requires Inv(t, s) && k < |s.entryPc| && s.entryPc[k].RangeDone?
    ensures var evs, last := CountDownEvents(s.counter, k), s.counter == 1;
            CanRun(t, s, evs)
            && var s' := Run(t, s, evs);
            && Shaped(t, s') && s'.entries == s.entries && s'.bins == s.bins
            && s'.counter == FetchSubOne(s.counter)
            && s'.packets == (if last then [] else s.packets)
            && Bag(t, s') == Bag(t, s) + if last then multiset(BinPackets(t.binRanges)) else multiset{}
    ensures s.counter == 1 ==> (s.packets == [] <==> BinPackets(t.binRanges) == [])
  {
    CountDownRun(t, s, k);
    CountDownBag(t, s, k);
  }

  /** The barrier may be told only once the whole range has been updated. */
  method SignalRangeDone(table: WeakTable, afterAll: AfterAll<Packet>,
                         ghost t: Task, ghost s: State, ghost k: nat, ghost others: multiset<Packet>)
    returns (last: bool)
    requires Inv(t, s) && k < |s.entryPc| && s.entryPc[k].RangeDone? && Represents(t, s, table, afterAll, others)
    modifies afterAll, afterAll.stage
    ensures last <==> s.counter == 1
    ensures CanRun(t, s, CountDownEvents(s.counter, k))
    ensures Represents(t, Run(t, s, CountDownEvents(s.counter, k)), table, afterAll, others)
  {
    CountDownMemory(t, s, k);
    last := afterAll.CountDown();
  }

  /** The state between updating the range and the report, and the run as a whole. */
  lemma EntryPacketRun(t: Task, s: State, k: nat) returns (s1: State)
    requires Inv(t, s) && JustStarted(t, s, k)
    ensures var r := t.entryRanges[k];
            var deleted := Deletions(t.update, s.entries, r.begin, r.end);
            && Inv(t, s1) && Bag(t, s1) == Bag(t, s)
            && s1 == s.(entries := Updated(t.update, s.entries, r.begin, r.end),
                        entryPc := s.entryPc[k := RangeDone(deleted)])
            && CanRun(t, s1, CountDownEvents(s.counter, k))
            && CanRun(t, s, EntryPacketEvents(r, s.counter, k))
            && Run(t, s, EntryPacketEvents(r, s.counter, k)) == Run(t, s1, CountDownEvents(s.counter, k))
            && Run(t, s1, CountDownEvents(s.counter, k)).entryPc == s.entryPc[k := Finished(deleted, s.counter == 1)]
  {
    var r := t.entryRanges[k];
    RangeRun(t, s, k);
    RunInv(t, s, RangeEvents(r, k));
    s1 := Run(t, s, RangeEvents(r, k));
    EntryBagUnchanged(t.entryRanges, s.entryPc, s1.entryPc);
    CountDownRun(t, s1, k);
    RunConcat(t, s, RangeEvents(r, k), CountDownEvents(s.counter, k));
  }

  /** UpdateTableEntriesParallel::do_work, from the moment the worker has taken the packet. */
  method DoEntriesWork(table: WeakTable, range: Range, update: Slot -> Slot, afterAll: AfterAll<Packet>,
                       ghost t: Task, ghost s: State, ghost k: nat, ghost others: multiset<Packet>)
    returns (deleted: nat, last: bool)
    requires Inv(t, s) && Represents(t, s, table, afterAll, others)
    requires JustStarted(t, s, k) && range == t.entryRanges[k] && update == t.update
    modifies table.entries, afterAll, afterAll.stage
    ensures deleted == Deletions(update, old(table.entries[..]), range.begin, range.end)
    ensures last <==> old(afterAll.counter) == 1
    ensures var evs := EntryPacketEvents(range, s.counter, k);
            && CanRun(t, s, evs)
            && Represents(t, Run(t, s, evs), table, afterAll, others)
            && Run(t, s, evs).entryPc == s.entryPc[k := Finished(deleted, last)]
  {
    deleted := table.UpdateEntriesRange(range.begin, range.end, update);
    ghost var s1 := EntryPacketRun(t, s, k);
    last := SignalRangeDone(table, afterAll, t, s1, k, others);
  }

  // ---------- UpdateTableBinsParallel ----------

  function BinVisitEvents(j: nat, n: nat): seq<Event> {
    if n == 0 then [] else BinVisitEvents(j, n - 1) + [ReadBin(j), WriteBin(j)]
  }

  function BinPacketEvents(r: Range, j: nat): seq<Event> {
    BinVisitEvents(j, if r.begin < r.end then r.end - r.begin else 0) + [EndBin(j)]
  }

  ghost predicate BinJustStarted(t: Task, s: State, j: nat) {
    && Shaped(t, s) && j < |s.binPc|
    && t.binRanges[j].end <= |s.bins|
    && s.binPc[j] == Visiting(t.binRanges[j].begin)
  }

  ghost function BinReached(t: Task, s: State, j: nat, i: nat): State
    requires BinJustStarted(t, s, j)
  {
    s.(bins := UpdatedBins(s.entries, s.bins, t.binRanges[j].begin, i), binPc := s.binPc[j := Visiting(i)])
  }

  lemma BinVisitRun(t: Task, s: State, j: nat, i: nat)
    requires BinJustStarted(t, s, j) && t.binRanges[j].begin <= i < t.binRanges[j].end
    ensures CanRun(t, BinReached(t, s, j, i), [ReadBin(j), WriteBin(j)])
    ensures Run(t, BinReached(t, s, j, i), [ReadBin(j), WriteBin(j)]) == BinReached(t, s, j, i + 1)
  {
    var s0 := BinReached(t, s, j, i);
    var s1 := Do(t, s0, ReadBin(j));
    var s2 := Do(t, s1, WriteBin(j));
    RunCons(t, s1, WriteBin(j), []);
    RunCons(t, s0, ReadBin(j), [WriteBin(j)]);
    assert [ReadBin(j)] + [WriteBin(j)] == [ReadBin(j), WriteBin(j)];
    assert s2.bins == UpdatedBins(s.entries, s.bins, t.binRanges[j].begin, i + 1);
    assert s2.binPc == s.binPc[j := Visiting(i + 1)];
  }

  lemma BinReachedBegin(t: Task, s: State, j: nat)
    requires BinJustStarted(t, s, j)
    ensures BinReached(t, s, j, t.binRanges[j].begin) == s
  {
    var i := t.binRanges[j].begin;
    assert UpdatedBins(s.entries, s.bins, i, i) == s.bins;
    assert s.binPc[j := s.binPc[j]] == s.binPc;
  }

  lemma BinVisitNext(t: Task, s: State, j: nat, evs: seq<Event>, i: nat)
    requires BinJustStarted(t, s, j) && t.binRanges[j].begin <= i < t.binRanges[j].end
    requires CanRun(t, s, evs) && Run(t, s, evs) == BinReached(t, s, j, i)
    ensures CanRun(t, s, evs + [ReadBin(j), WriteBin(j)])
    ensures Run(t, s, evs + [ReadBin(j), WriteBin(j)]) == BinReached(t, s, j, i + 1)
  {
    BinVisitRun(t, s, j, i);
    RunConcat(t, s, evs, [ReadBin(j), WriteBin(j)]);
  }

  lemma {:induction false} BinVisitsRun(t: Task, s: State, j: nat, n: nat)
    requires BinJustStarted(t, s, j) && (n > 0 ==> t.binRanges[j].begin + n <= t.binRanges[j].end)
    ensures CanRun(t, s, BinVisitEvents(j, n))
    ensures Run(t, s, BinVisitEvents(j, n)) == BinReached(t, s, j, t.binRanges[j].begin + n)
  {
    if n == 0 {
      BinReachedBegin(t, s, j);
    } else {
      BinVisitsRun(t, s, j, n - 1);
      BinVisitNext(t, s, j, BinVisitEvents(j, n - 1), t.binRanges[j].begin + n - 1);
    }
  }

  lemma BinRangeEnds(t: Task, s: State, j: nat)
    requires BinJustStarted(t, s, j)
    ensures var r := t.binRanges[j];
            var s1 := BinReached(t, s, j, if r.begin < r.end then r.end else r.begin);
            && Enabled(t, s1, EndBin(j))
            && Do(t, s1, EndBin(j)) == s.(bins := UpdatedBins(s.entries, s.bins, r.begin, r.end),
                                          binPc := s.binPc[j := Done])
  {
    BinPassOverInverted(s.entries, s.bins, t.binRanges[j].begin, t.binRanges[j].end);
  }

  lemma BinPacketRun(t: Task, s: State, j: nat)
    requires BinJustStarted(t, s, j)
    ensures var r, evs := t.binRanges[j], BinPacketEvents(t.binRanges[j], j);
            CanRun(t, s, evs)
            && Run(t, s, evs) == s.(bins := UpdatedBins(s.entries, s.bins, r.begin, r.end), binPc := s.binPc[j := Done])
  {
    var r := t.binRanges[j];
    var n := if r.begin < r.end then r.end - r.begin else 0;
    BinVisitsRun(t, s, j, n);
    BinRangeEnds(t, s, j);
    RunSnoc(t, s, BinVisitEvents(j, n), EndBin(j));
  }

  /** UpdateTableBinsParallel::do_work, from the moment the worker has taken the packet. */
  method DoBinsWork(table: WeakTable, range: Range,
                    ghost t: Task, ghost s: State, ghost j: nat,
                    ghost afterAll: AfterAll<Packet>, ghost others: multiset<Packet>)
    requires Represents(t, s, table, afterAll, others)
    requires BinJustStarted(t, s, j) && range == t.binRanges[j]
    modifies table.bins
    ensures table.bins[..] == UpdatedBins(table.entries[..], old(table.bins[..]), range.begin, range.end)
    ensures CanRun(t, s, BinPacketEvents(range, j))
    ensures Represents(t, Run(t, s, BinPacketEvents(range, j)), table, afterAll, others)
    ensures Run(t, s, BinPacketEvents(range, j)).binPc == s.binPc[j := Done]
  {
    table.UpdateBinsRange(range.begin, range.end);
    BinPacketRun(t, s, j);
    BinBagUnchanged(t.binRanges, s.binPc, s.binPc[j := Done]);
  }

  // ---------- process_weak_table_chunked ----------

  const SETUP_EVENTS: seq<Event> := [CountUp, AddPackets, BulkAddEntries]

  lemma SetupRun(t: Task)
    ensures CanRun(t, Init(t), SETUP_EVENTS)
    ensures var s := Run(t, Init(t), SETUP_EVENTS);
            && s == Init(t).(setup := Setup.Published, counter := FetchAdd(0, |t.entryRanges|),
                             packets := t.AllBinPackets(), entryPc := seq(|t.entryRanges|, k => Queued))
            && Bag(t, s) == multiset(EntryPackets(t.entryRanges))
  {
    var s0 := Init(t);
    var s1 := Do(t, s0, CountUp);
    var s2 := Do(t, s1, AddPackets);
    assert s2.packets == t.AllBinPackets();
    var s3 := Do(t, s2, BulkAddEntries);
    RunCons(t, s2, BulkAddEntries, []);
    RunCons(t, s1, AddPackets, [BulkAddEntries]);
    RunCons(t, s0, CountUp, [AddPackets, BulkAddEntries]);
    assert [CountUp] + ([AddPackets] + [BulkAddEntries]) == SETUP_EVENTS;
    EntryBagFull(t.entryRanges, s3.entryPc);
    BinBagEmpty(t.binRanges, s3.binPc);
  }

  /** The entry packets may be published only when the barrier is armed for all of them. */
  method PublishEntryPackets(cfg: Config, afterAll: AfterAll<Packet>, bucket: WorkBucket<Packet>, ranges: seq<Range>)
    requires cfg.entriesChunkSize > 0 && ranges == cfg.EntryRanges()
    requires afterAll.counter == FetchAdd(0, |ranges|) && afterAll.packets == BinPackets(cfg.BinRanges())
    modifies bucket
    ensures bucket.packets == old(bucket.packets) + multiset(EntryPackets(ranges))
  {
    bucket.BulkAdd(EntryPackets(ranges));
  }

  /** Packet `k` begins `k` entry chunks on and ends one bin chunk further, if it exists. */
  predicate BinPacketAt(cfg: Config, packets: seq<Packet>, k: nat) {
    var begin := k * cfg.entriesChunkSize;
    && (k < |packets| <==> begin < |cfg.bins|)
    && (k < |packets| ==>
          packets[k]
            == UpdateTableBinsParallel(Range(begin, Min((begin + cfg.binsChunkSize) % USIZE_VALUES, |cfg.bins|))))
  }

  lemma BinPacketsStored(cfg: Config)
    requires cfg.entriesChunkSize > 0
    ensures forall k: nat :: BinPacketAt(cfg, BinPackets(cfg.BinRanges()), k)
  {
    forall k: nat ensures BinPacketAt(cfg, BinPackets(cfg.BinRanges()), k) {
      StepRangesAt(0, |cfg.bins|, cfg.entriesChunkSize, cfg.binsChunkSize, k);
    }
  }

  /** The set-up: count up, store the bin packets, and only then publish the entry packets. */
  method ProcessWeakTableChunked(cfg: Config, table: WeakTable, bucket: WorkBucket<Packet>)
    returns (afterAll: AfterAll<Packet>)
    requires cfg.entriesChunkSize > 0 && cfg.entries == table.entries[..] && cfg.bins == table.bins[..]
    modifies bucket
    ensures fresh(afterAll) && afterAll.stage == bucket
    ensures afterAll.counter == FetchAdd(0, |cfg.EntryRanges()|)
    ensures forall k: nat :: BinPacketAt(cfg, afterAll.packets, k)
    ensures afterAll.packets == BinPackets(cfg.BinRanges())
    ensures bucket.packets == old(bucket.packets) + multiset(EntryPackets(cfg.EntryRanges()))
    ensures var t := cfg.AsTask();
            && CanRun(t, Init(t), SETUP_EVENTS)
            && Represents(t, Run(t, Init(t), SETUP_EVENTS), table, afterAll, old(bucket.packets))
  {
    afterAll := new AfterAll(bucket);
    var entryRanges := CollectRanges(cfg.entriesStart, cfg.entriesBound, cfg.entriesChunkSize, cfg.entriesChunkSize);
    afterAll.CountUp(|entryRanges|);
    var binRanges := CollectRanges(0, |cfg.bins|, cfg.entriesChunkSize, cfg.binsChunkSize);
    afterAll.AddPackets(BinPackets(binRanges));
    PublishEntryPackets(cfg, afterAll, bucket, entryRanges);
    BinPacketsStored(cfg);
    SetupRun(cfg.AsTask());
  }
}
