/** weak_proc.rs, `process_weak_table_chunked`: the entries of a weak table are updated by
    parallel packets over ranges, and the last of them to finish releases the packets that
    update the bins.  The protocol is modelled one atomic action at a time: every table
    element visited, every access to the shared counter, the emptying of the packet cell
    and the addition to the bucket is an event, and events of different packets interleave
    without restriction. */
module TableUpdate {
  import opened AfterAll
  import opened Arithmetic
  import opened Ranges
  import opened WeakTables

  /** One table to process.  `update` is what `st_update_entries_range` does to one entry. */
  datatype Task = Task(
    entryRanges: seq<Range>,
    binRanges: seq<Range>,
    update: Slot -> Slot,
    entries: seq<Slot>,
    bins: seq<Bin>)
  {
    /** No two entry ranges overlap.  Any range may be inverted, and entries may be left out. */
    ghost predicate Valid() {
      && (forall i: nat :: Hits(entryRanges, i) <= 1)
      && (forall k :: 0 <= k < |entryRanges| ==> entryRanges[k].end <= |entries|)
      && |entryRanges| < USIZE_VALUES
      && (forall j :: 0 <= j < |binRanges| ==> binRanges[j].end <= |bins|)
    }

    /** The entries after one sequential pass over those that some range holds. */
    function FinalEntries(): seq<Slot> {
      seq(|entries|, i requires 0 <= i < |entries| =>
            if Hits(entryRanges, i) > 0 then update(entries[i]) else entries[i])
    }

    function FinalDeletions(): nat {
      DeletionsIn(update, entries, entryRanges, |entries|)
    }

    function NewBin(i: nat): Bin
      requires i < |bins|
    {
      UpdateBin(FinalEntries(), bins[i])
    }

    function AllBinPackets(): seq<nat> {
      seq(|binRanges|, j => j)
    }
  }

  // ---------- The state of the protocol ----------

  /** How far `process_weak_table_chunked` itself has come. */
  datatype Setup = Created | Counted | Armed | Published

  datatype EntryPc =
    | Unqueued
    | Queued
    | Running(next: nat, deleted: nat)
    | RangeDone(deleted: nat)
    | Last(deleted: nat)                          // its fetch_sub returned 1
    | Holding(packets: seq<nat>, deleted: nat)    // it has emptied the packet cell
    | Finished(deleted: nat, last: bool)

  /** Bin packets can overlap, so reading a bin and writing it back are two actions. */
  datatype BinPc = Waiting | InBucket | Visiting(next: nat) | Updating(next: nat, bin: Bin) | Done

  datatype State = State(
    setup: Setup,
    counter: Usize,
    packets: seq<nat>,
    entryPc: seq<EntryPc>,
    binPc: seq<BinPc>,
    entries: seq<Slot>,
    bins: seq<Bin>)

  datatype Event =
    | CountUp | AddPackets | BulkAddEntries
    | StartEntry(k: nat) | VisitEntry(k: nat) | EndEntry(k: nat)
    | FetchSub(k: nat) | TakePackets(k: nat) | BulkAddBins(k: nat)
    | StartBin(j: nat) | ReadBin(j: nat) | WriteBin(j: nat) | EndBin(j: nat)

  function Init(t: Task): State {
    State(Created, 0, [], seq(|t.entryRanges|, k => Unqueued), seq(|t.binRanges|, j => Waiting), t.entries, t.bins)
  }

  ghost predicate Shaped(t: Task, s: State) {
    && |s.entryPc| == |t.entryRanges|
    && |s.binPc| == |t.binRanges|
    && |s.entries| == |t.entries|
    && |s.bins| == |t.bins|
  }

  ghost predicate Enabled(t: Task, s: State, ev: Event) {
    && Shaped(t, s)
    && match ev
       case CountUp => s.setup.Created?
       case AddPackets => s.setup.Counted?
       case BulkAddEntries => s.setup.Armed?
       case StartEntry(k) => k < |s.entryPc| && s.entryPc[k].Queued?
       case VisitEntry(k) => k < |s.entryPc| && s.entryPc[k].Running?
                             && s.entryPc[k].next < t.entryRanges[k].end && s.entryPc[k].next < |s.entries|
       case EndEntry(k) => k < |s.entryPc| && s.entryPc[k].Running? && s.entryPc[k].next >= t.entryRanges[k].end
       case FetchSub(k) => k < |s.entryPc| && s.entryPc[k].RangeDone?
       case TakePackets(k) => k < |s.entryPc| && s.entryPc[k].Last?
       case BulkAddBins(k) => k < |s.entryPc| && s.entryPc[k].Holding?
       case StartBin(j) => j < |s.binPc| && s.binPc[j].InBucket?
       case ReadBin(j) => j < |s.binPc| && s.binPc[j].Visiting?
                          && s.binPc[j].next < t.binRanges[j].end && s.binPc[j].next < |s.bins|
       case WriteBin(j) => j < |s.binPc| && s.binPc[j].Updating? && s.binPc[j].next < |s.bins|
       case EndBin(j) => j < |s.binPc| && s.binPc[j].Visiting? && s.binPc[j].next >= t.binRanges[j].end
  }

  function Enqueue(pc: seq<BinPc>, ids: seq<nat>): seq<BinPc> {
    seq(|pc|, j requires 0 <= j < |pc| => if j in ids then InBucket else pc[j])
  }

  ghost function Do(t: Task, s: State, ev: Event): State
    requires Enabled(t, s, ev)
  {
    match ev
    case CountUp => s.(setup := Counted, counter := FetchAdd(s.counter, |s.entryPc|))
    case AddPackets => s.(setup := Armed, packets := s.packets + t.AllBinPackets())
    case BulkAddEntries => s.(setup := Setup.Published, entryPc := seq(|s.entryPc|, k => Queued))
    case StartEntry(k) => s.(entryPc := s.entryPc[k := Running(t.entryRanges[k].begin, 0)])
    case VisitEntry(k) =>
      var i, d := s.entryPc[k].next, s.entryPc[k].deleted;
      s.(entries := s.entries[i := t.update(s.entries[i])],
         entryPc := s.entryPc[k := Running(i + 1, if IsDeletion(t.update, s.entries[i]) then d + 1 else d)])
    case EndEntry(k) => s.(entryPc := s.entryPc[k := RangeDone(s.entryPc[k].deleted)])
    case FetchSub(k) =>
      var d := s.entryPc[k].deleted;
      s.(counter := FetchSubOne(s.counter),
         entryPc := s.entryPc[k := if s.counter == 1 then Last(d) else Finished(d, false)])
    case TakePackets(k) => s.(packets := [], entryPc := s.entryPc[k := Holding(s.packets, s.entryPc[k].deleted)])
    case BulkAddBins(k) =>
      s.(binPc := Enqueue(s.binPc, s.entryPc[k].packets),
         entryPc := s.entryPc[k := Finished(s.entryPc[k].deleted, true)])
    case StartBin(j) => s.(binPc := s.binPc[j := Visiting(t.binRanges[j].begin)])
    case ReadBin(j) => s.(binPc := s.binPc[j := Updating(s.binPc[j].next, s.bins[s.binPc[j].next])])
    case WriteBin(j) =>
      var i := s.binPc[j].next;
      s.(bins := s.bins[i := UpdateBin(s.entries, s.binPc[j].bin)], binPc := s.binPc[j := Visiting(i + 1)])
    case EndBin(j) => s.(binPc := s.binPc[j := Done])
  }

  /** There is no other synchronisation: what packet `k` can do next depends on nothing but how far
      it has come itself, so the interleaving of the packets is arbitrary. */
  lemma PacketsAreIndependent(t: Task, s: State, s': State, k: nat)
    requires Shaped(t, s) && Shaped(t, s')
    ensures k < |s.entryPc| && s.entryPc[k] == s'.entryPc[k] ==>
      forall ev :: ev in {StartEntry(k), VisitEntry(k), EndEntry(k), FetchSub(k), TakePackets(k), BulkAddBins(k)} ==>
        (Enabled(t, s, ev) <==> Enabled(t, s', ev))
    ensures k < |s.binPc| && s.binPc[k] == s'.binPc[k] ==>
      forall ev :: ev in {StartBin(k), ReadBin(k), WriteBin(k), EndBin(k)} ==>
        (Enabled(t, s, ev) <==> Enabled(t, s', ev))
  {
  }

  ghost predicate CanRun(t: Task, s: State, evs: seq<Event>)
    decreases |evs|
  {
    evs != [] ==> Enabled(t, s, evs[0]) && CanRun(t, Do(t, s, evs[0]), evs[1..])
  }

  ghost function Run(t: Task, s: State, evs: seq<Event>): State
    requires CanRun(t, s, evs)
    decreases |evs|
  {
    if evs == [] then s else Run(t, Do(t, s, evs[0]), evs[1..])
  }

  ghost predicate Quiescent(t: Task, s: State) {
    forall ev :: !Enabled(t, s, ev)
  }

  // ---------- The invariant ----------

  predicate Pending(pc: EntryPc) {
    pc.Unqueued? || pc.Queued? || pc.Running? || pc.RangeDone?
  }

  function PendingCount(pcs: seq<EntryPc>): nat {
    if pcs == [] then 0 else (if Pending(pcs[0]) then 1 else 0) + PendingCount(pcs[1..])
  }

  /** The packet whose `fetch_sub` brought the counter to zero. */
  predicate Winner(pc: EntryPc) {
    pc.Last? || pc.Holding? || (pc.Finished? && pc.last)
  }

  function Progress(pc: EntryPc, r: Range): nat {
    match pc
    case Unqueued => r.begin
    case Queued => r.begin
    case Running(next, _) => next
    case _ => r.end
  }

  ghost predicate EntryOk(t: Task, s: State, k: nat)
    requires Shaped(t, s) && k < |s.entryPc|
  {
    var r, pc := t.entryRanges[k], s.entryPc[k];
    var done := Progress(pc, r);
    && r.end <= |t.entries|
    && (pc.Running? ==> r.begin <= done && (done == r.begin || done <= r.end))
    && (forall i: nat :: r.Has(i) ==> s.entries[i] == if i < done then t.update(t.entries[i]) else t.entries[i])
    && (!pc.Unqueued? && !pc.Queued? ==> pc.deleted == Deletions(t.update, t.entries, r.begin, done))
  }

  ghost predicate NoBinReleased(s: State) {
    forall j :: 0 <= j < |s.binPc| ==> s.binPc[j].Waiting?
  }

  ghost predicate AllBinsReleased(s: State) {
    forall j :: 0 <= j < |s.binPc| ==> !s.binPc[j].Waiting?
  }

  /** Where the bin packets are once packet `w` has brought the counter to zero. */
  ghost predicate HandedOver(t: Task, s: State, w: nat)
    requires w < |s.entryPc|
  {
    && (forall k :: 0 <= k < |s.entryPc| && k != w ==> s.entryPc[k].Finished? && !s.entryPc[k].last)
    && match s.entryPc[w]
       case Last(_) => s.packets == t.AllBinPackets() && NoBinReleased(s)
       case Holding(held, _) => s.packets == [] && held == t.AllBinPackets() && NoBinReleased(s)
       case Finished(_, last) => last && s.packets == [] && AllBinsReleased(s)
       case _ => false
  }

  ghost predicate SetupOk(s: State) {
    forall k :: 0 <= k < |s.entryPc| ==> (s.entryPc[k].Unqueued? <==> !s.setup.Published?)
  }

  ghost predicate PacketsOk(t: Task, s: State) {
    if PendingCount(s.entryPc) > 0 || |s.entryPc| == 0 || !s.setup.Published? then
      && s.packets == (if s.setup.Created? || s.setup.Counted? then [] else t.AllBinPackets())
      && NoBinReleased(s)
      && (forall k :: 0 <= k < |s.entryPc| ==> !Winner(s.entryPc[k]))
      && (forall k :: 0 <= k < |s.entryPc| ==> Pending(s.entryPc[k]) || s.entryPc[k].Finished?)
    else
      exists w :: 0 <= w < |s.entryPc| && HandedOver(t, s, w)
  }

  ghost predicate BinsOk(t: Task, s: State)
    requires Shaped(t, s)
  {
    && (forall i :: 0 <= i < |s.bins| ==> s.bins[i] == t.bins[i] || s.bins[i] == t.NewBin(i))
    && (forall i :: 0 <= i < |s.bins| && Hits(t.binRanges, i) == 0 ==> s.bins[i] == t.bins[i])
    && (NoBinReleased(s) ==> s.bins == t.bins)
  }

  ghost predicate BinOk(t: Task, s: State, j: nat)
    requires Shaped(t, s) && j < |s.binPc| && t.binRanges[j].end <= |t.bins|
  {
    var r := t.binRanges[j];
    match s.binPc[j]
    case Visiting(next) => r.begin <= next && forall i: nat :: r.Has(i) && i < next ==> s.bins[i] == t.NewBin(i)
    case Updating(next, bin) =>
      && r.Has(next) && (bin == t.bins[next] || bin == t.NewBin(next))
      && forall i: nat :: r.Has(i) && i < next ==> s.bins[i] == t.NewBin(i)
    case Done => forall i: nat :: r.Has(i) ==> s.bins[i] == t.NewBin(i)
    case _ => true
  }

  /** The counter, the packet cell and the hand-over. */
  ghost predicate BarrierOk(t: Task, s: State) {
    && SetupOk(s)
    && s.counter == (if s.setup.Created? then 0 else PendingCount(s.entryPc))
    && PacketsOk(t, s)
  }

  /** The table. */
  ghost predicate DataOk(t: Task, s: State)
    requires t.Valid() && Shaped(t, s)
  {
    && (forall k :: 0 <= k < |s.entryPc| ==> EntryOk(t, s, k))
    && (forall i: nat :: i < |s.entries| && Hits(t.entryRanges, i) == 0 ==> s.entries[i] == t.entries[i])
    && BinsOk(t, s)
    && (forall j :: 0 <= j < |s.binPc| ==> BinOk(t, s, j))
  }

  ghost predicate Inv(t: Task, s: State) {
    t.Valid() && Shaped(t, s) && BarrierOk(t, s) && DataOk(t, s)
  }

  lemma {:induction false} PendingUpdate(pcs: seq<EntryPc>, k: nat, pc: EntryPc)
    requires k < |pcs|
    ensures PendingCount(pcs[k := pc]) + (if Pending(pcs[k]) then 1 else 0)
         == PendingCount(pcs) + (if Pending(pc) then 1 else 0)
  {
    if k == 0 {
      assert pcs[k := pc][1..] == pcs[1..];
    } else {
      PendingUpdate(pcs[1..], k - 1, pc);
      assert pcs[k := pc][1..] == pcs[1..][k - 1 := pc];
    }
  }

  lemma {:induction false} PendingExtremes(pcs: seq<EntryPc>)
    ensures PendingCount(pcs) == 0 <==> forall k :: 0 <= k < |pcs| ==> !Pending(pcs[k])
    ensures PendingCount(pcs) <= |pcs|
    ensures (forall k :: 0 <= k < |pcs| ==> Pending(pcs[k])) ==> PendingCount(pcs) == |pcs|
  {
    if pcs == [] {
    } else {
      PendingExtremes(pcs[1..]);
      assert forall k :: 1 <= k < |pcs| ==> pcs[k] == pcs[1..][k - 1];
    }
  }

  lemma InitInv(t: Task)
    requires t.Valid()
    ensures Inv(t, Init(t))
  {
    var s := Init(t);
    PendingExtremes(s.entryPc);
  }

  lemma SetupStep(t: Task, s: State, ev: Event)
    requires Inv(t, s) && Enabled(t, s, ev)
    requires ev.CountUp? || ev.AddPackets? || ev.BulkAddEntries?
    ensures Inv(t, Do(t, s, ev))
  {
    var s' := Do(t, s, ev);
    PendingExtremes(s.entryPc);
    PendingExtremes(s'.entryPc);
    assert s.entryPc == [] ==> s'.entryPc == [];
    forall k | 0 <= k < |s'.entryPc| ensures EntryOk(t, s', k) {
      assert EntryOk(t, s, k);
    }
    forall j | 0 <= j < |s'.binPc| ensures BinOk(t, s', j) {
      assert BinOk(t, s, j);
    }
  }

  /** A step of packet `k` leaves the other packets' ranges as they are. */
  lemma OtherEntriesOk(t: Task, s: State, ev: Event, k: nat, l: nat)
    requires Inv(t, s) && Enabled(t, s, ev) && l != k && l < |s.entryPc|
    requires ev in {StartEntry(k), VisitEntry(k), EndEntry(k)}
    ensures EntryOk(t, Do(t, s, ev), l)
  {
    assert EntryOk(t, s, l) && EntryOk(t, s, k);
    if ev.VisitEntry? && t.entryRanges[l].Has(s.entryPc[k].next) {
      HitsTwice(t.entryRanges, if l < k then l else k, if l < k then k else l, s.entryPc[k].next);
      assert false;
    }
  }

  /** The packet itself writes only in its range. */
  lemma OwnEntriesOk(t: Task, s: State, ev: Event, k: nat)
    requires Enabled(t, s, ev) && ev in {StartEntry(k), VisitEntry(k), EndEntry(k)} && EntryOk(t, s, k)
    ensures var s' := Do(t, s, ev);
            && Shaped(t, s') && EntryOk(t, s', k)
            && forall i: nat :: i < |s.entries| && Hits(t.entryRanges, i) == 0 ==> s'.entries[i] == s.entries[i]
  {
    if ev.VisitEntry? {
      assert t.entryRanges[k].Has(s.entryPc[k].next);
      HitsWitness(t.entryRanges, s.entryPc[k].next);
    }
  }

  /** A step of packet `k` that leaves it pending and the counter alone. */
  lemma EntryStep(t: Task, s: State, ev: Event, k: nat)
    requires Inv(t, s) && Enabled(t, s, ev) && ev in {StartEntry(k), VisitEntry(k), EndEntry(k)}
    ensures Inv(t, Do(t, s, ev))
  {
    var s' := Do(t, s, ev);
    assert BarrierOk(t, s') by {
      PendingUpdate(s.entryPc, k, s'.entryPc[k]);
      PendingExtremes(s.entryPc);
    }
    EntryStepData(t, s, ev, k);
  }

  lemma EntryStepData(t: Task, s: State, ev: Event, k: nat)
    requires Inv(t, s) && Enabled(t, s, ev) && ev in {StartEntry(k), VisitEntry(k), EndEntry(k)}
    ensures Shaped(t, Do(t, s, ev)) && DataOk(t, Do(t, s, ev))
  {
    var s' := Do(t, s, ev);
    OwnEntriesOk(t, s, ev, k);
    forall l | 0 <= l < |s'.entryPc| && l != k ensures EntryOk(t, s', l) {
      OtherEntriesOk(t, s, ev, k, l);
    }
    forall j | 0 <= j < |s'.binPc| ensures BinOk(t, s', j) {
      assert BinOk(t, s, j);
    }
  }

  lemma CountDownStep(t: Task, s: State, ev: Event, k: nat)
    requires Inv(t, s) && Enabled(t, s, ev)
    requires ev in {FetchSub(k), TakePackets(k), BulkAddBins(k)}
    ensures Inv(t, Do(t, s, ev))
  {
    CountDownBarrier(t, s, ev, k);
    var s' := Do(t, s, ev);
    forall l | 0 <= l < |s'.entryPc| ensures EntryOk(t, s', l) {
      assert EntryOk(t, s, l);
    }
    forall j | 0 <= j < |s'.binPc| ensures BinOk(t, s', j) {
      assert BinOk(t, s, j);
    }
  }

  lemma FetchSubBarrier(t: Task, s: State, k: nat)
    requires Shaped(t, s) && BarrierOk(t, s) && Enabled(t, s, FetchSub(k))
    ensures BarrierOk(t, Do(t, s, FetchSub(k)))
  {
    var s' := Do(t, s, FetchSub(k));
    PendingUpdate(s.entryPc, k, s'.entryPc[k]);
    PendingExtremes(s.entryPc);
    PendingExtremes(s'.entryPc);
    if PendingCount(s'.entryPc) == 0 {
      assert HandedOver(t, s', k);
    }
  }

  lemma TakePacketsBarrier(t: Task, s: State, k: nat)
    requires Shaped(t, s) && BarrierOk(t, s) && Enabled(t, s, TakePackets(k))
    ensures BarrierOk(t, Do(t, s, TakePackets(k)))
  {
    var s' := Do(t, s, TakePackets(k));
    PendingUpdate(s.entryPc, k, s'.entryPc[k]);
    PendingExtremes(s.entryPc);
    assert HandedOver(t, s', k);
  }

  lemma BulkAddBarrier(t: Task, s: State, k: nat)
    requires Shaped(t, s) && BarrierOk(t, s) && Enabled(t, s, BulkAddBins(k))
    ensures BarrierOk(t, Do(t, s, BulkAddBins(k)))
    ensures !NoBinReleased(s) ==> !NoBinReleased(Do(t, s, BulkAddBins(k)))
  {
    var s' := Do(t, s, BulkAddBins(k));
    PendingUpdate(s.entryPc, k, s'.entryPc[k]);
    PendingExtremes(s.entryPc);
    forall j | 0 <= j < |s'.binPc| ensures s'.binPc[j].InBucket? {
      assert t.AllBinPackets()[j] == j;
    }
    assert HandedOver(t, s', k);
  }

  lemma CountDownBarrier(t: Task, s: State, ev: Event, k: nat)
    requires Inv(t, s) && Enabled(t, s, ev)
    requires ev in {FetchSub(k), TakePackets(k), BulkAddBins(k)}
    ensures BarrierOk(t, Do(t, s, ev))
    ensures !NoBinReleased(s) ==> !NoBinReleased(Do(t, s, ev))
  {
    match ev
    case FetchSub(_) => FetchSubBarrier(t, s, k);
    case TakePackets(_) => TakePacketsBarrier(t, s, k);
    case BulkAddBins(_) => BulkAddBarrier(t, s, k);
  }

  /** Once a bin packet is out, every entry has its final value. */
  lemma ReleasedMeansFinal(t: Task, s: State)
    requires Inv(t, s) && !NoBinReleased(s)
    ensures s.entries == t.FinalEntries()
    ensures forall k :: 0 <= k < |s.entryPc| ==> s.entryPc[k].Finished?
    ensures s.packets == [] && AllBinsReleased(s) && PendingCount(s.entryPc) == 0
  {
    PendingExtremes(s.entryPc);
    var w :| 0 <= w < |s.entryPc| && HandedOver(t, s, w);
    EntriesFinal(t, s);
  }

  /** The packet that writes a bin writes its final value, whatever the others have done to it. */
  lemma BinStepData(t: Task, s: State, ev: Event, j: nat)
    requires t.Valid() && Shaped(t, s) && Enabled(t, s, ev)
    requires ev in {StartBin(j), ReadBin(j), WriteBin(j), EndBin(j)}
    requires s.entries == t.FinalEntries() && BinsOk(t, s)
    requires forall l :: 0 <= l < |s.binPc| ==> BinOk(t, s, l)
    ensures var s' := Do(t, s, ev);
            && Shaped(t, s') && (!NoBinReleased(s') ==> BinsOk(t, s'))
            && forall l :: 0 <= l < |s'.binPc| ==> BinOk(t, s', l)
  {
    var s' := Do(t, s, ev);
    assert BinOk(t, s, j);
    if ev.WriteBin? {
      HitsWitness(t.binRanges, s.binPc[j].next);
    }
    forall l | 0 <= l < |s'.binPc| ensures BinOk(t, s', l) {
      assert BinOk(t, s, l);
    }
  }

  lemma BinStep(t: Task, s: State, ev: Event, j: nat)
    requires Inv(t, s) && Enabled(t, s, ev)
    requires ev in {StartBin(j), ReadBin(j), WriteBin(j), EndBin(j)}
    ensures Inv(t, Do(t, s, ev))
  {
    var s' := Do(t, s, ev);
    ReleasedMeansFinal(t, s);
    var w :| 0 <= w < |s.entryPc| && HandedOver(t, s, w);
    assert HandedOver(t, s', w);
    assert !s'.binPc[j].Waiting?;
    BinStepData(t, s, ev, j);
    forall l | 0 <= l < |s'.entryPc| ensures EntryOk(t, s', l) {
      assert EntryOk(t, s, l);
    }
  }

  lemma StepInv(t: Task, s: State, ev: Event)
    requires Inv(t, s) && Enabled(t, s, ev)
    ensures Inv(t, Do(t, s, ev))
  {
    match ev
    case CountUp => SetupStep(t, s, ev);
    case AddPackets => SetupStep(t, s, ev);
    case BulkAddEntries => SetupStep(t, s, ev);
    case StartEntry(k) => EntryStep(t, s, ev, k);
    case VisitEntry(k) => EntryStep(t, s, ev, k);
    case EndEntry(k) => EntryStep(t, s, ev, k);
    case FetchSub(k) => CountDownStep(t, s, ev, k);
    case TakePackets(k) => CountDownStep(t, s, ev, k);
    case BulkAddBins(k) => CountDownStep(t, s, ev, k);
    case StartBin(j) => BinStep(t, s, ev, j);
    case ReadBin(j) => BinStep(t, s, ev, j);
    case WriteBin(j) => BinStep(t, s, ev, j);
    case EndBin(j) => BinStep(t, s, ev, j);
  }

  lemma {:induction false} RunInv(t: Task, s: State, evs: seq<Event>)
    requires Inv(t, s) && CanRun(t, s, evs)
    ensures Inv(t, Run(t, s, evs))
    decreases |evs|
  {
    if evs == [] {
    } else {
      StepInv(t, s, evs[0]);
      RunInv(t, Do(t, s, evs[0]), evs[1..]);
    }
  }

  // ---------- Safety of the barrier ----------

  /** Bin packet `j` is in the packet cell, or in the hands of the worker that emptied it. */
  ghost predicate HeldBack(s: State, j: nat) {
    j in s.packets || exists k :: 0 <= k < |s.entryPc| && s.entryPc[k].Holding? && j in s.entryPc[k].packets
  }

  /** In every reachable state: the counter is the number of entry packets that have not
      decremented, so no decrement wraps; at most one of them sees the last count; every bin
      packet is either held back or released, and it is released only when all entries are final. */
  lemma BarrierSafety(t: Task, evs: seq<Event>)
    requires t.Valid() && CanRun(t, Init(t), evs)
    ensures var s := Run(t, Init(t), evs);
            && (!s.setup.Created? ==> s.counter == PendingCount(s.entryPc))
            && (forall k :: Enabled(t, s, FetchSub(k)) ==> s.counter > 0)
            && (forall k, l | 0 <= k < |s.entryPc| && 0 <= l < |s.entryPc| ::
                  Winner(s.entryPc[k]) && Winner(s.entryPc[l]) ==> k == l)
            && (s.setup.Armed? || s.setup.Published? ==>
                  forall j: nat :: j < |s.binPc| ==> (HeldBack(s, j) <==> s.binPc[j].Waiting?))
            && (forall j :: 0 <= j < |s.binPc| && !s.binPc[j].Waiting? ==>
                  s.entries == t.FinalEntries() && forall k :: 0 <= k < |s.entryPc| ==> s.entryPc[k].Finished?)
  {
    InitInv(t);
    RunInv(t, Init(t), evs);
    var s := Run(t, Init(t), evs);
    PendingExtremes(s.entryPc);
    if !NoBinReleased(s) {
      ReleasedMeansFinal(t, s);
    }
    forall j: nat | j < |s.binPc| && (s.setup.Armed? || s.setup.Published?)
      ensures HeldBack(s, j) <==> s.binPc[j].Waiting?
    {
      assert t.AllBinPackets()[j] == j;
      if PendingCount(s.entryPc) == 0 && |s.entryPc| > 0 && s.setup.Published? {
        var w :| 0 <= w < |s.entryPc| && HandedOver(t, s, w);
        assert s.entryPc[w].Holding? ==> j in s.entryPc[w].packets;
      }
    }
  }

  // ---------- Termination ----------

  function Left(r: Range, at: nat): nat {
    if at < r.end then r.end - at else 0
  }

  function EntryRank(r: Range, pc: EntryPc): nat {
    match pc
    case Unqueued => Left(r, r.begin) + 6
    case Queued => Left(r, r.begin) + 5
    case Running(next, _) => Left(r, next) + 4
    case RangeDone(_) => 3
    case Last(_) => 2
    case Holding(_, _) => 1
    case Finished(_, _) => 0
  }

  function EntryRanks(rs: seq<Range>, pcs: seq<EntryPc>): nat
    requires |rs| == |pcs|
  {
    if pcs == [] then 0 else EntryRank(rs[0], pcs[0]) + EntryRanks(rs[1..], pcs[1..])
  }

  function BinRank(r: Range, pc: BinPc): nat {
    match pc
    case Waiting => 2 * Left(r, r.begin) + 3
    case InBucket => 2 * Left(r, r.begin) + 2
    case Visiting(next) => 2 * Left(r, next) + 1
    case Updating(next, _) => 2 * Left(r, next)
    case Done => 0
  }

  function BinRanks(rs: seq<Range>, pcs: seq<BinPc>): nat
    requires |rs| == |pcs|
  {
    if pcs == [] then 0 else BinRank(rs[0], pcs[0]) + BinRanks(rs[1..], pcs[1..])
  }

  function SetupRank(setup: Setup): nat {
    match setup
    case Created => 3
    case Counted => 2
    case Armed => 1
    case Published => 0
  }

  ghost function Measure(t: Task, s: State): nat
    requires Shaped(t, s)
  {
    SetupRank(s.setup) + EntryRanks(t.entryRanges, s.entryPc) + BinRanks(t.binRanges, s.binPc)
  }

  lemma {:induction false} EntryRanksUpdate(rs: seq<Range>, pcs: seq<EntryPc>, k: nat, pc: EntryPc)
    requires |rs| == |pcs| && k < |pcs|
    ensures EntryRanks(rs, pcs[k := pc]) + EntryRank(rs[k], pcs[k]) == EntryRanks(rs, pcs) + EntryRank(rs[k], pc)
  {
    if k == 0 {
      assert pcs[k := pc][1..] == pcs[1..];
    } else {
      EntryRanksUpdate(rs[1..], pcs[1..], k - 1, pc);
      assert pcs[k := pc][1..] == pcs[1..][k - 1 := pc];
    }
  }

  lemma {:induction false} EntryRanksMonotone(rs: seq<Range>, p: seq<EntryPc>, q: seq<EntryPc>)
    requires |rs| == |p| == |q|
    requires forall k :: 0 <= k < |p| ==> EntryRank(rs[k], q[k]) <= EntryRank(rs[k], p[k])
    ensures EntryRanks(rs, q) <= EntryRanks(rs, p)
  {
    if p == [] {
    } else {
      EntryRanksMonotone(rs[1..], p[1..], q[1..]);
    }
  }

  lemma {:induction false} BinRanksUpdate(rs: seq<Range>, pcs: seq<BinPc>, j: nat, pc: BinPc)
    requires |rs| == |pcs| && j < |pcs|
    ensures BinRanks(rs, pcs[j := pc]) + BinRank(rs[j], pcs[j]) == BinRanks(rs, pcs) + BinRank(rs[j], pc)
  {
    if j == 0 {
      assert pcs[j := pc][1..] == pcs[1..];
    } else {
      BinRanksUpdate(rs[1..], pcs[1..], j - 1, pc);
      assert pcs[j := pc][1..] == pcs[1..][j - 1 := pc];
    }
  }

  lemma {:induction false} BinRanksMonotone(rs: seq<Range>, p: seq<BinPc>, q: seq<BinPc>)
    requires |rs| == |p| == |q|
    requires forall j :: 0 <= j < |p| ==> BinRank(rs[j], q[j]) <= BinRank(rs[j], p[j])
    ensures BinRanks(rs, q) <= BinRanks(rs, p)
  {
    if p == [] {
    } else {
      BinRanksMonotone(rs[1..], p[1..], q[1..]);
    }
  }

  lemma EntryStepDecreases(t: Task, s: State, ev: Event, k: nat)
    requires Inv(t, s) && Enabled(t, s, ev)
    requires ev in {StartEntry(k), VisitEntry(k), EndEntry(k), FetchSub(k), TakePackets(k)}
    ensures Shaped(t, Do(t, s, ev)) && Measure(t, Do(t, s, ev)) < Measure(t, s)
  {
    EntryRanksUpdate(t.entryRanges, s.entryPc, k, Do(t, s, ev).entryPc[k]);
  }

  lemma BinStepDecreases(t: Task, s: State, ev: Event, j: nat)
    requires Inv(t, s) && Enabled(t, s, ev) && ev in {StartBin(j), ReadBin(j), WriteBin(j), EndBin(j)}
    ensures Shaped(t, Do(t, s, ev)) && Measure(t, Do(t, s, ev)) < Measure(t, s)
  {
    assert BinOk(t, s, j);
    BinRanksUpdate(t.binRanges, s.binPc, j, Do(t, s, ev).binPc[j]);
  }

  lemma BulkAddDecreases(t: Task, s: State, k: nat)
    requires Inv(t, s) && Enabled(t, s, BulkAddBins(k))
    ensures var s' := Do(t, s, BulkAddBins(k)); Shaped(t, s') && Measure(t, s') < Measure(t, s)
  {
    var s' := Do(t, s, BulkAddBins(k));
    EntryRanksUpdate(t.entryRanges, s.entryPc, k, s'.entryPc[k]);
    PendingExtremes(s.entryPc);
    BinRanksMonotone(t.binRanges, s.binPc, s'.binPc);
  }

  lemma StepDecreases(t: Task, s: State, ev: Event)
    requires Inv(t, s) && Enabled(t, s, ev)
    ensures Shaped(t, Do(t, s, ev)) && Measure(t, Do(t, s, ev)) < Measure(t, s)
  {
    match ev
    case CountUp =>
    case AddPackets =>
    case BulkAddEntries => EntryRanksMonotone(t.entryRanges, s.entryPc, Do(t, s, ev).entryPc);
    case BulkAddBins(k) => BulkAddDecreases(t, s, k);
    case StartBin(j) => BinStepDecreases(t, s, ev, j);
    case ReadBin(j) => BinStepDecreases(t, s, ev, j);
    case WriteBin(j) => BinStepDecreases(t, s, ev, j);
    case EndBin(j) => BinStepDecreases(t, s, ev, j);
    case _ => EntryStepDecreases(t, s, ev, ev.k);
  }

  /** Every schedule drains: no run is longer than the initial measure. */
  lemma {:induction false} RunsTerminate(t: Task, s: State, evs: seq<Event>)
    requires Inv(t, s) && CanRun(t, s, evs)
    ensures Shaped(t, Run(t, s, evs))
    ensures |evs| + Measure(t, Run(t, s, evs)) <= Measure(t, s)
    decreases |evs|
  {
    if evs == [] {
    } else {
      StepInv(t, s, evs[0]);
      StepDecreases(t, s, evs[0]);
      RunsTerminate(t, Do(t, s, evs[0]), evs[1..]);
    }
  }

  /** From any reachable state the packets can be run to the end. */
  lemma {:induction false} Completes(t: Task, s: State) returns (evs: seq<Event>)
    requires Inv(t, s)
    ensures CanRun(t, s, evs) && Quiescent(t, Run(t, s, evs))
    decreases Measure(t, s)
  {
    if ev :| Enabled(t, s, ev) {
      StepInv(t, s, ev);
      StepDecreases(t, s, ev);
      var rest := Completes(t, Do(t, s, ev));
      evs := [ev] + rest;
      assert evs[1..] == rest;
    } else {
      evs := [];
    }
  }

  // ---------- The result ----------

  function TotalDeleted(pcs: seq<EntryPc>): nat {
    if pcs == [] then 0 else (if pcs[0].Finished? then pcs[0].deleted else 0) + TotalDeleted(pcs[1..])
  }

  lemma {:induction false} TotalDeletedIs(t: Task, rs: seq<Range>, pcs: seq<EntryPc>)
    requires |rs| == |pcs| && forall i: nat :: Hits(rs, i) <= 1
    requires forall k :: 0 <= k < |rs| ==> rs[k].end <= |t.entries|
    requires forall k :: 0 <= k < |pcs| ==>
      pcs[k].Finished? && pcs[k].deleted == Deletions(t.update, t.entries, rs[k].begin, rs[k].end)
    ensures TotalDeleted(pcs) == DeletionsIn(t.update, t.entries, rs, |t.entries|)
    decreases |rs|
  {
    if rs == [] {
      NoDeletionsIn(t, |t.entries|);
    } else {
      forall i: nat ensures Hits(rs[1..], i) <= 1 {
        assert Hits(rs, i) <= 1;
      }
      TotalDeletedIs(t, rs[1..], pcs[1..]);
      DeletionsInSplit(t.update, t.entries, rs, |t.entries|);
    }
  }

  lemma {:induction false} NoDeletionsIn(t: Task, n: nat)
    ensures DeletionsIn(t.update, t.entries, [], n) == 0
  {
    if n == 0 {
    } else {
      NoDeletionsIn(t, n - 1);
    }
  }

  lemma QuiescentEntry(t: Task, s: State, k: nat)
    requires Shaped(t, s) && Quiescent(t, s) && s.setup.Published? && SetupOk(s)
    requires k < |s.entryPc| && EntryOk(t, s, k)
    ensures s.entryPc[k].Finished?
  {
    assert !Enabled(t, s, StartEntry(k)) && !Enabled(t, s, VisitEntry(k)) && !Enabled(t, s, EndEntry(k));
    assert !Enabled(t, s, FetchSub(k)) && !Enabled(t, s, TakePackets(k)) && !Enabled(t, s, BulkAddBins(k));
  }

  lemma QuiescentBin(t: Task, s: State, j: nat)
    requires Shaped(t, s) && Quiescent(t, s)
    requires j < |s.binPc| && t.binRanges[j].end <= |t.bins| && BinOk(t, s, j)
    ensures s.binPc[j].Done? || s.binPc[j].Waiting?
  {
    assert !Enabled(t, s, StartBin(j)) && !Enabled(t, s, EndBin(j));
    assert !Enabled(t, s, ReadBin(j)) && !Enabled(t, s, WriteBin(j));
  }

  lemma QuiescentPackets(t: Task, s: State)
    requires Inv(t, s) && Quiescent(t, s) && s.setup.Published?
    ensures forall k :: 0 <= k < |s.entryPc| ==> s.entryPc[k].Finished?
    ensures forall j :: 0 <= j < |s.binPc| ==> s.binPc[j].Done? || s.binPc[j].Waiting?
  {
    forall k: nat | k < |s.entryPc|
      ensures s.entryPc[k].Finished?
    {
      QuiescentEntry(t, s, k);
    }
    forall j: nat | j < |s.binPc|
      ensures s.binPc[j].Done? || s.binPc[j].Waiting?
    {
      QuiescentBin(t, s, j);
    }
  }

  /** Where a run that cannot continue has come to rest. */
  lemma QuiescentState(t: Task, s: State)
    requires Inv(t, s) && Quiescent(t, s)
    ensures s.setup.Published?
    ensures forall k :: 0 <= k < |s.entryPc| ==> s.entryPc[k].Finished?
    ensures if |s.entryPc| > 0 then forall j :: 0 <= j < |s.binPc| ==> s.binPc[j].Done? else NoBinReleased(s)
  {
    assert !Enabled(t, s, CountUp) && !Enabled(t, s, AddPackets) && !Enabled(t, s, BulkAddEntries);
    QuiescentPackets(t, s);
    PendingExtremes(s.entryPc);
  }

  /** Of all the packets exactly `w` has had true from `count_down`. */
  ghost predicate OnlyLast(s: State, w: nat) {
    forall k :: 0 <= k < |s.entryPc| ==> s.entryPc[k].Finished? && (s.entryPc[k].last <==> k == w)
  }

  /** Parallel refines sequential.  Every run that cannot continue has updated the entries like
      one sequential pass over the ranges and reported as many deletions; exactly one
      `count_down` returned true if there was an entry packet; and the bins that some bin packet
      covers are updated against the final entries, unless there was no entry packet, when no
      bin is touched. */
  lemma ParallelRefinesSequential(t: Task, evs: seq<Event>)
    requires t.Valid() && CanRun(t, Init(t), evs) && Quiescent(t, Run(t, Init(t), evs))
    ensures var s := Run(t, Init(t), evs);
            && s.entries == t.FinalEntries()
            && TotalDeleted(s.entryPc) == t.FinalDeletions()
            && |s.entryPc| == |t.entryRanges|
            && (t.entryRanges != [] ==> exists w :: 0 <= w < |s.entryPc| && OnlyLast(s, w))
            && |s.bins| == |t.bins|
            && forall i: nat :: i < |t.bins| ==>
                 s.bins[i] == if t.entryRanges != [] && Hits(t.binRanges, i) > 0 then t.NewBin(i) else t.bins[i]
  {
    InitInv(t);
    RunInv(t, Init(t), evs);
    var s := Run(t, Init(t), evs);
    QuiescentState(t, s);
    PendingExtremes(s.entryPc);
    if t.entryRanges != [] {
      var w :| 0 <= w < |s.entryPc| && HandedOver(t, s, w);
      assert OnlyLast(s, w);
    }
    EntriesFinal(t, s);
    DeletionsFinal(t, s);
    forall i: nat | i < |t.bins|
      ensures s.bins[i] == if t.entryRanges != [] && Hits(t.binRanges, i) > 0 then t.NewBin(i) else t.bins[i]
    {
      BinFinal(t, s, i);
    }
  }

  lemma BinFinal(t: Task, s: State, i: nat)
    requires Inv(t, s) && i < |t.bins|
    requires if t.entryRanges == [] then NoBinReleased(s) else forall j :: 0 <= j < |s.binPc| ==> s.binPc[j].Done?
    ensures s.bins[i] == if t.entryRanges != [] && Hits(t.binRanges, i) > 0 then t.NewBin(i) else t.bins[i]
  {
    HitsWitness(t.binRanges, i);
    if t.entryRanges != [] && Hits(t.binRanges, i) > 0 {
      var j :| 0 <= j < |t.binRanges| && t.binRanges[j].Has(i);
      assert BinOk(t, s, j);
    }
  }

  lemma DeletionsFinal(t: Task, s: State)
    requires Inv(t, s) && forall k :: 0 <= k < |s.entryPc| ==> s.entryPc[k].Finished?
    ensures TotalDeleted(s.entryPc) == t.FinalDeletions()
  {
    forall k | 0 <= k < |s.entryPc|
      ensures s.entryPc[k].deleted == Deletions(t.update, t.entries, t.entryRanges[k].begin, t.entryRanges[k].end)
    {
      assert EntryOk(t, s, k);
    }
    TotalDeletedIs(t, t.entryRanges, s.entryPc);
  }

  lemma EntriesFinal(t: Task, s: State)
    requires Inv(t, s) && forall k :: 0 <= k < |s.entryPc| ==> s.entryPc[k].Finished?
    ensures s.entries == t.FinalEntries()
  {
    forall i | 0 <= i < |s.entries|
      ensures s.entries[i] == t.FinalEntries()[i]
    {
      HitsWitness(t.entryRanges, i);
      if Hits(t.entryRanges, i) > 0 {
        var k :| 0 <= k < |t.entryRanges| && t.entryRanges[k].Has(i);
        assert EntryOk(t, s, k);
      }
    }
  }
}
