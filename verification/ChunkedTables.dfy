/** `process_weak_table_chunked` for concrete table and chunk sizes: what the range arithmetic
    means for the table in the end, wrapped ends included. */
module ChunkedTables {
  import opened Arithmetic
  import opened Ranges
  import opened WeakTables
  import opened TableUpdate

  /** `st_get_size_info` and the two chunk sizes of the binding, with the data of the table. */
  datatype Config = Config(
    entriesStart: nat,
    entriesBound: nat,
    entriesChunkSize: nat,
    binsChunkSize: nat,
    update: Slot -> Slot,
    entries: seq<Slot>,
    bins: seq<Bin>)
  {
    /** Chunk sizes are positive (`step_by` panics on zero) and every size is a usize. */
    predicate Valid() {
      && 0 < entriesChunkSize < USIZE_VALUES
      && 0 < binsChunkSize < USIZE_VALUES
      && entriesBound <= |entries| < USIZE_VALUES
      && |bins| < USIZE_VALUES
    }

    function EntryRanges(): seq<Range>
      requires entriesChunkSize > 0
    {
      StepRanges(entriesStart, entriesBound, entriesChunkSize, entriesChunkSize)
    }

    function BinRanges(): seq<Range>
      requires entriesChunkSize > 0
    {
      StepRanges(0, |bins|, entriesChunkSize, binsChunkSize)
    }

    function AsTask(): Task
      requires entriesChunkSize > 0
    {
      Task(EntryRanges(), BinRanges(), update, entries, bins)
    }

    /** The first entry that no packet updates. */
    function EntriesReached(): nat
      requires entriesChunkSize > 0
    {
      Reach(entriesStart, entriesBound, entriesChunkSize)
    }

    /** The entries after one sequential pass over the whole table. */
    function OnePass(): seq<Slot> {
      Updated(update, entries, entriesStart, entriesBound)
    }
  }

  lemma ConfigTaskValid(cfg: Config)
    requires cfg.Valid()
    ensures cfg.AsTask().Valid()
  {
    forall i: nat ensures Hits(cfg.EntryRanges(), i) <= 1 {
      EntryCoverage(cfg.entriesStart, cfg.entriesBound, cfg.entriesChunkSize, i);
    }
    StepRangesCount(cfg.entriesStart, cfg.entriesBound, cfg.entriesChunkSize, cfg.entriesChunkSize);
    forall k | 0 <= k < |cfg.EntryRanges()|
      ensures cfg.EntryRanges()[k].end <= |cfg.entries|
    {
      StepRangesEnd(cfg.entriesStart, cfg.entriesBound, cfg.entriesChunkSize, cfg.entriesChunkSize, k);
    }
    forall j | 0 <= j < |cfg.BinRanges()|
      ensures cfg.BinRanges()[j].end <= |cfg.bins|
    {
      StepRangesEnd(0, |cfg.bins|, cfg.entriesChunkSize, cfg.binsChunkSize, j);
    }
  }

  /** `s` is where a complete schedule of the protocol for `cfg` ends. */
  ghost predicate Complete(cfg: Config, evs: seq<Event>, s: State) {
    && cfg.Valid()
    && CanRun(cfg.AsTask(), Init(cfg.AsTask()), evs)
    && s == Run(cfg.AsTask(), Init(cfg.AsTask()), evs)
    && Quiescent(cfg.AsTask(), s)
  }

  lemma CanComplete(cfg: Config) returns (evs: seq<Event>, s: State)
    requires cfg.Valid()
    ensures Complete(cfg, evs, s)
  {
    ConfigTaskValid(cfg);
    InitInv(cfg.AsTask());
    evs := Completes(cfg.AsTask(), Init(cfg.AsTask()));
    s := Run(cfg.AsTask(), Init(cfg.AsTask()), evs);
  }

  lemma EntriesAfterProcessing(cfg: Config)
    requires cfg.Valid()
    ensures cfg.AsTask().FinalEntries() == Updated(cfg.update, cfg.entries, cfg.entriesStart, cfg.EntriesReached())
    ensures cfg.AsTask().FinalDeletions()
         == Deletions(cfg.update, cfg.entries, cfg.entriesStart, cfg.EntriesReached())
  {
    forall i: nat
      ensures Hits(cfg.EntryRanges(), i) > 0 <==> cfg.entriesStart <= i < cfg.EntriesReached()
    {
      EntryCoverage(cfg.entriesStart, cfg.entriesBound, cfg.entriesChunkSize, i);
    }
    DeletionsInInterval(cfg.update, cfg.entries, cfg.EntryRanges(),
                        cfg.entriesStart, cfg.EntriesReached(), |cfg.entries|);
    ReachBounds(cfg);
  }

  lemma ReachBounds(cfg: Config)
    requires cfg.Valid()
    ensures if cfg.entriesStart < cfg.entriesBound then cfg.entriesStart <= cfg.EntriesReached() <= cfg.entriesBound
            else cfg.EntriesReached() == cfg.entriesStart
  {
    if cfg.entriesStart < cfg.entriesBound {
      ReachIsBoundIff(cfg.entriesStart, cfg.entriesBound, cfg.entriesChunkSize);
    }
  }

  /** The table after any complete schedule, for any sizes: the entries are updated up to where
      the packets reach, and the bins that a packet visits are updated against them. */
  lemma TableAfterProcessing(cfg: Config, evs: seq<Event>, s: State)
    requires Complete(cfg, evs, s)
    ensures s.entries == Updated(cfg.update, cfg.entries, cfg.entriesStart, cfg.EntriesReached())
    ensures TotalDeleted(s.entryPc) == Deletions(cfg.update, cfg.entries, cfg.entriesStart, cfg.EntriesReached())
    ensures |s.bins| == |cfg.bins|
    ensures forall i: nat :: i < |cfg.bins| ==>
      s.bins[i] == if cfg.entriesStart < cfg.entriesBound && Visited(i, cfg.entriesChunkSize, cfg.binsChunkSize)
                   then UpdateBin(s.entries, cfg.bins[i]) else cfg.bins[i]
  {
    ConfigTaskValid(cfg);
    ParallelRefinesSequential(cfg.AsTask(), evs);
    EntriesAfterProcessing(cfg);
    forall i: nat | i < |cfg.bins|
      ensures Hits(cfg.BinRanges(), i) > 0 <==> Visited(i, cfg.entriesChunkSize, cfg.binsChunkSize)
    {
      BinCoverage(|cfg.bins|, cfg.entriesChunkSize, cfg.binsChunkSize, i);
    }
  }

  /** Over the whole protocol, for every schedule: the deletions that the packets report are the
      entries that the table has lost. */
  lemma EntriesConserved(cfg: Config, evs: seq<Event>, s: State)
    requires Complete(cfg, evs, s) && cfg.update(Deleted) == Deleted
    ensures NumEntries(s.entries) + TotalDeleted(s.entryPc) == NumEntries(cfg.entries)
  {
    TableAfterProcessing(cfg, evs, s);
    ReachBounds(cfg);
    DeletionsConserve(cfg.update, cfg.entries, cfg.entriesStart, cfg.EntriesReached());
  }

  // ---------- When the entries are those of one sequential pass ----------

  /** The same sizes, with any data; deleted entries stay deleted. */
  ghost predicate SameSizes(cfg: Config, other: Config) {
    && other.entriesStart == cfg.entriesStart && other.entriesBound == cfg.entriesBound
    && other.entriesChunkSize == cfg.entriesChunkSize && other.binsChunkSize == cfg.binsChunkSize
    && |other.entries| == |cfg.entries| && |other.bins| == |cfg.bins|
    && other.update(Deleted) == Deleted
  }

  /** Every complete schedule leaves the entries of one sequential pass over the whole table. */
  ghost predicate EndsSequential(cfg: Config) {
    forall evs, s :: Complete(cfg, evs, s) ==> s.entries == cfg.OnePass()
  }

  /** For one table: iff the update leaves the entries behind the first wrapped begin alone. */
  lemma SequentialIff(cfg: Config, evs: seq<Event>, s: State)
    requires Complete(cfg, evs, s)
    ensures s.entries == cfg.OnePass()
       <==> forall i :: cfg.EntriesReached() <= i < cfg.entriesBound ==> cfg.update(cfg.entries[i]) == cfg.entries[i]
  {
    TableAfterProcessing(cfg, evs, s);
    ReachBounds(cfg);
    var pass := cfg.OnePass();
    if s.entries == pass {
      forall i | cfg.EntriesReached() <= i < cfg.entriesBound
        ensures cfg.update(cfg.entries[i]) == cfg.entries[i]
      {
        assert s.entries[i] == pass[i];
      }
    }
  }

  /** For every table of these sizes: iff no end of an entry packet wraps around. */
  lemma AlwaysSequentialIff(cfg: Config)
    requires cfg.Valid()
    ensures (forall other :: SameSizes(cfg, other) ==> EndsSequential(other))
       <==> NoWrap(cfg.entriesStart, cfg.entriesBound, cfg.entriesChunkSize, cfg.entriesChunkSize)
  {
    var last := cfg.EntriesReached();
    ReachBounds(cfg);
    if cfg.entriesStart < cfg.entriesBound {
      ReachIsBoundIff(cfg.entriesStart, cfg.entriesBound, cfg.entriesChunkSize);
    }
    if last < cfg.entriesBound {
      var other := cfg.(update := slot => Deleted, entries := seq(|cfg.entries|, i => Record(0, 0)));
      var evs, s := CanComplete(other);
      SequentialIff(other, evs, s);
      assert other.update(other.entries[last]) != other.entries[last];
      assert SameSizes(cfg, other) && !EndsSequential(other);
    } else {
      forall other, evs, s | SameSizes(cfg, other) && Complete(other, evs, s)
        ensures s.entries == other.OnePass()
      {
        SequentialIff(other, evs, s);
      }
    }
  }

  // ---------- When the index agrees with the entries ----------

  /** A bin that still refers to a deleted entry. */
  predicate Stale(entries: seq<Slot>, bin: Bin) {
    bin.Ref? && bin.entry < |entries| && entries[bin.entry].Deleted?
  }

  /** Deleted entries stay deleted, and the index agrees with the entries to begin with. */
  ghost predicate AgreesInitially(cfg: Config) {
    && cfg.update(Deleted) == Deleted
    && (forall i :: 0 <= i < |cfg.bins| ==> !Stale(cfg.entries, cfg.bins[i]))
  }

  /** Index agreement, bin by bin: after any complete schedule a bin refers to a deleted entry
      exactly if its entry was deleted and no packet visits the bin; a bin of a surviving entry
      is unchanged. */
  lemma IndexAgreement(cfg: Config, evs: seq<Event>, s: State, i: nat)
    requires Complete(cfg, evs, s) && AgreesInitially(cfg) && i < |cfg.bins|
    ensures |s.bins| == |cfg.bins|
    ensures Stale(s.entries, s.bins[i])
       <==> Stale(s.entries, cfg.bins[i]) && !Visited(i, cfg.entriesChunkSize, cfg.binsChunkSize)
    ensures !Stale(s.entries, cfg.bins[i]) ==> s.bins[i] == cfg.bins[i]
    ensures Stale(s.entries, cfg.bins[i]) ==>
      s.bins[i] == if Visited(i, cfg.entriesChunkSize, cfg.binsChunkSize) then DeletedBin else cfg.bins[i]
  {
    TableAfterProcessing(cfg, evs, s);
    ReachBounds(cfg);
    if Stale(s.entries, cfg.bins[i]) {
      assert !Stale(cfg.entries, cfg.bins[i]);
    }
  }

  ghost predicate EndsWithoutStale(cfg: Config) {
    forall evs, s :: Complete(cfg, evs, s) ==> forall i :: 0 <= i < |s.bins| ==> !Stale(s.entries, s.bins[i])
  }

  /** For a table whose bins are all visited the whole index agrees with the entries. */
  lemma NoBinStale(cfg: Config)
    requires cfg.Valid() && AgreesInitially(cfg)
    requires CoversAllBins(|cfg.bins|, cfg.entriesChunkSize, cfg.binsChunkSize)
    ensures EndsWithoutStale(cfg)
  {
    forall evs, s, i: nat | Complete(cfg, evs, s) && i < |s.bins|
      ensures !Stale(s.entries, s.bins[i])
    {
      TableAfterProcessing(cfg, evs, s);
      IndexAgreement(cfg, evs, s, i);
      EarlierBinVisited(|cfg.bins|, cfg.entriesChunkSize, cfg.binsChunkSize, i);
    }
  }

  /** A bin that no packet visits keeps a reference to an entry that is deleted. */
  lemma SkippedBinStale(cfg: Config, i: nat)
    requires cfg.Valid() && i < |cfg.bins| && !Visited(i, cfg.entriesChunkSize, cfg.binsChunkSize)
    requires cfg.bins[i] == Ref(cfg.entriesStart) && cfg.entriesStart < cfg.EntriesReached()
    requires cfg.entriesStart < |cfg.entries| && cfg.update(cfg.entries[cfg.entriesStart]) == Deleted
    ensures !EndsWithoutStale(cfg)
  {
    var evs, s := CanComplete(cfg);
    TableAfterProcessing(cfg, evs, s);
    assert Stale(s.entries, s.bins[i]);
  }

  /** For every table of these sizes: iff every bin is visited or no entry is reached at all. */
  lemma NeverStaleIff(cfg: Config)
    requires cfg.Valid()
    ensures (forall other :: SameSizes(cfg, other) && AgreesInitially(other) ==> EndsWithoutStale(other))
       <==> CoversAllBins(|cfg.bins|, cfg.entriesChunkSize, cfg.binsChunkSize)
            || cfg.EntriesReached() <= cfg.entriesStart
  {
    var covers := CoversAllBins(|cfg.bins|, cfg.entriesChunkSize, cfg.binsChunkSize);
    if !covers && cfg.entriesStart < cfg.EntriesReached() {
      var i := MissedBin(|cfg.bins|, cfg.entriesChunkSize, cfg.binsChunkSize);
      var other := StaleWitness(cfg, i);
      SkippedBinStale(other, i);
    } else {
      forall other | SameSizes(cfg, other) && AgreesInitially(other)
        ensures EndsWithoutStale(other)
      {
        if covers {
          NoBinStale(other);
        } else {
          NothingReached(other);
        }
      }
    }
  }

  lemma StaleWitness(cfg: Config, i: nat) returns (other: Config)
    requires cfg.Valid() && i < |cfg.bins| && cfg.entriesStart < cfg.EntriesReached()
    ensures SameSizes(cfg, other) && AgreesInitially(other) && other.Valid()
    ensures other.bins[i] == Ref(cfg.entriesStart) && cfg.entriesStart < |other.entries|
    ensures other.update(other.entries[cfg.entriesStart]) == Deleted
  {
    ReachBounds(cfg);
    other := cfg.(update := slot => Deleted,
                  entries := seq(|cfg.entries|, k => Record(0, 0)),
                  bins := seq(|cfg.bins|, j => if j == i then Ref(cfg.entriesStart) else EmptyBin));
  }

  lemma NothingReached(cfg: Config)
    requires cfg.Valid() && AgreesInitially(cfg) && cfg.EntriesReached() <= cfg.entriesStart
    ensures EndsWithoutStale(cfg)
  {
    forall evs, s, i: nat | Complete(cfg, evs, s) && i < |s.bins|
      ensures !Stale(s.entries, s.bins[i])
    {
      TableAfterProcessing(cfg, evs, s);
      IndexAgreement(cfg, evs, s, i);
      assert s.entries == cfg.entries;
    }
  }

  /** A stale bin at a concrete input: bin 1 lies beyond the only bin packet, so it still refers
      to the entry that has been deleted. */
  lemma StaleBinExample() returns (evs: seq<Event>, s: State)
    ensures Complete(Config(0, 1, 2, 1, slot => Deleted, [Record(1, 1)], [EmptyBin, Ref(0)]), evs, s)
    ensures s.entries == [Deleted] && s.bins == [EmptyBin, Ref(0)]
  {
    var cfg := Config(0, 1, 2, 1, slot => Deleted, [Record(1, 1)], [EmptyBin, Ref(0)]);
    evs, s := CanComplete(cfg);
    TableAfterProcessing(cfg, evs, s);
    RemainderBounds(0, 2);
    RemainderBounds(1, 2);
    assert s.entries[0] == Deleted;
  }

  /** Entries left behind at a concrete input: the only entry packet has wrapped around. */
  lemma UnreachedEntryExample() returns (evs: seq<Event>, s: State)
    ensures Complete(Config(1, 2, USIZE_VALUES - 1, 1, slot => Deleted, [Deleted, Record(1, 1)], [Ref(1)]), evs, s)
    ensures s.entries == [Deleted, Record(1, 1)] && s.bins == [Ref(1)]
  {
    var cfg := Config(1, 2, USIZE_VALUES - 1, 1, slot => Deleted, [Deleted, Record(1, 1)], [Ref(1)]);
    evs, s := CanComplete(cfg);
    TableAfterProcessing(cfg, evs, s);
  }
}
