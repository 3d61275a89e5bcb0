/** The generic-ivar table across one collection: `VMObjectModel::copy` (object_model.rs)
    records moved tables in a side map, `RubyObjectAccess::get_givtbl` (abi.rs) consults table
    and side map, and `update_generic_iv_tbl` (weak_proc.rs) drains the side map in hash
    order and then drops the dead keys. */
module GenericIv {
  import opened Heap

  type Givtbl = nat

  datatype MovedEntry = MovedEntry(oldObjref: Addr, genIvtbl: Givtbl)

  type Table = map<Addr, Givtbl>
  type SideMap = map<Addr, MovedEntry>

  // ---------- The upcalls ----------

  /** `move_givtbl`: give the entry of `from` the key `to`. */
  function MoveGivtbl(table: Table, from: Addr, to: Addr): Table {
    if from in table then (table - {from})[to := table[from]] else table
  }

  /** `cleanup_generic_iv_tbl`: keep the keys that are current addresses of reachable objects. */
  function CleanUp(c: Collection, table: Table): Table {
    table - (set k | k in table && !exists a :: a in c.reachable && c.Forward(a) == k)
  }

  // ---------- The specification ----------

  function At(moves: map<Addr, Addr>, a: Addr): Addr {
    if a in moves then moves[a] else a
  }

  /** `after` is `before` with exactly the keys in `moves` renamed.  The moves are part of `c`. */
  ghost predicate Relocated(c: Collection, before: Table, moves: map<Addr, Addr>, after: Table) {
    && (forall a :: a in before ==> At(moves, a) in after && after[At(moves, a)] == before[a])
    && (forall k :: k in after ==>
          if k in before then k !in moves else c.Origin(k) in before && c.Origin(k) in moves && moves[c.Origin(k)] == k)
  }

  /** The table a collection has to produce: the reachable keys, at their new addresses. */
  ghost predicate Expected(c: Collection, before: Table, after: Table) {
    && (forall a :: a in before && a in c.reachable ==> c.Forward(a) in after && after[c.Forward(a)] == before[a])
    && (forall k :: k in after ==>
          c.Origin(k) in before && c.Origin(k) in c.reachable && c.Forward(c.Origin(k)) == k)
  }

  lemma ExpectedUnique(c: Collection, before: Table, after1: Table, after2: Table)
    requires Expected(c, before, after1) && Expected(c, before, after2)
    ensures after1 == after2
  {
    assert forall k :: k in after1 ==> k == c.Forward(c.Origin(k)) && k in after2 && after1[k] == after2[k];
    assert forall k :: k in after2 ==> k == c.Forward(c.Origin(k)) && k in after1;
  }

  // ---------- The machine ----------

  /** The mutex of the side map is held throughout `Draining`. */
  datatype Stage = Tracing | Traced | Draining | Drained | Cleaned

  /** A copy reads the flag and the table before the bytes are copied, and records the table
      under the new address after; only then is the new address returned to anyone. */
  datatype CopyPc = Uncopied | Loaded(givtbl: Option<Givtbl>) | Copied

  datatype State = State(
    stage: Stage,
    table: Table,
    moved: SideMap,
    pc: map<Addr, CopyPc>,
    panicked: bool)

  datatype Event = Load(a: Addr) | Record(a: Addr) | EndTracing | Lock | Drain(to: Addr) | Unlock | Clean

  /** `flagged` are the objects with RUBY_FL_EXIVAR, `table0` is the table when the world stopped. */
  datatype Context = Context(c: Collection, flagged: set<Addr>, table0: Table)
  {
    ghost predicate Legal() {
      c.Legal(table0.Keys + c.live, {})
    }

    /** A copied object with the flag has an entry. */
    ghost predicate Valid() {
      Legal() && !MissingEntry(this)
    }

    /** The entries that survive a copy: `copy` looks only at objects with the flag. */
    function Kept(): Table {
      map a | a in table0 && (a in c.forwarded ==> a in flagged) :: table0[a]
    }
  }

  ghost predicate MissingEntry(x: Context) {
    exists a :: a in x.c.forwarded && a in x.flagged && a !in x.table0
  }

  ghost predicate UnflaggedEntry(x: Context) {
    exists a :: a in x.c.forwarded && a !in x.flagged && a in x.table0
  }

  function Init(x: Context): State {
    State(Tracing, x.table0, map[], map a | a in x.c.forwarded :: Uncopied, false)
  }

  ghost predicate Enabled(x: Context, s: State, ev: Event) {
    && s.pc.Keys == x.c.forwarded.Keys
    && match ev
       case Load(a) => s.stage.Tracing? && a in s.pc && s.pc[a].Uncopied?
       case Record(a) => s.stage.Tracing? && a in s.pc && s.pc[a].Loaded?
       case EndTracing => s.stage.Tracing? && forall a :: a in s.pc ==> s.pc[a].Copied?
       case Lock => s.stage.Traced?
       case Drain(to) => s.stage.Draining? && to in s.moved
       case Unlock => s.stage.Draining? && s.moved == map[]
       case Clean => s.stage.Drained?
  }

  ghost function Do(x: Context, s: State, ev: Event): State
    requires Enabled(x, s, ev)
  {
    match ev
    case Load(a) =>
      if a !in x.flagged then s.(pc := s.pc[a := Loaded(None)])
      else if a in s.table then s.(pc := s.pc[a := Loaded(Some(s.table[a]))])
      else s.(panicked := true)
    case Record(a) =>
      var moved := match s.pc[a].givtbl
                   case Some(v) => s.moved[x.c.forwarded[a] := MovedEntry(a, v)]
                   case None => s.moved;
      s.(moved := moved, pc := s.pc[a := Copied])
    case EndTracing => s.(stage := Traced)
    case Lock => s.(stage := Draining)
    case Drain(to) => s.(table := MoveGivtbl(s.table, s.moved[to].oldObjref, to), moved := s.moved - {to})
    case Unlock => s.(stage := Drained)
    case Clean => s.(table := CleanUp(x.c, s.table), stage := Cleaned)
  }

  /** During tracing, what the copy of `a` can do next depends on nothing but how far it has come. */
  lemma CopiesAreIndependent(x: Context, s: State, s': State, a: Addr)
    requires s.pc.Keys == s'.pc.Keys == x.c.forwarded.Keys && a in s.pc && s.pc[a] == s'.pc[a]
    requires s.stage == s'.stage
    ensures Enabled(x, s, Load(a)) <==> Enabled(x, s', Load(a))
    ensures Enabled(x, s, Record(a)) <==> Enabled(x, s', Record(a))
  {
  }

  ghost predicate CanRun(x: Context, s: State, evs: seq<Event>)
    decreases |evs|
  {
    evs != [] ==> Enabled(x, s, evs[0]) && CanRun(x, Do(x, s, evs[0]), evs[1..])
  }

  ghost function Run(x: Context, s: State, evs: seq<Event>): State
    requires CanRun(x, s, evs)
    decreases |evs|
  {
    if evs == [] then s else Run(x, Do(x, s, evs[0]), evs[1..])
  }

  // ---------- The invariant ----------

  /** The moves that have reached the table, given the moves still in the side map. */
  ghost function Renamed(x: Context, s: State): map<Addr, Addr> {
    if s.stage.Tracing? || s.stage.Traced? then map[]
    else map a | a in x.c.forwarded && a in x.flagged && x.c.forwarded[a] !in s.moved :: x.c.forwarded[a]
  }

  ghost predicate SideMapOk(x: Context, s: State)
    requires s.pc.Keys == x.c.forwarded.Keys
  {
    && (forall to :: to in s.moved ==>
          var a := s.moved[to].oldObjref;
          && a in x.c.forwarded && x.c.forwarded[a] == to
          && a in x.flagged && a in x.table0 && s.moved[to].genIvtbl == x.table0[a])
    && (s.stage.Tracing? || s.stage.Traced? ==>
          forall a :: a in x.c.forwarded ==>
            match s.pc[a]
            case Uncopied => x.c.forwarded[a] !in s.moved
            case Loaded(v) => x.c.forwarded[a] !in s.moved
                            && v == (if a in x.flagged && a in x.table0 then Some(x.table0[a]) else None)
            case Copied => a in x.flagged <==> x.c.forwarded[a] in s.moved)
  }

  ghost predicate TableOk(x: Context, s: State)
    requires x.Valid()
  {
    if s.stage.Cleaned? then Expected(x.c, x.Kept(), s.table)
    else Relocated(x.c, x.table0, Renamed(x, s), s.table)
  }

  ghost predicate Inv(x: Context, s: State) {
    && x.Valid()
    && s.pc.Keys == x.c.forwarded.Keys
    && (!s.stage.Tracing? ==> forall a :: a in s.pc ==> s.pc[a].Copied?)
    && !s.panicked
    && SideMapOk(x, s)
    && (s.stage.Drained? || s.stage.Cleaned? ==> s.moved == map[])
    && TableOk(x, s)
  }

  lemma InitInv(x: Context)
    requires x.Valid()
    ensures Inv(x, Init(x))
  {
  }

  /** One more move: the key is renamed to an address nothing else has. */
  lemma RelocatedMove(c: Collection, before: Table, moves: map<Addr, Addr>, table: Table, a: Addr)
    requires c.Legal(before.Keys + c.live, {}) && Relocated(c, before, moves, table)
    requires a in c.forwarded && a !in moves
    requires forall b :: b in moves ==> b in c.forwarded && moves[b] == c.forwarded[b]
    ensures Relocated(c, before, moves[a := c.forwarded[a]], MoveGivtbl(table, a, c.forwarded[a]))
  {
    assert c.Origin(c.forwarded[a]) == a && At(moves, a) == a;
  }

  lemma DrainMoves(x: Context, s: State, to: Addr)
    requires x.Legal() && Enabled(x, s, Drain(to)) && SideMapOk(x, s)
    ensures var a := s.moved[to].oldObjref;
            && a in x.c.forwarded && x.c.forwarded[a] == to && a !in Renamed(x, s)
            && Renamed(x, Do(x, s, Drain(to))) == Renamed(x, s)[a := to]
  {
  }

  lemma DrainStep(x: Context, s: State, to: Addr)
    requires Inv(x, s) && Enabled(x, s, Drain(to))
    ensures Inv(x, Do(x, s, Drain(to)))
  {
    DrainMoves(x, s, to);
    RelocatedMove(x.c, x.table0, Renamed(x, s), s.table, s.moved[to].oldObjref);
  }

  /** Dropping the keys that are not current addresses completes a table with all its moves made:
      what has been moved or does not move is kept. */
  lemma CleanUpRelocated(c: Collection, before: Table, moves: map<Addr, Addr>, after: Table, kept: Table)
    requires c.Legal(before.Keys + c.live, {}) && Relocated(c, before, moves, after)
    requires forall a :: a in moves ==> a in c.forwarded && moves[a] == c.forwarded[a]
    requires forall a :: a in kept <==> a in before && (a in c.forwarded ==> a in moves)
    requires forall a :: a in kept ==> kept[a] == before[a]
    ensures Expected(c, kept, CleanUp(c, after))
  {
    forall a | a in kept && a in c.reachable
      ensures c.Forward(a) in CleanUp(c, after) && CleanUp(c, after)[c.Forward(a)] == kept[a]
    {
      assert At(moves, a) == c.Forward(a);
    }
    forall k | k in CleanUp(c, after)
      ensures c.Origin(k) in kept && c.Origin(k) in c.reachable && c.Forward(c.Origin(k)) == k
    {
      var a :| a in c.reachable && c.Forward(a) == k;
    }
  }

  lemma LoadStep(x: Context, s: State, a: Addr)
    requires Inv(x, s) && Enabled(x, s, Load(a))
    ensures Inv(x, Do(x, s, Load(a)))
  {
    assert At(Renamed(x, s), a) == a;
    assert a in s.table <==> a in x.table0;
    assert Renamed(x, Do(x, s, Load(a))) == Renamed(x, s);
  }

  lemma RecordStep(x: Context, s: State, a: Addr)
    requires Inv(x, s) && Enabled(x, s, Record(a))
    ensures Inv(x, Do(x, s, Record(a)))
  {
    RecordSideMap(x, s, a);
    assert Renamed(x, Do(x, s, Record(a))) == Renamed(x, s);
  }

  lemma RecordSideMap(x: Context, s: State, a: Addr)
    requires x.Valid() && Enabled(x, s, Record(a)) && SideMapOk(x, s)
    ensures Do(x, s, Record(a)).pc.Keys == x.c.forwarded.Keys && SideMapOk(x, Do(x, s, Record(a)))
  {
  }

  lemma LockStep(x: Context, s: State)
    requires Inv(x, s) && Enabled(x, s, Lock)
    ensures Inv(x, Do(x, s, Lock))
  {
    assert Renamed(x, Do(x, s, Lock)).Keys !! x.table0.Keys;
  }

  lemma CleanStep(x: Context, s: State)
    requires Inv(x, s) && Enabled(x, s, Clean)
    ensures Inv(x, Do(x, s, Clean))
  {
    CleanUpRelocated(x.c, x.table0, Renamed(x, s), s.table, x.Kept());
  }

  lemma StepInv(x: Context, s: State, ev: Event)
    requires Inv(x, s) && Enabled(x, s, ev)
    ensures Inv(x, Do(x, s, ev))
  {
    match ev
    case Lock => LockStep(x, s);
    case Drain(to) => DrainStep(x, s, to);
    case Unlock =>
    case Clean => CleanStep(x, s);
    case Load(a) => LoadStep(x, s, a);
    case Record(a) => RecordStep(x, s, a);
    case EndTracing => assert Renamed(x, Do(x, s, ev)) == Renamed(x, s);
  }

  lemma {:induction false} RunInv(x: Context, s: State, evs: seq<Event>)
    requires Inv(x, s) && CanRun(x, s, evs)
    ensures Inv(x, Run(x, s, evs))
    decreases |evs|
  {
    if evs == [] {
    } else {
      StepInv(x, s, evs[0]);
      RunInv(x, Do(x, s, evs[0]), evs[1..]);
    }
  }

  // ---------- Termination and the panic in `copy` ----------

  function StageRank(stage: Stage): nat {
    match stage
    case Tracing => 0
    case Traced => 1
    case Draining => 2
    case Drained => 3
    case Cleaned => 4
  }

  /** The copies not yet begun, or begun and not yet recorded. */
  ghost function NotBegun(pc: map<Addr, CopyPc>): set<Addr> {
    set a | a in pc && pc[a].Uncopied?
  }

  ghost function NotRecorded(pc: map<Addr, CopyPc>): set<Addr> {
    set a | a in pc && pc[a].Loaded?
  }

  ghost function CopyWork(pc: map<Addr, CopyPc>): nat {
    3 * |NotBegun(pc)| + 2 * |NotRecorded(pc)|
  }

  ghost function Work(s: State): nat {
    CopyWork(s.pc) + |s.moved| + (4 - StageRank(s.stage))
  }

  lemma LoadWork(pc: map<Addr, CopyPc>, a: Addr, v: Option<Givtbl>)
    requires a in pc && pc[a].Uncopied?
    ensures CopyWork(pc[a := Loaded(v)]) == CopyWork(pc) - 1
  {
    assert NotBegun(pc[a := Loaded(v)]) == NotBegun(pc) - {a};
    assert NotRecorded(pc[a := Loaded(v)]) == NotRecorded(pc) + {a};
  }

  lemma RecordWork(pc: map<Addr, CopyPc>, a: Addr)
    requires a in pc && pc[a].Loaded?
    ensures CopyWork(pc[a := Copied]) == CopyWork(pc) - 2
  {
    assert NotBegun(pc[a := Copied]) == NotBegun(pc);
    assert NotRecorded(pc[a := Copied]) == NotRecorded(pc) - {a};
  }

  lemma InsertSize(moved: SideMap, to: Addr, entry: MovedEntry)
    ensures |moved[to := entry]| <= |moved| + 1
  {
    if to in moved {
      assert moved[to := entry].Keys == moved.Keys;
    } else {
      assert moved[to := entry].Keys == moved.Keys + {to};
    }
  }

  lemma StepDecreases(x: Context, s: State, ev: Event)
    requires Enabled(x, s, ev) && !Do(x, s, ev).panicked
    ensures Work(Do(x, s, ev)) < Work(s)
  {
    match ev
    case Load(a) => LoadWork(s.pc, a, if a in x.flagged then Some(s.table[a]) else None);
    case Record(a) =>
      RecordWork(s.pc, a);
      if v :| s.pc[a].givtbl == Some(v) {
        InsertSize(s.moved, x.c.forwarded[a], MovedEntry(a, v));
      }
    case Drain(to) => assert (s.moved - {to}).Keys == s.moved.Keys - {to};
    case _ =>
  }

  lemma {:induction false} RunsTerminate(x: Context, s: State, evs: seq<Event>)
    requires Inv(x, s) && CanRun(x, s, evs)
    ensures |evs| + Work(Run(x, s, evs)) <= Work(s)
    decreases |evs|
  {
    if evs == [] {
    } else {
      StepInv(x, s, evs[0]);
      StepDecreases(x, s, evs[0]);
      RunsTerminate(x, Do(x, s, evs[0]), evs[1..]);
    }
  }

  /** No schedule gets stuck before the table has been cleaned. */
  lemma Progress(x: Context, s: State)
    requires Inv(x, s) && !s.stage.Cleaned?
    ensures exists ev :: Enabled(x, s, ev)
  {
    match s.stage
    case Tracing =>
      if a :| a in s.pc && !s.pc[a].Copied? {
        assert Enabled(x, s, Load(a)) || Enabled(x, s, Record(a));
      } else {
        assert Enabled(x, s, EndTracing);
      }
    case Traced => assert Enabled(x, s, Lock);
    case Draining =>
      if to :| to in s.moved {
        assert Enabled(x, s, Drain(to));
      } else {
        assert Enabled(x, s, Unlock);
      }
    case Drained => assert Enabled(x, s, Clean);
  }

  lemma RunOne(x: Context, s: State, ev: Event)
    requires Enabled(x, s, ev)
    ensures CanRun(x, s, [ev]) && Run(x, s, [ev]) == Do(x, s, ev)
  {
    var rest := [ev][1..];
    assert rest == [] && CanRun(x, Do(x, s, ev), rest);
    assert Run(x, s, [ev]) == Run(x, Do(x, s, ev), rest);
  }

  /** All the copies of a collection can be made, in some order. */
  lemma {:induction false} TracingCompletes(x: Context, s: State) returns (evs: seq<Event>)
    requires Inv(x, s) && s.stage.Tracing?
    ensures CanRun(x, s, evs) && Run(x, s, evs).stage.Traced?
    decreases Work(s)
  {
    if a :| a in s.pc && !s.pc[a].Copied? {
      var ev := if s.pc[a].Uncopied? then Load(a) else Record(a);
      StepInv(x, s, ev);
      StepDecreases(x, s, ev);
      var rest := TracingCompletes(x, Do(x, s, ev));
      evs := [ev] + rest;
      assert evs[1..] == rest;
    } else {
      evs := [EndTracing];
      RunOne(x, s, EndTracing);
    }
  }

  lemma {:induction false} PanicNeedsMissingEntry(x: Context, s: State, evs: seq<Event>)
    requires CanRun(x, s, evs) && (s.stage.Tracing? ==> s.table == x.table0)
    requires s.panicked ==> MissingEntry(x)
    ensures Run(x, s, evs).panicked ==> MissingEntry(x)
    decreases |evs|
  {
    if evs == [] {
    } else {
      PanicNeedsMissingEntry(x, Do(x, s, evs[0]), evs[1..]);
    }
  }

  /** Whatever the flags say: some schedule of `copy` calls panics exactly if a copied object has
      the flag but no entry in the table. */
  lemma CopyPanicsIff(x: Context)
    ensures (exists evs :: CanRun(x, Init(x), evs) && Run(x, Init(x), evs).panicked) <==> MissingEntry(x)
  {
    if evs :| CanRun(x, Init(x), evs) && Run(x, Init(x), evs).panicked {
      PanicNeedsMissingEntry(x, Init(x), evs);
    }
    if a :| a in x.c.forwarded && a in x.flagged && a !in x.table0 {
      RunOne(x, Init(x), Load(a));
    }
  }

  // ---------- Agreement with moving entries at copy time ----------

  /** The simple rule: the entry moves together with the object, with no side map. */
  ghost function EagerDo(x: Context, table: Table, ev: Event): Table
    requires ev.Record? ==> ev.a in x.c.forwarded
  {
    match ev
    case Record(a) => MoveGivtbl(table, a, x.c.forwarded[a])
    case Clean => CleanUp(x.c, table)
    case _ => table
  }

  ghost function EagerRun(x: Context, table: Table, s: State, evs: seq<Event>): Table
    requires CanRun(x, s, evs)
    decreases |evs|
  {
    if evs == [] then table else EagerRun(x, EagerDo(x, table, evs[0]), Do(x, s, evs[0]), evs[1..])
  }

  ghost function CopiedMoves(x: Context, s: State): map<Addr, Addr>
    requires s.pc.Keys == x.c.forwarded.Keys
  {
    map a | a in x.c.forwarded && s.pc[a].Copied? :: x.c.forwarded[a]
  }

  ghost predicate EagerOk(x: Context, s: State, table: Table) {
    && Inv(x, s)
    && if s.stage.Cleaned? then Expected(x.c, x.table0, table)
       else Relocated(x.c, x.table0, CopiedMoves(x, s), table)
  }

  lemma EagerClean(x: Context, s: State, table: Table)
    requires EagerOk(x, s, table) && Enabled(x, s, Clean)
    ensures Expected(x.c, x.table0, CleanUp(x.c, table))
  {
    CleanUpRelocated(x.c, x.table0, CopiedMoves(x, s), table, x.table0);
  }

  lemma EagerMoves(x: Context, s: State, ev: Event)
    requires Enabled(x, s, ev) && !ev.Record?
    ensures Do(x, s, ev).pc.Keys == x.c.forwarded.Keys
    ensures CopiedMoves(x, Do(x, s, ev)) == CopiedMoves(x, s)
  {
    if !ev.Load? {
      assert Do(x, s, ev).pc == s.pc;
    }
  }

  lemma EagerRecord(x: Context, s: State, table: Table, a: Addr)
    requires x.Legal() && Enabled(x, s, Record(a)) && Relocated(x.c, x.table0, CopiedMoves(x, s), table)
    ensures Do(x, s, Record(a)).pc.Keys == x.c.forwarded.Keys
    ensures Relocated(x.c, x.table0, CopiedMoves(x, Do(x, s, Record(a))), MoveGivtbl(table, a, x.c.forwarded[a]))
  {
    assert CopiedMoves(x, Do(x, s, Record(a))) == CopiedMoves(x, s)[a := x.c.forwarded[a]];
    RelocatedMove(x.c, x.table0, CopiedMoves(x, s), table, a);
  }

  lemma EagerStep(x: Context, s: State, table: Table, ev: Event)
    requires EagerOk(x, s, table) && Enabled(x, s, ev)
    ensures EagerOk(x, Do(x, s, ev), EagerDo(x, table, ev))
  {
    StepInv(x, s, ev);
    if ev.Record? {
      EagerRecord(x, s, table, ev.a);
    } else if ev.Clean? {
      EagerClean(x, s, table);
    } else {
      EagerMoves(x, s, ev);
    }
  }

  lemma {:induction false} EagerRunOk(x: Context, s: State, table: Table, evs: seq<Event>)
    requires EagerOk(x, s, table) && CanRun(x, s, evs)
    ensures EagerOk(x, Run(x, s, evs), EagerRun(x, table, s, evs))
    decreases |evs|
  {
    if evs == [] {
    } else {
      EagerStep(x, s, table, evs[0]);
      EagerRunOk(x, Do(x, s, evs[0]), EagerDo(x, table, evs[0]), evs[1..]);
    }
  }

  lemma AgreesAt(x: Context, s: State, eager: Table)
    requires EagerOk(x, s, eager)
    ensures s.stage.Drained? || s.stage.Cleaned? ==> (s.table == eager <==> !UnflaggedEntry(x))
  {
    if s.stage.Cleaned? {
      ExpectedSame(x, s.table, eager);
    } else if s.stage.Drained? {
      RelocatedSame(x, Renamed(x, s), CopiedMoves(x, s), s.table, eager);
    }
  }

  /** For every schedule of copies and every drain order: no copy panics, the table ends with the
      entries that survive copying, and it is the table that eager moves give exactly if no copied
      object has an entry without the flag. */
  lemma DelayedAgreesWithEager(x: Context, evs: seq<Event>)
    requires x.Valid() && CanRun(x, Init(x), evs)
    ensures var s := Run(x, Init(x), evs);
            && !s.panicked
            && (s.stage.Cleaned? ==> Expected(x.c, x.Kept(), s.table) && s.moved == map[])
            && (s.stage.Drained? || s.stage.Cleaned? ==>
                  (s.table == EagerRun(x, x.table0, Init(x), evs) <==> !UnflaggedEntry(x)))
  {
    InitInv(x);
    assert CopiedMoves(x, Init(x)) == map[];
    EagerRunOk(x, Init(x), x.table0, evs);
    AgreesAt(x, Run(x, Init(x), evs), EagerRun(x, x.table0, Init(x), evs));
  }

  lemma ExpectedSame(x: Context, delayed: Table, eager: Table)
    requires x.Legal() && Expected(x.c, x.Kept(), delayed) && Expected(x.c, x.table0, eager)
    ensures delayed == eager <==> !UnflaggedEntry(x)
  {
    if a :| a in x.c.forwarded && a !in x.flagged && a in x.table0 {
      assert x.c.Forward(a) in eager && x.c.Origin(x.c.Forward(a)) == a;
      assert a !in x.Kept();
    } else {
      assert x.Kept() == x.table0;
      ExpectedUnique(x.c, x.table0, delayed, eager);
    }
  }

  lemma RelocatedSame(x: Context, flaggedMoves: map<Addr, Addr>, moves: map<Addr, Addr>, delayed: Table, eager: Table)
    requires x.Legal() && moves == x.c.forwarded
    requires flaggedMoves == map a | a in x.c.forwarded && a in x.flagged :: x.c.forwarded[a]
    requires Relocated(x.c, x.table0, flaggedMoves, delayed) && Relocated(x.c, x.table0, moves, eager)
    ensures delayed == eager <==> !UnflaggedEntry(x)
  {
    if a :| a in x.c.forwarded && a !in x.flagged && a in x.table0 {
      assert At(flaggedMoves, a) == a;
      assert a in delayed && a !in eager;
    } else {
      assert Relocated(x.c, x.table0, moves, delayed) by {
        assert forall a :: a in x.table0 ==> At(flaggedMoves, a) == At(moves, a);
      }
      RelocatedUnique(x.c, x.table0, moves, delayed, eager);
    }
  }

  /** Every schedule can be finished. */
  lemma {:induction false} Completes(x: Context, s: State) returns (evs: seq<Event>)
    requires Inv(x, s)
    ensures CanRun(x, s, evs) && Run(x, s, evs).stage.Cleaned?
    decreases Work(s)
  {
    if s.stage.Cleaned? {
      evs := [];
    } else {
      Progress(x, s);
      var ev :| Enabled(x, s, ev);
      StepInv(x, s, ev);
      StepDecreases(x, s, ev);
      var rest := Completes(x, Do(x, s, ev));
      evs := [ev] + rest;
      assert evs[1..] == rest;
    }
  }

  /** A schedule goes well: no copy panics, and a finished update agrees with eager moves. */
  ghost predicate GoesWell(x: Context, evs: seq<Event>)
    requires CanRun(x, Init(x), evs)
  {
    var s := Run(x, Init(x), evs);
    !s.panicked && (s.stage.Cleaned? ==> s.table == EagerRun(x, x.table0, Init(x), evs))
  }

  /** Whatever the flags say: every schedule goes well exactly if the copied objects with the
      flag are the copied objects with an entry. */
  lemma AlwaysGoesWellIff(x: Context)
    requires x.Legal()
    ensures (forall evs :: CanRun(x, Init(x), evs) ==> GoesWell(x, evs))
       <==> forall a :: a in x.c.forwarded ==> (a in x.flagged <==> a in x.table0)
  {
    if MissingEntry(x) {
      CopyPanicsIff(x);
      var evs :| CanRun(x, Init(x), evs) && Run(x, Init(x), evs).panicked;
      assert !GoesWell(x, evs);
    } else {
      InitInv(x);
      forall evs | CanRun(x, Init(x), evs) && !UnflaggedEntry(x) ensures GoesWell(x, evs) {
        DelayedAgreesWithEager(x, evs);
      }
      if UnflaggedEntry(x) {
        var evs := Completes(x, Init(x));
        DelayedAgreesWithEager(x, evs);
        assert !GoesWell(x, evs);
      }
    }
  }

  lemma RelocatedUnique(c: Collection, before: Table, moves: map<Addr, Addr>, after1: Table, after2: Table)
    requires Relocated(c, before, moves, after1) && Relocated(c, before, moves, after2)
    ensures after1 == after2
  {
    forall k | k in after1 ensures k in after2 && after1[k] == after2[k] {
      assert k == At(moves, if k in before then k else c.Origin(k));
    }
    forall k | k in after2 ensures k in after1 {
      assert k == At(moves, if k in before then k else c.Origin(k));
    }
  }

  // ---------- Lookups during the collection ----------

  /** `get_givtbl`: the table is read at `s1`; if that fails the side map is locked and read at
      some later `s2`.  `None` is the panic. */
  function GetGivtbl(s1: State, s2: State, objref: Addr): Option<Givtbl> {
    if objref in s1.table then Some(s1.table[objref])
    else if objref in s2.moved then Some(s2.moved[objref].genIvtbl)
    else None
  }

  lemma {:induction false} RunMonotone(x: Context, s: State, evs: seq<Event>)
    requires CanRun(x, s, evs)
    ensures StageRank(s.stage) <= StageRank(Run(x, s, evs).stage)
    ensures forall a :: a in s.pc && s.pc[a].Copied? ==> a in Run(x, s, evs).pc && Run(x, s, evs).pc[a].Copied?
    decreases |evs|
  {
    if evs == [] {
    } else {
      RunMonotone(x, Do(x, s, evs[0]), evs[1..]);
    }
  }

  /** Without the flag the new address never becomes a key. */
  lemma NewAddressIsNoKey(x: Context, s: State, a: Addr)
    requires Inv(x, s) && a in x.c.forwarded && a !in x.flagged
    ensures x.c.forwarded[a] !in s.table && x.c.forwarded[a] !in s.moved
  {
    var to := x.c.forwarded[a];
    assert x.c.Origin(to) == a;
    assert a !in Renamed(x, s) && a !in x.Kept();
  }

  /** The new address is a key of the table or of the side map, never of both. */
  lemma NewAddressIsKey(x: Context, s: State, a: Addr)
    requires Inv(x, s) && a in x.c.forwarded && a in x.flagged && s.pc[a].Copied?
    ensures var to := x.c.forwarded[a];
            && (to in s.table <==> to !in s.moved)
            && (to in s.table ==> s.table[to] == x.table0[a])
            && (to in s.moved ==> s.moved[to].genIvtbl == x.table0[a])
            && (s.stage.Tracing? || s.stage.Traced? ==> to in s.moved)
            && (s.stage.Drained? || s.stage.Cleaned? ==> to !in s.moved)
  {
    var to := x.c.forwarded[a];
    assert a in x.table0;
    assert x.c.Forward(a) == to && x.c.Origin(to) == a;
    assert to in s.moved ==> a !in Renamed(x, s);
    assert a in Renamed(x, s) ==> At(Renamed(x, s), a) == to;
  }

  lemma NewAddressLookup(x: Context, s1: State, s2: State, a: Addr)
    requires Inv(x, s1) && Inv(x, s2) && !s2.stage.Draining?
    requires a in x.c.forwarded && a in x.table0 && s1.pc[a].Copied? && s2.pc[a].Copied?
    ensures var to := x.c.forwarded[a];
            GetGivtbl(s1, s2, to)
              == if a !in x.flagged || (to in s1.moved && (s2.stage.Drained? || s2.stage.Cleaned?)) then None
                 else Some(x.table0[a])
  {
    if a in x.flagged {
      NewAddressIsKey(x, s1, a);
      NewAddressIsKey(x, s2, a);
    } else {
      NewAddressIsNoKey(x, s1, a);
      NewAddressIsNoKey(x, s2, a);
    }
  }

  /** The entry of the copied object `a` has been neither renamed nor dropped. */
  ghost predicate OldKeyRemains(x: Context, s: State, a: Addr)
    requires a in x.c.forwarded
  {
    if a in x.flagged then s.stage.Tracing? || s.stage.Traced? || x.c.forwarded[a] in s.moved else !s.stage.Cleaned?
  }

  lemma OldAddressNotMoved(x: Context, s: State, a: Addr)
    requires x.Legal() && s.pc.Keys == x.c.forwarded.Keys && SideMapOk(x, s) && a in x.table0
    ensures a !in s.moved
  {
  }

  lemma OldAddressRelocated(x: Context, s: State, a: Addr)
    requires x.Valid() && TableOk(x, s) && !s.stage.Cleaned? && a in x.table0
    ensures a in s.table <==> (a in x.c.forwarded ==> OldKeyRemains(x, s, a))
    ensures a in s.table ==> s.table[a] == x.table0[a]
  {
    assert At(Renamed(x, s), a) == if a in Renamed(x, s) then x.c.forwarded[a] else a;
  }

  lemma OldAddressCleaned(x: Context, s: State, a: Addr)
    requires x.Valid() && TableOk(x, s) && s.stage.Cleaned? && a in x.table0
    ensures a in s.table <==> a in x.c.reachable && a !in x.c.forwarded
    ensures a in s.table ==> s.table[a] == x.table0[a]
  {
    assert x.c.Origin(a) == a;
    assert a in x.c.reachable && a !in x.c.forwarded ==> a in x.Kept() && x.c.Forward(a) == a;
  }

  lemma OldAddressLookup(x: Context, s1: State, s2: State, a: Addr)
    requires Inv(x, s1) && Inv(x, s2) && a in x.table0
    ensures GetGivtbl(s1, s2, a)
         == if a in x.c.forwarded
            then if OldKeyRemains(x, s1, a) then Some(x.table0[a]) else None
            else if s1.stage.Cleaned? && a !in x.c.reachable then None else Some(x.table0[a])
  {
    OldAddressNotMoved(x, s2, a);
    if s1.stage.Cleaned? {
      OldAddressCleaned(x, s1, a);
    } else {
      OldAddressRelocated(x, s1, a);
    }
  }

  /** The two reads of a lookup happen at points of one run. */
  ghost predicate Reads(x: Context, evs1: seq<Event>, evs2: seq<Event>, s1: State, s2: State) {
    && x.Valid() && CanRun(x, Init(x), evs1) && s1 == Run(x, Init(x), evs1)
    && CanRun(x, s1, evs2) && s2 == Run(x, s1, evs2)
  }

  lemma ReadsInv(x: Context, evs1: seq<Event>, evs2: seq<Event>, s1: State, s2: State)
    requires Reads(x, evs1, evs2, s1, s2)
    ensures Inv(x, s1) && Inv(x, s2) && StageRank(s1.stage) <= StageRank(s2.stage)
    ensures forall a :: a in s1.pc && s1.pc[a].Copied? ==> a in s2.pc && s2.pc[a].Copied?
  {
    InitInv(x);
    RunInv(x, Init(x), evs1);
    RunInv(x, s1, evs2);
    RunMonotone(x, s1, evs2);
  }

  /** Looking up an object by its new address, once the copy has returned it: the lookup panics
      exactly if it read the table before the entry was renamed and the side map after the
      drain had emptied it, or if the object has an entry but no flag.  Otherwise it returns the
      object's own table. */
  lemma LookupByNewAddress(x: Context, evs1: seq<Event>, evs2: seq<Event>, s1: State, s2: State, a: Addr)
    requires Reads(x, evs1, evs2, s1, s2) && !s2.stage.Draining?
    requires a in x.c.forwarded && a in x.table0 && a in s1.pc && s1.pc[a].Copied?
    ensures var to := x.c.forwarded[a];
            GetGivtbl(s1, s2, to)
              == if a !in x.flagged || (to in s1.moved && (s2.stage.Drained? || s2.stage.Cleaned?)) then None
                 else Some(x.table0[a])
  {
    ReadsInv(x, evs1, evs2, s1, s2);
    NewAddressLookup(x, s1, s2, a);
  }

  /** Looking up an object by the address it had when the world stopped: the table itself answers
      until the entry is renamed or dropped, and nothing answers after that. */
  lemma LookupByOldAddress(x: Context, evs1: seq<Event>, evs2: seq<Event>, s1: State, s2: State, a: Addr)
    requires Reads(x, evs1, evs2, s1, s2) && a in x.table0
    ensures GetGivtbl(s1, s2, a)
         == if a in x.c.forwarded
            then if OldKeyRemains(x, s1, a) then Some(x.table0[a]) else None
            else if s1.stage.Cleaned? && a !in x.c.reachable then None else Some(x.table0[a])
  {
    ReadsInv(x, evs1, evs2, s1, s2);
    OldAddressLookup(x, s1, s2, a);
  }

  lemma MidLookupAt(x: Context, s1: State, s2: State, a: Addr)
    requires Inv(x, s1) && Inv(x, s2) && StageRank(s1.stage) <= StageRank(s2.stage) <= 1 && a in x.table0
    requires a in s1.pc && s1.pc[a].Copied? ==> a in s2.pc && s2.pc[a].Copied?
    ensures GetGivtbl(s1, s2, a) == Some(x.table0[a])
    ensures a in s1.pc && s1.pc[a].Copied? && a in x.flagged ==>
      GetGivtbl(s1, s2, x.c.forwarded[a]) == Some(x.table0[a])
  {
    OldAddressLookup(x, s1, s2, a);
    if a in s1.pc && s1.pc[a].Copied? {
      NewAddressLookup(x, s1, s2, a);
    }
  }

  /** From the first copy up to the drain, every reference to an object with a table finds that
      table: the old one at any time, the new one as soon as the copy has returned it. */
  lemma MidCollectionLookup(x: Context, evs1: seq<Event>, evs2: seq<Event>, s1: State, s2: State, a: Addr)
    requires Reads(x, evs1, evs2, s1, s2) && (s2.stage.Tracing? || s2.stage.Traced?) && a in x.table0
    ensures s1.pc.Keys == x.c.forwarded.Keys
    ensures GetGivtbl(s1, s2, a) == Some(x.table0[a])
    ensures a in s1.pc && s1.pc[a].Copied? && a in x.flagged ==>
      GetGivtbl(s1, s2, x.c.forwarded[a]) == Some(x.table0[a])
  {
    ReadsInv(x, evs1, evs2, s1, s2);
    MidLookupAt(x, s1, s2, a);
  }

  // ---------- Where it does go wrong ----------

  /** Every copied object with a table can be looked up in vain, by either address. */
  lemma SomeLookupPanics(x: Context, a: Addr) returns (evs1: seq<Event>, evs2: seq<Event>, s1: State, s2: State)
    requires x.Valid() && a in x.c.forwarded && a in x.flagged
    ensures Reads(x, evs1, evs2, s1, s2) && s1.stage.Traced? && s2.stage.Cleaned?
    ensures a in s1.pc && s1.pc[a].Copied?
    ensures GetGivtbl(s1, s2, x.c.forwarded[a]) == None && GetGivtbl(s2, s2, a) == None
  {
    InitInv(x);
    evs1 := TracingCompletes(x, Init(x));
    s1 := Run(x, Init(x), evs1);
    RunInv(x, Init(x), evs1);
    evs2 := Completes(x, s1);
    s2 := Run(x, s1, evs2);
    ReadsInv(x, evs1, evs2, s1, s2);
    NewAddressIsKey(x, s1, a);
    LookupByNewAddress(x, evs1, evs2, s1, s2, a);
    OldAddressLookup(x, s2, s2, a);
  }

  const ONE_COPY: Collection := Collection(true, {10}, {10}, map[10 := 20])

  /** The panicking lookups at a concrete input: an object with table 7 is copied from 10 to 20. */
  lemma LookupPanicExample() returns (evs1: seq<Event>, evs2: seq<Event>, s1: State, s2: State)
    ensures Reads(Context(ONE_COPY, {10}, map[10 := 7]), evs1, evs2, s1, s2) && 10 in s1.pc && s1.pc[10].Copied?
    ensures GetGivtbl(s1, s2, 20) == None && GetGivtbl(s2, s2, 10) == None
  {
    evs1, evs2, s1, s2 := SomeLookupPanics(Context(ONE_COPY, {10}, map[10 := 7]), 10);
  }

  /** A lost table at a concrete input: the same object without RUBY_FL_EXIVAR. */
  lemma LostTableExample() returns (evs: seq<Event>)
    ensures var x := Context(ONE_COPY, {}, map[10 := 7]);
            && CanRun(x, Init(x), evs) && Run(x, Init(x), evs).stage.Cleaned?
            && Run(x, Init(x), evs).table == map[]
            && EagerRun(x, x.table0, Init(x), evs) != map[]
  {
    var x := Context(ONE_COPY, {}, map[10 := 7]);
    InitInv(x);
    evs := Completes(x, Init(x));
    DelayedAgreesWithEager(x, evs);
    assert x.Kept() == map[] && 10 in x.c.forwarded;
    assert Expected(x.c, map[], Run(x, Init(x), evs).table);
  }

  // ---------- The code ----------

  /** `generic_iv_tbl_` in the VM and `moved_givtbl` with its mutex in the binding. */
  class GivtblTables {
    var table: Table
    var moved: SideMap
    var locked: bool

    ghost predicate In(s: State)
      reads this
    {
      table == s.table && moved == s.moved
    }

    constructor ()
      ensures table == map[] && moved == map[] && !locked
    {
      table, moved, locked := map[], map[], false;
    }

    /** The start of `copy`; without an entry a flagged object makes it panic. */
    method LoadForCopy(from: Addr, hasExivarFlag: bool) returns (givtbl: Option<Givtbl>, panicked: bool)
      ensures panicked <==> hasExivarFlag && from !in table
      ensures givtbl == if hasExivarFlag && from in table then Some(table[from]) else None
    {
      givtbl, panicked := None, false;
      if hasExivarFlag {
        if from in table {
          givtbl := Some(table[from]);
        } else {
          panicked := true;
        }
      }
    }

    /** The end of `copy`. */
    method RecordCopy(from: Addr, to: Addr, givtbl: Option<Givtbl>)
      modifies this`moved
      ensures moved == if givtbl.Some? then old(moved)[to := MovedEntry(from, givtbl.value)] else old(moved)
    {
      if givtbl.Some? {
        moved := moved[to := MovedEntry(from, givtbl.value)];
      }
    }

    /** One iteration of the drain loop is one Drain event. */
    method DrainOne(to: Addr, ghost x: Context, ghost s0: State) returns (ghost s: State)
      requires Inv(x, s0) && s0.stage.Draining? && In(s0) && to in moved
      modifies this`table, this`moved
      ensures Inv(x, s) && s.stage.Draining? && In(s) && |moved| < |old(moved)|
    {
      StepInv(x, s0, Drain(to));
      s := Do(x, s0, Drain(to));
      table := MoveGivtbl(table, moved[to].oldObjref, to);
      moved := moved - {to};
      assert moved.Keys == old(moved).Keys - {to};
    }

    /** The drain loop, in whatever order the map yields its keys. */
    method DrainAll(ghost x: Context, ghost s0: State) returns (ghost s: State)
      requires Inv(x, s0) && s0.stage.Draining? && In(s0)
      modifies this`table, this`moved
      ensures Inv(x, s) && s.stage.Draining? && In(s) && moved == map[]
    {
      s := s0;
      while moved != map[]
        invariant Inv(x, s) && s.stage.Draining? && In(s)
        decreases |moved|
      {
        var to :| to in moved;
        s := DrainOne(to, x, s);
      }
    }

    /** `update_generic_iv_tbl`, from any state in which tracing has ended.  If the mutex is taken
        it panics before it has changed anything. */
    method UpdateGenericIvTbl(c: Collection, ghost x: Context, ghost s0: State)
      returns (itemsMoved: nat, panicked: bool)
      requires Inv(x, s0) && s0.stage.Traced? && In(s0) && c == x.c
      modifies this
      ensures panicked <==> old(locked)
      ensures locked == old(locked)
      ensures panicked ==> table == old(table) && moved == old(moved)
      ensures !panicked ==> itemsMoved == |old(moved)| && Expected(c, x.Kept(), table) && moved == map[]
    {
      if locked {
        return 0, true;
      }
      locked, itemsMoved, panicked := true, |moved|, false;
      StepInv(x, s0, Lock);
      ghost var s := DrainAll(x, Do(x, s0, Lock));
      locked := false;
      DrainedThenCleaned(x, s);
      table := CleanUp(c, table);
    }
  }

  lemma DrainedThenCleaned(x: Context, s: State)
    requires Inv(x, s) && s.stage.Draining? && s.moved == map[]
    ensures Expected(x.c, x.Kept(), CleanUp(x.c, s.table))
  {
    StepInv(x, s, Unlock);
    StepInv(x, Do(x, s, Unlock), Clean);
  }
}
