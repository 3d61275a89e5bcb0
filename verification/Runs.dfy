/** Whole runs: any sequence of mutator calls and collections.  The binding only sees
    addresses, which change with every copy and are handed out again; the world next to it
    speaks of object identities.  The theorem is that the binding always holds the world's
    lists, sets, table and pins at the objects' current addresses. */
module Runs {
  import opened Heap
  import opened Chunks
  import opened Ppp
  import opened WeakLists
  import GenericIv
  import Closure

  /** The binding between collections; `flags` are the objects whose header has RUBY_FL_EXIVAR. */
  datatype Binding = Binding(
    cands: seq<Addr>,
    ppps: seq<Addr>,
    wb: set<Addr>,
    table: GenericIv.Table,
    flags: set<Addr>,
    pins: set<Addr>,
    pinnedList: seq<Addr>,
    moved: GenericIv.SideMap)

  /** The same in terms of identities, with the history of the obj_free candidates.  `missed` are
      the objects that some collection has not reached although they are still there. */
  datatype World = World(
    heap: map<Id, Addr>,
    used: set<Id>,
    cands: seq<Id>, registered: seq<Id>, freed: seq<Id>, handedOut: seq<Id>,
    ppps: seq<Id>,
    wb: set<Id>,
    giv: map<Id, GenericIv.Givtbl>,
    flags: set<Id>,
    missed: set<Id>,
    pins: set<Id>)

  /** One collection: what the collector and the VM decide, and the schedules of the stages. */
  datatype Gc = Gc(
    c: Collection,
    vm: Vm,
    noLongerPpp: set<Addr>,
    prepare: seq<PinEvent>,
    tracing: seq<GenericIv.Event>,
    closure: seq<Closure.Event>)

  datatype Event =
    | Allocate(o: Id, a: Addr)
    | AddCandidates(os: seq<Id>)
    | TakeCandidates
    | RegisterPpps(os: seq<Id>)
    | RegisterWb(o: Id)
    | SetGivtbl(o: Id, v: GenericIv.Givtbl)
    | PinObject(o: Id)
    | UnpinObject(o: Id)
    | Collect(g: Gc)

  ghost function Locate(h: map<Id, Addr>, os: seq<Id>): seq<Addr>
    requires forall o :: o in os ==> o in h
  {
    if os == [] then [] else [h[os[0]]] + Locate(h, os[1..])
  }

  ghost function Image(h: map<Id, Addr>, os: set<Id>): set<Addr>
    requires os <= h.Keys
  {
    set o | o in os :: h[o]
  }

  ghost predicate TableHolds(h: map<Id, Addr>, giv: map<Id, GenericIv.Givtbl>, table: GenericIv.Table)
    requires giv.Keys <= h.Keys
  {
    && (forall a :: a in table ==> exists o :: o in giv && h[o] == a)
    && (forall o :: o in giv ==> h[o] in table && table[h[o]] == giv[o])
  }

  ghost predicate WellFormed(w: World) {
    && (forall o, p :: o in w.heap && p in w.heap && w.heap[o] == w.heap[p] ==> o == p)
    && w.heap.Keys <= w.used
    && (forall o :: o in w.cands ==> o in w.heap)
    && (forall o :: o in w.ppps ==> o in w.heap)
    && w.wb <= w.heap.Keys && w.giv.Keys <= w.heap.Keys && w.flags <= w.heap.Keys && w.pins <= w.heap.Keys
  }

  /** Flags and entries are in step, except that an object that was missed keeps its flag. */
  ghost predicate InStep(w: World) {
    w.giv.Keys <= w.flags && w.flags - w.missed <= w.giv.Keys
  }

  /** `b` is the world at the objects' current addresses, and its working areas are empty. */
  ghost predicate Represents(b: Binding, w: World)
    requires WellFormed(w)
  {
    && b.cands == Locate(w.heap, w.cands)
    && b.ppps == Locate(w.heap, w.ppps)
    && b.wb == Image(w.heap, w.wb)
    && TableHolds(w.heap, w.giv, b.table)
    && b.flags == Image(w.heap, w.flags)
    && b.pins == Image(w.heap, w.pins)
    && b.pinnedList == [] && b.moved == map[]
  }

  // ---------- One collection, as the binding runs it ----------

  ghost function GivContext(b: Binding, g: Gc): GenericIv.Context {
    GenericIv.Context(g.c, b.flags, b.table)
  }

  ghost function GivStart(b: Binding, g: Gc): GenericIv.State {
    GenericIv.Init(GivContext(b, g)).(moved := b.moved)
  }

  ghost function PinStart(b: Binding, g: Gc): PinState {
    InitPins(g.c.mayMove, b.ppps, b.pins, b.pinnedList)
  }

  ghost predicate PrepareAndTrace(b: Binding, g: Gc) {
    && PinCanRun(g.vm, PinStart(b, g), g.prepare)
    && PinQuiescent(PinRun(g.vm, PinStart(b, g), g.prepare))
    && GenericIv.CanRun(GivContext(b, g), GivStart(b, g), g.tracing)
    && GenericIv.Run(GivContext(b, g), GivStart(b, g), g.tracing).stage.Traced?
  }

  ghost function ClosureContext(b: Binding, g: Gc): Closure.Context {
    Closure.Context(GivContext(b, g), g.noLongerPpp)
  }

  ghost function ClosureStart(b: Binding, g: Gc): Closure.State
    requires PrepareAndTrace(b, g)
  {
    var prepared := PinRun(g.vm, PinStart(b, g), g.prepare);
    Closure.State(
      b.cands, [], [],
      GenericIv.Run(GivContext(b, g), GivStart(b, g), g.tracing),
      b.wb, {},
      b.ppps, [],
      prepared.pinned, false, [], prepared.pins, 0)
  }

  /** The stages follow each other, each runs until nothing is left to do, and the collector
      keeps its promises: in particular it copies nothing that is pinned after Prepare. */
  ghost predicate CanCollect(h: map<Id, Addr>, b: Binding, g: Gc) {
    && PrepareAndTrace(b, g)
    && g.c.Legal(h.Values, PinRun(g.vm, PinStart(b, g), g.prepare).pins)
    && Closure.CanRun(ClosureContext(b, g), ClosureStart(b, g), g.closure)
    && Closure.Quiescent(ClosureContext(b, g), ClosureEnd(b, g))
  }

  ghost function ClosureEnd(b: Binding, g: Gc): Closure.State
    requires PrepareAndTrace(b, g) && Closure.CanRun(ClosureContext(b, g), ClosureStart(b, g), g.closure)
  {
    Closure.Run(ClosureContext(b, g), ClosureStart(b, g), g.closure)
  }

  /** The header flags of the live objects: `copy` takes them along with the other bytes, and
      nothing else in a collection writes them. */
  ghost function FlagsAfter(c: Collection, flags: set<Addr>): set<Addr> {
    set a | a in flags && a in c.live :: c.Forward(a)
  }

  /** When mutators resume, the pin bits of dead objects have been reclaimed with their memory. */
  ghost function AfterCollection(b: Binding, g: Gc): Binding
    requires PrepareAndTrace(b, g) && Closure.CanRun(ClosureContext(b, g), ClosureStart(b, g), g.closure)
  {
    var s := ClosureEnd(b, g);
    Binding(s.freeKept, s.pppKept, s.wbKept, s.giv.table, FlagsAfter(g.c, b.flags),
            s.pins * g.c.live, s.pinnedList, s.giv.moved)
  }

  // ---------- One collection, in terms of identities ----------

  ghost function Survivors(h: map<Id, Addr>, c: Collection): map<Id, Addr> {
    map o | o in h && h[o] in c.live :: c.Forward(h[o])
  }

  ghost predicate Reached(h: map<Id, Addr>, c: Collection, o: Id) {
    o in h && h[o] in c.reachable
  }

  ghost predicate StaysPpp(h: map<Id, Addr>, g: Gc, o: Id) {
    o in h && h[o] in g.c.live && g.c.Forward(h[o]) !in g.noLongerPpp
  }

  ghost function KeepReached(h: map<Id, Addr>, c: Collection, os: seq<Id>): seq<Id> {
    if os == [] then [] else (if Reached(h, c, os[0]) then [os[0]] else []) + KeepReached(h, c, os[1..])
  }

  ghost function DropReached(h: map<Id, Addr>, c: Collection, os: seq<Id>): seq<Id> {
    if os == [] then [] else (if Reached(h, c, os[0]) then [] else [os[0]]) + DropReached(h, c, os[1..])
  }

  ghost function KeepPpps(h: map<Id, Addr>, g: Gc, os: seq<Id>): seq<Id> {
    if os == [] then [] else (if StaysPpp(h, g, os[0]) then [os[0]] else []) + KeepPpps(h, g, os[1..])
  }

  ghost function KeepGiv(h: map<Id, Addr>, c: Collection, giv: map<Id, GenericIv.Givtbl>): map<Id, GenericIv.Givtbl> {
    map o | o in giv && Reached(h, c, o) :: giv[o]
  }

  ghost function CollectWorld(w: World, g: Gc): World {
    w.(heap := Survivors(w.heap, g.c),
       cands := KeepReached(w.heap, g.c, w.cands),
       freed := w.freed + DropReached(w.heap, g.c, w.cands),
       ppps := KeepPpps(w.heap, g, w.ppps),
       wb := (set o | o in w.wb && Reached(w.heap, g.c, o)),
       giv := KeepGiv(w.heap, g.c, w.giv),
       flags := (set o | o in w.flags && o in Survivors(w.heap, g.c)),
       missed := (set o | o in Survivors(w.heap, g.c) && (o in w.missed || !Reached(w.heap, g.c, o))),
       pins := (set o | o in w.pins && o in Survivors(w.heap, g.c)))
  }

  // ---------- A collection keeps the representation ----------

  lemma {:induction false} KeepReachedMembers(h: map<Id, Addr>, c: Collection, os: seq<Id>, o: Id)
    ensures o in KeepReached(h, c, os) <==> o in os && Reached(h, c, o)
    ensures o in DropReached(h, c, os) <==> o in os && !Reached(h, c, o)
  {
    if os == [] {
    } else {
      KeepReachedMembers(h, c, os[1..], o);
    }
  }

  lemma {:induction false} KeepPppsMembers(h: map<Id, Addr>, g: Gc, os: seq<Id>, o: Id)
    ensures o in KeepPpps(h, g, os) <==> o in os && StaysPpp(h, g, o)
  {
    if os == [] {
    } else {
      KeepPppsMembers(h, g, os[1..], o);
    }
  }

  lemma LocateCons(h: map<Id, Addr>, o: Id, os: seq<Id>)
    requires o in h && forall p :: p in os ==> p in h
    ensures Locate(h, [o] + os) == [h[o]] + Locate(h, os)
  {
    assert ([o] + os)[1..] == os;
  }

  lemma {:induction false} RetainedLocated(h: map<Id, Addr>, c: Collection, os: seq<Id>)
    requires c.reachable <= c.live && forall o :: o in os ==> o in h
    ensures forall o :: o in KeepReached(h, c, os) ==> o in Survivors(h, c)
    ensures forall o :: o in DropReached(h, c, os) ==> o in h
    ensures Retained(c, Locate(h, os)) == Locate(Survivors(h, c), KeepReached(h, c, os))
    ensures Dying(c, Locate(h, os)) == Locate(h, DropReached(h, c, os))
  {
    if os == [] {
    } else {
      RetainedLocated(h, c, os[1..]);
      assert Locate(h, os)[1..] == Locate(h, os[1..]);
      if Reached(h, c, os[0]) {
        LocateCons(Survivors(h, c), os[0], KeepReached(h, c, os[1..]));
        assert DropReached(h, c, os) == DropReached(h, c, os[1..]);
      } else {
        LocateCons(h, os[0], DropReached(h, c, os[1..]));
        assert KeepReached(h, c, os) == KeepReached(h, c, os[1..]);
      }
    }
  }

  lemma {:induction false} RetainLocated(h: map<Id, Addr>, g: Gc, os: seq<Id>)
    requires forall o :: o in os ==> o in h
    ensures forall o :: o in KeepPpps(h, g, os) ==> o in Survivors(h, g.c)
    ensures Retain(g.c, g.noLongerPpp, Locate(h, os)) == Locate(Survivors(h, g.c), KeepPpps(h, g, os))
  {
    if os == [] {
    } else {
      RetainLocated(h, g, os[1..]);
      assert Locate(h, os)[1..] == Locate(h, os[1..]);
      if StaysPpp(h, g, os[0]) {
        LocateCons(Survivors(h, g.c), os[0], KeepPpps(h, g, os[1..]));
      } else {
        assert KeepPpps(h, g, os) == KeepPpps(h, g, os[1..]);
      }
    }
  }

  lemma CollectWellFormed(w: World, g: Gc, pinned: set<Addr>)
    requires WellFormed(w) && g.c.Legal(w.heap.Values, pinned)
    ensures WellFormed(CollectWorld(w, g))
  {
    var w' := CollectWorld(w, g);
    forall o, p | o in w'.heap && p in w'.heap && w'.heap[o] == w'.heap[p]
      ensures o == p
    {
      ForwardInjective(g.c, w.heap.Values, pinned, w.heap[o], w.heap[p]);
    }
    forall o | o in w'.cands ensures o in w'.heap {
      KeepReachedMembers(w.heap, g.c, w.cands, o);
    }
    forall o | o in w'.ppps ensures o in w'.heap {
      KeepPppsMembers(w.heap, g, w.ppps, o);
    }
  }

  lemma TableLocated(h: map<Id, Addr>, c: Collection, giv: map<Id, GenericIv.Givtbl>,
                     before: GenericIv.Table, after: GenericIv.Table)
    requires c.reachable <= c.live && giv.Keys <= h.Keys
    requires TableHolds(h, giv, before) && GenericIv.Expected(c, before, after)
    ensures KeepGiv(h, c, giv).Keys <= Survivors(h, c).Keys
    ensures TableHolds(Survivors(h, c), KeepGiv(h, c, giv), after)
  {
    var h', giv' := Survivors(h, c), KeepGiv(h, c, giv);
    forall k | k in after
      ensures exists o :: o in giv' && h'[o] == k
    {
      var o :| o in giv && h[o] == c.Origin(k);
      assert o in giv' && h'[o] == k;
    }
    forall o | o in giv'
      ensures h'[o] in after && after[h'[o]] == giv'[o]
    {
      assert h[o] in before && h[o] in c.reachable;
    }
  }

  lemma SetsLocated(w: World, g: Gc, pinned: set<Addr>)
    requires WellFormed(w) && g.c.Legal(w.heap.Values, pinned) && Image(w.heap, w.pins) <= pinned
    ensures var w' := CollectWorld(w, g);
            && w'.wb <= w'.heap.Keys && w'.pins <= w'.heap.Keys
            && ForwardedSet(g.c, Image(w.heap, w.wb)) == Image(w'.heap, w'.wb)
            && Image(w.heap, w.pins) * g.c.live == Image(w'.heap, w'.pins)
  {
    var w' := CollectWorld(w, g);
    forall a | a in ForwardedSet(g.c, Image(w.heap, w.wb))
      ensures a in Image(w'.heap, w'.wb)
    {
      var o :| o in w.wb && w.heap[o] in g.c.reachable && g.c.Forward(w.heap[o]) == a;
      assert o in w'.wb && w'.heap[o] == a;
    }
    forall o | o in w'.wb
      ensures w'.heap[o] in ForwardedSet(g.c, Image(w.heap, w.wb))
    {
      assert w.heap[o] in Image(w.heap, w.wb);
    }
    forall o | o in w.pins && o in w'.heap
      ensures w'.heap[o] == w.heap[o]
    {
      assert w.heap[o] in pinned;
    }
    forall a | a in Image(w.heap, w.pins) * g.c.live
      ensures a in Image(w'.heap, w'.pins)
    {
      var o :| o in w.pins && w.heap[o] == a;
      assert o in w'.pins && w'.heap[o] == a;
    }
  }

  /** Mutators have no reference to an object that a collection has not reached, so no later
      collection reaches it. */
  ghost predicate MissedStayMissed(w: World, c: Collection) {
    forall o :: o in w.missed && o in w.heap ==> w.heap[o] !in c.reachable
  }

  lemma FlagsLocated(w: World, g: Gc)
    requires WellFormed(w)
    ensures var w' := CollectWorld(w, g);
            w'.flags <= w'.heap.Keys && FlagsAfter(g.c, Image(w.heap, w.flags)) == Image(w'.heap, w'.flags)
  {
    var w' := CollectWorld(w, g);
    forall a | a in FlagsAfter(g.c, Image(w.heap, w.flags))
      ensures a in Image(w'.heap, w'.flags)
    {
      var o :| o in w.flags && w.heap[o] in g.c.live && g.c.Forward(w.heap[o]) == a;
      assert o in w'.flags && w'.heap[o] == a;
    }
    forall o | o in w'.flags
      ensures w'.heap[o] in FlagsAfter(g.c, Image(w.heap, w.flags))
    {
      assert w.heap[o] in Image(w.heap, w.flags);
    }
  }

  lemma CollectInStep(w: World, g: Gc)
    requires InStep(w) && MissedStayMissed(w, g.c) && g.c.reachable <= g.c.live
    ensures InStep(CollectWorld(w, g))
  {
    var w' := CollectWorld(w, g);
    assert forall o :: o in w'.flags - w'.missed ==> o in w.flags && o !in w.missed && Reached(w.heap, g.c, o);
    assert forall o :: o in w'.giv ==> o in w.giv && o in Survivors(w.heap, g.c);
  }

  /** On the objects a collection reaches, flag and entry coincide. */
  lemma FlagIffEntry(b: Binding, w: World, c: Collection, a: Addr)
    requires WellFormed(w) && Represents(b, w) && InStep(w) && MissedStayMissed(w, c)
    requires a in c.reachable
    ensures a in b.flags <==> a in b.table
  {
    if a in b.flags {
      var o :| o in w.flags && w.heap[o] == a;
      assert o in w.giv;
    }
  }

  lemma GivStarts(b: Binding, w: World, g: Gc, pinned: set<Addr>)
    requires WellFormed(w) && Represents(b, w) && g.c.Legal(w.heap.Values, pinned)
    requires InStep(w) && MissedStayMissed(w, g.c)
    ensures GivContext(b, g).Valid() && GivStart(b, g) == GenericIv.Init(GivContext(b, g))
    ensures !GenericIv.UnflaggedEntry(GivContext(b, g)) && GivContext(b, g).Kept() == b.table
  {
    assert b.table.Keys <= w.heap.Values;
    forall a | a in g.c.forwarded
      ensures a in b.flags <==> a in b.table
    {
      FlagIffEntry(b, w, g.c, a);
    }
  }

  lemma ClosureStarts(b: Binding, w: World, g: Gc)
    requires WellFormed(w) && Represents(b, w) && CanCollect(w.heap, b, g)
    requires InStep(w) && MissedStayMissed(w, g.c)
    ensures Closure.Starts(ClosureContext(b, g), ClosureStart(b, g))
    ensures GivContext(b, g).Kept() == b.table
  {
    GivStarts(b, w, g, PinRun(g.vm, PinStart(b, g), g.prepare).pins);
    GenericIv.InitInv(GivContext(b, g));
    GenericIv.RunInv(GivContext(b, g), GivStart(b, g), g.tracing);
  }

  /** Without that, the exact condition: some schedule of the copies panics iff the collection
      copies an object whose entry an earlier collection has dropped without clearing its flag. */
  lemma CopyPanicsIffRevived(b: Binding, w: World, g: Gc)
    requires WellFormed(w) && Represents(b, w) && InStep(w)
    ensures (exists evs :: var x := GivContext(b, g);
               GenericIv.CanRun(x, GivStart(b, g), evs) && GenericIv.Run(x, GivStart(b, g), evs).panicked)
       <==> exists o :: o in w.missed && o in w.flags && o !in w.giv && w.heap[o] in g.c.forwarded
  {
    var x := GivContext(b, g);
    GenericIv.CopyPanicsIff(x);
    assert GivStart(b, g) == GenericIv.Init(x);
    if a :| a in g.c.forwarded && a in b.flags && a !in b.table {
      var o :| o in w.flags && w.heap[o] == a;
      assert o in w.missed && o !in w.giv;
    }
    if o :| o in w.missed && o in w.flags && o !in w.giv && w.heap[o] in g.c.forwarded {
      assert w.heap[o] in b.flags && w.heap[o] !in b.table;
    }
  }

  /** The end of the last stage, in terms of addresses. */
  lemma ClosureOutcome(b: Binding, w: World, g: Gc)
    requires WellFormed(w) && Represents(b, w) && CanCollect(w.heap, b, g)
    requires InStep(w) && MissedStayMissed(w, g.c)
    ensures b.pins <= PinRun(g.vm, PinStart(b, g), g.prepare).pins
    ensures var s, c := ClosureEnd(b, g), g.c;
            && s.freeKept == Retained(c, b.cands) && s.freed == Dying(c, b.cands)
            && s.wbKept == ForwardedSet(c, b.wb)
            && s.pppKept == Retain(c, g.noLongerPpp, b.ppps)
            && GenericIv.Expected(c, b.table, s.giv.table) && s.giv.moved == map[] && !s.giv.panicked
            && s.pins == b.pins && s.pinnedList == [] && s.failedAssertions == 0
  {
    var t := ClosureContext(b, g);
    PinsConserved(g.vm, g.c.mayMove, b.ppps, b.pins, g.prepare);
    PinningOutcome(g.vm, g.c.mayMove, b.ppps, b.pins, g.prepare);
    ClosureStarts(b, w, g);
    Closure.Confluence(t, ClosureStart(b, g), g.closure);
    Closure.RunConservesOutcome(t, ClosureStart(b, g), g.closure);
  }

  /** A whole collection, for every schedule of every stage: the binding ends at the new
      addresses of exactly what the identities say, `obj_free` has been called on exactly the
      unreachable candidates, no assertion has failed and no copy has panicked. */
  lemma CollectionIsCorrect(b: Binding, w: World, g: Gc)
    requires WellFormed(w) && Represents(b, w) && CanCollect(w.heap, b, g)
    requires InStep(w) && MissedStayMissed(w, g.c)
    ensures WellFormed(CollectWorld(w, g)) && InStep(CollectWorld(w, g))
    ensures Represents(AfterCollection(b, g), CollectWorld(w, g))
    ensures ClosureEnd(b, g).failedAssertions == 0 && !ClosureEnd(b, g).giv.panicked
    ensures forall o :: o in DropReached(w.heap, g.c, w.cands) ==> o in w.heap
    ensures ClosureEnd(b, g).freed == Locate(w.heap, DropReached(w.heap, g.c, w.cands))
  {
    var prepared := PinRun(g.vm, PinStart(b, g), g.prepare);
    ClosureOutcome(b, w, g);
    CollectWellFormed(w, g, prepared.pins);
    RetainedLocated(w.heap, g.c, w.cands);
    RetainLocated(w.heap, g, w.ppps);
    TableLocated(w.heap, g.c, w.giv, b.table, ClosureEnd(b, g).giv.table);
    SetsLocated(w, g, prepared.pins);
    FlagsLocated(w, g);
    CollectInStep(w, g);
  }

  /** Every collection that respects the pins can be run to the end, whatever it keeps, copies
      and is told by the VM; so no part of the results above is about schedules that do not exist. */
  lemma CollectionCanComplete(b: Binding, w: World, c: Collection, vm: Vm, noLonger: set<Addr>) returns (g: Gc)
    requires WellFormed(w) && Represents(b, w)
    requires InStep(w) && MissedStayMissed(w, c)
    requires c.Legal(w.heap.Values, b.pins + AllTargets(vm, c.mayMove, b.ppps))
    ensures g.c == c && g.vm == vm && g.noLongerPpp == noLonger && CanCollect(w.heap, b, g)
  {
    g := Gc(c, vm, noLonger, [], [], []);
    var prepare := PinCompletes(vm, PinStart(b, g));
    g := g.(prepare := prepare);
    PinningOutcome(vm, c.mayMove, b.ppps, b.pins, prepare);
    var x := GivContext(b, g);
    GivStarts(b, w, g, PinRun(vm, PinStart(b, g), prepare).pins);
    GenericIv.InitInv(x);
    var tracing := GenericIv.TracingCompletes(x, GivStart(b, g));
    g := g.(tracing := tracing);
    GenericIv.RunInv(x, GivStart(b, g), tracing);
    var closure := Closure.Completes(ClosureContext(b, g), ClosureStart(b, g));
    g := g.(closure := closure);
  }

  // ---------- Executions ----------

  ghost predicate Known(h: map<Id, Addr>, os: seq<Id>) {
    forall o :: o in os ==> o in h
  }

  ghost predicate CanDo(b: Binding, w: World, ev: Event) {
    match ev
    case Allocate(o, a) => o !in w.used && a !in w.heap.Values
    case AddCandidates(os) => Known(w.heap, os)
    case TakeCandidates => true
    case RegisterPpps(os) => Known(w.heap, os)
    case RegisterWb(o) => o in w.heap
    case SetGivtbl(o, _) => o in w.heap
    case PinObject(o) => o in w.heap
    case UnpinObject(o) => o in w.heap
    case Collect(g) => CanCollect(w.heap, b, g) && MissedStayMissed(w, g.c)
  }

  ghost function BindingDo(b: Binding, w: World, ev: Event): Binding
    requires CanDo(b, w, ev)
  {
    match ev
    case Allocate(_, _) => b
    case AddCandidates(os) => b.(cands := b.cands + Locate(w.heap, os))
    case TakeCandidates => b.(cands := [])
    case RegisterPpps(os) => b.(ppps := b.ppps + Locate(w.heap, os))
    case RegisterWb(o) => b.(wb := b.wb + {w.heap[o]})
    case SetGivtbl(o, v) => b.(table := b.table[w.heap[o] := v], flags := b.flags + {w.heap[o]})
    case PinObject(o) => b.(pins := b.pins + {w.heap[o]})
    case UnpinObject(o) => b.(pins := b.pins - {w.heap[o]})
    case Collect(g) => AfterCollection(b, g)
  }

  ghost function WorldDo(w: World, ev: Event): World {
    match ev
    case Allocate(o, a) => w.(heap := w.heap[o := a], used := w.used + {o})
    case AddCandidates(os) => w.(cands := w.cands + os, registered := w.registered + os)
    case TakeCandidates => w.(cands := [], handedOut := w.handedOut + w.cands)
    case RegisterPpps(os) => w.(ppps := w.ppps + os)
    case RegisterWb(o) => w.(wb := w.wb + {o})
    case SetGivtbl(o, v) => w.(giv := w.giv[o := v], flags := w.flags + {o})
    case PinObject(o) => w.(pins := w.pins + {o})
    case UnpinObject(o) => w.(pins := w.pins - {o})
    case Collect(g) => CollectWorld(w, g)
  }

  datatype System = System(b: Binding, w: World)

  const START := System(
    Binding([], [], {}, map[], {}, {}, [], map[]),
    World(map[], {}, [], [], [], [], [], {}, map[], {}, {}, {}))

  /** `sys[i]` is the system before event `i`. */
  ghost predicate Execution(sys: seq<System>, evs: seq<Event>) {
    && |sys| == |evs| + 1
    && sys[0] == START
    && forall i :: 0 <= i < |evs| ==> StepAt(sys, evs, i)
  }

  ghost predicate StepAt(sys: seq<System>, evs: seq<Event>, i: int)
    requires |sys| == |evs| + 1 && 0 <= i < |evs|
  {
    IsStep(sys[i], evs[i], sys[i + 1])
  }

  ghost predicate IsStep(s: System, ev: Event, s': System) {
    CanDo(s.b, s.w, ev) && s' == System(BindingDo(s.b, s.w, ev), WorldDo(s.w, ev))
  }

  /** The identities of an execution. */
  ghost predicate History(ws: seq<World>, evs: seq<Event>) {
    && |ws| == |evs| + 1
    && ws[0] == START.w
    && forall i :: 0 <= i < |evs| ==> WorldStepAt(ws, evs, i)
  }

  ghost predicate WorldStepAt(ws: seq<World>, evs: seq<Event>, i: int)
    requires |ws| == |evs| + 1 && 0 <= i < |evs|
  {
    ws[i + 1] == WorldDo(ws[i], evs[i])
  }

  ghost function Worlds(sys: seq<System>): seq<World> {
    seq(|sys|, i requires 0 <= i < |sys| => sys[i].w)
  }

  lemma ExecutionHasHistory(sys: seq<System>, evs: seq<Event>)
    requires Execution(sys, evs)
    ensures History(Worlds(sys), evs)
  {
    forall i | 0 <= i < |evs|
      ensures WorldStepAt(Worlds(sys), evs, i)
    {
      assert StepAt(sys, evs, i);
    }
  }

  lemma {:induction false} LocateFrame(h: map<Id, Addr>, h': map<Id, Addr>, os: seq<Id>)
    requires forall o :: o in os ==> o in h && o in h' && h[o] == h'[o]
    ensures Locate(h, os) == Locate(h', os)
  {
    if os == [] {
    } else {
      LocateFrame(h, h', os[1..]);
    }
  }

  lemma {:induction false} LocateConcat(h: map<Id, Addr>, os: seq<Id>, ps: seq<Id>)
    requires Known(h, os) && Known(h, ps)
    ensures Locate(h, os + ps) == Locate(h, os) + Locate(h, ps)
  {
    if os == [] {
      assert os + ps == ps;
    } else {
      LocateConcat(h, os[1..], ps);
      assert (os + ps)[0] == os[0] && (os + ps)[1..] == os[1..] + ps;
      Assoc([h[os[0]]], Locate(h, os[1..]), Locate(h, ps));
    }
  }

  lemma ImageFrame(h: map<Id, Addr>, h': map<Id, Addr>, os: set<Id>)
    requires os <= h.Keys && os <= h'.Keys && forall o :: o in os ==> h[o] == h'[o]
    ensures Image(h, os) == Image(h', os)
  {
  }

  lemma AllocateStep(b: Binding, w: World, o: Id, a: Addr)
    requires WellFormed(w) && Represents(b, w) && CanDo(b, w, Allocate(o, a))
    ensures WellFormed(WorldDo(w, Allocate(o, a))) && Represents(b, WorldDo(w, Allocate(o, a)))
  {
    var h' := w.heap[o := a];
    assert forall p :: p in w.heap ==> p != o && h'[p] == w.heap[p] && h'[p] in w.heap.Values;
    LocateFrame(w.heap, h', w.cands);
    LocateFrame(w.heap, h', w.ppps);
    ImageFrame(w.heap, h', w.wb);
    ImageFrame(w.heap, h', w.flags);
    ImageFrame(w.heap, h', w.pins);
  }

  lemma ListStep(b: Binding, w: World, ev: Event)
    requires WellFormed(w) && Represents(b, w) && CanDo(b, w, ev)
    requires ev.AddCandidates? || ev.TakeCandidates? || ev.RegisterPpps?
    ensures WellFormed(WorldDo(w, ev)) && Represents(BindingDo(b, w, ev), WorldDo(w, ev))
  {
    match ev
    case AddCandidates(os) => LocateConcat(w.heap, w.cands, os);
    case RegisterPpps(os) => LocateConcat(w.heap, w.ppps, os);
    case TakeCandidates =>
  }

  lemma ImageAdd(h: map<Id, Addr>, os: set<Id>, o: Id)
    requires os <= h.Keys && o in h
    ensures Image(h, os + {o}) == Image(h, os) + {h[o]}
  {
  }

  lemma ImageRemove(w: World, os: set<Id>, o: Id)
    requires WellFormed(w) && os <= w.heap.Keys && o in w.heap
    ensures Image(w.heap, os - {o}) == Image(w.heap, os) - {w.heap[o]}
  {
  }

  lemma SetStep(b: Binding, w: World, ev: Event)
    requires WellFormed(w) && Represents(b, w) && CanDo(b, w, ev)
    requires ev.RegisterWb? || ev.PinObject? || ev.UnpinObject?
    ensures WellFormed(WorldDo(w, ev)) && Represents(BindingDo(b, w, ev), WorldDo(w, ev))
  {
    match ev
    case RegisterWb(o) => ImageAdd(w.heap, w.wb, o);
    case PinObject(o) => ImageAdd(w.heap, w.pins, o);
    case UnpinObject(o) => ImageRemove(w, w.pins, o);
  }

  lemma TableHoldsUpdate(h: map<Id, Addr>, giv: map<Id, GenericIv.Givtbl>, table: GenericIv.Table,
                         o: Id, v: GenericIv.Givtbl)
    requires o in h && giv.Keys <= h.Keys && TableHolds(h, giv, table)
    requires forall p :: p in giv && h[p] == h[o] ==> p == o
    ensures TableHolds(h, giv[o := v], table[h[o] := v])
  {
    var giv', table' := giv[o := v], table[h[o] := v];
    assert o in giv';
    forall a | a in table'
      ensures exists p :: p in giv' && h[p] == a
    {
      if a != h[o] {
        var p :| p in giv && h[p] == a;
        assert p in giv';
      }
    }
  }

  lemma SetGivtblStep(b: Binding, w: World, o: Id, v: GenericIv.Givtbl)
    requires WellFormed(w) && Represents(b, w) && o in w.heap
    ensures var ev := SetGivtbl(o, v);
            WellFormed(WorldDo(w, ev)) && Represents(BindingDo(b, w, ev), WorldDo(w, ev))
  {
    TableHoldsUpdate(w.heap, w.giv, b.table, o, v);
    ImageAdd(w.heap, w.flags, o);
  }

  lemma StepRepresents(b: Binding, w: World, ev: Event)
    requires WellFormed(w) && Represents(b, w) && InStep(w) && CanDo(b, w, ev)
    ensures WellFormed(WorldDo(w, ev)) && Represents(BindingDo(b, w, ev), WorldDo(w, ev)) && InStep(WorldDo(w, ev))
  {
    match ev
    case Collect(g) => CollectionIsCorrect(b, w, g);
    case Allocate(o, a) => AllocateStep(b, w, o, a);
    case AddCandidates(_) => ListStep(b, w, ev);
    case TakeCandidates => ListStep(b, w, ev);
    case RegisterPpps(_) => ListStep(b, w, ev);
    case SetGivtbl(o, v) => SetGivtblStep(b, w, o, v);
    case RegisterWb(_) => SetStep(b, w, ev);
    case PinObject(_) => SetStep(b, w, ev);
    case UnpinObject(_) => SetStep(b, w, ev);
  }

  lemma StartRepresents()
    ensures WellFormed(START.w) && Represents(START.b, START.w) && InStep(START.w)
  {
  }

  lemma SystemStep(sys: seq<System>, evs: seq<Event>, n: nat)
    requires Execution(sys, evs) && n < |evs|
    requires WellFormed(sys[n].w) && Represents(sys[n].b, sys[n].w) && InStep(sys[n].w)
    ensures WellFormed(sys[n + 1].w) && Represents(sys[n + 1].b, sys[n + 1].w) && InStep(sys[n + 1].w)
  {
    assert StepAt(sys, evs, n);
    StepRepresents(sys[n].b, sys[n].w, evs[n]);
  }

  /** At every point of every execution the binding is the world at the current addresses, and
      flags and entries are in step. */
  lemma {:induction false} BindingRepresentsWorld(sys: seq<System>, evs: seq<Event>, n: nat)
    requires Execution(sys, evs) && n <= |evs|
    ensures WellFormed(sys[n].w) && Represents(sys[n].b, sys[n].w) && InStep(sys[n].w)
  {
    if n == 0 {
      StartRepresents();
    } else {
      BindingRepresentsWorld(sys, evs, n - 1);
      SystemStep(sys, evs, n - 1);
    }
  }

  /** In no collection of any execution does the unpin or the emptiness assertion fail or a copy
      panic. */
  lemma NoPacketFailsNoCopyPanics(sys: seq<System>, evs: seq<Event>, i: nat)
    requires Execution(sys, evs) && i < |evs| && evs[i].Collect?
    ensures CanCollect(sys[i].w.heap, sys[i].b, evs[i].g)
    ensures ClosureEnd(sys[i].b, evs[i].g).failedAssertions == 0
    ensures !ClosureEnd(sys[i].b, evs[i].g).giv.panicked
  {
    BindingRepresentsWorld(sys, evs, i);
    assert StepAt(sys, evs, i);
    CollectionIsCorrect(sys[i].b, sys[i].w, evs[i].g);
  }

  lemma Extend(sys: seq<System>, evs: seq<Event>, b: Binding, w: World, ev: Event)
    requires Execution(sys, evs) && sys[|evs|] == System(b, w) && CanDo(b, w, ev)
    ensures Execution(sys + [System(BindingDo(b, w, ev), WorldDo(w, ev))], evs + [ev])
  {
    var sys', evs' := sys + [System(BindingDo(b, w, ev), WorldDo(w, ev))], evs + [ev];
    forall i | 0 <= i < |evs'|
      ensures StepAt(sys', evs', i)
    {
      if i < |evs| {
        assert StepAt(sys, evs, i);
      }
    }
  }

  /** Object 1, at address 10, is given table 7. */
  lemma OneTable() returns (sys: seq<System>, evs: seq<Event>)
    ensures Execution(sys, evs) && |evs| == 2
    ensures var w := sys[2].w; w.heap == map[1 := 10] && w.giv == map[1 := 7] && w.flags == {1} && w.missed == {}
    ensures sys[2].b.pins == {} && sys[2].b.ppps == []
  {
    sys, evs := [START], [];
    Extend(sys, evs, START.b, START.w, Allocate(1, 10));
    sys, evs := sys + [System(START.b, WorldDo(START.w, Allocate(1, 10)))], evs + [Allocate(1, 10)];
    var b, w := sys[1].b, sys[1].w;
    Extend(sys, evs, b, w, SetGivtbl(1, 7));
    sys, evs := sys + [System(BindingDo(b, w, SetGivtbl(1, 7)), WorldDo(w, SetGivtbl(1, 7)))], evs + [SetGivtbl(1, 7)];
  }

  /** A collection that does not reach it drops the entry and leaves the flag. */
  lemma DroppedTable() returns (sys: seq<System>, evs: seq<Event>)
    ensures Execution(sys, evs) && |evs| == 3
    ensures var w := sys[3].w; w.heap == map[1 := 10] && w.giv == map[] && 1 in w.flags && 1 in w.missed
  {
    sys, evs := OneTable();
    BindingRepresentsWorld(sys, evs, 2);
    var b, w := sys[2].b, sys[2].w;
    var g := CollectionCanComplete(b, w, Collection(false, {10}, {}, map[]), Vm({}, map[]), {});
    Extend(sys, evs, b, w, Collect(g));
    Dropped(w, g);
    sys, evs := sys + [System(BindingDo(b, w, Collect(g)), WorldDo(w, Collect(g)))], evs + [Collect(g)];
  }

  lemma Dropped(w: World, g: Gc)
    requires w.heap == map[1 := 10] && 1 in w.flags && g.c == Collection(false, {10}, {}, map[])
    ensures var w' := CollectWorld(w, g);
            w'.heap == map[1 := 10] && w'.giv == map[] && 1 in w'.flags && 1 in w'.missed
  {
  }

  /** Without `MissedStayMissed` a copy can panic: the next collection copies the object. */
  lemma RevivedObjectExample() returns (sys: seq<System>, evs: seq<Event>, g: Gc)
    ensures Execution(sys, evs) && |evs| == 3
    ensures g.c == Collection(true, {10}, {10}, map[10 := 20]) && g.c.Legal(sys[3].w.heap.Values, {})
    ensures exists tracing :: var x := GivContext(sys[3].b, g);
              GenericIv.CanRun(x, GivStart(sys[3].b, g), tracing)
              && GenericIv.Run(x, GivStart(sys[3].b, g), tracing).panicked
  {
    sys, evs := DroppedTable();
    g := Gc(Collection(true, {10}, {10}, map[10 := 20]), Vm({}, map[]), {}, [], [], []);
    BindingRepresentsWorld(sys, evs, 3);
    CopyPanicsIffRevived(sys[3].b, sys[3].w, g);
  }

  // ---------- obj_free: conservation and exactly once ----------

  lemma MultisetCons(o: Id, os: seq<Id>)
    ensures multiset([o] + os) == multiset{o} + multiset(os)
  {
  }

  lemma KeepDropCons(h: map<Id, Addr>, c: Collection, os: seq<Id>)
    requires os != []
    ensures multiset(os) == multiset{os[0]} + multiset(os[1..])
    ensures multiset(KeepReached(h, c, os))
         == (if Reached(h, c, os[0]) then multiset{os[0]} else multiset{}) + multiset(KeepReached(h, c, os[1..]))
    ensures multiset(DropReached(h, c, os))
         == (if Reached(h, c, os[0]) then multiset{} else multiset{os[0]}) + multiset(DropReached(h, c, os[1..]))
  {
    assert os == [os[0]] + os[1..];
    MultisetCons(os[0], os[1..]);
    MultisetCons(os[0], KeepReached(h, c, os[1..]));
    MultisetCons(os[0], DropReached(h, c, os[1..]));
    assert [] + KeepReached(h, c, os[1..]) == KeepReached(h, c, os[1..]);
    assert [] + DropReached(h, c, os[1..]) == DropReached(h, c, os[1..]);
  }

  lemma AddLeft(x: multiset<Id>, keep: multiset<Id>, drop: multiset<Id>, rest: multiset<Id>)
    requires keep + drop == rest
    ensures (x + keep) + (multiset{} + drop) == x + rest && (multiset{} + keep) + (x + drop) == x + rest
  {
  }

  lemma {:induction false} KeepDropMultiset(h: map<Id, Addr>, c: Collection, os: seq<Id>)
    ensures multiset(KeepReached(h, c, os)) + multiset(DropReached(h, c, os)) == multiset(os)
  {
    if os == [] {
    } else {
      KeepDropMultiset(h, c, os[1..]);
      KeepDropCons(h, c, os);
      AddLeft(multiset{os[0]}, multiset(KeepReached(h, c, os[1..])), multiset(DropReached(h, c, os[1..])),
              multiset(os[1..]));
    }
  }

  ghost predicate Accounted(w: World) {
    multiset(w.registered) == multiset(w.freed) + multiset(w.handedOut) + multiset(w.cands)
  }

  lemma AccountedStep(w: World, ev: Event)
    requires Accounted(w)
    ensures Accounted(WorldDo(w, ev))
  {
    if ev.Collect? {
      KeepDropMultiset(w.heap, ev.g.c, w.cands);
    }
  }

  lemma {:induction false} AlwaysAccounted(ws: seq<World>, evs: seq<Event>, n: nat)
    requires History(ws, evs) && n <= |evs|
    ensures Accounted(ws[n])
  {
    if n == 0 {
    } else {
      AlwaysAccounted(ws, evs, n - 1);
      AccountedStep(ws[n - 1], evs[n - 1]);
      assert WorldStepAt(ws, evs, n - 1);
    }
  }

  /** What the first `n` events have registered, in order and with repetition. */
  ghost function RegisteredBy(evs: seq<Event>, n: nat): seq<Id>
    requires n <= |evs|
  {
    if n == 0 then []
    else RegisteredBy(evs, n - 1) + if evs[n - 1].AddCandidates? then evs[n - 1].os else []
  }

  /** The candidates there were at every event that takes them. */
  ghost function TakenBy(ws: seq<World>, evs: seq<Event>, n: nat): seq<Id>
    requires |ws| == |evs| + 1 && n <= |evs|
  {
    if n == 0 then []
    else TakenBy(ws, evs, n - 1) + if evs[n - 1].TakeCandidates? then ws[n - 1].cands else []
  }

  /** The candidates that every collection has found unreachable. */
  ghost function FreedBy(ws: seq<World>, evs: seq<Event>, n: nat): seq<Id>
    requires |ws| == |evs| + 1 && n <= |evs|
  {
    if n == 0 then []
    else FreedBy(ws, evs, n - 1)
         + if evs[n - 1].Collect? then DropReached(ws[n - 1].heap, evs[n - 1].g.c, ws[n - 1].cands) else []
  }

  /** The records of the world are those of the events. */
  lemma {:induction false} RecordsAreEvents(ws: seq<World>, evs: seq<Event>, n: nat)
    requires History(ws, evs) && n <= |evs|
    ensures ws[n].registered == RegisteredBy(evs, n)
    ensures ws[n].handedOut == TakenBy(ws, evs, n)
    ensures ws[n].freed == FreedBy(ws, evs, n)
  {
    if n == 0 {
    } else {
      RecordsAreEvents(ws, evs, n - 1);
      RecordsStep(ws, evs, n - 1);
    }
  }

  lemma RecordsStep(ws: seq<World>, evs: seq<Event>, n: nat)
    requires History(ws, evs) && n < |evs|
    ensures var w, w', ev := ws[n], ws[n + 1], evs[n];
            && w'.registered == w.registered + (if ev.AddCandidates? then ev.os else [])
            && w'.handedOut == w.handedOut + (if ev.TakeCandidates? then w.cands else [])
            && w'.freed == w.freed + if ev.Collect? then DropReached(w.heap, ev.g.c, w.cands) else []
  {
    assert WorldStepAt(ws, evs, n);
  }

  /** Every candidate that any event has registered is accounted for: freed by a collection, handed
      out by an event that takes the candidates, or still a candidate. */
  lemma ObjFreeConservation(ws: seq<World>, evs: seq<Event>, n: nat)
    requires History(ws, evs) && n <= |evs|
    ensures multiset(RegisteredBy(evs, n))
         == multiset(FreedBy(ws, evs, n)) + multiset(TakenBy(ws, evs, n)) + multiset(ws[n].cands)
  {
    AlwaysAccounted(ws, evs, n);
    RecordsAreEvents(ws, evs, n);
  }

  /** In every execution an object registered once is, at any later point, freed once and gone,
      or handed out once and gone, or a candidate once. */
  lemma ObjFreeExactlyOnce(ws: seq<World>, evs: seq<Event>, n: nat, o: Id)
    requires History(ws, evs) && n <= |evs| && multiset(RegisteredBy(evs, n))[o] == 1
    ensures multiset(FreedBy(ws, evs, n))[o] + multiset(TakenBy(ws, evs, n))[o] + multiset(ws[n].cands)[o] == 1
  {
    ObjFreeConservation(ws, evs, n);
  }

  /** A collection calls `obj_free` exactly on the candidates it cannot reach, each as often as
      it is a candidate, at the address the object has at that moment. */
  lemma FreedAreUnreachable(b: Binding, w: World, g: Gc)
    requires WellFormed(w) && Represents(b, w) && CanCollect(w.heap, b, g)
    requires InStep(w) && MissedStayMissed(w, g.c)
    ensures var dead := DropReached(w.heap, g.c, w.cands);
            && Known(w.heap, dead)
            && ClosureEnd(b, g).freed == Locate(w.heap, dead)
            && WorldDo(w, Collect(g)).freed == w.freed + dead
            && (forall o :: o in dead <==> o in w.cands && w.heap[o] !in g.c.reachable)
  {
    ClosureOutcome(b, w, g);
    RetainedLocated(w.heap, g.c, w.cands);
    DroppedMembers(w.heap, g.c, w.cands);
  }

  lemma DroppedMembers(h: map<Id, Addr>, c: Collection, os: seq<Id>)
    requires Known(h, os)
    ensures forall o :: o in DropReached(h, c, os) <==> o in os && h[o] !in c.reachable
  {
    forall o
      ensures o in DropReached(h, c, os) <==> o in os && h[o] !in c.reachable
    {
      KeepReachedMembers(h, c, os, o);
    }
  }

  // ---------- Membership over whole executions ----------

  /** The object has been reached by every collection among events `from..n`. */
  ghost predicate ReachedThroughout(ws: seq<World>, evs: seq<Event>, o: Id, from: nat, n: nat)
    requires |ws| == |evs| + 1 && n <= |evs|
  {
    forall j :: from <= j < n && evs[j].Collect? ==> Reached(ws[j].heap, evs[j].g.c, o)
  }

  /** The object has stayed live and potentially pinning at every collection among `from..n`. */
  ghost predicate PppThroughout(ws: seq<World>, evs: seq<Event>, o: Id, from: nat, n: nat)
    requires |ws| == |evs| + 1 && n <= |evs|
  {
    forall j :: from <= j < n && evs[j].Collect? ==> StaysPpp(ws[j].heap, evs[j].g, o)
  }

  /** The object has been reached by every collection among events `from..n`, and none of these
      events has taken the candidates. */
  ghost predicate WaitingThroughout(ws: seq<World>, evs: seq<Event>, o: Id, from: nat, n: nat)
    requires |ws| == |evs| + 1 && n <= |evs|
  {
    ReachedThroughout(ws, evs, o, from, n) && forall j :: from <= j < n ==> !evs[j].TakeCandidates?
  }

  ghost function StillWaiting(ws: seq<World>, evs: seq<Event>, os: seq<Id>, from: nat, n: nat): seq<Id>
    requires |ws| == |evs| + 1 && n <= |evs|
  {
    if os == [] then []
    else (if WaitingThroughout(ws, evs, os[0], from, n) then [os[0]] else [])
         + StillWaiting(ws, evs, os[1..], from, n)
  }

  /** The registrations of the first `k` events, less those that were taken or freed before event `n`. */
  ghost function CandidatesBy(ws: seq<World>, evs: seq<Event>, k: nat, n: nat): seq<Id>
    requires |ws| == |evs| + 1 && k <= n <= |evs|
  {
    if k == 0 then []
    else CandidatesBy(ws, evs, k - 1, n)
         + if evs[k - 1].AddCandidates? then StillWaiting(ws, evs, evs[k - 1].os, k, n) else []
  }

  /** What event `n` leaves of a list of candidates ... */
  ghost function CandidatesAfter(ws: seq<World>, evs: seq<Event>, os: seq<Id>, n: nat): seq<Id>
    requires |ws| == |evs| + 1 && n < |evs|
  {
    match evs[n]
    case Collect(g) => KeepReached(ws[n].heap, g.c, os)
    case TakeCandidates => []
    case _ => os
  }

  /** ... and what it makes of the list. */
  ghost function CandidatesNext(ws: seq<World>, evs: seq<Event>, os: seq<Id>, n: nat): seq<Id>
    requires |ws| == |evs| + 1 && n < |evs|
  {
    CandidatesAfter(ws, evs, os, n) + if evs[n].AddCandidates? then evs[n].os else []
  }

  lemma {:induction false} KeepReachedConcat(h: map<Id, Addr>, c: Collection, a: seq<Id>, b: seq<Id>)
    ensures KeepReached(h, c, a + b) == KeepReached(h, c, a) + KeepReached(h, c, b)
  {
    if a == [] {
      assert a + b == b;
    } else {
      KeepReachedConcat(h, c, a[1..], b);
      assert (a + b)[0] == a[0] && (a + b)[1..] == a[1..] + b;
      Assoc(if Reached(h, c, a[0]) then [a[0]] else [], KeepReached(h, c, a[1..]), KeepReached(h, c, b));
    }
  }

  lemma CandidatesAfterConcat(ws: seq<World>, evs: seq<Event>, a: seq<Id>, b: seq<Id>, n: nat)
    requires |ws| == |evs| + 1 && n < |evs|
    ensures CandidatesAfter(ws, evs, a + b, n) == CandidatesAfter(ws, evs, a, n) + CandidatesAfter(ws, evs, b, n)
  {
    if evs[n].Collect? {
      KeepReachedConcat(ws[n].heap, evs[n].g.c, a, b);
    }
  }

  lemma WaitingStep(ws: seq<World>, evs: seq<Event>, o: Id, from: nat, n: nat)
    requires |ws| == |evs| + 1 && from <= n < |evs|
    ensures WaitingThroughout(ws, evs, o, from, n + 1)
       <==> WaitingThroughout(ws, evs, o, from, n) && !evs[n].TakeCandidates?
            && (evs[n].Collect? ==> Reached(ws[n].heap, evs[n].g.c, o))
  {
  }

  lemma {:induction false} StillWaitingStep(ws: seq<World>, evs: seq<Event>, os: seq<Id>, from: nat, n: nat)
    requires |ws| == |evs| + 1 && from <= n < |evs|
    ensures StillWaiting(ws, evs, os, from, n + 1) == CandidatesAfter(ws, evs, StillWaiting(ws, evs, os, from, n), n)
  {
    if os == [] {
    } else {
      StillWaitingStep(ws, evs, os[1..], from, n);
      WaitingStep(ws, evs, os[0], from, n);
      var first := if WaitingThroughout(ws, evs, os[0], from, n) then [os[0]] else [];
      CandidatesAfterConcat(ws, evs, first, StillWaiting(ws, evs, os[1..], from, n), n);
    }
  }

  lemma {:induction false} StillWaitingNow(ws: seq<World>, evs: seq<Event>, os: seq<Id>, n: nat)
    requires |ws| == |evs| + 1 && n <= |evs|
    ensures StillWaiting(ws, evs, os, n, n) == os
  {
    if os == [] {
    } else {
      StillWaitingNow(ws, evs, os[1..], n);
      assert WaitingThroughout(ws, evs, os[0], n, n);
    }
  }

  lemma {:induction false} CandidatesByStep(ws: seq<World>, evs: seq<Event>, k: nat, n: nat)
    requires |ws| == |evs| + 1 && k <= n < |evs|
    ensures CandidatesBy(ws, evs, k, n + 1) == CandidatesAfter(ws, evs, CandidatesBy(ws, evs, k, n), n)
  {
    if k == 0 {
    } else {
      CandidatesByStep(ws, evs, k - 1, n);
      if evs[k - 1].AddCandidates? {
        StillWaitingStep(ws, evs, evs[k - 1].os, k, n);
        CandidatesAfterConcat(ws, evs, CandidatesBy(ws, evs, k - 1, n), StillWaiting(ws, evs, evs[k - 1].os, k, n), n);
      } else {
        assert CandidatesBy(ws, evs, k, n) == CandidatesBy(ws, evs, k - 1, n);
        assert CandidatesBy(ws, evs, k, n + 1) == CandidatesBy(ws, evs, k - 1, n + 1);
      }
    }
  }

  /** The candidates are the list of all registrations, in order and with repetition, filtered by
      whether the object has been reached by every collection since and has not been taken. */
  lemma {:induction false} CandidatesHistory(ws: seq<World>, evs: seq<Event>, n: nat)
    requires History(ws, evs) && n <= |evs|
    ensures ws[n].cands == CandidatesBy(ws, evs, n, n)
  {
    if n == 0 {
    } else {
      CandidatesHistory(ws, evs, n - 1);
      CandidatesWorldStep(ws, evs, n - 1);
      assert ws[n].cands == CandidatesNext(ws, evs, CandidatesBy(ws, evs, n - 1, n - 1), n - 1);
      CandidatesNow(ws, evs, n - 1);
    }
  }

  lemma CandidatesNow(ws: seq<World>, evs: seq<Event>, n: nat)
    requires |ws| == |evs| + 1 && n < |evs|
    ensures CandidatesBy(ws, evs, n + 1, n + 1)
         == CandidatesNext(ws, evs, CandidatesBy(ws, evs, n, n), n)
  {
    CandidatesByStep(ws, evs, n, n);
    if evs[n].AddCandidates? {
      StillWaitingNow(ws, evs, evs[n].os, n + 1);
    }
  }

  lemma CandidatesWorldStep(ws: seq<World>, evs: seq<Event>, n: nat)
    requires History(ws, evs) && n < |evs|
    ensures ws[n + 1].cands == CandidatesNext(ws, evs, ws[n].cands, n)
  {
    assert WorldStepAt(ws, evs, n);
  }

  lemma WbWorldStep(ws: seq<World>, evs: seq<Event>, n: nat, o: Id)
    requires History(ws, evs) && n < |evs|
    ensures o in ws[n + 1].wb
       <==> evs[n] == RegisterWb(o) || (o in ws[n].wb && (evs[n].Collect? ==> Reached(ws[n].heap, evs[n].g.c, o)))
  {
    assert WorldStepAt(ws, evs, n);
  }

  lemma {:induction false} WbHistory(ws: seq<World>, evs: seq<Event>, n: nat, o: Id)
    requires History(ws, evs) && n <= |evs|
    ensures o in ws[n].wb
       <==> exists i :: 0 <= i < n && evs[i] == RegisterWb(o) && ReachedThroughout(ws, evs, o, i + 1, n)
  {
    if n == 0 {
    } else {
      WbHistory(ws, evs, n - 1, o);
      var w, ev := ws[n - 1], evs[n - 1];
      WbWorldStep(ws, evs, n - 1, o);
      if o in ws[n].wb {
        if ev == RegisterWb(o) {
          assert ReachedThroughout(ws, evs, o, n, n);
        } else {
          var i :| 0 <= i < n - 1 && evs[i] == RegisterWb(o) && ReachedThroughout(ws, evs, o, i + 1, n - 1);
          assert ReachedThroughout(ws, evs, o, i + 1, n);
        }
      }
      if i :| 0 <= i < n && evs[i] == RegisterWb(o) && ReachedThroughout(ws, evs, o, i + 1, n) {
        if i < n - 1 {
          assert ReachedThroughout(ws, evs, o, i + 1, n - 1);
        }
      }
    }
  }

  /** Those of `os` that have stayed potentially pinning at every collection among `from..n`. */
  ghost function StillPpps(ws: seq<World>, evs: seq<Event>, os: seq<Id>, from: nat, n: nat): seq<Id>
    requires |ws| == |evs| + 1 && n <= |evs|
  {
    if os == [] then []
    else (if PppThroughout(ws, evs, os[0], from, n) then [os[0]] else []) + StillPpps(ws, evs, os[1..], from, n)
  }

  /** The registrations of the first `k` events, in order and with repetition, less those whose
      object has died or stopped being potentially pinning before event `n`. */
  ghost function RegisteredPpps(ws: seq<World>, evs: seq<Event>, k: nat, n: nat): seq<Id>
    requires |ws| == |evs| + 1 && k <= n <= |evs|
  {
    if k == 0 then []
    else RegisteredPpps(ws, evs, k - 1, n)
         + if evs[k - 1].RegisterPpps? then StillPpps(ws, evs, evs[k - 1].os, k, n) else []
  }

  /** What event `n` leaves of a list of PPPs ... */
  ghost function PppsAfter(ws: seq<World>, evs: seq<Event>, os: seq<Id>, n: nat): seq<Id>
    requires |ws| == |evs| + 1 && n < |evs|
  {
    if evs[n].Collect? then KeepPpps(ws[n].heap, evs[n].g, os) else os
  }

  /** ... and what it makes of the list. */
  ghost function PppsNext(ws: seq<World>, evs: seq<Event>, os: seq<Id>, n: nat): seq<Id>
    requires |ws| == |evs| + 1 && n < |evs|
  {
    PppsAfter(ws, evs, os, n) + if evs[n].RegisterPpps? then evs[n].os else []
  }

  lemma {:induction false} KeepPppsConcat(h: map<Id, Addr>, g: Gc, a: seq<Id>, b: seq<Id>)
    ensures KeepPpps(h, g, a + b) == KeepPpps(h, g, a) + KeepPpps(h, g, b)
  {
    if a == [] {
      assert a + b == b;
    } else {
      KeepPppsConcat(h, g, a[1..], b);
      assert (a + b)[0] == a[0] && (a + b)[1..] == a[1..] + b;
      Assoc(if StaysPpp(h, g, a[0]) then [a[0]] else [], KeepPpps(h, g, a[1..]), KeepPpps(h, g, b));
    }
  }

  lemma PppsAfterConcat(ws: seq<World>, evs: seq<Event>, a: seq<Id>, b: seq<Id>, n: nat)
    requires |ws| == |evs| + 1 && n < |evs|
    ensures PppsAfter(ws, evs, a + b, n) == PppsAfter(ws, evs, a, n) + PppsAfter(ws, evs, b, n)
  {
    if evs[n].Collect? {
      KeepPppsConcat(ws[n].heap, evs[n].g, a, b);
    }
  }

  lemma ThroughoutStep(ws: seq<World>, evs: seq<Event>, o: Id, from: nat, n: nat)
    requires |ws| == |evs| + 1 && from <= n < |evs|
    ensures PppThroughout(ws, evs, o, from, n + 1)
       <==> PppThroughout(ws, evs, o, from, n) && (evs[n].Collect? ==> StaysPpp(ws[n].heap, evs[n].g, o))
  {
  }

  lemma {:induction false} StillPppsStep(ws: seq<World>, evs: seq<Event>, os: seq<Id>, from: nat, n: nat)
    requires |ws| == |evs| + 1 && from <= n < |evs|
    ensures StillPpps(ws, evs, os, from, n + 1) == PppsAfter(ws, evs, StillPpps(ws, evs, os, from, n), n)
  {
    if os == [] {
    } else {
      StillPppsStep(ws, evs, os[1..], from, n);
      ThroughoutStep(ws, evs, os[0], from, n);
      var first := if PppThroughout(ws, evs, os[0], from, n) then [os[0]] else [];
      PppsAfterConcat(ws, evs, first, StillPpps(ws, evs, os[1..], from, n), n);
    }
  }

  lemma {:induction false} StillPppsNow(ws: seq<World>, evs: seq<Event>, os: seq<Id>, n: nat)
    requires |ws| == |evs| + 1 && n <= |evs|
    ensures StillPpps(ws, evs, os, n, n) == os
  {
    if os == [] {
    } else {
      StillPppsNow(ws, evs, os[1..], n);
      assert PppThroughout(ws, evs, os[0], n, n);
    }
  }

  lemma {:induction false} RegisteredStep(ws: seq<World>, evs: seq<Event>, k: nat, n: nat)
    requires |ws| == |evs| + 1 && k <= n < |evs|
    ensures RegisteredPpps(ws, evs, k, n + 1) == PppsAfter(ws, evs, RegisteredPpps(ws, evs, k, n), n)
  {
    if k == 0 {
    } else {
      RegisteredStep(ws, evs, k - 1, n);
      if evs[k - 1].RegisterPpps? {
        StillPppsStep(ws, evs, evs[k - 1].os, k, n);
        PppsAfterConcat(ws, evs, RegisteredPpps(ws, evs, k - 1, n), StillPpps(ws, evs, evs[k - 1].os, k, n), n);
      } else {
        assert RegisteredPpps(ws, evs, k, n) == RegisteredPpps(ws, evs, k - 1, n);
        assert RegisteredPpps(ws, evs, k, n + 1) == RegisteredPpps(ws, evs, k - 1, n + 1);
      }
    }
  }

  /** The registry is the list of all registrations, in order and with repetition, filtered by
      whether the object has stayed live and potentially pinning at every collection since. */
  lemma {:induction false} PppHistory(ws: seq<World>, evs: seq<Event>, n: nat)
    requires History(ws, evs) && n <= |evs|
    ensures ws[n].ppps == RegisteredPpps(ws, evs, n, n)
  {
    if n == 0 {
    } else {
      PppHistory(ws, evs, n - 1);
      PppsWorldStep(ws, evs, n - 1);
      assert ws[n].ppps == PppsNext(ws, evs, RegisteredPpps(ws, evs, n - 1, n - 1), n - 1);
      RegisteredNow(ws, evs, n - 1);
    }
  }

  lemma RegisteredNow(ws: seq<World>, evs: seq<Event>, n: nat)
    requires |ws| == |evs| + 1 && n < |evs|
    ensures RegisteredPpps(ws, evs, n + 1, n + 1)
         == PppsNext(ws, evs, RegisteredPpps(ws, evs, n, n), n)
  {
    RegisteredStep(ws, evs, n, n);
    if evs[n].RegisterPpps? {
      StillPppsNow(ws, evs, evs[n].os, n + 1);
    }
  }

  lemma PppsWorldStep(ws: seq<World>, evs: seq<Event>, n: nat)
    requires History(ws, evs) && n < |evs|
    ensures ws[n + 1].ppps == PppsNext(ws, evs, ws[n].ppps, n)
  {
    assert WorldStepAt(ws, evs, n);
  }

  lemma {:induction false} StillPppsMember(ws: seq<World>, evs: seq<Event>, os: seq<Id>, from: nat, n: nat, o: Id)
    requires |ws| == |evs| + 1 && n <= |evs|
    ensures o in StillPpps(ws, evs, os, from, n) <==> o in os && PppThroughout(ws, evs, o, from, n)
  {
    if os == [] {
    } else {
      StillPppsMember(ws, evs, os[1..], from, n, o);
    }
  }

  lemma {:induction false} RegisteredMember(ws: seq<World>, evs: seq<Event>, k: nat, n: nat, o: Id)
    requires |ws| == |evs| + 1 && k <= n <= |evs|
    ensures o in RegisteredPpps(ws, evs, k, n)
       <==> exists i :: 0 <= i < k && evs[i].RegisterPpps? && o in evs[i].os && PppThroughout(ws, evs, o, i + 1, n)
  {
    if k == 0 {
    } else {
      RegisteredMember(ws, evs, k - 1, n, o);
      if evs[k - 1].RegisterPpps? {
        StillPppsMember(ws, evs, evs[k - 1].os, k, n, o);
      }
    }
  }

  /** In terms of membership. */
  lemma PppMembership(ws: seq<World>, evs: seq<Event>, n: nat, o: Id)
    requires History(ws, evs) && n <= |evs|
    ensures o in ws[n].ppps
       <==> exists i :: 0 <= i < n && evs[i].RegisterPpps? && o in evs[i].os && PppThroughout(ws, evs, o, i + 1, n)
  {
    PppHistory(ws, evs, n);
    RegisteredMember(ws, evs, n, n, o);
  }

  /** Event `i` is the last to give `o` a table before event `n`, and the table is `v`. */
  ghost predicate LastSet(evs: seq<Event>, o: Id, v: GenericIv.Givtbl, i: nat, n: nat)
    requires n <= |evs|
  {
    i < n && evs[i] == SetGivtbl(o, v) && forall j :: i < j < n && evs[j].SetGivtbl? ==> evs[j].o != o
  }

  lemma GivWorldStep(ws: seq<World>, evs: seq<Event>, n: nat, o: Id, v: GenericIv.Givtbl)
    requires History(ws, evs) && n < |evs|
    ensures var w, w', ev := ws[n], ws[n + 1], evs[n];
            (o in w'.giv && w'.giv[o] == v
             <==> ev == SetGivtbl(o, v)
                  || (o in w.giv && w.giv[o] == v && !(ev.SetGivtbl? && ev.o == o)
                      && (ev.Collect? ==> Reached(w.heap, ev.g.c, o))))
  {
    assert WorldStepAt(ws, evs, n);
  }

  lemma {:induction false} GivtblHistory(ws: seq<World>, evs: seq<Event>, n: nat, o: Id, v: GenericIv.Givtbl)
    requires History(ws, evs) && n <= |evs|
    ensures o in ws[n].giv && ws[n].giv[o] == v
       <==> exists i :: 0 <= i < n && LastSet(evs, o, v, i, n) && ReachedThroughout(ws, evs, o, i + 1, n)
  {
    if n == 0 {
    } else {
      GivtblHistory(ws, evs, n - 1, o, v);
      GivWorldStep(ws, evs, n - 1, o, v);
      var w, ev := ws[n - 1], evs[n - 1];
      if o in ws[n].giv && ws[n].giv[o] == v {
        if ev == SetGivtbl(o, v) {
          assert LastSet(evs, o, v, n - 1, n) && ReachedThroughout(ws, evs, o, n, n);
        } else {
          var i :| 0 <= i < n - 1 && LastSet(evs, o, v, i, n - 1) && ReachedThroughout(ws, evs, o, i + 1, n - 1);
          assert LastSet(evs, o, v, i, n) && ReachedThroughout(ws, evs, o, i + 1, n);
        }
      }
      if i :| 0 <= i < n && LastSet(evs, o, v, i, n) && ReachedThroughout(ws, evs, o, i + 1, n) {
        if i < n - 1 {
          assert LastSet(evs, o, v, i, n - 1) && ReachedThroughout(ws, evs, o, i + 1, n - 1);
        }
      }
    }
  }

  // ---------- The binding over whole executions ----------

  /** Some collection has found the object there and not reached it. */
  ghost predicate EverMissed(ws: seq<World>, evs: seq<Event>, o: Id, n: nat)
    requires |ws| == |evs| + 1 && n <= |evs|
  {
    exists i :: 0 <= i < n && MissedAt(ws, evs, o, i)
  }

  ghost predicate MissedAt(ws: seq<World>, evs: seq<Event>, o: Id, i: int)
    requires |ws| == |evs| + 1 && 0 <= i < |evs|
  {
    evs[i].Collect? && o in ws[i].heap && !Reached(ws[i].heap, evs[i].g.c, o)
  }

  /** An object that is still there counts as missed exactly if some collection has missed it. */
  lemma {:induction false} MissedHistory(sys: seq<System>, evs: seq<Event>, n: nat, o: Id)
    requires Execution(sys, evs) && n <= |evs|
    ensures o in sys[n].w.missed <==> o in sys[n].w.heap && EverMissed(Worlds(sys), evs, o, n)
    ensures EverMissed(Worlds(sys), evs, o, n) ==> o in sys[n].w.used
    ensures o in sys[n].w.heap ==> o in sys[n].w.used
  {
    if n == 0 {
    } else {
      MissedHistory(sys, evs, n - 1, o);
      assert EverMissed(Worlds(sys), evs, o, n) <==>
        EverMissed(Worlds(sys), evs, o, n - 1) || MissedAt(Worlds(sys), evs, o, n - 1);
      assert StepAt(sys, evs, n - 1);
      MissedStep(sys, evs, n - 1, o);
    }
  }

  lemma MissedStep(sys: seq<System>, evs: seq<Event>, n: nat, o: Id)
    requires |sys| == |evs| + 1 && n < |evs| && StepAt(sys, evs, n)
    requires o in sys[n].w.heap ==> o in sys[n].w.used
    requires o in sys[n].w.missed ==> o in sys[n].w.heap
    ensures var w, w' := sys[n].w, sys[n + 1].w;
            && (o in w'.missed <==> o in w'.heap && (o in w.missed || MissedAt(Worlds(sys), evs, o, n)))
            && w.used <= w'.used
            && (o in w'.heap ==> o in w'.used)
            && (o in w'.heap && o !in w.heap ==> o !in w.used)
  {
    MissedWorldStep(sys[n].b, sys[n].w, evs[n], o);
  }

  lemma MissedWorldStep(b: Binding, w: World, ev: Event, o: Id)
    requires CanDo(b, w, ev) && (o in w.heap ==> o in w.used) && (o in w.missed ==> o in w.heap)
    ensures var w' := WorldDo(w, ev);
            && (o in w'.missed <==>
                  o in w'.heap && (o in w.missed || (ev.Collect? && o in w.heap && !Reached(w.heap, ev.g.c, o))))
            && w.used <= w'.used
            && (o in w'.heap ==> o in w'.used)
            && (o in w'.heap && o !in w.heap ==> o !in w.used)
  {
  }

  ghost predicate EverSet(evs: seq<Event>, o: Id, n: nat)
    requires n <= |evs|
  {
    exists i :: 0 <= i < n && evs[i].SetGivtbl? && evs[i].o == o
  }

  /** An object that is still there has the flag exactly if it was ever given a table. */
  lemma {:induction false} FlagHistory(sys: seq<System>, evs: seq<Event>, n: nat, o: Id)
    requires Execution(sys, evs) && n <= |evs|
    ensures o in sys[n].w.flags <==> o in sys[n].w.heap && EverSet(evs, o, n)
    ensures EverSet(evs, o, n) ==> o in sys[n].w.used
  {
    if n == 0 {
    } else {
      FlagHistory(sys, evs, n - 1, o);
      EverSetStep(evs, o, n - 1);
      FlagStepAt(sys, evs, n - 1, o);
    }
  }

  lemma EverSetStep(evs: seq<Event>, o: Id, n: nat)
    requires n < |evs|
    ensures EverSet(evs, o, n + 1) <==> EverSet(evs, o, n) || (evs[n].SetGivtbl? && evs[n].o == o)
  {
  }

  lemma FlagStepAt(sys: seq<System>, evs: seq<Event>, n: nat, o: Id)
    requires Execution(sys, evs) && n < |evs|
    ensures var w, w', ev := sys[n].w, sys[n + 1].w, evs[n];
            && (o in w'.flags <==> (o in w.flags && o in w'.heap) || (ev.SetGivtbl? && ev.o == o))
            && (ev.SetGivtbl? && ev.o == o ==> o in w'.heap)
            && (o in w'.heap ==> o in w'.used)
            && w.used <= w'.used
            && (o in w'.heap && o !in w.heap ==> o !in w.used)
  {
    BindingRepresentsWorld(sys, evs, n);
    BindingRepresentsWorld(sys, evs, n + 1);
    assert StepAt(sys, evs, n);
    FlagStep(sys[n].b, sys[n].w, evs[n], o);
  }

  lemma FlagStep(b: Binding, w: World, ev: Event, o: Id)
    requires WellFormed(w) && CanDo(b, w, ev)
    ensures var w' := WorldDo(w, ev);
            && (o in w'.flags <==> (o in w.flags && o in w'.heap) || (ev.SetGivtbl? && ev.o == o))
            && (ev.SetGivtbl? && ev.o == o ==> o in w'.heap)
            && w.used <= w'.used
            && (o in w'.heap && o !in w.heap ==> o !in w.used)
  {
  }

  /** What the binding answers about a live object `o`, by its current address, after `n` events
      of any execution: `is_object_wb_unprotected` says whether it was registered and has been
      reached by every collection since; the PPP registry lists it iff it was registered and has
      stayed live and potentially pinning; the generic-ivar table holds `v` for it iff `v` was its
      latest table and every collection since has reached it. */
  lemma BindingAnswers(sys: seq<System>, evs: seq<Event>, n: nat, o: Id, v: GenericIv.Givtbl)
    requires Execution(sys, evs) && n <= |evs| && o in sys[n].w.heap
    ensures var b, a, ws := sys[n].b, sys[n].w.heap[o], Worlds(sys);
            && (a in b.wb <==>
                 exists i :: 0 <= i < n && evs[i] == RegisterWb(o) && ReachedThroughout(ws, evs, o, i + 1, n))
            && (a in b.ppps <==>
                 exists i :: 0 <= i < n && evs[i].RegisterPpps? && o in evs[i].os
                             && PppThroughout(ws, evs, o, i + 1, n))
            && ((a in b.table && b.table[a] == v) <==>
                 exists i :: 0 <= i < n && LastSet(evs, o, v, i, n) && ReachedThroughout(ws, evs, o, i + 1, n))
  {
    BindingRepresentsWorld(sys, evs, n);
    ExecutionHasHistory(sys, evs);
    WbHistory(Worlds(sys), evs, n, o);
    PppMembership(Worlds(sys), evs, n, o);
    GivtblHistory(Worlds(sys), evs, n, o, v);
    AnswersByIdentity(sys[n].b, sys[n].w, o);
  }

  /** The registry itself: the filtered registrations at their current addresses. */
  lemma BindingPpps(sys: seq<System>, evs: seq<Event>, n: nat)
    requires Execution(sys, evs) && n <= |evs|
    ensures var h, os := sys[n].w.heap, RegisteredPpps(Worlds(sys), evs, n, n);
            Known(h, os) && sys[n].b.ppps == Locate(h, os)
  {
    BindingRepresentsWorld(sys, evs, n);
    ExecutionHasHistory(sys, evs);
    PppHistory(Worlds(sys), evs, n);
  }

  /** The candidates themselves, which is also what an event that takes them hands out, and what
      the next collection calls `obj_free` on. */
  lemma BindingCandidates(sys: seq<System>, evs: seq<Event>, n: nat)
    requires Execution(sys, evs) && n <= |evs|
    ensures var h, ws := sys[n].w.heap, Worlds(sys);
            var os := CandidatesBy(ws, evs, n, n);
            && Known(h, os) && sys[n].b.cands == Locate(h, os)
            && (n < |evs| && evs[n].TakeCandidates? ==> sys[n + 1].b.cands == [])
            && (n < |evs| && evs[n].Collect? ==>
                  && CanCollect(h, sys[n].b, evs[n].g)
                  && Known(h, DropReached(h, evs[n].g.c, os))
                  && ClosureEnd(sys[n].b, evs[n].g).freed == Locate(h, DropReached(h, evs[n].g.c, os)))
  {
    BindingRepresentsWorld(sys, evs, n);
    ExecutionHasHistory(sys, evs);
    CandidatesHistory(Worlds(sys), evs, n);
    if n < |evs| {
      assert StepAt(sys, evs, n);
      if evs[n].Collect? {
        FreedAreUnreachable(sys[n].b, sys[n].w, evs[n].g);
      }
    }
  }

  /** The last event on the pin bit of `o` is its setting. */
  ghost predicate LastPinned(evs: seq<Event>, o: Id, n: nat)
    requires n <= |evs|
  {
    exists i :: 0 <= i < n && evs[i] == PinObject(o) && NotUnpinned(evs, o, i + 1, n)
  }

  ghost predicate NotUnpinned(evs: seq<Event>, o: Id, from: nat, n: nat)
    requires n <= |evs|
  {
    forall j :: from <= j < n ==> evs[j] != UnpinObject(o)
  }

  lemma LastPinnedStep(evs: seq<Event>, o: Id, n: nat)
    requires n < |evs|
    ensures LastPinned(evs, o, n + 1)
       <==> evs[n] == PinObject(o) || (LastPinned(evs, o, n) && evs[n] != UnpinObject(o))
  {
    if i :| 0 <= i < n && evs[i] == PinObject(o) && NotUnpinned(evs, o, i + 1, n) {
      assert evs[n] != UnpinObject(o) ==> NotUnpinned(evs, o, i + 1, n + 1);
    }
    if i :| 0 <= i < n + 1 && evs[i] == PinObject(o) && NotUnpinned(evs, o, i + 1, n + 1) {
      assert i < n ==> NotUnpinned(evs, o, i + 1, n);
    }
    assert NotUnpinned(evs, o, n + 1, n + 1);
  }

  /** An object that is still there is pinned, between collections, exactly if the mutators say so:
      no collection adds a pin or loses one. */
  lemma {:induction false} PinHistory(sys: seq<System>, evs: seq<Event>, n: nat, o: Id)
    requires Execution(sys, evs) && n <= |evs|
    ensures o in sys[n].w.pins <==> o in sys[n].w.heap && LastPinned(evs, o, n)
    ensures LastPinned(evs, o, n) ==> o in sys[n].w.used
  {
    if n == 0 {
    } else {
      PinHistory(sys, evs, n - 1, o);
      LastPinnedStep(evs, o, n - 1);
      PinStepAt(sys, evs, n - 1, o);
    }
  }

  lemma PinStepAt(sys: seq<System>, evs: seq<Event>, n: nat, o: Id)
    requires Execution(sys, evs) && n < |evs|
    ensures var w, w', ev := sys[n].w, sys[n + 1].w, evs[n];
            && (o in w'.pins <==> ev == PinObject(o) || (o in w.pins && ev != UnpinObject(o) && o in w'.heap))
            && (ev == PinObject(o) ==> o in w'.heap)
            && (o in w'.heap ==> o in w'.used)
            && w.used <= w'.used
            && (o in w'.heap && o !in w.heap ==> o !in w.used)
  {
    BindingRepresentsWorld(sys, evs, n);
    BindingRepresentsWorld(sys, evs, n + 1);
    assert StepAt(sys, evs, n);
    PinBitStep(sys[n].b, sys[n].w, evs[n], o);
  }

  lemma PinBitStep(b: Binding, w: World, ev: Event, o: Id)
    requires WellFormed(w) && CanDo(b, w, ev)
    ensures var w' := WorldDo(w, ev);
            && (o in w'.pins <==> ev == PinObject(o) || (o in w.pins && ev != UnpinObject(o) && o in w'.heap))
            && (ev == PinObject(o) ==> o in w'.heap)
            && w.used <= w'.used
            && (o in w'.heap && o !in w.heap ==> o !in w.used)
  {
  }

  /** The pin bits themselves. */
  lemma BindingPins(sys: seq<System>, evs: seq<Event>, n: nat, o: Id)
    requires Execution(sys, evs) && n <= |evs| && o in sys[n].w.heap
    ensures sys[n].w.heap[o] in sys[n].b.pins <==> LastPinned(evs, o, n)
  {
    BindingRepresentsWorld(sys, evs, n);
    PinHistory(sys, evs, n, o);
    AnswersByIdentity(sys[n].b, sys[n].w, o);
  }

  lemma AnswersByIdentity(b: Binding, w: World, o: Id)
    requires WellFormed(w) && Represents(b, w) && o in w.heap
    ensures var a := w.heap[o];
            && (a in b.wb <==> o in w.wb)
            && (a in b.ppps <==> o in w.ppps)
            && (a in b.cands <==> o in w.cands)
            && (a in b.pins <==> o in w.pins)
            && (a in b.table <==> o in w.giv)
            && (a in b.table ==> b.table[a] == w.giv[o])
  {
    LocateMember(w, w.ppps, o);
    LocateMember(w, w.cands, o);
  }

  lemma {:induction false} LocateMember(w: World, os: seq<Id>, o: Id)
    requires WellFormed(w) && Known(w.heap, os) && o in w.heap
    ensures w.heap[o] in Locate(w.heap, os) <==> o in os
  {
    if os == [] {
    } else {
      LocateMember(w, os[1..], o);
    }
  }
}
