/** ppp.rs: children of potentially pinning parents are pinned while the world is stopped and
    unpinned when the collection is over. */
module Ppp {
  import opened AfterAll
  import opened Arithmetic
  import opened Chunks
  import opened Heap

  const PACKET_SIZE: nat := 512

  /** A call of the object closure by `call_gc_mark_children`. */
  datatype Visit = Visit(target: Addr, pin: bool)

  /** What the VM answers in the Prepare stage. */
  datatype Vm = Vm(noLongerPpp: set<Addr>, children: map<Addr, seq<Visit>>) {
    function Visits(a: Addr): seq<Visit> {
      if a in children then children[a] else []
    }
  }

  function PinTargetsOf(visits: seq<Visit>): seq<Addr> {
    if visits == [] then []
    else (if visits[0].pin then [visits[0].target] else []) + PinTargetsOf(visits[1..])
  }

  /** The children a packet over `ppps` wants pinned, in visiting order. */
  function PinTargets(vm: Vm, ppps: seq<Addr>): seq<Addr> {
    if ppps == [] then []
    else (if ppps[0] in vm.noLongerPpp then [] else PinTargetsOf(vm.Visits(ppps[0]))) + PinTargets(vm, ppps[1..])
  }

  lemma {:induction false} PinTargetsOfMember(visits: seq<Visit>, x: Addr)
    ensures x in PinTargetsOf(visits) <==> Visit(x, true) in visits
  {
    if visits == [] {
    } else {
      PinTargetsOfMember(visits[1..], x);
      assert Visit(x, true) in visits <==> Visit(x, true) == visits[0] || Visit(x, true) in visits[1..];
    }
  }

  /** The pin targets are the children reported with pin by the members that are still PPPs. */
  lemma {:induction false} PinTargetsMember(vm: Vm, ppps: seq<Addr>, x: Addr)
    ensures x in PinTargets(vm, ppps)
       <==> exists p :: p in ppps && p !in vm.noLongerPpp && p in vm.children && Visit(x, true) in vm.children[p]
  {
    if ppps == [] {
    } else {
      PinTargetsMember(vm, ppps[1..], x);
      PinTargetsOfMember(vm.Visits(ppps[0]), x);
      assert forall p :: p in ppps <==> p == ppps[0] || p in ppps[1..];
    }
  }

  /** How many of the visits are with pin. */
  function NumPinned(visits: seq<Visit>): nat {
    if visits == [] then 0
    else NumPinned(visits[..|visits| - 1]) + if visits[|visits| - 1].pin then 1 else 0
  }

  lemma {:induction false} PinTargetsOfAppend(visits: seq<Visit>, v: Visit)
    ensures PinTargetsOf(visits + [v]) == PinTargetsOf(visits) + if v.pin then [v.target] else []
  {
    if visits == [] {
    } else {
      PinTargetsOfAppend(visits[1..], v);
      assert (visits + [v])[0] == visits[0] && (visits + [v])[1..] == visits[1..] + [v];
      Assoc(if visits[0].pin then [visits[0].target] else [], PinTargetsOf(visits[1..]),
            if v.pin then [v.target] else []);
    }
  }

  /** In visiting order: a visit with pin is the target at as many places from the front as there
      are visits with pin before it, and there are no other targets. */
  lemma {:induction false} PinTargetsInOrder(visits: seq<Visit>, i: nat)
    requires i < |visits|
    ensures |PinTargetsOf(visits)| == NumPinned(visits)
    ensures visits[i].pin ==>
      NumPinned(visits[..i]) < NumPinned(visits) && PinTargetsOf(visits)[NumPinned(visits[..i])] == visits[i].target
    decreases |visits|
  {
    var last := |visits| - 1;
    assert visits == visits[..last] + [visits[last]];
    PinTargetsOfAppend(visits[..last], visits[last]);
    if last == 0 {
      assert visits[..0] == [];
    } else {
      PinTargetsInOrder(visits[..last], if i < last then i else 0);
      assert i < last ==> visits[..last][..i] == visits[..i];
    }
  }

  /** Everything the VM reports about the parents, one after the other. */
  function AllVisits(vm: Vm, ppps: seq<Addr>): seq<seq<Visit>> {
    seq(|ppps|, k requires 0 <= k < |ppps| =>
          if ppps[k] !in vm.noLongerPpp && ppps[k] in vm.children then vm.children[ppps[k]] else [])
  }

  /** The targets of all the parents are the targets of that, so parents come in order too. */
  lemma {:induction false} PinTargetsAcross(vm: Vm, ppps: seq<Addr>)
    ensures PinTargets(vm, ppps) == PinTargetsOf(Flatten(AllVisits(vm, ppps)))
  {
    if ppps == [] {
    } else {
      PinTargetsAcross(vm, ppps[1..]);
      AllVisitsRest(vm, ppps);
      PinTargetsOfConcat(AllVisits(vm, ppps)[0], Flatten(AllVisits(vm, ppps[1..])));
    }
  }

  lemma AllVisitsRest(vm: Vm, ppps: seq<Addr>)
    requires ppps != []
    ensures AllVisits(vm, ppps)[1..] == AllVisits(vm, ppps[1..])
  {
  }

  lemma {:induction false} PinTargetsOfConcat(a: seq<Visit>, b: seq<Visit>)
    ensures PinTargetsOf(a + b) == PinTargetsOf(a) + PinTargetsOf(b)
  {
    if a == [] {
      assert a + b == b;
    } else {
      PinTargetsOfConcat(a[1..], b);
      assert (a + b)[0] == a[0] && (a + b)[1..] == a[1..] + b;
      Assoc(if a[0].pin then [a[0].target] else [], PinTargetsOf(a[1..]), PinTargetsOf(b));
    }
  }

  lemma {:induction false} PinTargetsConcat(vm: Vm, a: seq<Addr>, b: seq<Addr>)
    ensures PinTargets(vm, a + b) == PinTargets(vm, a) + PinTargets(vm, b)
  {
    if a == [] {
      assert a + b == b;
    } else {
      PinTargetsConcat(vm, a[1..], b);
      assert (a + b)[0] == a[0] && (a + b)[1..] == a[1..] + b;
      var first := if a[0] in vm.noLongerPpp then [] else PinTargetsOf(vm.Visits(a[0]));
      Assoc(first, PinTargets(vm, a[1..]), PinTargets(vm, b));
    }
  }

  // ---------- Pinning packets running in parallel ----------

  /** A PinPPPChildren packet.  Scanning only fills a local vector; every `pin_object` is one
      atomic test-and-set; the newly pinned objects are appended to the shared list at the end. */
  datatype PinPc =
    | Queued(ppps: seq<Addr>)
    | Pinning(todo: seq<Addr>, newly: seq<Addr>)
    | Finished

  datatype PinState = PinState(pins: set<Addr>, pinned: seq<Addr>, pc: seq<PinPc>)

  datatype PinEvent = Scan(k: nat) | Pin(k: nat) | Append(k: nat)

  /** `pin_ppp_children`: nothing to do in a non-moving collection. */
  function InitPins(mayMove: bool, ppps: seq<Addr>, pins: set<Addr>, pinned: seq<Addr>): PinState {
    var chunks := if mayMove then Chunked(ppps, PACKET_SIZE) else [];
    PinState(pins, pinned, seq(|chunks|, k requires 0 <= k < |chunks| => Queued(chunks[k])))
  }

  predicate PinEnabled(s: PinState, ev: PinEvent) {
    && ev.k < |s.pc|
    && match ev
       case Scan(k) => s.pc[k].Queued?
       case Pin(k) => s.pc[k].Pinning? && s.pc[k].todo != []
       case Append(k) => s.pc[k].Pinning? && s.pc[k].todo == []
  }

  function PinDo(vm: Vm, s: PinState, ev: PinEvent): PinState
    requires PinEnabled(s, ev)
  {
    match ev
    case Scan(k) => s.(pc := s.pc[k := Pinning(PinTargets(vm, s.pc[k].ppps), [])])
    case Pin(k) =>
      var x, rest, newly := s.pc[k].todo[0], s.pc[k].todo[1..], s.pc[k].newly;
      if x in s.pins then s.(pc := s.pc[k := Pinning(rest, newly)])
      else s.(pins := s.pins + {x}, pc := s.pc[k := Pinning(rest, newly + [x])])
    case Append(k) => s.(pinned := s.pinned + s.pc[k].newly, pc := s.pc[k := Finished])
  }

  /** What packet `k` can do next depends on nothing but how far it has come itself. */
  lemma PinPacketsAreIndependent(s: PinState, s': PinState, ev: PinEvent)
    requires ev.k < |s.pc| && ev.k < |s'.pc| && s.pc[ev.k] == s'.pc[ev.k]
    ensures PinEnabled(s, ev) <==> PinEnabled(s', ev)
  {
  }

  predicate PinCanRun(vm: Vm, s: PinState, evs: seq<PinEvent>)
    decreases |evs|
  {
    evs != [] ==> PinEnabled(s, evs[0]) && PinCanRun(vm, PinDo(vm, s, evs[0]), evs[1..])
  }

  function PinRun(vm: Vm, s: PinState, evs: seq<PinEvent>): PinState
    requires PinCanRun(vm, s, evs)
    decreases |evs|
  {
    if evs == [] then s else PinRun(vm, PinDo(vm, s, evs[0]), evs[1..])
  }

  ghost predicate PinQuiescent(s: PinState) {
    forall ev :: !PinEnabled(s, ev)
  }

  function Newly(pc: PinPc): seq<Addr> {
    if pc.Pinning? then pc.newly else []
  }

  function OwnedBy(pcs: seq<PinPc>, x: Addr): nat {
    if pcs == [] then 0 else multiset(Newly(pcs[0]))[x] + OwnedBy(pcs[1..], x)
  }

  /** How often `x` is recorded as newly pinned: in the shared list or in a packet's own vector. */
  function Owned(s: PinState, x: Addr): nat {
    multiset(s.pinned)[x] + OwnedBy(s.pc, x)
  }

  /** What a packet still has to pin. */
  function Todo(vm: Vm, pc: PinPc): seq<Addr> {
    match pc
    case Queued(ppps) => PinTargets(vm, ppps)
    case Pinning(todo, _) => todo
    case Finished => []
  }

  /** `targets` are all the children to pin and `pins0` the objects pinned when the world stopped. */
  ghost predicate PinInv(vm: Vm, targets: set<Addr>, pins0: set<Addr>, s: PinState) {
    RecordsOk(targets, pins0, s) && TodoOk(vm, targets, s)
  }

  lemma {:induction false} OwnedByUpdate(pcs: seq<PinPc>, k: nat, pc: PinPc, x: Addr)
    requires k < |pcs|
    ensures OwnedBy(pcs[k := pc], x) + multiset(Newly(pcs[k]))[x] == OwnedBy(pcs, x) + multiset(Newly(pc))[x]
  {
    if k == 0 {
      assert pcs[k := pc][1..] == pcs[1..];
    } else {
      OwnedByUpdate(pcs[1..], k - 1, pc, x);
      assert pcs[k := pc][1..] == pcs[1..][k - 1 := pc];
    }
  }

  lemma {:induction false} OwnedByNone(pcs: seq<PinPc>, x: Addr)
    requires forall k :: 0 <= k < |pcs| ==> Newly(pcs[k]) == []
    ensures OwnedBy(pcs, x) == 0
  {
    if pcs == [] {
    } else {
      OwnedByNone(pcs[1..], x);
    }
  }

  /** The packets of the 512-element chunking want exactly what the whole registry wants. */
  lemma {:induction false} PinTargetsChunks(vm: Vm, chunks: seq<seq<Addr>>, x: Addr)
    ensures x in PinTargets(vm, Flatten(chunks)) <==> exists k :: 0 <= k < |chunks| && x in PinTargets(vm, chunks[k])
  {
    if chunks == [] {
    } else {
      PinTargetsChunks(vm, chunks[1..], x);
      PinTargetsConcat(vm, chunks[0], Flatten(chunks[1..]));
      if k :| 0 <= k < |chunks| && x in PinTargets(vm, chunks[k]) {
        assert k > 0 ==> x in PinTargets(vm, chunks[1..][k - 1]);
      }
      if k :| 0 <= k < |chunks[1..]| && x in PinTargets(vm, chunks[1..][k]) {
        assert x in PinTargets(vm, chunks[k + 1]);
      }
    }
  }

  function AllTargets(vm: Vm, mayMove: bool, ppps: seq<Addr>): set<Addr> {
    if mayMove then set x | x in PinTargets(vm, ppps) else {}
  }

  lemma InitPinInv(vm: Vm, mayMove: bool, ppps: seq<Addr>, pins: set<Addr>)
    ensures PinInv(vm, AllTargets(vm, mayMove, ppps), pins, InitPins(mayMove, ppps, pins, []))
  {
    var s := InitPins(mayMove, ppps, pins, []);
    forall x ensures Owned(s, x) == 0 {
      OwnedByNone(s.pc, x);
    }
    var chunks := if mayMove then Chunked(ppps, PACKET_SIZE) else [];
    ChunkedCharacterised(ppps, PACKET_SIZE, Chunked(ppps, PACKET_SIZE));
    forall x
      ensures x in AllTargets(vm, mayMove, ppps) <==> exists k :: 0 <= k < |s.pc| && x in Todo(vm, s.pc[k])
    {
      PinTargetsChunks(vm, chunks, x);
      if k :| 0 <= k < |chunks| && x in PinTargets(vm, chunks[k]) {
        assert x in Todo(vm, s.pc[k]);
      }
    }
  }

  lemma OwnedStep(vm: Vm, s: PinState, ev: PinEvent, x: Addr)
    requires PinEnabled(s, ev)
    ensures Owned(PinDo(vm, s, ev), x)
         == Owned(s, x) + if ev.Pin? && s.pc[ev.k].todo[0] == x && x !in s.pins then 1 else 0
  {
    OwnedByUpdate(s.pc, ev.k, PinDo(vm, s, ev).pc[ev.k], x);
  }

  lemma TodoStep(vm: Vm, s: PinState, ev: PinEvent, k: nat, x: Addr)
    requires PinEnabled(s, ev) && k < |s.pc|
    ensures var s' := PinDo(vm, s, ev);
            && |s'.pc| == |s.pc|
            && (x in Todo(vm, s'.pc[k]) ==> x in Todo(vm, s.pc[k]))
            && (x in Todo(vm, s.pc[k]) ==> x in Todo(vm, s'.pc[k]) || x in s'.pins)
  {
  }

  /** Where pins and records stand ... */
  ghost predicate RecordsOk(targets: set<Addr>, pins0: set<Addr>, s: PinState) {
    && (forall x :: x in s.pins <==> x in pins0 || Owned(s, x) > 0)
    && (forall x :: Owned(s, x) > 0 ==> Owned(s, x) == 1 && x !in pins0 && x in targets)
  }

  /** ... and what is still to do. */
  ghost predicate TodoOk(vm: Vm, targets: set<Addr>, s: PinState) {
    && (forall k, x :: 0 <= k < |s.pc| && x in Todo(vm, s.pc[k]) ==> x in targets)
    && (forall x :: x in targets ==> x in s.pins || exists k :: 0 <= k < |s.pc| && x in Todo(vm, s.pc[k]))
  }

  lemma RecordsStep(vm: Vm, targets: set<Addr>, pins0: set<Addr>, s: PinState, ev: PinEvent)
    requires RecordsOk(targets, pins0, s) && PinEnabled(s, ev)
    requires ev.Pin? ==> s.pc[ev.k].todo[0] in targets
    ensures RecordsOk(targets, pins0, PinDo(vm, s, ev))
  {
    forall x
      ensures Owned(PinDo(vm, s, ev), x)
           == Owned(s, x) + if ev.Pin? && s.pc[ev.k].todo[0] == x && x !in s.pins then 1 else 0
    {
      OwnedStep(vm, s, ev, x);
    }
  }

  lemma PinStep(vm: Vm, targets: set<Addr>, pins0: set<Addr>, s: PinState, ev: PinEvent)
    requires PinInv(vm, targets, pins0, s) && PinEnabled(s, ev)
    ensures PinInv(vm, targets, pins0, PinDo(vm, s, ev))
  {
    var s' := PinDo(vm, s, ev);
    assert ev.Pin? ==> s.pc[ev.k].todo[0] in Todo(vm, s.pc[ev.k]);
    RecordsStep(vm, targets, pins0, s, ev);
    forall k, x | 0 <= k < |s'.pc| && x in Todo(vm, s'.pc[k])
      ensures x in targets
    {
      TodoStep(vm, s, ev, k, x);
    }
    forall x | x in targets && x !in s'.pins
      ensures exists k :: 0 <= k < |s'.pc| && x in Todo(vm, s'.pc[k])
    {
      var k :| 0 <= k < |s.pc| && x in Todo(vm, s.pc[k]);
      TodoStep(vm, s, ev, k, x);
    }
  }

  lemma {:induction false} PinRunInv(vm: Vm, targets: set<Addr>, pins0: set<Addr>, s: PinState, evs: seq<PinEvent>)
    requires PinInv(vm, targets, pins0, s) && PinCanRun(vm, s, evs)
    ensures PinInv(vm, targets, pins0, PinRun(vm, s, evs))
    ensures |PinRun(vm, s, evs).pc| == |s.pc|
    decreases |evs|
  {
    if evs == [] {
    } else {
      PinStep(vm, targets, pins0, s, evs[0]);
      PinRunInv(vm, targets, pins0, PinDo(vm, s, evs[0]), evs[1..]);
    }
  }

  ghost predicate NoDuplicates(s: seq<Addr>) {
    forall i, j :: 0 <= i < j < |s| ==> s[i] != s[j]
  }

  lemma CountOneMeansNoDuplicates(s: seq<Addr>)
    requires forall x :: multiset(s)[x] <= 1
    ensures NoDuplicates(s)
  {
    forall i, j | 0 <= i < j < |s|
      ensures s[i] != s[j]
    {
      assert s == s[..j] + [s[j]] + s[j + 1..];
      assert s[i] in s[..j];
      assert multiset(s)[s[j]] == multiset(s[..j])[s[j]] + 1 + multiset(s[j + 1..])[s[j]];
    }
  }

  lemma PinQuiescentFinished(s: PinState)
    requires PinQuiescent(s)
    ensures forall k :: 0 <= k < |s.pc| ==> s.pc[k].Finished?
  {
    forall k: nat | k < |s.pc|
      ensures s.pc[k].Finished?
    {
      assert !PinEnabled(s, Scan(k)) && !PinEnabled(s, Pin(k)) && !PinEnabled(s, Append(k));
    }
  }

  lemma FinishedOutcome(vm: Vm, targets: set<Addr>, pins0: set<Addr>, s: PinState)
    requires PinInv(vm, targets, pins0, s) && forall k :: 0 <= k < |s.pc| ==> s.pc[k].Finished?
    ensures s.pins == pins0 + targets && NoDuplicates(s.pinned)
    ensures forall x :: x in s.pinned <==> x in targets && x !in pins0
    ensures targets == {} ==> s.pinned == []
  {
    assert |s.pinned| > 0 ==> s.pinned[0] in s.pinned;
    forall x ensures Owned(s, x) == multiset(s.pinned)[x] {
      OwnedByNone(s.pc, x);
    }
    CountOneMeansNoDuplicates(s.pinned);
  }

  /** When Prepare has drained, for every interleaving: exactly the targets have become pinned,
      and the shared list holds each object that was not pinned before exactly once. */
  lemma PinningOutcome(vm: Vm, mayMove: bool, ppps: seq<Addr>, pins: set<Addr>, evs: seq<PinEvent>)
    requires PinCanRun(vm, InitPins(mayMove, ppps, pins, []), evs)
    requires PinQuiescent(PinRun(vm, InitPins(mayMove, ppps, pins, []), evs))
    ensures var s := PinRun(vm, InitPins(mayMove, ppps, pins, []), evs);
            && s.pins == pins + AllTargets(vm, mayMove, ppps)
            && NoDuplicates(s.pinned)
            && (forall x :: x in s.pinned <==> x in AllTargets(vm, mayMove, ppps) && x !in pins)
            && (!mayMove ==> s.pinned == [])
  {
    var s0, targets := InitPins(mayMove, ppps, pins, []), AllTargets(vm, mayMove, ppps);
    InitPinInv(vm, mayMove, ppps, pins);
    PinRunInv(vm, targets, pins, s0, evs);
    PinQuiescentFinished(PinRun(vm, s0, evs));
    FinishedOutcome(vm, targets, pins, PinRun(vm, s0, evs));
  }

  /** Pinning is sufficient: after Prepare, in a moving collection, no child that a registered,
      still potentially pinning parent reports with pin is copied. */
  lemma PinningIsSufficient(vm: Vm, ppps: seq<Addr>, pins: set<Addr>, evs: seq<PinEvent>,
                            c: Collection, inUse: set<Addr>, parent: Addr, child: Addr)
    requires PinCanRun(vm, InitPins(true, ppps, pins, []), evs)
    requires PinQuiescent(PinRun(vm, InitPins(true, ppps, pins, []), evs))
    requires c.Legal(inUse, PinRun(vm, InitPins(true, ppps, pins, []), evs).pins)
    requires parent in ppps && parent !in vm.noLongerPpp
    requires parent in vm.children && Visit(child, true) in vm.children[parent]
    ensures child in PinRun(vm, InitPins(true, ppps, pins, []), evs).pins
    ensures c.Forward(child) == child
  {
    PinningOutcome(vm, true, ppps, pins, evs);
    PinTargetsMember(vm, ppps, child);
  }

  function PinRank(vm: Vm, pc: PinPc): nat {
    |Todo(vm, pc)| + match pc { case Queued(_) => 2 case Pinning(_, _) => 1 case Finished => 0 }
  }

  function PinRanks(vm: Vm, pcs: seq<PinPc>): nat {
    if pcs == [] then 0 else PinRank(vm, pcs[0]) + PinRanks(vm, pcs[1..])
  }

  lemma {:induction false} PinRanksUpdate(vm: Vm, pcs: seq<PinPc>, k: nat, pc: PinPc)
    requires k < |pcs|
    ensures PinRanks(vm, pcs[k := pc]) + PinRank(vm, pcs[k]) == PinRanks(vm, pcs) + PinRank(vm, pc)
  {
    if k == 0 {
      assert pcs[k := pc][1..] == pcs[1..];
    } else {
      PinRanksUpdate(vm, pcs[1..], k - 1, pc);
      assert pcs[k := pc][1..] == pcs[1..][k - 1 := pc];
    }
  }

  /** Every schedule of the pinning packets drains. */
  lemma {:induction false} PinRunsTerminate(vm: Vm, s: PinState, evs: seq<PinEvent>)
    requires PinCanRun(vm, s, evs)
    ensures |evs| + PinRanks(vm, PinRun(vm, s, evs).pc) <= PinRanks(vm, s.pc)
    decreases |evs|
  {
    if evs == [] {
    } else {
      var s' := PinDo(vm, s, evs[0]);
      PinRanksUpdate(vm, s.pc, evs[0].k, s'.pc[evs[0].k]);
      PinRunsTerminate(vm, s', evs[1..]);
    }
  }

  /** From any state the packets can be run to the end. */
  lemma {:induction false} PinCompletes(vm: Vm, s: PinState) returns (evs: seq<PinEvent>)
    ensures PinCanRun(vm, s, evs) && PinQuiescent(PinRun(vm, s, evs))
    decreases PinRanks(vm, s.pc)
  {
    if ev :| PinEnabled(s, ev) {
      PinRanksUpdate(vm, s.pc, ev.k, PinDo(vm, s, ev).pc[ev.k]);
      var rest := PinCompletes(vm, PinDo(vm, s, ev));
      evs := [ev] + rest;
      assert evs[1..] == rest;
    } else {
      evs := [];
    }
  }

  // ---------- One packet without interference ----------

  function Elements(s: seq<Addr>): set<Addr> {
    set x | x in s
  }

  /** Those of `todo` whose `pin_object` returns true, in order. */
  function NewlyPinned(pins: set<Addr>, todo: seq<Addr>): seq<Addr>
    decreases |todo|
  {
    if todo == [] then []
    else (if todo[0] in pins then [] else [todo[0]]) + NewlyPinned(pins + {todo[0]}, todo[1..])
  }

  lemma {:induction false} NewlyPinnedMember(pins: set<Addr>, todo: seq<Addr>, x: Addr)
    ensures x in NewlyPinned(pins, todo) <==> x in todo && x !in pins
    decreases |todo|
  {
    if todo == [] {
    } else {
      NewlyPinnedMember(pins + {todo[0]}, todo[1..], x);
      assert x in todo <==> x == todo[0] || x in todo[1..];
    }
  }

  /** They are the ones not pinned before, once each. */
  lemma {:induction false} NewlyPinnedOnce(pins: set<Addr>, todo: seq<Addr>)
    ensures NoDuplicates(NewlyPinned(pins, todo))
    decreases |todo|
  {
    if todo == [] {
    } else {
      NewlyPinnedMember(pins + {todo[0]}, todo[1..], todo[0]);
      NewlyPinnedOnce(pins + {todo[0]}, todo[1..]);
    }
  }

  lemma NewlyPinnedStep(pins: set<Addr>, todo: seq<Addr>, newly: seq<Addr>)
    requires todo != []
    ensures newly + NewlyPinned(pins, todo)
         == (if todo[0] in pins then newly else newly + [todo[0]]) + NewlyPinned(pins + {todo[0]}, todo[1..])
  {
    var first := if todo[0] in pins then [] else [todo[0]];
    Assoc(newly, first, NewlyPinned(pins + {todo[0]}, todo[1..]));
    assert newly + [] == newly;
  }

  function PinEvents(k: nat, n: nat): seq<PinEvent> {
    if n == 0 then [] else [Pin(k)] + PinEvents(k, n - 1)
  }

  function PinPacketEvents(vm: Vm, ppps: seq<Addr>, k: nat): seq<PinEvent> {
    [Scan(k)] + PinEvents(k, |PinTargets(vm, ppps)|) + [Append(k)]
  }

  lemma {:induction false} PinConcat(vm: Vm, s: PinState, a: seq<PinEvent>, b: seq<PinEvent>)
    requires PinCanRun(vm, s, a) && PinCanRun(vm, PinRun(vm, s, a), b)
    ensures PinCanRun(vm, s, a + b) && PinRun(vm, s, a + b) == PinRun(vm, PinRun(vm, s, a), b)
    decreases |a|
  {
    if a == [] {
      assert a + b == b;
    } else {
      PinConcat(vm, PinDo(vm, s, a[0]), a[1..], b);
      assert (a + b)[1..] == a[1..] + b;
    }
  }

  /** Packet `k` has pinned all of `todo`. */
  function AllPinned(s: PinState, k: nat, todo: seq<Addr>, newly: seq<Addr>): PinState
    requires k < |s.pc|
  {
    s.(pins := s.pins + Elements(todo), pc := s.pc[k := Pinning([], newly + NewlyPinned(s.pins, todo))])
  }

  lemma AllPinnedStep(vm: Vm, s: PinState, k: nat, todo: seq<Addr>, newly: seq<Addr>)
    requires k < |s.pc| && s.pc[k] == Pinning(todo, newly) && todo != []
    ensures var s' := PinDo(vm, s, Pin(k));
            && s'.pc[k].Pinning? && s'.pc[k].todo == todo[1..]
            && AllPinned(s', k, todo[1..], s'.pc[k].newly) == AllPinned(s, k, todo, newly)
  {
    var x, rest, s' := todo[0], todo[1..], PinDo(vm, s, Pin(k));
    assert todo == [x] + rest;
    assert s'.pins == s.pins + {x} && s'.pins + Elements(rest) == s.pins + Elements(todo);
    NewlyPinnedStep(s.pins, todo, newly);
  }

  lemma {:induction false} PinEventsRun(vm: Vm, s: PinState, k: nat, todo: seq<Addr>, newly: seq<Addr>)
    requires k < |s.pc| && s.pc[k] == Pinning(todo, newly)
    ensures PinCanRun(vm, s, PinEvents(k, |todo|))
    ensures PinRun(vm, s, PinEvents(k, |todo|)) == AllPinned(s, k, todo, newly)
    decreases |todo|
  {
    if todo == [] {
      assert s.pc[k := s.pc[k]] == s.pc && newly + [] == newly && s.pins + {} == s.pins;
    } else {
      var s' := PinDo(vm, s, Pin(k));
      AllPinnedStep(vm, s, k, todo, newly);
      PinEventsRun(vm, s', k, todo[1..], s'.pc[k].newly);
      assert PinEvents(k, |todo|)[1..] == PinEvents(k, |todo[1..]|);
    }
  }

  lemma PinPacketRun(vm: Vm, s: PinState, k: nat)
    requires k < |s.pc| && s.pc[k].Queued?
    ensures var ppps := s.pc[k].ppps;
            var targets, evs := PinTargets(vm, ppps), PinPacketEvents(vm, ppps, k);
            PinCanRun(vm, s, evs)
            && PinRun(vm, s, evs) == s.(pins := s.pins + Elements(targets),
                                        pinned := s.pinned + NewlyPinned(s.pins, targets),
                                        pc := s.pc[k := Finished])
  {
    var targets := PinTargets(vm, s.pc[k].ppps);
    var newly := NewlyPinned(s.pins, targets);
    var s1 := PinDo(vm, s, Scan(k));
    PinEventsRun(vm, s1, k, targets, []);
    assert [] + newly == newly;
    var s2 := PinRun(vm, s1, PinEvents(k, |targets|));
    assert ([Scan(k)] + PinEvents(k, |targets|))[1..] == PinEvents(k, |targets|);
    assert s2.pc[k := Finished] == s.pc[k := Finished];
    assert [Append(k)][1..] == [];
    PinConcat(vm, s, [Scan(k)] + PinEvents(k, |targets|), [Append(k)]);
  }

  // ---------- Unpinning ----------

  /** How many calls of `unpin_object` in UnpinPPPChildren return false: the failed assertions. */
  function FailedUnpins(pins: set<Addr>, children: seq<Addr>): nat {
    if children == [] then 0
    else (if children[0] in pins then 0 else 1) + FailedUnpins(pins - {children[0]}, children[1..])
  }

  /** Unpinning never fails exactly if the list has no duplicates and everything in it is pinned. */
  lemma {:induction false} UnpinSucceedsIff(pins: set<Addr>, children: seq<Addr>)
    ensures FailedUnpins(pins, children) == 0 <==> NoDuplicates(children) && Elements(children) <= pins
  {
    if children == [] {
    } else {
      var x, rest := children[0], children[1..];
      UnpinSucceedsIff(pins - {x}, rest);
      assert children == [x] + rest;
      assert Elements(children) == {x} + Elements(rest);
      if NoDuplicates(rest) && x !in rest {
        assert NoDuplicates(children);
      }
      if NoDuplicates(children) {
        assert forall i, j :: 0 <= i < j < |rest| ==> rest[i] == children[i + 1] && rest[j] == children[j + 1];
        assert forall i :: 0 <= i < |rest| ==> rest[i] == children[i + 1];
      }
    }
  }

  /** In general as many fail as there are repetitions and objects that are not pinned. */
  lemma {:induction false} FailedUnpinsCount(pins: set<Addr>, children: seq<Addr>)
    ensures FailedUnpins(pins, children) + |Elements(children) * pins| == |children|
    decreases |children|
  {
    if children == [] {
    } else {
      var x, rest := children[0], children[1..];
      FailedUnpinsCount(pins - {x}, rest);
      assert children == [x] + rest;
      assert Elements(children) == {x} + Elements(rest);
      PinnedAmong(pins, x, Elements(rest));
    }
  }

  lemma PinnedAmong(pins: set<Addr>, x: Addr, rest: set<Addr>)
    ensures |({x} + rest) * pins| == |rest * (pins - {x})| + if x in pins then 1 else 0
  {
    var others := rest * (pins - {x});
    if x in pins {
      assert ({x} + rest) * pins == others + {x};
    } else {
      assert ({x} + rest) * pins == others;
    }
  }

  /** The pin bits are conserved over a collection: the packet that unpins the recorded list
      succeeds on each element and leaves pinned what was pinned before. */
  lemma PinsConserved(vm: Vm, mayMove: bool, ppps: seq<Addr>, pins: set<Addr>, evs: seq<PinEvent>)
    requires PinCanRun(vm, InitPins(mayMove, ppps, pins, []), evs)
    requires PinQuiescent(PinRun(vm, InitPins(mayMove, ppps, pins, []), evs))
    ensures var s := PinRun(vm, InitPins(mayMove, ppps, pins, []), evs);
            && FailedUnpins(s.pins, s.pinned) == 0
            && s.pins - Elements(s.pinned) == pins
            && (!mayMove ==> s.pinned == [])
  {
    PinningOutcome(vm, mayMove, ppps, pins, evs);
    var s := PinRun(vm, InitPins(mayMove, ppps, pins, []), evs);
    UnpinSucceedsIff(s.pins, s.pinned);
  }

  // ---------- Removing dead PPPs ----------

  /** What `retain_mut` leaves of the registry; `noLonger` is the VM's answer after tracing. */
  function Retain(c: Collection, noLonger: set<Addr>, ppps: seq<Addr>): seq<Addr> {
    if ppps == [] then []
    else (if c.IsLive(ppps[0]) && c.Forward(ppps[0]) !in noLonger then [c.Forward(ppps[0])] else [])
         + Retain(c, noLonger, ppps[1..])
  }

  lemma {:induction false} RetainAppend(c: Collection, noLonger: set<Addr>, ppps: seq<Addr>, a: Addr)
    ensures Retain(c, noLonger, ppps + [a])
         == Retain(c, noLonger, ppps) + if c.IsLive(a) && c.Forward(a) !in noLonger then [c.Forward(a)] else []
  {
    if ppps == [] {
    } else {
      RetainAppend(c, noLonger, ppps[1..], a);
      assert (ppps + [a])[0] == ppps[0] && (ppps + [a])[1..] == ppps[1..] + [a];
      Assoc(if c.IsLive(ppps[0]) && c.Forward(ppps[0]) !in noLonger then [c.Forward(ppps[0])] else [],
            Retain(c, noLonger, ppps[1..]),
            if c.IsLive(a) && c.Forward(a) !in noLonger then [c.Forward(a)] else []);
    }
  }

  /** The positions of the members that are not live. */
  function Dead(c: Collection, ppps: seq<Addr>): set<nat> {
    set i: nat | i < |ppps| && ppps[i] !in c.live
  }

  /** The positions of the live members whose forwarded object is no longer potentially pinning. */
  function NoLongerAt(c: Collection, noLonger: set<Addr>, ppps: seq<Addr>): set<nat> {
    set i: nat | i < |ppps| && ppps[i] in c.live && c.Forward(ppps[i]) in noLonger
  }

  lemma OneMoreDead(c: Collection, ppps: seq<Addr>, i: nat)
    requires i < |ppps|
    ensures |Dead(c, ppps[..i + 1])| == |Dead(c, ppps[..i])| + if ppps[i] in c.live then 0 else 1
  {
    var dead := Dead(c, ppps[..i]);
    assert Dead(c, ppps[..i + 1]) == if ppps[i] in c.live then dead else dead + {i};
  }

  lemma OneMoreNoLonger(c: Collection, noLonger: set<Addr>, ppps: seq<Addr>, i: nat)
    requires i < |ppps|
    ensures |NoLongerAt(c, noLonger, ppps[..i + 1])|
         == |NoLongerAt(c, noLonger, ppps[..i])| + if ppps[i] in c.live && c.Forward(ppps[i]) in noLonger then 1 else 0
  {
    var gone := NoLongerAt(c, noLonger, ppps[..i]);
    assert NoLongerAt(c, noLonger, ppps[..i + 1])
        == if ppps[i] in c.live && c.Forward(ppps[i]) in noLonger then gone + {i} else gone;
  }

  lemma OneMoreKept(c: Collection, noLonger: set<Addr>, ppps: seq<Addr>, i: nat)
    requires i < |ppps|
    ensures Retain(c, noLonger, ppps[..i + 1])
         == Retain(c, noLonger, ppps[..i])
            + if c.IsLive(ppps[i]) && c.Forward(ppps[i]) !in noLonger then [c.Forward(ppps[i])] else []
  {
    assert ppps[..i + 1] == ppps[..i] + [ppps[i]];
    RetainAppend(c, noLonger, ppps[..i], ppps[i]);
  }

  // ---------- The registry ----------

  datatype CleanupPacket = RemoveDeadPPPs | UnpinPPPChildren(children: seq<Addr>)

  /** Packet `k` holds the members from `512 * k` on, if there are any. */
  predicate PinPacketAt(ppps: seq<Addr>, packets: seq<seq<Addr>>, k: nat) {
    var begin := k * PACKET_SIZE;
    && (k < |packets| <==> begin < |ppps|)
    && (k < |packets| && begin < |ppps| ==> packets[k] == ppps[begin..Min(begin + PACKET_SIZE, |ppps|)])
  }

  lemma PinPacketsCut(ppps: seq<Addr>)
    ensures forall k: nat :: PinPacketAt(ppps, Chunked(ppps, PACKET_SIZE), k)
  {
    forall k: nat ensures PinPacketAt(ppps, Chunked(ppps, PACKET_SIZE), k) {
      ChunkedAt(ppps, PACKET_SIZE, k);
    }
  }

  class PPPRegistry {
    var ppps: seq<Addr>
    var pinnedPppChildren: seq<Addr>

    constructor ()
      ensures ppps == [] && pinnedPppChildren == []
    {
      ppps, pinnedPppChildren := [], [];
    }

    method Register(obj: Addr)
      modifies this`ppps
      ensures ppps == old(ppps) + [obj]
    {
      ppps := ppps + [obj];
    }

    method RegisterMany(objects: seq<Addr>)
      modifies this`ppps
      ensures ppps == old(ppps) + objects
    {
      for i := 0 to |objects|
        invariant ppps == old(ppps) + objects[..i]
      {
        ppps := ppps + [objects[i]];
      }
    }

    /** The packets added to Prepare. */
    method PinPppChildren(mayMove: bool) returns (packets: seq<seq<Addr>>)
      ensures if mayMove then forall k: nat :: PinPacketAt(ppps, packets, k) else packets == []
      ensures packets == if mayMove then Chunked(ppps, PACKET_SIZE) else []
    {
      packets := [];
      if !mayMove {
        return;
      }
      var rest := ppps;
      while rest != []
        invariant packets + Chunked(rest, PACKET_SIZE) == Chunked(ppps, PACKET_SIZE)
        decreases |rest|
      {
        var n := if |rest| < PACKET_SIZE then |rest| else PACKET_SIZE;
        if |rest| <= PACKET_SIZE {
          assert rest[..n] == rest && Chunked(rest[n..], PACKET_SIZE) == [];
        }
        packets := packets + [rest[..n]];
        rest := rest[n..];
      }
      assert packets == Chunked(ppps, PACKET_SIZE);
      PinPacketsCut(ppps);
    }

    /** Add the two packets; in a non-moving collection only check that there is nothing to unpin. */
    method CleanupPpps(mayMove: bool, bucket: WorkBucket<CleanupPacket>) returns (assertionHolds: bool)
      modifies this`pinnedPppChildren, bucket
      ensures bucket.packets == old(bucket.packets) + multiset{RemoveDeadPPPs}
                              + if mayMove then multiset{UnpinPPPChildren(old(pinnedPppChildren))} else multiset{}
      ensures pinnedPppChildren == if mayMove then [] else old(pinnedPppChildren)
      ensures assertionHolds <==> mayMove || old(pinnedPppChildren) == []
    {
      bucket.BulkAdd([RemoveDeadPPPs]);
      if mayMove {
        bucket.BulkAdd([UnpinPPPChildren(pinnedPppChildren)]);
        pinnedPppChildren, assertionHolds := [], true;
      } else {
        assertionHolds := |pinnedPppChildren| == 0;
      }
    }

    /** RemoveDeadPPPs::do_work: in-place `retain_mut` with a read and a write position. */
    method RemoveDeadPpps(c: Collection, noLonger: set<Addr>) returns (numNoLonger: nat, numDead: nat)
      modifies this`ppps
      ensures ppps == Retain(c, noLonger, old(ppps))
      ensures numNoLonger == |NoLongerAt(c, noLonger, old(ppps))| && numDead == |Dead(c, old(ppps))|
      ensures |old(ppps)| == |ppps| + numNoLonger + numDead
    {
      numNoLonger, numDead := 0, 0;
      ghost var all := ppps;
      var read, write := 0, 0;
      while read < |ppps|
        invariant 0 <= write <= read <= |ppps| == |all|
        invariant forall i :: read <= i < |all| ==> ppps[i] == all[i]
        invariant ppps[..write] == Retain(c, noLonger, all[..read])
        invariant numNoLonger == |NoLongerAt(c, noLonger, all[..read])| && numDead == |Dead(c, all[..read])|
        invariant read == write + numNoLonger + numDead
      {
        var obj := ppps[read];
        OneMoreKept(c, noLonger, all, read);
        OneMoreDead(c, all, read);
        OneMoreNoLonger(c, noLonger, all, read);
        if c.IsLive(obj) {
          var newObj := c.Forward(obj);
          if newObj in noLonger {
            numNoLonger := numNoLonger + 1;
          } else {
            assert ppps[write := newObj][..write + 1] == ppps[..write] + [newObj];
            ppps := ppps[write := newObj];
            write := write + 1;
          }
        } else {
          numDead := numDead + 1;
        }
        read := read + 1;
      }
      assert all[..read] == all;
      ppps := ppps[..write];
    }
  }

  /** The pin bits of mmtk-core. */
  class PinBits {
    var pins: set<Addr>

    constructor ()
      ensures pins == {}
    {
      pins := {};
    }

    method PinObject(obj: Addr) returns (changed: bool)
      modifies this
      ensures changed <==> obj !in old(pins)
      ensures pins == old(pins) + {obj}
    {
      changed := obj !in pins;
      pins := pins + {obj};
    }

    method UnpinObject(obj: Addr) returns (changed: bool)
      modifies this
      ensures changed <==> obj in old(pins)
      ensures pins == old(pins) - {obj}
    {
      changed := obj in pins;
      pins := pins - {obj};
    }

    /** PinPPPChildren::do_work without interference is a run of packet `k` on its own: the
        children not yet pinned become pinned and are appended to the shared list, once each. */
    method PinChildren(vm: Vm, ppps: seq<Addr>, registry: PPPRegistry, ghost s: PinState, ghost k: nat)
      requires k < |s.pc| && s.pc[k] == Queued(ppps)
      requires s.pins == pins && s.pinned == registry.pinnedPppChildren
      modifies this, registry`pinnedPppChildren
      ensures pins == old(pins) + Elements(PinTargets(vm, ppps))
      ensures registry.pinnedPppChildren
           == old(registry.pinnedPppChildren) + NewlyPinned(old(pins), PinTargets(vm, ppps))
      ensures PinCanRun(vm, s, PinPacketEvents(vm, ppps, k))
      ensures PinRun(vm, s, PinPacketEvents(vm, ppps, k))
           == PinState(pins, registry.pinnedPppChildren, s.pc[k := Finished])
    {
      PinPacketRun(vm, s, k);
      var pppChildren := CollectChildren(vm, ppps);
      var newly := PinAll(pppChildren);
      registry.pinnedPppChildren := registry.pinnedPppChildren + newly;
    }

    /** The scan, which only fills a vector. */
    method CollectChildren(vm: Vm, ppps: seq<Addr>) returns (pppChildren: seq<Addr>)
      ensures pppChildren == PinTargets(vm, ppps)
    {
      pppChildren := [];
      for i := 0 to |ppps|
        invariant pppChildren == PinTargets(vm, ppps[..i])
      {
        assert ppps[..i + 1] == ppps[..i] + [ppps[i]];
        PinTargetsConcat(vm, ppps[..i], [ppps[i]]);
        if ppps[i] in vm.noLongerPpp {
          continue;
        }
        pppChildren := pppChildren + PinTargetsOf(vm.Visits(ppps[i]));
      }
      assert ppps[..|ppps|] == ppps;
    }

    method PinAll(children: seq<Addr>) returns (newly: seq<Addr>)
      modifies this
      ensures pins == old(pins) + Elements(children)
      ensures newly == NewlyPinned(old(pins), children)
    {
      newly := [];
      for i := 0 to |children|
        invariant pins == old(pins) + Elements(children[..i])
        invariant newly + NewlyPinned(pins, children[i..]) == NewlyPinned(old(pins), children)
      {
        assert Elements(children[..i + 1]) == Elements(children[..i]) + {children[i]};
        assert children[i..][0] == children[i] && children[i..][1..] == children[i + 1..];
        NewlyPinnedStep(pins, children[i..], newly);
        var changed := PinObject(children[i]);
        if changed {
          newly := newly + [children[i]];
        }
      }
      assert children[..|children|] == children;
    }

    /** UnpinPPPChildren::do_work. */
    method UnpinChildren(children: seq<Addr>) returns (failures: nat)
      modifies this
      ensures pins == old(pins) - Elements(children)
      ensures failures == FailedUnpins(old(pins), children)
    {
      failures := 0;
      for i := 0 to |children|
        invariant pins == old(pins) - Elements(children[..i])
        invariant failures + FailedUnpins(pins, children[i..]) == FailedUnpins(old(pins), children)
      {
        assert Elements(children[..i + 1]) == Elements(children[..i]) + {children[i]};
        var unpinned := UnpinObject(children[i]);
        if !unpinned {
          failures := failures + 1;
        }
      }
    }
  }
}
