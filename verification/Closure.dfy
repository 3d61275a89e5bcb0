/** The VMRefClosure stage: `process_weak_stuff` and `cleanup_ppps` put packets into one bucket,
    and they run in any interleaving while `cleanup_ppps` is still taking the pinned list.
    Every loop iteration of every packet is an event of its own.

    The proof of confluence is a conserved quantity: `Outcome` predicts the final binding state
    from any intermediate one, and no event changes the prediction. */
module Closure {
  import opened Heap
  import opened Ppp
  import opened WeakLists
  import GenericIv

  datatype State = State(
    // ProcessObjFreeCandidates
    freeTodo: seq<Addr>, freeKept: seq<Addr>, freed: seq<Addr>,
    // UpdateGenericIvTbl
    giv: GenericIv.State,
    // UpdateWbUnprotectedObjectsList
    wbTodo: set<Addr>, wbKept: set<Addr>,
    // RemoveDeadPPPs
    pppTodo: seq<Addr>, pppKept: seq<Addr>,
    // cleanup_ppps and UnpinPPPChildren
    pinnedList: seq<Addr>, taken: bool, unpinTodo: seq<Addr>, pins: set<Addr>,
    failedAssertions: nat)

  datatype Event = FreeOne | Giv(ev: GenericIv.Event) | WbOne(a: Addr) | PppOne | TakePinned | UnpinOne

  /** The collection, the VM's answers and the table the world stopped with. */
  datatype Context = Context(x: GenericIv.Context, noLongerPpp: set<Addr>) {
    function C(): Collection {
      x.c
    }
  }

  ghost predicate Enabled(t: Context, s: State, ev: Event) {
    match ev
    case FreeOne => s.freeTodo != []
    case Giv(ev) => GenericIv.Enabled(t.x, s.giv, ev)
    case WbOne(a) => a in s.wbTodo
    case PppOne => s.pppTodo != []
    case TakePinned => !s.taken
    case UnpinOne => s.unpinTodo != []
  }

  ghost function Do(t: Context, s: State, ev: Event): State
    requires Enabled(t, s, ev)
  {
    var c := t.C();
    match ev
    case FreeOne =>
      var a := s.freeTodo[0];
      if c.IsReachable(a) then s.(freeTodo := s.freeTodo[1..], freeKept := s.freeKept + [c.Forward(a)])
      else s.(freeTodo := s.freeTodo[1..], freed := s.freed + [a])
    case Giv(ev) => s.(giv := GenericIv.Do(t.x, s.giv, ev))
    case WbOne(a) =>
      s.(wbTodo := s.wbTodo - {a}, wbKept := s.wbKept + if c.IsReachable(a) then {c.Forward(a)} else {})
    case PppOne =>
      var a := s.pppTodo[0];
      var keep := c.IsLive(a) && c.Forward(a) !in t.noLongerPpp;
      s.(pppTodo := s.pppTodo[1..], pppKept := s.pppKept + if keep then [c.Forward(a)] else [])
    case TakePinned =>
      if c.mayMove then s.(taken := true, unpinTodo := s.pinnedList, pinnedList := [])
      else s.(taken := true, failedAssertions := s.failedAssertions + if s.pinnedList == [] then 0 else 1)
    case UnpinOne =>
      var a := s.unpinTodo[0];
      s.(unpinTodo := s.unpinTodo[1..], pins := s.pins - {a},
         failedAssertions := s.failedAssertions + if a in s.pins then 0 else 1)
  }

  ghost predicate CanRun(t: Context, s: State, evs: seq<Event>)
    decreases |evs|
  {
    evs != [] ==> Enabled(t, s, evs[0]) && CanRun(t, Do(t, s, evs[0]), evs[1..])
  }

  ghost function Run(t: Context, s: State, evs: seq<Event>): State
    requires CanRun(t, s, evs)
    decreases |evs|
  {
    if evs == [] then s else Run(t, Do(t, s, evs[0]), evs[1..])
  }

  ghost predicate Quiescent(t: Context, s: State) {
    forall ev :: !Enabled(t, s, ev)
  }

  /** The state when tracing has ended. */
  ghost predicate Starts(t: Context, s: State) {
    && GenericIv.Inv(t.x, s.giv) && s.giv.stage.Traced?
    && s.freeKept == [] && s.freed == [] && s.wbKept == {} && s.pppKept == []
    && !s.taken && s.unpinTodo == [] && s.failedAssertions == 0
  }

  // ---------- The conserved outcome ----------

  datatype Final = Final(
    cands: seq<Addr>, freed: seq<Addr>, wb: set<Addr>, ppps: seq<Addr>,
    pinnedList: seq<Addr>, pins: set<Addr>, failedAssertions: nat)

  ghost function Outcome(t: Context, s: State): Final {
    var c := t.C();
    var willTake := !s.taken && c.mayMove;
    var toUnpin := if willTake then s.pinnedList else s.unpinTodo;
    Final(
      s.freeKept + Retained(c, s.freeTodo),
      s.freed + Dying(c, s.freeTodo),
      s.wbKept + ForwardedSet(c, s.wbTodo),
      s.pppKept + Retain(c, t.noLongerPpp, s.pppTodo),
      if willTake then [] else s.pinnedList,
      s.pins - Elements(toUnpin),
      s.failedAssertions + FailedUnpins(s.pins, toUnpin)
        + if !s.taken && !c.mayMove && s.pinnedList != [] then 1 else 0)
  }

  ghost predicate Inv(t: Context, s: State) {
    && GenericIv.Inv(t.x, s.giv)
    && UnpinOk(s)
  }

  ghost predicate UnpinOk(s: State) {
    !s.taken ==> s.unpinTodo == []
  }

  lemma Regroup<T>(a: seq<T>, x: T, b: seq<T>)
    ensures a + ([x] + b) == (a + [x]) + b
    ensures a + ([] + b) == a + b
  {
    assert [] + b == b;
  }

  lemma FreePrediction(c: Collection, kept: seq<Addr>, freed: seq<Addr>, todo: seq<Addr>)
    requires todo != []
    ensures kept + Retained(c, todo)
         == (if c.IsReachable(todo[0]) then kept + [c.Forward(todo[0])] else kept) + Retained(c, todo[1..])
    ensures freed + Dying(c, todo)
         == (if c.IsReachable(todo[0]) then freed else freed + [todo[0]]) + Dying(c, todo[1..])
  {
    Regroup(kept, c.Forward(todo[0]), Retained(c, todo[1..]));
    Regroup(freed, todo[0], Dying(c, todo[1..]));
  }

  lemma FreeStep(t: Context, s: State)
    requires Enabled(t, s, FreeOne)
    ensures Outcome(t, Do(t, s, FreeOne)) == Outcome(t, s)
  {
    FreePrediction(t.C(), s.freeKept, s.freed, s.freeTodo);
  }

  lemma WbStep(t: Context, s: State, a: Addr)
    requires Enabled(t, s, WbOne(a))
    ensures Outcome(t, Do(t, s, WbOne(a))) == Outcome(t, s)
  {
    ForwardedSetInsert(t.C(), s.wbTodo - {a}, a);
    assert s.wbTodo == (s.wbTodo - {a}) + {a};
  }

  lemma PppStep(t: Context, s: State)
    requires Enabled(t, s, PppOne)
    ensures Outcome(t, Do(t, s, PppOne)) == Outcome(t, s)
  {
    var c, a := t.C(), s.pppTodo[0];
    Regroup(s.pppKept, c.Forward(a), Retain(c, t.noLongerPpp, s.pppTodo[1..]));
  }

  lemma UnpinStep(t: Context, s: State)
    requires UnpinOk(s) && Enabled(t, s, UnpinOne)
    ensures Outcome(t, Do(t, s, UnpinOne)) == Outcome(t, s)
  {
    assert Elements(s.unpinTodo) == {s.unpinTodo[0]} + Elements(s.unpinTodo[1..]);
  }

  lemma StepConservesOutcome(t: Context, s: State, ev: Event)
    requires Inv(t, s) && Enabled(t, s, ev)
    ensures Inv(t, Do(t, s, ev)) && Outcome(t, Do(t, s, ev)) == Outcome(t, s)
  {
    match ev
    case FreeOne => FreeStep(t, s);
    case Giv(ev) => GenericIv.StepInv(t.x, s.giv, ev);
    case WbOne(a) => WbStep(t, s, a);
    case PppOne => PppStep(t, s);
    case TakePinned =>
    case UnpinOne => UnpinStep(t, s);
  }

  lemma {:induction false} RunConservesOutcome(t: Context, s: State, evs: seq<Event>)
    requires Inv(t, s) && CanRun(t, s, evs)
    ensures Inv(t, Run(t, s, evs)) && Outcome(t, Run(t, s, evs)) == Outcome(t, s)
    decreases |evs|
  {
    if evs == [] {
    } else {
      StepConservesOutcome(t, s, evs[0]);
      RunConservesOutcome(t, Do(t, s, evs[0]), evs[1..]);
    }
  }

  /** A state in which nothing can happen has finished every packet. */
  lemma QuiescentState(t: Context, s: State)
    requires Inv(t, s) && !s.giv.stage.Tracing? && Quiescent(t, s)
    ensures s.freeTodo == [] && s.wbTodo == {} && s.pppTodo == [] && s.taken && s.unpinTodo == []
    ensures s.giv.stage.Cleaned?
  {
    assert !Enabled(t, s, FreeOne) && !Enabled(t, s, PppOne) && !Enabled(t, s, TakePinned) && !Enabled(t, s, UnpinOne);
    assert forall a :: a in s.wbTodo ==> Enabled(t, s, WbOne(a));
    assert !Enabled(t, s, Giv(GenericIv.Lock)) && !Enabled(t, s, Giv(GenericIv.Unlock));
    assert !Enabled(t, s, Giv(GenericIv.Clean));
    if s.giv.stage.Draining? {
      assert forall to :: to in s.giv.moved ==> Enabled(t, s, Giv(GenericIv.Drain(to)));
    }
  }

  lemma {:induction false} StageStays(t: Context, s: State, evs: seq<Event>)
    requires CanRun(t, s, evs) && !s.giv.stage.Tracing?
    ensures !Run(t, s, evs).giv.stage.Tracing?
    decreases |evs|
  {
    if evs == [] {
    } else {
      StageStays(t, Do(t, s, evs[0]), evs[1..]);
    }
  }

  /** Confluence: every interleaving that cannot continue leaves the binding in the state the
      packets would produce one after the other. */
  lemma Confluence(t: Context, s0: State, evs: seq<Event>)
    requires Starts(t, s0) && CanRun(t, s0, evs) && Quiescent(t, Run(t, s0, evs))
    ensures var c, s := t.C(), Run(t, s0, evs);
            && s.freeKept == Retained(c, s0.freeTodo)
            && s.freed == Dying(c, s0.freeTodo)
            && s.wbKept == ForwardedSet(c, s0.wbTodo)
            && s.pppKept == Retain(c, t.noLongerPpp, s0.pppTodo)
            && GenericIv.Expected(c, t.x.Kept(), s.giv.table) && s.giv.moved == map[]
            && s.pins == s0.pins - (if c.mayMove then Elements(s0.pinnedList) else {})
            && s.pinnedList == (if c.mayMove then [] else s0.pinnedList)
            && s.failedAssertions
               == if c.mayMove then FailedUnpins(s0.pins, s0.pinnedList) else if s0.pinnedList == [] then 0 else 1
  {
    RunConservesOutcome(t, s0, evs);
    StageStays(t, s0, evs);
    var s := Run(t, s0, evs);
    QuiescentState(t, s);
    EmptyOutcome(t, s);
    StartLists(t, s0);
    StartSets(t, s0);
  }

  lemma EmptyOutcome(t: Context, s: State)
    requires s.freeTodo == [] && s.wbTodo == {} && s.pppTodo == [] && s.taken && s.unpinTodo == []
    ensures Outcome(t, s) == Final(s.freeKept, s.freed, s.wbKept, s.pppKept, s.pinnedList, s.pins, s.failedAssertions)
  {
  }

  lemma StartLists(t: Context, s: State)
    requires s.freeKept == [] && s.freed == [] && s.pppKept == []
    ensures var c, f := t.C(), Outcome(t, s);
            && f.cands == Retained(c, s.freeTodo) && f.freed == Dying(c, s.freeTodo)
            && f.ppps == Retain(c, t.noLongerPpp, s.pppTodo)
  {
  }

  lemma StartSets(t: Context, s: State)
    requires s.wbKept == {} && !s.taken && s.unpinTodo == []
    ensures var c, f := t.C(), Outcome(t, s);
            && f.wb == ForwardedSet(c, s.wbTodo)
            && f.pins == s.pins - (if c.mayMove then Elements(s.pinnedList) else {})
  {
    assert Elements([]) == {};
  }

  /** Any two complete interleavings agree on everything the binding keeps. */
  lemma AnyTwoInterleavingsAgree(t: Context, s0: State, evs1: seq<Event>, evs2: seq<Event>)
    requires Starts(t, s0)
    requires CanRun(t, s0, evs1) && Quiescent(t, Run(t, s0, evs1))
    requires CanRun(t, s0, evs2) && Quiescent(t, Run(t, s0, evs2))
    ensures Outcome(t, Run(t, s0, evs1)) == Outcome(t, Run(t, s0, evs2))
    ensures Run(t, s0, evs1).giv.table == Run(t, s0, evs2).giv.table
  {
    RunConservesOutcome(t, s0, evs1);
    RunConservesOutcome(t, s0, evs2);
    Confluence(t, s0, evs1);
    Confluence(t, s0, evs2);
    GenericIv.ExpectedUnique(t.C(), t.x.Kept(), Run(t, s0, evs1).giv.table, Run(t, s0, evs2).giv.table);
  }

  // ---------- Termination ----------

  ghost function Measure(s: State): nat {
    |s.freeTodo| + |s.wbTodo| + |s.pppTodo| + |s.unpinTodo|
    + (if s.taken then 0 else 1 + |s.pinnedList|)
    + GenericIv.Work(s.giv)
  }

  lemma GivDecreases(t: Context, s: State, ev: GenericIv.Event)
    requires GenericIv.Enabled(t.x, s.giv, ev) && !s.giv.stage.Tracing? && !s.giv.panicked
    ensures GenericIv.Work(GenericIv.Do(t.x, s.giv, ev)) < GenericIv.Work(s.giv)
    ensures !GenericIv.Do(t.x, s.giv, ev).stage.Tracing? && !GenericIv.Do(t.x, s.giv, ev).panicked
  {
    GenericIv.StepDecreases(t.x, s.giv, ev);
  }

  lemma OwnDecreases(t: Context, s: State, ev: Event)
    requires Enabled(t, s, ev) && !ev.Giv? && UnpinOk(s)
    ensures Measure(Do(t, s, ev)) < Measure(s) && UnpinOk(Do(t, s, ev))
    ensures Do(t, s, ev).giv == s.giv
  {
    if ev.WbOne? {
      assert |s.wbTodo - {ev.a}| == |s.wbTodo| - 1;
    }
  }

  lemma StepDecreases(t: Context, s: State, ev: Event)
    requires Enabled(t, s, ev) && !s.giv.stage.Tracing? && !s.giv.panicked
    requires UnpinOk(s)
    ensures Measure(Do(t, s, ev)) < Measure(s) && UnpinOk(Do(t, s, ev))
    ensures !Do(t, s, ev).giv.stage.Tracing? && !Do(t, s, ev).giv.panicked
  {
    if ev.Giv? {
      GivDecreases(t, s, ev.ev);
    } else {
      OwnDecreases(t, s, ev);
    }
  }

  lemma {:induction false} RunsTerminate(t: Context, s: State, evs: seq<Event>)
    requires UnpinOk(s) && CanRun(t, s, evs) && !s.giv.stage.Tracing? && !s.giv.panicked
    ensures |evs| + Measure(Run(t, s, evs)) <= Measure(s)
    decreases |evs|
  {
    if evs == [] {
    } else {
      StepDecreases(t, s, evs[0]);
      RunsTerminate(t, Do(t, s, evs[0]), evs[1..]);
    }
  }

  /** From any state of the stage its packets can be run to the end. */
  lemma {:induction false} Completes(t: Context, s: State) returns (evs: seq<Event>)
    requires Inv(t, s) && !s.giv.stage.Tracing?
    ensures CanRun(t, s, evs) && Quiescent(t, Run(t, s, evs))
    decreases Measure(s)
  {
    if ev :| Enabled(t, s, ev) {
      StepConservesOutcome(t, s, ev);
      StepDecreases(t, s, ev);
      var rest := Completes(t, Do(t, s, ev));
      evs := [ev] + rest;
      assert evs[1..] == rest;
    } else {
      evs := [];
    }
  }
}
