/** The mutex of the side map: lookups that hold it while the copies are recorded (which wait)
    and while the drain starts (which does not wait: weak_proc.rs uses `try_lock().expect`). */
module GivLookups {
  import opened Heap
  import GenericIv

  /** `held` means that a lookup holds the mutex; the drain itself holds it during `Draining`. */
  datatype State = State(giv: GenericIv.State, held: bool, drainPanicked: bool)

  datatype Event = Base(ev: GenericIv.Event) | TakeLock | ReleaseLock

  function Init(x: GenericIv.Context): State {
    State(GenericIv.Init(x), false, false)
  }

  /** A copy records under the lock, if it has a table to record. */
  predicate NeedsLock(s: GenericIv.State, ev: GenericIv.Event) {
    ev.Record? && ev.a in s.pc && s.pc[ev.a].Loaded? && s.pc[ev.a].givtbl.Some?
  }

  ghost predicate Enabled(x: GenericIv.Context, s: State, ev: Event) {
    && !s.drainPanicked
    && match ev
       case Base(ev) => GenericIv.Enabled(x, s.giv, ev) && !(s.held && NeedsLock(s.giv, ev))
       case TakeLock => !s.held && !s.giv.stage.Draining?
       case ReleaseLock => s.held
  }

  ghost function Do(x: GenericIv.Context, s: State, ev: Event): State
    requires Enabled(x, s, ev)
  {
    match ev
    case Base(ev) => if ev.Lock? && s.held then s.(drainPanicked := true) else s.(giv := GenericIv.Do(x, s.giv, ev))
    case TakeLock => s.(held := true)
    case ReleaseLock => s.(held := false)
  }

  ghost predicate CanRun(x: GenericIv.Context, s: State, evs: seq<Event>)
    decreases |evs|
  {
    evs != [] ==> Enabled(x, s, evs[0]) && CanRun(x, Do(x, s, evs[0]), evs[1..])
  }

  ghost function Run(x: GenericIv.Context, s: State, evs: seq<Event>): State
    requires CanRun(x, s, evs)
    decreases |evs|
  {
    if evs == [] then s else Run(x, Do(x, s, evs[0]), evs[1..])
  }

  lemma {:induction false} RunConcat(x: GenericIv.Context, s: State, a: seq<Event>, b: seq<Event>)
    requires CanRun(x, s, a)
    ensures CanRun(x, s, a + b) <==> CanRun(x, Run(x, s, a), b)
    ensures CanRun(x, s, a + b) ==> Run(x, s, a + b) == Run(x, Run(x, s, a), b)
    decreases |a|
  {
    if a == [] {
      assert a + b == b;
    } else {
      RunConcat(x, Do(x, s, a[0]), a[1..], b);
      assert (a + b)[0] == a[0] && (a + b)[1..] == a[1..] + b;
    }
  }

  // ---------- The lookups disturb nothing ----------

  function BaseEvents(evs: seq<Event>): seq<GenericIv.Event> {
    if evs == [] then [] else (if evs[0].Base? then [evs[0].ev] else []) + BaseEvents(evs[1..])
  }

  /** A run without a panic is a run of the tables alone with lock traffic in between. */
  lemma {:induction false} Projection(x: GenericIv.Context, s: State, evs: seq<Event>)
    requires CanRun(x, s, evs) && !Run(x, s, evs).drainPanicked
    ensures GenericIv.CanRun(x, s.giv, BaseEvents(evs))
    ensures Run(x, s, evs).giv == GenericIv.Run(x, s.giv, BaseEvents(evs))
    decreases |evs|
  {
    if evs == [] {
    } else {
      var s' := Do(x, s, evs[0]);
      if s'.drainPanicked {
        NoEventAfterPanic(x, s', evs[1..]);
      }
      Projection(x, s', evs[1..]);
      if evs[0].Base? {
        assert BaseEvents(evs)[1..] == BaseEvents(evs[1..]);
      } else {
        assert BaseEvents(evs) == BaseEvents(evs[1..]);
      }
    }
  }

  lemma NoEventAfterPanic(x: GenericIv.Context, s: State, evs: seq<Event>)
    requires CanRun(x, s, evs) && s.drainPanicked
    ensures evs == [] && Run(x, s, evs) == s
  {
  }

  // ---------- When the drain panics ----------

  /** The last event on the mutex, if there is one, is its acquisition. */
  predicate Holding(evs: seq<Event>) {
    if evs == [] then false
    else evs[|evs| - 1].TakeLock? || (!evs[|evs| - 1].ReleaseLock? && Holding(evs[..|evs| - 1]))
  }

  lemma {:induction false} HeldIsHolding(x: GenericIv.Context, evs: seq<Event>)
    requires CanRun(x, Init(x), evs)
    ensures Run(x, Init(x), evs).held <==> Holding(evs)
    ensures Run(x, Init(x), evs).held ==> !Run(x, Init(x), evs).giv.stage.Draining?
    decreases |evs|
  {
    if evs == [] {
    } else {
      var before := evs[..|evs| - 1];
      LastEvent(x, evs);
      HeldIsHolding(x, before);
    }
  }

  lemma LastEvent(x: GenericIv.Context, evs: seq<Event>)
    requires CanRun(x, Init(x), evs) && evs != []
    ensures var before, last := evs[..|evs| - 1], evs[|evs| - 1];
            && CanRun(x, Init(x), before)
            && Enabled(x, Run(x, Init(x), before), last)
            && Run(x, Init(x), evs) == Do(x, Run(x, Init(x), before), last)
  {
    var before, last := evs[..|evs| - 1], evs[|evs| - 1];
    assert evs == before + [last];
    PrefixRuns(x, Init(x), before, [last]);
    RunConcat(x, Init(x), before, [last]);
    assert [last][1..] == [];
  }

  lemma {:induction false} PrefixRuns(x: GenericIv.Context, s: State, a: seq<Event>, b: seq<Event>)
    requires CanRun(x, s, a + b)
    ensures CanRun(x, s, a)
    decreases |a|
  {
    if a == [] {
    } else {
      assert (a + b)[0] == a[0] && (a + b)[1..] == a[1..] + b;
      PrefixRuns(x, Do(x, s, a[0]), a[1..], b);
    }
  }

  /** The drain has panicked exactly if it came to take the mutex as the last event while some
      lookup had taken it and not released it. */
  lemma DrainPanicsIff(x: GenericIv.Context, evs: seq<Event>)
    requires CanRun(x, Init(x), evs)
    ensures Run(x, Init(x), evs).drainPanicked
       <==> evs != [] && evs[|evs| - 1] == Base(GenericIv.Lock) && Holding(evs[..|evs| - 1])
  {
    if evs == [] {
    } else {
      LastEvent(x, evs);
      HeldIsHolding(x, evs[..|evs| - 1]);
    }
  }

  lemma {:induction false} Lifted(x: GenericIv.Context, s: State, evs: seq<GenericIv.Event>)
    returns (lifted: seq<Event>)
    requires GenericIv.CanRun(x, s.giv, evs) && !s.held && !s.drainPanicked
    ensures CanRun(x, s, lifted) && Run(x, s, lifted) == s.(giv := GenericIv.Run(x, s.giv, evs))
    decreases |evs|
  {
    if evs == [] {
      lifted := [];
    } else {
      var rest := Lifted(x, Do(x, s, Base(evs[0])), evs[1..]);
      lifted := [Base(evs[0])] + rest;
      assert lifted[1..] == rest;
    }
  }

  /** Such a schedule exists in every collection: nothing but timing keeps a lookup out. */
  lemma DrainCanPanic(x: GenericIv.Context) returns (evs: seq<Event>)
    requires x.Valid()
    ensures CanRun(x, Init(x), evs) && Run(x, Init(x), evs).drainPanicked
  {
    GenericIv.InitInv(x);
    var tracing := GenericIv.TracingCompletes(x, GenericIv.Init(x));
    GenericIv.RunInv(x, GenericIv.Init(x), tracing);
    var lifted := Lifted(x, Init(x), tracing);
    var s := Run(x, Init(x), lifted);
    var last := [TakeLock, Base(GenericIv.Lock)];
    assert last[1..] == [Base(GenericIv.Lock)] && last[1..][1..] == [];
    assert Enabled(x, Do(x, s, TakeLock), Base(GenericIv.Lock));
    assert CanRun(x, Do(x, s, TakeLock), last[1..]);
    RunConcat(x, Init(x), lifted, last);
    evs := lifted + last;
  }

  // ---------- Mutual exclusion ----------

  function Takes(evs: seq<Event>): nat {
    if evs == [] then 0 else Takes(evs[..|evs| - 1]) + if evs[|evs| - 1].TakeLock? then 1 else 0
  }

  function Releases(evs: seq<Event>): nat {
    if evs == [] then 0 else Releases(evs[..|evs| - 1]) + if evs[|evs| - 1].ReleaseLock? then 1 else 0
  }

  /** At most one lookup holds the mutex, and none while the drain does. */
  lemma {:induction false} OneHolder(x: GenericIv.Context, evs: seq<Event>)
    requires CanRun(x, Init(x), evs)
    ensures var s := Run(x, Init(x), evs);
            && Takes(evs) == Releases(evs) + (if s.held then 1 else 0)
            && !(s.held && s.giv.stage.Draining?)
    decreases |evs|
  {
    if evs == [] {
    } else {
      LastEvent(x, evs);
      OneHolder(x, evs[..|evs| - 1]);
      HeldIsHolding(x, evs);
    }
  }

  /** A step waits exactly if a lookup holds the mutex and the step would change the side map. */
  lemma WaitsIff(x: GenericIv.Context, s: State, ev: GenericIv.Event)
    requires GenericIv.Inv(x, s.giv) && !s.drainPanicked && (s.held ==> !s.giv.stage.Draining?)
    requires GenericIv.Enabled(x, s.giv, ev)
    ensures !Enabled(x, s, Base(ev)) <==> s.held && GenericIv.Do(x, s.giv, ev).moved != s.giv.moved
  {
    if NeedsLock(s.giv, ev) {
      assert x.c.forwarded[ev.a] !in s.giv.moved;
      assert x.c.forwarded[ev.a] in GenericIv.Do(x, s.giv, ev).moved;
    }
  }

  /** Nobody changes the side map under a lookup. */
  lemma HeldStep(x: GenericIv.Context, s: State, ev: Event)
    requires s.held && !s.giv.stage.Draining? && Enabled(x, s, ev)
    ensures Do(x, s, ev).giv.moved == s.giv.moved
    ensures Do(x, s, ev).held <==> !ev.ReleaseLock?
    ensures !Do(x, s, ev).giv.stage.Draining?
  {
  }

  /** From the moment a lookup has the mutex until it releases it the side map stays the same,
      in every schedule. */
  lemma {:induction false} HeldSideMapIsStable(x: GenericIv.Context, s: State, evs: seq<Event>)
    requires s.held && !s.giv.stage.Draining? && CanRun(x, s, evs) && ReleaseLock !in evs
    ensures Run(x, s, evs).held && Run(x, s, evs).giv.moved == s.giv.moved
    decreases |evs|
  {
    if evs == [] {
    } else {
      assert evs[0] in evs && forall ev :: ev in evs[1..] ==> ev in evs;
      HeldStep(x, s, evs[0]);
      HeldSideMapIsStable(x, Do(x, s, evs[0]), evs[1..]);
    }
  }

  // ---------- Lookups under the lock ----------

  /** A lookup by new address: `evs1` up to its read of the table, `evs2` up to some moment at
      which it holds the mutex, `evs3` from there up to its read of the side map, before which it
      does not let go.  The lock keeps it out of the drain and the copies out of the side map, so
      the race is the one of `GenericIv.LookupByNewAddress` and no other, and it does not matter
      when it reads. */
  lemma LockedLookup(x: GenericIv.Context, evs1: seq<Event>, evs2: seq<Event>, evs3: seq<Event>,
                     s1: State, s2: State, s3: State, a: Addr)
    requires x.Valid() && CanRun(x, Init(x), evs1) && s1 == Run(x, Init(x), evs1)
    requires CanRun(x, s1, evs2) && s2 == Run(x, s1, evs2) && s2.held && !s2.drainPanicked
    requires CanRun(x, s2, evs3) && s3 == Run(x, s2, evs3) && ReleaseLock !in evs3
    requires a in x.c.forwarded && a in x.table0 && a in s1.giv.pc && s1.giv.pc[a].Copied?
    ensures s3.held && s3.giv.moved == s2.giv.moved
    ensures GenericIv.GetGivtbl(s1.giv, s3.giv, x.c.forwarded[a])
         == if a !in x.flagged || (x.c.forwarded[a] in s1.giv.moved && (s2.giv.stage.Drained? || s2.giv.stage.Cleaned?))
            then None else Some(x.table0[a])
  {
    RunConcat(x, Init(x), evs1, evs2);
    HeldIsHolding(x, evs1 + evs2);
    HeldSideMapIsStable(x, s2, evs3);
    if s1.drainPanicked {
      NoEventAfterPanic(x, s1, evs2);
    }
    Projection(x, Init(x), evs1);
    Projection(x, s1, evs2);
    GenericIv.LookupByNewAddress(x, BaseEvents(evs1), BaseEvents(evs2), s1.giv, s2.giv, a);
  }
}
