/** abi.rs, ObjectClosure: the closure of a GC thread that VM code calls for every object it
    visits, and what happens when it is set recursively. */
module ObjectClosures {
  import opened Heap

  /** The one closure of a thread. */
  class ObjectClosure {
    var registered: bool

    constructor ()
      ensures !registered
    {
      registered := false;
    }

    /** The start of `set_temporarily_and_run_code`, with its debug assertion. */
    method Register() returns (assertionHolds: bool)
      modifies this
      ensures registered
      ensures assertionHolds <==> !old(registered)
    {
      assertionHolds := !registered;
      registered := true;
    }

    /** Its end: the default, whatever was there before. */
    method Reset()
      modifies this
      ensures !registered
    {
      registered := false;
    }
  }

  // ---------- Recursive use ----------

  /** What VM code does with the closure: call it, or set it to closure `visitor` and run more code. */
  datatype Step = Visit(target: Addr) | SetAndRun(visitor: nat, code: seq<Step>)

  datatype Seen = Seen(visitor: nat, target: Addr)

  /** `visitor` is the registered closure, `seen` the calls it and others have received.  In a
      release build a failed assertion goes unnoticed; calling the unregistered closure panics. */
  datatype State = State(visitor: Option<nat>, seen: seq<Seen>, failedAssertions: nat, panicked: bool)

  /** The debug assertion, then the new closure. */
  function Set(visitor: nat, s: State): State {
    s.(visitor := Some(visitor), failedAssertions := s.failedAssertions + if s.visitor.Some? then 1 else 0)
  }

  function Exec(code: seq<Step>, s: State): State
    decreases code
  {
    if code == [] || s.panicked then s
    else
      match code[0]
      case Visit(target) =>
        if s.visitor.None? then s.(panicked := true)
        else Exec(code[1..], s.(seen := s.seen + [Seen(s.visitor.value, target)]))
      case SetAndRun(visitor, inner) =>
        var s' := Exec(inner, Set(visitor, s));
        Exec(code[1..], if s'.panicked then s' else s'.(visitor := None))
  }

  /** No recursive use. */
  predicate Flat(code: seq<Step>) {
    forall i :: 0 <= i < |code| ==> code[i].Visit?
  }

  /** A recursive use is the last thing that concerns the closure, at every level. */
  predicate LastAtEveryLevel(code: seq<Step>)
    decreases code
  {
    && (forall i, j :: 0 <= i < j < |code| && code[i].SetAndRun? ==> code[j].SetAndRun?)
    && (forall i :: 0 <= i < |code| && code[i].SetAndRun? ==> LastAtEveryLevel(code[i].code))
  }

  function Calls(visitor: nat, code: seq<Step>): seq<Seen> {
    if code == [] then []
    else (if code[0].Visit? then [Seen(visitor, code[0].target)] else []) + Calls(visitor, code[1..])
  }

  /** One call for each visit. */
  lemma {:induction false} CallsAt(visitor: nat, code: seq<Step>)
    requires Flat(code)
    ensures |Calls(visitor, code)| == |code|
    ensures forall i :: 0 <= i < |code| ==> Calls(visitor, code)[i] == Seen(visitor, code[i].target)
  {
    if code == [] {
    } else {
      CallsAt(visitor, code[1..]);
    }
  }

  /** Without recursive use every visit reaches the closure that was set, in order. */
  lemma {:induction false} FlatExec(code: seq<Step>, s: State)
    requires Flat(code) && s.visitor.Some? && !s.panicked
    ensures Exec(code, s) == s.(seen := s.seen + Calls(s.visitor.value, code))
    decreases |code|
  {
    if code == [] {
      assert s.seen + [] == s.seen;
    } else {
      var s' := s.(seen := s.seen + [Seen(s.visitor.value, code[0].target)]);
      FlatExec(code[1..], s');
      assert s.seen + ([Seen(s.visitor.value, code[0].target)] + Calls(s.visitor.value, code[1..]))
          == s'.seen + Calls(s.visitor.value, code[1..]);
    }
  }

  lemma {:induction false} AssertionsGrow(code: seq<Step>, s: State)
    ensures s.failedAssertions <= Exec(code, s).failedAssertions
    decreases code
  {
    if code == [] || s.panicked {
    } else {
      match code[0]
      case Visit(target) =>
        if s.visitor.Some? {
          AssertionsGrow(code[1..], s.(seen := s.seen + [Seen(s.visitor.value, target)]));
        }
      case SetAndRun(visitor, inner) =>
        var s0 := Set(visitor, s);
        var s' := Exec(inner, s0);
        AssertionsGrow(inner, s0);
        AssertionsGrow(code[1..], if s'.panicked then s' else s'.(visitor := None));
    }
  }

  /** The recursion assertion fails exactly if there is a recursive use, in whatever depth. */
  lemma {:induction false} AssertionFailsIff(code: seq<Step>, s: State)
    requires s.visitor.Some? && !s.panicked
    ensures Exec(code, s).failedAssertions == s.failedAssertions <==> Flat(code)
    decreases |code|
  {
    if code == [] {
    } else {
      assert Flat(code) <==> code[0].Visit? && Flat(code[1..]) by {
        assert forall i :: 1 <= i < |code| ==> code[i] == code[1..][i - 1];
      }
      match code[0]
      case Visit(target) =>
        AssertionFailsIff(code[1..], s.(seen := s.seen + [Seen(s.visitor.value, target)]));
      case SetAndRun(visitor, inner) =>
        var s0 := Set(visitor, s);
        var s' := Exec(inner, s0);
        AssertionsGrow(inner, s0);
        AssertionsGrow(code[1..], if s'.panicked then s' else s'.(visitor := None));
    }
  }

  lemma LastCons(code: seq<Step>)
    requires code != []
    ensures code[0].Visit? ==> (LastAtEveryLevel(code) <==> LastAtEveryLevel(code[1..]))
    ensures code[0].SetAndRun? ==>
      (LastAtEveryLevel(code) <==>
         LastAtEveryLevel(code[0].code) && LastAtEveryLevel(code[1..])
         && forall i :: 0 <= i < |code[1..]| ==> code[1..][i].SetAndRun?)
  {
    assert forall i :: 1 <= i < |code| ==> code[i] == code[1..][i - 1];
    assert forall i :: 0 <= i < |code[1..]| ==> code[1..][i] == code[i + 1];
  }

  /** The unregistered closure is called, which panics, exactly if some visit follows a recursive
      use at its own level: the inner use has taken the outer closure away. */
  lemma {:induction false} PanicsIff(code: seq<Step>, s: State)
    requires !s.panicked
    ensures !Exec(code, s).panicked
       <==> LastAtEveryLevel(code) && (s.visitor.None? ==> forall i :: 0 <= i < |code| ==> code[i].SetAndRun?)
    decreases code
  {
    if code == [] {
    } else {
      LastCons(code);
      match code[0]
      case Visit(target) =>
        if s.visitor.Some? {
          PanicsIff(code[1..], s.(seen := s.seen + [Seen(s.visitor.value, target)]));
        }
      case SetAndRun(visitor, inner) =>
        var s0 := Set(visitor, s);
        var s' := Exec(inner, s0);
        PanicsIff(inner, s0);
        if !s'.panicked {
          PanicsIff(code[1..], s'.(visitor := None));
          assert forall i :: 1 <= i < |code| ==> code[i] == code[1..][i - 1];
        }
    }
  }

  /** One use by a thread whose closure is unregistered: the closure is unregistered again after
      it; no assertion fails iff the code makes no recursive use, and then the closure has seen
      exactly the visits; the code panics iff a visit follows a recursive use at its level. */
  lemma SetTemporarily(visitor: nat, code: seq<Step>)
    ensures var s := Exec([SetAndRun(visitor, code)], State(None, [], 0, false));
            && (!s.panicked ==> s.visitor == None)
            && (s.failedAssertions == 0 <==> Flat(code))
            && (Flat(code) ==> !s.panicked && |s.seen| == |code|)
            && (Flat(code) ==> forall i :: 0 <= i < |code| ==> s.seen[i] == Seen(visitor, code[i].target))
            && (s.panicked <==> !LastAtEveryLevel(code))
  {
    var s0 := State(Some(visitor), [], 0, false);
    AssertionFailsIff(code, s0);
    PanicsIff(code, s0);
    if Flat(code) {
      FlatExec(code, s0);
      CallsAt(visitor, code);
      assert [] + Calls(visitor, code) == Calls(visitor, code);
    }
    var s' := Exec(code, s0);
    assert [SetAndRun(visitor, code)][1..] == [];
  }

  /** A recursive use at a concrete input: closure 0 is set, closure 1 is set within, and the
      visit that follows finds no closure.  A debug build stops at the assertion before that. */
  lemma RecursionPanicExample()
    ensures var s := Exec([SetAndRun(0, [SetAndRun(1, []), Visit(5)])], State(None, [], 0, false));
            s.panicked && s.failedAssertions == 1
  {
    var code := [SetAndRun(1, []), Visit(5)];
    assert code[1..] == [Visit(5)];
  }
}
