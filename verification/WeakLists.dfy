/** The weak lists the binding keeps across collections: the `obj_free` candidates
    (weak_proc.rs) and the set of write-barrier-unprotected objects (binding.rs). */
module WeakLists {
  import opened Chunks
  import opened Heap

  /** The candidates a collection keeps, forwarded, in order. */
  function Retained(c: Collection, cands: seq<Addr>): seq<Addr> {
    if cands == [] then []
    else (if c.IsReachable(cands[0]) then [c.Forward(cands[0])] else []) + Retained(c, cands[1..])
  }

  /** The candidates on which a collection calls `obj_free`, in order. */
  function Dying(c: Collection, cands: seq<Addr>): seq<Addr> {
    if cands == [] then []
    else (if c.IsReachable(cands[0]) then [] else [cands[0]]) + Dying(c, cands[1..])
  }

  lemma {:induction false} RetainedAppend(c: Collection, cands: seq<Addr>, a: Addr)
    ensures Retained(c, cands + [a]) == Retained(c, cands) + if c.IsReachable(a) then [c.Forward(a)] else []
  {
    if cands == [] {
    } else {
      RetainedAppend(c, cands[1..], a);
      assert (cands + [a])[0] == cands[0] && (cands + [a])[1..] == cands[1..] + [a];
      Assoc(if c.IsReachable(cands[0]) then [c.Forward(cands[0])] else [], Retained(c, cands[1..]),
            if c.IsReachable(a) then [c.Forward(a)] else []);
    }
  }

  lemma {:induction false} DyingAppend(c: Collection, cands: seq<Addr>, a: Addr)
    ensures Dying(c, cands + [a]) == Dying(c, cands) + if c.IsReachable(a) then [] else [a]
  {
    if cands == [] {
    } else {
      DyingAppend(c, cands[1..], a);
      assert (cands + [a])[0] == cands[0] && (cands + [a])[1..] == cands[1..] + [a];
      Assoc(if c.IsReachable(cands[0]) then [] else [cands[0]], Dying(c, cands[1..]),
            if c.IsReachable(a) then [] else [a]);
    }
  }

  /** The reachable members, forwarded. */
  ghost function ForwardedSet(c: Collection, objects: set<Addr>): set<Addr> {
    set a | a in objects && c.IsReachable(a) :: c.Forward(a)
  }

  ghost function ReachableOf(c: Collection, objects: set<Addr>): set<Addr> {
    set a | a in objects && c.IsReachable(a)
  }

  lemma ForwardedSetInsert(c: Collection, objects: set<Addr>, a: Addr)
    ensures ForwardedSet(c, objects + {a})
         == ForwardedSet(c, objects) + if c.IsReachable(a) then {c.Forward(a)} else {}
  {
  }

  lemma ForwardedIsNew(c: Collection, inUse: set<Addr>, pinned: set<Addr>, rest: set<Addr>, a: Addr)
    requires c.Legal(inUse, pinned) && c.IsReachable(a) && a !in rest
    ensures c.Forward(a) !in ForwardedSet(c, rest)
  {
    forall b | b in rest && c.IsReachable(b)
      ensures c.Forward(b) != c.Forward(a)
    {
      ForwardInjective(c, inUse, pinned, a, b);
    }
  }

  lemma SizesGrow(c: Collection, inUse: set<Addr>, pinned: set<Addr>, rest: set<Addr>, a: Addr)
    requires c.Legal(inUse, pinned) && a !in rest
    ensures |ForwardedSet(c, rest + {a})| == |ForwardedSet(c, rest)| + if c.IsReachable(a) then 1 else 0
    ensures |ReachableOf(c, rest + {a})| == |ReachableOf(c, rest)| + if c.IsReachable(a) then 1 else 0
  {
    ForwardedSetInsert(c, rest, a);
    assert ReachableOf(c, rest + {a}) == ReachableOf(c, rest) + if c.IsReachable(a) then {a} else {};
    if c.IsReachable(a) {
      ForwardedIsNew(c, inUse, pinned, rest, a);
    }
  }

  /** Rebuilding the set merges no two members. */
  lemma {:induction false} ForwardedSetSize(c: Collection, inUse: set<Addr>, pinned: set<Addr>, objects: set<Addr>)
    requires c.Legal(inUse, pinned)
    ensures |ForwardedSet(c, objects)| == |ReachableOf(c, objects)|
    decreases |objects|
  {
    if a :| a in objects {
      var rest := objects - {a};
      assert objects == rest + {a};
      ForwardedSetSize(c, inUse, pinned, rest);
      SizesGrow(c, inUse, pinned, rest, a);
    } else {
      assert objects == {} && ForwardedSet(c, objects) == {};
    }
  }

  /** weak_proc.rs, WeakProcessor. */
  class WeakProcessor {
    var objFreeCandidates: seq<Addr>

    constructor ()
      ensures objFreeCandidates == []
    {
      objFreeCandidates := [];
    }

    method AddObjFreeCandidate(obj: Addr)
      modifies this
      ensures objFreeCandidates == old(objFreeCandidates) + [obj]
    {
      objFreeCandidates := objFreeCandidates + [obj];
    }

    method AddObjFreeCandidates(objects: seq<Addr>)
      modifies this
      ensures objFreeCandidates == old(objFreeCandidates) + objects
    {
      for i := 0 to |objects|
        invariant objFreeCandidates == old(objFreeCandidates) + objects[..i]
      {
        objFreeCandidates := objFreeCandidates + [objects[i]];
      }
    }

    method GetAllObjFreeCandidates() returns (all: seq<Addr>)
      modifies this
      ensures all == old(objFreeCandidates) && objFreeCandidates == []
    {
      all := objFreeCandidates;
      objFreeCandidates := [];
    }

    /** ProcessObjFreeCandidates::do_work; `freed` are the calls of `call_obj_free`. */
    method ProcessObjFreeCandidates(c: Collection) returns (freed: seq<Addr>)
      modifies this
      ensures objFreeCandidates == Retained(c, old(objFreeCandidates))
      ensures freed == Dying(c, old(objFreeCandidates))
      ensures |objFreeCandidates| + |freed| == |old(objFreeCandidates)|
    {
      var newCandidates := [];
      freed := [];
      for i := 0 to |objFreeCandidates|
        invariant objFreeCandidates == old(objFreeCandidates)
        invariant newCandidates == Retained(c, objFreeCandidates[..i])
        invariant freed == Dying(c, objFreeCandidates[..i])
        invariant |newCandidates| + |freed| == i
      {
        var obj := objFreeCandidates[i];
        assert objFreeCandidates[..i + 1] == objFreeCandidates[..i] + [obj];
        RetainedAppend(c, objFreeCandidates[..i], obj);
        DyingAppend(c, objFreeCandidates[..i], obj);
        if c.IsReachable(obj) {
          newCandidates := newCandidates + [c.Forward(obj)];
        } else {
          freed := freed + [obj];
        }
      }
      assert objFreeCandidates[..|objFreeCandidates|] == objFreeCandidates;
      objFreeCandidates := newCandidates;
    }
  }

  /** binding.rs, the set of write-barrier-unprotected objects. */
  class WbUnprotectedObjects {
    var objects: set<Addr>

    constructor ()
      ensures objects == {}
    {
      objects := {};
    }

    method Register(obj: Addr)
      modifies this
      ensures objects == old(objects) + {obj}
    {
      objects := objects + {obj};
    }

    /** UpdateWbUnprotectedObjectsList::do_work; the taken set is visited in any order. */
    method Update(c: Collection, ghost inUse: set<Addr>, ghost pinned: set<Addr>) returns (oldSize: nat, newSize: nat)
      requires c.Legal(inUse, pinned)
      modifies this
      ensures objects == ForwardedSet(c, old(objects))
      ensures oldSize == |old(objects)| && newSize == |ReachableOf(c, old(objects))|
    {
      var oldObjects := objects;
      oldSize := |oldObjects|;
      objects := {};
      var rest := oldObjects;
      while rest != {}
        invariant rest <= oldObjects
        invariant objects == ForwardedSet(c, oldObjects - rest)
        decreases |rest|
      {
        var obj :| obj in rest;
        assert oldObjects - (rest - {obj}) == (oldObjects - rest) + {obj};
        ForwardedSetInsert(c, oldObjects - rest, obj);
        if c.IsReachable(obj) {
          objects := objects + {c.Forward(obj)};
        }
        rest := rest - {obj};
      }
      assert oldObjects - rest == oldObjects;
      newSize := |objects|;
      ForwardedSetSize(c, inUse, pinned, oldObjects);
    }
  }
}
