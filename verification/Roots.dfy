/** scanning.rs: roots are buffered into work packets, and in a nursery collection the
    WB-unprotected objects are scanned as roots in packets of their own. */
module Roots {
  import opened Chunks
  import opened Heap
  import opened ObjectClosures

  const OBJECT_BUFFER_SIZE: nat := 4096
  const WB_CHUNK_SIZE: nat := 128

  /** `collect_object_roots_in`: the buffer captured by the visiting closure and the packets given
      to the factory. */
  class RootCollector {
    var buffer: seq<Addr>
    var submitted: seq<seq<Addr>>

    ghost predicate Valid()
      reads this
    {
      && (forall k :: 0 <= k < |submitted| ==> |submitted[k]| == OBJECT_BUFFER_SIZE)
      && |buffer| < OBJECT_BUFFER_SIZE
    }

    ghost function Contents(): seq<Addr>
      reads this
    {
      Flatten(submitted) + buffer
    }

    constructor ()
      ensures Valid() && Contents() == []
    {
      buffer, submitted := [], [];
    }

    /** A call of the thread's closure by the VM: it panics unless this visitor is registered. */
    method Call(closure: ObjectClosure, obj: Addr) returns (panicked: bool)
      requires Valid()
      modifies this
      ensures Valid()
      ensures panicked <==> !closure.registered
      ensures Contents() == old(Contents()) + if panicked then [] else [obj]
    {
      panicked := !closure.registered;
      if panicked {
        assert Contents() + [] == Contents();
        return;
      }
      buffer := buffer + [obj];
      if |buffer| >= OBJECT_BUFFER_SIZE {
        FlattenAppend(submitted, [buffer]);
        submitted := submitted + [buffer];
        buffer := [];
      }
    }

    method CallAll(closure: ObjectClosure, objs: seq<Addr>)
      requires Valid() && closure.registered
      modifies this
      ensures Valid() && Contents() == old(Contents()) + objs
    {
      for i := 0 to |objs|
        invariant Valid() && Contents() == old(Contents()) + objs[..i]
      {
        var panicked := Call(closure, objs[i]);
      }
    }

    /** The rest of the buffer. */
    method Finish()
      requires Valid()
      modifies this
      ensures buffer == [] && submitted == Chunked(old(Contents()), OBJECT_BUFFER_SIZE)
    {
      ghost var contents := Contents();
      if |buffer| > 0 {
        FlattenAppend(submitted, [buffer]);
        submitted := submitted + [buffer];
        buffer := [];
      }
      ChunkedCharacterised(contents, OBJECT_BUFFER_SIZE, submitted);
    }
  }

  /** Root scanning for any sequence of visits by the VM: nothing is lost, reordered or repeated,
      the thread's closure is unregistered after it, and the assertion says whether it was before. */
  method CollectObjectRoots(closure: ObjectClosure, visits: seq<Addr>)
    returns (packets: seq<seq<Addr>>, assertionHolds: bool)
    modifies closure
    ensures packets == Chunked(visits, OBJECT_BUFFER_SIZE)
    ensures WellChunked(packets, OBJECT_BUFFER_SIZE) && Flatten(packets) == visits
    ensures assertionHolds <==> !old(closure.registered)
    ensures !closure.registered
  {
    var collector := new RootCollector();
    assertionHolds := closure.Register();
    collector.CallAll(closure, visits);
    assert collector.Contents() == visits;
    closure.Reset();
    collector.Finish();
    packets := collector.submitted;
    ChunkedCharacterised(visits, OBJECT_BUFFER_SIZE, packets);
  }

  // ---------- Nursery collections ----------

  function ChildrenOf(children: map<Addr, seq<Addr>>, a: Addr): seq<Addr> {
    if a in children then children[a] else []
  }

  /** The roots a packet over `objects` visits: the children of the reachable ones. */
  function WbRoots(reachable: set<Addr>, children: map<Addr, seq<Addr>>, objects: seq<Addr>): seq<Addr> {
    if objects == [] then []
    else (if objects[0] in reachable then ChildrenOf(children, objects[0]) else [])
         + WbRoots(reachable, children, objects[1..])
  }

  lemma {:induction false} WbRootsConcat(reachable: set<Addr>, children: map<Addr, seq<Addr>>,
                                         a: seq<Addr>, b: seq<Addr>)
    ensures WbRoots(reachable, children, a + b) == WbRoots(reachable, children, a) + WbRoots(reachable, children, b)
  {
    if a == [] {
      assert a + b == b;
    } else {
      WbRootsConcat(reachable, children, a[1..], b);
      assert (a + b)[0] == a[0] && (a + b)[1..] == a[1..] + b;
      var first := if a[0] in reachable then ChildrenOf(children, a[0]) else [];
      Assoc(first, WbRoots(reachable, children, a[1..]), WbRoots(reachable, children, b));
    }
  }

  lemma {:induction false} WbRootsMember(reachable: set<Addr>, children: map<Addr, seq<Addr>>,
                                         objects: seq<Addr>, x: Addr)
    ensures x in WbRoots(reachable, children, objects)
       <==> exists p :: p in objects && p in reachable && p in children && x in children[p]
  {
    if objects == [] {
    } else {
      WbRootsMember(reachable, children, objects[1..], x);
      assert forall p :: p in objects <==> p == objects[0] || p in objects[1..];
    }
  }

  /** What the VM visits for each object of a packet, in order. */
  function AllVisited(reachable: set<Addr>, children: map<Addr, seq<Addr>>, objects: seq<Addr>): seq<seq<Addr>> {
    seq(|objects|, k requires 0 <= k < |objects| =>
          if objects[k] in reachable && objects[k] in children then children[objects[k]] else [])
  }

  /** The roots are that, one object after the other. */
  lemma {:induction false} WbRootsInOrder(reachable: set<Addr>, children: map<Addr, seq<Addr>>, objects: seq<Addr>)
    ensures WbRoots(reachable, children, objects) == Flatten(AllVisited(reachable, children, objects))
  {
    if objects == [] {
    } else {
      WbRootsInOrder(reachable, children, objects[1..]);
      assert AllVisited(reachable, children, objects)
          == [AllVisited(reachable, children, objects)[0]] + AllVisited(reachable, children, objects[1..]);
    }
  }

  /** ScanWbUnprotectedRoots::do_work: one buffer for all the objects of the packet. */
  method ScanWbUnprotectedRoots(closure: ObjectClosure, reachable: set<Addr>, children: map<Addr, seq<Addr>>,
                               objects: seq<Addr>)
    returns (packets: seq<seq<Addr>>, assertionHolds: bool)
    modifies closure
    ensures packets == Chunked(WbRoots(reachable, children, objects), OBJECT_BUFFER_SIZE)
    ensures WellChunked(packets, OBJECT_BUFFER_SIZE)
    ensures Flatten(packets) == Flatten(AllVisited(reachable, children, objects))
    ensures assertionHolds <==> !old(closure.registered)
    ensures !closure.registered
  {
    var collector := new RootCollector();
    assertionHolds := closure.Register();
    for i := 0 to |objects|
      invariant fresh(collector) && collector.Valid() && closure.registered
      invariant collector.Contents() == WbRoots(reachable, children, objects[..i])
    {
      assert objects[..i + 1] == objects[..i] + [objects[i]];
      WbRootsConcat(reachable, children, objects[..i], [objects[i]]);
      if objects[i] in reachable {
        collector.CallAll(closure, ChildrenOf(children, objects[i]));
      }
    }
    assert objects[..|objects|] == objects;
    closure.Reset();
    collector.Finish();
    packets := collector.submitted;
    WbRootsInOrder(reachable, children, objects);
    ChunkedCharacterised(WbRoots(reachable, children, objects), OBJECT_BUFFER_SIZE, packets);
  }

  /** The packets of a nursery collection, for any iteration order of the hash set. */
  method GenWbUnprotectedPackets(nursery: bool, objects: set<Addr>) returns (packets: seq<seq<Addr>>)
    ensures WellChunked(packets, WB_CHUNK_SIZE)
    ensures multiset(Flatten(packets)) == if nursery then multiset(objects) else multiset{}
  {
    if !nursery || objects == {} {
      return [];
    }
    var collector := new ChunkedVecCollector(WB_CHUNK_SIZE);
    var rest := objects;
    while rest != {}
      invariant fresh(collector) && collector.Valid() && collector.chunkSize == WB_CHUNK_SIZE
      invariant rest <= objects && multiset(collector.Contents()) == multiset(objects - rest)
      decreases |rest|
    {
      var obj :| obj in rest;
      assert objects - (rest - {obj}) == (objects - rest) + {obj};
      collector.Add(obj);
      rest := rest - {obj};
    }
    assert objects - rest == objects;
    ghost var contents := collector.Contents();
    packets := collector.IntoVecs();
    ChunkedCharacterised(contents, WB_CHUNK_SIZE, packets);
  }

  /** All the roots submitted by all the packets together. */
  function SubmittedBy(reachable: set<Addr>, children: map<Addr, seq<Addr>>, packets: seq<seq<Addr>>): seq<Addr> {
    if packets == [] then []
    else Flatten(Chunked(WbRoots(reachable, children, packets[0]), OBJECT_BUFFER_SIZE))
         + SubmittedBy(reachable, children, packets[1..])
  }

  lemma {:induction false} SubmittedIsWbRoots(reachable: set<Addr>, children: map<Addr, seq<Addr>>,
                                              packets: seq<seq<Addr>>)
    ensures SubmittedBy(reachable, children, packets) == WbRoots(reachable, children, Flatten(packets))
  {
    if packets == [] {
    } else {
      SubmittedIsWbRoots(reachable, children, packets[1..]);
      var roots := WbRoots(reachable, children, packets[0]);
      ChunkedCharacterised(roots, OBJECT_BUFFER_SIZE, Chunked(roots, OBJECT_BUFFER_SIZE));
      WbRootsConcat(reachable, children, packets[0], Flatten(packets[1..]));
    }
  }

  /** Nursery roots are complete: however the set was cut into packets, the roots submitted are
      exactly the children of its reachable members. */
  lemma NurseryRootsComplete(reachable: set<Addr>, children: map<Addr, seq<Addr>>, objects: set<Addr>,
                             packets: seq<seq<Addr>>, x: Addr)
    requires multiset(Flatten(packets)) == multiset(objects)
    ensures x in SubmittedBy(reachable, children, packets)
       <==> exists p :: p in objects && p in reachable && p in children && x in children[p]
  {
    SubmittedIsWbRoots(reachable, children, packets);
    WbRootsMember(reachable, children, Flatten(packets), x);
    assert forall p :: p in Flatten(packets) <==> p in multiset(Flatten(packets));
  }
}
