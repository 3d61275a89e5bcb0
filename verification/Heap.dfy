/** What the binding may rely on from the collector.

    Objects have a ghost identity that is never reused and an address that changes
    when the object is copied and may be handed out again once the object is dead. */
module Heap {
  type Id = nat
  type Addr = nat

  datatype Option<+T> = None | Some(value: T)

  /** The facts of one collection, fixed once tracing has ended. */
  datatype Collection = Collection(
    mayMove: bool,
    live: set<Addr>,
    reachable: set<Addr>,
    forwarded: map<Addr, Addr>)
  {
    predicate IsLive(a: Addr) {
      a in live
    }

    predicate IsReachable(a: Addr) {
      a in reachable
    }

    function GetForwardedObject(a: Addr): Option<Addr> {
      if a in forwarded then Some(forwarded[a]) else None
    }

    // weak_proc.rs, trait Forwardable
    function Forward(a: Addr): Addr {
      match GetForwardedObject(a)
      case Some(b) => b
      case None => a
    }

    /** The address an object was copied from; the identity elsewhere. */
    ghost function Origin(b: Addr): Addr {
      if a :| a in forwarded && forwarded[a] == b then a else b
    }

    /** The assumptions on the collector, relative to the addresses in use when the
        world stopped and to the pin bits when tracing starts. */
    ghost predicate Legal(inUse: set<Addr>, pinned: set<Addr>) {
      && reachable <= live <= inUse
      && forwarded.Keys <= reachable
      && (forall a, b :: a in forwarded && b in forwarded && forwarded[a] == forwarded[b] ==> a == b)
      && (forall a :: a in forwarded ==> forwarded[a] !in inUse)
      && forwarded.Keys !! pinned
      && (!mayMove ==> forwarded == map[])
    }
  }

  lemma ForwardInjective(c: Collection, inUse: set<Addr>, pinned: set<Addr>, a: Addr, b: Addr)
    requires c.Legal(inUse, pinned) && a in inUse && b in inUse
    ensures c.Forward(a) == c.Forward(b) <==> a == b
  {
  }
}
