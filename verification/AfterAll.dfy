/** utils.rs, AfterAll: packets held back until a counter reaches zero. */
module AfterAll {
  import opened Arithmetic

  function FetchAdd(counter: Usize, n: nat): Usize {
    AddUsize(counter, n)
  }

  function FetchSubOne(counter: Usize): Usize {
    SubUsize(counter, 1)
  }

  /** A work bucket, reduced to the bag of packets in it. */
  class WorkBucket<T(==)> {
    var packets: multiset<T>

    constructor ()
      ensures packets == multiset{}
    {
      packets := multiset{};
    }

    method BulkAdd(more: seq<T>)
      modifies this
      ensures packets == old(packets) + multiset(more)
    {
      packets := packets + multiset(more);
    }
  }

  class AfterAll<T(==)> {
    var counter: Usize
    var packets: seq<T>
    const stage: WorkBucket<T>

    constructor (stage: WorkBucket<T>)
      ensures counter == 0 && packets == [] && this.stage == stage
    {
      counter, packets, this.stage := 0, [], stage;
    }

    method AddPackets(more: seq<T>)
      modifies this
      ensures packets == old(packets) + more && counter == old(counter)
    {
      packets := packets + more;
    }

    method CountUp(n: nat)
      modifies this
      ensures counter == (old(counter) + n) % USIZE_VALUES && packets == old(packets)
    {
      counter := FetchAdd(counter, n);
    }

    /** The three steps of `count_down` run without interference. */
    method CountDown() returns (last: bool)
      modifies this, stage
      ensures last <==> old(counter) == 1
      ensures counter == FetchSubOne(old(counter)) == if old(counter) == 0 then USIZE_VALUES - 1 else old(counter) - 1
      ensures packets == if last then [] else old(packets)
      ensures stage.packets == if last then old(stage.packets) + multiset(old(packets)) else old(stage.packets)
    {
      var before := counter;
      counter := if counter == 0 then USIZE_VALUES - 1 else counter - 1;
      if before == 1 {
        var taken := packets;
        packets := [];
        stage.BulkAdd(taken);
        return true;
      }
      return false;
    }
  }
}
