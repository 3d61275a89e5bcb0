/** Cutting a sequence into chunks: `Vec::chunks`, `ChunkedVecCollector` (utils.rs) and the
    root buffer of scanning.rs all have to produce exactly this. */
module Chunks {
  import opened Arithmetic

  lemma Assoc<T>(a: seq<T>, b: seq<T>, c: seq<T>)
    ensures a + (b + c) == (a + b) + c
  {
  }

  function Flatten<T>(vs: seq<seq<T>>): seq<T> {
    if vs == [] then [] else vs[0] + Flatten(vs[1..])
  }

  /** A chunk size of zero never triggers a flush, so everything ends up in one chunk. */
  function Chunked<T>(s: seq<T>, n: nat): seq<seq<T>>
    decreases |s|
  {
    if s == [] then []
    else if n == 0 || |s| <= n then [s]
    else [s[..n]] + Chunked(s[n..], n)
  }

  ghost predicate WellChunked<T>(vs: seq<seq<T>>, n: nat) {
    && (forall k :: 0 <= k < |vs| ==> 0 < |vs[k]|)
    && (n > 0 ==> forall k :: 0 <= k < |vs| ==> if k < |vs| - 1 then |vs[k]| == n else |vs[k]| <= n)
    && (n == 0 ==> |vs| <= 1)
  }

  /** `Chunked` is the one way to cut `s` with no empty chunk and all but the last full. */
  lemma {:induction false} ChunkedCharacterised<T>(s: seq<T>, n: nat, vs: seq<seq<T>>)
    ensures WellChunked(vs, n) && Flatten(vs) == s <==> vs == Chunked(s, n)
    decreases |s|
  {
    if vs == [] {
    } else if |vs| == 1 {
      assert vs == [vs[0]] && Flatten(vs) == vs[0] + Flatten(vs[1..]) == vs[0];
      if n > 0 && |s| > n {
        ChunkedNonEmpty(s[n..], n);
      }
    } else if n > 0 && |s| > n {
      assert vs == [vs[0]] + vs[1..];
      if |vs[0]| == n {
        ChunkedCharacterised(s[n..], n, vs[1..]);
        assert Flatten(vs) == s ==> vs[0] == s[..n] && Flatten(vs[1..]) == s[n..];
        WellChunkedTail(vs, n);
      }
    } else if n > 0 {
      FlattenTwo(vs);
    }
  }

  /** Chunk by chunk: chunk `k` holds the `n` elements from `k * n` on, or what there is of them. */
  lemma {:induction false} ChunkedAt<T>(s: seq<T>, n: nat, k: nat)
    requires n > 0
    ensures k < |Chunked(s, n)| <==> k * n < |s|
    ensures k * n < |s| ==> Chunked(s, n)[k] == s[k * n..Min(k * n + n, |s|)]
    decreases |s|
  {
    if k == 0 {
      ChunkedNonEmpty(s, n);
    } else {
      MulAdd(k - 1, 1, n);
      MulMono(0, k - 1, n);
      if |s| > n {
        ChunkedAt(s[n..], n, k - 1);
        if k * n < |s| {
          ChunkBehind(s, n, (k - 1) * n, Min((k - 1) * n + n, |s| - n));
        }
      }
    }
  }

  lemma ChunkBehind<T>(s: seq<T>, n: nat, lo: nat, hi: nat)
    requires lo <= hi && n + hi <= |s|
    ensures s[n..][lo..hi] == s[n + lo..n + hi]
  {
  }

  /** Element by element: element `i` of part `k` comes right behind the parts before it. */
  lemma {:induction false} FlattenAt<T>(vs: seq<seq<T>>, k: nat, i: nat)
    requires k < |vs| && i < |vs[k]|
    ensures |Flatten(vs[..k])| + i < |Flatten(vs)|
    ensures Flatten(vs)[|Flatten(vs[..k])| + i] == vs[k][i]
  {
    if k == 0 {
      assert vs[..0] == [];
    } else {
      FlattenAt(vs[1..], k - 1, i);
      assert vs[..k][0] == vs[0] && vs[..k][1..] == vs[1..][..k - 1];
    }
  }

  lemma ChunkedNonEmpty<T>(s: seq<T>, n: nat)
    ensures Chunked(s, n) == [] <==> s == []
  {
  }

  lemma WellChunkedTail<T>(vs: seq<seq<T>>, n: nat)
    requires n > 0 && |vs| > 1
    ensures WellChunked(vs, n) <==> |vs[0]| == n && WellChunked(vs[1..], n)
  {
    assert forall k :: 1 <= k < |vs| ==> vs[k] == vs[1..][k - 1];
  }

  lemma FlattenTwo<T>(vs: seq<seq<T>>)
    requires |vs| > 1
    ensures |Flatten(vs)| >= |vs[0]| + |vs[1]|
  {
    assert vs[1..][0] == vs[1];
  }

  lemma {:induction false} FlattenAppend<T>(vs: seq<seq<T>>, ws: seq<seq<T>>)
    ensures Flatten(vs + ws) == Flatten(vs) + Flatten(ws)
  {
    if vs == [] {
      assert vs + ws == ws;
    } else {
      FlattenAppend(vs[1..], ws);
      assert (vs + ws)[0] == vs[0] && (vs + ws)[1..] == vs[1..] + ws;
      Assoc(vs[0], Flatten(vs[1..]), Flatten(ws));
    }
  }

  /** utils.rs, ChunkedVecCollector. */
  class ChunkedVecCollector<T> {
    var vecs: seq<seq<T>>
    var currentVec: seq<T>
    const chunkSize: nat

    ghost predicate Valid()
      reads this
    {
      && (forall k :: 0 <= k < |vecs| ==> |vecs[k]| == chunkSize > 0)
      && (chunkSize > 0 ==> |currentVec| < chunkSize)
    }

    ghost function Contents(): seq<T>
      reads this
    {
      Flatten(vecs) + currentVec
    }

    constructor (chunkSize: nat)
      ensures Valid() && Contents() == [] && this.chunkSize == chunkSize
    {
      vecs, currentVec, this.chunkSize := [], [], chunkSize;
    }

    method Flush()
      modifies this
      ensures vecs == old(vecs) + [old(currentVec)] && currentVec == []
      ensures Contents() == old(Contents())
    {
      FlattenAppend(vecs, [currentVec]);
      vecs := vecs + [currentVec];
      currentVec := [];
    }

    method Add(item: T)
      requires Valid()
      modifies this
      ensures Valid() && Contents() == old(Contents()) + [item]
    {
      currentVec := currentVec + [item];
      assert Contents() == old(Contents()) + [item] by {
        Assoc(Flatten(vecs), old(currentVec), [item]);
      }
      if |currentVec| == chunkSize {
        Flush();
        forall k | 0 <= k < |vecs| ensures |vecs[k]| == chunkSize {
          assert vecs[k] == if k < |old(vecs)| then old(vecs)[k] else old(currentVec) + [item];
        }
      }
    }

    method Extend(items: seq<T>)
      requires Valid()
      modifies this
      ensures Valid() && Contents() == old(Contents()) + items
    {
      for i := 0 to |items|
        invariant Valid() && Contents() == old(Contents()) + items[..i]
      {
        Add(items[i]);
      }
    }

    method IntoVecs() returns (result: seq<seq<T>>)
      requires Valid()
      modifies this
      ensures result == Chunked(old(Contents()), chunkSize)
    {
      ghost var contents := Contents();
      if |currentVec| > 0 {
        Flush();
      }
      result := vecs;
      ChunkedCharacterised(contents, chunkSize, result);
    }
  }
}
