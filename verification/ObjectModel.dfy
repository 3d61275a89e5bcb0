/** object_model.rs and the layout part of abi.rs: objects as bytes in memory, with a hidden
    header word before the object reference and an optional suffix after the payload. */
module ObjectModel {
  import opened Arithmetic

  type Byte = x: nat | x < 256

  const OBJREF_OFFSET: nat := 8
  const HIDDEN_SIZE_VALUES: nat := 0x1_0000_0000_0000
  const FL_EXIVAR: nat := 1024

  /** A little-endian number. */
  function Number(bytes: seq<Byte>): nat {
    if bytes == [] then 0 else bytes[0] + 256 * Number(bytes[1..])
  }

  /** The bytes of the word at `a`. */
  function WordAt(mem: seq<Byte>, a: nat): seq<Byte>
    requires a + 8 <= |mem|
  {
    mem[a..a + 8]
  }

  /** RubyObjectAccess over a memory snapshot. */
  datatype Access = Access(objref: nat, suffixSize: nat) {
    ghost predicate HasHeader(mem: seq<Byte>) {
      OBJREF_OFFSET <= objref && objref + 8 <= |mem|
    }

    ghost predicate InBounds(mem: seq<Byte>) {
      HasHeader(mem) && PayloadSize(mem) >= 8 && ObjEnd(mem) <= |mem|
    }

    function ObjStart(): nat
      requires OBJREF_OFFSET <= objref
    {
      objref - OBJREF_OFFSET
    }

    function Prefix(mem: seq<Byte>): nat
      requires HasHeader(mem)
    {
      Number(WordAt(mem, ObjStart()))
    }

    predicate IsSane(mem: seq<Byte>)
      requires HasHeader(mem)
    {
      Prefix(mem) / HIDDEN_SIZE_VALUES == 0
    }

    function PayloadSize(mem: seq<Byte>): nat
      requires HasHeader(mem)
    {
      Prefix(mem) % HIDDEN_SIZE_VALUES
    }

    function SuffixAddr(mem: seq<Byte>): nat
      requires HasHeader(mem)
    {
      objref + PayloadSize(mem)
    }

    function ObjEnd(mem: seq<Byte>): nat
      requires HasHeader(mem)
    {
      SuffixAddr(mem) + suffixSize
    }

    function ObjectSize(mem: seq<Byte>): nat
      requires HasHeader(mem)
    {
      OBJREF_OFFSET + PayloadSize(mem) + suffixSize
    }

    predicate HasExivarFlag(mem: seq<Byte>)
      requires HasHeader(mem)
    {
      Number(WordAt(mem, objref)) / FL_EXIVAR % 2 == 1
    }
  }

  function Pow256(k: nat): nat {
    if k == 0 then 1 else 256 * Pow256(k - 1)
  }

  lemma {:induction false} NumberSplit(bytes: seq<Byte>, k: nat)
    requires k <= |bytes|
    ensures Number(bytes) == Number(bytes[..k]) + Pow256(k) * Number(bytes[k..])
  {
    if k == 0 {
      assert bytes[0..] == bytes;
    } else {
      NumberSplit(bytes[1..], k - 1);
      assert bytes[..k][1..] == bytes[1..][..k - 1] && bytes[k..] == bytes[1..][k - 1..];
      MulAssoc(256, Pow256(k - 1), Number(bytes[k..]));
    }
  }

  lemma {:induction false} NumberBound(bytes: seq<Byte>)
    ensures Number(bytes) < Pow256(|bytes|)
  {
    if bytes == [] {
    } else {
      NumberBound(bytes[1..]);
    }
  }

  lemma SixBytes()
    ensures Pow256(6) == HIDDEN_SIZE_VALUES
  {
    assert Pow256(2) == 256 * (256 * Pow256(0));
    assert Pow256(4) == 256 * (256 * Pow256(2));
    assert Pow256(6) == 256 * (256 * Pow256(4));
  }

  /** What the mask of the hidden header means byte by byte: the size is the low six bytes, and
      the header is sane exactly if the two high bytes are zero; then nothing is masked away. */
  lemma HeaderLayout(mem: seq<Byte>, acc: Access)
    requires acc.HasHeader(mem)
    ensures acc.PayloadSize(mem) == Number(mem[acc.ObjStart()..acc.ObjStart() + 6])
    ensures acc.IsSane(mem) <==> mem[acc.ObjStart() + 6] == 0 && mem[acc.ObjStart() + 7] == 0
    ensures acc.IsSane(mem) <==> acc.PayloadSize(mem) == acc.Prefix(mem)
    ensures acc.ObjEnd(mem) - acc.ObjStart() == acc.ObjectSize(mem)
  {
    var word := WordAt(mem, acc.ObjStart());
    var low, high := Number(word[..6]), Number(word[6..]);
    NumberSplit(word, 6);
    NumberBound(word[..6]);
    SixBytes();
    assert word[..6] == mem[acc.ObjStart()..acc.ObjStart() + 6];
    assert word[6..] == [mem[acc.ObjStart() + 6], mem[acc.ObjStart() + 7]];
    assert high == word[6] + 256 * Number(word[6..][1..]) && Number(word[6..][1..]) == word[7] + 256 * Number([]);
    SplitNumber(low, high);
  }

  lemma SplitNumber(low: nat, high: nat)
    requires low < HIDDEN_SIZE_VALUES
    ensures (low + HIDDEN_SIZE_VALUES * high) % HIDDEN_SIZE_VALUES == low
    ensures (low + HIDDEN_SIZE_VALUES * high) / HIDDEN_SIZE_VALUES == high
  {
  }

  /** RUBY_FL_EXIVAR is bit 2 of the second payload byte. */
  lemma ExivarBit(mem: seq<Byte>, acc: Access)
    requires acc.HasHeader(mem)
    ensures acc.HasExivarFlag(mem) <==> mem[acc.objref + 1] / 4 % 2 == 1
  {
    var word := WordAt(mem, acc.objref);
    assert Number(word) == word[0] + 256 * (word[1] + 256 * Number(word[1..][1..]));
    BitTen(word[0], word[1], Number(word[1..][1..]));
  }

  lemma BitTen(a: nat, b: nat, rest: nat)
    requires a < 256 && b < 256
    ensures (a + 256 * (b + 256 * rest)) / FL_EXIVAR % 2 == b / 4 % 2
  {
    var q, r := b / 4, b % 4;
    var n := q + 64 * rest;
    DivUnique(a + 256 * (b + 256 * rest), FL_EXIVAR, n, a + 256 * r);
    DivUnique(n, 2, q / 2 + 32 * rest, q % 2);
  }

  lemma SameWord(mem: seq<Byte>, mem': seq<Byte>, a: nat, a': nat, size: nat, k: nat)
    requires a + size <= |mem| && a' + size <= |mem'| && k + 8 <= size
    requires mem'[a'..a' + size] == mem[a..a + size]
    ensures WordAt(mem', a' + k) == WordAt(mem, a + k)
  {
    WordInside(mem, a, size, k);
    WordInside(mem', a', size, k);
  }

  lemma WordInside(mem: seq<Byte>, a: nat, size: nat, k: nat)
    requires a + size <= |mem| && k + 8 <= size
    ensures WordAt(mem, a + k) == mem[a..a + size][k..k + 8]
  {
    var word, bytes := WordAt(mem, a + k), mem[a..a + size];
    forall i | 0 <= i < 8
      ensures word[i] == bytes[k..k + 8][i]
    {
      assert bytes[k..k + 8][i] == bytes[k + i] == mem[a + (k + i)];
    }
  }

  /** Two places that hold the same bytes hold the same object. */
  lemma SameBytesSameObject(mem: seq<Byte>, mem': seq<Byte>, acc: Access, acc': Access)
    requires acc.InBounds(mem) && acc'.HasHeader(mem') && acc'.suffixSize == acc.suffixSize
    requires acc'.ObjStart() + acc.ObjectSize(mem) <= |mem'|
    requires mem'[acc'.ObjStart()..acc'.ObjStart() + acc.ObjectSize(mem)]
          == mem[acc.ObjStart()..acc.ObjStart() + acc.ObjectSize(mem)]
    ensures acc'.PayloadSize(mem') == acc.PayloadSize(mem)
    ensures acc'.IsSane(mem') <==> acc.IsSane(mem)
    ensures acc'.HasExivarFlag(mem') <==> acc.HasExivarFlag(mem)
    ensures acc'.InBounds(mem')
    ensures acc'.ObjEnd(mem') - acc'.ObjStart() == acc'.ObjectSize(mem') == acc.ObjectSize(mem)
  {
    SameWord(mem, mem', acc.ObjStart(), acc'.ObjStart(), acc.ObjectSize(mem), 0);
    SameWord(mem, mem', acc.ObjStart(), acc'.ObjStart(), acc.ObjectSize(mem), OBJREF_OFFSET);
  }

  method CopyNonoverlapping(mem: array<Byte>, from: nat, to: nat, size: nat)
    requires from + size <= mem.Length && to + size <= mem.Length
    requires to + size <= from || from + size <= to
    modifies mem
    ensures mem[to..to + size] == old(mem[from..from + size])
    ensures forall i :: 0 <= i < mem.Length && !(to <= i < to + size) ==> mem[i] == old(mem[i])
  {
    forall i | 0 <= i < size {
      mem[to + i] := mem[from + i];
    }
  }

  method WriteZeros(mem: array<Byte>, from: nat, size: nat)
    requires from + size <= mem.Length
    modifies mem
    ensures forall i :: 0 <= i < mem.Length ==> mem[i] == if from <= i < from + size then 0 else old(mem[i])
  {
    forall i | from <= i < from + size {
      mem[i] := 0;
    }
  }

  /** The object of `before` at `acc` has been copied into `after` at `to`: same layout, flags,
      payload and suffix; nothing else has changed, except that the old copy may be cleared. */
  ghost predicate IsCopy(before: seq<Byte>, acc: Access, after: seq<Byte>, to: Access, cleared: bool)
    requires acc.InBounds(before)
  {
    var size := acc.ObjectSize(before);
    && |after| == |before|
    && to.suffixSize == acc.suffixSize
    && to.InBounds(after)
    && to.ObjEnd(after) - to.ObjStart() == to.ObjectSize(after) == size
    && to.PayloadSize(after) == acc.PayloadSize(before)
    && (to.HasExivarFlag(after) <==> acc.HasExivarFlag(before))
    && after[to.ObjStart()..to.ObjEnd(after)] == before[acc.ObjStart()..acc.ObjEnd(before)]
    && forall i :: 0 <= i < |after| && !(to.ObjStart() <= i < to.ObjStart() + size) ==>
         after[i] == if cleared && acc.ObjStart() <= i < acc.ObjStart() + size then 0 else before[i]
  }

  lemma SameBytesCopied(before: seq<Byte>, acc: Access, after: seq<Byte>, to: Access, cleared: bool)
    requires acc.InBounds(before) && |after| == |before|
    requires OBJREF_OFFSET <= to.objref && to.suffixSize == acc.suffixSize
    requires to.ObjStart() + acc.ObjectSize(before) <= |after|
    requires after[to.ObjStart()..to.ObjStart() + acc.ObjectSize(before)] == before[acc.ObjStart()..acc.ObjEnd(before)]
    requires forall i :: 0 <= i < |after| && !(to.ObjStart() <= i < to.ObjStart() + acc.ObjectSize(before)) ==>
      after[i] == if cleared && acc.ObjStart() <= i < acc.ObjStart() + acc.ObjectSize(before) then 0 else before[i]
    ensures IsCopy(before, acc, after, to, cleared)
  {
    SameBytesSameObject(before, after, acc, to);
  }

  method CopyBytes(mem: array<Byte>, from: nat, to: nat, size: nat, clearOldCopy: bool)
    requires from + size <= mem.Length && to + size <= mem.Length
    requires to + size <= from || from + size <= to
    modifies mem
    ensures mem[..][to..to + size] == old(mem[..])[from..from + size]
    ensures forall i :: 0 <= i < mem.Length && !(to <= i < to + size) ==>
      mem[i] == if clearOldCopy && from <= i < from + size then 0 else old(mem[i])
  {
    CopyNonoverlapping(mem, from, to, size);
    if clearOldCopy {
      WriteZeros(mem, from, size);
    }
  }

  /** The byte-level part of `VMObjectModel::copy`: `toStart` comes from `alloc_copy`, which gives
      room that does not overlap the object. */
  method Copy(mem: array<Byte>, acc: Access, toStart: nat, clearOldCopy: bool) returns (to: Access)
    requires acc.InBounds(mem[..])
    requires toStart + acc.ObjectSize(mem[..]) <= mem.Length
    requires toStart + acc.ObjectSize(mem[..]) <= acc.ObjStart() || acc.ObjEnd(mem[..]) <= toStart
    modifies mem
    ensures to.objref == toStart + OBJREF_OFFSET
    ensures IsCopy(old(mem[..]), acc, mem[..], to, clearOldCopy)
  {
    ghost var before := mem[..];
    to := Access(toStart + OBJREF_OFFSET, acc.suffixSize);
    CopyBytes(mem, acc.ObjStart(), toStart, acc.ObjectSize(mem[..]), clearOldCopy);
    SameBytesCopied(before, acc, mem[..], to, clearOldCopy);
  }
}
