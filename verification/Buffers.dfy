/** Buffers are stretches of memory; a buffer sequence stands for their concatenation. */
module Buffers {

  type Byte = bv8

  /** mutable_buffer and const_buffer: where the stretch starts, and its size. */
  datatype Buffer = Buffer(data: nat, size: nat)

  /** operator+: the buffer without its first bytes; empty if there are not so many. */
  function Offset(b: Buffer, start: nat): Buffer {
    if start > b.size then Buffer(0, 0) else Buffer(b.data + start, b.size - start)
  }

  predicate InMemory(m: int, bufs: seq<Buffer>) {
    forall i {:trigger bufs[i]} | 0 <= i < |bufs| :: bufs[i].data + bufs[i].size <= m
  }

  // ---------------------------------------------------------------- what a sequence stands for

  /** The bytes of all buffers, one after the other. */
  function Flat(mem: seq<Byte>, bufs: seq<Buffer>): seq<Byte>
    requires InMemory(|mem|, bufs)
  {
    if bufs == [] then [] else mem[bufs[0].data..bufs[0].data + bufs[0].size] + Flat(mem, bufs[1..])
  }

  /** A sequence whose first buffer is taken from `start` on stands for what it stood for
      without the first `start` bytes, or without those of that buffer if it has fewer. */
  lemma OffsetDrops(mem: seq<Byte>, b: Buffer, rest: seq<Buffer>, start: nat)
    requires InMemory(|mem|, [b] + rest)
    ensures var n := if start < b.size then start else b.size;
      && InMemory(|mem|, [Offset(b, start)] + rest) && n <= |Flat(mem, [b] + rest)|
      && Flat(mem, [Offset(b, start)] + rest) == Flat(mem, [b] + rest)[n..]
  {
    var all, less := [b] + rest, [Offset(b, start)] + rest;
    assert all[0] == b && forall i {:trigger all[i]} | 0 < i < |all| :: less[i] == all[i];
    assert all[1..] == rest && less[1..] == rest;
  }

  function Total(bufs: seq<Buffer>): nat {
    if bufs == [] then 0 else bufs[0].size + Total(bufs[1..])
  }

  /** How many bytes come before the i-th buffer. */
  function Before(bufs: seq<Buffer>, i: nat): nat
    requires i <= |bufs|
  {
    if i == 0 then 0 else bufs[0].size + Before(bufs[1..], i - 1)
  }

  /** Where the k-th byte of the concatenation is. */
  function Address(bufs: seq<Buffer>, k: nat): nat
    requires k < Total(bufs)
  {
    if k < bufs[0].size then bufs[0].data + k else Address(bufs[1..], k - bufs[0].size)
  }

  lemma {:induction false} FlatAt(mem: seq<Byte>, bufs: seq<Buffer>, k: nat)
    requires InMemory(|mem|, bufs)
    ensures |Flat(mem, bufs)| == Total(bufs)
    ensures k < Total(bufs) ==> Address(bufs, k) < |mem| && Flat(mem, bufs)[k] == mem[Address(bufs, k)]
  {
    if bufs != [] {
      var rest, n := bufs[1..], bufs[0].size;
      assert forall i {:trigger rest[i]} | 0 <= i < |rest| :: rest[i] == bufs[i + 1];
      FlatAt(mem, rest, if k < n then 0 else k - n);
      FlatNext(mem, bufs, k);
    }
  }

  lemma FlatNext(mem: seq<Byte>, bufs: seq<Buffer>, k: nat)
    requires InMemory(|mem|, bufs) && bufs != [] && InMemory(|mem|, bufs[1..])
    ensures |Flat(mem, bufs)| == bufs[0].size + |Flat(mem, bufs[1..])|
    ensures k < bufs[0].size ==> Flat(mem, bufs)[k] == mem[bufs[0].data + k]
    ensures bufs[0].size <= k < |Flat(mem, bufs)| ==> Flat(mem, bufs)[k] == Flat(mem, bufs[1..])[k - bufs[0].size]
  {
    var head, tail := mem[bufs[0].data..bufs[0].data + bufs[0].size], Flat(mem, bufs[1..]);
    assert Flat(mem, bufs) == head + tail;
    JoinedAt(head, tail, k);
  }

  lemma JoinedAt(a: seq<Byte>, b: seq<Byte>, k: nat)
    ensures k < |a| ==> (a + b)[k] == a[k]
    ensures |a| <= k < |a + b| ==> (a + b)[k] == b[k - |a|]
  {
  }

  lemma {:induction false} BeforeNext(bufs: seq<Buffer>, i: nat)
    requires i < |bufs|
    ensures Before(bufs, i + 1) == Before(bufs, i) + bufs[i].size
  {
    if i > 0 {
      BeforeNext(bufs[1..], i - 1);
    }
  }

  lemma {:induction false} BeforeAll(bufs: seq<Buffer>)
    ensures Before(bufs, |bufs|) == Total(bufs)
  {
    if bufs != [] {
      BeforeAll(bufs[1..]);
    }
  }

  lemma {:induction false} BeforeGrows(bufs: seq<Buffer>, i: nat)
    requires i <= |bufs|
    ensures Before(bufs, i) <= Total(bufs) && (i < |bufs| ==> Before(bufs, i) + bufs[i].size <= Total(bufs))
  {
    if i > 0 {
      BeforeGrows(bufs[1..], i - 1);
    }
  }

  /** The off-th byte of the i-th buffer. */
  lemma {:induction false} AddressIn(bufs: seq<Buffer>, i: nat, off: nat)
    requires i < |bufs| && off < bufs[i].size
    ensures Before(bufs, i) + off < Total(bufs) && Address(bufs, Before(bufs, i) + off) == bufs[i].data + off
  {
    if i > 0 {
      AddressIn(bufs[1..], i - 1, off);
    }
  }

  // ---------------------------------------------------------------- sizes

  /** buffer_size of a sequence. */
  method BufferSize(bufs: seq<Buffer>) returns (total: nat)
    ensures total == Total(bufs)
    ensures forall mem | InMemory(|mem|, bufs) :: total == |Flat(mem, bufs)|
  {
    total := 0;
    var i := 0;
    while i < |bufs|
      invariant 0 <= i <= |bufs| && total == Before(bufs, i)
    {
      BeforeNext(bufs, i);
      total := total + bufs[i].size;
      i := i + 1;
    }
    BeforeAll(bufs);
    forall mem | InMemory(|mem|, bufs)
      ensures total == |Flat(mem, bufs)|
    {
      FlatAt(mem, bufs, 0);
    }
  }

  // ---------------------------------------------------------------- copying

  /** No byte of the targets is in two places of them, or in the sources. */
  ghost predicate Apart(target: seq<Buffer>, source: seq<Buffer>) {
    && (forall j: nat, k: nat {:trigger Address(target, j), Address(target, k)} |
          j < k < Total(target) :: Address(target, j) != Address(target, k))
    && (forall j: nat, k: nat {:trigger Address(target, j), Address(source, k)} |
          j < Total(target) && k < Total(source) :: Address(target, j) != Address(source, k))
  }

  /** The first n bytes of the target hold those of the source; the rest of memory is
      as it was. */
  ghost predicate Copied(before: seq<Byte>, now: seq<Byte>, target: seq<Buffer>, source: seq<Buffer>, n: nat)
    requires InMemory(|before|, target) && InMemory(|before|, source)
  {
    && |now| == |before| && n <= Total(target) && n <= Total(source)
    && (forall k: nat {:trigger At(now, target, k)} | k < n :: At(now, target, k) == At(before, source, k))
    && (forall a {:trigger now[a]} | 0 <= a < |now| && !Within(target, n, a) :: now[a] == before[a])
  }

  ghost predicate Within(bufs: seq<Buffer>, n: nat, a: int)
    requires n <= Total(bufs)
  {
    exists k: nat {:trigger Address(bufs, k)} :: k < n && Address(bufs, k) == a
  }

  function At(mem: seq<Byte>, bufs: seq<Buffer>, k: nat): Byte
    requires InMemory(|mem|, bufs) && k < Total(bufs)
  {
    FlatAt(mem, bufs, k);
    mem[Address(bufs, k)]
  }

  /** What that means for the concatenations. */
  lemma CopiedFlat(before: seq<Byte>, now: seq<Byte>, target: seq<Buffer>, source: seq<Buffer>, n: nat)
    requires InMemory(|before|, target) && InMemory(|before|, source) && Apart(target, source)
    requires Copied(before, now, target, source, n)
    ensures |Flat(before, target)| == Total(target) && |Flat(before, source)| == Total(source)
    ensures Flat(now, target) == Flat(before, source)[..n] + Flat(before, target)[n..]
    ensures Flat(now, source) == Flat(before, source)
  {
    hide Apart, Address, Total, Flat;
    FlatAt(now, target, 0);
    FlatAt(before, target, 0);
    FlatAt(before, source, 0);
    FlatAt(now, source, 0);
    forall k: nat | k < Total(target)
      ensures Flat(now, target)[k] == (Flat(before, source)[..n] + Flat(before, target)[n..])[k]
    {
      FlatAt(now, target, k);
      FlatAt(before, target, k);
      if k < n {
        FlatAt(before, source, k);
        assert At(now, target, k) == At(before, source, k);
      } else {
        TargetApart(target, source, n, k);
      }
    }
    forall k: nat | k < Total(source)
      ensures Flat(now, source)[k] == Flat(before, source)[k]
    {
      FlatAt(now, source, k);
      FlatAt(before, source, k);
      SourceApart(target, source, n, k);
    }
  }

  /** mem with n bytes from one place also at another. */
  function Pasted(mem: seq<Byte>, to: nat, from: nat, n: nat): (r: seq<Byte>)
    requires to + n <= |mem| && from + n <= |mem|
    ensures |r| == |mem|
    ensures forall k {:trigger r[k]} | 0 <= k < |mem| ::
      r[k] == if to <= k < to + n then mem[from + (k - to)] else mem[k]
  {
    mem[..to] + mem[from..from + n] + mem[to + n..]
  }

  /** Another n bytes, which lie in one buffer of either sequence. */
  lemma CopiedStep(before: seq<Byte>, now: seq<Byte>, now': seq<Byte>, target: seq<Buffer>, source: seq<Buffer>,
                   done: nat, n: nat, i: nat, j: nat)
    requires InMemory(|before|, target) && InMemory(|before|, source) && Apart(target, source)
    requires Copied(before, now, target, source, done) && i < |target| && j < |source|
    requires Before(target, i) <= done && done + n <= Before(target, i) + target[i].size
    requires Before(source, j) <= done && done + n <= Before(source, j) + source[j].size
    requires now' == Pasted(now, target[i].data + done - Before(target, i),
      source[j].data + done - Before(source, j), n)
    ensures Copied(before, now', target, source, done + n)
  {
    hide Pasted, Apart, Address, Before, Total, Within, At;
    BeforeGrows(target, i);
    BeforeGrows(source, j);
    forall k: nat {:trigger At(now', target, k)} | k < done + n
      ensures At(now', target, k) == At(before, source, k)
    {
      if k < done {
        OldByte(before, now, now', target, source, done, n, i, j, k);
      } else {
        NewByte(before, now, now', target, source, done, n, i, j, k);
      }
    }
    forall a {:trigger now'[a]} | 0 <= a < |now'| && !Within(target, done + n, a)
      ensures now'[a] == before[a]
    {
      Elsewhere(target, done, n, i, a);
    }
  }

  /** A byte copied before is still there. */
  lemma OldByte(before: seq<Byte>, now: seq<Byte>, now': seq<Byte>, target: seq<Buffer>, source: seq<Buffer>,
                done: nat, n: nat, i: nat, j: nat, k: nat)
    requires InMemory(|before|, target) && InMemory(|before|, source) && Apart(target, source) && k < done
    requires Copied(before, now, target, source, done) && i < |target| && j < |source| && done + n <= Total(target)
    requires Before(target, i) <= done && done + n <= Before(target, i) + target[i].size
    requires Before(source, j) <= done && done + n <= Before(source, j) + source[j].size
    requires now' == Pasted(now, target[i].data + done - Before(target, i),
      source[j].data + done - Before(source, j), n)
    ensures At(now', target, k) == At(before, source, k)
  {
    hide Apart, Address, Before, Total, Within;
    ApartNone(target, source);
    NotWritten(target, i, done, n, k);
    FlatAt(now, target, k);
    FlatAt(now', target, k);
    assert At(now, target, k) == At(before, source, k);
    assert now'[Address(target, k)] == now[Address(target, k)];
  }

  /** A byte copied now is the one it should be. */
  lemma NewByte(before: seq<Byte>, now: seq<Byte>, now': seq<Byte>, target: seq<Buffer>, source: seq<Buffer>,
                done: nat, n: nat, i: nat, j: nat, k: nat)
    requires InMemory(|before|, target) && InMemory(|before|, source) && Apart(target, source) && done <= k < done + n
    requires Copied(before, now, target, source, done) && i < |target| && j < |source|
    requires done + n <= Total(target) && done + n <= Total(source)
    requires Before(target, i) <= done && done + n <= Before(target, i) + target[i].size
    requires Before(source, j) <= done && done + n <= Before(source, j) + source[j].size
    requires now' == Pasted(now, target[i].data + done - Before(target, i),
      source[j].data + done - Before(source, j), n)
    ensures At(now', target, k) == At(before, source, k)
  {
    hide Apart, Address, Before, Total, Within;
    AddressIn(target, i, k - Before(target, i));
    AddressIn(source, j, k - Before(source, j));
    SourceApart(target, source, done, k);
    FlatAt(before, source, k);
    assert now'[Address(target, k)] == now[Address(source, k)] == before[Address(source, k)];
  }

  lemma TargetApart(target: seq<Buffer>, source: seq<Buffer>, n: nat, k: nat)
    requires Apart(target, source) && n <= k < Total(target)
    ensures !Within(target, n, Address(target, k))
  {
    hide Address;
  }

  lemma SourceApart(target: seq<Buffer>, source: seq<Buffer>, done: nat, k: nat)
    requires Apart(target, source) && done <= Total(target) && k < Total(source)
    ensures !Within(target, done, Address(source, k))
  {
    hide Address;
  }

  /** What is not in the first done + n bytes is not written. */
  lemma Elsewhere(target: seq<Buffer>, done: nat, n: nat, i: nat, a: int)
    requires i < |target| && done + n <= Total(target) && !Within(target, done + n, a)
    requires Before(target, i) <= done && done + n <= Before(target, i) + target[i].size
    ensures var t := target[i].data + done - Before(target, i); !(t <= a < t + n) && !Within(target, done, a)
  {
    var t := target[i].data + done - Before(target, i);
    if t <= a < t + n {
      AddressIn(target, i, done + (a - t) - Before(target, i));
    }
  }

  lemma NotWritten(target: seq<Buffer>, i: nat, done: nat, n: nat, k: nat)
    requires i < |target| && Before(target, i) <= done && done + n <= Before(target, i) + target[i].size
    requires done + n <= Total(target) && k < done && Apart(target, [])
    ensures var t := target[i].data + done - Before(target, i); !(t <= Address(target, k) < t + n)
  {
    hide Before, Total;
    var t := target[i].data + done - Before(target, i);
    var a := Address(target, k);
    if t <= a < t + n {
      AddressIn(target, i, done + (a - t) - Before(target, i));
    }
  }

  lemma ApartNone(target: seq<Buffer>, source: seq<Buffer>)
    requires Apart(target, source)
    ensures Apart(target, [])
  {
  }

  /** buffer_copy of one buffer to another, of at most `limit` bytes. */
  method CopyBuffer(mem: array<Byte>, target: Buffer, source: Buffer, limit: nat) returns (n: nat)
    requires target.data + target.size <= mem.Length && source.data + source.size <= mem.Length
    modifies mem
    ensures n <= target.size && n <= source.size && n <= limit && (n == target.size || n == source.size || n == limit)
    ensures mem[..] == Pasted(old(mem[..]), target.data, source.data, n)
  {
    n := if target.size < source.size then target.size else source.size;
    if limit < n {
      n := limit;
    }
    forall k | 0 <= k < n {
      mem[target.data + k] := mem[source.data + k];
    }
  }

  /** Where the two cursors are: in the ti-th target and the si-th source, `to` and `so`
      bytes in, with `total` bytes copied. */
  ghost predicate Cursors(target: seq<Buffer>, source: seq<Buffer>, ti: nat, to: nat, si: nat, so: nat, total: nat) {
    && Cursor(target, ti, to, total) && Cursor(source, si, so, total)
  }

  ghost predicate Cursor(bufs: seq<Buffer>, i: nat, off: nat, total: nat) {
    i <= |bufs| && total == Before(bufs, i) + off && (if i < |bufs| then off <= bufs[i].size else off == 0)
  }

  /** A cursor moves n bytes on, and to the next buffer when this one is used up. */
  lemma CursorMoves(bufs: seq<Buffer>, i: nat, off: nat, total: nat, n: nat)
    requires Cursor(bufs, i, off, total) && i < |bufs| && n <= bufs[i].size - off
    ensures if n == bufs[i].size - off then Cursor(bufs, i + 1, 0, total + n) else Cursor(bufs, i, off + n, total + n)
  {
    BeforeNext(bufs, i);
  }

  lemma CursorEnd(bufs: seq<Buffer>, i: nat, off: nat, total: nat)
    requires Cursor(bufs, i, off, total)
    ensures total <= Total(bufs) && (i == |bufs| ==> total == Total(bufs))
  {
    BeforeAll(bufs);
    BeforeGrows(bufs, i);
  }

  /** One round of either buffer_copy. */
  method CopyRound(mem: array<Byte>, target: seq<Buffer>, source: seq<Buffer>, limit: nat,
                   ti: nat, to: nat, si: nat, so: nat, total: nat, ghost before: seq<Byte>)
    returns (ti': nat, to': nat, si': nat, so': nat, total': nat)
    requires InMemory(mem.Length, target) && InMemory(mem.Length, source) && |before| == mem.Length
      && Apart(target, source)
    requires ti < |target| && si < |source| && Cursors(target, source, ti, to, si, so, total) && total <= limit
    requires Copied(before, mem[..], target, source, total)
    modifies mem
    ensures Cursors(target, source, ti', to', si', so', total') && total <= total' <= limit
    ensures Copied(before, mem[..], target, source, total')
    ensures ti <= ti' && si <= si' && (ti < ti' || si < si' || total' == limit)
  {
    hide Copied, Apart, Before;
    ghost var now := mem[..];
    var t, s := Offset(target[ti], to), Offset(source[si], so);
    var n := CopyBuffer(mem, t, s, limit - total);
    CopiedStep(before, now, mem[..], target, source, total, n, ti, si);
    CursorMoves(target, ti, to, total, n);
    CursorMoves(source, si, so, total, n);
    total' := total + n;
    if n == t.size {
      ti', to' := ti + 1, 0;
    } else {
      ti', to' := ti, to + n;
    }
    if n == s.size {
      si', so' := si + 1, 0;
    } else {
      si', so' := si, so + n;
    }
  }

  lemma NothingCopied(mem: seq<Byte>, target: seq<Buffer>, source: seq<Buffer>)
    requires InMemory(|mem|, target) && InMemory(|mem|, source)
    ensures Copied(mem, mem, target, source, 0) && Cursors(target, source, 0, 0, 0, 0, 0)
  {
  }

  function Min(a: nat, b: nat): nat { if a < b then a else b }

  /** buffer_copy of one sequence to another. */
  method BufferCopy(mem: array<Byte>, target: seq<Buffer>, source: seq<Buffer>) returns (total: nat)
    requires InMemory(mem.Length, target) && InMemory(mem.Length, source) && Apart(target, source)
    modifies mem
    ensures total == Min(Total(target), Total(source))
    ensures |Flat(old(mem[..]), source)| == Total(source) && |Flat(old(mem[..]), target)| == Total(target)
    ensures Flat(mem[..], target) == Flat(old(mem[..]), source)[..total] + Flat(old(mem[..]), target)[total..]
    ensures forall a {:trigger mem[a]} | 0 <= a < mem.Length && !Within(target, total, a) :: mem[a] == old(mem[a])
  {
    hide Copied, Apart;
    ghost var before := mem[..];
    var ti, to, si, so := 0, 0, 0, 0;
    total := 0;
    NothingCopied(before, target, source);
    while ti != |target| && si != |source|
      invariant Cursors(target, source, ti, to, si, so, total)
      invariant Copied(before, mem[..], target, source, total)
      decreases |target| - ti + |source| - si
    {
      CursorEnd(target, ti, to, total);
      // no limit: one that cannot be reached
      ti, to, si, so, total := CopyRound(mem, target, source, Total(target) + 1, ti, to, si, so, total, before);
      CursorEnd(target, ti, to, total);
    }
    CursorEnd(target, ti, to, total);
    CursorEnd(source, si, so, total);
    CopiedFlat(before, mem[..], target, source, total);
    CopiedElsewhere(before, mem[..], target, source, total);
  }

  lemma CopiedElsewhere(before: seq<Byte>, now: seq<Byte>, target: seq<Buffer>, source: seq<Buffer>, n: nat)
    requires InMemory(|before|, target) && InMemory(|before|, source) && Copied(before, now, target, source, n)
    ensures |now| == |before| && n <= Total(target)
    ensures forall a {:trigger now[a]} | 0 <= a < |now| && !Within(target, n, a) :: now[a] == before[a]
  {
  }

  /** buffer_copy of one sequence to another, of at most `limit` bytes. */
  method BufferCopyAtMost(mem: array<Byte>, target: seq<Buffer>, source: seq<Buffer>, limit: nat) returns (total: nat)
    requires InMemory(mem.Length, target) && InMemory(mem.Length, source) && Apart(target, source)
    modifies mem
    ensures total == Min(limit, Min(Total(target), Total(source)))
    ensures |Flat(old(mem[..]), source)| == Total(source) && |Flat(old(mem[..]), target)| == Total(target)
    ensures Flat(mem[..], target) == Flat(old(mem[..]), source)[..total] + Flat(old(mem[..]), target)[total..]
    ensures forall a {:trigger mem[a]} | 0 <= a < mem.Length && !Within(target, total, a) :: mem[a] == old(mem[a])
  {
    hide Copied, Apart;
    ghost var before := mem[..];
    var ti, to, si, so := 0, 0, 0, 0;
    total := 0;
    NothingCopied(before, target, source);
    while total != limit && ti != |target| && si != |source|
      invariant Cursors(target, source, ti, to, si, so, total) && total <= limit
      invariant Copied(before, mem[..], target, source, total)
      decreases limit - total + |target| - ti + |source| - si
    {
      ti, to, si, so, total := CopyRound(mem, target, source, limit, ti, to, si, so, total, before);
    }
    CursorEnd(target, ti, to, total);
    CursorEnd(source, si, so, total);
    CopiedFlat(before, mem[..], target, source, total);
    CopiedElsewhere(before, mem[..], target, source, total);
  }
}
