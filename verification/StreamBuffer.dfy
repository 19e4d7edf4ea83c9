/** basic_streambuf: a bounded queue of bytes in one array that is shifted and enlarged. */
module StreamBuffer {

  type Byte = bv8

  const DELTA: nat := 128     // buffer_delta

  function Min(a: nat, b: nat): nat { if a < b then a else b }
  function Max(a: nat, b: nat): nat { if a < b then b else a }

  /** The first `n` bytes of s are those that were at `from`; the others are as before. */
  function Shifted(s: seq<Byte>, from: nat, n: nat): seq<Byte>
    requires from + n <= |s|
  {
    s[from..from + n] + s[n..]
  }

  /** What is left of the queue q when its bytes have been moved down by `from` and its
      pointers have not. */
  function Damaged(q: seq<Byte>, from: nat): seq<Byte> {
    if from < |q| then q[from..] + q[|q| - from..] else q
  }

  /** That is what the moved bytes look like through the old pointers. */
  lemma AfterFailure(s: seq<Byte>, from: nat, n: nat)
    requires from + n <= |s|
    ensures Shifted(s, from, n)[from..from + n] == Damaged(s[from..from + n], from)
  {
    var q, t := s[from..from + n], Shifted(s, from, n);
    forall i | 0 <= i < n
      ensures t[from..from + n][i] == Damaged(q, from)[i]
    {
      var j := from + i;
      assert t[from..from + n][i] == t[j] == if j < n then s[from + j] else s[j];
      assert q[i] == s[j] && (j < n ==> q[j] == s[from + j]);
    }
  }

  /** Bytes have been lost unless none was overwritten, or only by its equals: the queue
      repeats itself every `from` bytes. */
  lemma DamagedUnless(q: seq<Byte>, from: nat)
    ensures Damaged(q, from) == q <==> from >= |q| || q[from..] == q[..|q| - from]
  {
    if from < |q| {
      var d := Damaged(q, from);
      assert d[..|q| - from] == q[from..];
      assert q == q[..|q| - from] + q[|q| - from..];
      if d == q {
        assert q[..|q| - from] == d[..|q| - from];
      }
    }
  }

  lemma NotShifted(s: seq<Byte>, n: nat)
    requires n <= |s|
    ensures Shifted(s, 0, n) == s
  {
  }

  lemma FailedMove(all: seq<Byte>, now: seq<Byte>, from: nat, to: nat)
    requires from <= to <= |all| && now == Shifted(all, from, to - from)
    ensures now[from..to] == Damaged(all[from..to], from)
    ensures var q := all[from..to]; now[from..to] == q <==> from >= |q| || q[from..] == q[..|q| - from]
  {
    AfterFailure(all, from, to - from);
    DamagedUnless(all[from..to], from);
  }

  /** std::memmove to the start of the array. */
  method MoveDown(a: array<Byte>, from: nat, n: nat)
    requires from + n <= a.Length
    modifies a
    ensures a[..] == Shifted(old(a[..]), from, n) && a[..n] == old(a[from..from + n])
  {
    forall i | 0 <= i < n {
      a[i] := a[from + i];
    }
  }

  class StreamBuf {
    const maxSize: nat
    var buffer: array<Byte>
    // gptr, egptr, pptr and epptr, as offsets; eback is always 0
    var gnext: nat
    var gend: nat
    var pnext: nat
    var pend: nat
    ghost var entered: seq<Byte>    // every byte ever committed or put
    ghost var left: nat             // how many of them have been consumed

    ghost predicate Valid()
      reads this, buffer
    {
      && gnext <= gend <= pnext <= pend <= maxSize && buffer.Length == Max(pend, 1)
      && left <= |entered| && buffer[gnext..pnext] == entered[left..]
    }

    /** The queue: what has entered and not left, in order. */
    ghost function Queue(): (q: seq<Byte>)
      requires gnext <= pnext <= buffer.Length
      reads this, buffer
    {
      buffer[gnext..pnext]
    }

    constructor (max: nat)
      ensures gnext == pnext == 0
      ensures Valid() && fresh(buffer) && maxSize == max && entered == [] && left == 0 && Queue() == []
      ensures pend == Min(max, DELTA)
    {
      maxSize := max;
      var end := Min(max, DELTA);
      buffer := new Byte[Max(end, 1)];
      gnext, gend, pnext, pend := 0, 0, 0, end;
      entered, left := [], 0;
    }

    method Size() returns (n: nat)
      requires Valid()
      ensures n == |Queue()| == |entered| - left <= maxSize
    {
      n := pnext - gnext;
    }

    /** buffer_.resize: a bigger array with the same bytes at its start. */
    method Resize(n: nat)
      requires buffer.Length <= n
      modifies this`buffer
      ensures fresh(buffer) && buffer.Length == n && buffer[..old(buffer).Length] == old(buffer[..])
    {
      var bigger := new Byte[n];
      forall i | 0 <= i < buffer.Length {
        bigger[i] := buffer[i];
      }
      buffer := bigger;
    }

    /** reserve: room for n more bytes.  It fails (std::length_error) exactly when they
        would take the queue past its maximum; then the bytes have been shifted already
        while the pointers have not, and the queue is what it was only if it repeats itself
        every gptr - eback bytes. */
    method Reserve(n: nat) returns (ok: bool)
      requires Valid()
      modifies this`buffer, this`gnext, this`gend, this`pnext, this`pend, buffer
      ensures ok <==> old(|Queue()|) + n <= maxSize
      ensures ok ==> Valid() && Queue() == old(Queue()) && n <= pend - pnext
      ensures !ok ==> unchanged(this) && buffer[..] == Shifted(old(buffer[..]), gnext, pnext - gnext)
      ensures !ok ==> Queue() == Damaged(old(Queue()), gnext)
      ensures !ok ==>
        var q := old(Queue());
        (Queue() == q <==> gnext >= |q| || q[gnext..] == q[..|q| - gnext]) && (Valid() <==> Queue() == q)
      ensures buffer == old(buffer) || fresh(buffer)
    {
      hide Shifted, Damaged;
      if n <= pend - pnext {
        return true;
      }
      ghost var all := buffer[..];
      Compact();
      var pn, pe := pnext - gnext, pend;
      if n > pe - pn {
        if n <= maxSize && pn <= maxSize - n {
          pe := pn + n;
          Enlarge(pn, Max(pe, 1));
        } else {
          FailedMove(all, buffer[..], gnext, pnext);
          return false;
        }
      }
      gnext, gend, pnext, pend := 0, pn, pn, pe;
      ok := true;
    }

    /** The queue moves to the start of the array; the pointers stay. */
    method Compact()
      requires Valid()
      modifies buffer
      ensures buffer[..] == Shifted(old(buffer[..]), gnext, pnext - gnext)
      ensures buffer[..pnext - gnext] == old(Queue())
    {
      if gnext > 0 {
        MoveDown(buffer, gnext, pnext - gnext);
      } else {
        NotShifted(buffer[..], pnext);
      }
    }

    /** A bigger array that starts with the queue. */
    method Enlarge(pn: nat, n: nat)
      requires pn <= buffer.Length <= n
      modifies this`buffer
      ensures fresh(buffer) && buffer.Length == n && buffer[..pn] == old(buffer[..pn])
    {
      Resize(n);
      assert buffer[..pn] == buffer[..old(buffer).Length][..pn];
    }

    /** prepare: the start of a stretch of n bytes for the caller to write. */
    method Prepare(n: nat) returns (ok: bool, start: nat)
      requires Valid()
      modifies this`buffer, this`gnext, this`gend, this`pnext, this`pend, buffer
      ensures ok <==> old(|Queue()|) + n <= maxSize
      ensures ok ==> Valid() && Queue() == old(Queue()) && start == pnext && start + n <= pend
      ensures !ok ==> unchanged(this) && Queue() == Damaged(old(Queue()), gnext)
      ensures buffer == old(buffer) || fresh(buffer)
    {
      ok := Reserve(n);
      start := pnext;
    }

    /** The caller writes into what prepare returned. */
    method Fill(data: seq<Byte>)
      requires Valid() && |data| <= pend - pnext
      modifies buffer
      ensures Valid() && Queue() == old(Queue()) && buffer[pnext..pnext + |data|] == data
    {
      forall i | 0 <= i < |data| {
        buffer[pnext + i] := data[i];
      }
      assert buffer[gnext..pnext] == old(buffer[gnext..pnext]);
    }

    /** commit: the first n bytes of the put area enter the queue. */
    method Commit(n: nat)
      requires Valid()
      modifies this`pnext, this`gend, this`entered
      ensures Valid() && left == old(left)
      ensures var m := Min(n, old(pend - pnext));
        entered == old(entered) + buffer[old(pnext)..old(pnext) + m]
          && Queue() == old(Queue()) + buffer[old(pnext)..old(pnext) + m]
    {
      var m := n;
      if pnext + n > pend {
        m := pend - pnext;
      }
      entered := entered + buffer[pnext..pnext + m];
      assert buffer[gnext..pnext + m] == buffer[gnext..pnext] + buffer[pnext..pnext + m];
      pnext := pnext + m;
      gend := pnext;
    }

    /** How prepare and commit are meant to be used: all of the data enters the queue, or, if
        there is no room for it, nothing. */
    method Send(data: seq<Byte>) returns (ok: bool)
      requires Valid()
      modifies this`buffer, this`gnext, this`gend, this`pnext, this`pend, this`entered, buffer
      ensures ok <==> old(|Queue()|) + |data| <= maxSize
      ensures ok ==> Valid() && Queue() == old(Queue()) + data && entered == old(entered) + data
      ensures buffer == old(buffer) || fresh(buffer)
    {
      hide StreamBuf.Valid, StreamBuf.Queue;
      var start;
      ok, start := Prepare(|data|);
      if ok {
        Fill(data);
        Commit(|data|);
      }
    }

    /** consume: n bytes leave the queue, or all of them. */
    method Consume(n: nat)
      requires Valid()
      modifies this`gnext, this`gend, this`left
      ensures Valid() && entered == old(entered)
      ensures var m := Min(n, old(|Queue()|));
        left == old(left) + m && Queue() == old(Queue())[m..]
    {
      if gend < pnext {
        gend := pnext;
      }
      var m := n;
      if gnext + n > pnext {
        m := pnext - gnext;
      }
      ghost var q, e := Queue(), left;
      left := left + m;
      gnext := gnext + m;
      assert buffer[gnext..pnext] == q[m..];
      assert entered[e..][m..] == entered[left..];
    }

    /** underflow: the byte at the head of the queue, which stays; None for eof. */
    method Underflow() returns (empty: bool, c: Byte)
      requires Valid()
      modifies this`gend
      ensures Valid() && Queue() == old(Queue()) && (empty <==> Queue() == [])
      ensures !empty ==> c == Queue()[0] && gend == pnext
    {
      if gnext < pnext {
        gend := pnext;
        return false, buffer[gnext];
      }
      empty, c := true, 0;
    }

    /** One byte into the put area, which has room, and on into the queue. */
    method Append(c: Byte)
      requires Valid() && pnext < pend
      modifies this`pnext, this`entered, buffer
      ensures Valid() && entered == old(entered) + [c] && Queue() == old(Queue()) + [c]
    {
      ghost var q := Queue();
      buffer[pnext] := c;
      assert buffer[gnext..pnext] == q;
      pnext := pnext + 1;
      entered := entered + [c];
      assert buffer[gnext..pnext] == q + [c];
    }

    /** overflow with a byte: it enters the queue.  It fails exactly when the queue is full,
        and then, since there is nothing before a full queue, leaves it as it was. */
    method Overflow(c: Byte) returns (ok: bool)
      requires Valid()
      modifies this`buffer, this`gnext, this`gend, this`pnext, this`pend, this`entered, buffer
      ensures ok <==> old(|Queue()|) < maxSize
      ensures ok ==> Valid() && entered == old(entered) + [c] && Queue() == old(Queue()) + [c]
      ensures !ok ==> Valid() && entered == old(entered) && Queue() == old(Queue())
      ensures buffer == old(buffer) || fresh(buffer)
    {
      ok := true;
      if pnext == pend {
        ok := MakeRoom();
      }
      if ok {
        Append(c);
      }
    }

    /** The put area is used up: ask for as much more as there may be, up to DELTA bytes. */
    method MakeRoom() returns (ok: bool)
      requires Valid() && pnext == pend
      modifies this`buffer, this`gnext, this`gend, this`pnext, this`pend, buffer
      ensures ok <==> old(|Queue()|) < maxSize
      ensures ok ==> Valid() && Queue() == old(Queue()) && pnext < pend
      ensures !ok ==> Valid() && Queue() == old(Queue())
      ensures buffer == old(buffer) || fresh(buffer)
    {
      var size := pnext - gnext;
      if size < maxSize && maxSize - size < DELTA {
        ok := Reserve(maxSize - size);
      } else {
        ok := Reserve(DELTA);
      }
    }

    /** sputc of std::streambuf (section 27.6.3 of ISO/IEC 14882:2011), on these overrides. */
    method Put(c: Byte) returns (ok: bool)
      requires Valid()
      modifies this`buffer, this`gnext, this`gend, this`pnext, this`pend, this`entered, buffer
      ensures ok <==> old(|Queue()|) < maxSize
      ensures ok ==> Valid() && entered == old(entered) + [c] && Queue() == old(Queue()) + [c]
      ensures !ok ==> Valid() && entered == old(entered) && Queue() == old(Queue())
      ensures old(pnext < pend) ==> gnext == old(gnext) && pnext == old(pnext) + 1 && pend == old(pend)
      ensures left == old(left) && (buffer == old(buffer) || fresh(buffer))
    {
      if pnext < pend {
        Append(c);
        ok := true;
      } else {
        ok := Overflow(c);
      }
    }

    /** sbumpc of std::streambuf: the byte at the head of the queue leaves it. */
    method Get() returns (empty: bool, c: Byte)
      requires Valid()
      modifies this`gend, this`gnext, this`left
      ensures Valid() && entered == old(entered) && (empty <==> old(Queue()) == [])
      ensures !empty ==> c == old(Queue())[0] && Queue() == old(Queue())[1..] && left == old(left) + 1
      ensures !empty ==> gnext == old(gnext) + 1
      ensures empty ==> Queue() == []
    {
      if gnext < gend {
        empty, c := false, buffer[gnext];
      } else {
        empty, c := Underflow();
      }
      if !empty {
        ghost var q, e := Queue(), left;
        gnext := gnext + 1;
        left := left + 1;
        assert buffer[gnext..pnext] == q[1..];
        assert entered[e..][1..] == entered[left..];
      }
    }
  }

  /** A queue that a caller can have, and a failing prepare that damages it. */
  method LosesBytes() returns (b: StreamBuf, ok: bool)
    ensures fresh(b) && !ok && b.entered == [1, 2, 3] && b.left == 1
    ensures b.gnext <= b.pnext <= b.buffer.Length && b.Queue() == [3, 3]
  {
    hide Damaged;
    b := TwoLeft();
    var start;
    ok, start := b.Prepare(2);
    OneOverwritten();
  }

  /** The queue holds two bytes of three, and there is no room behind it. */
  method TwoLeft() returns (b: StreamBuf)
    ensures fresh(b) && fresh(b.buffer) && b.Valid() && b.maxSize == 3 && b.gnext == 1 && b.pnext == 3
    ensures b.entered == [1, 2, 3] && b.left == 1 && b.Queue() == [2, 3]
  {
    b := new StreamBuf(3);
    var c, empty, ok;
    ok := b.Put(1);
    ok := b.Put(2);
    ok := b.Put(3);
    empty, c := b.Get();
  }

  lemma OneOverwritten()
    ensures Damaged([2, 3], 1) == [3, 3]
  {
  }
}
