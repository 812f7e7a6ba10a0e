/** The ring buffer that carries packets from interrupt time to the work loop, as the sequential class. */
module RingBuffers {

  /** Elements between tail and head; tail may stand at the capacity while it is being wrapped. */
  function CountOf(n: nat, head: nat, tail: nat): (c: nat)
    requires head <= n && tail <= n
    ensures c <= n
  {
    if head >= tail then head - tail else n - tail + head
  }

  /** The position reached by going at most once around. */
  function Wrap(n: nat, p: nat): nat {
    if p >= n then p - n else p
  }

  /** The len elements from start on, around the end. */
  function Around<T>(b: seq<T>, start: nat, len: nat): (s: seq<T>)
    requires start < |b| && len <= |b|
    ensures |s| == len
  {
    seq(len, k requires 0 <= k < len => b[Wrap(|b|, start + k)])
  }

  /** Going around can be done in two goes. */
  lemma AroundSplits<T>(b: seq<T>, start: nat, first: nat, second: nat)
    requires start < |b| && first + second <= |b|
    ensures Around(b, start, first + second) == Around(b, start, first) + Around(b, Wrap(|b|, start + first), second)
  {
    var whole := Around(b, start, first + second);
    var parts := Around(b, start, first) + Around(b, Wrap(|b|, start + first), second);
    forall k | 0 <= k < first + second
      ensures whole[k] == parts[k]
    {
      if k >= first {
        assert Wrap(|b|, Wrap(|b|, start + first) + (k - first)) == Wrap(|b|, start + k);
      }
    }
  }

  /** A write outside the places passed does not show. */
  lemma AroundKeeps<T>(b: seq<T>, start: nat, len: nat, k: nat, x: T)
    requires start < |b| && len + k < |b| && Wrap(|b|, start + len) + k < |b|
    ensures Around(b[Wrap(|b|, start + len) + k := x], start, len) == Around(b, start, len)
  {
    var filled := b[Wrap(|b|, start + len) + k := x];
    var c, d := Around(filled, start, len), Around(b, start, len);
    forall i | 0 <= i < len
      ensures c[i] == d[i]
    {
      assert filled[Wrap(|b|, start + i)] == b[Wrap(|b|, start + i)];
    }
  }

  lemma AroundOne<T>(b: seq<T>, start: nat)
    requires start < |b|
    ensures Around(b, start, 1) == [b[start]]
  {
    var one := Around(b, start, 1);
    forall k | 0 <= k < 1
      ensures one[k] == b[Wrap(|b|, start + k)]
    {
    }
    assert Wrap(|b|, start + 0) == start;
  }

  /** Moving the head on counts up to the capacity and then starts over. */
  lemma MovedCount(n: nat, head: nat, tail: nat, move: nat)
    requires head < n && tail < n && move < n
    ensures var c := CountOf(n, head, tail);
            && CountOf(n, Wrap(n, head + move), tail) == (if c + move < n then c + move else c + move - n)
            && Wrap(n, tail + c) == head
  {
  }

  class RingBuffer<T(0)> {
    const buffer: array<T>
    var head: nat
    var tail: nat

    ghost predicate Valid()
      reads this
    {
      head < buffer.Length && tail < buffer.Length
    }

    ghost function Contents(): (s: seq<T>)
      reads this, buffer
      requires Valid()
      ensures |s| == CountOf(buffer.Length, head, tail) < buffer.Length
    {
      Around(buffer[..], tail, CountOf(buffer.Length, head, tail))
    }

    /** The next len places to be filled. */
    ghost function Ahead(len: nat): (s: seq<T>)
      reads this, buffer
      requires Valid() && len <= buffer.Length
      ensures |s| == len
    {
      Around(buffer[..], head, len)
    }

    constructor (n: nat)
      requires 0 < n
      ensures Valid() && fresh(buffer) && buffer.Length == n && Contents() == [] && head == 0
    {
      buffer := new T[n];
      head, tail := 0, 0;
    }

    method Reset()
      requires 0 < buffer.Length
      modifies this
      ensures Valid() && Contents() == [] && head == 0
    {
      head, tail := 0, 0;
    }

    method Count() returns (c: nat)
      requires Valid()
      ensures c == |Contents()|
    {
      c := CountOf(buffer.Length, head, tail);
    }

    /** Drops the element if the buffer is full. */
    method Push(data: T)
      requires Valid()
      modifies this`head, buffer
      ensures Valid()
      ensures Contents() == if |old(Contents())| + 1 < buffer.Length then old(Contents()) + [data] else old(Contents())
    {
      var newHead := head + 1;
      if newHead >= buffer.Length {
        newHead := 0;
      }
      if newHead != tail {
        ghost var c := CountOf(buffer.Length, head, tail);
        MovedCount(buffer.Length, head, tail, 1);
        AroundKeeps(buffer[..], tail, c, 0, data);
        ghost var filled := buffer[..][head := data];
        AroundSplits(filled, tail, c, 1);
        AroundOne(filled, head);
        buffer[head] := data;
        assert buffer[..] == filled;
        head := newHead;
      }
    }

    method Fetch() returns (data: T)
      requires Valid() && Contents() != []
      modifies this`tail
      ensures Valid() && [data] + Contents() == old(Contents())
    {
      AroundSplits(buffer[..], tail, 1, |Contents()| - 1);
      AroundOne(buffer[..], tail);
      data := buffer[tail];
      tail := tail + 1;
      if tail >= buffer.Length {
        tail := 0;
      }
    }

    /** Writing through the pointer to the head: place k of the packet being assembled. */
    method Put(k: nat, data: T)
      requires Valid() && head + k < buffer.Length && |Contents()| + k < buffer.Length
      modifies buffer
      ensures Valid() && Contents() == old(Contents())
      ensures buffer[..] == old(buffer[..])[head + k := data]
    {
      MovedCount(buffer.Length, head, tail, 0);
      AroundKeeps(buffer[..], tail, |Contents()|, k, data);
      ghost var filled := buffer[..][head + k := data];
      buffer[head + k] := data;
      assert buffer[..] == filled;
    }

    /** Makes the next places part of the contents if they fit. */
    method AdvanceHead(move: nat)
      requires Valid() && move < buffer.Length
      modifies this`head
      ensures Valid()
      ensures head == if |old(Contents())| + move < buffer.Length then Wrap(buffer.Length, old(head) + move) else old(head)
      ensures Contents() == old(Contents()) + (if |old(Contents())| + move < buffer.Length then old(Ahead(move)) else [])
    {
      var newHead := head + move;
      if newHead >= buffer.Length {
        newHead := newHead - buffer.Length;
      }
      MovedCount(buffer.Length, head, tail, move);
      if CountOf(buffer.Length, newHead, tail) >= CountOf(buffer.Length, head, tail) {
        AroundSplits(buffer[..], tail, CountOf(buffer.Length, head, tail), move);
        head := newHead;
      }
    }

    method AdvanceTail(move: nat)
      requires Valid() && move <= |Contents()|
      modifies this`tail
      ensures Valid() && Contents() == old(Contents())[move..]
    {
      AroundSplits(buffer[..], tail, move, |Contents()| - move);
      tail := tail + move;
      if tail >= buffer.Length {
        tail := tail - buffer.Length;
      }
    }
  }
}
