/** The sliding-window average of the trackpad drivers, as a class over its circular buffer and as a value. */
module SimpleAverages {
  import opened Numbers

  /** C++ integer division by a positive divisor: the quotient is truncated toward zero. */
  function TruncDiv(a: int, b: int): int
    requires b > 0
  {
    if a >= 0 then a / b else -((-a) / b)
  }

  function Sum(w: seq<int>): int {
    if w == [] then 0 else Sum(w[..|w| - 1]) + w[|w| - 1]
  }

  function Average(w: seq<int>): int {
    if w == [] then 0 else TruncDiv(Sum(w), |w|)
  }

  function Newest(w: seq<int>): int {
    if w == [] then 0 else w[|w| - 1]
  }

  function Oldest(w: seq<int>): int {
    if w == [] then 0 else w[0]
  }

  /** The window after one more sample, oldest sample first. */
  function Push(w: seq<int>, n: nat, x: int): (r: seq<int>)
    requires 0 < n && |w| <= n
    ensures 0 < |r| <= n && r[|r| - 1] == x
  {
    (if |w| == n then w[1..] else w) + [x]
  }

  /** The last n inputs of a history. */
  function LastOf(history: seq<int>, n: nat): (r: seq<int>) {
    if |history| <= n then history else history[|history| - n..]
  }

  function Pushes(w: seq<int>, n: nat, inputs: seq<int>): (r: seq<int>)
    requires 0 < n && |w| <= n
    ensures |r| <= n
  {
    if inputs == [] then w else Push(Pushes(w, n, inputs[..|inputs| - 1]), n, inputs[|inputs| - 1])
  }

  /** Feeding any list of samples to an empty window leaves exactly the last n of them. */
  lemma {:induction false} WindowIsRecentHistory(n: nat, inputs: seq<int>)
    requires 0 < n
    ensures Pushes([], n, inputs) == LastOf(inputs, n)
  {
    if inputs != [] {
      var k := |inputs| - 1;
      var before := inputs[..k];
      WindowIsRecentHistory(n, before);
      assert inputs == before + [inputs[k]];
      if k >= n {
        assert before[k - n..][1..] == before[k - n + 1..];
        assert before[k - n + 1..] + [inputs[k]] == inputs[k - n + 1..];
      }
    }
  }

  lemma {:induction false} SumDropsOldest(w: seq<int>)
    requires w != []
    ensures Sum(w[1..]) == Sum(w) - w[0]
  {
    if |w| > 1 {
      SumDropsOldest(w[..|w| - 1]);
      assert w[..|w| - 1][1..] == w[1..][..|w| - 2];
    }
  }

  lemma SumOfPush(w: seq<int>, n: nat, x: int)
    requires 0 < n && |w| <= n
    ensures Sum(Push(w, n, x)) == Sum(w) + x - (if |w| == n then w[0] else 0)
  {
    var kept := if |w| == n then w[1..] else w;
    assert (kept + [x])[..|kept|] == kept;
    if |w| == n {
      SumDropsOldest(w);
    }
  }

  lemma {:induction false} SumBounds(w: seq<int>, lo: int, hi: int)
    requires forall k :: 0 <= k < |w| ==> lo <= w[k] <= hi
    ensures lo * |w| <= Sum(w) <= hi * |w|
  {
    if w != [] {
      SumBounds(w[..|w| - 1], lo, hi);
      MulStep(lo, |w|);
      MulStep(hi, |w|);
    }
  }

  lemma MulStep(a: int, n: int)
    ensures a * n == a * (n - 1) + a
  {
  }

  /** The truncated average of a non-empty window lies between any bounds of its samples, its minimum and maximum included. */
  lemma AverageBounds(w: seq<int>, lo: int, hi: int)
    requires w != []
    requires forall k :: 0 <= k < |w| ==> lo <= w[k] <= hi
    ensures lo <= Average(w) <= hi
  {
    SumBounds(w, lo, hi);
    QuotientBounds(Sum(w), |w|, lo, hi);
  }

  lemma QuotientBounds(s: int, n: int, lo: int, hi: int)
    requires n > 0 && lo * n <= s <= hi * n
    ensures lo <= TruncDiv(s, n) <= hi
  {
    var a := if s < 0 then -s else s;
    var q := a / n;
    DivFacts(a, n);
    if s >= 0 {
      AtMost(q, n, hi, s);
      AtLeast(q, n, lo, s);
    } else {
      Negated(lo, n);
      Negated(hi, n);
      AtMost(q, n, -lo, a);
      AtLeast(q, n, -hi, a);
    }
  }

  lemma Negated(a: int, n: int)
    ensures (-a) * n == -(a * n)
  {
  }

  lemma DivFacts(a: int, n: int)
    requires a >= 0 && n > 0
    ensures a / n * n <= a < a / n * n + n
  {
  }

  lemma AtMost(q: int, n: int, hi: int, a: int)
    requires n > 0 && q * n <= a <= hi * n
    ensures q <= hi
  {
    MulStep(n, hi + 1);
    if q > hi {
      MulMonotone(hi + 1, q, n);
    }
  }

  lemma AtLeast(q: int, n: int, lo: int, a: int)
    requires n > 0 && lo * n <= a < q * n + n
    ensures lo <= q
  {
    MulStep(n, q + 1);
    if lo > q {
      MulMonotone(q + 1, lo, n);
    }
  }

  /** The newest sample is the last input, and the oldest one the n-th from the end, or the first of fewer. */
  lemma EndsOfHistory(n: nat, inputs: seq<int>)
    requires 0 < n && inputs != []
    ensures Newest(Pushes([], n, inputs)) == inputs[|inputs| - 1]
    ensures Oldest(Pushes([], n, inputs)) == if |inputs| < n then inputs[0] else inputs[|inputs| - n]
  {
    WindowIsRecentHistory(n, inputs);
  }

  /** The average is the sum divided by the number of samples, rounded toward zero. */
  lemma AverageIsTruncated(w: seq<int>)
    requires w != []
    ensures var a, n := Average(w), |w|;
            if Sum(w) >= 0 then n * a <= Sum(w) < n * a + n else n * a - n < Sum(w) <= n * a
  {
    hide Sum;
    var s := Sum(w);
    if s < 0 {
      assert |w| * -((-s) / |w|) == -(|w| * ((-s) / |w|));
    }
  }


  /** The template class: a circular buffer with a running sum. */
  class SimpleAverage {
    const buffer: array<int>
    var count: nat
    var sum: int
    var index: nat

    ghost predicate Valid()
      reads this, buffer
    {
      && 0 < buffer.Length
      && count <= buffer.Length
      && index < buffer.Length
      && (count < buffer.Length ==> index == count)
      && sum == Sum(Window())
    }

    /** The samples the buffer holds, oldest first. */
    ghost function Window(): (w: seq<int>)
      reads this, buffer
      requires count <= buffer.Length && index <= buffer.Length
      ensures |w| == count
    {
      if count < buffer.Length then buffer[..count] else buffer[index..] + buffer[..index]
    }

    constructor (n: nat)
      requires 0 < n
      ensures Valid() && fresh(buffer) && buffer.Length == n && Window() == []
    {
      buffer := new int[n];
      count, sum, index := 0, 0, 0;
    }

    /** Stores the sample in the place of the oldest one and moves on. */
    method Store(data: int)
      requires 0 < buffer.Length && count <= buffer.Length && index < buffer.Length && (count < buffer.Length ==> index == count)
      modifies this`count, this`index, buffer
      ensures count <= buffer.Length && index < buffer.Length && (count < buffer.Length ==> index == count)
      ensures count > 0 && Window() == Push(old(Window()), buffer.Length, data)
    {
      ghost var before := Window();
      buffer[index] := data;
      index := index + 1;
      if index >= buffer.Length {
        index := 0;
      }
      if count < buffer.Length {
        count := count + 1;
      }
      ghost var after := Push(before, buffer.Length, data);
      forall k | 0 <= k < |after|
        ensures Window()[k] == after[k]
      {
      }
    }

    method Filter(data: int) returns (average: int)
      requires Valid()
      modifies this, buffer
      ensures Valid()
      ensures Window() == Push(old(Window()), buffer.Length, data)
      ensures average == Average(Window())
    {
      SumOfPush(Window(), buffer.Length, data);
      sum := sum + data;
      if count == buffer.Length {
        sum := sum - buffer[index];
      }
      Store(data);
      average := TruncDiv(sum, count);
    }

    method Reset()
      requires Valid()
      modifies this
      ensures Valid() && Window() == []
    {
      count, sum, index := 0, 0, 0;
    }

    method GetOldest() returns (x: int)
      requires Valid()
      ensures x == Oldest(Window())
    {
      if count == 0 {
        x := 0;
      } else if count < buffer.Length {
        x := buffer[0];
      } else {
        x := buffer[index];
      }
    }

    method GetNewest() returns (x: int)
      requires Valid()
      ensures x == Newest(Window())
    {
      if count == 0 {
        return 0;
      }
      var last: int := index - 1;
      if last < 0 {
        last := count - 1;
      }
      x := buffer[last];
    }

    method GetAverage() returns (x: int)
      requires Valid()
      ensures x == Average(Window())
    {
      if count == 0 {
        return 0;
      }
      x := TruncDiv(sum, count);
    }
  }
}
