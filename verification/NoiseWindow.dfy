/**
 The noise source's low-pass: a circular window over the raw samples with a running sum, in exact
 arithmetic. It answers the mean of the most recent raw samples.
 */
module NoiseWindow {
  import opened Circles

  function Total(s: seq<real>): real
    decreases s
  {
    if s == [] then 0.0 else s[0] + Total(s[1..])
  }

  function Mean(s: seq<real>): real
    requires s != []
  {
    Total(s) / |s| as real
  }

  lemma {:induction false} TotalAppend(s: seq<real>, x: real)
    ensures Total(s + [x]) == Total(s) + x
    decreases s
  {
    if s == [] {
      assert s + [x] == [x];
    } else {
      assert (s + [x])[1..] == s[1..] + [x];
      TotalAppend(s[1..], x);
    }
  }

  /** One sample leaves the window and one enters. */
  lemma TotalSlides(s: seq<real>, x: real)
    requires s != []
    ensures Total(s[1..] + [x]) == Total(s) + (x - s[0])
  {
    TotalAppend(s[1..], x);
  }

  lemma LastSlides<T>(s: seq<T>, x: T, n: nat)
    requires n > 0
    ensures Last(s + [x], n) == if |s| < n then s + [x] else Last(s, n)[1..] + [x]
  {
  }

  /** Read from the oldest element on, a circle whose oldest element is replaced slides by one. */
  lemma CircleSlides<T>(b: seq<T>, pos: nat, x: T)
    requires pos < |b|
    ensures var circle, b1 := b[pos..] + b[..pos], b[pos := x];
            && circle[0] == b[pos]
            && b1[pos + 1..] + b1[..pos + 1] == circle[1..] + [x]
            && (pos + 1 == |b| ==> b1[0..] + b1[..0] == circle[1..] + [x])
  {
  }

  /** A bound, n times over. */
  function Times(n: nat, bound: real): real
  {
    n as real * bound
  }

  lemma OneMoreTime(n: nat, bound: real)
    ensures Times(n + 1, bound) == Times(n, bound) + bound
  {
    assert (n + 1) as real == n as real + 1.0;
  }

  lemma {:induction false} TotalBounded(s: seq<real>, bound: real)
    requires forall i :: 0 <= i < |s| ==> -bound <= s[i] <= bound
    ensures -Times(|s|, bound) <= Total(s) <= Times(|s|, bound)
    decreases s
  {
    hide Times;
    if s == [] {
      NoTimes(bound);
    } else {
      TotalBounded(s[1..], bound);
      OneMoreTime(|s| - 1, bound);
    }
  }

  lemma NoTimes(bound: real)
    ensures Times(0, bound) == 0.0
  {
  }

  lemma Scale(a: real, b: real, n: real)
    requires a > b && n > 0.0
    ensures a * n > b * n
  {
    var d := a - b;
    assert d * n > 0.0;
    assert a * n == b * n + d * n;
  }

  /** Smoothing never makes the noise louder than its raw samples. */
  lemma MeanBounded(s: seq<real>, bound: real)
    requires s != [] && forall i :: 0 <= i < |s| ==> -bound <= s[i] <= bound
    ensures -bound <= Mean(s) <= bound
  {
    TotalBounded(s, bound);
    var n, m := |s| as real, Mean(s);
    MeanTimes(s);
    if m > bound {
      Scale(m, bound, n);
    } else if m < -bound {
      Scale(-bound, m, n);
      Negated(bound, n);
    }
  }

  lemma Negated(bound: real, n: real)
    ensures (-bound) * n == -(n * bound)
  {
  }

  lemma MeanTimes(s: seq<real>)
    requires s != []
    ensures Mean(s) * |s| as real == Total(s)
  {
  }

  class WhiteNoise {
    const win: int
    const buf: array<real>
    var sum: real
    var pos: int
    var count: int
    ghost var raw: seq<real>

    /** The window holds the last raw samples, in a circle once it is full, and sum is their total. */
    ghost predicate Valid()
      reads this, buf
    {
      win > 0 ==>
        && buf.Length == win && 0 <= pos < win && count == |Last(raw, win)|
        && (count < win ==> pos == count && buf[..count] == raw)
        && (count == win ==> buf[pos..] + buf[..pos] == Last(raw, win))
        && sum == Total(Last(raw, win))
    }

    /** The window's length is the number of samples in a period of the cut-off, and at least two; none without one. */
    constructor (sampleRate: int, lowpassHz: real)
      ensures Valid() && raw == []
      ensures lowpassHz <= 0.0 || sampleRate <= 0 ==> win == 0
      ensures lowpassHz > 0.0 && sampleRate > 0 ==>
                win >= 2 && (win == 2 || win as real <= sampleRate as real / lowpassHz < win as real + 1.0)
    {
      var w := 0;
      if lowpassHz > 0.0 && sampleRate > 0 {
        w := (sampleRate as real / lowpassHz).Floor;
        if w < 2 {
          w := 2;
        }
      }
      win := w;
      buf := new real[w];
      sum, pos, count, raw := 0.0, 0, 0, [];
    }

    method Next(x: real) returns (y: real)
      requires Valid()
      modifies this, buf
      ensures Valid() && raw == old(raw) + [x]
      ensures y == if win <= 0 then x else Mean(Last(raw, win))
    {
      if win <= 0 {
        raw := raw + [x];
        return x;
      }
      if count < win {
        Fill(x);
        return sum / count as real;
      }
      Slide(x);
      return sum / win as real;
    }

    method Fill(x: real)
      requires Valid() && win > 0 && count < win
      modifies this, buf
      ensures Valid() && raw == old(raw) + [x] && count == old(count) + 1
    {
      hide Total, Circles.Next;
      TotalAppend(raw, x);
      ghost var before := buf[..pos];
      raw := raw + [x];
      buf[pos] := x;
      sum := sum + x;
      count := count + 1;
      assert buf[..count] == before + [x];
      assert count == win ==> buf[0..] + buf[..0] == buf[..count];
      pos := Circles.Next(pos, win);
    }

    method Slide(x: real)
      requires Valid() && win > 0 && count == win
      modifies this, buf
      ensures Valid() && raw == old(raw) + [x] && count == win
    {
      hide Total, Last, Circles.Next;
      ghost var window, before := Last(raw, win), buf[..];
      CircleSlides(before, pos, x);
      TotalSlides(window, x);
      LastSlides(raw, x, win);
      var oldest := buf[pos];
      raw := raw + [x];
      buf[pos] := x;
      sum := sum + (x - oldest);
      assert buf[..] == before[pos := x];
      pos := Circles.Next(pos, win);
    }
  }
}
