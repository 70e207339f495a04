/**
  The per-host probe history (`ping_history[host]` in poker.py): a list of outcome
  bits, 1 for a probe that returned a latency and 0 for a timeout, to which each
  cycle appends one bit and from which the oldest bit is dropped once the list is
  longer than the rolling window. Packet loss is computed from it after each append.
 */
module RollingWindow {
  import opened Wrappers

  /** `ROLLING_WINDOW`: the number of most recent outcomes kept per host. */
  const ROLLING_WINDOW: nat := 50

  predicate IsBits(h: seq<int>)
  {
    forall i :: 0 <= i < |h| ==> h[i] == 0 || h[i] == 1
  }

  /** `1 if ping_time is not None else 0` (poker.py:116). */
  function OutcomeBit<T>(p: Option<T>): (b: int)
    ensures b == 1 <==> p.Some?
    ensures b == 0 <==> p.None?
  {
    if p.Some? then 1 else 0
  }

  /** One update: append the bit, then `pop(0)` if the list exceeds the window. */
  function Push(h: seq<int>, b: int, window: nat): (r: seq<int>)
    ensures |h| <= window ==> |r| <= window
    ensures window > 0 ==> |r| > 0
    ensures |h| < window ==> r == h + [b]
    ensures 0 < |h| == window ==> r == h[1..] + [b]
    ensures IsBits(h) && (b == 0 || b == 1) ==> IsBits(r)
  {
    var appended := h + [b];
    if |appended| > window then appended[1..] else appended
  }

  /** The last `window` elements of `bits` (all of them when there are fewer). */
  function Window(bits: seq<int>, window: nat): (r: seq<int>)
    ensures |r| == if |bits| < window then |bits| else window
  {
    if |bits| <= window then bits else bits[|bits| - window..]
  }

  /** The history after pushing every bit of `bits`, oldest first. */
  function PushAll(h: seq<int>, bits: seq<int>, window: nat): seq<int>
  {
    if bits == [] then h
    else Push(PushAll(h, bits[..|bits| - 1], window), bits[|bits| - 1], window)
  }

  lemma PushAllSnoc(h: seq<int>, bits: seq<int>, b: int, window: nat)
    ensures PushAll(h, bits + [b], window) == Push(PushAll(h, bits, window), b, window)
  {
    assert (bits + [b])[..|bits|] == bits;
  }

  lemma PushIsWindow(h: seq<int>, b: int, window: nat)
    requires |h| <= window
    ensures Push(h, b, window) == Window(h + [b], window)
  {
  }

  lemma WindowAppend(x: seq<int>, y: seq<int>, window: nat)
    ensures Window(Window(x, window) + y, window) == Window(x + y, window)
  {
    if |x| > window {
      var s := |x| - window;
      assert Window(x, window) + y == (x + y)[s..];
    }
  }

  /**
    FIFO eviction over many cycles: starting from a history within the window,
    the history after any run of outcomes is exactly the most recent `window`
    outcomes of the old history followed by the run.
   */
  lemma {:induction false} PushAllKeepsLatest(h: seq<int>, bits: seq<int>, window: nat)
    requires |h| <= window
    ensures PushAll(h, bits, window) == Window(h + bits, window)
    decreases |bits|
  {
    if bits == [] {
      assert h + bits == h;
    } else {
      var front, b := bits[..|bits| - 1], bits[|bits| - 1];
      PushAllKeepsLatest(h, front, window);
      var before := PushAll(h, front, window);
      assert |before| <= window;
      PushIsWindow(before, b, window);
      WindowAppend(h + front, [b], window);
      assert h + front + [b] == h + bits;
    }
  }

  // ---------------------------------------------------------------------------
  // Packet loss

  function Sum(h: seq<int>): int
  {
    if h == [] then 0 else Sum(h[..|h| - 1]) + h[|h| - 1]
  }

  /** The number of timeouts (zero bits) in the history. */
  function Failures(h: seq<int>): nat
  {
    if h == [] then 0 else Failures(h[..|h| - 1]) + (if h[|h| - 1] == 0 then 1 else 0)
  }

  /** `100 * (1 - sum(history) / len(history))` in exact arithmetic (poker.py:119). */
  function LossPercent(h: seq<int>): real
    requires |h| > 0
  {
    100.0 * (1.0 - Sum(h) as real / |h| as real)
  }

  lemma {:induction false} SumPlusFailures(h: seq<int>)
    requires IsBits(h)
    ensures Sum(h) + Failures(h) == |h|
    ensures Failures(h) <= |h|
    decreases |h|
  {
    if h != [] {
      SumPlusFailures(h[..|h| - 1]);
    }
  }

  /** Loss is the share of timeouts in the window, as a percentage, and lies in [0, 100]. */
  lemma LossIsFailureShare(h: seq<int>)
    requires |h| > 0 && IsBits(h)
    ensures LossPercent(h) == 100.0 * (Failures(h) as real) / (|h| as real)
    ensures 0.0 <= LossPercent(h) <= 100.0
  {
    SumPlusFailures(h);
    var n, s, f := |h| as real, Sum(h) as real, Failures(h) as real;
    assert s + f == n;
    SharesAddUp(s, f, n);
    ScaledShare(f, n);
  }

  lemma ScaledShare(f: real, n: real)
    requires 0.0 <= f <= n && n > 0.0
    ensures 100.0 * (f / n) == (100.0 * f) / n
    ensures 0.0 <= f / n <= 1.0
  {
  }

  lemma SharesAddUp(s: real, f: real, n: real)
    requires n > 0.0 && s + f == n
    ensures 1.0 - s / n == f / n
  {
    assert s / n + f / n == (s + f) / n;
    assert n / n == 1.0;
  }

  lemma {:induction false} NoTimeouts(h: seq<int>)
    requires forall i :: 0 <= i < |h| ==> h[i] == 1
    ensures Failures(h) == 0
    decreases |h|
  {
    if h != [] {
      NoTimeouts(h[..|h| - 1]);
    }
  }

  lemma {:induction false} OnlyTimeouts(h: seq<int>)
    requires forall i :: 0 <= i < |h| ==> h[i] == 0
    ensures Failures(h) == |h|
    decreases |h|
  {
    if h != [] {
      OnlyTimeouts(h[..|h| - 1]);
    }
  }

  lemma AllAnsweredNoLoss(h: seq<int>)
    requires |h| > 0 && forall i :: 0 <= i < |h| ==> h[i] == 1
    ensures LossPercent(h) == 0.0
  {
    NoTimeouts(h);
    LossIsFailureShare(h);
  }

  lemma AllTimedOutFullLoss(h: seq<int>)
    requires |h| > 0 && forall i :: 0 <= i < |h| ==> h[i] == 0
    ensures LossPercent(h) == 100.0
  {
    OnlyTimeouts(h);
    LossIsFailureShare(h);
  }

  /**
    Two hosts and a window of three: host a answers, times out, answers, times out;
    host b times out, answers, answers, answers. The histories after each cycle.
   */
  lemma WindowOfThreeHostA()
    ensures PushAll([], [1], 3) == [1] && PushAll([], [1, 0], 3) == [1, 0]
    ensures PushAll([], [1, 0, 1], 3) == [1, 0, 1] && PushAll([], [1, 0, 1, 0], 3) == [0, 1, 0]
  {
    PushAllKeepsLatest([], [1], 3);
    PushAllKeepsLatest([], [1, 0], 3);
    PushAllKeepsLatest([], [1, 0, 1], 3);
    PushAllKeepsLatest([], [1, 0, 1, 0], 3);
    assert [1, 0, 1, 0][1..] == [0, 1, 0];
  }

  lemma WindowOfThreeHostB()
    ensures PushAll([], [0], 3) == [0] && PushAll([], [0, 1], 3) == [0, 1]
    ensures PushAll([], [0, 1, 1], 3) == [0, 1, 1] && PushAll([], [0, 1, 1, 1], 3) == [1, 1, 1]
  {
    PushAllKeepsLatest([], [0], 3);
    PushAllKeepsLatest([], [0, 1], 3);
    PushAllKeepsLatest([], [0, 1, 1], 3);
    PushAllKeepsLatest([], [0, 1, 1, 1], 3);
    assert [0, 1, 1, 1][1..] == [1, 1, 1];
  }

  /**
    The loss shown for those histories: 0% and 100%, then 50% each, then a third
    each, then, once the oldest outcome has been evicted, two thirds and 0%.
   */
  lemma WindowOfThreeLosses()
    ensures LossPercent([1]) == 0.0 && LossPercent([0]) == 100.0
    ensures LossPercent([1, 0]) == 50.0 && LossPercent([0, 1]) == 50.0
    ensures LossPercent([1, 0, 1]) == 100.0 / 3.0 && LossPercent([0, 1, 1]) == 100.0 / 3.0
    ensures LossPercent([0, 1, 0]) == 200.0 / 3.0 && LossPercent([1, 1, 1]) == 0.0
  {
    assert [1, 0][..1] == [1] && [0, 1][..1] == [0];
    assert [1, 0, 1][..2] == [1, 0] && [0, 1, 1][..2] == [0, 1];
    assert [0, 1, 0][..2] == [0, 1] && [1, 1, 1][..2] == [1, 1] && [1, 1][..1] == [1];
    assert Sum([1, 0, 1]) == 2 && Sum([0, 1, 1]) == 2;
    assert Sum([0, 1, 0]) == 1 && Sum([1, 1, 1]) == 3;
  }
}
