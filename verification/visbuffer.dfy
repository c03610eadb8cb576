/**
 * The bounded sample FIFO the audio thread fills and the visualiser reads
 * (`VisBuffer` in src/player/vis.rs). The mutex around the deque is left out:
 * the model has one sequential owner.
 */
module VisBuffers {

  /** The capacity the player engine gives its buffer (96 000 samples). */
  const ENGINE_CAPACITY: nat := 96000

  /**
   * The deque after `push(s)`: when the deque already holds `cap` or more
   * samples, the oldest `len + 1 - cap` are drained before `s` is appended.
   * With `cap == 0` the drain range `..1` is past the end of the empty deque
   * and `push` panics, hence the precondition.
   */
  function Pushed(q: seq<real>, cap: nat, s: real): (r: seq<real>)
    requires cap >= 1
    ensures |q| < cap ==> r == q + [s]
    ensures |q| <= cap ==> |r| <= cap
    ensures |q| == cap ==> r == (q + [s])[1..]
    ensures |r| > 0 && r[|r| - 1] == s
  {
    if |q| >= cap then (q + [s])[|q| + 1 - cap..] else q + [s]
  }

  /** The deque after pushing every sample of `xs`, first to last. */
  function PushedAll(q: seq<real>, cap: nat, xs: seq<real>): (r: seq<real>)
    requires cap >= 1
    ensures |q| <= cap ==> |r| <= cap
    decreases |xs|
  {
    if xs == [] then q else PushedAll(Pushed(q, cap, xs[0]), cap, xs[1..])
  }

  /** The last `min(n, |q|)` elements of `q`, oldest first. */
  function Recent(q: seq<real>, n: nat): (r: seq<real>)
    ensures |r| == if n <= |q| then n else |q|
  {
    if n <= |q| then q[|q| - n..] else q
  }

  /**
   * A buffer that never exceeded its capacity holds, after any run of pushes,
   * exactly the most recent `cap` samples of everything it has seen.
   */
  lemma {:induction false} PushedAllKeepsNewest(q: seq<real>, cap: nat, xs: seq<real>)
    requires cap >= 1 && |q| <= cap
    ensures PushedAll(q, cap, xs) == Recent(q + xs, cap)
    decreases |xs|
  {
    if xs == [] {
      assert q + xs == q;
    } else {
      var q1 := Pushed(q, cap, xs[0]);
      var rest := xs[1..];
      assert Recent(q1 + rest, cap) == Recent(q + xs, cap) by {
        PushedIsRecent(q, cap, xs[0]);
        RecentOfRecent(q + [xs[0]], rest, cap);
        assert (q + [xs[0]]) + rest == q + xs;
      }
      PushedAllKeepsNewest(q1, cap, rest);
    }
  }

  /** Below or at capacity, one push keeps the newest `cap` samples. */
  lemma PushedIsRecent(q: seq<real>, cap: nat, s: real)
    requires cap >= 1 && |q| <= cap
    ensures Pushed(q, cap, s) == Recent(q + [s], cap)
  {
  }

  /** The newest `n` of `p + x` lie in `x` when `x` has at least `n`. */
  lemma RecentOfSuffix(p: seq<real>, x: seq<real>, n: nat)
    requires n <= |x|
    ensures Recent(p + x, n) == Recent(x, n)
  {
    assert (p + x)[|p + x| - n..] == x[|x| - n..];
  }

  /** Appending to a window and re-windowing is the same as windowing once. */
  lemma RecentOfRecent(a: seq<real>, b: seq<real>, cap: nat)
    ensures Recent(Recent(a, cap) + b, cap) == Recent(a + b, cap)
  {
    if cap <= |a| {
      var ra := a[|a| - cap..];
      assert a + b == a[..|a| - cap] + (ra + b);
      RecentOfSuffix(a[..|a| - cap], ra + b, cap);
    }
  }

  /** A run of `n` zero samples. */
  function Zeros(n: nat): (r: seq<real>)
    ensures |r| == n && forall i :: 0 <= i < n ==> r[i] == 0.0
  {
    if n == 0 then [] else Zeros(n - 1) + [0.0]
  }

  /**
   * The engine's buffer after `cap` silent samples: the visualiser's request
   * for the latest 4096 samples yields 4096 zeros.
   */
  lemma SilenceFillsWindow(cap: nat)
    requires cap >= 4096
    ensures Recent(PushedAll([], cap, Zeros(cap)), 4096) == Zeros(4096)
  {
    PushedAllKeepsNewest([], cap, Zeros(cap));
    assert [] + Zeros(cap) == Zeros(cap);
  }

  class VisBuffer {
    var q: seq<real>
    const cap: nat

    /** The deque never holds more than `cap` samples. */
    ghost predicate Valid()
      reads this
    {
      |q| <= cap
    }

    /** `VisBuffer::new(cap)`: an empty deque with the given capacity. */
    constructor(cap: nat)
      ensures this.cap == cap && q == []
      ensures Valid()
    {
      this.cap := cap;
      q := [];
    }

    /** `push(s)`: drain the oldest samples when full, then append `s`. */
    method Push(s: real)
      requires cap >= 1
      modifies this
      ensures q == Pushed(old(q), cap, s)
      ensures old(Valid()) ==> Valid()
    {
      var len := |q|;
      if len >= cap {
        q := q[len + 1 - cap..];
      }
      q := q + [s];
    }

    /**
     * `take_recent(n)`: walk the deque from the newest sample back, take
     * `min(n, len)` of them, and reverse the collected run into
     * chronological order. The deque is left as it was.
     */
    method TakeRecent(n: nat) returns (r: seq<real>)
      ensures r == Recent(q, n)
      ensures |r| == if n <= |q| then n else |q|
      ensures n == 0 ==> r == []
    {
      var k := if n <= |q| then n else |q|;
      var rev: seq<real> := [];
      var i := 0;
      while i < k
        invariant 0 <= i <= k
        invariant |rev| == i
        invariant forall j :: 0 <= j < i ==> rev[j] == q[|q| - 1 - j]
      {
        rev := rev + [q[|q| - 1 - i]];
        i := i + 1;
      }
      r := [];
      i := 0;
      while i < k
        invariant 0 <= i <= k
        invariant |r| == i
        invariant forall j :: 0 <= j < i ==> r[j] == rev[k - 1 - j]
      {
        r := r + [rev[k - 1 - i]];
        i := i + 1;
      }
    }
  }
}
