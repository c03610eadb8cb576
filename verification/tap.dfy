/**
 * The pass-through audio source that copies every sample it yields into the
 * visualiser buffer (`TapSource` in src/player/tap.rs). The decoded source it
 * wraps is modelled by the samples it still has to yield and its stream
 * metadata.
 */
module Tap {
  import opened Wrappers
  import opened VisBuffers

  /** The wrapped decoder: the samples it will still yield, and its metadata. */
  class Samples {
    var pending: seq<real>
    const channels: nat
    const sampleRate: nat
    const frameLen: Option<nat>
    const totalDuration: Option<real>

    constructor(pending: seq<real>, channels: nat, sampleRate: nat,
                frameLen: Option<nat>, totalDuration: Option<real>)
      ensures this.pending == pending && this.channels == channels
      ensures this.sampleRate == sampleRate && this.frameLen == frameLen
      ensures this.totalDuration == totalDuration
    {
      this.pending := pending;
      this.channels := channels;
      this.sampleRate := sampleRate;
      this.frameLen := frameLen;
      this.totalDuration := totalDuration;
    }

    /** `Iterator::next`: the first pending sample, or `None` at the end. */
    method Next() returns (x: Option<real>)
      modifies this
      ensures old(pending) == [] ==> x == None && pending == []
      ensures old(pending) != [] ==> x == Some(old(pending)[0]) && pending == old(pending)[1..]
    {
      if pending == [] {
        x := None;
      } else {
        x := Some(pending[0]);
        pending := pending[1..];
      }
    }
  }

  class TapSource {
    const inner: Samples
    const buf: VisBuffer

    constructor(inner: Samples, buf: VisBuffer)
      ensures this.inner == inner && this.buf == buf
    {
      this.inner := inner;
      this.buf := buf;
    }

    /**
     * `next`: pull one sample from the wrapped source and, when there is
     * one, push it into the shared buffer before handing it on.
     */
    method Next() returns (x: Option<real>)
      requires buf.cap >= 1
      modifies inner, buf
      ensures old(inner.pending) == [] ==> x == None
      ensures old(inner.pending) != [] ==> x == Some(old(inner.pending)[0])
      ensures inner.pending == if old(inner.pending) == [] then [] else old(inner.pending)[1..]
      ensures x.Some? ==> buf.q == Pushed(old(buf.q), buf.cap, x.value)
      ensures x.None? ==> buf.q == old(buf.q)
    {
      x := inner.Next();
      if x.Some? {
        buf.Push(x.value);
      }
    }

    /** `Source::channels`, delegated unchanged to the wrapped source. */
    function Channels(): (r: nat)
      reads this, inner
      ensures r == inner.channels
    {
      inner.channels
    }

    /** `Source::sample_rate`, delegated unchanged. */
    function SampleRate(): (r: nat)
      reads this, inner
      ensures r == inner.sampleRate
    {
      inner.sampleRate
    }

    /** `Source::current_frame_len`, delegated unchanged. */
    function CurrentFrameLen(): (r: Option<nat>)
      reads this, inner
      ensures r == inner.frameLen
    {
      inner.frameLen
    }

    /** `Source::total_duration`, delegated unchanged. */
    function TotalDuration(): (r: Option<real>)
      reads this, inner
      ensures r == inner.totalDuration
    {
      inner.totalDuration
    }

    /**
     * The audio sink pulling `k` samples through the tap: the samples it
     * receives are the first `min(k, |pending|)` of the wrapped source, and
     * the buffer ends up holding the newest `cap` of everything it held and
     * everything pulled.
     */
    method Pull(k: nat) returns (got: seq<real>)
      requires buf.cap >= 1 && |buf.q| <= buf.cap
      modifies inner, buf
      ensures got == old(inner.pending)[..if k <= |old(inner.pending)| then k else |old(inner.pending)|]
      ensures inner.pending == old(inner.pending)[|got|..]
      ensures buf.q == PushedAll(old(buf.q), buf.cap, got)
      ensures buf.q == Recent(old(buf.q) + got, buf.cap)
    {
      got := [];
      var i := 0;
      ghost var p0 := inner.pending;
      ghost var q0 := buf.q;
      while i < k
        invariant 0 <= i <= k
        invariant |got| <= |p0| && got == p0[..|got|]
        invariant inner.pending == p0[|got|..]
        invariant |got| == i || (|got| == |p0| && |got| < i)
        invariant buf.q == PushedAll(q0, buf.cap, got)
        invariant |buf.q| <= buf.cap
      {
        var x := Next();
        if x.Some? {
          PushedAllSnoc(q0, buf.cap, got, x.value);
          got := got + [x.value];
        }
        i := i + 1;
      }
      PushedAllKeepsNewest(q0, buf.cap, got);
    }
  }

  /** Pushing one more sample extends a run of pushes by one step. */
  lemma {:induction false} PushedAllSnoc(q: seq<real>, cap: nat, xs: seq<real>, x: real)
    requires cap >= 1
    ensures PushedAll(q, cap, xs + [x]) == Pushed(PushedAll(q, cap, xs), cap, x)
    decreases |xs|
  {
    if xs == [] {
      assert xs + [x] == [x];
      assert [x][1..] == [];
    } else {
      assert (xs + [x])[0] == xs[0];
      assert (xs + [x])[1..] == xs[1..] + [x];
      PushedAllSnoc(Pushed(q, cap, xs[0]), cap, xs[1..], x);
    }
  }

  /**
   * A fresh buffer after `k` samples have been pulled through a tap holds
   * the newest `min(k, cap)` of them, in order.
   */
  lemma FreshBufferAfterPulls(cap: nat, got: seq<real>)
    requires cap >= 1
    ensures PushedAll([], cap, got) == Recent(got, cap)
  {
    PushedAllKeepsNewest([], cap, got);
    assert [] + got == got;
  }
}
