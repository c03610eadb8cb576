/**
 * Playlist navigation and the playback clock of the player
 * (src/player/playback.rs). Decoding a file and opening the audio device
 * are outside the model: what `play_current_from` meets when it tries is a
 * `PlayIo` parameter, and an `Instant` is a number of seconds.
 */
module Playback {
  import opened Wrappers
  import opened Numeric
  import opened Tracks
  import opened VisBuffers

  /** The `rodio::Sink` the player holds: whether it is paused and whether it has run dry. */
  datatype Sink = Sink(paused: bool, empty: bool)

  /**
   * What starting the current track meets: the decoder cannot be opened
   * (nothing has changed yet), the device or sink cannot be created (the
   * old sink is already stopped), or playback starts. `total` is the
   * duration probing or the decoder reports.
   */
  datatype PlayIo = DecodeFails(msg: string) | SinkFails(total: Option<real>, msg: string) | Plays(total: Option<real>)

  type Outcome = Result<(), string>

  /** The part of the player that playback changes. */
  datatype Snapshot = Snapshot(
    index: nat,
    trackTotal: Option<real>,
    sink: Option<Sink>,
    posBase: real,
    posStartedAt: Option<real>)

  /** The sample capacity `Player::new` gives the visualiser buffer. */
  const VIS_CAPACITY: nat := 96000

  /** `(index + 1) % len` */
  function NextIndex(i: nat, len: nat): (r: nat)
    requires len > 0
    ensures r < len
    ensures i + 1 < len ==> r == i + 1
    ensures i + 1 == len ==> r == 0
  {
    (i + 1) % len
  }

  /** `len - 1` for index 0, `index - 1` otherwise. */
  function PrevIndex(i: nat, len: nat): (r: nat)
    requires len > 0
    ensures i < len ==> r < len
    ensures i == 0 ==> r == len - 1
    ensures i > 0 ==> r + 1 == i
  {
    if i == 0 then len - 1 else i - 1
  }

  /** Stepping back undoes stepping forward, and the other way round. */
  lemma PrevUndoesNext(i: nat, len: nat)
    requires i < len
    ensures PrevIndex(NextIndex(i, len), len) == i
    ensures NextIndex(PrevIndex(i, len), len) == i
  {
  }

  /**
   * `play_current_from(pos)` on a playlist of `len` tracks: no current
   * track is success with nothing done; a decoder failure changes nothing;
   * otherwise the duration is recorded and the old sink stopped, and a new
   * sink either fails to start (no sink, no clock) or plays from `pos`.
   */
  function AfterPlay(s: Snapshot, len: nat, pos: real, now: real, io: PlayIo): (r: (Snapshot, Outcome))
    ensures s.index >= len ==> r == (s, Ok(()))
    ensures s.index < len && io.DecodeFails? ==> r == (s, Err(io.msg))
    ensures s.index < len && io.SinkFails? ==>
      r.1 == Err(io.msg) && r.0.sink.None? && r.0.posStartedAt.None? && r.0.posBase == s.posBase
    ensures s.index < len && io.Plays? ==>
      r.1 == Ok(()) && r.0.sink == Some(Sink(false, false)) && r.0.posBase == pos && r.0.posStartedAt == Some(now)
    ensures s.index < len && (io.SinkFails? || io.Plays?) ==> r.0.trackTotal == io.total
    ensures r.0.index == s.index
  {
    if s.index >= len then (s, Ok(()))
    else
      match io
      case DecodeFails(e) => (s, Err(e))
      case SinkFails(total, e) => (s.(trackTotal := total, sink := None, posStartedAt := None), Err(e))
      case Plays(total) => (s.(trackTotal := total, sink := Some(Sink(false, false)), posBase := pos, posStartedAt := Some(now)), Ok(()))
  }

  /**
   * `next` (`forward`) or `prev` on values: an empty playlist is success
   * with nothing done; otherwise the index steps with wrap-around and the
   * new current track is started from the beginning.
   */
  function Stepped(s: Snapshot, len: nat, now: real, io: PlayIo, forward: bool): (r: (Snapshot, Outcome))
    ensures len == 0 ==> r == (s, Ok(()))
    ensures len > 0 && forward ==> r.0.index == NextIndex(s.index, len)
    ensures len > 0 && !forward ==> r.0.index == PrevIndex(s.index, len)
  {
    if len == 0 then (s, Ok(()))
    else
      var i := if forward then NextIndex(s.index, len) else PrevIndex(s.index, len);
      AfterPlay(s.(index := i), len, 0.0, now, io)
  }

  /** A step keeps the index inside a non-empty playlist, and starting the track cannot fail for want of one. */
  lemma SteppedInRange(s: Snapshot, len: nat, now: real, io: PlayIo, forward: bool)
    requires len > 0 && s.index < len
    ensures Stepped(s, len, now, io, forward).0.index < len
    ensures io.Plays? ==> Stepped(s, len, now, io, forward).1 == Ok(())
    ensures io.Plays? ==> Stepped(s, len, now, io, forward).0.posBase == 0.0
  {
  }

  /** `Instant::elapsed`: never negative. */
  function Elapsed(start: real, now: real): (d: real)
    ensures d >= 0.0
    ensures now >= start ==> d == now - start
  {
    Max(now - start, 0.0)
  }

  /** `current_pos`: the base plus the time since the clock started, while playing. */
  function CurrentPos(s: Snapshot, now: real): real {
    if s.posStartedAt.Some? && s.sink.Some? && !s.sink.value.paused then s.posBase + Elapsed(s.posStartedAt.value, now)
    else s.posBase
  }

  /**
   * `toggle_pause`: resuming starts the clock; pausing folds the elapsed
   * time into the base and stops the clock; without a sink nothing happens.
   */
  function Toggled(s: Snapshot, now: real): (r: Snapshot)
    ensures s.sink.None? ==> r == s
    ensures s.sink.Some? ==> r.sink == Some(s.sink.value.(paused := !s.sink.value.paused))
    ensures r.index == s.index && r.trackTotal == s.trackTotal
  {
    match s.sink
    case None => s
    case Some(k) =>
      if k.paused then s.(sink := Some(k.(paused := false)), posStartedAt := Some(now))
      else
        var nowPos := if s.posStartedAt.Some? then s.posBase + Elapsed(s.posStartedAt.value, now) else s.posBase;
        s.(sink := Some(k.(paused := true)), posBase := nowPos, posStartedAt := None)
  }

  /** Pausing does not move the position: it is what it was the moment before. */
  lemma PauseKeepsPosition(s: Snapshot, now: real)
    requires s.sink.Some? && !s.sink.value.paused
    ensures CurrentPos(Toggled(s, now), now) == CurrentPos(s, now)
    ensures Toggled(s, now).posStartedAt.None?
  {
  }

  /** While paused the position stands still, whatever the clock says. */
  lemma PausedPositionFrozen(s: Snapshot, now: real, later: real)
    requires s.sink.Some? && s.sink.value.paused
    ensures CurrentPos(s, now) == CurrentPos(s, later) == s.posBase
  {
  }

  /** Resuming picks up at the paused position, and the clock runs from there. */
  lemma ResumeContinues(s: Snapshot, now: real, later: real)
    requires s.sink.Some? && s.sink.value.paused
    ensures CurrentPos(Toggled(s, now), later) == s.posBase + Elapsed(now, later)
  {
  }

  /** The player engine: playlist, position in it, volume and playback clock. */
  class Player {
    var playlist: seq<Track>
    var index: nat
    var volume: real
    var repeatOne: bool
    var trackTotal: Option<real>
    var sink: Option<Sink>
    var posBase: real
    var posStartedAt: Option<real>
    const visBuf: VisBuffer

    function Snap(): Snapshot
      reads this
    {
      Snapshot(index, trackTotal, sink, posBase, posStartedAt)
    }

    /** The index points into a non-empty playlist. */
    ghost predicate Valid()
      reads this
    {
      |playlist| > 0 ==> index < |playlist|
    }

    /** `Player::new`: no playlist, full volume, no sink, and a fresh visualiser buffer. */
    constructor ()
      ensures playlist == [] && index == 0 && volume == 1.0 && !repeatOne
      ensures trackTotal.None? && sink.None? && posBase == 0.0 && posStartedAt.None?
      ensures fresh(visBuf) && visBuf.q == [] && visBuf.cap == VIS_CAPACITY
      ensures Valid()
    {
      playlist := [];
      index := 0;
      volume := 1.0;
      repeatOne := false;
      trackTotal := None;
      sink := None;
      posBase := 0.0;
      posStartedAt := None;
      visBuf := new VisBuffer(VIS_CAPACITY);
    }

    /** `set_volume`: the volume is clamped into `[0, 2]`. */
    method SetVolume(v: real)
      modifies this
      ensures volume == Clamp(v, 0.0, 2.0)
      ensures Snap() == old(Snap()) && playlist == old(playlist) && repeatOne == old(repeatOne)
    {
      volume := Clamp(v, 0.0, 2.0);
    }

    /** `play_current_from(pos)` */
    method PlayCurrentFrom(pos: real, now: real, io: PlayIo) returns (r: Outcome)
      modifies this
      ensures (Snap(), r) == AfterPlay(old(Snap()), |playlist|, pos, now, io)
      ensures playlist == old(playlist) && volume == old(volume) && repeatOne == old(repeatOne)
    {
      if index >= |playlist| {
        return Ok(());
      }
      match io
      case DecodeFails(e) =>
        return Err(e);
      case SinkFails(total, e) =>
        trackTotal := total;
        Stop();
        return Err(e);
      case Plays(total) =>
        trackTotal := total;
        Stop();
        sink := Some(Sink(false, false));
        posBase := pos;
        posStartedAt := Some(now);
        return Ok(());
    }

    /** `stop`: drop the sink and stop the clock. */
    method Stop()
      modifies this
      ensures Snap() == old(Snap()).(sink := None, posStartedAt := None)
      ensures playlist == old(playlist) && volume == old(volume) && repeatOne == old(repeatOne)
    {
      sink := None;
      posStartedAt := None;
    }

    /** `toggle_pause` */
    method TogglePause(now: real)
      modifies this
      ensures Snap() == Toggled(old(Snap()), now)
      ensures playlist == old(playlist) && volume == old(volume) && repeatOne == old(repeatOne)
    {
      if sink.Some? {
        var s := sink.value;
        if s.paused {
          sink := Some(s.(paused := false));
          posStartedAt := Some(now);
        } else {
          var nowPos := if posStartedAt.Some? then posBase + Elapsed(posStartedAt.value, now) else posBase;
          posBase := nowPos;
          posStartedAt := None;
          sink := Some(s.(paused := true));
        }
      }
    }

    /** `seek_to_secs`: a non-finite or negative position is ignored. */
    method SeekToSecs(secs: F32, now: real, io: PlayIo) returns (r: Outcome)
      modifies this
      ensures !secs.IsFinite() || secs.value < 0.0 ==> r == Ok(()) && Snap() == old(Snap())
      ensures secs.IsFinite() && secs.value >= 0.0 ==> (Snap(), r) == AfterPlay(old(Snap()), |playlist|, secs.value, now, io)
      ensures playlist == old(playlist) && volume == old(volume) && repeatOne == old(repeatOne)
    {
      if !secs.IsFinite() || secs.value < 0.0 {
        return Ok(());
      }
      r := PlayCurrentFrom(secs.value, now, io);
    }

    /** `next`: on a non-empty playlist, step forward with wrap-around and play. */
    method Next(now: real, io: PlayIo) returns (r: Outcome)
      modifies this
      ensures (Snap(), r) == Stepped(old(Snap()), |playlist|, now, io, true)
      ensures old(Valid()) ==> Valid()
      ensures playlist == old(playlist) && volume == old(volume) && repeatOne == old(repeatOne)
    {
      if |playlist| == 0 {
        return Ok(());
      }
      index := NextIndex(index, |playlist|);
      r := PlayCurrentFrom(0.0, now, io);
    }

    /** `prev`: on a non-empty playlist, step back with wrap-around and play. */
    method Prev(now: real, io: PlayIo) returns (r: Outcome)
      modifies this
      ensures (Snap(), r) == Stepped(old(Snap()), |playlist|, now, io, false)
      ensures old(Valid()) ==> Valid()
      ensures playlist == old(playlist) && volume == old(volume) && repeatOne == old(repeatOne)
    {
      if |playlist| == 0 {
        return Ok(());
      }
      index := PrevIndex(index, |playlist|);
      r := PlayCurrentFrom(0.0, now, io);
    }

    /**
     * `auto_advance_if_needed`: once the sink has run dry on a non-empty
     * playlist, replay the track under repeat-one or move to the next one.
     */
    method AutoAdvanceIfNeeded(now: real, io: PlayIo) returns (r: Outcome)
      modifies this
      ensures !(old(sink).Some? && old(sink).value.empty && |playlist| > 0) ==> r == Ok(()) && Snap() == old(Snap())
      ensures old(sink).Some? && old(sink).value.empty && |playlist| > 0 ==>
        var i := if repeatOne then old(index) else NextIndex(old(index), |playlist|);
        (Snap(), r) == AfterPlay(old(Snap()).(index := i), |playlist|, 0.0, now, io)
      ensures old(Valid()) ==> Valid()
      ensures playlist == old(playlist) && volume == old(volume) && repeatOne == old(repeatOne)
    {
      if sink.Some? && sink.value.empty && |playlist| > 0 {
        if !repeatOne {
          index := NextIndex(index, |playlist|);
        }
        r := PlayCurrentFrom(0.0, now, io);
        return;
      }
      r := Ok(());
    }
  }
}
