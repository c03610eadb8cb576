/**
 * The command-line player (src/main.rs): which files it accepts, how it
 * gathers a sorted playlist without duplicates from its arguments, how it
 * reads hotkeys, and the loop that plays, steps and adjusts the volume.
 * What the file system answers (which inputs are files or folders, what a
 * folder lists) and what opening a decoder or sink meets are parameters.
 */
module Cli {
  import opened Wrappers
  import opened Chars
  import opened Numeric
  import opened Paths
  import opened Sorting
  import FsUtil
  import Playback

  // ---------------------------------------------------------------------
  // is_audio_file

  /** The nine extensions the command-line player accepts. */
  const CLI_EXTENSIONS: seq<string> := ["mp3", "flac", "ogg", "opus", "wav", "aiff", "aif", "alac", "m4a"]

  /** `is_audio_file`: the lower-cased final extension is one of the nine. */
  function IsAudioFile(p: Path): (r: bool)
    ensures r <==> Extension(p).Some? && LowerAscii(Extension(p).value) in CLI_EXTENSIONS
  {
    match Extension(p)
    case None => false
    case Some(ext) => LowerAscii(ext) in CLI_EXTENSIONS
  }

  /** Every file the command-line player accepts, the library scan accepts too. */
  lemma CliAudioIsLibraryAudio(p: Path)
    ensures IsAudioFile(p) ==> FsUtil.IsAudioFile(p)
  {
    assert forall x :: x in CLI_EXTENSIONS ==> x in FsUtil.AUDIO_EXTENSIONS;
  }

  // ---------------------------------------------------------------------
  // collect_playlist

  /**
   * One command-line input as the file system sees it: a file, a folder
   * with what reading it lists (or the error) and what walking it finds,
   * or neither. Paths are taken as already canonical (`canonicalize` is
   * the identity and never fails), listings and walks hold only regular
   * files, and an error on any entry of a listing is the listing's error.
   */
  datatype Input =
    | FileInput(path: Path)
    | DirInput(display: string, listing: Result<seq<Path>, string>, walked: seq<Path>)
    | OtherInput

  /** The audio files among `files`, in order. */
  function AudioAmong(files: seq<Path>): (r: seq<Path>)
    ensures forall k :: 0 <= k < |r| ==> IsAudioFile(r[k])
    ensures forall p :: p in r <==> p in files && IsAudioFile(p)
  {
    if |files| == 0 then []
    else (if IsAudioFile(files[0]) then [files[0]] else []) + AudioAmong(files[1..])
  }

  /** The audio files one input contributes, or the error reading it. */
  function FromInput(input: Input, recursive: bool): (r: Result<seq<Path>, string>)
    ensures r.Ok? ==> forall k :: 0 <= k < |r.value| ==> IsAudioFile(r.value[k])
  {
    match input
    case FileInput(p) => Ok(if IsAudioFile(p) then [p] else [])
    case OtherInput => Ok([])
    case DirInput(display, listing, walked) =>
      if recursive then Ok(AudioAmong(walked))
      else
        match listing
        case Err(_) => Err("Failed to read directory: " + display)
        case Ok(entries) => Ok(AudioAmong(entries))
  }

  /** The files gathered from the first `n` inputs, in order, or the first read error. */
  function Gathered(inputs: seq<Input>, recursive: bool, n: nat): (r: Result<seq<Path>, string>)
    requires n <= |inputs|
    ensures r.Ok? ==> forall k :: 0 <= k < |r.value| ==> IsAudioFile(r.value[k])
  {
    if n == 0 then Ok([])
    else
      match Gathered(inputs, recursive, n - 1)
      case Err(e) => Err(e)
      case Ok(fs) =>
        match FromInput(inputs[n - 1], recursive)
        case Err(e) => Err(e)
        case Ok(more) => Ok(fs + more)
  }

  /** Strictly ascending by `Ord for Path`: sorted, with no path twice. */
  predicate StrictlySorted(s: seq<Path>) {
    forall i, j :: 0 <= i < j < |s| ==> PathCmp(s[i], s[j]) == Less
  }

  /** `Vec::dedup`: runs of equal neighbours shrink to one. */
  function Dedup(s: seq<Path>): (r: seq<Path>)
    ensures |r| <= |s|
    ensures forall p :: p in r <==> p in s
    ensures |s| > 0 ==> |r| > 0 && r[0] == s[0]
  {
    if |s| <= 1 then s
    else if s[0] == s[1] then Dedup(s[1..])
    else [s[0]] + Dedup(s[1..])
  }

  /** A sorted sequence without its repeated neighbours is strictly sorted. */
  lemma {:induction false} DedupSortedIsStrict(s: seq<Path>)
    requires SortedBy(s, PathLe)
    ensures StrictlySorted(Dedup(s))
  {
    PathCmpLawful();
    if |s| > 1 {
      assert SortedBy(s[1..], PathLe);
      DedupSortedIsStrict(s[1..]);
      if s[0] != s[1] {
        var r := Dedup(s);
        var t := Dedup(s[1..]);
        assert r == [s[0]] + t;
        assert PathCmp(s[0], t[0]) == Less by {
          assert PathLe(s[0], s[1]);
        }
        forall j | 1 <= j < |r|
          ensures PathCmp(r[0], r[j]) == Less
        {
          assert r[j] == t[j - 1];
          if j > 1 {
            assert PathCmp(t[0], t[j - 1]) == Less;
          }
        }
      }
    }
  }

  /** `files.sort(); files.dedup()` */
  function SortedUnique(files: seq<Path>): (r: seq<Path>)
    ensures StrictlySorted(r)
    ensures forall p :: p in r <==> p in files
    ensures |r| == 0 <==> |files| == 0
  {
    PathCmpLawful();
    var sorted := SortBy(files, PathLe);
    assert forall p :: p in sorted <==> p in files by {
      assert forall p :: p in sorted <==> p in multiset(sorted);
    }
    DedupSortedIsStrict(sorted);
    Dedup(sorted)
  }

  /** What `collect_playlist` returns. */
  function Playlist(inputs: seq<Input>, recursive: bool): (r: Result<seq<Path>, string>)
  {
    match Gathered(inputs, recursive, |inputs|)
    case Err(e) => Err(e)
    case Ok(files) => if |files| == 0 then Err("No audio files were found") else Ok(SortedUnique(files))
  }

  /**
   * What the playlist promises: it is never empty, strictly ascending,
   * holds only audio files and every audio file gathered; and with no
   * read error and no audio file the error names that.
   */
  lemma PlaylistProperties(inputs: seq<Input>, recursive: bool)
    ensures var r := Playlist(inputs, recursive);
      var g := Gathered(inputs, recursive, |inputs|);
      && (r.Ok? ==> |r.value| > 0 && StrictlySorted(r.value))
      && (r.Ok? ==> forall p :: p in r.value ==> IsAudioFile(p))
      && (r.Ok? ==> g.Ok? && forall p :: p in g.value <==> p in r.value)
      && (g.Ok? && |g.value| == 0 ==> r == Err("No audio files were found"))
      && (g.Err? ==> r == Err(g.error))
  {
  }

  /** The folders' listing is not read at all in recursive mode, so its error cannot surface. */
  lemma RecursiveIgnoresListing(display: string, e: string, walked: seq<Path>)
    ensures FromInput(DirInput(display, Err(e), walked), true) == Ok(AudioAmong(walked))
  {
  }

  /** `collect_playlist`: gather input by input and entry by entry, then sort, dedup and check. */
  method CollectPlaylist(inputs: seq<Input>, recursive: bool) returns (r: Result<seq<Path>, string>)
    ensures r == Playlist(inputs, recursive)
  {
    hide IsAudioFile, AudioAmong, SortedUnique, FromInput;
    var files: seq<Path> := [];
    for i := 0 to |inputs|
      invariant Gathered(inputs, recursive, i) == Ok(files)
    {
      var more := ReadInput(inputs[i], recursive);
      if more.Err? {
        assert Gathered(inputs, recursive, i + 1) == Err(more.error);
        GatheredKeepsError(inputs, recursive, i + 1, |inputs|);
        return Err(more.error);
      }
      assert Gathered(inputs, recursive, i + 1) == Ok(files + more.value);
      files := files + more.value;
    }
    if |files| == 0 {
      return Err("No audio files were found");
    }
    return Ok(SortedUnique(files));
  }

  /** One input of the gathering loop: a file, a folder (listed or walked), or neither. */
  method ReadInput(input: Input, recursive: bool) returns (r: Result<seq<Path>, string>)
    ensures r == FromInput(input, recursive)
  {
    hide IsAudioFile, AudioAmong;
    match input {
      case FileInput(p) =>
        r := Ok(if IsAudioFile(p) then [p] else []);
      case OtherInput =>
        r := Ok([]);
      case DirInput(display, listing, walked) =>
        var entries: seq<Path>;
        if recursive {
          entries := walked;
        } else {
          if listing.Err? {
            return Err("Failed to read directory: " + display);
          }
          entries := listing.value;
        }
        var found := KeepAudio(entries);
        r := Ok(found);
    }
  }

  /** The loop over one folder's entries: keep the audio files, in order. */
  method KeepAudio(entries: seq<Path>) returns (found: seq<Path>)
    ensures found == AudioAmong(entries)
  {
    found := [];
    for k := 0 to |entries|
      invariant found == AudioAmong(entries[..k])
    {
      assert entries[..k + 1] == entries[..k] + [entries[k]];
      AudioAmongAppend(entries[..k], entries[k]);
      if IsAudioFile(entries[k]) {
        found := found + [entries[k]];
      }
    }
    assert entries[..|entries|] == entries;
  }

  /** Filtering one more entry adds it at the end exactly when it is audio. */
  lemma {:induction false} AudioAmongAppend(s: seq<Path>, x: Path)
    ensures AudioAmong(s + [x]) == AudioAmong(s) + (if IsAudioFile(x) then [x] else [])
  {
    if |s| > 0 {
      assert (s + [x])[1..] == s[1..] + [x];
      AudioAmongAppend(s[1..], x);
    }
  }

  /** Once gathering has failed, later inputs do not change the error. */
  lemma {:induction false} GatheredKeepsError(inputs: seq<Input>, recursive: bool, i: nat, n: nat)
    requires i <= n <= |inputs|
    requires Gathered(inputs, recursive, i).Err?
    ensures Gathered(inputs, recursive, n) == Gathered(inputs, recursive, i)
    decreases n - i
  {
    if n > i {
      GatheredKeepsError(inputs, recursive, i, n - 1);
    }
  }

  // ---------------------------------------------------------------------
  // Commands

  datatype Cmd = PauseToggle | Next | Prev | VolUp | VolDown | Quit | Unknown(text: string)

  /** `parse_cmd`: the trimmed line is one of the six hotkeys, or else an unknown command carrying it. */
  function ParseCmd(s: string): (c: Cmd)
    ensures c.Unknown? ==> c.text == Trim(s) && Trim(s) !in ["p", "n", "b", "+", "-", "q"]
    ensures !c.Unknown? ==> Key(c) == Trim(s)
  {
    match Trim(s)
    case "p" => PauseToggle
    case "n" => Next
    case "b" => Prev
    case "+" => VolUp
    case "-" => VolDown
    case "q" => Quit
    case other => Unknown(other)
  }

  /** The hotkey that names a known command. */
  function Key(c: Cmd): string
    requires !c.Unknown?
  {
    match c
    case PauseToggle => "p"
    case Next => "n"
    case Prev => "b"
    case VolUp => "+"
    case VolDown => "-"
    case Quit => "q"
  }

  /** Each hotkey reads back as its command, with any whitespace around it. */
  lemma KeyRoundTrip(c: Cmd, before: string, after: string)
    requires !c.Unknown?
    requires forall k :: 0 <= k < |before| ==> IsSpace(before[k])
    requires forall k :: 0 <= k < |after| ==> IsSpace(after[k])
    ensures ParseCmd(before + Key(c) + after) == c
  {
    TrimAroundChar(before, Key(c)[0], after);
    assert [Key(c)[0]] == Key(c);
  }

  /** Whitespace around a single other character is all that trimming removes. */
  lemma TrimAroundChar(before: string, x: char, after: string)
    requires !IsSpace(x)
    requires forall k :: 0 <= k < |before| ==> IsSpace(before[k])
    requires forall k :: 0 <= k < |after| ==> IsSpace(after[k])
    ensures Trim(before + [x] + after) == [x]
  {
    var s := before + [x] + after;
    SkipSpaceOver(s, 0, |before|);
    var r := Trim(s);
    assert |r| > 0;
    assert r[0] == x;
  }

  /** `SkipSpace` passes over a run of whitespace and stops at the first other character. */
  lemma {:induction false} SkipSpaceOver(s: string, i: nat, j: nat)
    requires i <= j < |s|
    requires forall k :: i <= k < j ==> IsSpace(s[k])
    requires !IsSpace(s[j])
    ensures SkipSpace(s, i) == j
    decreases j - i
  {
    if i < j {
      SkipSpaceOver(s, i + 1, j);
    }
  }

  /** Surrounding whitespace never changes the command. */
  lemma ParseCmdTrims(s: string)
    ensures ParseCmd(Trim(s)) == ParseCmd(s)
  {
    TrimIdempotent(s);
  }

  // ---------------------------------------------------------------------
  // The player and the main loop

  /** What opening a decoder and a sink for a file meets. */
  datatype PlayIo = Opens | Fails(msg: string)

  /** The step the `+` and `-` keys make, clamped into `[0, 2]`. */
  const VOL_STEP: real := 0.1

  /** `Player`: the current sink, if any, and the volume. */
  class Player {
    var sink: Option<Playback.Sink>
    var volume: real

    /** `Player::new`: no sink, full volume. */
    constructor ()
      ensures sink.None? && volume == 1.0
    {
      sink := None;
      volume := 1.0;
    }

    /** `stop`: the sink is stopped and dropped. */
    method Stop()
      modifies this`sink
      ensures sink.None?
    {
      sink := None;
    }

    /**
     * `play_file`: on success a new, playing, non-empty sink replaces the
     * old one; a failure leaves the player as it was.
     */
    method PlayFile(io: PlayIo) returns (r: Result<(), string>)
      modifies this`sink
      ensures io.Opens? ==> sink == Some(Playback.Sink(false, false)) && r.Ok?
      ensures io.Fails? ==> sink == old(sink) && r == Err(io.msg)
    {
      match io
      case Fails(e) =>
        return Err(e);
      case Opens =>
        sink := Some(Playback.Sink(false, false));
        return Ok(());
    }

    /** `toggle_pause`: a paused sink plays, a playing one pauses; without a sink nothing happens. */
    method TogglePause()
      modifies this`sink
      ensures old(sink).None? ==> sink.None?
      ensures old(sink).Some? ==> sink == Some(old(sink).value.(paused := !old(sink).value.paused))
    {
      if sink.Some? {
        sink := Some(sink.value.(paused := !sink.value.paused));
      }
    }

    /** `set_volume`: clamped into `[0, 2]`. */
    method SetVolume(v: real)
      modifies this`volume
      ensures volume == Clamp(v, 0.0, 2.0)
    {
      volume := Clamp(v, 0.0, 2.0);
    }

    /** The audio thread plays the sink dry. */
    method RunDry()
      modifies this`sink
      ensures old(sink).None? ==> sink.None?
      ensures old(sink).Some? ==> sink == Some(old(sink).value.(empty := true))
    {
      if sink.Some? {
        sink := Some(sink.value.(empty := true));
      }
    }

    /** `is_playing`: there is a sink and it is not paused. */
    function IsPlaying(): (b: bool)
      reads this
      ensures b <==> sink.Some? && !sink.value.paused
    {
      match sink
      case None => false
      case Some(s) => !s.paused
    }

    /** `is_sink_empty`: there is no sink, or it has run dry. */
    function IsSinkEmpty(): (b: bool)
      reads this
      ensures b <==> sink.None? || sink.value.empty
    {
      match sink
      case None => true
      case Some(s) => s.empty
    }
  }

  /** The volume after a `+` (`up`) or `-` key: one step, clamped into `[0, 2]`. */
  function VolumeStep(v: real, up: bool): (r: real)
    ensures 0.0 <= r <= 2.0
    ensures up && v + VOL_STEP <= 2.0 && v >= -VOL_STEP ==> r == v + VOL_STEP
    ensures !up && v - VOL_STEP >= 0.0 && v <= 2.0 + VOL_STEP ==> r == v - VOL_STEP
  {
    Clamp(Clamp(if up then v + VOL_STEP else v - VOL_STEP, 0.0, 2.0), 0.0, 2.0)
  }

  /** Away from the ends, `-` undoes `+`; at the top `+` stays at 2, at the bottom `-` stays at 0. */
  lemma VolumeStepsUndo(v: real)
    ensures 0.0 <= v <= 2.0 - VOL_STEP ==> VolumeStep(VolumeStep(v, true), false) == v
    ensures VolumeStep(2.0, true) == 2.0 && VolumeStep(0.0, false) == 0.0
  {
  }

  /** The main loop's state as a value: the index, the player's sink and its volume. */
  datatype Loop = Loop(idx: nat, sink: Option<Playback.Sink>, volume: real)

  /** `play_file` on track `i`: the index moves there; a track that opens replaces the sink, an error leaves it. */
  function Played(s: Loop, i: nat, io: PlayIo): (r: Loop)
    ensures r.idx == i && r.volume == s.volume
    ensures io.Opens? ==> r.sink == Some(Playback.Sink(false, false))
    ensures io.Fails? ==> r.sink == s.sink
  {
    s.(idx := i, sink := if io.Opens? then Some(Playback.Sink(false, false)) else s.sink)
  }

  /**
   * What one command does to the loop's state over a playlist of `n`
   * tracks, `io` being what playing the new track meets.
   */
  function Command(cmd: Cmd, s: Loop, n: nat, io: PlayIo): (r: Loop)
    requires s.idx < n
    ensures r.idx < n
    ensures cmd.Next? ==> r.idx == Playback.NextIndex(s.idx, n)
    ensures cmd.Prev? ==> r.idx == Playback.PrevIndex(s.idx, n)
    ensures !cmd.Next? && !cmd.Prev? ==> r.idx == s.idx
    ensures (cmd.Next? || cmd.Prev?) && io.Opens? ==> r.sink == Some(Playback.Sink(false, false))
    ensures (cmd.Next? || cmd.Prev?) && io.Fails? ==> r.sink.None?
    ensures cmd.PauseToggle? && s.sink.None? ==> r.sink.None?
    ensures cmd.PauseToggle? && s.sink.Some? ==> r.sink == Some(s.sink.value.(paused := !s.sink.value.paused))
    ensures cmd.Quit? || cmd.Unknown? || cmd.VolUp? || cmd.VolDown? ==> r.sink == s.sink
    ensures cmd.VolUp? ==> r.volume == VolumeStep(s.volume, true)
    ensures cmd.VolDown? ==> r.volume == VolumeStep(s.volume, false)
    ensures !cmd.VolUp? && !cmd.VolDown? ==> r.volume == s.volume
  {
    match cmd
    case PauseToggle =>
      s.(sink := if s.sink.Some? then Some(s.sink.value.(paused := !s.sink.value.paused)) else None)
    case Next => Played(s.(sink := None), Playback.NextIndex(s.idx, n), io)
    case Prev => Played(s.(sink := None), Playback.PrevIndex(s.idx, n), io)
    case VolUp => s.(volume := Clamp(Clamp(s.volume + VOL_STEP, 0.0, 2.0), 0.0, 2.0))
    case VolDown => s.(volume := Clamp(Clamp(s.volume - VOL_STEP, 0.0, 2.0), 0.0, 2.0))
    case Quit => s
    case Unknown(_) => s
  }

  /** No sink, or a sink run dry. */
  predicate SinkEmpty(sink: Option<Playback.Sink>)
  {
    sink.None? || sink.value.empty
  }

  /** The end of a pass: an empty sink moves on to the next track and plays it. */
  function Advance(s: Loop, n: nat, io: PlayIo): (r: Loop)
    requires s.idx < n
    ensures r.idx < n && r.volume == s.volume
    ensures SinkEmpty(s.sink) ==> r.idx == Playback.NextIndex(s.idx, n)
    ensures SinkEmpty(s.sink) && io.Opens? ==> r.sink == Some(Playback.Sink(false, false))
    ensures SinkEmpty(s.sink) && io.Fails? ==> r.sink == s.sink
    ensures !SinkEmpty(s.sink) ==> r == s
  {
    if SinkEmpty(s.sink) then Played(s, Playback.NextIndex(s.idx, n), io) else s
  }

  /** One pass that does not quit: the command, if one arrived, then the empty-sink check. */
  function PassStep(cmd: Option<Cmd>, s: Loop, n: nat, ioCmd: PlayIo, ioNext: PlayIo): (r: Loop)
    requires s.idx < n
    ensures r.idx < n
    ensures r == Advance(if cmd.Some? then Command(cmd.value, s, n, ioCmd) else s, n, ioNext)
  {
    var t := if cmd.Some? then Command(cmd.value, s, n, ioCmd) else s;
    Advance(t, n, ioNext)
  }

  /**
   * A track that opens is never skipped by the same pass: after `n` or
   * `b` plays, the empty-sink check leaves it alone.
   */
  lemma OpenedTrackNotSkipped(cmd: Cmd, s: Loop, n: nat, ioCmd: PlayIo, ioNext: PlayIo)
    requires s.idx < n && (cmd.Next? || cmd.Prev?) && ioCmd.Opens?
    ensures PassStep(Some(cmd), s, n, ioCmd, ioNext) == Command(cmd, s, n, ioCmd)
    ensures cmd.Next? ==> PassStep(Some(cmd), s, n, ioCmd, ioNext).idx == Playback.NextIndex(s.idx, n)
  {
    var t := Command(cmd, s, n, ioCmd);
    assert !SinkEmpty(t.sink);
  }

  /**
   * A failing `n` leaves no sink, so the same pass moves on once more:
   * two tracks forward, when the next one opens.
   */
  lemma FailedNextSkipsAgain(s: Loop, n: nat, ioNext: PlayIo)
    requires s.idx < n
    ensures PassStep(Some(Next), s, n, Fails(""), ioNext).idx
         == Playback.NextIndex(Playback.NextIndex(s.idx, n), n)
  {
    var t := Command(Next, s, n, Fails(""));
    assert SinkEmpty(t.sink);
  }

  /** The state of the main loop: the playlist, the index into it, and the player. */
  class Session {
    const playlist: seq<Path>
    var idx: nat
    const player: Player

    /** The index points into the non-empty playlist and the volume is in range. */
    ghost predicate Valid()
      reads this, player
    {
      0 < |playlist| && idx < |playlist| && 0.0 <= player.volume <= 2.0
    }

    /** The loop's state as a value. */
    function State(): (s: Loop)
      reads this, player
      ensures s.idx == idx && s.sink == player.sink && s.volume == player.volume
    {
      Loop(idx, player.sink, player.volume)
    }

    /** Before the loop: a new player on the first track of a non-empty playlist. */
    constructor (files: seq<Path>)
      requires |files| > 0
      ensures playlist == files && idx == 0 && fresh(player)
      ensures player.sink.None? && player.volume == 1.0
      ensures Valid()
    {
      playlist := files;
      idx := 0;
      player := new Player();
    }

    /**
     * The first `play_file`, before the loop: the first track plays, or
     * its error is returned and ends the program.
     */
    method Start(io: PlayIo) returns (r: Result<(), string>)
      requires Valid()
      modifies player`sink
      ensures Valid() && idx == old(idx)
      ensures io.Opens? ==> r.Ok? && player.sink == Some(Playback.Sink(false, false))
      ensures io.Fails? ==> r == Err(io.msg) && player.sink == old(player.sink)
    {
      r := player.PlayFile(io);
    }

    /** Moving to `i` and playing it; a playback error is reported and the loop goes on. */
    method PlayAt(i: nat, io: PlayIo)
      requires Valid() && i < |playlist|
      modifies this`idx, player`sink
      ensures Valid()
      ensures State() == Played(old(State()), i, io)
    {
      idx := i;
      var _ := player.PlayFile(io);
    }

    /**
     * One command of the main loop. `n` and `b` stop the sink and play the
     * next or previous track, wrapping around; `+` and `-` step the volume;
     * `q` ends the loop; `p` toggles pause; anything else changes nothing.
     */
    method Handle(cmd: Cmd, io: PlayIo) returns (quit: bool)
      requires Valid()
      modifies this`idx, player`sink, player`volume
      ensures Valid()
      ensures quit <==> cmd.Quit?
      ensures State() == Command(cmd, old(State()), |playlist|, io)
    {
      quit := false;
      match cmd
      case PauseToggle =>
        player.TogglePause();
      case Next =>
        player.Stop();
        PlayAt(Playback.NextIndex(idx, |playlist|), io);
      case Prev =>
        player.Stop();
        PlayAt(Playback.PrevIndex(idx, |playlist|), io);
      case VolUp =>
        player.SetVolume(Clamp(player.volume + VOL_STEP, 0.0, 2.0));
      case VolDown =>
        player.SetVolume(Clamp(player.volume - VOL_STEP, 0.0, 2.0));
      case Quit =>
        quit := true;
      case Unknown(_) =>
    }

    /**
     * The end of each pass of the main loop: when the sink is gone or has
     * run dry, move on to the next track (wrapping around) and play it.
     */
    method AutoAdvance(io: PlayIo)
      requires Valid()
      modifies this`idx, player`sink
      ensures Valid()
      ensures State() == Advance(old(State()), |playlist|, io)
      ensures old(player.IsSinkEmpty()) && io.Opens? ==> !player.IsSinkEmpty() && player.IsPlaying()
    {
      if player.IsSinkEmpty() {
        PlayAt(Playback.NextIndex(idx, |playlist|), io);
      }
    }

    /** One pass of the main loop: the command that arrived within the timeout, if any, then the empty-sink check. */
    method Pass(cmd: Option<Cmd>, ioCmd: PlayIo, ioNext: PlayIo) returns (quit: bool)
      requires Valid()
      modifies this`idx, player`sink, player`volume
      ensures Valid()
      ensures quit <==> cmd == Some(Quit)
      ensures quit ==> State() == old(State())
      ensures !quit ==> State() == PassStep(cmd, old(State()), |playlist|, ioCmd, ioNext)
    {
      quit := false;
      if cmd.Some? {
        quit := Handle(cmd.value, ioCmd);
        if quit {
          return;
        }
      }
      AutoAdvance(ioNext);
    }
  }
}
