/** File helpers (src/util/fs.rs): which files count as audio, and the home directory. */
module FsUtil {
  import opened Wrappers
  import opened Chars
  import opened Paths

  /** The extensions the library accepts, compared ignoring ASCII case. */
  const AUDIO_EXTENSIONS: seq<string> :=
    ["mp3", "flac", "ogg", "opus", "wav", "aiff", "aif", "alac", "m4a", "m4b", "mp4", "aac", "webm"]

  /** `is_audio_file`: the final extension is one of the thirteen audio extensions. */
  function IsAudioFile(p: Path): (r: bool)
    ensures r <==> Extension(p).Some? && LowerAscii(Extension(p).value) in AUDIO_EXTENSIONS
  {
    match Extension(p)
    case None => false
    case Some(ext) =>
      AnyIgnoringCaseLowered(ext, AUDIO_EXTENSIONS);
      AnyIgnoringCase(ext, AUDIO_EXTENSIONS)
  }

  /** Only the last extension counts: `a.mp3.txt` is not audio. */
  lemma FinalExtensionOnly()
    ensures !IsAudioFile([Normal("a.mp3.txt")])
  {
    hide Extension, LowerAscii;
    TxtExtension();
    assert "txt" !in AUDIO_EXTENSIONS;
  }

  /** The extension of `a.mp3.txt` is `txt`, already lower-case. */
  lemma TxtExtension()
    ensures Extension([Normal("a.mp3.txt")]) == Some("txt")
    ensures LowerAscii("txt") == "txt"
  {
    LastDotOf("a.mp3", "txt");
    assert "a.mp3" + "." + "txt" == "a.mp3.txt";
    assert SplitAtDot("a.mp3.txt").1 == Some("txt");
  }

  /** Case does not matter, and earlier dots do not either: `a.txt.MP3` is audio. */
  lemma UpperCaseExtension()
    ensures IsAudioFile([Normal("a.txt.MP3")])
  {
    LastDotOf("a.txt", "MP3");
    assert "a.txt" + "." + "MP3" == "a.txt.MP3";
    assert SplitAtDot("a.txt.MP3").1 == Some("MP3");
    assert LowerAscii("MP3") == "mp3";
  }

  /** A file without an extension, or a dot-file such as `.flac`, is never audio. */
  lemma NoExtensionNoAudio(p: Path)
    requires Extension(p).None?
    ensures !IsAudioFile(p)
  {
  }

  /** `home_dir`: `$HOME`, or the root when it is unset. */
  function HomeDir(home: Option<string>): (r: string)
    ensures home.Some? ==> r == home.value
    ensures home.None? ==> r == "/"
  {
    home.UnwrapOr("/")
  }
}
