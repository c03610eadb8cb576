/**
 * The backend's playlist record and its builder
 * (backend/app/models/playlist.py), over any type of track.
 */
module Playlists {
  import opened Wrappers

  /** The name a builder starts with ("untitled"). */
  const DEFAULT_NAME := "Без названия"

  /** `Playlist`. */
  class Playlist<T> {
    var name: string
    var tracks: seq<T>
    var ownerId: Option<int>
    var id: Option<int>

    /** `Playlist.__init__`: the name and owner given, no tracks, no id. */
    constructor (name: string, ownerId: Option<int>)
      ensures this.name == name && this.ownerId == ownerId
      ensures tracks == [] && id.None?
    {
      this.name := name;
      this.ownerId := ownerId;
      this.tracks := [];
      this.id := None;
    }

    /** `add_track`: append at the end. */
    method AddTrack(t: T)
      modifies this`tracks
      ensures tracks == old(tracks) + [t]
    {
      tracks := tracks + [t];
    }
  }

  /** `PlaylistBuilder`. */
  class PlaylistBuilder<T> {
    var name: string
    var tracks: seq<T>
    var ownerId: Option<int>

    /** A new builder: the default name, no tracks, no owner. */
    constructor ()
      ensures name == DEFAULT_NAME && tracks == [] && ownerId.None?
    {
      name := DEFAULT_NAME;
      tracks := [];
      ownerId := None;
    }

    method SetName(v: string)
      modifies this`name
      ensures name == v
    {
      name := v;
    }

    method SetOwner(v: int)
      modifies this`ownerId
      ensures ownerId == Some(v)
    {
      ownerId := Some(v);
    }

    /** `add_track`: append at the end. */
    method AddTrack(t: T)
      modifies this`tracks
      ensures tracks == old(tracks) + [t]
    {
      tracks := tracks + [t];
    }

    /**
     * `build`: a new playlist with this name and owner and, copied one by
     * one, these tracks in this order; the builder is unchanged.
     */
    method Build() returns (p: Playlist<T>)
      ensures fresh(p)
      ensures p.name == name && p.ownerId == ownerId && p.id.None?
      ensures p.tracks == tracks
    {
      p := new Playlist(name, ownerId);
      for i := 0 to |tracks|
        invariant fresh(p)
        invariant p.name == name && p.ownerId == ownerId && p.id.None?
        invariant p.tracks == tracks[..i]
      {
        assert tracks[..i + 1] == tracks[..i] + [tracks[i]];
        p.AddTrack(tracks[i]);
      }
      assert tracks[..|tracks|] == tracks;
    }
  }

  /** A built playlist keeps its tracks when the builder gets more afterwards. */
  method BuiltIsIndependent<T>(b: PlaylistBuilder<T>, t: T) returns (p: Playlist<T>)
    modifies b`tracks
    ensures p.tracks == old(b.tracks)
    ensures b.tracks == old(b.tracks) + [t]
  {
    p := b.Build();
    b.AddTrack(t);
  }

  /** `test_playlist_builder_creates_empty_playlist`: a named build has that name and no tracks. */
  method TestEmptyPlaylist<T>() returns (p: Playlist<T>)
    ensures p.name == "Favorites" && |p.tracks| == 0
  {
    var b := new PlaylistBuilder<T>();
    b.SetName("Favorites");
    p := b.Build();
  }

  /** `test_adding_tracks_to_playlist`: two tracks added to a built playlist are both in it. */
  method TestAddingTracks<T(==)>(t1: T, t2: T) returns (p: Playlist<T>)
    ensures |p.tracks| == 2 && t1 in p.tracks && t2 in p.tracks
  {
    var b := new PlaylistBuilder<T>();
    b.SetName("Favorites");
    p := b.Build();
    p.AddTrack(t1);
    p.AddTrack(t2);
  }
}
