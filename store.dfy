/** The application-private file area as a map from file name to file content, and what
    reading and writing the two kinds of file do to it: one `<playlist name>.json` per
    playlist holding its songs, and `playlists.json` holding the playlist index. */
module Store {
  import opened Wrappers
  import opened DataClasses

  /** The file name of the playlist index. */
  const IndexKey: string := "playlists.json"

  /** The file name suffix of every stored list. */
  const Extension: string := ".json"

  /** `"$playlistName.json"`, the file that holds a playlist's songs. */
  function SongsKey(playlistName: string): string {
    playlistName + Extension
  }

  /** What a file holds: the JSON array written for a song list or for the index. JSON
      text is not modelled; the written records are kept as they are. */
  datatype Content = SongList(songs: seq<Song>) | PlaylistList(playlists: seq<Playlist>)

  type Files = map<string, Content>

  /** `n` songs with null fields. */
  function BlankSongs(n: nat): (r: seq<Song>)
    ensures |r| == n && forall k :: 0 <= k < n ==> r[k] == BlankSong
  {
    seq(n, _ => BlankSong)
  }

  /** `n` playlists with null fields. */
  function BlankPlaylists(n: nat): (r: seq<Playlist>)
    ensures |r| == n && forall k :: 0 <= k < n ==> r[k] == BlankPlaylist
  {
    seq(n, _ => BlankPlaylist)
  }

  /** `gson.fromJson(text, Array<Song>)`: a song list reads back as itself. The records of an
      index share no field name with `Song`, and Gson skips unknown fields, so each of them
      reads as a blank song. */
  function DecodeSongs(c: Content): (r: seq<Song>)
    ensures c.SongList? ==> r == c.songs
    ensures c.PlaylistList? ==> r == BlankSongs(|c.playlists|)
  {
    match c
    case SongList(songs) => songs
    case PlaylistList(playlists) => BlankSongs(|playlists|)
  }

  /** `gson.fromJson(json, List<Playlist>)`: an index reads back as itself, and each record of
      a song list reads as a blank playlist. */
  function DecodeIndex(c: Content): (r: seq<Playlist>)
    ensures c.PlaylistList? ==> r == c.playlists
    ensures c.SongList? ==> r == BlankPlaylists(|c.songs|)
  {
    match c
    case PlaylistList(playlists) => playlists
    case SongList(songs) => BlankPlaylists(|songs|)
  }

  /** `readFromJson`: the songs stored for `playlistName`. A name whose file was never
      written fails with `NotFound` and does not read as an empty list. */
  function ReadSongs(files: Files, playlistName: string): (r: Result<seq<Song>, ApiError>)
    ensures r.Failure? <==> SongsKey(playlistName) !in files
    ensures r.Failure? ==> r.error == NotFound
    ensures SongsKey(playlistName) in files && files[SongsKey(playlistName)].SongList? ==>
      r == Success(files[SongsKey(playlistName)].songs)
  {
    var key := SongsKey(playlistName);
    if key in files then Success(DecodeSongs(files[key])) else Failure(NotFound)
  }

  /** Lines 108-112 of `savePlaylistToJson`: the current index, empty when its file does not exist. */
  function LoadIndex(files: Files): (r: seq<Playlist>)
    ensures IndexKey !in files ==> r == []
    ensures IndexKey in files && files[IndexKey].PlaylistList? ==> r == files[IndexKey].playlists
    ensures IndexKey in files && files[IndexKey].SongList? ==> r == BlankPlaylists(|files[IndexKey].songs|)
  {
    if IndexKey in files then DecodeIndex(files[IndexKey]) else []
  }

  /** The index after the `contains` check and `add`: unchanged when `p` is already there,
      otherwise `p` appended at the end. */
  function Upsert(index: seq<Playlist>, p: Playlist): seq<Playlist> {
    if p in index then index else index + [p]
  }

  /** No playlist occurs twice in the index. */
  ghost predicate NoDuplicates(index: seq<Playlist>) {
    forall i, j :: 0 <= i < j < |index| ==> index[i] != index[j]
  }

  /** `savePlaylistToJson(p)` as a change of the file map: the index file is rewritten with
      `p` appended, unless the current index already contains a structurally equal entry. */
  function SavedPlaylist(files: Files, p: Playlist): Files
  {
    var index := LoadIndex(files);
    if p in index then files else files[IndexKey := PlaylistList(index + [p])]
  }

  // ---- Keys ----

  /** Distinct playlist names use distinct song files. */
  lemma SongsKeyInjective(a: string, b: string)
    requires SongsKey(a) == SongsKey(b)
    ensures a == b
  {
    assert a == SongsKey(a)[..|a|];
    assert b == SongsKey(b)[..|b|];
  }

  /** The one name whose song file is the index file: `"playlists"`. */
  lemma SongsKeyIsIndexKey(playlistName: string)
    ensures SongsKey(playlistName) == IndexKey <==> playlistName == "playlists"
  {
    if SongsKey(playlistName) == IndexKey {
      assert "playlists" + Extension == IndexKey;
      SongsKeyInjective(playlistName, "playlists");
    }
  }

  // ---- Songs ----

  /** Reading a playlist's songs right after saving them returns exactly the saved list. */
  lemma SaveThenRead(files: Files, songs: seq<Song>, playlistName: string)
    ensures ReadSongs(files[SongsKey(playlistName) := SongList(songs)], playlistName) == Success(songs)
  {
  }

  /** Saving the songs of one playlist leaves what every other name reads unchanged. */
  lemma SaveKeepsOtherSongs(files: Files, songs: seq<Song>, playlistName: string, other: string)
    requires other != playlistName
    ensures ReadSongs(files[SongsKey(playlistName) := SongList(songs)], other) == ReadSongs(files, other)
  {
    if SongsKey(other) == SongsKey(playlistName) {
      SongsKeyInjective(other, playlistName);
    }
  }

  /** Saving the songs of any playlist not named `"playlists"` leaves the index as it was. */
  lemma SaveKeepsIndex(files: Files, songs: seq<Song>, playlistName: string)
    requires playlistName != "playlists"
    ensures LoadIndex(files[SongsKey(playlistName) := SongList(songs)]) == LoadIndex(files)
  {
    SongsKeyIsIndexKey(playlistName);
  }

  /** Saving the songs of a playlist named `"playlists"` overwrites the index file; the index
      then reads as one blank playlist per song, whatever it held before. */
  lemma SaveClobbersIndex(files: Files, songs: seq<Song>)
    ensures var after := files[SongsKey("playlists") := SongList(songs)];
      IndexKey in after && after[IndexKey] == SongList(songs) && LoadIndex(after) == BlankPlaylists(|songs|)
  {
    SongsKeyIsIndexKey("playlists");
  }

  /** The songs of a playlist `p` named `"playlists"` saved first and `p` upserted second:
      the index holds one blank playlist per song followed by `p`, and reading the songs
      back gives blank songs, one per index entry. */
  lemma SaveAsIndexThenUpsert(files: Files, songs: seq<Song>, p: Playlist)
    requires p.Playlist?
    ensures var after := SavedPlaylist(files[SongsKey("playlists") := SongList(songs)], p);
      && LoadIndex(after) == BlankPlaylists(|songs|) + [p]
      && ReadSongs(after, "playlists") == Success(BlankSongs(|songs| + 1))
  {
    var withSongs := files[SongsKey("playlists") := SongList(songs)];
    SaveClobbersIndex(files, songs);
    assert p !in BlankPlaylists(|songs|);
    var after := SavedPlaylist(withSongs, p);
    assert after == withSongs[IndexKey := PlaylistList(BlankPlaylists(|songs|) + [p])];
    SongsKeyIsIndexKey("playlists");
    assert ReadSongs(after, "playlists") == Success(DecodeSongs(after[IndexKey]));
  }

  // ---- Index ----

  /** After an upsert the playlist is in the index, every earlier entry keeps its place,
      and the index grew by exactly one entry precisely when the playlist was new. */
  lemma UpsertShape(index: seq<Playlist>, p: Playlist)
    ensures var r := Upsert(index, p);
      && p in r
      && |index| <= |r| && r[..|index|] == index
      && (p in index ==> r == index)
      && (p !in index ==> |r| == |index| + 1 && r[|index|] == p)
  {
    var r := Upsert(index, p);
    if p !in index {
      assert r[..|index|] == index;
    }
  }

  /** Upserting twice is upserting once. */
  lemma UpsertIdempotent(index: seq<Playlist>, p: Playlist)
    ensures Upsert(Upsert(index, p), p) == Upsert(index, p)
  {
    UpsertShape(index, p);
  }

  /** An index without duplicates stays without duplicates. */
  lemma UpsertKeepsNoDuplicates(index: seq<Playlist>, p: Playlist)
    requires NoDuplicates(index)
    ensures NoDuplicates(Upsert(index, p))
  {
    var r := Upsert(index, p);
    if p !in index {
      forall i, j | 0 <= i < j < |r| ensures r[i] != r[j] {
        if j == |index| {
          assert r[i] == index[i];
        }
      }
    }
  }

  /** Two or more blank playlists are duplicates of each other. */
  lemma BlanksAreDuplicates(n: nat, rest: seq<Playlist>)
    requires n >= 2
    ensures !NoDuplicates(BlankPlaylists(n) + rest)
  {
    var s := BlankPlaylists(n) + rest;
    assert s[0] == s[1];
  }

  /** `savePlaylistToJson` stores the upserted index and changes no other file. */
  lemma SavedPlaylistEffect(files: Files, p: Playlist)
    ensures LoadIndex(SavedPlaylist(files, p)) == Upsert(LoadIndex(files), p)
    ensures forall k :: k != IndexKey ==>
      (k in SavedPlaylist(files, p) <==> k in files) &&
      (k in files ==> SavedPlaylist(files, p)[k] == files[k])
  {
  }

  /** Saving a playlist twice leaves the files as saving it once. */
  lemma SavedPlaylistIdempotent(files: Files, p: Playlist)
    ensures SavedPlaylist(SavedPlaylist(files, p), p) == SavedPlaylist(files, p)
  {
    var index := LoadIndex(files);
    if p !in index {
      assert LoadIndex(SavedPlaylist(files, p)) == index + [p];
      assert p in index + [p];
    }
  }

  /** Saving a playlist's songs and upserting it, done twice with the same songs, leaves the
      files as doing it once, whether or not the song file is the index file. */
  lemma SaveAndUpsertTwiceIsOnce(files: Files, songs: seq<Song>, p: Playlist)
    requires p.Playlist?
    ensures var key := SongsKey(p.name);
      var once := SavedPlaylist(files[key := SongList(songs)], p);
      SavedPlaylist(once[key := SongList(songs)], p) == once
  {
    var key := SongsKey(p.name);
    var withSongs := files[key := SongList(songs)];
    var once := SavedPlaylist(withSongs, p);
    SongsKeyIsIndexKey(p.name);
    if p.name == "playlists" {
      SaveAsIndexThenUpsert(files, songs, p);
      assert once[key := SongList(songs)] == withSongs;
    } else {
      SavedPlaylistEffect(withSongs, p);
      assert once[key := SongList(songs)] == once;
      SavedPlaylistIdempotent(withSongs, p);
    }
  }

  /** The stored index never acquires a duplicate through `savePlaylistToJson`. */
  lemma SavedPlaylistKeepsNoDuplicates(files: Files, p: Playlist)
    requires NoDuplicates(LoadIndex(files))
    ensures NoDuplicates(LoadIndex(SavedPlaylist(files, p)))
  {
    SavedPlaylistEffect(files, p);
    UpsertKeepsNoDuplicates(LoadIndex(files), p);
  }
}
