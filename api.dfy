/** The `SpotifyAPI` object: its file area is the state it changes, and its operations
    fetch-and-save a playlist, save and read song lists, upsert the index and sample songs. */
module Api {
  import opened Wrappers
  import opened DataClasses
  import opened PlaylistId
  import opened Normalisation
  import opened Sampler
  import opened Store

  /** What the token request and the catalog request give for a playlist identifier: the
      decoded response body (`null` decodes to `None`), or an `IOException` of either request. */
  datatype CatalogReply = RequestFailed | Body(response: Option<SpotifyResponse>)

  type Catalog = string -> CatalogReply

  /** `getPlaylistTracks(url)` as a change of the file map, with its outcome: the songs are
      saved under the (possibly defaulted) playlist name first, and the playlist is upserted
      into the index second. An unmatched reference or a failed request fails before any
      write; nothing else fails. */
  function Imported(files: Files, url: string, catalog: Catalog): (r: (Files, Outcome<ApiError>))
    ensures UrlToId(url).Failure? ==> r == (files, Fail(InvalidReference))
    ensures UrlToId(url).Success? && catalog(UrlToId(url).value).RequestFailed? ==>
      r == (files, Fail(CatalogError))
    ensures r.1 == Pass <==> UrlToId(url).Success? && catalog(UrlToId(url).value).Body?
  {
    match UrlToId(url)
    case Failure(e) => (files, Fail(e))
    case Success(id) =>
      match catalog(id)
      case RequestFailed => (files, Fail(CatalogError))
      case Body(resp) =>
        var (playlist, songs) := Normalise(resp);
        var withSongs := files[SongsKey(playlist.name) := SongList(songs)];
        (SavedPlaylist(withSongs, playlist), Pass)
  }

  class SpotifyApi {
    /** The application-private file area, keyed by file name. */
    var files: Files

    constructor (initial: Files)
      ensures files == initial
    {
      files := initial;
    }

    /** `saveSongsToJson`: overwrites the playlist's song file wholesale; no other file changes. */
    method SaveSongsToJson(songs: seq<Song>, playlistName: string)
      modifies this
      ensures files == old(files)[SongsKey(playlistName) := SongList(songs)]
    {
      files := files[SongsKey(playlistName) := SongList(songs)];
    }

    /** `readFromJson`: `openFileInput` fails on a missing file, otherwise the content is
        decoded. This is the read `Store.ReadSongs` specifies on the file map. */
    method ReadFromJson(playlistName: string) returns (r: Result<seq<Song>, ApiError>)
      ensures r == ReadSongs(files, playlistName)
    {
      var key := SongsKey(playlistName);
      if key !in files {
        return Failure(NotFound);
      }
      r := Success(DecodeSongs(files[key]));
    }

    /** `savePlaylistToJson`: loads the index (empty if its file is absent), returns early
        when it already contains `playlist`, and otherwise appends it and rewrites the file. */
    method SavePlaylistToJson(playlist: Playlist)
      modifies this
      ensures files == SavedPlaylist(old(files), playlist)
    {
      var playlists: seq<Playlist>;
      if IndexKey in files {
        playlists := DecodeIndex(files[IndexKey]);
      } else {
        playlists := [];
      }
      if playlist in playlists {
        return;
      }
      playlists := playlists + [playlist];
      files := files[IndexKey := PlaylistList(playlists)];
    }

    /** `getTracksToPlay`: the stored songs of `playlistName`, or the failure of reading them;
        from the songs, a prefix of some permutation (`shuffled()`), of length
        `min(amount, number of songs)`. */
    method GetTracksToPlay(playlistName: string, amount: nat := DefaultAmount)
      returns (r: Result<seq<Song>, ApiError>)
      ensures ReadSongs(files, playlistName).Failure? ==> r == ReadSongs(files, playlistName)
      ensures ReadSongs(files, playlistName).Success? ==>
        var tracks := ReadSongs(files, playlistName).value;
        && r.Success?
        && |r.value| == ClampedAmount(amount, |tracks|)
        && multiset(r.value) <= multiset(tracks)
        && (amount >= |tracks| ==> IsPermutationOf(r.value, tracks))
        && exists shuffled :: IsPermutationOf(shuffled, tracks) && r.value == Sample(tracks, amount, shuffled)
    {
      var read := ReadFromJson(playlistName);
      if read.Failure? {
        return read;
      }
      var tracks := read.value;
      assert IsPermutationOf(tracks, tracks);
      var shuffled: seq<Song> :| IsPermutationOf(shuffled, tracks);
      var sample := Sample(tracks, amount, shuffled);
      r := Success(sample);
    }

    /** `getPlaylistTracks`: extracts the identifier, requests the playlist, normalises the
        response, saves its songs and then upserts the playlist into the index. */
    method GetPlaylistTracks(url: string, catalog: Catalog) returns (out: Outcome<ApiError>)
      modifies this
      ensures (files, out) == Imported(old(files), url, catalog)
    {
      var id := UrlToId(url);
      if id.Failure? {
        return Fail(id.error);
      }
      var reply := catalog(id.value);
      if reply.RequestFailed? {
        return Fail(CatalogError);
      }
      var (playlist, songs) := Normalise(reply.response);
      SaveSongsToJson(songs, playlist.name);
      SavePlaylistToJson(playlist);
      out := Pass;
    }
  }

  // ---- What getPlaylistTracks leaves behind ----

  /** For a playlist not named `"playlists"`, a successful fetch leaves its songs readable
      under its name, the playlist upserted into the index, and the songs of every other
      playlist as they were (except those read under `"playlists"`, whose file is the index). */
  lemma ImportedPersists(files: Files, url: string, catalog: Catalog)
    requires UrlToId(url).Success? && catalog(UrlToId(url).value).Body?
    requires Normalise(catalog(UrlToId(url).value).response).0.name != "playlists"
    ensures var (playlist, songs) := Normalise(catalog(UrlToId(url).value).response);
      var (after, out) := Imported(files, url, catalog);
      && out == Pass
      && ReadSongs(after, playlist.name) == Success(songs)
      && LoadIndex(after) == Upsert(LoadIndex(files), playlist)
      && (forall other :: other != playlist.name && other != "playlists" ==>
            ReadSongs(after, other) == ReadSongs(files, other))
  {
    var (playlist, songs) := Normalise(catalog(UrlToId(url).value).response);
    var withSongs := files[SongsKey(playlist.name) := SongList(songs)];
    SaveKeepsIndex(files, songs, playlist.name);
    SavedPlaylistEffect(withSongs, playlist);
    var after := SavedPlaylist(withSongs, playlist);
    SongsKeyIsIndexKey(playlist.name);
    assert ReadSongs(after, playlist.name) == Success(songs);
    forall other | other != playlist.name && other != "playlists"
      ensures ReadSongs(after, other) == ReadSongs(files, other)
    {
      SaveKeepsOtherSongs(files, songs, playlist.name, other);
      SongsKeyIsIndexKey(other);
    }
  }

  /** The aliasing of keys: a playlist named `"playlists"` has its songs written to the index
      file. The upsert then reads one blank playlist per song, appends the playlist and
      rewrites the file, and the call succeeds. Whatever the index held before is gone; with
      two or more songs the index holds duplicates; and the songs read back as blanks. */
  lemma ImportedPlaylistsNameClobbersIndex(files: Files, url: string, catalog: Catalog)
    requires UrlToId(url).Success? && catalog(UrlToId(url).value).Body?
    requires Normalise(catalog(UrlToId(url).value).response).0.name == "playlists"
    ensures var (playlist, songs) := Normalise(catalog(UrlToId(url).value).response);
      var (after, out) := Imported(files, url, catalog);
      && out == Pass
      && LoadIndex(after) == BlankPlaylists(|songs|) + [playlist]
      && ReadSongs(after, playlist.name) == Success(BlankSongs(|songs| + 1))
      && (|songs| >= 2 ==> !NoDuplicates(LoadIndex(after)))
  {
    var (playlist, songs) := Normalise(catalog(UrlToId(url).value).response);
    SaveAsIndexThenUpsert(files, songs, playlist);
    if |songs| >= 2 {
      BlanksAreDuplicates(|songs|, [playlist]);
    }
  }

  /** Fetching the same playlist twice leaves the same files, with the same outcome, as
      fetching it once, when both fetches get the same reply from the catalog. */
  lemma ImportedTwiceIsOnce(files: Files, url: string, catalog: Catalog)
    ensures Imported(Imported(files, url, catalog).0, url, catalog) == Imported(files, url, catalog)
  {
    if UrlToId(url).Success? && catalog(UrlToId(url).value).Body? {
      var (playlist, songs) := Normalise(catalog(UrlToId(url).value).response);
      SaveAndUpsertTwiceIsOnce(files, songs, playlist);
    }
  }
}
