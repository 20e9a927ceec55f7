/** The pure middle of `getPlaylistTracks`: a decoded catalog response becomes the
    application's `Playlist` and its list of `Song`s. */
module Normalisation {
  import opened Wrappers
  import opened DataClasses

  /** Name used when the response carries none. */
  const DefaultName: string := "playlist"
  /** Cover used when the response has no image. */
  const PlaceholderImage: string := "https://via.placeholder.com/150"
  /** Separator between artist names. */
  const ArtistSeparator: string := ", "

  /** Kotlin's `joinToString(sep)`: the elements with `sep` between neighbours. */
  function Join(xs: seq<string>, sep: string): string
    decreases |xs|
  {
    if |xs| == 0 then ""
    else if |xs| == 1 then xs[0]
    else xs[0] + sep + Join(xs[1..], sep)
  }

  /** Total length of the elements. */
  function TotalLength(xs: seq<string>): nat
    decreases |xs|
  {
    if xs == [] then 0 else |xs[0]| + TotalLength(xs[1..])
  }

  /** The joined string is the elements plus exactly one separator between each pair. */
  lemma {:induction false} JoinLength(xs: seq<string>, sep: string)
    requires xs != []
    ensures |Join(xs, sep)| == TotalLength(xs) + (|xs| - 1) * |sep|
    decreases |xs|
  {
    if |xs| > 1 {
      JoinLength(xs[1..], sep);
    }
  }

  /** No leading or trailing separator: the result starts with the first element and ends
      with the last. */
  lemma {:induction false} JoinEnds(xs: seq<string>, sep: string)
    requires xs != []
    ensures xs[0] <= Join(xs, sep)
    ensures var j := Join(xs, sep); var last := xs[|xs| - 1];
      |last| <= |j| && j[|j| - |last|..] == last
    decreases |xs|
  {
    if |xs| > 1 {
      JoinEnds(xs[1..], sep);
      var j := Join(xs, sep);
      var t := Join(xs[1..], sep);
      var last := xs[|xs| - 1];
      assert j == (xs[0] + sep) + t;
      assert j[|j| - |last|..] == t[|t| - |last|..];
    }
  }

  /** Appending an element appends a separator and that element. */
  lemma {:induction false} JoinSnoc(xs: seq<string>, y: string, sep: string)
    requires xs != []
    ensures Join(xs + [y], sep) == Join(xs, sep) + sep + y
    decreases |xs|
  {
    if |xs| == 1 {
      assert xs + [y] == [xs[0], y];
    } else {
      assert (xs + [y])[1..] == xs[1..] + [y];
      JoinSnoc(xs[1..], y, sep);
    }
  }

  /** The names of a track's artists, in order. */
  function ArtistNames(artists: seq<Artist>): (names: seq<string>)
    ensures |names| == |artists|
    ensures forall k :: 0 <= k < |artists| ==> names[k] == artists[k].name
  {
    seq(|artists|, k requires 0 <= k < |artists| => artists[k].name)
  }

  /** One track item as a `Song` (lines 75-78). */
  function SongOf(item: Item): (s: Song)
  {
    Song(item.track.name, Join(ArtistNames(item.track.artists), ArtistSeparator))
  }

  /** `items.map { ... }`: one `Song` per item, in the same order. */
  function MapSongs(items: seq<Item>): (songs: seq<Song>)
    ensures |songs| == |items|
    ensures forall k :: 0 <= k < |items| ==> songs[k] == SongOf(items[k])
    decreases |items|
  {
    if items == [] then [] else [SongOf(items[0])] + MapSongs(items[1..])
  }

  /** `spotifyResponse?.name ?: "playlist"`. */
  function PlaylistName(resp: Option<SpotifyResponse>): string
  {
    if resp.Some? then resp.value.name.GetOr(DefaultName) else DefaultName
  }

  /** `spotifyResponse?.images?.getOrNull(0)?.url ?: placeholder`. */
  function PlaylistImage(resp: Option<SpotifyResponse>): string
  {
    if resp.Some? && resp.value.images.Some? && |resp.value.images.value| > 0
    then resp.value.images.value[0].url
    else PlaceholderImage
  }

  /** The track items of the response, `[]` when `tracks` or `items` is absent. */
  function ResponseItems(resp: Option<SpotifyResponse>): seq<Item>
  {
    if resp.Some? && resp.value.tracks.Some? && resp.value.tracks.value.items.Some?
    then resp.value.tracks.value.items.value
    else []
  }

  /** Lines 69-79 of `getPlaylistTracks`: the playlist record and its songs. */
  function Normalise(resp: Option<SpotifyResponse>): (r: (Playlist, seq<Song>))
  {
    (Playlist(PlaylistName(resp), PlaylistImage(resp)), MapSongs(ResponseItems(resp)))
  }

  /** Name and image: the response's own values, or the defaults when absent. */
  lemma NormaliseDefaults(resp: Option<SpotifyResponse>)
    ensures var p := Normalise(resp).0;
      && (resp.Some? && resp.value.name.Some? ==> p.name == resp.value.name.value)
      && (resp.None? || resp.value.name.None? ==> p.name == DefaultName)
      && (resp.Some? && resp.value.images.Some? && resp.value.images.value != [] ==>
            p.imageUrl == resp.value.images.value[0].url)
      && (resp.None? || resp.value.images.None? || resp.value.images.value == [] ==>
            p.imageUrl == PlaceholderImage)
  {
  }

  /** Songs: exactly one per track item, in order, titled by the track's name and credited
      to its artists joined by ", "; none at all when `tracks` or `items` is absent. */
  lemma NormaliseSongs(resp: Option<SpotifyResponse>)
    ensures var songs := Normalise(resp).1; var items := ResponseItems(resp);
      && |songs| == |items|
      && (forall k :: 0 <= k < |items| ==>
            songs[k].title == items[k].track.name &&
            songs[k].artist == Join(ArtistNames(items[k].track.artists), ArtistSeparator))
      && (resp.Some? && resp.value.tracks.Some? && resp.value.tracks.value.items.Some? ==>
            items == resp.value.tracks.value.items.value)
      && (resp.None? || resp.value.tracks.None? || resp.value.tracks.value.items.None? ==> songs == [])
  {
  }

  /** A track without artists is credited to the empty string; a single artist is credited by name. */
  lemma ArtistOfFewArtists(t: Track)
    ensures t.artists == [] ==> SongOf(Item(t)).artist == ""
    ensures |t.artists| == 1 ==> SongOf(Item(t)).artist == t.artists[0].name
  {
  }

  /** The worked example: one track with two artists. */
  lemma TwoArtistsExample()
    ensures Normalise(Some(SpotifyResponse(
              Some("Test"),
              Some([Image("http://img")]),
              Some(TracksResponse(Some([Item(Track("Song A", [Artist("Artist1"), Artist("Artist2")]))]))))))
         == (Playlist("Test", "http://img"), [Song("Song A", "Artist1, Artist2")])
  {
    var track := Track("Song A", [Artist("Artist1"), Artist("Artist2")]);
    var names := ArtistNames(track.artists);
    assert names == ["Artist1", "Artist2"];
    assert Join(names, ArtistSeparator) == "Artist1" + ", " + "Artist2" == "Artist1, Artist2";
    assert SongOf(Item(track)) == Song("Song A", "Artist1, Artist2");
    assert MapSongs([Item(track)]) == [Song("Song A", "Artist1, Artist2")];
  }

  /** A response with an empty image list and no name gets both defaults. */
  lemma DefaultsExample(tracks: Option<TracksResponse>)
    ensures Normalise(Some(SpotifyResponse(None, Some([]), tracks))).0
         == Playlist("playlist", "https://via.placeholder.com/150")
  {
  }
}
