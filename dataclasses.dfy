/** The records the playlist client works with: the application's own `Song` and `Playlist`,
    the decoded catalog response it reads them from, and the failures it can raise. */
module DataClasses {
  import opened Wrappers

  /** One track of a playlist; `artist` holds all contributing artists, joined by ", ".
      `BlankSong` is the record Gson builds from a JSON object that has neither field:
      both fields are left `null`. */
  datatype Song = Song(title: string, artist: string) | BlankSong

  /** A playlist as kept in the index. Equality is structural, as for a Kotlin data class.
      `BlankPlaylist` is the record Gson builds from a JSON object that has neither field;
      all blank playlists are equal (`null == null`) and differ from every other playlist. */
  datatype Playlist = Playlist(name: string, imageUrl: string) | BlankPlaylist

  // The decoded catalog response. Only the fields the client reads are modelled; the
  // ones it reaches with `?.` are nullable and become `Option`.

  datatype Image = Image(url: string)
  datatype Artist = Artist(name: string)
  datatype Track = Track(name: string, artists: seq<Artist>)
  datatype Item = Item(track: Track)
  datatype TracksResponse = TracksResponse(items: Option<seq<Item>>)
  datatype SpotifyResponse = SpotifyResponse(
    name: Option<string>,
    images: Option<seq<Image>>,
    tracks: Option<TracksResponse>)

  /** The failures of the core: an unmatched playlist reference (the `!!` on the regex match),
      a failed token or catalog request, and a song file that does not exist. */
  datatype ApiError = InvalidReference | CatalogError | NotFound
}
