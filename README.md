# TuneTime playlist client — a Dafny model

TuneTime is a song-guessing game. Its `SpotifyAPI` class fetches a playlist from the
Spotify catalog, stores the playlist's songs and a deduplicated playlist index in the
app's private files, and later hands the game a random selection of stored songs. This
project models the logic of that class and proves what it promises:

- **Playlist identifier** (`urlToId`, module `PlaylistId`): the regular expression
  `playlist/(\w+)` searched with `find`. The model reads `\w` as the ASCII class `[A-Za-z0-9_]`. The result is the
  maximal run of word characters after the leftmost `playlist/` that has a word character
  after it. A reference without such a match fails (the `!!`) with `InvalidReference`.
- **Normalisation** (the pure middle of `getPlaylistTracks`, module `Normalisation`): a decoded
  response becomes a `Playlist` and a list of `Song`s. The name defaults to `"playlist"`. The
  image defaults to `https://via.placeholder.com/150`. There is one song per track item, and
  artist names are joined by `", "`.
- **File area** (module `Store`): a map from file name to content. Songs are kept under
  `"<name>.json"`, the index under `"playlists.json"`, as the source does. Gson reads each record
  of the other kind of list as a record with null fields, here `BlankSong` and `BlankPlaylist`,
  assuming the two record types share no field name. So a playlist named `"playlists"` writes its
  songs over the index. The upsert that follows then reads one blank playlist per song, appends
  the playlist and succeeds. The earlier index is lost. With two or more songs the index holds
  equal entries, so it is no longer duplicate-free. Reading the songs back gives blank songs.
  `Store.SaveAsIndexThenUpsert` and `Api.ImportedPlaylistsNameClobbersIndex` state this.
- **Sampler** (`getTracksToPlay`, module `Sampler`): clamp the amount to the list size and take
  that many songs from a permutation of the stored list.
- **The `SpotifyAPI` object** (class `Api.SpotifyApi`): its `files` field is the state. Its
  methods save songs, read songs, upsert the index, sample, and fetch-and-save a playlist.
  Each method is tied to a specification function (`Store.ReadSongs`, `Store.SavedPlaylist`,
  `Sampler.Sample`, `Api.Imported`), and the lemmas are stated about those functions.

The token request and the catalog request are a parameter, `catalog: string -> CatalogReply`.
For a playlist identifier it gives the decoded response body, or `RequestFailed` for an
`IOException` of either request, which becomes `CatalogError`. The shuffle is an arbitrary
permutation, chosen with `:|`.

Two behaviours of the code shape the model:
- `it.track.name` is read with no null check (line 76), so `Item.track` is not optional.
- A token response without `access_token` gives an empty bearer token (line 44). The catalog
  request then fails, which is a `RequestFailed` reply of `catalog`.

## Model

| member | source | states |
|---|---|---|
| `PlaylistId.UrlToId` | app/src/main/java/com/example/guesssong/utils/SpotifyAPI.kt:85-88 | succeeds exactly when some position matches `playlist/\w`; the result is the non-empty, maximal word-character run after the leftmost match; otherwise fails with `InvalidReference` |
| `PlaylistId.FindFrom` | app/src/main/java/com/example/guesssong/utils/SpotifyAPI.kt:86-87 | finds the leftmost match at or after `i`, or shows that none exists |
| `PlaylistId.RunEnd` | app/src/main/java/com/example/guesssong/utils/SpotifyAPI.kt:86 | the greedy `\w+`: every character up to the end is a word character, and the next one (if any) is not |
| `PlaylistId.FirstMatchUnique` | app/src/main/java/com/example/guesssong/utils/SpotifyAPI.kt:87 | the leftmost match reported by `find` is unique |
| `PlaylistId.RunUnique` | app/src/main/java/com/example/guesssong/utils/SpotifyAPI.kt:86 | the greedy run at a given start is unique |
| `PlaylistId.UrlToIdIsTheSpecifiedRun` | app/src/main/java/com/example/guesssong/utils/SpotifyAPI.kt:85-88 | any identifier that is the maximal run after the leftmost match is the one returned, so the description determines the result |
| `PlaylistId.QueryStringExample` | app/src/main/java/com/example/guesssong/utils/SpotifyAPI.kt:85-88 | `playlist/Ab_9?si=1` yields `Ab_9`: the identifier stops at the query string |
| `PlaylistId.NoIdentifierExample` | app/src/main/java/com/example/guesssong/utils/SpotifyAPI.kt:85-88 | `playlist/-x` has no match and fails with `InvalidReference` |
| `Normalisation.Join` | app/src/main/java/com/example/guesssong/utils/SpotifyAPI.kt:77 | `joinToString(", ")`; its contract is stated by `JoinLength`, `JoinEnds`, `JoinSnoc` and `ArtistOfFewArtists` |
| `Normalisation.JoinLength` | app/src/main/java/com/example/guesssong/utils/SpotifyAPI.kt:77 | `joinToString` puts exactly one separator between each pair of neighbours |
| `Normalisation.JoinEnds` | app/src/main/java/com/example/guesssong/utils/SpotifyAPI.kt:77 | no leading or trailing separator: the joined string starts with the first name and ends with the last |
| `Normalisation.JoinSnoc` | app/src/main/java/com/example/guesssong/utils/SpotifyAPI.kt:77 | appending an artist appends `", "` and that artist's name |
| `Normalisation.ArtistNames` | app/src/main/java/com/example/guesssong/utils/SpotifyAPI.kt:77 | the artists' names, one per artist, in order |
| `Normalisation.SongOf` | app/src/main/java/com/example/guesssong/utils/SpotifyAPI.kt:75-78 | the song built from one track item; its title and artist are stated by `NormaliseSongs` and `ArtistOfFewArtists` |
| `Normalisation.MapSongs` | app/src/main/java/com/example/guesssong/utils/SpotifyAPI.kt:74-79 | `items.map`: one song per item, in the same order |
| `Normalisation.PlaylistName` | app/src/main/java/com/example/guesssong/utils/SpotifyAPI.kt:70 | `name ?: "playlist"`; stated by `NormaliseDefaults` |
| `Normalisation.PlaylistImage` | app/src/main/java/com/example/guesssong/utils/SpotifyAPI.kt:71-72 | `images?.getOrNull(0)?.url ?: placeholder`; stated by `NormaliseDefaults` |
| `Normalisation.ResponseItems` | app/src/main/java/com/example/guesssong/utils/SpotifyAPI.kt:74-79 | `tracks?.items`, or `[]` when either is absent; stated by `NormaliseSongs` |
| `Normalisation.Normalise` | app/src/main/java/com/example/guesssong/utils/SpotifyAPI.kt:69-79 | the playlist record and its songs; stated by `NormaliseDefaults`, `NormaliseSongs`, `TwoArtistsExample` and `DefaultsExample` |
| `Normalisation.NormaliseDefaults` | app/src/main/java/com/example/guesssong/utils/SpotifyAPI.kt:70-73 | the name is the response's name or `"playlist"`; the image is `images[0].url`, or the placeholder when the list is absent or empty |
| `Normalisation.NormaliseSongs` | app/src/main/java/com/example/guesssong/utils/SpotifyAPI.kt:74-79 | one song per track item, in order: the title is the track name and the artist is the joined artist names; no songs when `tracks` or `items` is absent |
| `Normalisation.ArtistOfFewArtists` | app/src/main/java/com/example/guesssong/utils/SpotifyAPI.kt:77 | no artists give `""`; one artist gives that name alone |
| `Normalisation.TwoArtistsExample` | app/src/main/java/com/example/guesssong/utils/SpotifyAPI.kt:69-79 | the worked response gives `Playlist("Test", "http://img")` and `[Song("Song A", "Artist1, Artist2")]` |
| `Normalisation.DefaultsExample` | app/src/main/java/com/example/guesssong/utils/SpotifyAPI.kt:70-73 | no name and `images: []` give `Playlist("playlist", placeholder)` |
| `Sampler.ClampedAmount` | app/src/main/java/com/example/guesssong/utils/SpotifyAPI.kt:92 | the effective amount is the smaller of the amount and the list size |
| `Sampler.PrefixSubMultiset` | app/src/main/java/com/example/guesssong/utils/SpotifyAPI.kt:95 | `take` holds no song more often than the whole list does |
| `Sampler.Sample` | app/src/main/java/com/example/guesssong/utils/SpotifyAPI.kt:92-95 | exactly `min(amount, size)` songs, a prefix of the permutation, a sub-multiset of the stored list, and a full permutation when `amount >= size` |
| `Store.SongsKey` | app/src/main/java/com/example/guesssong/utils/SpotifyAPI.kt:101 | the file name `"$playlistName.json"`; stated by `SongsKeyInjective` and `SongsKeyIsIndexKey` |
| `Store.BlankSongs` | app/src/main/java/com/example/guesssong/utils/SpotifyAPI.kt:128 | the songs Gson builds from records without song fields: `n` blank songs |
| `Store.BlankPlaylists` | app/src/main/java/com/example/guesssong/utils/SpotifyAPI.kt:111 | the playlists Gson builds from records without playlist fields: `n` blank playlists |
| `Store.DecodeSongs` | app/src/main/java/com/example/guesssong/utils/SpotifyAPI.kt:128 | a stored song list reads back as itself; an index reads as one blank song per entry |
| `Store.DecodeIndex` | app/src/main/java/com/example/guesssong/utils/SpotifyAPI.kt:111 | a stored index reads back as itself; a song list reads as one blank playlist per song |
| `Store.ReadSongs` | app/src/main/java/com/example/guesssong/utils/SpotifyAPI.kt:124-129 | fails, with `NotFound`, exactly when the name's file is absent; a stored song list is returned as it was written |
| `Store.LoadIndex` | app/src/main/java/com/example/guesssong/utils/SpotifyAPI.kt:108-112 | a missing index file reads as the empty index; a stored index reads as itself; a song list in its place reads as blanks |
| `Store.Upsert` | app/src/main/java/com/example/guesssong/utils/SpotifyAPI.kt:114-115 | the `contains` check and `add`; stated by `UpsertShape`, `UpsertIdempotent` and `UpsertKeepsNoDuplicates` |
| `Store.SavedPlaylist` | app/src/main/java/com/example/guesssong/utils/SpotifyAPI.kt:106-120 | `savePlaylistToJson` on the file map; stated by `SavedPlaylistEffect`, `SavedPlaylistIdempotent` and `SavedPlaylistKeepsNoDuplicates` |
| `Store.SongsKeyInjective` | app/src/main/java/com/example/guesssong/utils/SpotifyAPI.kt:101 | distinct playlist names use distinct song files |
| `Store.SongsKeyIsIndexKey` | app/src/main/java/com/example/guesssong/utils/SpotifyAPI.kt:101-117 | a playlist's song file is the index file exactly when the name is `"playlists"` |
| `Store.SaveThenRead` | app/src/main/java/com/example/guesssong/utils/SpotifyAPI.kt:98-129 | reading after saving returns the saved songs |
| `Store.SaveKeepsOtherSongs` | app/src/main/java/com/example/guesssong/utils/SpotifyAPI.kt:98-104 | saving one playlist's songs changes what no other name reads |
| `Store.SaveKeepsIndex` | app/src/main/java/com/example/guesssong/utils/SpotifyAPI.kt:101-117 | saving songs under any name other than `"playlists"` leaves the index as it was |
| `Store.SaveClobbersIndex` | app/src/main/java/com/example/guesssong/utils/SpotifyAPI.kt:101-111 | saving songs for `"playlists"` overwrites the index file, which then reads as one blank playlist per song, whatever it held before |
| `Store.SaveAsIndexThenUpsert` | app/src/main/java/com/example/guesssong/utils/SpotifyAPI.kt:98-129 | saving songs for `"playlists"` and then upserting that playlist leaves the index as blanks followed by the playlist; the songs read back as blanks |
| `Store.SaveAndUpsertTwiceIsOnce` | app/src/main/java/com/example/guesssong/utils/SpotifyAPI.kt:80-81 | saving a playlist's songs and then upserting it, done twice with the same songs, leaves the files of doing it once, for the `"playlists"` name as well |
| `Store.UpsertShape` | app/src/main/java/com/example/guesssong/utils/SpotifyAPI.kt:114-115 | after the upsert the playlist is present and earlier entries keep their order; the index grows by one exactly when the playlist was new, with the new entry at the end |
| `Store.UpsertIdempotent` | app/src/main/java/com/example/guesssong/utils/SpotifyAPI.kt:114-115 | upserting twice is upserting once |
| `Store.UpsertKeepsNoDuplicates` | app/src/main/java/com/example/guesssong/utils/SpotifyAPI.kt:114-115 | an index without duplicates stays without duplicates |
| `Store.BlanksAreDuplicates` | app/src/main/java/com/example/guesssong/utils/SpotifyAPI.kt:114-115 | two blank playlists are equal, so an index that starts with two or more of them has duplicates |
| `Store.SavedPlaylistEffect` | app/src/main/java/com/example/guesssong/utils/SpotifyAPI.kt:106-120 | the stored index becomes the upserted one and no other file changes |
| `Store.SavedPlaylistIdempotent` | app/src/main/java/com/example/guesssong/utils/SpotifyAPI.kt:106-120 | saving a playlist twice leaves the same files as saving it once |
| `Store.SavedPlaylistKeepsNoDuplicates` | app/src/main/java/com/example/guesssong/utils/SpotifyAPI.kt:106-120 | a duplicate-free stored index stays duplicate-free |
| `Api.Imported` | app/src/main/java/com/example/guesssong/utils/SpotifyAPI.kt:48-83 | an unmatched reference fails with `InvalidReference` and a failed request fails with `CatalogError`, both before any write; the call passes exactly when both steps succeed |
| `Api.SpotifyApi.constructor` | app/src/main/java/com/example/guesssong/utils/SpotifyAPI.kt:15 | the object starts over the given file area |
| `Api.SpotifyApi.SaveSongsToJson` | app/src/main/java/com/example/guesssong/utils/SpotifyAPI.kt:98-104 | overwrites `"<name>.json"` with the songs and changes nothing else |
| `Api.SpotifyApi.ReadFromJson` | app/src/main/java/com/example/guesssong/utils/SpotifyAPI.kt:124-129 | returns what `Store.ReadSongs` specifies for the current files |
| `Api.SpotifyApi.SavePlaylistToJson` | app/src/main/java/com/example/guesssong/utils/SpotifyAPI.kt:106-120 | its new files are those of `Store.SavedPlaylist` |
| `Api.SpotifyApi.GetTracksToPlay` | app/src/main/java/com/example/guesssong/utils/SpotifyAPI.kt:90-96 | propagates a failed read unchanged; otherwise returns `min(amount, size)` stored songs forming a prefix of a permutation, a sub-multiset of the stored list, and all of them when `amount >= size`; `amount` defaults to 10 |
| `Api.SpotifyApi.GetPlaylistTracks` | app/src/main/java/com/example/guesssong/utils/SpotifyAPI.kt:48-83 | its new files and outcome are those of `Api.Imported`: extract the identifier, request, normalise, save the songs, then upsert the playlist |
| `Api.ImportedPersists` | app/src/main/java/com/example/guesssong/utils/SpotifyAPI.kt:69-81 | for a playlist not named `"playlists"`, after a successful fetch the songs read back under the (possibly defaulted) name and the index is the old one with the playlist upserted; no other playlist's songs change |
| `Api.ImportedPlaylistsNameClobbersIndex` | app/src/main/java/com/example/guesssong/utils/SpotifyAPI.kt:80-117 | for a playlist named `"playlists"` the call succeeds, the index becomes one blank per song followed by the playlist (duplicates once there are two or more songs), and the songs read back as blanks |
| `Api.ImportedTwiceIsOnce` | app/src/main/java/com/example/guesssong/utils/SpotifyAPI.kt:48-83 | fetching the same reference twice leaves the same files and outcome as fetching it once, for every reference, name and prior index, given that both fetches get the same catalog reply (`catalog` is one function, which two network requests do not guarantee) |

## Left out

- `getToken` and `readCreds`: they read the credentials asset, build an HTTP Basic header (section 2 of RFC 7617) and post a client-credentials grant. This is network and library code, so it is folded into the `catalog` parameter.
- The HTTP request of `getPlaylistTracks`: building the request and checking its status is network I/O. A non-success status, or a failed token request, is a `RequestFailed` reply of `catalog`.
- Moshi's Kotlin adapter throws at line 67 when the body has a JSON `null` for a non-null Kotlin field, such as `items[].track`. That happens before any write, and it is folded into a `RequestFailed` reply of `catalog`.
- PlaylistId.UrlToId: `\w` is read as the ASCII class `[A-Za-z0-9_]`. On Android, Kotlin's `Regex` runs on the ICU-based `java.util.regex`, where `\w` also matches non-ASCII letters, marks, digits and connector punctuation. So the model treats those as non-word characters: `playlist/é` fails in the model but gives `"é"` on a device, and `playlist/abé` gives `"ab"` instead of `"abé"`. Real Spotify playlist identifiers are ASCII base62 and are unaffected.
- JSON encoding and decoding (Gson, Moshi): files hold the written records, not bytes. Malformed JSON text, and the exception Gson throws for it, are not modelled.
- Android file APIs (`openFileOutput`, `openFileInput`, `getFileStreamPath`) are replaced by the `files` map. Device write failures are not modelled.
- Api.SpotifyApi.SaveSongsToJson: `openFileOutput` and `openFileInput` throw `IllegalArgumentException` for a file name that contains `/`. So for a playlist named, say, `"Chill/Study"`, line 101 throws and nothing is written. The model writes `SongsKey(name)` for every name, and reads such a name like any other, where `readFromJson` would throw.
- Store.DecodeSongs: the reading of a non-empty list of the other kind as blank records assumes that `Song` and `Playlist` share no JSON field name. The Kotlin declarations of `Song` and `Playlist` are not among the modelled source files, so their field names are assumed.
- Api.SpotifyApi.GetTracksToPlay: `shuffled()` is any permutation; its randomness and uniformity are not modelled. `amount` is a non-negative number, because a negative amount makes Kotlin's `take` throw.
- Concurrency: there is one object and each call runs to completion, so the races of two concurrent index upserts are not modelled.
- Exception types: the `NullPointerException` of the `!!` is `InvalidReference`, and the `IOException` of a failed request is `CatalogError`.
