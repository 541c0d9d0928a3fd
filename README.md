# Music catalogue API: identifiers, store and request rules

A Flask service keeps artists, albums and tracks. Each record gets an identifier derived from its identifying fields. The identifying string is UTF-8 encoded, then Base64 encoded with the standard alphabet and `=` padding (section 4 of RFC 4648), and the first 22 characters are kept. An artist's id comes from its name. An album's id comes from `name + ":" + artist_id`, and a track's id from `name + ":" + album_id`. Creation requests check that the parent exists, validate their arguments, and detect duplicates by recomputing the id and looking it up. Deletes cascade: artist → tracks, then albums, then the artist; album → tracks, then the album. Play requests raise `times_played` on one track, on every track of an album, or on every track of an artist.

This project models that core in Dafny:

- `base64.dfy` (module `Base64`): the encoder, written from RFC 4648, plus a decoder as its inverse. It proves the round trip `Decode(Encode(s)) == Some(s)`, hence injectivity. It also covers the RFC's known-answer vectors, and the 22-character truncation `DeriveId` with its length, its alphabet, and what truncation does to distinctness.
- `catalog.dfy` (module `Catalog`): the three records as their constructors build them. This means the derived id, `times_played = 0`, and the hyperlink strings `?/artists/<id>`, `?/albums/<id>/tracks` and so on. A parser `LinkedId` recovers the id from a link.
- `store.dfy` (module `Store`): a class `Store` holding three maps, from id to artist, album and track. `Valid()` is referential integrity plus "every record equals what its constructor built, under its own id". Each request handler is a method. Its `ensures` gives the status code, the response body and the entire new state for every branch, including the "nothing changes" branches for 400, 404, 409 and 422. The cascade and play loops run over a snapshot of the query's result set, as the source iterates over a query result. The lemmas are stated over the maps.
- `wrappers.dfy`: `Option`, used for request arguments that may be absent.

Request arguments are `Option<string>`. One is "given" when it is present and not the empty string, which is what `not args[...]` checks in Python. The `duration` argument is the float-typed parser's outcome: absent, a float, or a value that does not parse. The UTF-8 encoder is a parameter of the store (`utf8: string -> seq<byte>`). The model never looks inside it, so every result holds for any total encoder. Strings that UTF-8 cannot encode are outside the model (see "Left out").

Consequences of truncation that the lemmas make precise:

- Inputs of at most 15 bytes keep their whole encoding, so distinct names get distinct ids (`ShortInputsDistinctIds`).
- From 17 bytes on, the id depends only on the first 17 bytes (`LongInputsCollide`). An album string `name + ":" + artist_id` with a 22-character artist id is always longer than 17 bytes. So an album's id sees only the start of its artist's id, and two long names with a common 17-byte prefix collide. A collision shows up as a 409 from a create request.
- The standard alphabet contains `/`. For example, the bytes of `ab?` encode to `YWI/` (`IdsMayContainSlash`). Such an id is then embedded in a link path.

## Model

| member | source | states |
|---|---|---|
| Base64.CharOf | app.py:34 | every Base64 digit value maps to a character of the RFC 4648 alphabet |
| Base64.ValueOf | app.py:34 | reading the alphabet table backwards gives the value whose character it is |
| Base64.Encode | app.py:34 | the encoding of n bytes has 4·⌈n/3⌉ characters |
| Base64.EncodeCharacters | app.py:34 | every character of the encoding of n bytes is an alphabet character except the last (3 − n mod 3) mod 3, which are exactly the `=` pads |
| Base64.EncodeTriple | app.py:34 | a full group of three bytes becomes four alphabet characters (DecodeTriple inverts it) |
| Base64.EncodePair | app.py:34 | a final group of two bytes becomes three alphabet characters and one `=` (DecodePair inverts it) |
| Base64.EncodeSingle | app.py:34 | a final group of one byte becomes two alphabet characters and two `=` (DecodeSingle inverts it) |
| Base64.RegroupTriple | app.py:34 | the four 6-bit digits cut from three bytes put back together give those bytes |
| Base64.DecodeTriple | app.py:34 | a full group of four digits decodes to the three bytes it encodes |
| Base64.DecodePair | app.py:34 | a final group with one pad decodes to its two bytes |
| Base64.DecodeSingle | app.py:34 | a final group with two pads decodes to its one byte |
| Base64.DecodeGroups | app.py:34 | decoding proceeds group by group from the front |
| Base64.DecodeEncode | app.py:34 | round trip: decoding the encoding of any byte string gives it back |
| Base64.EncodeInjective | app.py:34 | distinct byte strings have distinct encodings |
| Base64.EncodeAppend | app.py:34 | a prefix made of whole 3-byte groups encodes independently of what follows |
| Base64.EncodeHead | app.py:34 | the first two characters of an encoding depend only on the first two bytes |
| Base64.DeriveId | app.py:34 | the derived id has exactly min(22, 4·⌈n/3⌉) characters, is a prefix of the encoding and uses only alphabet characters and `=` |
| Base64.ShortInputsDistinctIds | app.py:34 | inputs of at most 15 bytes that get the same id are equal |
| Base64.LongInputsCollide | app.py:34 | inputs of at least 17 bytes that agree on their first 17 bytes get the same id |
| Base64.IdFromHead | app.py:34 | for 17 bytes or more, the id is the encoding of the first 15 bytes followed by the first two characters of the rest |
| Base64.AbbaId | app.py:195 | the artist "Abba" (bytes 65 98 98 97) gets the id `QWJiYQ==` |
| Base64.IdsMayContainSlash | app.py:37-39 | the id of the bytes of "ab?" is `YWI/`, so a derived id can contain `/`, which is then embedded in the link paths |
| Base64.RfcTestVectors | app.py:34 | the encoder gives the known answers of section 10 of RFC 4648 for "", "f", …, "foobar" |
| Base64.ShortRfcVectors | app.py:34 | the known answers of section 10 of RFC 4648 for "", "f", "fo" and "foo" |
| Base64.LongRfcVectors | app.py:34 | the known answers of section 10 of RFC 4648 for "foob", "fooba" and "foobar" |
| Catalog.ArtistLink | app.py:39 | an artist's self link `?/artists/<id>` parses back to the artist's id |
| Catalog.ArtistAlbumsLink | app.py:37 | the albums link is the artist's self link followed by `/albums` |
| Catalog.ArtistTracksLink | app.py:38 | the tracks link is the artist's self link followed by `/tracks` |
| Catalog.AlbumLink | app.py:83 | an album's self link `?/albums/<id>` parses back to the album's id |
| Catalog.AlbumTracksLink | app.py:82 | an album's tracks link is its self link followed by `/tracks` |
| Catalog.TrackLink | app.py:136 | a track's self link `?/tracks/<id>` parses back to the track's id |
| Catalog.ArtistId | app.py:34 | an artist id fits the 22-character column and uses only Base64 characters |
| Catalog.AlbumId | app.py:78 | an album id, derived from `name + ":" + artist_id`, fits the 22-character column and uses only Base64 characters |
| Catalog.TrackId | app.py:130 | a track id, derived from `name + ":" + album_id`, fits the 22-character column and uses only Base64 characters |
| Catalog.NewArtist | app.py:33-39 | a new artist's self link `?/artists/<id>` names its id |
| Catalog.NewAlbum | app.py:76-83 | a new album keeps the given artist id; its self link names its id and its artist link names the artist |
| Catalog.NewTrack | app.py:127-136 | a new track starts with times_played 0, keeps the given album and artist ids, and its self, album and artist links name them |
| Catalog.LinkedId | app.py:37-39 | the id parsed from a link exists exactly when the link starts with the collection prefix, and prefix + id is the link |
| Catalog.LinkKindsDisjoint | app.py:134-136 | an artist, album or track link never parses as a link of one of the other two kinds, whatever id it carries |
| Catalog.Bump | app.py:283 | playing a track once raises times_played by exactly one and changes no other field (the same step is at app.py:358 and 398) |
| Catalog.TrackIdIgnoresArtist | app.py:130 | two tracks with the same name and album get the same id whatever their artists |
| Store.Supplied | app.py:193 | an argument counts as given exactly when it is present and non-empty, the truth value of `not args[...]` negated |
| Store.ParsedDuration | app.py:321 | a duration that parsed is stored as that float; an absent one is stored as null |
| Store.TracksOfArtist | app.py:154-156 | the keys of exactly the tracks whose artist_id is the given id |
| Store.TracksOfAlbum | app.py:158-160 | the keys of exactly the tracks whose album_id is the given id |
| Store.AlbumsOfArtist | app.py:100-102 | the keys of exactly the albums whose artist_id is the given id |
| Store.Played | app.py:281-284 | playing a set of tracks keeps the same keys (what changes on each track is PlayedAddsOne) |
| Store.ArtistTracksAreAlbumTracks | app.py:223-224 | under integrity, the tracks with a given artist_id are exactly the tracks of that artist's albums |
| Store.DeleteArtistKeepsConsistent | app.py:216-232 | removing the artist's tracks, its albums and the artist preserves integrity and derived ids |
| Store.DeleteAlbumKeepsConsistent | app.py:302-314 | removing the album's tracks and the album preserves integrity and derived ids |
| Store.PlayKeepsConsistent | app.py:282-284 | playing any set of tracks preserves integrity and derived ids |
| Store.PlayedAddsOne | app.py:282-284 | playing raises times_played by exactly 1 on the played tracks, by 0 on the others, and changes no other field |
| Store.PlayedOne | app.py:398 | playing one track is the one-entry map update of that track |
| Store.ArtistNamesUnique | app.py:27 | in a consistent store no two artists share a name (the `unique=True` name column is never violated) |
| Store.LinksResolve | app.py:81 | in a consistent store each album's artist link is its artist's self link, and each track's album and artist links are the self links of its album and artist |
| Store.ParentLinksParse | app.py:134-135 | in a consistent store an album's artist link and a track's album link parse, as links of their own kind and of no other kind, to the id of a record that exists |
| Store.Store.constructor | app.py:174-178 | the store starts empty and valid |
| Store.Store.PostArtist | app.py:190-205 | 400 with no change if name or age is missing or empty; 409 with no change and the existing artist if the derived id is taken; otherwise 201, exactly one artist added under that id, the new record returned |
| Store.Store.DeleteArtist | app.py:216-232 | 404 with no change if absent; otherwise 204, the artist's tracks then albums then the artist removed, no record with that artist_id left, everything else untouched, integrity kept |
| Store.Store.PostAlbum | app.py:246-263 | 422 with no change if the artist is missing (checked before the arguments); 400 with no change if name or genre is missing; 409 with no change on a taken id; otherwise 201 and exactly one album added with artist_id equal to the path artist id |
| Store.Store.DeleteAlbum | app.py:302-314 | 404 with no change if absent; otherwise 204, exactly the tracks with that album_id and the album removed, nothing else changes |
| Store.Store.PostTrack | app.py:319-346 | 400 with no change if `duration` does not parse as a float, before any other check; then 422 with no change if the album is missing; 400 with no change if the name is missing; 409 with no change on a taken id; otherwise 201 and exactly one track added, artist_id copied from the album, times_played 0 |
| Store.Store.DeleteTrack | app.py:378-386 | 404 with no change if absent; otherwise 204 and only that track removed |
| Store.Store.PlayArtist | app.py:276-286 | 404 with no change if the artist is absent; otherwise 200 and every track with that artist_id played once, nothing else changed |
| Store.Store.PlayAlbum | app.py:351-361 | 404 with no change if the album is absent; otherwise 200 and every track with that album_id played once, nothing else changed |
| Store.Store.PlayTrack | app.py:391-401 | 404 with no change if the track is absent; otherwise 200 and that track played once, nothing else changed |
| Store.Store.DeleteTracks | app.py:223-225 | deleting a snapshot of query results one at a time, in any order, removes exactly those tracks |
| Store.Store.DeleteAlbums | app.py:227-229 | deleting a snapshot of query results one at a time, in any order, removes exactly those albums |
| Store.Store.PlayTracks | app.py:281-284 | incrementing each track of a snapshot one at a time, in any order, plays exactly those tracks once |
| Store.AbbaScenario | app.py:190-263 | create "Abba" → 201 with id `QWJiYQ==`; again → 409; album "Arrival" under it → 201; delete the artist → 204 and the album is gone |

## Left out

- UTF-8 encoding (`str.encode()`): the encoder is a parameter of the store. The results hold for any total encoder, and the scenario assumes only the bytes of "Abba".
- Strings that UTF-8 cannot encode: a JSON body may carry a lone surrogate such as `{"name": "\ud800"}`. Then `name.encode()` (app.py:34, 78, 130, 195, 256, 338) raises `UnicodeEncodeError`, the source answers 500 and stores nothing. A Dafny `char` cannot hold a surrogate and `utf8` is total, so the model covers only strings that UTF-8 can encode. This 500 path is not modelled.
- Flask routing, `reqparse` and the HTTP response plumbing: arguments are optional values, responses are a status code plus, for creations, the record. The message strings are not modelled. `parse_args()` is the first statement of every creation handler (app.py:192, 248, 330). Of the argument types, only `duration`'s `type=float` can fail, and that 400 is modelled ahead of the 422 check in `PostTrack`. A body that is not JSON at all is not modelled; depending on the Flask version, `parse_args()` may reject it with 400 before any check. Ids containing `/` cannot be routed back through `<string:...>` path segments. This is noted above, not modelled.
- The read-only handlers (`get` on every resource, app.py:187-188, 210-214, 241-244, 268-271, 291-300, 323-326, 366-376): they are not part of the modelled core. A lookup by id is membership in the corresponding map.
- SQLAlchemy sessions, commits and engine configuration: the store is three in-memory maps, and every change is applied at once.
- The database-level `unique=True` on `Albums.artist_id` (app.py:69) and on both `Tracks.artist_id` (app.py:118) and `Tracks.album_id` (app.py:119). When committing, the database would reject a second album for the same artist, a second track for the same artist and a second track on the same album. The handlers do not check it, so the model does not either, and it allows many children per parent.
- `age` is parsed as a string (app.py:185) and stored as it arrives. The conversion that the Integer column does is not modelled. `duration` is carried as an opaque value and never inspected.
- JSON serialisation (`json()` methods). Note that `Tracks.json` emits `self.artist_id` under the key `'album_id'` (app.py:141). This is not modelled.
- Concurrency, partial failure midway through a cascade or a play loop, and the race between the duplicate check and the insert: each handler runs to completion on its own.
- The index page and server start-up (app.py:424-429).
