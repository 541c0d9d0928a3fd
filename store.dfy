/**
  The in-memory store behind the request handlers: one map per entity from
  identifier to record, the queries the handlers run over it, the handlers
  themselves as state transitions returning an HTTP status, and the
  referential integrity they keep.
 */
module Store {
  import opened Wrappers
  import opened Catalog

  const OK: int := 200
  const CREATED: int := 201
  const NO_CONTENT: int := 204
  const BAD_REQUEST: int := 400
  const NOT_FOUND: int := 404
  const CONFLICT: int := 409
  const UNPROCESSABLE: int := 422

  /** A request argument counts as given unless it is missing or the empty string. */
  predicate Supplied(arg: Option<string>): (r: bool)
    ensures r <==> arg.Some? && |arg.value| > 0
  {
    arg.Some? && arg.value != ""
  }

  /** The `duration` argument as the float-typed request parser delivers it. */
  datatype FloatArg = Absent | Float(value: Duration) | NotAFloat

  /** The duration stored for an argument that parsed: the float, or null when it was absent. */
  function ParsedDuration(d: FloatArg): (r: Option<Duration>)
    ensures r.Some? <==> d.Float?
    ensures r.Some? ==> r.value == d.value
  {
    if d.Float? then Some(d.value) else None
  }

  /** The tracks whose `artist_id` is the given one (`find_by_artist_id` on tracks). */
  function TracksOfArtist(tracks: map<Id, Track>, artistId: Id): (r: set<Id>)
    ensures r <= tracks.Keys
    ensures forall k :: k in tracks ==> (k in r <==> tracks[k].artistId == artistId)
  {
    set k | k in tracks && tracks[k].artistId == artistId
  }

  /** The tracks whose `album_id` is the given one (`find_by_album_id`). */
  function TracksOfAlbum(tracks: map<Id, Track>, albumId: Id): (r: set<Id>)
    ensures r <= tracks.Keys
    ensures forall k :: k in tracks ==> (k in r <==> tracks[k].albumId == albumId)
  {
    set k | k in tracks && tracks[k].albumId == albumId
  }

  /** The albums whose `artist_id` is the given one (`find_by_artist_id` on albums). */
  function AlbumsOfArtist(albums: map<Id, Album>, artistId: Id): (r: set<Id>)
    ensures r <= albums.Keys
    ensures forall k :: k in albums ==> (k in r <==> albums[k].artistId == artistId)
  {
    set k | k in albums && albums[k].artistId == artistId
  }

  /** The tracks after each track named in `played` has been played once. */
  function Played(tracks: map<Id, Track>, played: set<Id>): (r: map<Id, Track>)
    ensures r.Keys == tracks.Keys
  {
    map k | k in tracks :: if k in played then Bump(tracks[k]) else tracks[k]
  }

  /**
    Referential integrity: every album's artist exists, every track's album
    exists, and a track's artist is its album's artist.
   */
  ghost predicate Integrity(artists: map<Id, Artist>, albums: map<Id, Album>, tracks: map<Id, Track>) {
    && (forall k :: k in albums ==> albums[k].artistId in artists)
    && (forall k :: k in tracks ==> tracks[k].albumId in albums && albums[tracks[k].albumId].artistId == tracks[k].artistId)
  }

  /**
    Every record sits under its own identifier and is the one its constructor
    built from its identifying fields (for a track, up to its play count).
   */
  ghost predicate Derived(utf8: Utf8, artists: map<Id, Artist>, albums: map<Id, Album>, tracks: map<Id, Track>) {
    && (forall k :: k in artists ==> k == artists[k].id && artists[k] == NewArtist(utf8, artists[k].name, artists[k].age))
    && (forall k :: k in albums ==>
          k == albums[k].id && albums[k] == NewAlbum(utf8, albums[k].artistId, albums[k].name, albums[k].genre))
    && (forall k :: k in tracks ==>
          var t := tracks[k];
          k == t.id && t == NewTrack(utf8, t.artistId, t.albumId, t.name, t.duration).(timesPlayed := t.timesPlayed))
  }

  ghost predicate Consistent(utf8: Utf8, artists: map<Id, Artist>, albums: map<Id, Album>, tracks: map<Id, Track>) {
    Integrity(artists, albums, tracks) && Derived(utf8, artists, albums, tracks)
  }

  /** The artist-wide cascade and play reach exactly the tracks of the artist's albums. */
  lemma ArtistTracksAreAlbumTracks(artists: map<Id, Artist>, albums: map<Id, Album>, tracks: map<Id, Track>, artistId: Id)
    requires Integrity(artists, albums, tracks)
    ensures forall k :: k in TracksOfArtist(tracks, artistId) <==> k in tracks && tracks[k].albumId in AlbumsOfArtist(albums, artistId)
  {
  }

  /** Deleting an artist's tracks, then its albums, then the artist leaves a consistent store. */
  lemma DeleteArtistKeepsConsistent(utf8: Utf8, artists: map<Id, Artist>, albums: map<Id, Album>, tracks: map<Id, Track>, artistId: Id)
    requires Consistent(utf8, artists, albums, tracks)
    ensures Consistent(utf8, artists - {artistId}, albums - AlbumsOfArtist(albums, artistId), tracks - TracksOfArtist(tracks, artistId))
  {
  }

  /** Deleting an album's tracks, then the album leaves a consistent store. */
  lemma DeleteAlbumKeepsConsistent(utf8: Utf8, artists: map<Id, Artist>, albums: map<Id, Album>, tracks: map<Id, Track>, albumId: Id)
    requires Consistent(utf8, artists, albums, tracks)
    ensures Consistent(utf8, artists, albums - {albumId}, tracks - TracksOfAlbum(tracks, albumId))
  {
  }

  /** Playing changes only counters, so it keeps the store consistent. */
  lemma PlayKeepsConsistent(utf8: Utf8, artists: map<Id, Artist>, albums: map<Id, Album>, tracks: map<Id, Track>, played: set<Id>)
    requires Consistent(utf8, artists, albums, tracks)
    ensures Consistent(utf8, artists, albums, Played(tracks, played))
  {
  }

  /**
    Playing adds exactly one to the counter of each played track and nothing
    to any other, and changes no other field of any track.
   */
  lemma PlayedAddsOne(tracks: map<Id, Track>, played: set<Id>)
    ensures Played(tracks, played).Keys == tracks.Keys
    ensures forall k :: k in tracks ==>
      && Played(tracks, played)[k].timesPlayed == tracks[k].timesPlayed + (if k in played then 1 else 0)
      && Played(tracks, played)[k].(timesPlayed := 0) == tracks[k].(timesPlayed := 0)
  {
  }

  /** Playing a single track is a one-entry update of the map. */
  lemma PlayedOne(tracks: map<Id, Track>, k: Id)
    requires k in tracks
    ensures Played(tracks, {k}) == tracks[k := Bump(tracks[k])]
  {
    var p, q := Played(tracks, {k}), tracks[k := Bump(tracks[k])];
    assert p.Keys == q.Keys;
    forall j | j in p ensures p[j] == q[j] {
    }
  }

  /** Artist names are unique, as the `name` column demands: the identifier is a function of the name. */
  lemma ArtistNamesUnique(utf8: Utf8, artists: map<Id, Artist>, albums: map<Id, Album>, tracks: map<Id, Track>, k1: Id, k2: Id)
    requires Consistent(utf8, artists, albums, tracks)
    requires k1 in artists && k2 in artists && artists[k1].name == artists[k2].name
    ensures k1 == k2
  {
  }

  /** In a consistent store every album and track link points at the record it names. */
  lemma LinksResolve(utf8: Utf8, artists: map<Id, Artist>, albums: map<Id, Album>, tracks: map<Id, Track>)
    requires Consistent(utf8, artists, albums, tracks)
    ensures forall k :: k in albums ==> albums[k].artist == artists[albums[k].artistId].self_
    ensures forall k :: k in tracks ==> tracks[k].album == albums[tracks[k].albumId].self_
    ensures forall k :: k in tracks ==> tracks[k].artist == artists[tracks[k].artistId].self_
  {
  }

  /**
    In a consistent store a parent link parses, as a link of its own kind and of
    no other, to the identifier of a record that exists.
   */
  lemma ParentLinksParse(utf8: Utf8, artists: map<Id, Artist>, albums: map<Id, Album>, tracks: map<Id, Track>)
    requires Consistent(utf8, artists, albums, tracks)
    ensures forall k :: k in albums ==>
      && LinkedId("?/artists/", albums[k].artist) == Some(albums[k].artistId) && albums[k].artistId in artists
      && LinkedId("?/albums/", albums[k].artist) == None && LinkedId("?/tracks/", albums[k].artist) == None
    ensures forall k :: k in tracks ==>
      && LinkedId("?/albums/", tracks[k].album) == Some(tracks[k].albumId) && tracks[k].albumId in albums
      && LinkedId("?/artists/", tracks[k].album) == None && LinkedId("?/tracks/", tracks[k].album) == None
  {
    forall k | k in albums
      ensures LinkedId("?/artists/", albums[k].artist) == Some(albums[k].artistId) && albums[k].artistId in artists
      ensures LinkedId("?/albums/", albums[k].artist) == None && LinkedId("?/tracks/", albums[k].artist) == None
    {
      var a := albums[k];
      assert a == NewAlbum(utf8, a.artistId, a.name, a.genre);
      assert a.artist == ArtistLink(a.artistId);
      LinkKindsDisjoint(a.artistId);
    }
    forall k | k in tracks
      ensures LinkedId("?/albums/", tracks[k].album) == Some(tracks[k].albumId) && tracks[k].albumId in albums
      ensures LinkedId("?/artists/", tracks[k].album) == None && LinkedId("?/tracks/", tracks[k].album) == None
    {
      var t := tracks[k];
      assert t == NewTrack(utf8, t.artistId, t.albumId, t.name, t.duration).(timesPlayed := t.timesPlayed);
      assert t.album == AlbumLink(t.albumId);
      LinkKindsDisjoint(t.albumId);
    }
  }

  class Store {
    const utf8: Utf8
    var artists: map<Id, Artist>
    var albums: map<Id, Album>
    var tracks: map<Id, Track>

    ghost predicate Valid()
      reads this
    {
      Consistent(utf8, artists, albums, tracks)
    }

    constructor (utf8: Utf8)
      ensures Valid() && this.utf8 == utf8
      ensures artists == map[] && albums == map[] && tracks == map[]
    {
      this.utf8 := utf8;
      artists, albums, tracks := map[], map[], map[];
    }

    /** POST /artists */
    method PostArtist(name: Option<string>, age: Option<string>) returns (status: int, body: Option<Artist>)
      requires Valid()
      modifies this
      ensures Valid()
      ensures !Supplied(name) || !Supplied(age) ==> status == BAD_REQUEST && body == None && unchanged(this)
      ensures Supplied(name) && Supplied(age) ==>
        var id := ArtistId(utf8, name.value);
        if id in old(artists) then
          status == CONFLICT && body == Some(old(artists)[id]) && unchanged(this)
        else
          && status == CREATED && body == Some(NewArtist(utf8, name.value, age.value))
          && artists == old(artists)[id := body.value] && |artists| == |old(artists)| + 1
          && albums == old(albums) && tracks == old(tracks)
    {
      if !Supplied(name) || !Supplied(age) {
        return BAD_REQUEST, None;
      }
      var id := ArtistId(utf8, name.value);
      if id in artists {
        return CONFLICT, Some(artists[id]);
      }
      var item := NewArtist(utf8, name.value, age.value);
      artists := artists[item.id := item];
      return CREATED, Some(item);
    }

    /** DELETE /artists/{artistId}: its tracks, then its albums, then the artist. */
    method DeleteArtist(artistId: Id) returns (status: int)
      requires Valid()
      modifies this
      ensures Valid()
      ensures artistId !in old(artists) ==> status == NOT_FOUND && unchanged(this)
      ensures artistId in old(artists) ==>
        && status == NO_CONTENT
        && tracks == old(tracks) - TracksOfArtist(old(tracks), artistId)
        && albums == old(albums) - AlbumsOfArtist(old(albums), artistId)
        && artists == old(artists) - {artistId}
        && (forall k :: k in tracks ==> tracks[k].artistId != artistId)
        && (forall k :: k in albums ==> albums[k].artistId != artistId)
    {
      if artistId !in artists {
        return NOT_FOUND;
      }
      DeleteArtistKeepsConsistent(utf8, artists, albums, tracks, artistId);
      DeleteTracks(TracksOfArtist(tracks, artistId));
      DeleteAlbums(AlbumsOfArtist(albums, artistId));
      artists := artists - {artistId};
      return NO_CONTENT;
    }

    /** POST /artists/{artistId}/albums */
    method PostAlbum(artistId: Id, name: Option<string>, genre: Option<string>) returns (status: int, body: Option<Album>)
      requires Valid()
      modifies this
      ensures Valid()
      ensures artistId !in old(artists) ==> status == UNPROCESSABLE && body == None && unchanged(this)
      ensures artistId in old(artists) && (!Supplied(name) || !Supplied(genre)) ==>
        status == BAD_REQUEST && body == None && unchanged(this)
      ensures artistId in old(artists) && Supplied(name) && Supplied(genre) ==>
        var id := AlbumId(utf8, name.value, artistId);
        if id in old(albums) then
          status == CONFLICT && body == None && unchanged(this)
        else
          && status == CREATED && body == Some(NewAlbum(utf8, artistId, name.value, genre.value))
          && body.value.artistId == artistId
          && albums == old(albums)[id := body.value] && |albums| == |old(albums)| + 1
          && artists == old(artists) && tracks == old(tracks)
    {
      if artistId !in artists {
        return UNPROCESSABLE, None;
      }
      if !Supplied(name) || !Supplied(genre) {
        return BAD_REQUEST, None;
      }
      var id := AlbumId(utf8, name.value, artistId);
      if id in albums {
        return CONFLICT, None;
      }
      var item := NewAlbum(utf8, artistId, name.value, genre.value);
      albums := albums[item.id := item];
      return CREATED, Some(item);
    }

    /** DELETE /albums/{albumId}: its tracks, then the album. */
    method DeleteAlbum(albumId: Id) returns (status: int)
      requires Valid()
      modifies this
      ensures Valid()
      ensures albumId !in old(albums) ==> status == NOT_FOUND && unchanged(this)
      ensures albumId in old(albums) ==>
        && status == NO_CONTENT
        && tracks == old(tracks) - TracksOfAlbum(old(tracks), albumId)
        && albums == old(albums) - {albumId}
        && artists == old(artists)
        && (forall k :: k in tracks ==> tracks[k].albumId != albumId)
    {
      if albumId !in albums {
        return NOT_FOUND;
      }
      DeleteAlbumKeepsConsistent(utf8, artists, albums, tracks, albumId);
      DeleteTracks(TracksOfAlbum(tracks, albumId));
      albums := albums - {albumId};
      return NO_CONTENT;
    }

    /** POST /albums/{albumId}/tracks */
    method PostTrack(albumId: Id, name: Option<string>, duration: FloatArg) returns (status: int, body: Option<Track>)
      requires Valid()
      modifies this
      ensures Valid()
      ensures duration.NotAFloat? ==> status == BAD_REQUEST && body == None && unchanged(this)
      ensures !duration.NotAFloat? && albumId !in old(albums) ==> status == UNPROCESSABLE && body == None && unchanged(this)
      ensures !duration.NotAFloat? && albumId in old(albums) && !Supplied(name) ==>
        status == BAD_REQUEST && body == None && unchanged(this)
      ensures !duration.NotAFloat? && albumId in old(albums) && Supplied(name) ==>
        var id := TrackId(utf8, name.value, albumId);
        if id in old(tracks) then
          status == CONFLICT && body == None && unchanged(this)
        else
          && status == CREATED
          && body == Some(NewTrack(utf8, old(albums)[albumId].artistId, albumId, name.value, ParsedDuration(duration)))
          && body.value.artistId == old(albums)[albumId].artistId && body.value.timesPlayed == 0
          && tracks == old(tracks)[id := body.value] && |tracks| == |old(tracks)| + 1
          && artists == old(artists) && albums == old(albums)
    {
      if duration.NotAFloat? {
        return BAD_REQUEST, None;
      }
      if albumId !in albums {
        return UNPROCESSABLE, None;
      }
      if !Supplied(name) {
        return BAD_REQUEST, None;
      }
      var id := TrackId(utf8, name.value, albumId);
      if id in tracks {
        return CONFLICT, None;
      }
      var artistId := albums[albumId].artistId;
      var item := NewTrack(utf8, artistId, albumId, name.value, ParsedDuration(duration));
      tracks := tracks[item.id := item];
      return CREATED, Some(item);
    }

    /** DELETE /tracks/{trackId} */
    method DeleteTrack(trackId: Id) returns (status: int)
      requires Valid()
      modifies this
      ensures Valid()
      ensures trackId !in old(tracks) ==> status == NOT_FOUND && unchanged(this)
      ensures trackId in old(tracks) ==>
        && status == NO_CONTENT
        && tracks == old(tracks) - {trackId}
        && artists == old(artists) && albums == old(albums)
    {
      if trackId !in tracks {
        return NOT_FOUND;
      }
      tracks := tracks - {trackId};
      return NO_CONTENT;
    }

    /** PUT /artists/{artistId}/albums/play */
    method PlayArtist(artistId: Id) returns (status: int)
      requires Valid()
      modifies this
      ensures Valid()
      ensures artistId !in old(artists) ==> status == NOT_FOUND && unchanged(this)
      ensures artistId in old(artists) ==>
        && status == OK
        && tracks == Played(old(tracks), TracksOfArtist(old(tracks), artistId))
        && artists == old(artists) && albums == old(albums)
    {
      if artistId !in artists {
        return NOT_FOUND;
      }
      PlayKeepsConsistent(utf8, artists, albums, tracks, TracksOfArtist(tracks, artistId));
      PlayTracks(TracksOfArtist(tracks, artistId));
      return OK;
    }

    /** PUT /albums/{albumId}/tracks/play */
    method PlayAlbum(albumId: Id) returns (status: int)
      requires Valid()
      modifies this
      ensures Valid()
      ensures albumId !in old(albums) ==> status == NOT_FOUND && unchanged(this)
      ensures albumId in old(albums) ==>
        && status == OK
        && tracks == Played(old(tracks), TracksOfAlbum(old(tracks), albumId))
        && artists == old(artists) && albums == old(albums)
    {
      if albumId !in albums {
        return NOT_FOUND;
      }
      PlayKeepsConsistent(utf8, artists, albums, tracks, TracksOfAlbum(tracks, albumId));
      PlayTracks(TracksOfAlbum(tracks, albumId));
      return OK;
    }

    /** PUT /tracks/{trackId}/play */
    method PlayTrack(trackId: Id) returns (status: int)
      requires Valid()
      modifies this
      ensures Valid()
      ensures trackId !in old(tracks) ==> status == NOT_FOUND && unchanged(this)
      ensures trackId in old(tracks) ==>
        && status == OK
        && tracks == Played(old(tracks), {trackId})
        && artists == old(artists) && albums == old(albums)
    {
      if trackId !in tracks {
        return NOT_FOUND;
      }
      PlayKeepsConsistent(utf8, artists, albums, tracks, {trackId});
      PlayedOne(tracks, trackId);
      tracks := tracks[trackId := Bump(tracks[trackId])];
      return OK;
    }

    /** Deletes the given tracks one by one, in whatever order the query yields them. */
    method DeleteTracks(doomed: set<Id>)
      modifies this
      ensures tracks == old(tracks) - doomed
      ensures artists == old(artists) && albums == old(albums)
    {
      var pending := doomed;
      while pending != {}
        invariant pending <= doomed
        invariant tracks == old(tracks) - (doomed - pending)
        invariant artists == old(artists) && albums == old(albums)
        decreases pending
      {
        var k :| k in pending;
        tracks := tracks - {k};
        pending := pending - {k};
      }
    }

    /** Deletes the given albums one by one, in whatever order the query yields them. */
    method DeleteAlbums(doomed: set<Id>)
      modifies this
      ensures albums == old(albums) - doomed
      ensures artists == old(artists) && tracks == old(tracks)
    {
      var pending := doomed;
      while pending != {}
        invariant pending <= doomed
        invariant albums == old(albums) - (doomed - pending)
        invariant artists == old(artists) && tracks == old(tracks)
        decreases pending
      {
        var k :| k in pending;
        albums := albums - {k};
        pending := pending - {k};
      }
    }

    /** Plays each of the given tracks once, one by one. */
    method PlayTracks(played: set<Id>)
      requires played <= tracks.Keys
      modifies this
      ensures tracks == Played(old(tracks), played)
      ensures artists == old(artists) && albums == old(albums)
    {
      var pending := played;
      while pending != {}
        invariant pending <= played
        invariant tracks == Played(old(tracks), played - pending)
        invariant artists == old(artists) && albums == old(albums)
        decreases pending
      {
        var k :| k in pending;
        tracks := tracks[k := Bump(tracks[k])];
        pending := pending - {k};
      }
    }
  }

  /**
    An example: create the artist "Abba" (201, identifier
    "QWJiYQ=="), create it again (409), add the album "Arrival" under it
    (201), delete the artist (204); the album is then gone as well.
   */
  method AbbaScenario(utf8: Utf8) returns (created: int, again: int, album: int, deleted: int, artistId: Id, albumLeft: bool)
    requires utf8("Abba") == [65, 98, 98, 97]
    ensures created == CREATED && again == CONFLICT && album == CREATED && deleted == NO_CONTENT
    ensures artistId == "QWJiYQ==" && !albumLeft
  {
    Base64.AbbaId();
    var store := new Store(utf8);
    var artistBody, againBody, albumBody;
    created, artistBody := store.PostArtist(Some("Abba"), Some("50"));
    artistId := artistBody.value.id;
    again, againBody := store.PostArtist(Some("Abba"), Some("50"));
    album, albumBody := store.PostAlbum(artistId, Some("Arrival"), Some("Pop"));
    deleted := store.DeleteArtist(artistId);
    albumLeft := albumBody.value.id in store.albums;
  }
}
