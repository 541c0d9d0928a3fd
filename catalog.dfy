/**
  The three records of the catalogue (artists, albums, tracks) as they are
  built by their constructors: the derived identifier and the hyperlink
  strings that point at related collections.
 */
module Catalog {
  import opened Wrappers
  import Base64

  type Id = string

  /** The UTF-8 encoder applied to a string before base 64; left abstract. */
  type Utf8 = string -> seq<Base64.byte>

  /** A track's duration as the request parser delivered it; carried, never inspected. */
  type Duration = real

  datatype Artist = Artist(id: Id, name: string, age: string, albums: string, tracks: string, self_: string)

  datatype Album = Album(id: Id, artistId: Id, name: string, genre: string, artist: string, tracks: string, self_: string)

  datatype Track = Track(
    id: Id, artistId: Id, albumId: Id, name: string, duration: Option<Duration>,
    timesPlayed: nat, artist: string, album: string, self_: string)

  /** The root placeholder that every link starts with. */
  const ROOT: string := "?"

  /** The artist's self link: it parses back to the artist's identifier. */
  function ArtistLink(id: Id): (r: string)
    ensures LinkedId("?/artists/", r) == Some(id)
  {
    assert ROOT + "/artists/" + id == "?/artists/" + id;
    ROOT + "/artists/" + id
  }

  /** The link to an artist's albums: the artist's self link followed by `/albums`. */
  function ArtistAlbumsLink(id: Id): (r: string)
    ensures LinkedId(ArtistLink(id), r) == Some("/albums")
  {
    assert ROOT + "/artists/" + id + "/albums" == ArtistLink(id) + "/albums";
    ROOT + "/artists/" + id + "/albums"
  }

  /** The link to an artist's tracks: the artist's self link followed by `/tracks`. */
  function ArtistTracksLink(id: Id): (r: string)
    ensures LinkedId(ArtistLink(id), r) == Some("/tracks")
  {
    assert ROOT + "/artists/" + id + "/tracks" == ArtistLink(id) + "/tracks";
    ROOT + "/artists/" + id + "/tracks"
  }

  /** The album's self link: it parses back to the album's identifier. */
  function AlbumLink(id: Id): (r: string)
    ensures LinkedId("?/albums/", r) == Some(id)
  {
    assert ROOT + "/albums/" + id == "?/albums/" + id;
    ROOT + "/albums/" + id
  }

  /** The link to an album's tracks: the album's self link followed by `/tracks`. */
  function AlbumTracksLink(id: Id): (r: string)
    ensures LinkedId(AlbumLink(id), r) == Some("/tracks")
  {
    assert ROOT + "/albums/" + id + "/tracks" == AlbumLink(id) + "/tracks";
    ROOT + "/albums/" + id + "/tracks"
  }

  /** The track's self link: it parses back to the track's identifier. */
  function TrackLink(id: Id): (r: string)
    ensures LinkedId("?/tracks/", r) == Some(id)
  {
    assert ROOT + "/tracks/" + id == "?/tracks/" + id;
    ROOT + "/tracks/" + id
  }

  /** Whether a string can be a derived identifier: it fits the 22-character column and uses only base 64 characters. */
  predicate IdShaped(id: Id) {
    |id| <= Base64.ID_LENGTH && forall i :: 0 <= i < |id| ==> Base64.IsAlphabetChar(id[i]) || id[i] == Base64.PAD
  }

  /** The identifier an artist of this name gets. */
  function ArtistId(utf8: Utf8, name: string): (id: Id)
    ensures IdShaped(id)
  {
    Base64.DeriveId(utf8(name))
  }

  /** The identifier an album of this name under this artist gets. */
  function AlbumId(utf8: Utf8, name: string, artistId: Id): (id: Id)
    ensures IdShaped(id)
  {
    Base64.DeriveId(utf8(name + ":" + artistId))
  }

  /** The identifier a track of this name on this album gets; the artist plays no part. */
  function TrackId(utf8: Utf8, name: string, albumId: Id): (id: Id)
    ensures IdShaped(id)
  {
    Base64.DeriveId(utf8(name + ":" + albumId))
  }

  /** The record the artist constructor builds; its self link names it. */
  function NewArtist(utf8: Utf8, name: string, age: string): (a: Artist)
    ensures IdShaped(a.id) && LinkedId("?/artists/", a.self_) == Some(a.id)
  {
    var id := ArtistId(utf8, name);
    Artist(id, name, age, ArtistAlbumsLink(id), ArtistTracksLink(id), ArtistLink(id))
  }

  /** The record the album constructor builds; its self link names it and its artist link names its artist. */
  function NewAlbum(utf8: Utf8, artistId: Id, name: string, genre: string): (a: Album)
    ensures IdShaped(a.id) && LinkedId("?/albums/", a.self_) == Some(a.id)
    ensures a.artistId == artistId && LinkedId("?/artists/", a.artist) == Some(artistId)
  {
    var id := AlbumId(utf8, name, artistId);
    Album(id, artistId, name, genre, ArtistLink(artistId), AlbumTracksLink(id), AlbumLink(id))
  }

  /** The record the track constructor builds: never played yet, with links to itself, its album and its artist. */
  function NewTrack(utf8: Utf8, artistId: Id, albumId: Id, name: string, duration: Option<Duration>): (t: Track)
    ensures IdShaped(t.id) && LinkedId("?/tracks/", t.self_) == Some(t.id) && t.timesPlayed == 0
    ensures t.albumId == albumId && LinkedId("?/albums/", t.album) == Some(albumId)
    ensures t.artistId == artistId && LinkedId("?/artists/", t.artist) == Some(artistId)
  {
    var id := TrackId(utf8, name, albumId);
    Track(id, artistId, albumId, name, duration, 0, ArtistLink(artistId), AlbumLink(albumId), TrackLink(id))
  }

  /** The same track, played once more: one more play and nothing else changed. */
  function Bump(t: Track): (r: Track)
    ensures r.timesPlayed == t.timesPlayed + 1 && r.(timesPlayed := t.timesPlayed) == t
  {
    t.(timesPlayed := t.timesPlayed + 1)
  }

  /** The identifier a link names, if the link starts with the given collection prefix. */
  function LinkedId(prefix: string, link: string): (r: Option<Id>)
    ensures r.Some? <==> prefix <= link
    ensures r.Some? ==> prefix + r.value == link
  {
    if prefix <= link then Some(link[|prefix|..]) else None
  }

  /** A link of one kind never parses as a link of another kind, whatever identifier it carries. */
  lemma LinkKindsDisjoint(id: Id)
    ensures LinkedId("?/albums/", ArtistLink(id)) == None && LinkedId("?/tracks/", ArtistLink(id)) == None
    ensures LinkedId("?/artists/", AlbumLink(id)) == None && LinkedId("?/tracks/", AlbumLink(id)) == None
    ensures LinkedId("?/artists/", TrackLink(id)) == None && LinkedId("?/albums/", TrackLink(id)) == None
  {
    assert ArtistLink(id)[2] == 'a' && ArtistLink(id)[3] == 'r';
    assert AlbumLink(id)[2] == 'a' && AlbumLink(id)[3] == 'l';
    assert TrackLink(id)[2] == 't';
  }

  /** A track's identifier does not depend on its artist. */
  lemma TrackIdIgnoresArtist(utf8: Utf8, name: string, albumId: Id, artist1: Id, artist2: Id, d: Option<Duration>)
    ensures NewTrack(utf8, artist1, albumId, name, d).id == NewTrack(utf8, artist2, albumId, name, d).id
  {
  }
}
