/** The Spotify artist record (pomice/spotify/artist.py): the "top tracks"
    view of an artist built from two JSON objects, the artist itself and the
    response listing its top tracks. */
module SpotifyArtist {
  import opened Results

  /** One entry of the artist's `images` list. */
  datatype Image = Image(url: string)

  /** The artist object. `images` may be absent (`None`) or empty. */
  datatype ArtistJson = ArtistJson(
    name: string,
    id: string,
    images: Option<seq<Image>>,
    externalSpotifyUrl: string)

  /** The top-tracks response; `T` is the JSON of one track. */
  datatype TopTracksJson<T> = TopTracksJson(tracks: seq<T>)

  /** A Spotify track built from its JSON (the track class itself is not
      part of this model, so the record keeps what it was built from). */
  datatype Track<T> = Track(json: T)

  datatype Artist<T> = Artist(
    name: string,
    artists: string,
    tracks: seq<Track<T>>,
    totalTracks: nat,
    id: string,
    image: Option<string>,
    uri: string)

  const TitlePrefix: string := "Top Tracks by "

  /** The last image's URL, when the artist has at least one image. */
  function LastImageUrl(images: Option<seq<Image>>): (url: Option<string>)
    ensures url.Some? <==> images.Some? && |images.value| > 0
    ensures url.Some? ==> url.value == images.value[|images.value| - 1].url
  {
    if images.Some? && |images.value| > 0 then Some(images.value[|images.value| - 1].url) else None
  }

  /** `Artist.__init__(data, artist)`. */
  function FromJson<T>(data: TopTracksJson<T>, artist: ArtistJson): (a: Artist<T>)
    ensures TitlePrefix <= a.name && a.name[|TitlePrefix|..] == a.artists == artist.name
    ensures |a.tracks| == |data.tracks| == a.totalTracks
    ensures forall i :: 0 <= i < |data.tracks| ==> a.tracks[i].json == data.tracks[i]
    ensures a.image.Some? <==> artist.images.Some? && |artist.images.value| > 0
    ensures a.image.Some? ==> a.image.value == artist.images.value[|artist.images.value| - 1].url
    ensures a.id == artist.id && a.uri == artist.externalSpotifyUrl
  {
    var tracks := seq(|data.tracks|, i requires 0 <= i < |data.tracks| => Track(data.tracks[i]));
    Artist(
      name := TitlePrefix + artist.name,
      artists := artist.name,
      tracks := tracks,
      totalTracks := if |data.tracks| > 0 then |data.tracks| else 0,
      id := artist.id,
      image := LastImageUrl(artist.images),
      uri := artist.externalSpotifyUrl)
  }
}
