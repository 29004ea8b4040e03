/** The catalog entities the panel displays, as immutable values received from the service. */
module Catalog {
  import opened Options

  /** One playable catalog item; `duration` is in whole seconds. */
  datatype Track = Track(
    id: string,
    title: string,
    artist: string,
    album: string,
    duration: nat,
    image: string,
    url: string,
    previewUrl: Option<string>,   // optional short sample that can be played locally
    jiosaavnUrl: string,          // the external catalog link
    emotion: Option<string>)

  /** A named, ordered collection of tracks with its own catalog link. */
  datatype Playlist = Playlist(
    id: string,
    name: string,
    description: string,
    image: string,
    tracks: seq<Track>,
    jiosaavnUrl: string)
}
