/**
  The song records the app stores and passes between its views.
*/
module Songs {

  import opened Wrappers

  /** A stored song. A missing or empty text field is the empty string; a
      missing or non-array image list is `None`; a missing scroll speed is `None`. */
  datatype Song = Song(
    id: string,
    title: string,
    artist: string,
    sourceUrl: string,
    tabUrls: Option<seq<string>>,
    tabUrl: string,
    savedSpeed: Option<real>)

  /** The record the song editor saves; `createdAt` is present only for a new song. */
  datatype SongRecord = SongRecord(
    title: string,
    artist: string,
    sourceUrl: string,
    titleLength: nat,
    tabUrls: seq<string>,
    tabUrl: string,
    createdAt: Option<string>)
}
