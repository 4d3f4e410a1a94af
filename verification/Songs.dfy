/** A song as search results and the catalog carry it; its watch URL is determined by its id. */
module Songs {
  import opened Prelude

  datatype Song = Song(videoId: string, title: string, artist: string, thumbnail: Option<string>)

  /** Text as the rest of the program is allowed to see it: a normal form, and which characters make words. */
  datatype Language = Language(normalize: string -> string, alphanumeric: char -> bool)

  function Ids(songs: seq<Song>): set<string> {
    set s | s in songs :: s.videoId
  }

  ghost predicate DistinctIds(songs: seq<Song>) {
    forall i, j :: 0 <= i < j < |songs| ==> songs[i].videoId != songs[j].videoId
  }
}
