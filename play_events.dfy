/**
 * The two shapes a played-track event takes in the pipeline: the nested item of the
 * recently-played response, and the flat five-column row of the batch table.
 */
module PlayEvents {
  import opened Wrappers

  /**
   * One element of the response's `items` list, reduced to the fields the transformer reads.
   * Every string the JSON may carry as `null` is an `Option`.
   */
  datatype RawItem = RawItem(
    trackName: Option<string>,             // item['track']['name']
    albumName: Option<string>,             // item['track']['album']['name']
    albumArtists: seq<Option<string>>,     // [a['name'] for a in item['track']['album']['artists']]
    trackArtists: seq<Option<string>>,     // item['track']['artists']: present, never read
    playedAt: Option<string>               // item['played_at'], an ISO-8601 timestamp
  )

  /** One row of the batch, with the columns in the order the table has them. */
  datatype Row = Row(
    trackName: Option<string>,
    albumName: Option<string>,
    artists: Option<string>,
    playedAt: Option<string>,
    playedAtDetailed: Option<string>
  ) {
    /** The row's cells, left to right, as `DataFrame.values` lays them out. */
    function Cells(): seq<Option<string>>
    {
      [trackName, albumName, artists, playedAt, playedAtDetailed]
    }

    /** Some column of this row is null. */
    predicate HasNull() {
      trackName.None? || albumName.None? || artists.None? || playedAt.None? || playedAtDetailed.None?
    }
  }
}
