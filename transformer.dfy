/**
 * The record transformer (`recent_tracks`): one flat row per recently-played item.
 *
 * The source makes two passes over the items. The first collects the track name, album
 * name, date and full timestamp of every item; the second joins each album's artist names.
 * Either pass stops the whole transformation at the first item it cannot handle.
 */
module Transformer {
  import opened Wrappers
  import opened PlayEvents

  /** Number of leading characters of the timestamp kept as the date (`played_at[0:10]`). */
  const DateLength := 10

  /** Separator placed between artist names. */
  const Separator := ", "

  /** Why an item could not be transformed, with the exception Python raises for it. */
  datatype Fault =
    | NullTimestamp    // TypeError: slicing a null `played_at`
    | NoAlbumArtists   // IndexError: `artists[0]` of an empty list
    | NullArtistName   // TypeError: concatenating a null name in a list of two or more

  /** The item, by position in the batch, at which the transformation stopped. */
  datatype TransformError = TransformError(item: nat, fault: Fault)

  /** `ts[0:10]`: Python slicing keeps the whole string when it is shorter. */
  function DateOf(ts: string): (d: string)
    ensures |d| == if |ts| < DateLength then |ts| else DateLength
    ensures d <= ts
  {
    if |ts| <= DateLength then ts else ts[..DateLength]
  }

  /** Names joined with the separator, first to last. */
  function Join(names: seq<string>): string
    requires |names| > 0
  {
    if |names| == 1 then names[0] else names[0] + Separator + Join(names[1..])
  }

  /** The names of a list none of whose entries is null. */
  function Names(names: seq<Option<string>>): seq<string>
    requires forall k :: 0 <= k < |names| ==> names[k].Some?
  {
    seq(|names|, k requires 0 <= k < |names| => names[k].value)
  }

  /**
   * The `artists` cell computed from an album's artist names: a single name is copied (null
   * included); two or more are joined, and a null among them is an error; none is an error.
   */
  function ArtistsCell(names: seq<Option<string>>): Result<Option<string>, Fault>
  {
    if |names| == 0 then Failure(NoAlbumArtists)
    else if |names| == 1 then Success(names[0])
    else if forall k :: 0 <= k < |names| ==> names[k].Some? then Success(Some(Join(Names(names))))
    else Failure(NullArtistName)
  }

  predicate HasTimestamp(item: RawItem) {
    item.playedAt.Some?
  }

  predicate HasArtistsCell(item: RawItem) {
    ArtistsCell(item.albumArtists).Success?
  }

  /** The row of an item both passes accept. */
  function RowOf(item: RawItem): Row
    requires HasTimestamp(item) && HasArtistsCell(item)
  {
    Row(item.trackName, item.albumName, ArtistsCell(item.albumArtists).value,
        Some(DateOf(item.playedAt.value)), Some(item.playedAt.value))
  }

  /** The position of the first item that fails `ok`, or `|items|` when none does. */
  function FirstFailing(items: seq<RawItem>, ok: RawItem -> bool): (k: nat)
    ensures k <= |items|
    ensures k < |items| ==> !ok(items[k])
    ensures forall j :: 0 <= j < k ==> ok(items[j])
  {
    if |items| == 0 then 0
    else if !ok(items[0]) then 0
    else 1 + FirstFailing(items[1..], ok)
  }

  /**
   * What `recent_tracks` returns for a batch: the first pass's fault at the first item
   * without a timestamp; otherwise the second pass's fault at the first item without an
   * artists cell; otherwise one row per item.
   */
  function Transform(items: seq<RawItem>): Result<seq<Row>, TransformError>
  {
    var t := FirstFailing(items, HasTimestamp);
    if t < |items| then Failure(TransformError(t, NullTimestamp))
    else
      var a := FirstFailing(items, HasArtistsCell);
      if a < |items| then Failure(TransformError(a, ArtistsCell(items[a].albumArtists).error))
      else Success(RowsOf(items))
  }

  /** One row per item, in the items' order. */
  function RowsOf(items: seq<RawItem>): seq<Row>
    requires forall k :: 0 <= k < |items| ==> HasTimestamp(items[k]) && HasArtistsCell(items[k])
  {
    seq(|items|, k requires 0 <= k < |items| => RowOf(items[k]))
  }

  /** `Join` read from the left: appending a name appends the separator and that name. */
  lemma {:induction false} JoinSnoc(names: seq<string>, name: string)
    requires |names| > 0
    ensures Join(names + [name]) == Join(names) + Separator + name
  {
    if |names| == 1 {
      assert names + [name] == [names[0], name];
    } else {
      assert (names + [name])[1..] == names[1..] + [name];
      JoinSnoc(names[1..], name);
    }
  }

  /** Any index below the first failure passes, and the first failure is unique. */
  lemma FirstFailingIs(items: seq<RawItem>, ok: RawItem -> bool, i: nat)
    requires i < |items| && !ok(items[i])
    requires forall j :: 0 <= j < i ==> ok(items[j])
    ensures FirstFailing(items, ok) == i
  {
  }

  /**
   * The inner loop of `recent_tracks`: start from the first album artist's name and append
   * the separator and each later name in turn.
   */
  method AlbumArtists(names: seq<Option<string>>) returns (cell: Result<Option<string>, Fault>)
    ensures cell == ArtistsCell(names)
  {
    if |names| == 0 {
      return Failure(NoAlbumArtists);
    }
    var all := names[0];
    ghost var seen: seq<string> := if names[0].Some? then [names[0].value] else [];
    for k := 1 to |names|
      invariant k == 1 ==> all == names[0]
      invariant k > 1 ==> names[0].Some?
      invariant names[0].Some? ==> |seen| == k && all == Some(Join(seen))
      invariant names[0].Some? ==> forall j :: 0 <= j < k ==> names[j] == Some(seen[j])
    {
      if all.None? || names[k].None? {
        return Failure(NullArtistName);
      }
      JoinSnoc(seen, names[k].value);
      all := Some(all.value + Separator + names[k].value);
      seen := seen + [names[k].value];
    }
    if |names| > 1 {
      assert seen == Names(names);
    }
    cell := Success(all);
  }

  /** `recent_tracks` over one batch of items. */
  method RecentTracks(items: seq<RawItem>) returns (r: Result<seq<Row>, TransformError>)
    ensures r == Transform(items)
  {
    // First pass: track name, album name, date and full timestamp.
    var trackNames: seq<Option<string>> := [];
    var albumNames: seq<Option<string>> := [];
    var playedAts: seq<string> := [];
    var playedAtDetaileds: seq<string> := [];
    for i := 0 to |items|
      invariant |trackNames| == |albumNames| == |playedAts| == |playedAtDetaileds| == i
      invariant forall k :: 0 <= k < i ==> HasTimestamp(items[k])
      invariant forall k :: 0 <= k < i ==>
        trackNames[k] == items[k].trackName && albumNames[k] == items[k].albumName &&
        playedAts[k] == DateOf(items[k].playedAt.value) && playedAtDetaileds[k] == items[k].playedAt.value
    {
      if items[i].playedAt.None? {
        FirstFailingIs(items, HasTimestamp, i);
        return Failure(TransformError(i, NullTimestamp));
      }
      var ts := items[i].playedAt.value;
      trackNames := trackNames + [items[i].trackName];
      albumNames := albumNames + [items[i].albumName];
      playedAts := playedAts + [DateOf(ts)];
      playedAtDetaileds := playedAtDetaileds + [ts];
    }
    assert FirstFailing(items, HasTimestamp) == |items|;

    // Second pass: the artists cell of every item.
    var artistNames: seq<Option<string>> := [];
    for i := 0 to |items|
      invariant |artistNames| == i
      invariant forall k :: 0 <= k < i ==> ArtistsCell(items[k].albumArtists) == Success(artistNames[k])
    {
      var cell := AlbumArtists(items[i].albumArtists);
      if cell.Failure? {
        FirstFailingIs(items, HasArtistsCell, i);
        return Failure(TransformError(i, cell.error));
      }
      artistNames := artistNames + [cell.value];
    }
    assert FirstFailing(items, HasArtistsCell) == |items|;

    // Columns side by side, as `pd.concat(axis=1)` puts them.
    var rows := seq(|items|, k requires 0 <= k < |items| =>
      Row(trackNames[k], albumNames[k], artistNames[k], Some(playedAts[k]), Some(playedAtDetaileds[k])));
    assert rows == RowsOf(items);
    r := Success(rows);
  }
}
