/** What the transformer's result means, stated in terms of the raw items. */
module TransformProps {
  import opened Wrappers
  import opened PlayEvents
  import opened Transformer

  /** The album artist names of an item give an `artists` cell. */
  predicate ArtistsUsable(names: seq<Option<string>>) {
    |names| == 1 || (|names| > 1 && forall k :: 0 <= k < |names| ==> names[k].Some?)
  }

  /** The artists cell exists exactly for one name, or for several none of which is null. */
  lemma ArtistsCellSucceeds(names: seq<Option<string>>)
    ensures ArtistsCell(names).Success? <==> ArtistsUsable(names)
    ensures |names| == 0 ==> ArtistsCell(names) == Failure(NoAlbumArtists)
    ensures |names| == 1 ==> ArtistsCell(names) == Success(names[0])
  {
  }

  /** Joining a list of one name gives that name; three names give them with the separator between. */
  lemma JoinExamples(a: string, b: string, c: string)
    ensures Join([a]) == a
    ensures Join([a, b, c]) == a + ", " + b + ", " + c
    ensures Join(["A", "B", "C"]) == "A, B, C"
  {
    assert [a, b, c][1..] == [b, c];
    assert [b, c][1..] == [c];
    assert Join([b, c]) == b + ", " + c;
    assert ["A", "B", "C"][1..] == ["B", "C"];
    assert ["B", "C"][1..] == ["C"];
  }

  /**
   * Order is kept: the first name begins the joined string, and joining any leading part of
   * the list, followed by the separator, begins it too.
   */
  lemma {:induction false} JoinKeepsOrder(names: seq<string>, m: nat)
    requires 0 < m < |names|
    ensures names[0] <= Join(names)
    ensures Join(names[..m]) + Separator <= Join(names)
  {
    if m == 1 {
      assert names[..1] == [names[0]];
    } else {
      JoinKeepsOrder(names[1..], m - 1);
      assert names[..m][1..] == names[1..][..m - 1];
    }
  }

  /**
   * The transformation succeeds exactly when every item has a timestamp and usable album
   * artists, and then gives as many rows as there are items.
   */
  lemma TransformSucceeds(items: seq<RawItem>)
    ensures Transform(items).Success? <==>
      forall k :: 0 <= k < |items| ==> items[k].playedAt.Some? && ArtistsUsable(items[k].albumArtists)
    ensures Transform(items).Success? ==> |Transform(items).value| == |items|
  {
    forall k | 0 <= k < |items| {
      ArtistsCellSucceeds(items[k].albumArtists);
    }
  }

  /**
   * On success there is one row per item, in the items' order. Row k copies the track and
   * album names, keeps the timestamp whole as `played_at_detailed` and its first ten
   * characters (all of it when shorter) as `played_at`, and takes `artists` from the album.
   */
  lemma TransformRow(items: seq<RawItem>, k: nat)
    requires Transform(items).Success?
    requires k < |items|
    ensures |Transform(items).value| == |items|
    ensures items[k].playedAt.Some?
    ensures var row, item, ts := Transform(items).value[k], items[k], items[k].playedAt.value;
      && row.trackName == item.trackName
      && row.albumName == item.albumName
      && row.playedAtDetailed == Some(ts)
      && row.playedAt.Some? && row.playedAt.value <= ts
      && |row.playedAt.value| == (if |ts| < 10 then |ts| else 10)
      && (|item.albumArtists| == 1 ==> row.artists == item.albumArtists[0])
      && (|item.albumArtists| > 1 ==> row.artists == Some(Join(Names(item.albumArtists))))
  {
    TransformSucceeds(items);
  }

  /**
   * A failure names the first item that broke a pass. A missing timestamp anywhere wins,
   * since the first pass finishes before the second begins; otherwise the fault is that of
   * the first item whose album artists give no cell.
   */
  lemma TransformFails(items: seq<RawItem>)
    requires Transform(items).Failure?
    ensures var e := Transform(items).error;
      && e.item < |items|
      && ((exists j :: 0 <= j < |items| && items[j].playedAt.None?) <==> e.fault == NullTimestamp)
      && (e.fault == NullTimestamp ==>
            items[e.item].playedAt.None? && forall j :: 0 <= j < e.item ==> items[j].playedAt.Some?)
      && (e.fault != NullTimestamp ==>
            (forall j :: 0 <= j < e.item ==> ArtistsUsable(items[j].albumArtists)) &&
            !ArtistsUsable(items[e.item].albumArtists))
      && (e.fault == NoAlbumArtists <==> e.fault != NullTimestamp && |items[e.item].albumArtists| == 0)
  {
    var e := Transform(items).error;
    forall j | 0 <= j <= e.item && j < |items| {
      ArtistsCellSucceeds(items[j].albumArtists);
    }
    if e.fault != NullTimestamp {
      assert forall j :: 0 <= j < |items| ==> HasTimestamp(items[j]);
    }
  }

  /** An album with no artists makes the transformation fail; it never yields an empty cell. */
  lemma NoArtistsFails(items: seq<RawItem>, k: nat)
    requires k < |items| && |items[k].albumArtists| == 0
    ensures Transform(items).Failure?
  {
    TransformSucceeds(items);
  }

  /** The track's own artist list is never read: only the album's artists reach the row. */
  lemma {:induction false} IgnoresTrackArtists(items: seq<RawItem>, others: seq<RawItem>)
    requires |others| == |items|
    requires forall k :: 0 <= k < |items| ==> others[k] == items[k].(trackArtists := others[k].trackArtists)
    ensures Transform(others) == Transform(items)
  {
    FirstFailingAgree(items, others, HasTimestamp);
    FirstFailingAgree(items, others, HasArtistsCell);
    if Transform(items).Success? {
      assert RowsOf(others) == RowsOf(items);
    }
  }

  lemma {:induction false} FirstFailingAgree(items: seq<RawItem>, others: seq<RawItem>, ok: RawItem -> bool)
    requires |others| == |items|
    requires forall k :: 0 <= k < |items| ==> ok(others[k]) == ok(items[k])
    ensures FirstFailing(others, ok) == FirstFailing(items, ok)
  {
    if |items| > 0 && ok(items[0]) {
      FirstFailingAgree(items[1..], others[1..], ok);
    }
  }

  /** The worked example: one item played at 2024-01-05T10:15:30Z by an album of artists A, B, C. */
  lemma TransformExample(track: Option<string>, album: Option<string>, trackArtists: seq<Option<string>>)
    ensures var item := RawItem(track, album, [Some("A"), Some("B"), Some("C")], trackArtists,
                                Some("2024-01-05T10:15:30Z"));
      Transform([item]) ==
        Success([Row(track, album, Some("A, B, C"), Some("2024-01-05"), Some("2024-01-05T10:15:30Z"))])
  {
    var names := [Some("A"), Some("B"), Some("C")];
    var item := RawItem(track, album, names, trackArtists, Some("2024-01-05T10:15:30Z"));
    assert [item][1..] == [];
    assert FirstFailing([item], HasTimestamp) == 1;
    assert Names(names) == ["A", "B", "C"];
    JoinExamples("A", "B", "C");
    assert ArtistsCell(names) == Success(Some("A, B, C"));
    assert FirstFailing([item], HasArtistsCell) == 1;
    assert DateOf("2024-01-05T10:15:30Z") == "2024-01-05";
    assert RowOf(item) == Row(track, album, Some("A, B, C"), Some("2024-01-05"), Some("2024-01-05T10:15:30Z"));
    assert RowsOf([item]) == [RowOf(item)];
  }
}
