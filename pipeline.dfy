/**
 * The transformer followed by the validator, as one scheduled run performs them on a single
 * fetched batch: which verdict a transformed batch gets, in terms of the raw items.
 */
module Pipeline {
  import opened PlayEvents
  import opened Transformer
  import opened TransformProps
  import opened Validate

  /** No two items were played at the same instant. */
  predicate TimestampsUnique(items: seq<RawItem>) {
    forall i, j :: 0 <= i < j < |items| ==> items[i].playedAt != items[j].playedAt
  }

  /** A null the transformer copies into a row: the track name, the album name or a lone artist's name. */
  predicate CarriesNull(item: RawItem) {
    item.trackName.None? || item.albumName.None? ||
    (|item.albumArtists| == 1 && item.albumArtists[0].None?)
  }

  /** A row built by the transformer is null exactly where its item carries a null. */
  lemma RowNullIffCarriesNull(items: seq<RawItem>, k: nat)
    requires Transform(items).Success? && k < |items|
    ensures Transform(items).value[k].HasNull() <==> CarriesNull(items[k])
    ensures Transform(items).value[k].playedAtDetailed == items[k].playedAt
  {
    TransformRow(items, k);
    TransformSucceeds(items);
  }

  /**
   * The verdict on a transformed batch: empty when there were no items; a key failure when
   * two items share a timestamp, whatever nulls there are; a null failure when keys are
   * unique and some item carries a null; otherwise the batch passes. The date and timestamp
   * columns are never null, so only those three sources of null remain.
   */
  lemma {:induction false} ValidateTransformed(items: seq<RawItem>)
    requires Transform(items).Success?
    ensures ValidData(Transform(items).value) ==
      if |items| == 0 then Empty
      else if !TimestampsUnique(items) then DuplicateKey
      else if exists k :: 0 <= k < |items| && CarriesNull(items[k]) then NullValue
      else Ok
  {
    var rows := Transform(items).value;
    TransformSucceeds(items);
    forall k | 0 <= k < |items|
      ensures rows[k].HasNull() <==> CarriesNull(items[k])
      ensures rows[k].playedAtDetailed == items[k].playedAt
    {
      RowNullIffCarriesNull(items, k);
    }
    assert KeysUnique(rows) <==> TimestampsUnique(items);
    assert SomeNull(rows) <==> exists k :: 0 <= k < |items| && CarriesNull(items[k]);
  }
}
