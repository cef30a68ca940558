# Spotify recently-played ETL: the transformer and the validator

This project models the two data-handling steps of a small weekly ETL job. The job fetches
a user's 50 most recently played tracks from the Spotify Web API and turns them into a
five-column table:

- **Transformer** (`recent_tracks`). It flattens each nested item of the response into one
  row: `track_name`, `album_name`, `artists`, `played_at` and `played_at_detailed`.
  - `artists` is the album's artist names, joined by `", "` in listed order.
  - `played_at` is the first ten characters of the play timestamp.
  - `played_at_detailed` is the whole timestamp.
- **Validator** (`valid_data`). It checks the batch in three steps, in a fixed order:
  1. An empty batch returns `False`.
  2. A repeated `played_at_detailed` (the table's primary key) raises.
  3. A null cell raises.

  Otherwise it returns `None`.

Modules:

- `Wrappers` (wrappers.dfy): `Option` stands for JSON `null` and pandas null cells. `Result`
  stands for the exceptions.
- `PlayEvents` (play_events.dfy): `RawItem`, one item of the response. Every field that can
  be `null` is an `Option`. `Row` is one row of the batch.
- `Transformer` (transformer.dfy): `RecentTracks` is the source's two passes as a method with
  loops. `AlbumArtists` is its inner artist-joining loop. `RecentTracks` is proved equal to the
  specification function `Transform`, and `AlbumArtists` to `ArtistsCell`. Both are built
  from `Join` and `DateOf`.
- `TransformProps` (transform_props.dfy): what `Transform`'s result means in terms of the
  raw items.
- `Validate` (validate.dfy): `ValidData`. Each check is written the way pandas performs it:
  `.empty`, `.is_unique` as "distinct count equals row count", and
  `.isnull().values.any()` over the flattened cells. Each check is then proved equal to its
  plain meaning.
- `Pipeline` (pipeline.dfy): the verdict that the validator gives a transformed batch,
  stated in terms of the raw items.

The source handles failures as follows. The model keeps every one of these error paths:

- A `null` timestamp raises `TypeError` in the first pass (lines 32-40).
- An album with no artists raises `IndexError` in the second pass (line 46).
- With two or more album artists, a `null` name raises `TypeError` when it is concatenated
  (lines 46-49).
- A single `null` artist name is copied into the row as a null cell, without an error.

The first pass runs over every item before the second pass starts. So a missing timestamp
anywhere in the batch is reported ahead of an artist fault, even one that comes earlier in
the list.

Two further facts about the source:

- The null check (spotify_etl.py:67) rejects only null cells, so an empty string passes.
- An album with zero artists raises `IndexError` at line 46. This is modelled as the
  `NoAlbumArtists` fault.

## Model

| member | source | states |
|---|---|---|
| Transformer.DateOf | spotify_etl.py:35 | `played_at` is a prefix of the timestamp, ten characters long, or the whole timestamp when that is shorter |
| Transformer.AlbumArtists | spotify_etl.py:46-49 | the loop starts from the first album artist's name and appends `", "` plus each later name. Its result equals `ArtistsCell`: an error for no artists, the single name (null included) for one artist, the join for several non-null names, an error for a null among several |
| Transformer.JoinSnoc | spotify_etl.py:47-49 | appending one name to the list appends `", "` and that name to the joined string. This is the step that ties the left-to-right `+=` loop to `Join` |
| Transformer.RecentTracks | spotify_etl.py:26-52 | the two passes and the column concatenation give exactly `Transform(items)`: the same rows, or the same first failing item and fault |
| TransformProps.ArtistsCellSucceeds | spotify_etl.py:46-49 | an artists cell exists exactly for one name, or for several names none of which is null. No artists is the index error. One artist gives that name unchanged |
| TransformProps.JoinExamples | spotify_etl.py:46-49 | one name joins to itself; `["A","B","C"]` joins to `"A, B, C"` |
| TransformProps.JoinKeepsOrder | spotify_etl.py:47-49 | the joined string keeps the list order: it begins with the first name, and with the join of any leading part of the list followed by `", "` |
| TransformProps.TransformSucceeds | spotify_etl.py:32-50 | the transformation succeeds exactly when every item has a timestamp and usable album artists, and then it gives one row per item |
| TransformProps.TransformRow | spotify_etl.py:33-36 | row k comes from item k. It copies the track and album names, keeps the whole timestamp as `played_at_detailed`, and keeps the first ten characters (a prefix) as `played_at`. Its artists are the album's lone artist name or the join of its artist names |
| TransformProps.TransformFails | spotify_etl.py:32-50 | a failure names an item in the batch. The fault is a null timestamp exactly when some item has one, and then it names the first such item. Otherwise the fault names the first item whose album artists give no cell, and it is the no-artists fault exactly when that album has no artists |
| TransformProps.NoArtistsFails | spotify_etl.py:46 | an album with zero artists makes the transformation fail; it never gives an empty `artists` cell |
| TransformProps.IgnoresTrackArtists | spotify_etl.py:46 | items that differ only in the track's own artist list transform identically, so `artists` comes from the album |
| TransformProps.TransformExample | spotify_etl.py:32-52 | an item played at `2024-01-05T10:15:30Z` by album artists A, B and C becomes the row (track, album, `"A, B, C"`, `"2024-01-05"`, `"2024-01-05T10:15:30Z"`) |
| Validate.DistinctCount | spotify_etl.py:62 | a column has as many distinct values as entries exactly when no two entries are equal (the `is_unique` test). It never has more |
| Validate.NullInCells | spotify_etl.py:67 | the flattened cells contain a null exactly when some row has a null column (the `isnull().values.any()` test) |
| Validate.ValidData | spotify_etl.py:56-68 | empty exactly for an empty batch. Otherwise a key failure exactly when two rows share `played_at_detailed`, whatever nulls there are. With unique keys, a null failure exactly when some cell is null. Otherwise the batch passes (`None`) |
| Pipeline.RowNullIffCarriesNull | spotify_etl.py:33-50 | a transformed row has a null cell exactly when its item's track name or album name is null, or its lone album artist's name is null. Its key is the item's timestamp |
| Pipeline.ValidateTransformed | spotify_etl.py:26-68 | the verdict on a transformed batch, stated in terms of its items: empty for no items; a key failure when two items share a timestamp; a null failure when keys are unique and some item carries a null; otherwise the batch passes |

## Left out

- The API call `api_to_json` (spotify_etl.py:12-22) is OAuth and HTTP through a foreign
  client library. The model takes the response's `items` list as its input. The source's
  test `len(...) == 0` measures the whole response object, not `items`. So a response with
  no items still reaches the validator, where it gets the `Empty` verdict.
- The source fetches again on every use: `recent_tracks` fetches twice and `valid_data`
  calls `recent_tracks` three times. The model runs every stage on one fixed item sequence.
- `create_db` (spotify_etl.py:72-91) creates a SQLite table and overwrites it through a
  database library that is not part of this model.
- The weekly `schedule` registrations and the one-second polling loop (spotify_etl.py:95-102)
  are wall-clock scheduling. So is the source's pipeline order: fetch, transform, validate
  and store are registered as four separate jobs, and the store job does not consult the
  validator's verdict.
- The message that `valid_data` prints for an empty batch (spotify_etl.py:59) is output
  only. The `Empty` verdict stands for it.
- The model assumes every key the transformer reads exists in the response. So the
  `KeyError` for a missing key, and values of a type other than string or null, are not
  modelled.
- pandas' own machinery (`DataFrame`, `concat`, `Series`) is modelled by its meaning over a
  sequence of rows, not as library code.
