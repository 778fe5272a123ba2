# Music Exploration Tool: data-handling core in Dafny

This project models the data-handling core of the Music Exploration Tool's
`methods.py`: the step that turns a Spotify playlist into a table of track
features, and the steps that clean that table and fold it into the stored
master table. Tables are modelled as an ordered list of column labels plus
an ordered list of rows. A row maps column labels to opaque cell values. A
label missing from a row's map is a NaN cell.

Modules, one per concern:

- `Sequences` (sequences.dfy): distinctness, and the keep-first-occurrence
  deduplication that `drop_duplicates` applies to rows and `concat` applies
  to column labels.
- `Frames` (frames.dfy): values, rows, tables, one-row frames, `Option` and
  `Result`, and well-formedness.
- `Artists` (artists.dfy): `get_artists`, a loop that collects names,
  followed by `", ".join`.
- `Analysis` (analysis.dfy): the response dictionary that
  `get_audio_analysis` updates in place. It is a class with a map field;
  `Pop` is `dict.pop(key, None)`.
- `Ingestion` (ingestion.dfy): `create_df`, a loop that builds one frame
  per playlist item and appends it to the table.
- `Cleaning` (cleaning.dfy): `clean_df`, which projects onto `df_columns`
  and then adds the annotation columns in a loop.
- `Master` (master.dfy): the merge inside `save_master_df`, as a function
  from the optional old master and the new table to the new master.

Re-saving is idempotent only once a master file exists: the first save
(methods.py:142-144) stores the table without `drop_duplicates`, so
`Master.MergeIdempotent` assumes an existing master and
`Master.FirstMergeNotIdempotent` shows that a first save of any table with a
repeated row is not.

## Model

| member | source | states |
|---|---|---|
| Sequences.Dedup | methods.py:139 | the result has no repeated element and holds exactly the elements of the input |
| Sequences.DedupKeepsFirstOccurrenceOrder | methods.py:139 | kept elements are ordered by their first occurrence in the input |
| Sequences.DedupOfDedupAppend | methods.py:137-139 | deduplicating before appending more and deduplicating again is the same as deduplicating once |
| Sequences.DedupAbsorbs | methods.py:137-139 | appending only elements that already occur to a duplicate-free sequence and deduplicating gives it back |
| Master.Merge | methods.py:136-144 | with no master the new table is stored unchanged; otherwise no row or column label repeats, and a row (a label) is in the result exactly when it is in the old master or in the new table |
| Master.MergeKeepsOrder | methods.py:138-139 | kept rows keep the relative order of old master followed by new table, each at its first occurrence |
| Master.MergeAppendsOnly | methods.py:138-139 | a duplicate-free old master, with its columns, stays unchanged at the front of the new master |
| Master.MergeOfKnownRows | methods.py:137-141 | saving a table whose rows and columns the duplicate-free master already holds leaves the master unchanged |
| Master.MergeIdempotent | methods.py:137-141 | once a master exists, saving the same table twice gives the master the first save gave |
| Master.FirstMergeNotIdempotent | methods.py:142-144 | for every table with a repeated row, the first save stores its rows unchanged, repetition included, and saving it again changes the master |
| Master.MergeDropsSharedRow | methods.py:138-139 | master [A, B] with [B, C] saved gives [A, B, C] |
| Master.MergeWellFormed | methods.py:137-144 | merging well-formed tables gives a well-formed master |
| Artists.GetArtists | methods.py:171-177 | the result is the names joined by ", ", in input order; no artists gives "" and one artist gives its name |
| Artists.Join | methods.py:176 | `", ".join`: no parts give "" and one part gives that part; its layout is stated by Artists.JoinAt and Artists.JoinLength |
| Artists.JoinLength | methods.py:176 | the joined string's length is the parts' total length plus one separator per neighbouring pair |
| Artists.JoinAt | methods.py:176 | every part sits unchanged at its offset, followed by the separator unless it is the last |
| Artists.ArtistStringInOrder | methods.py:173-176 | the k-th artist's name sits at its offset, followed by ", " and the next artist's name when one follows |
| Analysis.Stripped | methods.py:194-196 | a key is kept exactly when it is present and not one of bars, beats, segments, tatums or meta; kept values are unchanged |
| Analysis.StrippedIdempotent | methods.py:194-196 | stripping twice is stripping once, and a response without those keys passes through unchanged |
| Analysis.AudioAnalysis.Pop | methods.py:196 | removes the key and returns its old value, or returns nothing when it is absent; no other entry changes |
| Analysis.AudioAnalysis.StripBulkyKeys | methods.py:194-196 | after the loop the dictionary is the stripped form of what it was |
| Analysis.GetAudioAnalysis | methods.py:191-200 | the frame is the flattening of the stripped response |
| Ingestion.JoinColumns | methods.py:212 | `concat(axis=1)` of two one-row frames: distinct labels, exactly those of either frame; a cell under every label either frame has, the feature value winning over the analysis value |
| Ingestion.SetField | methods.py:214-215 | `df_full[col] = v`: `v` under `col`, every other cell as it was; the old labels stay at the front and only `col` may be added |
| Ingestion.AppendFrame | methods.py:216 | `concat(ignore_index=True)`: the frame's cells become the last row; labels are distinct, exactly those of either side, and a duplicate-free label list stays at the front |
| Ingestion.TrackFrameCells | methods.py:212-215 | a track frame holds the artist string and the track name, and elsewhere the feature value, else the analysis value |
| Ingestion.TrackDf | methods.py:209-215 | the loop body builds exactly the item's track frame |
| Ingestion.AssembleStep | methods.py:216 | appending a frame to the assembled table is assembling one frame more |
| Ingestion.AssembledRowsNamed | methods.py:208-216 | row i carries item i's artist string and track name |
| Ingestion.CreateDf | methods.py:205-217 | one row per playlist item, in item order, with distinct column labels; row i has item i's artist string and name |
| Ingestion.AssembleWellFormed | methods.py:216 | concatenating well-formed one-row frames gives a well-formed table |
| Ingestion.TrackFrameWellFormed | methods.py:212-215 | a track frame built from well-formed fetched frames is well-formed |
| Ingestion.AssembledWellFormed | methods.py:207-217 | when the fetched frames are well-formed, the table `create_df` builds is well-formed |
| Cleaning.Missing | methods.py:224 | a label is reported missing exactly when it is requested and not a column |
| Cleaning.Restrict | methods.py:224 | a row's cells under the requested labels, unchanged, and no others |
| Cleaning.SetColumn | methods.py:228 | `dataframe[col] = v`: every row gets `v` under `col`, every other cell as it was, the same row count; old labels stay at the front, only `col` may be added, and distinct labels stay distinct |
| Cleaning.Select | methods.py:224 | fails, naming the missing labels, exactly when a requested label is not a column; otherwise gives exactly the requested columns, the same row count and the cells under them unchanged |
| Cleaning.CanonicalColumnsDistinct | methods.py:21-48 | the canonical labels are distinct |
| Cleaning.CleanColumnsDistinct | methods.py:21-48 | no annotation label (moods, notes, cluster) is canonical, and the cleaned labels are distinct |
| Cleaning.AnnotationGuardAlwaysHolds | methods.py:224-228 | after the projection, each annotation label is absent when the loop reaches it, so the guard always passes |
| Cleaning.SetColumnCleans | methods.py:227-228 | adding an empty non-canonical annotation column to cleaned rows keeps them cleaned |
| Cleaning.CleanDf | methods.py:222-229 | fails, naming the missing labels, exactly when a canonical column is missing; otherwise the columns are the canonical ones then moods, notes, cluster, the table is well-formed, the row count is unchanged, and each row keeps its canonical cells and has "" under each annotation |

## Left out

- Pickle and file I/O, the `exists` test and the timestamped snapshot paths: the file's state is the optional old master passed to `Master.Merge`. `save_df` and `load_df` are I/O only and are not modelled.
- The Spotify client and its calls (`get_spotipy_info`, `get_playlist`, `get_audio_features`, `audio_analysis`): network I/O. Their results are parameters. `features` and `analysis` are functions of the track id, which matches the caching around the fetchers.
- `flatten` and building a one-row frame from its output: library behaviour. It is an uninterpreted function parameter of `Analysis.GetAudioAnalysis` and `Ingestion.CreateDf`. Because the stripped response is an unordered map, the model's `flatten` cannot depend on the key order of the API response; the real `flatten` and `DataFrame.from_dict` follow that order, and it decides the column order of the table `create_df` builds (before `clean_df` fixes the order).
- Streamlit caching decorators: memoization, not behaviour.
- The constant lists `track_moods`, `visual_cols` and `feature_cols`: no modelled function uses them.
- Clustering, scaling and floating-point feature values: cell values are opaque and only compared for equality.
- API records are typed (`ArtistRecord`, `TrackRecord`, `PlaylistItem`), so the `KeyError` raised by a record without `name`, `track`, `id` or `artists`, and a `None` track, are not modelled.
- Ingestion.TrackDf: when the features and the flattened analysis share a column label, `concat(axis=1)` keeps both columns. The model keeps one label holding the feature value.
- pandas index handling and dtypes: the row index `ignore_index` renumbers is not modelled, and `drop_duplicates` compares rows by their cells, with NaN cells (absent labels) equal to each other.
- NaN filling on `concat`: a row of the new table that lacks one of the master's columns is regarded as holding NaN there, as pandas fills it; the model does not store the NaN explicitly.
