/**
 * `create_df` (methods.py): one row per playlist item, in item order,
 * made of the track's audio features and flattened audio analysis, with
 * the artist string and the track name attached.
 *
 * The music API is not part of this model: `features` and `analysis` give
 * what the API returns for a track id (the caching decorators make each a
 * function of the id), and `flatten` stands for the flattening library.
 */
module Ingestion {
  import opened Sequences
  import opened Frames
  import opened Artists
  import opened Analysis

  /** The fields of a playlist item's track that the pipeline reads. */
  datatype TrackRecord = TrackRecord(id: string, name: string, artists: seq<ArtistRecord>)

  datatype PlaylistItem = PlaylistItem(track: TrackRecord)

  /**
   * `pd.concat([features, analysis], axis=1)` on two one-row frames: the
   * analysis columns go after the feature columns.
   */
  function JoinColumns(features: Record, analysis: Record): (r: Record)
    ensures NoDup(r.columns)
    ensures forall c :: c in r.columns <==> c in features.columns || c in analysis.columns
    ensures forall c :: c in r.cells <==> c in features.cells || c in analysis.cells
    ensures forall c :: c in features.cells ==> r.cells[c] == features.cells[c]
    ensures forall c :: c !in features.cells && c in analysis.cells ==> r.cells[c] == analysis.cells[c]
  {
    Record(Dedup(features.columns + analysis.columns), analysis.cells + features.cells)
  }

  /** `frame[col] = v` on a one-row frame. */
  function SetField(frame: Record, col: string, v: Value): (r: Record)
    ensures col in r.cells && r.cells[col] == v
    ensures forall c :: c != col ==> (c in r.cells <==> c in frame.cells)
    ensures forall c :: c != col && c in frame.cells ==> r.cells[c] == frame.cells[c]
    ensures frame.columns <= r.columns && col in r.columns
    ensures forall c :: c in r.columns ==> c in frame.columns || c == col
  {
    Record(if col in frame.columns then frame.columns else frame.columns + [col],
           frame.cells[col := v])
  }

  /** `pd.concat([dataframe, frame], ignore_index=True)`. */
  function AppendFrame(t: Table, frame: Record): (r: Table)
    ensures r.rows == t.rows + [frame.cells]
    ensures NoDup(r.columns)
    ensures forall c :: c in r.columns <==> c in t.columns || c in frame.columns
    ensures NoDup(t.columns) ==> t.columns <= r.columns
  {
    DedupPrefix(t.columns, frame.columns);
    var r := Table(Dedup(t.columns + frame.columns), t.rows + [frame.cells]);
    if NoDup(t.columns) then DedupOfNoDup(t.columns); r else r
  }

  /** The one-row frame built for one playlist item. */
  function TrackFrame<J>(item: PlaylistItem, features: string -> Record,
                         analysis: string -> map<string, J>,
                         flatten: map<string, J> -> Record): Record
  {
    var id := item.track.id;
    var full := JoinColumns(features(id), flatten(Stripped(analysis(id))));
    SetField(SetField(full, "artist", Text(ArtistString(item.track.artists))),
             "name", Text(item.track.name))
  }

  /** The frames of the items, in item order. */
  function TrackFrames<J>(items: seq<PlaylistItem>, features: string -> Record,
                          analysis: string -> map<string, J>,
                          flatten: map<string, J> -> Record): (frames: seq<Record>)
    ensures |frames| == |items|
  {
    seq(|items|, i requires 0 <= i < |items| => TrackFrame(items[i], features, analysis, flatten))
  }

  /** The column labels of the frames, one frame after the other. */
  function ColumnsOf(frames: seq<Record>): seq<string>
  {
    if frames == [] then []
    else ColumnsOf(frames[..|frames| - 1]) + frames[|frames| - 1].columns
  }

  /** The cells of the frames, one row per frame. */
  function RowsOf(frames: seq<Record>): (rows: seq<Row>)
    ensures |rows| == |frames|
  {
    if frames == [] then []
    else RowsOf(frames[..|frames| - 1]) + [frames[|frames| - 1].cells]
  }

  /**
   * One-row frames concatenated: every label in order of first
   * appearance, and one row per frame, in order.
   */
  function Assemble(frames: seq<Record>): Table
  {
    Table(Dedup(ColumnsOf(frames)), RowsOf(frames))
  }

  /** The table `create_df` builds from a playlist. */
  function Assembled<J>(items: seq<PlaylistItem>, features: string -> Record,
                        analysis: string -> map<string, J>,
                        flatten: map<string, J> -> Record): Table
  {
    Assemble(TrackFrames(items, features, analysis, flatten))
  }

  /** Row `k` of the concatenation is the cells of frame `k`. */
  lemma {:induction false} RowsOfAt(frames: seq<Record>, k: nat)
    requires k < |frames|
    ensures RowsOf(frames)[k] == frames[k].cells
  {
    var n := |frames| - 1;
    if k < n {
      RowsOfAt(frames[..n], k);
    }
  }

  /** Appending one more frame appends its row and unites its labels. */
  lemma AssembleStep(frames: seq<Record>, frame: Record)
    ensures Assemble(frames + [frame]) == AppendFrame(Assemble(frames), frame)
  {
    var all := frames + [frame];
    assert all[..|all| - 1] == frames;
    DedupOfDedupAppend(ColumnsOf(frames), frame.columns);
  }

  /** Each frame's labels are among the labels of the concatenation. */
  lemma {:induction false} ColumnsOfCover(frames: seq<Record>, k: nat)
    requires k < |frames|
    ensures forall c :: c in frames[k].columns ==> c in ColumnsOf(frames)
  {
    var n := |frames| - 1;
    if k < n {
      ColumnsOfCover(frames[..n], k);
    }
  }

  /**
   * What a track frame holds: the artist string and the track name under
   * "artist" and "name", and under every other label the feature value, or
   * the analysis value when the features lack that label.
   */
  lemma TrackFrameCells<J>(item: PlaylistItem, features: string -> Record,
                           analysis: string -> map<string, J>,
                           flatten: map<string, J> -> Record)
    ensures var cells := TrackFrame(item, features, analysis, flatten).cells;
            var f := features(item.track.id).cells;
            var a := flatten(Stripped(analysis(item.track.id))).cells;
            && "artist" in cells && cells["artist"] == Text(ArtistString(item.track.artists))
            && "name" in cells && cells["name"] == Text(item.track.name)
            && forall c :: c != "artist" && c != "name" ==>
                 (c in cells <==> c in f || c in a) &&
                 (c in f ==> cells[c] == f[c]) &&
                 (c !in f && c in a ==> cells[c] == a[c])
  {
  }

  /**
   * The body of the `create_df` loop for one item: fetch the features and
   * the analysis of its track, join them, attach the artist string and the
   * track name.
   */
  method TrackDf<J>(item: PlaylistItem, features: string -> Record,
                    analysis: string -> map<string, J>,
                    flatten: map<string, J> -> Record)
    returns (dfFull: Record)
    ensures dfFull == TrackFrame(item, features, analysis, flatten)
  {
    var trackId := item.track.id;
    var dfFeatures := features(trackId);
    var dfAnalysis := GetAudioAnalysis(analysis(trackId), flatten);
    dfFull := JoinColumns(dfFeatures, dfAnalysis);
    var artist := GetArtists(item.track.artists);
    dfFull := SetField(dfFull, "artist", Text(artist));
    dfFull := SetField(dfFull, "name", Text(item.track.name));
  }

  /**
   * `create_df`: for each item in turn, fetch, join, attach the artist
   * string and the name, and append the frame to the table.
   */
  method CreateDf<J>(playlist: seq<PlaylistItem>, features: string -> Record,
                     analysis: string -> map<string, J>,
                     flatten: map<string, J> -> Record)
    returns (dataframe: Table)
    ensures dataframe == Assembled(playlist, features, analysis, flatten)
    ensures |dataframe.rows| == |playlist|
    ensures NoDup(dataframe.columns)
    ensures forall i :: 0 <= i < |playlist| ==>
              && "artist" in dataframe.rows[i]
              && dataframe.rows[i]["artist"] == Text(ArtistString(playlist[i].track.artists))
              && "name" in dataframe.rows[i]
              && dataframe.rows[i]["name"] == Text(playlist[i].track.name)
  {
    ghost var frames := TrackFrames(playlist, features, analysis, flatten);
    dataframe := Table([], []);
    for i := 0 to |playlist|
      invariant dataframe == Assemble(frames[..i])
    {
      var dfFull := TrackDf(playlist[i], features, analysis, flatten);
      assert frames[i] == dfFull;
      TakeOneMore(frames, i);
      AssembleStep(frames[..i], dfFull);
      dataframe := AppendFrame(dataframe, dfFull);
    }
    assert frames[..|playlist|] == frames;
    AssembledRowsNamed(playlist, features, analysis, flatten);
  }

  /**
   * Row `i` of the assembled table carries item `i`'s artist string and
   * track name.
   */
  lemma AssembledRowsNamed<J>(items: seq<PlaylistItem>, features: string -> Record,
                              analysis: string -> map<string, J>,
                              flatten: map<string, J> -> Record)
    ensures var rows := Assembled(items, features, analysis, flatten).rows;
            forall i :: 0 <= i < |items| ==>
              && "artist" in rows[i]
              && rows[i]["artist"] == Text(ArtistString(items[i].track.artists))
              && "name" in rows[i]
              && rows[i]["name"] == Text(items[i].track.name)
  {
    forall i | 0 <= i < |items|
      ensures var row := Assembled(items, features, analysis, flatten).rows[i];
              && "artist" in row
              && row["artist"] == Text(ArtistString(items[i].track.artists))
              && "name" in row
              && row["name"] == Text(items[i].track.name)
    {
      RowsOfAt(TrackFrames(items, features, analysis, flatten), i);
      TrackFrameCells(items[i], features, analysis, flatten);
    }
  }

  /** Concatenating well-formed one-row frames gives a well-formed table. */
  lemma AssembleWellFormed(frames: seq<Record>)
    requires forall k :: 0 <= k < |frames| ==> RecordWellFormed(frames[k])
    ensures WellFormed(Assemble(frames))
  {
    var t := Assemble(frames);
    forall i | 0 <= i < |t.rows|
      ensures forall c :: c in t.rows[i] ==> c in t.columns
    {
      RowsOfAt(frames, i);
      ColumnsOfCover(frames, i);
    }
  }

  /** A track frame built from well-formed API frames is well-formed. */
  lemma TrackFrameWellFormed<J>(item: PlaylistItem, features: string -> Record,
                                analysis: string -> map<string, J>,
                                flatten: map<string, J> -> Record)
    requires RecordWellFormed(features(item.track.id))
    requires RecordWellFormed(flatten(Stripped(analysis(item.track.id))))
    ensures RecordWellFormed(TrackFrame(item, features, analysis, flatten))
  {
    var id := item.track.id;
    var full := JoinColumns(features(id), flatten(Stripped(analysis(id))));
    JoinColumnsWellFormed(features(id), flatten(Stripped(analysis(id))));
    var named := SetField(full, "artist", Text(ArtistString(item.track.artists)));
    SetFieldWellFormed(full, "artist", Text(ArtistString(item.track.artists)));
    SetFieldWellFormed(named, "name", Text(item.track.name));
  }

  /** Joining two well-formed one-row frames gives a well-formed frame. */
  lemma JoinColumnsWellFormed(features: Record, analysis: Record)
    requires RecordWellFormed(features) && RecordWellFormed(analysis)
    ensures RecordWellFormed(JoinColumns(features, analysis))
  {
  }

  /** Setting a field of a well-formed one-row frame keeps it well-formed. */
  lemma SetFieldWellFormed(frame: Record, col: string, v: Value)
    requires RecordWellFormed(frame)
    ensures RecordWellFormed(SetField(frame, col, v))
  {
    if col !in frame.columns {
      NoDupConcat(frame.columns, [col]);
    }
  }

  /**
   * When the API returns well-formed frames, the table `create_df` builds
   * is well-formed: every cell sits under one of its distinct labels.
   */
  lemma AssembledWellFormed<J>(items: seq<PlaylistItem>, features: string -> Record,
                               analysis: string -> map<string, J>,
                               flatten: map<string, J> -> Record)
    requires forall id :: RecordWellFormed(features(id))
    requires forall m :: RecordWellFormed(flatten(m))
    ensures WellFormed(Assembled(items, features, analysis, flatten))
  {
    var frames := TrackFrames(items, features, analysis, flatten);
    forall k | 0 <= k < |frames|
      ensures RecordWellFormed(frames[k])
    {
      var id := items[k].track.id;
      assert RecordWellFormed(features(id));
      assert RecordWellFormed(flatten(Stripped(analysis(id))));
      TrackFrameWellFormed(items[k], features, analysis, flatten);
    }
    AssembleWellFormed(frames);
  }
}
