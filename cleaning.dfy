/**
 * `clean_df` (methods.py): project the wide ingested table onto the
 * canonical columns, then add the empty annotation columns.
 */
module Cleaning {
  import opened Sequences
  import opened Frames

  /** The canonical columns, in the order every cleaned table has them. */
  const DfColumns: seq<string> := [
    "name", "id", "artist", "tempo", "time_signature", "danceability",
    "energy", "key", "loudness", "mode", "speechiness", "acousticness",
    "instrumentalness", "liveness", "valence", "track_num_samples",
    "track_duration", "track_end_of_fade_in", "track_start_of_fade_out",
    "track_tempo_confidence", "track_time_signature_confidence",
    "track_key_confidence", "track_mode_confidence", "duration_ms",
    "track_href", "analysis_url"
  ]

  /** The user-annotation columns, added in this order. */
  const AnnotationColumns: seq<string> := ["moods", "notes", "cluster"]

  /** The value every annotation cell starts with. */
  const EmptyAnnotation: Value := Text("")

  /** Selecting columns the table lacks raises a key error naming them. */
  datatype SchemaError = MissingColumns(missing: seq<string>)

  /** The labels of `cols` that `have` lacks, in the order of `cols`. */
  function Missing(cols: seq<string>, have: seq<string>): (r: seq<string>)
    ensures forall c :: c in r <==> c in cols && c !in have
  {
    if cols == [] then []
    else (if cols[0] in have then [] else [cols[0]]) + Missing(cols[1..], have)
  }

  /** The cells of `row` under the labels in `cols`. */
  function Restrict(row: Row, cols: seq<string>): (r: Row)
    ensures forall c :: c in r <==> c in row && c in cols
    ensures forall c :: c in r ==> r[c] == row[c]
  {
    map c | c in row && c in cols :: row[c]
  }

  /**
   * `dataframe[cols]`: fails, naming the missing labels, when a label is
   * not a column; otherwise keeps exactly the columns `cols`, in that
   * order, and every row's cells under them, unchanged.
   */
  function Select(t: Table, cols: seq<string>): (r: Result<Table, SchemaError>)
    ensures r.Err? <==> exists c :: c in cols && c !in t.columns
    ensures r.Err? ==> r.error == MissingColumns(Missing(cols, t.columns))
    ensures r.Ok? ==> r.value.columns == cols && |r.value.rows| == |t.rows|
    ensures r.Ok? ==> forall i, c :: 0 <= i < |t.rows| ==>
              && (c in r.value.rows[i] <==> c in cols && c in t.rows[i])
              && (c in r.value.rows[i] ==> r.value.rows[i][c] == t.rows[i][c])
  {
    var missing := Missing(cols, t.columns);
    if missing != [] then
      assert missing[0] in missing;
      Err(MissingColumns(missing))
    else
      Ok(Table(cols, seq(|t.rows|, i requires 0 <= i < |t.rows| => Restrict(t.rows[i], cols))))
  }

  /**
   * `dataframe[col] = v`: every row gets `v` under `col`; a new label goes
   * after the existing ones.
   */
  function SetColumn(t: Table, col: string, v: Value): (r: Table)
    ensures |r.rows| == |t.rows|
    ensures forall i :: 0 <= i < |r.rows| ==> col in r.rows[i] && r.rows[i][col] == v
    ensures forall i, c :: 0 <= i < |r.rows| && c != col ==>
              && (c in r.rows[i] <==> c in t.rows[i])
              && (c in t.rows[i] ==> r.rows[i][c] == t.rows[i][c])
    ensures t.columns <= r.columns && col in r.columns
    ensures forall c :: c in r.columns ==> c in t.columns || c == col
    ensures NoDup(t.columns) ==> NoDup(r.columns)
  {
    var r := Table(if col in t.columns then t.columns else t.columns + [col],
                   seq(|t.rows|, i requires 0 <= i < |t.rows| => t.rows[i][col := v]));
    if col !in t.columns && NoDup(t.columns) then NoDupConcat(t.columns, [col]); r else r
  }

  /**
   * `out` is the cleaned form of `inp` once the annotation columns `added`
   * are in: the canonical cells `inp` has, unchanged, and an empty
   * annotation under each added label, and nothing else.
   */
  ghost predicate CleanedRow(out: Row, inp: Row, added: seq<string>) {
    && (forall c :: c in out <==> (c in DfColumns && c in inp) || c in added)
    && (forall c :: c in DfColumns && c in inp && c !in added ==> out[c] == inp[c])
    && (forall c :: c in added ==> out[c] == EmptyAnnotation)
  }

  /** The first thirteen canonical labels are distinct. */
  lemma FrontColumnsDistinct()
    ensures NoDup(DfColumns[..13])
  {
  }

  /** The last thirteen canonical labels are distinct. */
  lemma BackColumnsDistinct()
    ensures NoDup(DfColumns[13..])
  {
  }

  /** No label of the back half occurs in the front half. */
  lemma HalvesDisjoint()
    ensures forall i :: 0 <= i < |DfColumns[13..]| ==> DfColumns[13..][i] !in DfColumns[..13]
  {
  }

  /** The canonical labels are distinct. */
  lemma CanonicalColumnsDistinct()
    ensures NoDup(DfColumns)
  {
    FrontColumnsDistinct();
    BackColumnsDistinct();
    HalvesDisjoint();
    NoDupConcat(DfColumns[..13], DfColumns[13..]);
    assert DfColumns[..13] + DfColumns[13..] == DfColumns;
  }

  /** No annotation label is canonical. */
  lemma AnnotationsNotCanonical()
    ensures forall c :: c in AnnotationColumns ==> c !in DfColumns
  {
  }

  /** No annotation label is canonical, and no label of a cleaned table occurs twice. */
  lemma CleanColumnsDistinct()
    ensures NoDup(DfColumns + AnnotationColumns)
    ensures forall c :: c in AnnotationColumns ==> c !in DfColumns
  {
    CanonicalColumnsDistinct();
    AnnotationsNotCanonical();
    NoDupConcat(DfColumns, AnnotationColumns);
  }

  /** Every row of `t` is the cleaned form of the same row of `src`. */
  ghost predicate RowsCleaned(t: Table, src: Table, added: seq<string>) {
    && |t.rows| == |src.rows|
    && forall i :: 0 <= i < |t.rows| ==> CleanedRow(t.rows[i], src.rows[i], added)
  }

  /** The projection is the cleaned form before any annotation column is added. */
  lemma SelectedRowsCleaned(t: Table)
    requires Select(t, DfColumns).Ok?
    ensures RowsCleaned(Select(t, DfColumns).value, t, [])
  {
  }

  /** Adding an empty annotation column that is not canonical extends the cleaned form. */
  lemma SetColumnCleans(t: Table, src: Table, added: seq<string>, col: string)
    requires RowsCleaned(t, src, added)
    requires col !in DfColumns
    ensures RowsCleaned(SetColumn(t, col, EmptyAnnotation), src, added + [col])
  {
  }

  /**
   * `clean_df`. A table lacking a canonical column is an error that names
   * the missing ones. Otherwise the result has exactly the canonical
   * columns followed by moods, notes and cluster, one row per input row,
   * each with the input's canonical cells and empty annotations.
   */
  method CleanDf(dataframe: Table) returns (r: Result<Table, SchemaError>)
    ensures r.Err? <==> exists c :: c in DfColumns && c !in dataframe.columns
    ensures r.Err? ==> r.error == MissingColumns(Missing(DfColumns, dataframe.columns))
    ensures r.Ok? ==> r.value.columns == DfColumns + AnnotationColumns
    ensures r.Ok? ==> WellFormed(r.value)
    ensures r.Ok? ==> |r.value.rows| == |dataframe.rows|
    ensures r.Ok? ==> forall i :: 0 <= i < |dataframe.rows| ==>
              CleanedRow(r.value.rows[i], dataframe.rows[i], AnnotationColumns)
  {
    var selected := Select(dataframe, DfColumns);
    if selected.Err? {
      return selected;
    }
    var df := selected.value;
    SelectedRowsCleaned(dataframe);
    CleanColumnsDistinct();
    for k := 0 to |AnnotationColumns|
      invariant df.columns == DfColumns + AnnotationColumns[..k]
      invariant RowsCleaned(df, dataframe, AnnotationColumns[..k])
    {
      var col := AnnotationColumns[k];
      AnnotationGuardAlwaysHolds(dataframe, k);
      if col !in df.columns {
        SetColumnCleans(df, dataframe, AnnotationColumns[..k], col);
        df := SetColumn(df, col, EmptyAnnotation);
      }
      assert AnnotationColumns[..k + 1] == AnnotationColumns[..k] + [col];
    }
    assert AnnotationColumns[..|AnnotationColumns|] == AnnotationColumns;
    r := Ok(df);
  }

  /**
   * After the projection onto the canonical columns no annotation label is
   * present, so each `if col not in dataframe.columns` test succeeds.
   */
  lemma AnnotationGuardAlwaysHolds(t: Table, k: nat)
    requires Select(t, DfColumns).Ok?
    requires k < |AnnotationColumns|
    ensures AnnotationColumns[k] !in Select(t, DfColumns).value.columns + AnnotationColumns[..k]
  {
    CleanColumnsDistinct();
    assert NoDup(DfColumns + AnnotationColumns);
    var all := DfColumns + AnnotationColumns;
    assert all[|DfColumns| + k] == AnnotationColumns[k];
    forall j | 0 <= j < k
      ensures AnnotationColumns[j] != AnnotationColumns[k]
    {
      assert all[|DfColumns| + j] == AnnotationColumns[j];
    }
  }
}
