/**
 * The pure part of `save_master_df` (methods.py): how the stored master
 * table changes when a new table is saved. Reading and writing the pickle
 * file are left out; the file's state is the optional old master.
 */
module Master {
  import opened Sequences
  import opened Frames

  /**
   * The master table after saving `t`. Without a master, `t` is stored as
   * it is, without deduplication. Otherwise the master is the two tables
   * concatenated (columns united in order of first appearance) with exact
   * duplicate rows dropped, keeping first occurrences.
   */
  function Merge(master: Option<Table>, t: Table): (r: Table)
    ensures master.None? ==> r == t
    ensures master.Some? ==> NoDup(r.rows) && NoDup(r.columns)
    ensures master.Some? ==>
              forall row :: row in r.rows <==> row in master.value.rows || row in t.rows
    ensures master.Some? ==>
              forall c :: c in r.columns <==> c in master.value.columns || c in t.columns
  {
    match master
    case None => t
    case Some(m) => Table(Dedup(m.columns + t.columns), Dedup(m.rows + t.rows))
  }

  /**
   * Rows of the merged master keep the relative order of the old master
   * followed by the new table: of two kept rows, the earlier one first
   * occurs earlier in that concatenation.
   */
  lemma MergeKeepsOrder(m: Table, t: Table)
    ensures var r := Merge(Some(m), t);
            forall i, j :: 0 <= i < j < |r.rows| ==>
              FirstIndex(m.rows + t.rows, r.rows[i]) < FirstIndex(m.rows + t.rows, r.rows[j])
  {
    DedupKeepsFirstOccurrenceOrder(m.rows + t.rows);
  }

  /**
   * The master only grows at the end: what deduplicating the old master
   * alone keeps is a prefix of the new master, and an old master without
   * duplicate rows (every master that came from a merge) is kept
   * unchanged at the front, and so are its columns.
   */
  lemma MergeAppendsOnly(m: Table, t: Table)
    ensures Dedup(m.rows) <= Merge(Some(m), t).rows
    ensures NoDup(m.rows) ==> m.rows <= Merge(Some(m), t).rows
    ensures NoDup(m.columns) ==> m.columns <= Merge(Some(m), t).columns
  {
    DedupPrefix(m.rows, t.rows);
    DedupPrefix(m.columns, t.columns);
    if NoDup(m.rows) {
      DedupOfNoDup(m.rows);
    }
    if NoDup(m.columns) {
      DedupOfNoDup(m.columns);
    }
  }

  /**
   * Saving a table whose rows and columns the master already holds leaves
   * a duplicate-free master unchanged.
   */
  lemma MergeOfKnownRows(m: Table, t: Table)
    requires NoDup(m.rows) && NoDup(m.columns)
    requires forall row :: row in t.rows ==> row in m.rows
    requires forall c :: c in t.columns ==> c in m.columns
    ensures Merge(Some(m), t) == m
  {
    DedupAbsorbs(m.rows, t.rows);
    DedupAbsorbs(m.columns, t.columns);
  }

  /**
   * Once a master exists, saving the same table again leaves the master as
   * the first save left it.
   */
  lemma MergeIdempotent(m: Table, t: Table)
    ensures var once := Merge(Some(m), t);
            Merge(Some(once), t) == once
  {
    var once := Merge(Some(m), t);
    MergeOfKnownRows(once, t);
  }

  /**
   * The very first save is not idempotent: a table with a repeated row is
   * stored with the repetition, and saving it again removes it.
   */
  lemma FirstMergeNotIdempotent(t: Table)
    requires !NoDup(t.rows)
    ensures Merge(None, t).rows == t.rows
    ensures Merge(Some(Merge(None, t)), t) != Merge(None, t)
  {
  }

  /**
   * Master {A, B} with {B, C} saved, B identical in both, gives the master
   * {A, B, C}: three rows, not four.
   */
  lemma MergeDropsSharedRow(cols: seq<string>, a: Row, b: Row, c: Row)
    requires a != b && b != c && a != c
    ensures Merge(Some(Table(cols, [a, b])), Table(cols, [b, c])).rows == [a, b, c]
  {
    assert [a, b] + [b, c] == [a, b, b, c];
    DedupDropsRepeat(a, b, c);
  }

  /** Merging well-formed tables gives a well-formed master. */
  lemma MergeWellFormed(master: Option<Table>, t: Table)
    requires master.Some? ==> WellFormed(master.value)
    requires WellFormed(t)
    ensures WellFormed(Merge(master, t))
  {
    if master.Some? {
      var m, r := master.value, Merge(master, t);
      forall i, c | 0 <= i < |r.rows| && c in r.rows[i]
        ensures c in r.columns
      {
        var row := r.rows[i];
        assert row in r.rows;
        if row in m.rows {
          var k :| 0 <= k < |m.rows| && m.rows[k] == row;
        } else {
          var k :| 0 <= k < |t.rows| && t.rows[k] == row;
        }
      }
    }
  }
}
