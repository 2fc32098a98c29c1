/** What a record is after a write and a read of its manifest: the preview's objects have their
    members sorted by name, everything else is as it was. */
module Rereading {
  import opened Basics
  import opened JsonModel
  import opened JsonValues
  import opened Model

  function SortedRows(rows: seq<seq<Json>>): (r: seq<seq<Json>>)
    ensures |r| == |rows|
  {
    if rows == [] then [] else [SortedItems(rows[0])] + SortedRows(rows[1..])
  }

  function SortedShape(shape: Shape): Shape { shape.(preview := SortedRows(shape.preview)) }

  function Reread(r: ResultRecord): ResultRecord { r.(shape := SortedShape(r.shape)) }

  predicate ProperRows(rows: seq<seq<Json>>) {
    forall i, j :: 0 <= i < |rows| && 0 <= j < |rows[i]| ==> Proper(rows[i][j])
  }

  /** Reading a manifest once is reading it any number of times. */
  lemma {:induction false} RowsTwice(rows: seq<seq<Json>>)
    requires ProperRows(rows)
    ensures SortedRows(SortedRows(rows)) == SortedRows(rows)
  {
    if rows != [] {
      forall i, j | 0 <= i < |rows[1..]| && 0 <= j < |rows[1..][i]| ensures Proper(rows[1..][i][j]) {
        assert rows[1..][i] == rows[i + 1];
      }
      RowsTwice(rows[1..]);
      ItemsTwice(rows[0]);
    }
  }

  lemma RereadTwice(r: ResultRecord)
    requires ProperRows(r.shape.preview)
    ensures Reread(Reread(r)) == Reread(r)
  {
    RowsTwice(r.shape.preview);
  }

  // {"b": 1, "a": 2}, what a DuckDB STRUCT cell may become
  const STRUCT_CELL: Json := JObject([Member([98], JInt(1)), Member([97], JInt(2))])

  /** A preview that a hit does not give back to the letter. */
  lemma MembersMove()
    ensures Proper(STRUCT_CELL)
    ensures SortedRows([[STRUCT_CELL]]) == [[JObject([Member([97], JInt(2)), Member([98], JInt(1))])]]
    ensures SortedRows([[STRUCT_CELL]])[0][0] != STRUCT_CELL
  {
    var b, a := Member([98], JInt(1)), Member([97], JInt(2));
    assert STRUCT_CELL.members == [b, a] && [b, a][1..] == [a] && [a][1..] == [];
    assert Before([97], [98]) && !Before([98], [97]);
    assert SortedMembers([a]) == [a];
    assert SortedMembers([b, a]) == InsertMember(b, [a]) == [a] + InsertMember(b, []) == [a, b];
    OneRow(STRUCT_CELL);
    assert Sorted(STRUCT_CELL).members[0] != STRUCT_CELL.members[0];
  }

  lemma OneRow(cell: Json)
    ensures SortedRows([[cell]]) == [[Sorted(cell)]]
  {
    assert [cell][1..] == [] && [[cell]][1..] == [];
    assert SortedItems([cell]) == [Sorted(cell)];
  }
}
