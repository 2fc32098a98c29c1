/** What stands in the files and previews that the writer leaves: every value of every row, in its place. */
module WriterContents {
  import opened Basics
  import opened JsonModel
  import opened Model
  import opened JsonText
  import opened JsonValues
  import opened Writer

  // ---- what stands in a file and in a preview ----

  // What a flat value becomes, in the file and in the preview alike.
  predicate Plainly(v: Value, j: Json) {
    match v
    case VNull => j == JNull
    case VBool(b) => j == JBool(b)
    case VInt(i) => j == JInt(i)
    case VFloat(repr) => j == JFloat(repr)
    case VText(t) => j == JText(t)
    case VTemporal(iso) => j == JText(iso)
    case VDecimal(digits) => j == JText(digits)
    case VOther(shown) => j == JText(shown)
    case _ => false
  }

  predicate IsNested(v: Value) { v.VBlob? || v.VList? || v.VDict? }

  /** What a value stands for as JSON: flat ones are as they are, or their texts; a blob is an object with its
      base64 text; a list is the list of what its items stand for; a dictionary is an object with one member
      for each key, of the value of the last pair with that key. */
  ghost predicate Means(v: Value, j: Json)
    decreases v, 0
  {
    match v
    case VBlob(base64) => j == JObject([Member(BASE64, JText(base64))])
    case VList(items) => j.JList? && AllMean(items, j.items)
    case VDict(pairs) => j.JObject? && Arranged(pairs, j.members) && PairsMean(pairs, j.members)
    case _ => Plainly(v, j)
  }

  ghost predicate AllMean(items: seq<Value>, js: seq<Json>)
    decreases items, 1
  {
    |js| == |items| && forall i :: 0 <= i < |items| ==> Means(items[i], js[i])
  }

  ghost predicate PairsMean(pairs: seq<Pair>, members: seq<Member>)
    decreases pairs, 1
  {
    forall m, i | 0 <= m < |members| && 0 <= i < |pairs| && IsLast(pairs, i, members[m].name) ::
      Means(pairs[i].value, members[m].value)
  }

  // One member for each key, in the order in which the keys first come.
  predicate Arranged(pairs: seq<Pair>, members: seq<Member>) {
    && OneEach(members)
    && (forall i :: 0 <= i < |pairs| ==> Has(members, pairs[i].key))
    && (forall m :: 0 <= m < |members| ==> Known(pairs, members[m].name))
    && forall m, n, i, k | 0 <= m < n < |members| && 0 <= i < |pairs| && 0 <= k < |pairs| &&
         IsFirst(pairs, i, members[m].name) && IsFirst(pairs, k, members[n].name) :: i < k
  }

  predicate Known(pairs: seq<Pair>, key: Text) { exists i :: 0 <= i < |pairs| && pairs[i].key == key }

  predicate Has(members: seq<Member>, name: Text) { exists m :: 0 <= m < |members| && members[m].name == name }

  predicate IsLast(pairs: seq<Pair>, i: int, key: Text)
    requires 0 <= i < |pairs|
  {
    pairs[i].key == key && forall j :: i < j < |pairs| ==> pairs[j].key != key
  }

  predicate IsFirst(pairs: seq<Pair>, i: int, key: Text)
    requires 0 <= i < |pairs|
  {
    pairs[i].key == key && forall j :: 0 <= j < i ==> pairs[j].key != key
  }

  // Where the value of a key is put: at its member, or behind the others.
  predicate IsPut(before: seq<Member>, name: Text, value: Json, after: seq<Member>) {
    && |after| == (if Has(before, name) then |before| else |before| + 1)
    && (forall m :: 0 <= m < |before| ==>
          after[m] == if before[m].name == name then Member(name, value) else before[m])
    && (!Has(before, name) ==> after[|before|] == Member(name, value))
  }

  lemma {:induction false} PutExact(members: seq<Member>, name: Text, value: Json)
    requires OneEach(members)
    ensures IsPut(members, name, value, Put(members, name, value))
  {
    if members != [] {
      if members[0].name == name {
        assert Has(members, name);
      } else {
        PutExact(members[1..], name, value);
        PutBehind(members[0], members[1..], name, value, Put(members[1..], name, value));
        assert members == [members[0]] + members[1..];
      }
    }
  }

  lemma PutBehind(first: Member, before: seq<Member>, name: Text, value: Json, after: seq<Member>)
    requires first.name != name && IsPut(before, name, value, after)
    ensures IsPut([first] + before, name, value, [first] + after)
  {
    var all := [first] + before;
    if Has(before, name) {
      var m :| 0 <= m < |before| && before[m].name == name;
      assert all[m + 1].name == name;
    }
    if Has(all, name) {
      var m :| 0 <= m < |all| && all[m].name == name;
      assert before[m - 1].name == name;
    }
  }

  /** Normalising gives what the value stands for. */
  lemma {:induction false} NormalMeans(v: Value)
    ensures Means(v, Normal(v))
    decreases v, 0
  {
    match v {
      case VList(items) => ItemsMean(items);
      case VDict(pairs) =>
        MembersArranged(pairs);
        MembersMean(pairs);
      case _ =>
    }
  }

  lemma {:induction false} ItemsMean(items: seq<Value>)
    ensures AllMean(items, NormalItems(items))
    decreases items, 1
  {
    if items != [] {
      NormalMeans(items[0]);
      ItemsMean(items[1..]);
      var js := NormalItems(items);
      forall i | 0 <= i < |items| ensures Means(items[i], js[i]) {
        if i > 0 { assert items[1..][i - 1] == items[i] && js[1..][i - 1] == js[i]; }
      }
    }
  }

  lemma {:induction false} MembersArranged(pairs: seq<Pair>)
    ensures Arranged(pairs, NormalPairs(pairs))
  {
    if pairs == [] {
      assert NormalPairs(pairs) == [];
    } else {
      var most, last := pairs[..|pairs| - 1], pairs[|pairs| - 1];
      MembersArranged(most);
      PutArranged(most, last, NormalPairs(most), Normal(last.value), pairs);
    }
  }

  lemma PutArranged(pairs: seq<Pair>, last: Pair, before: seq<Member>, value: Json, both: seq<Pair>)
    requires Arranged(pairs, before) && both == pairs + [last]
    ensures Arranged(both, Put(before, last.key, value))
  {
    var after := Put(before, last.key, value);
    PutExact(before, last.key, value);
    PutNamed(pairs, last, before, value, after);
    PutOrder(pairs, last, before, value, after);
  }

  lemma {:induction false} MembersMean(pairs: seq<Pair>)
    ensures PairsMean(pairs, NormalPairs(pairs))
    decreases pairs, 1
  {
    if pairs != [] {
      var most, last := pairs[..|pairs| - 1], pairs[|pairs| - 1];
      MembersMean(most);
      NormalMeans(last.value);
      var before, value := NormalPairs(most), Normal(last.value);
      MembersArranged(most);
      PutExact(before, last.key, value);
      PutValues(most, last, before, value, Put(before, last.key, value));
      assert most + [last] == pairs;
    }
  }

  lemma PutNamed(pairs: seq<Pair>, last: Pair, before: seq<Member>, value: Json, after: seq<Member>)
    requires Arranged(pairs, before) && IsPut(before, last.key, value, after)
    ensures OneEach(after)
    ensures forall i :: 0 <= i < |pairs + [last]| ==> Has(after, (pairs + [last])[i].key)
    ensures forall m :: 0 <= m < |after| ==> Known(pairs + [last], after[m].name)
  {
    var both := pairs + [last];
    assert forall m :: 0 <= m < |before| ==> after[m].name == before[m].name;
    forall i | 0 <= i < |both| ensures Has(after, both[i].key) {
      if Has(before, both[i].key) {
        var m :| 0 <= m < |before| && before[m].name == both[i].key;
        assert after[m].name == both[i].key;
      } else {
        assert forall k :: 0 <= k < |pairs| ==> Has(before, both[k].key);
        assert after[|before|].name == last.key;
      }
    }
    forall m | 0 <= m < |after| ensures Known(both, after[m].name) {
      if m < |before| {
        var i :| 0 <= i < |pairs| && pairs[i].key == before[m].name;
        assert both[i].key == after[m].name;
      } else {
        assert both[|pairs|].key == after[m].name;
      }
    }
  }

  lemma PutValues(pairs: seq<Pair>, last: Pair, before: seq<Member>, value: Json, after: seq<Member>)
    requires PairsMean(pairs, before) && IsPut(before, last.key, value, after)
    requires Means(last.value, value)
    ensures forall m, i | 0 <= m < |after| && 0 <= i < |pairs + [last]| && IsLast(pairs + [last], i, after[m].name) ::
      Means((pairs + [last])[i].value, after[m].value)
  {
    var both := pairs + [last];
    forall m, i | 0 <= m < |after| && 0 <= i < |both| && IsLast(both, i, after[m].name)
      ensures Means(both[i].value, after[m].value)
    {
      if after[m].name == last.key {
        assert both[|pairs|] == last && i == |pairs|;
      } else {
        assert i < |pairs| && both[i] == pairs[i] && after[m] == before[m];
        assert forall j :: i < j < |pairs| ==> pairs[j] == both[j];
        assert IsLast(pairs, i, before[m].name);
      }
    }
  }

  lemma PutOrder(pairs: seq<Pair>, last: Pair, before: seq<Member>, value: Json, after: seq<Member>)
    requires Arranged(pairs, before) && IsPut(before, last.key, value, after)
    ensures forall m, n, i, k | 0 <= m < n < |after| && 0 <= i < |pairs + [last]| && 0 <= k < |pairs + [last]| &&
      IsFirst(pairs + [last], i, after[m].name) && IsFirst(pairs + [last], k, after[n].name) :: i < k
  {
    var both := pairs + [last];
    forall m, n, i, k | 0 <= m < n < |after| && 0 <= i < |both| && 0 <= k < |both| &&
      IsFirst(both, i, after[m].name) && IsFirst(both, k, after[n].name)
      ensures i < k
    {
      FirstBefore(pairs, last, before, value, after, m, i);
      if n < |before| {
        FirstBefore(pairs, last, before, value, after, n, k);
      } else {
        FirstOfNew(pairs, last, before, k);
      }
    }
  }

  lemma FirstOfNew(pairs: seq<Pair>, last: Pair, before: seq<Member>, k: nat)
    requires Arranged(pairs, before) && !Has(before, last.key)
    requires k < |pairs + [last]| && IsFirst(pairs + [last], k, last.key)
    ensures k == |pairs|
  {
    forall i | 0 <= i < |pairs| ensures (pairs + [last])[i].key != last.key { assert Has(before, pairs[i].key); }
  }

  lemma FirstBefore(pairs: seq<Pair>, last: Pair, before: seq<Member>, value: Json, after: seq<Member>, m: nat, i: nat)
    requires Arranged(pairs, before) && IsPut(before, last.key, value, after)
    requires m < |before| && i < |pairs + [last]| && IsFirst(pairs + [last], i, after[m].name)
    ensures i < |pairs| && IsFirst(pairs, i, before[m].name)
  {
    var both := pairs + [last];
    assert after[m].name == before[m].name;
    var f :| 0 <= f < |pairs| && pairs[f].key == before[m].name;
    assert both[f] == pairs[f];
    assert forall j :: 0 <= j < |pairs| ==> both[j] == pairs[j];
  }

  /** What a cell of a line holds: a flat value as it is or as its text, a nested one as the canonical text of
      what it stands for. */
  ghost predicate CellShows(v: Value, cell: Json) {
    if IsNested(v) then exists j :: Means(v, j) && cell == JText(Canonical(j)) else Plainly(v, cell)
  }

  ghost predicate CellsShow(row: Row, cells: seq<Json>) {
    |cells| == |row| && forall j :: 0 <= j < |row| ==> CellShows(row[j], cells[j])
  }

  lemma CellsAreShown(row: Row)
    ensures CellsShow(row, Cells(row))
  {
    forall j | 0 <= j < |row| ensures CellShows(row[j], Cells(row)[j]) { NormalMeans(row[j]); }
  }

  /** A file of the rows: the names of the columns in their order, then for each row in turn a line of its
      cells in their order. */
  ghost predicate FileShows(task: Task, rows: seq<Row>, file: Bytes) {
    exists names: seq<Json>, cells: seq<seq<Json>> ::
      && |names| == |task.columns| && (forall j :: 0 <= j < |names| ==> names[j] == JText(task.columns[j].name))
      && |cells| == |rows| && (forall i :: 0 <= i < |rows| ==> CellsShow(rows[i], cells[i]))
      && task.encode(names).Some? && (forall i :: 0 <= i < |cells| ==> task.encode(cells[i]).Some?)
      && file == task.encode(names).value + Written(task, cells)
  }

  // The lines one after the other.
  function Written(task: Task, lines: seq<seq<Json>>): Bytes
    requires forall i :: 0 <= i < |lines| ==> task.encode(lines[i]).Some?
  {
    if lines == [] then [] else task.encode(lines[0]).value + Written(task, lines[1..])
  }

  lemma {:induction false} LinesShow(task: Task, rows: seq<Row>) returns (cells: seq<seq<Json>>)
    requires Encodable(task, rows)
    ensures |cells| == |rows| && (forall i :: 0 <= i < |rows| ==> CellsShow(rows[i], cells[i]))
    ensures (forall i :: 0 <= i < |cells| ==> task.encode(cells[i]).Some?) && Lines(task, rows) == Written(task, cells)
  {
    cells := [];
    if rows != [] {
      CellsAreShown(rows[0]);
      assert Line(task, rows[0]).Some?;
      var rest := LinesShow(task, rows[1..]);
      cells := [Cells(rows[0])] + rest;
      assert cells[1..] == rest;
    }
  }

  lemma {:induction false} NormalRowsMean(rows: seq<Row>)
    ensures forall i :: 0 <= i < |rows| ==> AllMean(rows[i], NormalRows(rows)[i])
  {
    if rows != [] {
      ItemsMean(rows[0]);
      NormalRowsMean(rows[1..]);
    }
  }

  /** On success the file shows all rows, value for value, and the preview the first hundred, each as what it
      stands for. */
  lemma SuccessShows(task: Task, rows: seq<Row>)
    requires Fits(task, rows)
    ensures var (file, report) := Outcome(task, rows);
      && FileShows(task, rows, file)
      && report.Done? && |report.summary.preview| == (if |rows| < 100 then |rows| else 100)
      && forall i :: 0 <= i < |report.summary.preview| ==> AllMean(rows[i], report.summary.preview[i])
  {
    SuccessIsComplete(task, rows);
    var cells := LinesShow(task, rows);
    var names := seq(|task.columns|, i requires 0 <= i < |task.columns| => JText(task.columns[i].name));
    assert task.encode(names) == Header(task);
    NormalRowsMean(Firsts(rows, 100));
  }
}
