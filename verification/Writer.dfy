/** The bounded CSV output and the loop that writes a result: exact limits, exact digests, the same
    file for every split of the rows into batches. */
module Writer {
  import opened Basics
  import opened JsonModel
  import opened Model
  import opened JsonText
  import opened JsonValues
  import CacheSpec

  // ---- values from the engines ----

  // A dictionary keeps its insertion order; its keys are what str() gives. Temporal values are
  // their ISO texts, decimals and anything else what str() gives, blobs their base64 text.
  datatype Value =
    | VNull
    | VBool(b: bool)
    | VInt(i: int)
    | VFloat(repr: Text)
    | VText(t: Text)
    | VTemporal(iso: Text)
    | VDecimal(digits: Text)
    | VBlob(base64: Text)
    | VList(items: seq<Value>)
    | VDict(pairs: seq<Pair>)
    | VOther(shown: Text)

  datatype Pair = Pair(key: Text, value: Value)

  type Row = seq<Value>

  const BASE64: Text := [98, 97, 115, 101, 54, 52]
  const UNKNOWN: Text := [85, 78, 75, 78, 79, 87, 78]
  const BOOLEAN: Text := [66, 79, 79, 76, 69, 65, 78]
  const INTEGER: Text := [73, 78, 84, 69, 71, 69, 82]
  const REAL: Text := [82, 69, 65, 76]
  const BLOB: Text := [66, 76, 79, 66]
  const TEXT: Text := [84, 69, 88, 84]

  // Assigning to a key that is there keeps its place.
  function Put(members: seq<Member>, name: Text, value: Json): seq<Member> {
    if members == [] then [Member(name, value)]
    else if members[0].name == name then [Member(name, value)] + members[1..]
    else [members[0]] + Put(members[1..], name, value)
  }

  /** _json_value. */
  function Normal(v: Value): Json
    decreases v, 0
  {
    match v
    case VNull => JNull
    case VBool(b) => JBool(b)
    case VInt(i) => JInt(i)
    case VFloat(repr) => JFloat(repr)
    case VText(t) => JText(t)
    case VTemporal(iso) => JText(iso)
    case VDecimal(digits) => JText(digits)
    case VBlob(base64) => JObject([Member(BASE64, JText(base64))])
    case VList(items) => JList(NormalItems(items))
    case VDict(pairs) => JObject(NormalPairs(pairs))
    case VOther(shown) => JText(shown)
  }

  function NormalItems(items: seq<Value>): (r: seq<Json>)
    ensures |r| == |items|
    decreases items, 1
  {
    if items == [] then [] else [Normal(items[0])] + NormalItems(items[1..])
  }

  function NormalPairs(pairs: seq<Pair>): seq<Member>
    decreases pairs, 1
  {
    if pairs == [] then []
    else
      var last := pairs[|pairs| - 1];
      Put(NormalPairs(pairs[..|pairs| - 1]), last.key, Normal(last.value))
  }

  /** _csv_value: nested values become their canonical text. */
  function Cell(v: Value): Json {
    var j := Normal(v);
    if j.JList? || j.JObject? then JText(Canonical(j)) else j
  }

  function Cells(row: Row): seq<Json> { seq(|row|, i requires 0 <= i < |row| => Cell(row[i])) }

  /** _sqlite_runtime_type. */
  function RuntimeType(v: Value): (t: Text)
    ensures t == UNKNOWN <==> v.VNull?
  {
    match v
    case VNull => UNKNOWN
    case VBool(_) => BOOLEAN
    case VInt(_) => INTEGER
    case VFloat(_) => REAL
    case VBlob(_) => BLOB
    case _ => TEXT
  }

  // ---- what normalisation guarantees ----

  function AsValue(j: Json): Value
    decreases j, 0
  {
    match j
    case JNull => VNull
    case JBool(b) => VBool(b)
    case JInt(i) => VInt(i)
    case JFloat(repr) => VFloat(repr)
    case JText(t) => VText(t)
    case JList(items) => VList(AsItems(items))
    case JObject(members) => VDict(AsPairs(members))
  }

  function AsItems(items: seq<Json>): (r: seq<Value>)
    ensures |r| == |items|
    decreases items, 1
  {
    if items == [] then [] else [AsValue(items[0])] + AsItems(items[1..])
  }

  function AsPairs(members: seq<Member>): (r: seq<Pair>)
    ensures |r| == |members|
    decreases members, 1
  {
    if members == [] then []
    else AsPairs(members[..|members| - 1]) + [Pair(members[|members| - 1].name, AsValue(members[|members| - 1].value))]
  }

  lemma {:induction false} PutNames(members: seq<Member>, name: Text, value: Json, other: Text)
    requires other != name && forall i :: 0 <= i < |members| ==> members[i].name != other
    ensures forall i :: 0 <= i < |Put(members, name, value)| ==> Put(members, name, value)[i].name != other
  {
    if members != [] && members[0].name != name { PutNames(members[1..], name, value, other); }
  }

  lemma {:induction false} PutProper(members: seq<Member>, name: Text, value: Json)
    requires OneEach(members) && Proper(value) && forall i :: 0 <= i < |members| ==> Proper(members[i].value)
    ensures OneEach(Put(members, name, value))
    ensures forall i :: 0 <= i < |Put(members, name, value)| ==> Proper(Put(members, name, value)[i].value)
  {
    if members != [] && members[0].name != name {
      PutProper(members[1..], name, value);
      PutNames(members[1..], name, value, members[0].name);
      Prepended(members[0], Put(members[1..], name, value));
    }
  }

  lemma Prepended(m: Member, rest: seq<Member>)
    requires OneEach(rest) && forall i :: 0 <= i < |rest| ==> rest[i].name != m.name
    ensures OneEach([m] + rest)
  {
  }

  /** Normalised values are proper JSON, whatever keys collide once turned into texts. */
  lemma {:induction false} NormalIsProper(v: Value)
    ensures Proper(Normal(v))
    decreases v, 0
  {
    match v {
      case VList(items) => NormalItemsProper(items);
      case VDict(pairs) => NormalPairsProper(pairs);
      case _ =>
    }
  }

  lemma {:induction false} NormalItemsProper(items: seq<Value>)
    ensures forall i :: 0 <= i < |NormalItems(items)| ==> Proper(NormalItems(items)[i])
    decreases items, 1
  {
    if items != [] {
      NormalIsProper(items[0]);
      NormalItemsProper(items[1..]);
    }
  }

  lemma {:induction false} NormalPairsProper(pairs: seq<Pair>)
    ensures OneEach(NormalPairs(pairs)) && forall i :: 0 <= i < |NormalPairs(pairs)| ==>
      Proper(NormalPairs(pairs)[i].value)
    decreases pairs, 1
  {
    if pairs != [] {
      var last := pairs[|pairs| - 1];
      NormalPairsProper(pairs[..|pairs| - 1]);
      NormalIsProper(last.value);
      PutProper(NormalPairs(pairs[..|pairs| - 1]), last.key, Normal(last.value));
    }
  }

  lemma {:induction false} PutNew(members: seq<Member>, name: Text, value: Json)
    requires forall i :: 0 <= i < |members| ==> members[i].name != name
    ensures Put(members, name, value) == members + [Member(name, value)]
  {
    if members != [] {
      PutNew(members[1..], name, value);
      assert members == [members[0]] + members[1..];
    }
  }

  /** Normalising is idempotent: proper JSON comes back as it is. */
  lemma {:induction false} NormalFixes(j: Json)
    requires Proper(j)
    ensures Normal(AsValue(j)) == j
    decreases j, 0
  {
    match j {
      case JList(items) => NormalFixesItems(items);
      case JObject(members) => NormalFixesMembers(members);
      case _ =>
    }
  }

  lemma {:induction false} NormalFixesItems(items: seq<Json>)
    requires forall i :: 0 <= i < |items| ==> Proper(items[i])
    ensures NormalItems(AsItems(items)) == items
    decreases items, 1
  {
    if items != [] {
      NormalFixes(items[0]);
      NormalFixesItems(items[1..]);
      assert items == [items[0]] + items[1..] && AsItems(items)[1..] == AsItems(items[1..]);
    }
  }

  lemma PairsLast(members: seq<Member>, m: Member)
    ensures AsPairs(members + [m]) == AsPairs(members) + [Pair(m.name, AsValue(m.value))]
  {
    assert (members + [m])[..|members|] == members;
  }

  lemma NormalLast(pairs: seq<Pair>, p: Pair)
    ensures NormalPairs(pairs + [p]) == Put(NormalPairs(pairs), p.key, Normal(p.value))
  {
    assert (pairs + [p])[..|pairs|] == pairs;
  }

  lemma {:induction false} NormalFixesMembers(members: seq<Member>)
    requires OneEach(members) && forall i :: 0 <= i < |members| ==> Proper(members[i].value)
    ensures NormalPairs(AsPairs(members)) == members
    decreases members, 1
  {
    if members != [] {
      var most, last := members[..|members| - 1], members[|members| - 1];
      NormalFixes(last.value);
      NormalFixesMembers(most);
      assert most + [last] == members;
      PairsLast(most, last);
      NormalLast(AsPairs(most), Pair(last.name, AsValue(last.value)));
      PutNew(most, last.name, last.value);
    }
  }

  // ---- the writer as a function of the rows ----

  // `encode`: csv.writer's line for a row, in UTF-8; None where a text cannot be encoded.
  datatype Task = Task(columns: seq<Column>, maxRows: nat, maxBytes: nat, sqlite: bool,
                       encode: seq<Json> -> Option<Bytes>)

  datatype Failure = RowLimit | ByteLimit | Unencodable

  datatype Progress = Progress(file: Bytes, rows: nat, columns: seq<Column>, preview: seq<seq<Json>>)

  function Header(task: Task): Option<Bytes> {
    task.encode(seq(|task.columns|, i requires 0 <= i < |task.columns| => JText(task.columns[i].name)))
  }

  function Line(task: Task, row: Row): Option<Bytes> { task.encode(Cells(row)) }

  function StartTypes(task: Task): seq<Column> {
    seq(|task.columns|, i requires 0 <= i < |task.columns| =>
      if task.sqlite then Column(task.columns[i].name, UNKNOWN) else task.columns[i])
  }

  function Retyped(task: Task, columns: seq<Column>, row: Row): (r: seq<Column>)
    ensures |r| == |columns|
  {
    seq(|columns|, i requires 0 <= i < |columns| =>
      if task.sqlite && i < |row| && columns[i].typ == UNKNOWN && !row[i].VNull?
      then Column(columns[i].name, RuntimeType(row[i])) else columns[i])
  }

  function Previewed(preview: seq<seq<Json>>, row: Row): seq<seq<Json>> {
    if |preview| < 100 then preview + [NormalItems(row)] else preview
  }

  /** The rows in turn, until the first that fails. */
  function Emit(task: Task, p: Progress, rows: seq<Row>): (Progress, Option<Failure>)
    decreases rows
  {
    if rows == [] then (p, None)
    else if p.rows + 1 > task.maxRows then (p, Some(RowLimit))
    else
      var line := Line(task, rows[0]);
      if line.None? then (p, Some(Unencodable))
      else if |p.file| + |line.value| > task.maxBytes then (p, Some(ByteLimit))
      else Emit(task, After(task, p, rows[0], line.value), rows[1..])
  }

  function After(task: Task, p: Progress, row: Row, line: Bytes): Progress {
    Progress(p.file + line, p.rows + 1, Retyped(task, p.columns, row), Previewed(p.preview, row))
  }

  /** The rows that fetchmany delivers in batches; the first empty batch is the end. */
  function Fetched(batches: seq<seq<Row>>): seq<Row> {
    if batches == [] || batches[0] == [] then [] else batches[0] + Fetched(batches[1..])
  }

  // ---- the writer itself ----

  /** BoundedCSVOutput over a file: `hashed` is what the digest has absorbed. */
  class BoundedCsvOutput {
    const maximum: nat
    var file: Bytes
    var hashed: Bytes
    var size: nat

    predicate Valid() reads this { size == |file| && hashed == file && size <= maximum }

    constructor (maximum: nat)
      ensures Valid() && this.maximum == maximum && file == []
    {
      this.maximum := maximum;
      file, hashed, size := [], [], 0;
    }

    method Write(content: Bytes) returns (ok: bool)
      requires Valid()
      modifies this
      ensures Valid()
      ensures ok <==> old(|file|) + |content| <= maximum
      ensures file == if ok then old(file) + content else old(file)
    {
      if size + |content| > maximum { return false; }
      file := file + content;
      hashed := hashed + content;
      size := size + |content|;
      return true;
    }

    function HexDigest(): Digest reads this { Sha256(hashed) }
  }

  datatype Summary = Summary(columns: seq<Column>, rowCount: nat, byteCount: nat, preview: seq<seq<Json>>,
                             digest: Digest)

  datatype Report = Done(summary: Summary) | Failed(why: Failure)

  function SummaryOf(p: Progress): Summary { Summary(p.columns, p.rows, |p.file|, p.preview, Sha256(p.file)) }

  /** What _write_result leaves and reports, as a function of the rows alone. */
  function Outcome(task: Task, rows: seq<Row>): (Bytes, Report) {
    var header := Header(task);
    if header.None? then ([], Failed(Unencodable))
    else if |header.value| > task.maxBytes then ([], Failed(ByteLimit))
    else
      var (p, failure) := Emit(task, Progress(header.value, 0, StartTypes(task), []), rows);
      (p.file, if failure.None? then Done(SummaryOf(p)) else Failed(failure.value))
  }

  /** The type pass over one row. */
  method Retype(task: Task, columns: seq<Column>, row: Row) returns (r: seq<Column>)
    requires |row| == |columns|
    ensures r == Retyped(task, columns, row)
  {
    r := columns;
    if task.sqlite {
      var i := 0;
      while i < |row|
        invariant 0 <= i <= |row| && |r| == |columns|
        invariant forall k :: 0 <= k < i ==> r[k] == Retyped(task, columns, row)[k]
        invariant forall k :: i <= k < |r| ==> r[k] == columns[k]
      {
        if r[i].typ == UNKNOWN && !row[i].VNull? {
          r := r[i := Column(r[i].name, RuntimeType(row[i]))];
        }
        i := i + 1;
      }
    }
  }

  predicate Rectangular(task: Task, rows: seq<Row>) { forall i :: 0 <= i < |rows| ==> |rows[i]| == |task.columns| }

  lemma RectangularParts(task: Task, rows: seq<Row>, later: seq<Row>)
    requires Rectangular(task, rows + later)
    ensures Rectangular(task, rows) && Rectangular(task, later)
  {
    forall i | 0 <= i < |rows| ensures |rows[i]| == |task.columns| { assert (rows + later)[i] == rows[i]; }
    forall i | 0 <= i < |later| ensures |later[i]| == |task.columns| {
      assert (rows + later)[|rows| + i] == later[i];
    }
  }

  /** One row: it is written whole or not at all. */
  method EmitRow(task: Task, bounded: BoundedCsvOutput, row: Row, rowCount: nat, columns: seq<Column>,
                 preview: seq<seq<Json>>)
    returns (failure: Option<Failure>, columns': seq<Column>, preview': seq<seq<Json>>)
    requires bounded.Valid() && bounded.maximum == task.maxBytes && |row| == |columns|
    modifies bounded
    ensures bounded.Valid() && |columns'| == |columns|
    ensures failure ==
      if rowCount + 1 > task.maxRows then Some(RowLimit)
      else if Line(task, row).None? then Some(Unencodable)
      else if old(|bounded.file|) + |Line(task, row).value| > task.maxBytes then Some(ByteLimit) else None
    ensures failure.Some? ==> bounded.file == old(bounded.file)
    ensures failure.None? ==>
      Progress(bounded.file, rowCount + 1, columns', preview') ==
      After(task, Progress(old(bounded.file), rowCount, columns, preview), row, Line(task, row).value)
  {
    failure, columns', preview' := None, columns, preview;
    if rowCount + 1 > task.maxRows { return Some(RowLimit), columns, preview; }
    var line := Line(task, row);
    if line.None? { return Some(Unencodable), columns, preview; }
    var ok := bounded.Write(line.value);
    if !ok { return Some(ByteLimit), columns, preview; }
    columns' := Retype(task, columns, row);
    preview' := Previewed(preview, row);
  }

  /** One batch, row after row until the first that fails. */
  method EmitBatch(task: Task, bounded: BoundedCsvOutput, rows: seq<Row>, rowCount: nat, columns: seq<Column>,
                   preview: seq<seq<Json>>, ghost later: seq<Row>)
    returns (failure: Option<Failure>, columns': seq<Column>, preview': seq<seq<Json>>)
    requires bounded.Valid() && bounded.maximum == task.maxBytes && Rectangular(task, rows)
    requires |columns| == |task.columns|
    modifies bounded
    ensures bounded.Valid() && |columns'| == |columns|
    ensures var all := Emit(task, Progress(old(bounded.file), rowCount, columns, preview), rows + later);
      if failure.Some? then all.0.file == bounded.file && all.1 == failure
      else all == Emit(task, Progress(bounded.file, rowCount + |rows|, columns', preview'), later)
  {
    failure, columns', preview' := None, columns, preview;
    ghost var all := Emit(task, Progress(bounded.file, rowCount, columns, preview), rows + later);
    var i := 0;
    assert rows[0..] == rows;
    while i < |rows|
      invariant 0 <= i <= |rows| && bounded.Valid() && |columns'| == |columns| && failure.None?
      invariant all == Emit(task, Progress(bounded.file, rowCount + i, columns', preview'), rows[i..] + later)
    {
      assert (rows[i..] + later)[0] == rows[i] && (rows[i..] + later)[1..] == rows[i + 1..] + later;
      failure, columns', preview' := EmitRow(task, bounded, rows[i], rowCount + i, columns', preview');
      if failure.Some? { return; }
      i := i + 1;
    }
    assert rows[|rows|..] + later == later;
  }

  /** _write_result: rows arrive in batches up to an empty one; the outcome is that of the rows in one piece. */
  method WriteResult(task: Task, batches: seq<seq<Row>>) returns (file: Bytes, report: Report)
    requires Rectangular(task, Fetched(batches))
    ensures (file, report) == Outcome(task, Fetched(batches))
  {
    var columns, preview := StartTypes(task), [];
    var rowCount: nat := 0;
    var bounded := new BoundedCsvOutput(task.maxBytes);
    var header := Header(task);
    if header.None? { return [], Failed(Unencodable); }
    var ok := bounded.Write(header.value);
    if !ok { return [], Failed(ByteLimit); }
    assert bounded.file == header.value;
    ghost var start := Progress(header.value, 0, columns, preview);
    var b := 0;
    assert batches[0..] == batches;
    while b < |batches| && batches[b] != []
      invariant 0 <= b <= |batches| && Rectangular(task, Fetched(batches[b..]))
      invariant bounded.Valid() && |columns| == |task.columns| && bounded.maximum == task.maxBytes
      invariant fresh(bounded)
      invariant Emit(task, start, Fetched(batches)) ==
          Emit(task, Progress(bounded.file, rowCount, columns, preview), Fetched(batches[b..]))
    {
      var rows := batches[b];
      ghost var later := Fetched(batches[b + 1..]);
      assert batches[b..][0] == rows && batches[b..][1..] == batches[b + 1..];
      RectangularParts(task, rows, later);
      var failure;
      failure, columns, preview := EmitBatch(task, bounded, rows, rowCount, columns, preview, later);
      if failure.Some? { return bounded.file, Failed(failure.value); }
      rowCount := rowCount + |rows|;
      b := b + 1;
    }
    assert Fetched(batches[b..]) == [];
    return bounded.file, Done(Summary(columns, rowCount, |bounded.file|, preview, bounded.HexDigest()));
  }

  // ---- what the outcome means ----

  predicate Encodable(task: Task, rows: seq<Row>) { forall i :: 0 <= i < |rows| ==> Line(task, rows[i]).Some? }

  /** The lines of encodable rows, one after the other. */
  function Lines(task: Task, rows: seq<Row>): Bytes
    requires Encodable(task, rows)
  {
    if rows == [] then [] else Line(task, rows[0]).value + Lines(task, rows[1..])
  }

  function FirstValue(rows: seq<Row>, column: nat): Option<Value> {
    if rows == [] then None
    else if column < |rows[0]| && !rows[0][column].VNull? then Some(rows[0][column])
    else FirstValue(rows[1..], column)
  }

  function NormalRows(rows: seq<Row>): (r: seq<seq<Json>>)
    ensures |r| == |rows|
  {
    if rows == [] then [] else [NormalItems(rows[0])] + NormalRows(rows[1..])
  }

  predicate Extends(task: Task, p: Progress, p': Progress, rows: seq<Row>) {
    && Encodable(task, rows)
    && p'.file == p.file + Lines(task, rows)
    && p'.rows == p.rows + |rows|
  }

  /** The emitted rows are a prefix; why it ends where it does. */
  lemma {:induction false} EmitExact(task: Task, p: Progress, rows: seq<Row>) returns (k: nat)
    requires p.rows <= task.maxRows && |p.file| <= task.maxBytes
    ensures var (p', failure) := Emit(task, p, rows);
      && k <= |rows| && Extends(task, p, p', rows[..k]) && p'.rows <= task.maxRows && |p'.file| <= task.maxBytes
      && match failure
         case None => k == |rows|
         case Some(RowLimit) => k < |rows| && p'.rows == task.maxRows
         case Some(ByteLimit) =>
           k < |rows| && Line(task, rows[k]).Some? && |p'.file| + |Line(task, rows[k]).value| > task.maxBytes
         case Some(Unencodable) => k < |rows| && Line(task, rows[k]).None?
    decreases |rows|
  {
    k := 0;
    assert rows[..0] == [] && p.file + [] == p.file;
    if rows != [] && p.rows + 1 <= task.maxRows && Line(task, rows[0]).Some? {
      var line := Line(task, rows[0]).value;
      if |p.file| + |line| <= task.maxBytes {
        var n := EmitExact(task, After(task, p, rows[0], line), rows[1..]);
        k := n + 1;
        assert rows[..k] == [rows[0]] + rows[1..][..n];
        LinesGrow(task, rows[0], rows[1..][..n]);
        assert p.file + line + Lines(task, rows[1..][..n]) == p.file + (line + Lines(task, rows[1..][..n]));
      }
    }
  }

  lemma LinesGrow(task: Task, row: Row, rows: seq<Row>)
    requires Line(task, row).Some? && Encodable(task, rows)
    ensures Encodable(task, [row] + rows) && Lines(task, [row] + rows) == Line(task, row).value + Lines(task, rows)
  {
    assert ([row] + rows)[1..] == rows;
  }

  lemma {:induction false} LinesOfPrefix(task: Task, rows: seq<Row>, k: nat)
    requires Encodable(task, rows) && k < |rows|
    ensures |Lines(task, rows[..k])| + |Line(task, rows[k]).value| <= |Lines(task, rows)|
  {
    if k > 0 {
      LinesOfPrefix(task, rows[1..], k - 1);
      assert rows[..k] == [rows[0]] + rows[1..][..k - 1];
      LinesGrow(task, rows[0], rows[1..][..k - 1]);
    } else {
      assert rows[..0] == [];
    }
  }

  /** Everything can be encoded and fits both limits. */
  predicate Fits(task: Task, rows: seq<Row>) {
    && Header(task).Some? && Encodable(task, rows)
    && |rows| <= task.maxRows
    && |Header(task).value| + |Lines(task, rows)| <= task.maxBytes
  }

  /** The writer succeeds if and only if all rows can be encoded, there are at most max_rows of
      them, and the header and they take at most max_bytes. */
  lemma SucceedsIff(task: Task, rows: seq<Row>)
    ensures Outcome(task, rows).1.Done? <==> Fits(task, rows)
  {
    var header := Header(task);
    if header.Some? && |header.value| <= task.maxBytes {
      var start := Progress(header.value, 0, StartTypes(task), []);
      var k := EmitExact(task, start, rows);
      if k < |rows| && Encodable(task, rows) {
        LinesOfPrefix(task, rows, k);
      } else {
        assert rows[..|rows|] == rows;
      }
    }
  }

  // The type that SQLite's value has, told by cases.
  predicate TypeFits(v: Value, typ: Text) {
    && (v.VBool? ==> typ == BOOLEAN) && (v.VInt? ==> typ == INTEGER) && (v.VFloat? ==> typ == REAL)
    && (v.VBlob? ==> typ == BLOB)
    && (v.VText? || v.VTemporal? || v.VDecimal? || v.VList? || v.VDict? || v.VOther? ==> typ == TEXT)
  }

  /** On success the file is the header and all the lines, the digest and the length are the
      file's, and the preview is the first hundred rows normalised. */
  lemma SuccessIsComplete(task: Task, rows: seq<Row>)
    requires Fits(task, rows)
    ensures var (file, report) := Outcome(task, rows);
      && report.Done?
      && file == Header(task).value + Lines(task, rows)
      && report.summary.rowCount == |rows|
      && report.summary.byteCount == |file|
      && report.summary.digest == Sha256(file)
      && report.summary.preview == NormalRows(Firsts(rows, 100))
  {
    SucceedsIff(task, rows);
    var start := Progress(Header(task).value, 0, StartTypes(task), []);
    var k := EmitExact(task, start, rows);
    assert rows[..|rows|] == rows;
    EmitPreview(task, start, rows);
    assert [] + NormalRows(Firsts(rows, 100)) == NormalRows(Firsts(rows, 100));
  }

  /** The first rows, as many as there is room for. */
  function Firsts(rows: seq<Row>, room: int): seq<Row> {
    if room <= 0 then [] else if |rows| < room then rows else rows[..room]
  }

  lemma FirstsGrow(rows: seq<Row>, room: int)
    requires rows != [] && room > 0
    ensures NormalRows(Firsts(rows, room)) == [NormalItems(rows[0])] + NormalRows(Firsts(rows[1..], room - 1))
  {
    assert Firsts(rows, room)[1..] == Firsts(rows[1..], room - 1);
  }

  lemma {:induction false} EmitPreview(task: Task, p: Progress, rows: seq<Row>)
    requires Emit(task, p, rows).1.None? && |p.preview| <= 100
    ensures Emit(task, p, rows).0.preview == p.preview + NormalRows(Firsts(rows, 100 - |p.preview|))
    decreases |rows|
  {
    if rows != [] {
      var q := After(task, p, rows[0], Line(task, rows[0]).value);
      EmitPreview(task, q, rows[1..]);
      if |p.preview| < 100 { FirstsGrow(rows, 100 - |p.preview|); }
    }
  }

  function TypeAfter(task: Task, c: Column, rows: seq<Row>, column: nat): Text {
    if task.sqlite && c.typ == UNKNOWN &&
        FirstValue(rows, column).Some? then RuntimeType(FirstValue(rows, column).value) else c.typ
  }

  lemma {:induction false} EmitTypes(task: Task, p: Progress, rows: seq<Row>, column: nat)
    requires Emit(task, p, rows).1.None? && column < |p.columns|
    ensures |Emit(task, p, rows).0.columns| == |p.columns|
    ensures Emit(task, p, rows).0.columns[column] ==
        Column(p.columns[column].name, TypeAfter(task, p.columns[column], rows, column))
    decreases |rows|
  {
    if rows != [] {
      EmitTypes(task, After(task, p, rows[0], Line(task, rows[0]).value), rows[1..], column);
    }
  }

  /** On success every column keeps its name; its type is the engine's, or with SQLite that of the
      column's first value that is not null. */
  lemma SuccessTypes(task: Task, rows: seq<Row>, column: nat)
    requires Fits(task, rows) && column < |task.columns|
    ensures var (file, report) := Outcome(task, rows);
      && report.Done? && |report.summary.columns| == |task.columns|
      && report.summary.columns[column].name == task.columns[column].name
      && report.summary.columns[column].typ ==
           (if !task.sqlite then task.columns[column].typ
            else if FirstValue(rows, column).Some? then RuntimeType(FirstValue(rows, column).value)
            else UNKNOWN)
      && (task.sqlite && FirstValue(rows, column).Some? ==>
            TypeFits(FirstValue(rows, column).value, report.summary.columns[column].typ))
  {
    SucceedsIff(task, rows);
    EmitTypes(task, Progress(Header(task).value, 0, StartTypes(task), []), rows, column);
  }

  /** On failure the file holds nothing, or the header and the lines of the rows before the one
      that failed: whole rows, within both limits. */
  lemma FailureIsPrefix(task: Task, rows: seq<Row>) returns (k: nat)
    requires !Fits(task, rows)
    ensures var (file, report) := Outcome(task, rows);
      && report.Failed?
      && k <= |rows| && k <= task.maxRows && |file| <= task.maxBytes
      && (if Header(task).None? || |Header(task).value| > task.maxBytes then file == []
          else
            && k < |rows| && Encodable(task, rows[..k]) && file == Header(task).value + Lines(task, rows[..k])
            && match report.why
               case RowLimit => k == task.maxRows
               case ByteLimit => Line(task, rows[k]).Some? && |file| + |Line(task, rows[k]).value| > task.maxBytes
               case Unencodable => Line(task, rows[k]).None?)
  {
    SucceedsIff(task, rows);
    k := 0;
    if Header(task).Some? && |Header(task).value| <= task.maxBytes {
      k := EmitExact(task, Progress(Header(task).value, 0, StartTypes(task), []), rows);
    }
  }

  /** What the writer reports is what recovery later checks: an entry published with the reported
      length and digest, and the file as written, passes. */
  lemma WrittenRecovers(task: Task, rows: seq<Row>, r: ResultRecord, payload: nat, base: nat, now: Time, s: Settings)
    requires Fits(task, rows) && IsBareName(r.resultFile)
    requires Outcome(task, rows).1.Done? ==>
      var summary := Outcome(task, rows).1.summary;
      r.byteCount == summary.byteCount && r.execution.Some? && r.execution.value.resultSha256 == Some(summary.digest)
    ensures var file := Outcome(task, rows).0;
      CacheSpec.Recoverable(Result, r.id, CacheSpec.ResultEntry(r, map[r.resultFile := file], payload, base, now, s))
  {
    SuccessIsComplete(task, rows);
  }
}
