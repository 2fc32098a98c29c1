/** The two record classes and their manifests: a record written and read back is the record, with
    the members of its nested objects sorted; rewriting stamps changes nothing else. */
module Manifests {
  import opened Basics
  import opened JsonModel
  import opened Model
  import opened JsonText
  import opened JsonValues
  import opened Keys

  // Fields read with .get() are kept as the JSON they are.
  datatype SourceManifest = SourceManifest(
    sourceId: Text, scopeId: Text, sourceRef: Text, format: Format, filename: Text, size: int,
    sha256: Text, schemaDigest: Text, schema: seq<Member>, dataFile: Text,
    createdAt: Text, accessedAt: Text, expiresAt: Text, dataSha256: Json)

  datatype ResultManifest = ResultManifest(
    resultId: Text, queryKey: Json, sourceId: Text, sourceSha256: Text, sqlSha256: Text,
    columns: seq<Json>, rowCount: int, byteCount: int, preview: seq<Json>, durationMs: int,
    resultFile: Text, createdAt: Text, accessedAt: Text, expiresAt: Text, execution: Json)

  // str() and int() on JSON values; int() may raise.
  datatype Coercions = Coercions(str: Json -> Text, whole: Json -> Option<int>)

  /** On texts str() is the identity, on integers int() is. */
  ghost predicate Lawful(co: Coercions) {
    (forall t :: co.str(JText(t)) == t) && (forall i :: co.whole(JInt(i)) == Some(i))
  }

  function SourceNames(): seq<Text> {
    [Chars("source_id"), Chars("scope_id"), Chars("source_ref"), Chars("format"), Chars("filename"), Chars("size"),
     Chars("sha256"),
     Chars("schema_digest"), Chars("schema"), Chars("data_file"), Chars("created_at"), Chars("accessed_at"),
     Chars("expires_at"),
     Chars("data_sha256")]
  }

  function ResultNames(): seq<Text> {
    [Chars("result_id"), Chars("query_key"), Chars("source_id"), Chars("source_sha256"), Chars("sql_sha256"),
     Chars("columns"),
     Chars("row_count"), Chars("byte_count"), Chars("preview"), Chars("duration_ms"), Chars("result_file"),
     Chars("created_at"),
     Chars("accessed_at"), Chars("expires_at"), Chars("execution")]
  }

  // ---- as_dict ----

  function SourceValues(r: SourceManifest): (v: seq<Json>)
    ensures |v| == 14
  {
    [JText(r.sourceId), JText(r.scopeId), JText(r.sourceRef), JText(FormatText(r.format)), JText(r.filename),
     JInt(r.size), JText(r.sha256),
     JText(r.schemaDigest), JObject(r.schema), JText(r.dataFile), JText(r.createdAt), JText(r.accessedAt),
     JText(r.expiresAt), r.dataSha256]
  }

  function ResultValues(r: ResultManifest): (v: seq<Json>)
    ensures |v| == 15
  {
    [JText(r.resultId), r.queryKey, JText(r.sourceId), JText(r.sourceSha256), JText(r.sqlSha256), JList(r.columns),
     JInt(r.rowCount), JInt(r.byteCount), JList(r.preview), JInt(r.durationMs), JText(r.resultFile), JText(r.createdAt),
     JText(r.accessedAt), JText(r.expiresAt), r.execution]
  }

  function SourceDict(r: SourceManifest): Json
    requires |SourceNames()| == 14
  {
    JObject(Zip(SourceNames(), SourceValues(r)))
  }

  function ResultDict(r: ResultManifest): Json
    requires |ResultNames()| == 15
  {
    JObject(Zip(ResultNames(), ResultValues(r)))
  }

  // ---- from_dict ----

  function FormatOf(t: Text): Option<Format> {
    if t == FormatText(DuckDb) then Some(DuckDb)
    else if t == FormatText(Sqlite) then Some(Sqlite)
    else if t == FormatText(Csv) then Some(Csv)
    else None
  }

  // value[name]: None is the KeyError.
  function At(members: seq<Member>, name: string): Option<Json>
    requires forall i :: 0 <= i < |name| ==> name[i] < 128 as char
  {
    Find(members, Chars(name))
  }

  // value.get(name)
  function Get(members: seq<Member>, name: string): Json
    requires forall i :: 0 <= i < |name| ==> name[i] < 128 as char
  {
    var found := At(members, name);
    if found.Some? then found.value else JNull
  }

  predicate AllObjects(items: seq<Json>) { forall i :: 0 <= i < |items| ==> items[i].JObject? }
  predicate AllLists(items: seq<Json>) { forall i :: 0 <= i < |items| ==> items[i].JList? }

  function ReadSource(co: Coercions, members: seq<Member>): Option<SourceManifest> {
    var id, scope, ref := At(members, "source_id"), At(members, "scope_id"), At(members, "source_ref");
    var format, filename, size := At(members, "format"), At(members, "filename"), At(members, "size");
    var sha, digest, schema := At(members, "sha256"), At(members, "schema_digest"), At(members, "schema");
    var file, created, accessed := At(members, "data_file"), At(members, "created_at"), At(members, "accessed_at");
    var expires := At(members, "expires_at");
    if id.None? || scope.None? || ref.None? || format.None? || filename.None? || size.None? || sha.None? || digest.None?
       || schema.None? || file.None? || created.None? || accessed.None? || expires.None? then None
    else if !format.value.JText? || FormatOf(format.value.t).None? || co.whole(size.value).None? ||
        !schema.value.JObject? then None
    else Some(SourceManifest(
      co.str(id.value), co.str(scope.value), co.str(ref.value), FormatOf(format.value.t).value, co.str(filename.value),
      co.whole(size.value).value, co.str(sha.value), co.str(digest.value), schema.value.members, co.str(file.value),
      co.str(created.value), co.str(accessed.value), co.str(expires.value), Get(members, "data_sha256")))
  }

  function ReadResult(co: Coercions, members: seq<Member>): Option<ResultManifest> {
    var id, source, sha, sql :=
        At(members, "result_id"), At(members, "source_id"), At(members, "source_sha256"), At(members, "sql_sha256");
    var columns, rows, bytes := At(members, "columns"), At(members, "row_count"), At(members, "byte_count");
    var preview, duration, file := At(members, "preview"), At(members, "duration_ms"), At(members, "result_file");
    var created, accessed, expires := At(members, "created_at"), At(members, "accessed_at"), At(members, "expires_at");
    if id.None? || source.None? || sha.None? || sql.None? || columns.None? || rows.None? || bytes.None? || preview.None?
       || duration.None? || file.None? || created.None? || accessed.None? || expires.None? then None
    else if !columns.value.JList? || !AllObjects(columns.value.items) || !preview.value.JList? ||
        !AllLists(preview.value.items)
       || co.whole(rows.value).None? || co.whole(bytes.value).None? || co.whole(duration.value).None? then None
    else Some(ResultManifest(
      co.str(id.value), Get(members, "query_key"), co.str(source.value), co.str(sha.value), co.str(sql.value),
      columns.value.items,
      co.whole(rows.value).value, co.whole(bytes.value).value, preview.value.items, co.whole(duration.value).value,
      co.str(file.value),
      co.str(created.value), co.str(accessed.value), co.str(expires.value), Get(members, "execution")))
  }

  // ---- what comes back ----

  // The record after a write and a read: nested objects have their members sorted.
  function SourceBack(r: SourceManifest): SourceManifest {
    r.(schema := SortedMembers(r.schema), dataSha256 := Sorted(r.dataSha256))
  }

  function ResultBack(r: ResultManifest): ResultManifest {
    r.(queryKey := Sorted(r.queryKey), columns := SortedItems(r.columns), preview := SortedItems(r.preview),
       execution := Sorted(r.execution))
  }

  lemma MarksDiffer(names: seq<Text>, marks: seq<int>)
    requires |names| == |marks| && forall i :: 0 <= i < |names| ==> |names[i]| >= 2 && Mark(names[i]) == marks[i]
    requires forall i, j :: 0 <= i < j < |marks| ==> marks[i] != marks[j]
    ensures forall i, j :: 0 <= i < j < |names| ==> names[i] != names[j]
  {
  }

  lemma SourceMarks() returns (marks: seq<int>)
    ensures |SourceNames()| == 14 == |marks|
    ensures forall i :: 0 <= i < 14 ==> |SourceNames()[i]| >= 2 && Mark(SourceNames()[i]) == marks[i]
    ensures forall i, j :: 0 <= i < j < 14 ==> marks[i] != marks[j]
  {
    var n := SourceNames();
    marks := [
      9 * 65536 + 115 * 256 + 111, 8 * 65536 + 115 * 256 + 99, 10 * 65536 + 115 * 256 + 111,
      6 * 65536 + 102 * 256 + 111, 8 * 65536 + 102 * 256 + 105, 4 * 65536 + 115 * 256 + 105,
      6 * 65536 + 115 * 256 + 104, 13 * 65536 + 115 * 256 + 99, 6 * 65536 + 115 * 256 + 99,
      9 * 65536 + 100 * 256 + 97, 10 * 65536 + 99 * 256 + 114, 11 * 65536 + 97 * 256 + 99,
      10 * 65536 + 101 * 256 + 120, 11 * 65536 + 100 * 256 + 97];
    assert forall i :: 0 <= i < 14 ==> |n[i]| >= 2 && Mark(n[i]) == marks[i];
  }

  lemma SourceNamesUnpaired()
    ensures |SourceNames()| == 14 && forall i :: 0 <= i < 14 ==> Unpaired(SourceNames()[i])
  {
    forall i | 0 <= i < 14 ensures Unpaired(SourceNames()[i]) {
      assert forall j :: 0 <= j < |SourceNames()[i]| ==> SourceNames()[i][j] < 128;
    }
  }

  lemma SourceNamesDiffer()
    ensures |SourceNames()| == 14 && forall i, j :: 0 <= i < j < 14 ==> SourceNames()[i] != SourceNames()[j]
    ensures forall i :: 0 <= i < 14 ==> Unpaired(SourceNames()[i])
  {
    var marks := SourceMarks();
    MarksDiffer(SourceNames(), marks);
    SourceNamesUnpaired();
  }

  lemma ResultMarks() returns (marks: seq<int>)
    ensures |ResultNames()| == 15 == |marks|
    ensures forall i :: 0 <= i < 15 ==> |ResultNames()[i]| >= 2 && Mark(ResultNames()[i]) == marks[i]
    ensures forall i, j :: 0 <= i < j < 15 ==> marks[i] != marks[j]
  {
    var n := ResultNames();
    marks := [
      9 * 65536 + 114 * 256 + 101, 9 * 65536 + 113 * 256 + 117, 9 * 65536 + 115 * 256 + 111,
      13 * 65536 + 115 * 256 + 111, 10 * 65536 + 115 * 256 + 113, 7 * 65536 + 99 * 256 + 111,
      9 * 65536 + 114 * 256 + 111, 10 * 65536 + 98 * 256 + 121, 7 * 65536 + 112 * 256 + 114,
      11 * 65536 + 100 * 256 + 117, 11 * 65536 + 114 * 256 + 101, 10 * 65536 + 99 * 256 + 114,
      11 * 65536 + 97 * 256 + 99, 10 * 65536 + 101 * 256 + 120, 9 * 65536 + 101 * 256 + 120];
    assert forall i :: 0 <= i < 15 ==> |n[i]| >= 2 && Mark(n[i]) == marks[i];
  }

  lemma ResultNamesUnpaired()
    ensures |ResultNames()| == 15 && forall i :: 0 <= i < 15 ==> Unpaired(ResultNames()[i])
  {
    forall i | 0 <= i < 15 ensures Unpaired(ResultNames()[i]) {
      assert forall j :: 0 <= j < |ResultNames()[i]| ==> ResultNames()[i][j] < 128;
    }
  }

  lemma ResultNamesDiffer()
    ensures |ResultNames()| == 15 && forall i, j :: 0 <= i < j < 15 ==> ResultNames()[i] != ResultNames()[j]
    ensures forall i :: 0 <= i < 15 ==> Unpaired(ResultNames()[i])
  {
    var marks := ResultMarks();
    MarksDiffer(ResultNames(), marks);
    ResultNamesUnpaired();
  }

  /** Every field of a dictionary written and read back is its value with members sorted. */
  lemma FieldBack(names: seq<Text>, values: seq<Json>, i: nat)
    requires |names| == |values| && i < |names| && forall j, k :: 0 <= j < k < |names| ==> names[j] != names[k]
    ensures Find(SortedMembers(Zip(names, values)), names[i]) == Some(Sorted(values[i]))
  {
    var ms := Zip(names, values);
    FindAt(ms, i);
    FindSorted(ms, names[i]);
  }

  lemma FormatBack(f: Format)
    ensures FormatOf(FormatText(f)) == Some(f)
  {
    FormatsDiffer(f, DuckDb);
    FormatsDiffer(f, Sqlite);
    FormatsDiffer(f, Csv);
  }

  lemma {:induction false} SortedShapes(items: seq<Json>)
    ensures |SortedItems(items)| == |items|
    ensures AllObjects(items) ==> AllObjects(SortedItems(items))
    ensures AllLists(items) ==> AllLists(SortedItems(items))
  {
    if items != [] { SortedShapes(items[1..]); }
  }

  lemma SourceFields(r: SourceManifest) returns (ms: seq<Member>)
    ensures |SourceNames()| == 14 && ms == SortedMembers(SourceDict(r).members)
    ensures forall i :: 0 <= i < 14 ==> Find(ms, SourceNames()[i]) == Some(Sorted(SourceValues(r)[i]))
  {
    SourceNamesDiffer();
    ms := SortedMembers(SourceDict(r).members);
    forall i | 0 <= i < 14 ensures Find(ms, SourceNames()[i]) == Some(Sorted(SourceValues(r)[i])) {
      FieldBack(SourceNames(), SourceValues(r), i);
    }
  }

  lemma ResultFields(r: ResultManifest) returns (ms: seq<Member>)
    ensures |ResultNames()| == 15 && ms == SortedMembers(ResultDict(r).members)
    ensures forall i :: 0 <= i < 15 ==> Find(ms, ResultNames()[i]) == Some(Sorted(ResultValues(r)[i]))
  {
    ResultNamesDiffer();
    ms := SortedMembers(ResultDict(r).members);
    forall i | 0 <= i < 15 ensures Find(ms, ResultNames()[i]) == Some(Sorted(ResultValues(r)[i])) {
      FieldBack(ResultNames(), ResultValues(r), i);
    }
  }

  lemma SourceFields1(r: SourceManifest, ms: seq<Member>)
    requires |SourceNames()| == 14 && forall i :: 0 <= i < 14 ==>
      Find(ms, SourceNames()[i]) == Some(Sorted(SourceValues(r)[i]))
    ensures At(ms, "source_id") == Some(JText(r.sourceId))
    ensures At(ms, "scope_id") == Some(JText(r.scopeId))
    ensures At(ms, "source_ref") == Some(JText(r.sourceRef))
    ensures At(ms, "format") == Some(JText(FormatText(r.format)))
    ensures At(ms, "filename") == Some(JText(r.filename))
    ensures At(ms, "size") == Some(JInt(r.size))
    ensures At(ms, "sha256") == Some(JText(r.sha256))
  {
    var n, v := SourceNames(), SourceValues(r);
    assert Find(ms, n[0]) == Some(Sorted(v[0]));
    assert Find(ms, n[1]) == Some(Sorted(v[1]));
    assert Find(ms, n[2]) == Some(Sorted(v[2]));
    assert Find(ms, n[3]) == Some(Sorted(v[3]));
    assert Find(ms, n[4]) == Some(Sorted(v[4]));
    assert Find(ms, n[5]) == Some(Sorted(v[5]));
    assert Find(ms, n[6]) == Some(Sorted(v[6]));
  }

  lemma SourceFields2(r: SourceManifest, ms: seq<Member>)
    requires |SourceNames()| == 14 && forall i :: 0 <= i < 14 ==>
      Find(ms, SourceNames()[i]) == Some(Sorted(SourceValues(r)[i]))
    ensures At(ms, "schema_digest") == Some(JText(r.schemaDigest))
    ensures At(ms, "schema") == Some(JObject(SortedMembers(r.schema)))
    ensures At(ms, "data_file") == Some(JText(r.dataFile))
    ensures At(ms, "created_at") == Some(JText(r.createdAt))
    ensures At(ms, "accessed_at") == Some(JText(r.accessedAt))
    ensures At(ms, "expires_at") == Some(JText(r.expiresAt))
    ensures At(ms, "data_sha256") == Some(Sorted(r.dataSha256))
  {
    var n, v := SourceNames(), SourceValues(r);
    assert Find(ms, n[7]) == Some(Sorted(v[7]));
    assert Find(ms, n[8]) == Some(Sorted(v[8]));
    assert Find(ms, n[9]) == Some(Sorted(v[9]));
    assert Find(ms, n[10]) == Some(Sorted(v[10]));
    assert Find(ms, n[11]) == Some(Sorted(v[11]));
    assert Find(ms, n[12]) == Some(Sorted(v[12]));
    assert Find(ms, n[13]) == Some(Sorted(v[13]));
  }

  /** from_dict undoes as_dict, for sources. */
  lemma SourceReadBack(co: Coercions, r: SourceManifest)
    requires Lawful(co)
    ensures |SourceNames()| == 14 && ReadSource(co, SortedMembers(SourceDict(r).members)) == Some(SourceBack(r))
  {
    var ms := SourceFields(r);
    FormatBack(r.format);
    SourceFields1(r, ms);
    SourceFields2(r, ms);
  }

  lemma ResultFields1(r: ResultManifest, ms: seq<Member>)
    requires |ResultNames()| == 15 && forall i :: 0 <= i < 15 ==>
      Find(ms, ResultNames()[i]) == Some(Sorted(ResultValues(r)[i]))
    ensures At(ms, "result_id") == Some(JText(r.resultId))
    ensures At(ms, "query_key") == Some(Sorted(r.queryKey))
    ensures At(ms, "source_id") == Some(JText(r.sourceId))
    ensures At(ms, "source_sha256") == Some(JText(r.sourceSha256))
    ensures At(ms, "sql_sha256") == Some(JText(r.sqlSha256))
    ensures At(ms, "columns") == Some(JList(SortedItems(r.columns)))
    ensures At(ms, "row_count") == Some(JInt(r.rowCount))
  {
    var n, v := ResultNames(), ResultValues(r);
    assert Find(ms, n[0]) == Some(Sorted(v[0]));
    assert Find(ms, n[1]) == Some(Sorted(v[1]));
    assert Find(ms, n[2]) == Some(Sorted(v[2]));
    assert Find(ms, n[3]) == Some(Sorted(v[3]));
    assert Find(ms, n[4]) == Some(Sorted(v[4]));
    assert Find(ms, n[5]) == Some(Sorted(v[5]));
    assert Find(ms, n[6]) == Some(Sorted(v[6]));
  }

  lemma ResultFields2(r: ResultManifest, ms: seq<Member>)
    requires |ResultNames()| == 15 && forall i :: 0 <= i < 15 ==>
      Find(ms, ResultNames()[i]) == Some(Sorted(ResultValues(r)[i]))
    ensures At(ms, "byte_count") == Some(JInt(r.byteCount))
    ensures At(ms, "preview") == Some(JList(SortedItems(r.preview)))
    ensures At(ms, "duration_ms") == Some(JInt(r.durationMs))
    ensures At(ms, "result_file") == Some(JText(r.resultFile))
    ensures At(ms, "created_at") == Some(JText(r.createdAt))
    ensures At(ms, "accessed_at") == Some(JText(r.accessedAt))
    ensures At(ms, "expires_at") == Some(JText(r.expiresAt))
    ensures At(ms, "execution") == Some(Sorted(r.execution))
  {
    var n, v := ResultNames(), ResultValues(r);
    assert Find(ms, n[7]) == Some(Sorted(v[7]));
    assert Find(ms, n[8]) == Some(Sorted(v[8]));
    assert Find(ms, n[9]) == Some(Sorted(v[9]));
    assert Find(ms, n[10]) == Some(Sorted(v[10]));
    assert Find(ms, n[11]) == Some(Sorted(v[11]));
    assert Find(ms, n[12]) == Some(Sorted(v[12]));
    assert Find(ms, n[13]) == Some(Sorted(v[13]));
    assert Find(ms, n[14]) == Some(Sorted(v[14]));
  }

  /** from_dict undoes as_dict, for results. */
  lemma ResultReadBack(co: Coercions, r: ResultManifest)
    requires Lawful(co) && AllObjects(r.columns) && AllLists(r.preview)
    ensures |ResultNames()| == 15 && ReadResult(co, SortedMembers(ResultDict(r).members)) == Some(ResultBack(r))
  {
    var ms := ResultFields(r);
    SortedShapes(r.columns);
    SortedShapes(r.preview);
    ResultFields1(r, ms);
    ResultFields2(r, ms);
  }

  // ---- through the text ----

  predicate CleanSource(r: SourceManifest) {
    && Unpaired(r.sourceId) && Unpaired(r.scopeId) && Unpaired(r.sourceRef) && Unpaired(r.filename)
    && Unpaired(r.sha256)
    && Unpaired(r.schemaDigest) && Clean(JObject(r.schema)) && Unpaired(r.dataFile) && Unpaired(r.createdAt)
    && Unpaired(r.accessedAt) && Unpaired(r.expiresAt) && Clean(r.dataSha256)
  }

  predicate CleanResult(r: ResultManifest) {
    && Unpaired(r.resultId) && Clean(r.queryKey) && Unpaired(r.sourceId) && Unpaired(r.sourceSha256)
    && Unpaired(r.sqlSha256)
    && Clean(JList(r.columns)) && Clean(JList(r.preview)) && Unpaired(r.resultFile) && Unpaired(r.createdAt)
    && Unpaired(r.accessedAt) && Unpaired(r.expiresAt) && Clean(r.execution)
    && AllObjects(r.columns) && AllLists(r.preview)
  }

  lemma ZipClean(names: seq<Text>, values: seq<Json>)
    requires |names| == |values|
    requires forall i :: 0 <= i < |names| ==> Unpaired(names[i]) && Clean(values[i])
    ensures Clean(JObject(Zip(names, values)))
  {
  }

  lemma SourceDictClean(r: SourceManifest)
    requires CleanSource(r)
    ensures |SourceNames()| == 14 && Clean(SourceDict(r))
  {
    SourceNamesDiffer();
    FormatsDiffer(r.format, r.format);
    ZipClean(SourceNames(), SourceValues(r));
  }

  lemma ResultDictClean(r: ResultManifest)
    requires CleanResult(r)
    ensures |ResultNames()| == 15 && Clean(ResultDict(r))
  {
    ResultNamesDiffer();
    ZipClean(ResultNames(), ResultValues(r));
  }

  /** The manifest of a source, parsed from the text that was written, is the record. */
  lemma SourceManifestBack(co: Coercions, r: SourceManifest)
    requires Lawful(co) && CleanSource(r)
    ensures |SourceNames()| == 14
    ensures var read := Parse(Canonical(SourceDict(r)));
      read.Got? && read.value.JObject? && ReadSource(co, read.value.members) == Some(SourceBack(r))
  {
    SourceNamesDiffer();
    FormatsDiffer(r.format, r.format);
    ZipClean(SourceNames(), SourceValues(r));
    CanonicalBack(SourceDict(r));
    SourceReadBack(co, r);
  }

  /** The manifest of a result, parsed from the text that was written, is the record. */
  lemma ResultManifestBack(co: Coercions, r: ResultManifest)
    requires Lawful(co) && CleanResult(r)
    ensures |ResultNames()| == 15
    ensures var read := Parse(Canonical(ResultDict(r)));
      read.Got? && read.value.JObject? && ReadResult(co, read.value.members) == Some(ResultBack(r))
  {
    ResultNamesDiffer();
    ZipClean(ResultNames(), ResultValues(r));
    CanonicalBack(ResultDict(r));
    ResultReadBack(co, r);
  }

  // ---- touching ----

  predicate ProperSource(r: SourceManifest) { Proper(JObject(r.schema)) && Proper(r.dataSha256) }

  predicate ProperResult(r: ResultManifest) {
    Proper(r.queryKey) && Proper(JList(r.columns)) && Proper(JList(r.preview)) && Proper(r.execution)
  }

  // A lookup that touches: read the manifest, set two stamps, write it.
  function TouchedSource(r: SourceManifest, accessed: Text, expires: Text): SourceManifest {
    SourceBack(r).(accessedAt := accessed, expiresAt := expires)
  }

  function TouchedResult(r: ResultManifest, accessed: Text, expires: Text): ResultManifest {
    ResultBack(r).(accessedAt := accessed, expiresAt := expires)
  }

  /** Any number of touches leaves a source's manifest as the first write read back, but for the
      two stamps. */
  lemma SourceTouchesOnlyStamps(r: SourceManifest, accessed: Text, expires: Text)
    requires ProperSource(r)
    ensures SourceBack(TouchedSource(r, accessed, expires)) == TouchedSource(r, accessed, expires)
    ensures TouchedSource(TouchedSource(r, accessed, expires), r.accessedAt, r.expiresAt) == SourceBack(r)
  {
    SortedTwice(JObject(r.schema));
    SortedTwice(r.dataSha256);
  }

  lemma ResultTouchesOnlyStamps(r: ResultManifest, accessed: Text, expires: Text)
    requires ProperResult(r)
    ensures ResultBack(TouchedResult(r, accessed, expires)) == TouchedResult(r, accessed, expires)
    ensures TouchedResult(TouchedResult(r, accessed, expires), r.accessedAt, r.expiresAt) == ResultBack(r)
  {
    SortedTwice(r.queryKey);
    SortedTwice(JList(r.columns));
    SortedTwice(JList(r.preview));
    SortedTwice(r.execution);
  }
}
