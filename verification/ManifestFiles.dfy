/** Manifest files: the records of Model as the texts of Manifests and the bytes on the disk, and a
    reader of such files for which Publication's assumptions on parsers are theorems. */
module ManifestFiles {
  import opened Basics
  import opened JsonModel
  import opened Model
  import opened JsonText
  import opened JsonValues
  import opened Keys
  import opened Manifests
  import opened Rereading
  import CacheSpec
  import Publication

  // ---- texts of ids, digests and times ----

  datatype Codec = Codec(
    idText: Id -> Text, idOf: Text -> Option<Id>,
    keyText: QueryKey -> Text, keyOf: Text -> Option<QueryKey>,
    hexText: Digest -> Text, hexOf: Text -> Option<Digest>,
    iso: Time -> Text, timeOf: Text -> Option<Time>,
    co: Coercions)

  // No character that a canonical text escapes.
  predicate PlainText(t: Text) { forall i :: 0 <= i < |t| ==> 32 <= t[i] <= 126 && t[i] != QUOTE && t[i] != BACKSLASH }

  // What a datetime can be, the epoch taken as 1970: the years 1 to 9999.
  predicate Datable(t: Time) { -62_135_596_800 * SECOND <= t < 253_402_300_800 * SECOND }

  /** What is written reads back, and a time is written in as many characters as StampBytes says. */
  ghost predicate Inverse(cd: Codec) {
    && Lawful(cd.co)
    && (forall id :: cd.idOf(cd.idText(id)) == Some(id) && Unpaired(cd.idText(id)))
    && (forall key :: cd.keyOf(cd.keyText(key)) == Some(key) && Unpaired(cd.keyText(key)))
    && (forall d :: cd.hexOf(cd.hexText(d)) == Some(d) && Unpaired(cd.hexText(d)))
    && (forall t :: Datable(t) ==>
        cd.timeOf(cd.iso(t)) == Some(t) && PlainText(cd.iso(t)) && |cd.iso(t)| == StampBytes(Some(t)))
  }

  lemma PlainIsUnpaired(t: Text)
    requires PlainText(t)
    ensures Unpaired(t)
  {
  }

  // ---- sources ----

  // What a manifest holds besides the record: it plays no part in any lookup.
  datatype SourceExtras = SourceExtras(schema: seq<Member>, created: Text)

  function OptionalHex(cd: Codec, d: Option<Digest>): Json { if d.Some? then JText(cd.hexText(d.value)) else JNull }

  /** The record with its stamps, as commit_source serialises it. */
  function WrittenSource(cd: Codec, r: SourceRecord, x: SourceExtras, accessed: Time, expires: Time): SourceManifest {
    SourceManifest(cd.idText(r.id), r.scope, r.ref, r.format, r.filename, r.size, cd.hexText(r.sha256),
                   cd.hexText(r.schemaDigest),
      x.schema, r.dataFile, x.created, cd.iso(accessed), cd.iso(expires), OptionalHex(cd, r.dataSha256))
  }

  /** SourceRecord.from_dict, up to the types of Model. */
  function SourceOfManifest(cd: Codec, m: SourceManifest): Option<SourceRecord> {
    var id, sha, digest := cd.idOf(m.sourceId), cd.hexOf(m.sha256), cd.hexOf(m.schemaDigest);
    if id.None? || sha.None? || digest.None? || m.size < 0 then None
    else
      var data := if m.dataSha256.JText? then cd.hexOf(m.dataSha256.t) else None;
      Some(SourceRecord(id.value, m.scopeId, m.sourceRef, m.format, m.filename, m.size, sha.value, digest.value,
                        m.dataFile, data))
  }

  // ---- results ----

  datatype ResultExtras = ResultExtras(sqlSha256: Text, durationMs: int, created: Text, provenance: seq<Member>)

  function ColumnJson(c: Column): Json {
    JObject([Member(Chars("name"), JText(c.name)), Member(Chars("type"), JText(c.typ))])
  }

  function ColumnsJson(columns: seq<Column>): (r: seq<Json>)
    ensures |r| == |columns|
  {
    if columns == [] then [] else [ColumnJson(columns[0])] + ColumnsJson(columns[1..])
  }

  function RowsJson(rows: seq<seq<Json>>): (r: seq<Json>)
    ensures |r| == |rows|
  {
    if rows == [] then [] else [JList(rows[0])] + RowsJson(rows[1..])
  }

  function ExecutionJson(cd: Codec, p: Option<Provenance>, rest: seq<Member>): Json {
    if p.None? then JNull
    else JObject([Member(Chars("schema_digest"), JText(cd.hexText(p.value.schemaDigest))),
                  Member(Chars("result_sha256"), OptionalHex(cd, p.value.resultSha256))] + rest)
  }

  function WrittenResult(cd: Codec, r: ResultRecord, x: ResultExtras, accessed: Time, expires: Time): ResultManifest {
    ResultManifest(cd.idText(r.id), if r.queryKey.Some? then JText(cd.keyText(r.queryKey.value)) else JNull,
      cd.idText(r.source), cd.hexText(r.sourceSha256), x.sqlSha256, ColumnsJson(r.shape.columns), r.shape.rowCount,
      r.byteCount,
      RowsJson(r.shape.preview), x.durationMs, r.resultFile, x.created, cd.iso(accessed), cd.iso(expires),
      ExecutionJson(cd, r.execution, x.provenance))
  }

  function ColumnOf(j: Json): Option<Column> {
    if !j.JObject? then None
    else
      var name, typ := Find(j.members, Chars("name")), Find(j.members, Chars("type"));
      if name.None? || typ.None? || !name.value.JText? || !typ.value.JText? then None
          else Some(Column(name.value.t, typ.value.t))
  }

  function ColumnsOf(items: seq<Json>): Option<seq<Column>> {
    if items == [] then Some([])
    else
      var first, rest := ColumnOf(items[0]), ColumnsOf(items[1..]);
      if first.None? || rest.None? then None else Some([first.value] + rest.value)
  }

  function RowsOf(items: seq<Json>): Option<seq<seq<Json>>> {
    if items == [] then Some([])
    else
      var rest := RowsOf(items[1..]);
      if !items[0].JList? || rest.None? then None else Some([items[0].items] + rest.value)
  }

  // None: execution is absent or null; Some(None): unusable.
  function ProvenanceOf(cd: Codec, j: Json): Option<Option<Provenance>> {
    if j.JNull? then Some(None)
    else if !j.JObject? then None
    else
      var digest, sha := Find(j.members, Chars("schema_digest")), Find(j.members, Chars("result_sha256"));
      if digest.None? || !digest.value.JText? || cd.hexOf(digest.value.t).None? then None
      else
        var result := if sha.Some? && sha.value.JText? then cd.hexOf(sha.value.t) else None;
        Some(Some(Provenance(result, cd.hexOf(digest.value.t).value)))
  }

  function KeyOfJson(cd: Codec, j: Json): Option<QueryKey> { if j.JText? then cd.keyOf(j.t) else None }

  /** ResultRecord.from_dict, up to the types of Model. */
  function ResultOfManifest(cd: Codec, m: ResultManifest): Option<ResultRecord> {
    var id, source, sha := cd.idOf(m.resultId), cd.idOf(m.sourceId), cd.hexOf(m.sourceSha256);
    var columns, rows, execution := ColumnsOf(m.columns), RowsOf(m.preview), ProvenanceOf(cd, m.execution);
    if id.None? || source.None? || sha.None? || columns.None? || rows.None? || execution.None? || m.rowCount < 0 ||
        m.byteCount < 0 then None
    else Some(ResultRecord(id.value, KeyOfJson(cd, m.queryKey), source.value, sha.value,
      Shape(columns.value, m.rowCount, rows.value), m.byteCount, m.resultFile, execution.value))
  }

  // ---- what comes back ----

  lemma {:induction false} ColumnsBack(columns: seq<Column>)
    ensures ColumnsOf(SortedItems(ColumnsJson(columns))) == Some(columns)
  {
    if columns != [] {
      ColumnsBack(columns[1..]);
      ColumnBack(columns[0]);
      var items := ColumnsJson(columns);
      assert SortedItems(items)[1..] == SortedItems(items[1..]) && items[1..] == ColumnsJson(columns[1..]);
      assert [columns[0]] + columns[1..] == columns;
    }
  }

  lemma ColumnBack(c: Column)
    ensures ColumnOf(Sorted(ColumnJson(c))) == Some(c)
  {
    var ms := ColumnJson(c).members;
    assert |Chars("name")| == 4 && Chars("name")[0] == 110 && Chars("type")[0] == 116;
    FindAt(ms, 0);
    FindAt(ms, 1);
    FindSorted(ms, Chars("name"));
    FindSorted(ms, Chars("type"));
  }

  lemma {:induction false} RowsBack(rows: seq<seq<Json>>)
    ensures RowsOf(SortedItems(RowsJson(rows))) == Some(SortedRows(rows))
  {
    if rows != [] {
      RowsBack(rows[1..]);
      var items := RowsJson(rows);
      assert SortedItems(items)[1..] == SortedItems(items[1..]) && items[1..] == RowsJson(rows[1..]);
    }
  }

  // The other members of `execution` have other names.
  predicate Others(rest: seq<Member>) {
    OneEach(rest) && forall i :: 0 <= i < |rest| ==>
        rest[i].name != Chars("schema_digest") && rest[i].name != Chars("result_sha256")
  }

  lemma ExecutionMembers(cd: Codec, p: Provenance, rest: seq<Member>)
    requires Others(rest)
    ensures OneEach(ExecutionJson(cd, Some(p), rest).members)
  {
    assert Chars("schema_digest")[1] == 99 && Chars("result_sha256")[1] == 101;
    var ms := ExecutionJson(cd, Some(p), rest).members;
    assert forall i :: 2 <= i < |ms| ==> ms[i] == rest[i - 2];
  }

  lemma ProvenanceBack(cd: Codec, p: Option<Provenance>, rest: seq<Member>)
    requires Inverse(cd) && Others(rest)
    ensures ProvenanceOf(cd, Sorted(ExecutionJson(cd, p, rest))) == Some(p)
  {
    if p.Some? {
      var ms := ExecutionJson(cd, p, rest).members;
      ExecutionMembers(cd, p.value, rest);
      FindAt(ms, 0);
      FindAt(ms, 1);
      FindSorted(ms, Chars("schema_digest"));
      FindSorted(ms, Chars("result_sha256"));
    }
  }

  /** The record that from_dict makes of what was serialised is the record, nested members sorted. */
  lemma ResultRecordBack(cd: Codec, r: ResultRecord, x: ResultExtras, accessed: Time, expires: Time)
    requires Inverse(cd) && Others(x.provenance)
    ensures ResultOfManifest(cd, ResultBack(WrittenResult(cd, r, x, accessed, expires))) == Some(Reread(r))
  {
    ColumnsBack(r.shape.columns);
    RowsBack(r.shape.preview);
    ProvenanceBack(cd, r.execution, x.provenance);
  }

  lemma SourceRecordBack(cd: Codec, r: SourceRecord, x: SourceExtras, accessed: Time, expires: Time)
    requires Inverse(cd)
    ensures SourceOfManifest(cd, SourceBack(WrittenSource(cd, r, x, accessed, expires))) == Some(r)
  {
  }

  // ---- files ----

  // Manifests are written in UTF-8 and hold ASCII only.
  function Encode(t: Text): Bytes { seq(|t|, i requires 0 <= i < |t| => if t[i] < 128 then t[i] as int as Byte else 0) }

  function Decode(b: Bytes): Text { seq(|b|, i requires 0 <= i < |b| => b[i] as int as Code) }

  lemma DecodeBack(t: Text)
    requires Ascii(t)
    ensures Decode(Encode(t)) == t && |Encode(t)| == |t|
  {
  }

  function TimeIn(cd: Codec, members: seq<Member>, name: string): Option<Time>
    requires forall i :: 0 <= i < |name| ==> name[i] < 128 as char
  {
    var v := At(members, name);
    if v.Some? && v.value.JText? then cd.timeOf(v.value.t) else None
  }

  function RecordIn(cd: Codec, members: seq<Member>): Option<Record> {
    var source, result := ReadSource(cd.co, members), ReadResult(cd.co, members);
    if source.Some? then
      var r := SourceOfManifest(cd, source.value);
      if r.Some? then Some(SourceRec(r.value)) else None
    else if result.Some? then
      var r := ResultOfManifest(cd, result.value);
      if r.Some? then Some(ResultRec(r.value)) else None
    else None
  }

  // The bytes of a manifest apart from its two stamps.
  function Base(size: nat, accessed: Option<Time>, expires: Option<Time>): nat {
    if size < StampBytes(accessed) + StampBytes(expires) then 0 else size - StampBytes(accessed) - StampBytes(expires)
  }

  /** _read_manifest and what its callers look up in the dictionary. */
  function ReadFile(cd: Codec, bytes: Bytes): Manifest {
    var read := Parse(Decode(bytes));
    if read.Bad? || read.rest != [] || !read.value.JObject? then Publication.BLANK
    else
      var ms := read.value.members;
      var accessed, expires := TimeIn(cd, ms, "accessed_at"), TimeIn(cd, ms, "expires_at");
      var scope, source := At(ms, "scope_id"), At(ms, "source_id");
      Manifest(RecordIn(cd, ms), accessed, expires,
        if scope.Some? && scope.value.JText? then Some(scope.value.t) else None,
        if source.Some? && source.value.JText? then cd.idOf(source.value.t) else None,
        Base(|bytes|, accessed, expires))
  }

  function Reader(cd: Codec): Publication.Parser { b => ReadFile(cd, b) }

  function SourceFile(m: SourceManifest): Bytes
    requires |SourceNames()| == 14
  {
    Encode(Canonical(SourceDict(m)))
  }

  function ResultFile(m: ResultManifest): Bytes
    requires |ResultNames()| == 15
  {
    Encode(Canonical(ResultDict(m)))
  }

  function ReadSourceAs(cd: Codec, m: SourceManifest): Option<Record> {
    var r := SourceOfManifest(cd, m);
    if r.Some? then Some(SourceRec(r.value)) else None
  }

  function ReadResultAs(cd: Codec, m: ResultManifest): Option<Record> {
    var r := ResultOfManifest(cd, m);
    if r.Some? then Some(ResultRec(r.value)) else None
  }

  /** What is read from a source's manifest file. */
  lemma SourceFileGives(cd: Codec, m: SourceManifest)
    requires Inverse(cd) && CleanSource(m)
    ensures |SourceNames()| == 14
    ensures var accessed, expires := cd.timeOf(m.accessedAt), cd.timeOf(m.expiresAt);
      ReadFile(cd, SourceFile(m)) ==
        Manifest(ReadSourceAs(cd, SourceBack(m)), accessed, expires, Some(m.scopeId), cd.idOf(m.sourceId),
                 Base(|SourceFile(m)|, accessed, expires))
  {
    SourceFileMembers(cd, m);
    SourceReadBack(cd.co, m);
    var ms := SourceFields(m);
    SourceFields1(m, ms);
    SourceFields2(m, ms);
  }

  /** A file of a source's manifest tells its record. */
  lemma SourceFileRead(cd: Codec, r: SourceRecord, x: SourceExtras, accessed: Time, expires: Time)
    requires Datable(accessed) && Datable(expires)
    requires Inverse(cd) && CleanSource(WrittenSource(cd, r, x, accessed, expires))
    ensures |SourceNames()| == 14
    ensures var file := SourceFile(WrittenSource(cd, r, x, accessed, expires));
      && ReadFile(cd, file) == Manifest(Some(SourceRec(r)), Some(accessed), Some(expires), Some(r.scope), Some(r.id),
                                        Base(|file|, Some(accessed), Some(expires)))
      && Publication.Tells(Reader(cd), file, SourceRec(r))
  {
    SourceFileGives(cd, WrittenSource(cd, r, x, accessed, expires));
    SourceRecordBack(cd, r, x, accessed, expires);
  }

  lemma SourceFileMembers(cd: Codec, m: SourceManifest)
    requires CleanSource(m)
    ensures |SourceNames()| == 14
    ensures Parse(Decode(SourceFile(m))) == Got(JObject(SortedMembers(SourceDict(m).members)), [])
    ensures |SourceFile(m)| == |Canonical(SourceDict(m))|
  {
    SourceDictClean(m);
    CanonicalBack(SourceDict(m));
    CanonicalAscii(SourceDict(m));
    DecodeBack(Canonical(SourceDict(m)));
  }

  /** What is read from a result's manifest file. */
  lemma ResultFileGives(cd: Codec, m: ResultManifest)
    requires Inverse(cd) && CleanResult(m)
    ensures |ResultNames()| == 15
    ensures var accessed, expires := cd.timeOf(m.accessedAt), cd.timeOf(m.expiresAt);
      ReadFile(cd, ResultFile(m)) ==
        Manifest(ReadResultAs(cd, ResultBack(m)), accessed, expires, None, cd.idOf(m.sourceId),
                 Base(|ResultFile(m)|, accessed, expires))
  {
    ResultFileMembers(cd, m);
    ResultReadBack(cd.co, m);
    NoScope(m);
    var ms := ResultFields(m);
    ResultFields1(m, ms);
    ResultFields2(m, ms);
  }

  /** A file of a result's manifest tells its record, the preview's members sorted. */
  lemma ResultFileRead(cd: Codec, r: ResultRecord, x: ResultExtras, accessed: Time, expires: Time)
    requires Datable(accessed) && Datable(expires)
    requires Inverse(cd) && CleanResult(WrittenResult(cd, r, x, accessed, expires)) && Others(x.provenance)
    ensures |ResultNames()| == 15
    ensures var file := ResultFile(WrittenResult(cd, r, x, accessed, expires));
      && ReadFile(cd, file) == Manifest(Some(ResultRec(Reread(r))), Some(accessed), Some(expires), None, Some(r.source),
                                        Base(|file|, Some(accessed), Some(expires)))
      && Publication.Tells(Reader(cd), file, ResultRec(Reread(r)))
  {
    ResultFileGives(cd, WrittenResult(cd, r, x, accessed, expires));
    ResultRecordBack(cd, r, x, accessed, expires);
  }

  lemma NoScope(m: ResultManifest)
    ensures |ResultNames()| == 15 && At(SortedMembers(ResultDict(m).members), "scope_id") == None
  {
    ResultNamesDiffer();
    NoneIsEight();
    var ms := ResultDict(m).members;
    assert OneEach(ms);
    assert |Chars("scope_id")| == 8;
    FindNone(ms, Chars("scope_id"));
    FindSorted(ms, Chars("scope_id"));
  }

  lemma NoneIsEight()
    ensures |ResultNames()| == 15 && forall i :: 0 <= i < 15 ==> |ResultNames()[i]| != 8
  {
  }

  lemma ResultFileMembers(cd: Codec, m: ResultManifest)
    requires CleanResult(m)
    ensures |ResultNames()| == 15
    ensures Parse(Decode(ResultFile(m))) == Got(JObject(SortedMembers(ResultDict(m).members)), [])
    ensures |ResultFile(m)| == |Canonical(ResultDict(m))|
  {
    ResultDictClean(m);
    CanonicalBack(ResultDict(m));
    CanonicalAscii(ResultDict(m));
    DecodeBack(Canonical(ResultDict(m)));
  }

  // ---- touching a file ----

  lemma {:induction false} PlainEscape(t: Text)
    requires PlainText(t)
    ensures Escape(t) == t
  {
    if t != [] {
      forall i | 0 <= i < |t[1..]| ensures 32 <= t[1..][i] <= 126 && t[1..][i] != QUOTE && t[1..][i] != BACKSLASH {
        assert t[1..][i] == t[i + 1];
      }
      PlainEscape(t[1..]);
      assert t == [t[0]] + t[1..];
    }
  }

  // A text member of an object, and the same member empty.
  lemma StampLength(members: seq<Member>, i: nat, t: Text)
    requires i < |members| && members[i].value == JText(t) && PlainText(t)
    ensures SortedLengths(members) == SortedLengths(members[i := Member(members[i].name, JText([]))]) + |t|
  {
    PlainEscape(t);
    ReplaceLength(members, i, Member(members[i].name, JText([])));
  }

  /** The length of an object with two stamps is that without their characters, and the characters. */
  lemma TwoStamps(members: seq<Member>, i: nat, j: nat, s: Text, t: Text)
    requires i < j < |members| && members[i].value == JText(s) && members[j].value == JText(t) && PlainText(s)
    requires PlainText(t)
    ensures |Canonical(JObject(members))| ==
      |Canonical(JObject(members[i := Member(members[i].name, JText([]))][j := Member(members[j].name,
          JText([]))]))| + |s| + |t|
  {
    var bare := members[i := Member(members[i].name, JText([]))];
    StampLength(members, i, s);
    StampLength(bare, j, t);
    CanonicalLength(members);
    CanonicalLength(bare[j := Member(members[j].name, JText([]))]);
  }

  lemma SourceLength(m: SourceManifest)
    requires PlainText(m.accessedAt) && PlainText(m.expiresAt)
    ensures |SourceNames()| == 14
    ensures |Canonical(SourceDict(m))| ==
        |Canonical(SourceDict(m.(accessedAt := [], expiresAt := [])))| + |m.accessedAt| + |m.expiresAt|
  {
    SourceNamesDiffer();
    var ms := SourceDict(m).members;
    TwoStamps(ms, 11, 12, m.accessedAt, m.expiresAt);
    assert SourceDict(m.(accessedAt := [], expiresAt := [])).members ==
        ms[11 := Member(ms[11].name, JText([]))][12 := Member(ms[12].name, JText([]))];
  }

  lemma ResultLength(m: ResultManifest)
    requires PlainText(m.accessedAt) && PlainText(m.expiresAt)
    ensures |ResultNames()| == 15
    ensures |Canonical(ResultDict(m))| ==
        |Canonical(ResultDict(m.(accessedAt := [], expiresAt := [])))| + |m.accessedAt| + |m.expiresAt|
  {
    ResultNamesDiffer();
    var ms := ResultDict(m).members;
    TwoStamps(ms, 12, 13, m.accessedAt, m.expiresAt);
    assert ResultDict(m.(accessedAt := [], expiresAt := [])).members ==
        ms[12 := Member(ms[12].name, JText([]))][13 := Member(ms[13].name, JText([]))];
  }

  /** Written again as read, a manifest has the same text. */
  lemma SourceSameText(m: SourceManifest)
    requires ProperSource(m)
    ensures |SourceNames()| == 14 && Canonical(SourceDict(SourceBack(m))) == Canonical(SourceDict(m))
  {
    SourceNamesDiffer();
    SortedTwice(JObject(m.schema));
    SortedTwice(m.dataSha256);
    var a, b := SourceDict(SourceBack(m)).members, SourceDict(m).members;
    forall i | 0 <= i < 14 ensures a[i].name == b[i].name && Sorted(a[i].value) == Sorted(b[i].value) {}
    SameSorted(a, b);
  }

  lemma ResultSameText(m: ResultManifest)
    requires ProperResult(m)
    ensures |ResultNames()| == 15 && Canonical(ResultDict(ResultBack(m))) == Canonical(ResultDict(m))
  {
    ResultNamesDiffer();
    SortedTwice(m.queryKey);
    SortedTwice(JList(m.columns));
    SortedTwice(JList(m.preview));
    SortedTwice(m.execution);
    var a, b := ResultDict(ResultBack(m)).members, ResultDict(m).members;
    forall i | 0 <= i < 15 ensures a[i].name == b[i].name && Sorted(a[i].value) == Sorted(b[i].value) {}
    SameSorted(a, b);
  }

  lemma TouchedSourceClean(m: SourceManifest, accessed: Text, expires: Text)
    requires CleanSource(m) && Unpaired(accessed) && Unpaired(expires)
    ensures CleanSource(TouchedSource(m, accessed, expires))
  {
    SortedIsClean(JObject(m.schema));
    SortedIsClean(m.dataSha256);
  }

  lemma TouchedResultClean(m: ResultManifest, accessed: Text, expires: Text)
    requires CleanResult(m) && Unpaired(accessed) && Unpaired(expires)
    ensures CleanResult(TouchedResult(m, accessed, expires))
  {
    SortedIsClean(m.queryKey);
    SortedIsClean(JList(m.columns));
    SortedIsClean(JList(m.preview));
    SortedIsClean(m.execution);
    SortedShapes(m.columns);
    SortedShapes(m.preview);
  }

  lemma SourceBases(cd: Codec, m: SourceManifest, a: Time, e: Time, now: Time, expires: Time)
    requires Datable(a) && Datable(e) && Datable(now) && Datable(expires)
    requires Inverse(cd) && CleanSource(m) && ProperSource(m) && m.accessedAt == cd.iso(a) && m.expiresAt == cd.iso(e)
    ensures |SourceNames()| == 14
    ensures Base(|SourceFile(TouchedSource(m, cd.iso(now), cd.iso(expires)))|, Some(now), Some(expires)) ==
        Base(|SourceFile(m)|, Some(a), Some(e))
  {
    var m' := TouchedSource(m, cd.iso(now), cd.iso(expires));
    PlainIsUnpaired(cd.iso(now));
    PlainIsUnpaired(cd.iso(expires));
    TouchedSourceClean(m, cd.iso(now), cd.iso(expires));
    SourceFileMembers(cd, m);
    SourceFileMembers(cd, m');
    SourceLength(m);
    SourceLength(m');
    SourceSameText(m.(accessedAt := [], expiresAt := []));
    assert m'.(accessedAt := [], expiresAt := []) == SourceBack(m.(accessedAt := [], expiresAt := []));
  }

  lemma ResultBases(cd: Codec, m: ResultManifest, a: Time, e: Time, now: Time, expires: Time)
    requires Datable(a) && Datable(e) && Datable(now) && Datable(expires)
    requires Inverse(cd) && CleanResult(m) && ProperResult(m) && m.accessedAt == cd.iso(a) && m.expiresAt == cd.iso(e)
    ensures |ResultNames()| == 15
    ensures Base(|ResultFile(TouchedResult(m, cd.iso(now), cd.iso(expires)))|, Some(now), Some(expires)) ==
        Base(|ResultFile(m)|, Some(a), Some(e))
  {
    var m' := TouchedResult(m, cd.iso(now), cd.iso(expires));
    PlainIsUnpaired(cd.iso(now));
    PlainIsUnpaired(cd.iso(expires));
    TouchedResultClean(m, cd.iso(now), cd.iso(expires));
    ResultFileMembers(cd, m);
    ResultFileMembers(cd, m');
    ResultLength(m);
    ResultLength(m');
    ResultSameText(m.(accessedAt := [], expiresAt := []));
    assert m'.(accessedAt := [], expiresAt := []) == ResultBack(m.(accessedAt := [], expiresAt := []));
  }

  /** A touch as it happens to the file (read it, set two stamps, write it) is the touch of the model:
      the manifest read afterwards is the one read before with the new stamps, and its other bytes
      are as many as before. */
  lemma SourceTouch(cd: Codec, m: SourceManifest, a: Time, e: Time, now: Time, ttl: nat, files: map<Text, Bytes>,
                    payload: nat)
    requires Datable(a) && Datable(e) && Datable(now) && Datable(Expiry(now, ttl))
    requires Inverse(cd) && CleanSource(m) && ProperSource(m) && m.accessedAt == cd.iso(a) && m.expiresAt == cd.iso(e)
    ensures |SourceNames()| == 14
    ensures Entry(ReadFile(cd, SourceFile(TouchedSource(m, cd.iso(now), cd.iso(Expiry(now, ttl))))), files, payload)
      == CacheSpec.Touched(Entry(ReadFile(cd, SourceFile(m)), files, payload), now, ttl)
  {
    var expires := Expiry(now, ttl);
    PlainIsUnpaired(cd.iso(now));
    PlainIsUnpaired(cd.iso(expires));
    TouchedSourceClean(m, cd.iso(now), cd.iso(expires));
    SourceTouchesOnlyStamps(m, cd.iso(now), cd.iso(expires));
    SourceFileGives(cd, m);
    SourceFileGives(cd, TouchedSource(m, cd.iso(now), cd.iso(expires)));
    SourceBases(cd, m, a, e, now, expires);
  }

  lemma ResultTouch(cd: Codec, m: ResultManifest, a: Time, e: Time, now: Time, ttl: nat, files: map<Text, Bytes>,
                    payload: nat)
    requires Datable(a) && Datable(e) && Datable(now) && Datable(Expiry(now, ttl))
    requires Inverse(cd) && CleanResult(m) && ProperResult(m) && m.accessedAt == cd.iso(a) && m.expiresAt == cd.iso(e)
    ensures |ResultNames()| == 15
    ensures Entry(ReadFile(cd, ResultFile(TouchedResult(m, cd.iso(now), cd.iso(Expiry(now, ttl))))), files, payload)
      == CacheSpec.Touched(Entry(ReadFile(cd, ResultFile(m)), files, payload), now, ttl)
  {
    var expires := Expiry(now, ttl);
    PlainIsUnpaired(cd.iso(now));
    PlainIsUnpaired(cd.iso(expires));
    TouchedResultClean(m, cd.iso(now), cd.iso(expires));
    ResultTouchesOnlyStamps(m, cd.iso(now), cd.iso(expires));
    ResultFileGives(cd, m);
    ResultFileGives(cd, TouchedResult(m, cd.iso(now), cd.iso(expires)));
    ResultBases(cd, m, a, e, now, expires);
  }

  /** And the bytes of the entry are those of its manifest file and of its other files. */
  lemma SourceEntryBytes(cd: Codec, m: SourceManifest, a: Time, e: Time, files: map<Text, Bytes>, payload: nat)
    requires Datable(a) && Datable(e)
    requires Inverse(cd) && CleanSource(m) && m.accessedAt == cd.iso(a) && m.expiresAt == cd.iso(e)
    ensures |SourceNames()| == 14
    ensures Size(Entry(ReadFile(cd, SourceFile(m)), files, payload)) == |SourceFile(m)| + payload
  {
    SourceFileGives(cd, m);
    SourceFileMembers(cd, m);
    SourceLength(m);
  }

  lemma ResultEntryBytes(cd: Codec, m: ResultManifest, a: Time, e: Time, files: map<Text, Bytes>, payload: nat)
    requires Datable(a) && Datable(e)
    requires Inverse(cd) && CleanResult(m) && m.accessedAt == cd.iso(a) && m.expiresAt == cd.iso(e)
    ensures |ResultNames()| == 15
    ensures Size(Entry(ReadFile(cd, ResultFile(m)), files, payload)) == |ResultFile(m)| + payload
  {
    ResultFileGives(cd, m);
    ResultFileMembers(cd, m);
    ResultLength(m);
  }
}
