/** JSON values as Python's json module reads and writes them; objects keep member order. */
module JsonModel {
  import opened Basics

  // A float is kept as the text that repr() gives it.
  datatype Json =
    | JNull
    | JBool(b: bool)
    | JInt(i: int)
    | JFloat(repr: Text)
    | JText(t: Text)
    | JList(items: seq<Json>)
    | JObject(members: seq<Member>)

  datatype Member = Member(name: Text, value: Json)
}

/** The entities the worker stores: settings, records, manifests, cache entries. */
module Model {
  import opened Basics
  import opened JsonModel

  datatype Kind = Source | Result
  datatype Format = DuckDb | Sqlite | Csv

  // src_<digest of scope NUL ref>, res_<query key>, res_<uuid>, or a stray directory name.
  // A digest stands for its preimage, so the first two carry it.
  datatype Id =
    | SrcId(scope: Text, ref: Text)
    | ResKey(key: QueryKey)
    | ResUuid(uuid: nat)
    | Stray(name: Text)

  predicate IsSourceId(id: Id) { id.SrcId? }
  predicate IsResultId(id: Id) { id.ResKey? || id.ResUuid? }

  datatype Param = Param(kind: Text, value: Json)

  // Everything besides the request and the source that a query key depends on.
  datatype Runtime = Runtime(
    workerVersion: Text, policyVersion: Text, duckdb: Text, sqlite: Text, sqlglot: Text,
    timeoutSeconds: int, memoryLimit: Text, threads: int, maxRows: nat, maxBytes: nat)

  datatype QueryKey = QueryKey(
    scope: Text, sourceSha256: Digest, schemaDigest: Digest, format: Format,
    sql: Text, params: map<Text, Param>, runtime: Runtime)

  datatype Settings = Settings(
    sourceMaxBytes: nat, resultMaxBytes: nat,
    sourceTtlSeconds: nat, resultTtlSeconds: nat,
    maxSourceBytes: nat, maxQueries: nat, maxIngestions: nat,
    runtime: Runtime)

  function MaxBytes(s: Settings, k: Kind): nat {
    if k.Source? then s.sourceMaxBytes else s.resultMaxBytes
  }

  datatype SourceRecord = SourceRecord(
    id: Id, scope: Text, ref: Text, format: Format, filename: Text, size: nat,
    sha256: Digest, schemaDigest: Digest, dataFile: Text, dataSha256: Option<Digest>)

  datatype Column = Column(name: Text, typ: Text)

  // What the engine's answer looks like in a response: all of it but the CSV bytes.
  datatype Shape = Shape(columns: seq<Column>, rowCount: nat, preview: seq<seq<Json>>)

  // `execution`: absent in legacy manifests; it may lack a result digest.
  datatype Provenance = Provenance(resultSha256: Option<Digest>, schemaDigest: Digest)

  datatype ResultRecord = ResultRecord(
    id: Id, queryKey: Option<QueryKey>, source: Id, sourceSha256: Digest,
    shape: Shape, byteCount: nat, resultFile: Text, execution: Option<Provenance>)

  datatype Record = SourceRec(source: SourceRecord) | ResultRec(result: ResultRecord)

  function DataFile(r: Record): Text { if r.SourceRec? then r.source.dataFile else r.result.resultFile }

  // What m.get("scope_id") and m.get("source_id") find in a manifest of the record.
  function ScopeOf(r: Record): Option<Text> { if r.SourceRec? then Some(r.source.scope) else None }
  function SourceOf(r: Record): Id { if r.SourceRec? then r.source.id else r.result.source }

  // manifest.json as its readers see it. A file that is missing, is not JSON or is not an
  // object reads as the empty dictionary: every field is then None.
  datatype Manifest = Manifest(
    record: Option<Record>,      // what from_dict makes of it, None when it raises
    accessed: Option<Time>,      // parse_iso of accessed_at, None when that raises
    expires: Option<Time>,
    scope: Option<Text>,         // m.get("scope_id")
    source: Option<Id>,          // m.get("source_id")
    base: nat)                   // bytes of the text apart from the two time stamps

  // A committed directory. `payload` is the size of everything but the manifest: the files
  // below and whatever else was staged with them.
  datatype Entry = Entry(manifest: Manifest, files: map<Text, Bytes>, payload: nat)

  const SECOND: int := 1_000_000

  // datetime.isoformat leaves out the microseconds when they are zero.
  function StampBytes(t: Option<Time>): nat {
    if t.None? then 0 else if t.value % SECOND == 0 then 20 else 27
  }

  /** directory_bytes of an entry. */
  function Size(e: Entry): nat {
    e.manifest.base + StampBytes(e.manifest.accessed) + StampBytes(e.manifest.expires) + e.payload
  }

  const DOT: Code := 46
  const SLASH: Code := 47

  // Path(name).name == name on POSIX, for a name that a file can have: the empty name and the two
  // dots pass that test but are directories, so is_file() refuses them.
  predicate IsBareName(name: Text) {
    SLASH !in name && name != [] && name != [DOT] && name != [DOT, DOT]
  }

  function Expiry(now: Time, ttlSeconds: nat): Time { now + ttlSeconds * SECOND }
}
