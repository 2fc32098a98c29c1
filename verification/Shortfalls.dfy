/** Two promises that the code does not keep, each shown by a run of the cache from its empty state. */
module Shortfalls {
  import opened Basics
  import opened JsonModel
  import opened Model
  import opened CacheSpec
  import opened CleanupTheorems
  import opened CacheInvariants
  import opened JsonText
  import opened JsonValues
  import opened Keys
  import opened Manifests
  import opened ManifestFiles
  import Service

  const EMPTY: Cache := Cache(map[], map[], map[], map[])

  // ---- a commit into an empty root ----

  lemma NothingStaged(k: Kind)
    ensures Staged(map[], k) == 0
  {
  }

  lemma NoBytes()
    ensures Total(map[]) == 0
  {
  }

  lemma NothingToClean(c: Cache, k: Kind, maxBytes: int, protect: set<Id>, env: Env)
    requires c.Root(k) == map[]
    ensures Cleanup(c, k, maxBytes, protect, env) == c
  {
    CleanupFrame(c, k, maxBytes, protect, env);
    assert c.Root(k) - Removed(c, k, maxBytes, protect, env) == c.Root(k);
    assert c.WithRoot(k, c.Root(k)) == c;
  }

  lemma GrantedAlone(c: Cache, s: Settings, k: Kind, path: Path, size: nat, env: Env)
    requires c.Root(k) == map[] && c.staging == map[] && size <= MaxBytes(s, k) && size <= env.free
    ensures var c1 := StagingPath(c, k, path);
      Reserve(c1, s, path, size, env) == (c1.(staging := map[path := Area(k, size, false)]), Reserved)
  {
    var c1 := StagingPath(c, k, path);
    assert c1.staging - {path} == map[];
    NothingStaged(k);
    assert CacheSpec.Others(c1, path) == 0;
    NothingToClean(c1, k, MaxBytes(s, k) - size, {}, env);
    assert c1.Root(k) - Removed(c1, k, MaxBytes(s, k) - size, {}, env) == map[];
    NoBytes();
    assert Remaining(c1, k, size, s, env) == 0;
    assert c1.staging[path := Area(k, size, false)] == map[path := Area(k, size, false)];
  }

  /** The only entry of a root stays in the cleanup that closes its commit. */
  lemma CommittedAlone(c: Cache, s: Settings, k: Kind, path: Path, id: Id, e: Entry, before: Env, after: Env)
    requires c.Root(k) == map[] && c.staging == map[] && Size(e) <= MaxBytes(s, k) && Size(e) <= before.free
    requires !Malformed(e) && e.manifest.expires.value > after.now && Distinct(after.listing)
    ensures Publish(StagingPath(c, k, path), s, k, path, id, e, before, after, None) ==
        (c.WithRoot(k, map[id := e]), Reserved)
  {
    var c1 := StagingPath(c, k, path);
    GrantedAlone(c, s, k, path, Size(e), before);
    assert c1.Root(k) == map[];
    var c2 := Renamed(c1, s, k, path, id, e, before, false);
    assert map[path := Area(k, Size(e), false)] - {path} == map[];
    assert c2 == c.WithRoot(k, map[id := e]);
    CommitEvictsNoLiveEntry(c1, s, k, path, id, e, before, after);
    CleanupFrame(c2, k, MaxBytes(s, k), {id}, after);
    assert Removed(c2, k, MaxBytes(s, k), {id}, after) == {};
    assert c2.Root(k) - {} == c2.Root(k);
  }

  // ---- the quota, and time stamps that grow ----

  // "a.sqlite", an empty file: to SQLite a database without tables. Its scope is "s", its reference "r".
  const DATA: Bytes := []
  const SOURCE: SourceRecord :=
      SourceRecord(SrcId(Chars("s"), Chars("r")), Chars("s"), Chars("r"), Sqlite, Chars("a.sqlite"), 0,
    Sha256(DATA), Sha256(Encode(Chars("{\"tables\":[]}"))), Chars("source.sqlite"), Some(Sha256(DATA)))

  // Sources live ten seconds, results a hundred; the quotas have room for one entry of each.
  const RUNTIME: Runtime := Runtime([], [], [], [], [], 1, [], 1, 1, 1)
  const TTL: nat := 10

  function Tight(sourceBytes: nat, resultBytes: nat): Settings {
    Settings(sourceBytes, resultBytes, TTL, 100, 10, 1, 1, RUNTIME)
  }

  function Roomy(now: Time, s: Settings): Env { Env(now, [SOURCE.id], s.sourceMaxBytes + s.resultMaxBytes) }

  function SourceText(cd: Codec): SourceManifest {
    WrittenSource(cd, SOURCE, SourceExtras([Member(Chars("tables"), JList([]))], cd.iso(0)), 0, Expiry(0, TTL))
  }

  /** The entry as ingestion stages it at time 0: its manifest is what is read from the file written. */
  function SourceStaged(cd: Codec): Entry
    requires |SourceNames()| == 14
  {
    Entry(ReadFile(cd, SourceFile(SourceText(cd))), map[SOURCE.dataFile := DATA], |DATA|)
  }

  lemma SourceIsClean(cd: Codec)
    requires Inverse(cd)
    ensures CleanSource(SourceText(cd))
  {
    PlainIsUnpaired(cd.iso(0));
    PlainIsUnpaired(cd.iso(Expiry(0, TTL)));
    assert forall c: Text :: |c| <= 1 ==> Unpaired(c);
    var name, file := Chars("a.sqlite"), Chars("source.sqlite");
    assert forall i :: 0 <= i < |name| ==> name[i] < 128;
    assert forall i :: 0 <= i < |file| ==> file[i] < 128;
    assert Clean(JObject(SourceText(cd).schema));
  }

  lemma SourceIsStaged(cd: Codec)
    requires Inverse(cd)
    ensures |SourceNames()| == 14
    ensures var e := SourceStaged(cd);
      && Size(e) == |SourceFile(SourceText(cd))| + |DATA|
      && e == Entry(Manifest(Some(SourceRec(SOURCE)), Some(0), Some(Expiry(0, TTL)), Some(SOURCE.scope),
                             Some(SOURCE.id), e.manifest.base),
                    map[SOURCE.dataFile := DATA], |DATA|)
      && IsBareName(SOURCE.dataFile) && Recoverable(Source, SOURCE.id, e)
  {
    SourceIsClean(cd);
    SourceFileRead(cd, SOURCE, SourceExtras([Member(Chars("tables"), JList([]))], cd.iso(0)), 0, Expiry(0, TTL));
    SourceEntryBytes(cd, SourceText(cd), 0, Expiry(0, TTL), map[SOURCE.dataFile := DATA], |DATA|);
    var name := SOURCE.dataFile;
    assert |name| == 13 && name[0] == 115;
    assert forall i :: 0 <= i < |name| ==> name[i] != SLASH;
  }

  lemma Ingested(e: Entry, s: Settings) returns (c: Cache)
    requires e.manifest.accessed == Some(0) && e.manifest.expires == Some(Expiry(0, TTL)) && Size(e) <= s.sourceMaxBytes
    ensures (c, Committed(SOURCE)) ==
        CommitSource(StagingPath(EMPTY, Source, 0), s, 0, SOURCE, e, Roomy(0, s), Roomy(0, s), None)
    ensures c == Cache(map[SOURCE.id := e], map[], map[], map[])
  {
    CommittedAlone(EMPTY, s, Source, 0, SOURCE.id, e, Roomy(0, s), Roomy(0, s));
    c := Cache(map[SOURCE.id := e], map[], map[], map[]);
  }

  /** Published on a whole second, its manifest and data filling the quota, and looked up one microsecond
      later, a source exceeds its quota by the fourteen bytes of two fractions of a second. */
  lemma TouchExceedsQuota(cd: Codec) returns (s: Settings, c: Cache, c': Cache)
    requires Inverse(cd)
    ensures |SourceNames()| == 14 && s.sourceMaxBytes == |SourceFile(SourceText(cd))| + |DATA|
    ensures (c, Committed(SOURCE)) ==
      CommitSource(StagingPath(EMPTY, Source, 0), s, 0, SOURCE, SourceStaged(cd), Roomy(0, s), Roomy(0, s), None)
    ensures (c', Found(SOURCE)) == GetSource(c, s, SOURCE.id, 1, true)
    ensures Total(c.sources) == s.sourceMaxBytes && Total(c'.sources) == s.sourceMaxBytes + 14
  {
    SourceIsStaged(cd);
    var e := SourceStaged(cd);
    s := Tight(Size(e), 0);
    c := Ingested(e, s);
    c' := GetSource(c, s, SOURCE.id, 1, true).0;
    TouchGrowth(c, s, SOURCE.id, 1);
    SumSplit(c.sources, Size, SOURCE.id);
    assert c.sources - {SOURCE.id} == map[];
    NoBytes();
  }

  // ---- purging a source that has gone ----

  // What a query without rows, SELECT 1 AS x WHERE 0, leaves.
  const CSV: Bytes := [120, 10]
  const RESULT: ResultRecord := ResultRecord(ResUuid(0), None, SOURCE.id, SOURCE.sha256,
    Shape([Column(Chars("x"), Chars("UNKNOWN"))], 0, []), 2, Service.RESULT_CSV,
    Some(Provenance(Some(Sha256(CSV)), SOURCE.schemaDigest)))

  function ResultStaged(base: nat, s: Settings): Entry {
    ResultEntry(RESULT, map[RESULT.resultFile := CSV], |CSV|, base, 0, s)
  }

  // Between the expiry of the source and that of the result.
  const LATER: Time := 20_000_000

  lemma Queried(c: Cache, base: nat, s: Settings) returns (queried: Cache)
    requires c.results == map[] && c.staging == map[] && s.resultTtlSeconds == 100
    requires Size(ResultStaged(base, s)) <= s.resultMaxBytes
    ensures (queried, Committed(RESULT)) ==
      CommitResult(StagingPath(c, Result, 1), s, 1, RESULT, ResultStaged(base, s), Roomy(0, s), Roomy(0, s), None)
    ensures queried == c.(results := map[RESULT.id := ResultStaged(base, s)])
  {
    CommittedAlone(c, s, Result, 1, RESULT.id, ResultStaged(base, s), Roomy(0, s), Roomy(0, s));
    queried := c.(results := map[RESULT.id := ResultStaged(base, s)]);
  }

  lemma NothingSelected(c: Cache, sel: Selector)
    requires c.sources == map[] && !sel.ByResult?
    ensures Purge(c, sel, false) == (c, PurgeReport({}, {}, {}))
  {
    assert SelectedSources(c, sel) == {};
    assert SelectedResults(c, sel) == {};
    var none: set<Id> := {};
    assert none + none == none && (set id | id in none + none && c.Leased(id)) == none;
    assert c.results - none == c.results && c.sources - none == c.sources;
  }

  lemma StillServed(c: Cache, base: nat, s: Settings)
    requires c.results == map[RESULT.id := ResultStaged(base, s)] && s.resultTtlSeconds == 100
    ensures GetResult(c, s, RESULT.id, LATER, true).1 == Found(RESULT)
  {
    var name := RESULT.resultFile;
    assert |name| == 10 && name[0] == 114;
    assert forall i :: 0 <= i < |name| ==> name[i] != SLASH;
    assert IsBareName(name) && Servable(c, Result, RESULT.id, LATER);
    ResultLookupExact(c, s, RESULT.id, LATER, true);
  }

  /** Ingest, query, let the source expire, purge it by its id or its scope: its result is still there
      and still served, whatever the size of its manifest. */
  lemma PurgeLeavesResults(cd: Codec, base: nat) returns (s: Settings, c: Cache, queried: Cache, expired: Cache)
    requires Inverse(cd)
    ensures |SourceNames()| == 14
    ensures (c, Committed(SOURCE)) ==
      CommitSource(StagingPath(EMPTY, Source, 0), s, 0, SOURCE, SourceStaged(cd), Roomy(0, s), Roomy(0, s), None)
    ensures (queried, Committed(RESULT)) ==
      CommitResult(StagingPath(c, Result, 1), s, 1, RESULT, ResultStaged(base, s), Roomy(0, s), Roomy(0, s), None)
    ensures expired == Cleanup(queried, Source, s.sourceMaxBytes, {}, Roomy(LATER, s))
    ensures Purge(expired, BySource(SOURCE.id), false) == (expired, PurgeReport({}, {}, {}))
    ensures Purge(expired, ByScope(SOURCE.scope), false) == (expired, PurgeReport({}, {}, {}))
    ensures RESULT.id in expired.results && expired.results[RESULT.id].manifest.source == Some(SOURCE.id)
    ensures GetResult(expired, s, RESULT.id, LATER, true).1 == Found(RESULT)
  {
    SourceIsStaged(cd);
    var e := SourceStaged(cd);
    s := Tight(Size(e), base + 100);
    c := Ingested(e, s);
    queried := Queried(c, base, s);
    expired := Expire(queried, e, s);
    NothingSelected(expired, BySource(SOURCE.id));
    NothingSelected(expired, ByScope(SOURCE.scope));
    StillServed(expired, base, s);
  }

  lemma Expire(c: Cache, e: Entry, s: Settings) returns (c': Cache)
    requires c.sources == map[SOURCE.id := e] && c.leases == map[] && !Malformed(e)
    requires e.manifest.expires == Some(Expiry(0, TTL))
    ensures c' == Cleanup(c, Source, s.sourceMaxBytes, {}, Roomy(LATER, s)) && c' == c.(sources := map[])
  {
    var env := Roomy(LATER, s);
    c' := Cleanup(c, Source, s.sourceMaxBytes, {}, env);
    CleanupFrame(c, Source, s.sourceMaxBytes, {}, env);
    assert SOURCE.id in DoomedIds(c, Source, {}, env.now);
    assert SOURCE.id in Removed(c, Source, s.sourceMaxBytes, {}, env);
    assert c.sources - Removed(c, Source, s.sourceMaxBytes, {}, env) == map[];
  }
}
