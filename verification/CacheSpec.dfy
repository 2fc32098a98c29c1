/** The cache manager as functions on its state; the class CacheManager is proved against them. */
module CacheSpec {
  import opened Basics
  import opened Model

  type Path = nat

  // `moved`: os.replace has moved the directory into its root, the reservation is still there.
  datatype Area = Area(kind: Kind, reserved: nat, moved: bool)

  datatype Cache = Cache(
    sources: map<Id, Entry>,
    results: map<Id, Entry>,
    leases: map<Id, nat>,
    staging: map<Path, Area>)
  {
    function Root(k: Kind): map<Id, Entry> { if k.Source? then sources else results }

    function WithRoot(k: Kind, m: map<Id, Entry>): Cache {
      if k.Source? then this.(sources := m) else this.(results := m)
    }

    predicate Leased(id: Id) { id in leases && leases[id] > 0 }
  }

  // What a critical section reads from outside: the clock, the order in which the operating
  // system lists a directory, and the free bytes of the volume.
  datatype Env = Env(now: Time, listing: seq<Id>, free: nat)

  /** directory_bytes of a root. */
  ghost function Total(m: map<Id, Entry>): nat { Sum(m, Size) }

  ghost function ReservedFor(k: Kind): Area -> nat { (a: Area) => if a.kind == k then a.reserved else 0 }

  ghost function HereFor(k: Kind): Area -> nat { (a: Area) => if a.kind == k && !a.moved then a.reserved else 0 }

  /** The reservations of areas whose directory is still under tmp. */
  ghost function StagedHere(staging: map<Path, Area>, k: Kind): nat { Sum(staging, HereFor(k)) }

  /** What reserve counts as staged: every reservation of the kind. */
  ghost function Staged(staging: map<Path, Area>, k: Kind): nat { Sum(staging, ReservedFor(k)) }

  /** What the other staging areas of the same kind have reserved. */
  ghost function Others(c: Cache, path: Path): nat
    requires path in c.staging
  {
    Staged(c.staging - {path}, c.staging[path].kind)
  }

  // ---- leases ----

  function LeaseCount(leases: map<Id, nat>, id: Id): nat { if id in leases then leases[id] else 0 }

  function AddLease(c: Cache, id: Id): Cache {
    c.(leases := c.leases[id := LeaseCount(c.leases, id) + 1])
  }

  function Release(c: Cache, id: Id): Cache {
    var count := LeaseCount(c.leases, id);
    if count <= 1 then c.(leases := c.leases - {id}) else c.(leases := c.leases[id := count - 1])
  }

  /** _remove_directory: a leased name is never removed. */
  function Remove(c: Cache, k: Kind, id: Id): Cache {
    if c.Leased(id) || id !in c.Root(k) then c
    else c.WithRoot(k, c.Root(k) - {id})
  }

  // ---- lookups ----

  // Missing is SourceNotFound or ResultNotFound; BadStamp is the ValueError that parse_iso
  // raises on an unreadable expires_at, which no lookup catches.
  datatype Lookup<+T> = Found(record: T) | Missing | BadStamp

  function Touched(e: Entry, now: Time, ttlSeconds: nat): Entry {
    e.(manifest := e.manifest.(accessed := Some(now), expires := Some(Expiry(now, ttlSeconds))))
  }

  predicate Usable(c: Cache, id: Id, e: Entry, file: Text, now: Time)
    requires e.manifest.expires.Some?
  {
    && (e.manifest.expires.value > now || c.Leased(id))
    && IsBareName(file)
    && file in e.files
  }

  function GetSource(c: Cache, s: Settings, id: Id, now: Time, touch: bool): (Cache, Lookup<SourceRecord>) {
    if !IsSourceId(id) || id !in c.sources then (c, Missing)
    else
      var e := c.sources[id];
      match e.manifest.record
      case Some(SourceRec(record)) =>
        if e.manifest.expires.None? then (c, BadStamp)
        else if !Usable(c, id, e, record.dataFile, now) then (Remove(c, Source, id), Missing)
        else if touch then
          (c.(sources := c.sources[id := Touched(e, now, s.sourceTtlSeconds)]), Found(record))
        else (c, Found(record))
      case _ => (c, Missing)
  }

  function GetResult(c: Cache, s: Settings, id: Id, now: Time, touch: bool): (Cache, Lookup<ResultRecord>) {
    if !IsResultId(id) || id !in c.results then (c, Missing)
    else
      var e := c.results[id];
      match e.manifest.record
      case Some(ResultRec(record)) =>
        if e.manifest.expires.None? then (c, BadStamp)
        else if !Usable(c, id, e, record.resultFile, now) then (Remove(c, Result, id), Missing)
        else if touch then
          (c.(results := c.results[id := Touched(e, now, s.resultTtlSeconds)]), Found(record))
        else (c, Found(record))
      case _ => (c, Missing)
  }

  function LeaseSource(c: Cache, s: Settings, id: Id, now: Time): (Cache, Lookup<SourceRecord>) {
    var (c', found) := GetSource(c, s, id, now, true);
    if found.Found? then (AddLease(c', id), found) else (c', found)
  }

  function AcquireResult(c: Cache, s: Settings, id: Id, now: Time): (Cache, Lookup<ResultRecord>) {
    var (c', found) := GetResult(c, s, id, now, true);
    if found.Found? then (AddLease(c', id), found) else (c', found)
  }

  // resolve_source gives up on the first difference it sees.
  predicate Differs(r: SourceRecord, format: Format, size: nat, expected: Option<Digest>) {
    if r.format != format || r.size != size then true
    else expected.Some? && r.sha256 != expected.value
  }

  function ResolveSource(c: Cache, s: Settings, scope: Text, ref: Text, format: Format, size: nat,
                         expected: Option<Digest>, now: Time): (Cache, Lookup<SourceRecord>)
  {
    var (c', found) := GetSource(c, s, SrcId(scope, ref), now, true);
    if found.Found? && Differs(found.record, format, size, expected) then (c', Missing) else (c', found)
  }

  // What the first locked section of get_result_by_query_key leads to.
  datatype KeyLookup = Hit(record: ResultRecord) | NoHit | Legacy | Raised

  function ByQueryKey(c: Cache, s: Settings, key: QueryKey, now: Time): (Cache, KeyLookup) {
    var (c', found) := GetResult(c, s, ResKey(key), now, true);
    if found.BadStamp? then (c', Raised)
    else if found.Missing? || found.record.queryKey != Some(key) then (c', NoHit)
    else if found.record.execution.None? then (c', Legacy)
    else (c', Hit(found.record))
  }

  /** The second locked section: drop a legacy result unless somebody downloads it. */
  function DropLegacy(c: Cache, key: QueryKey): (Cache, bool) {
    if c.Leased(ResKey(key)) then (c, false) else (Remove(c, Result, ResKey(key)), true)
  }

  // ---- cleanup ----

  predicate Malformed(e: Entry) { e.manifest.expires.None? || e.manifest.accessed.None? }

  predicate Expired(e: Entry, now: Time) { e.manifest.expires.Some? && e.manifest.expires.value <= now }

  /** The entries that the first pass of _cleanup removes, whatever the total. */
  predicate Doomed(c: Cache, k: Kind, id: Id, guarded: set<Id>, now: Time)
    requires id in c.Root(k)
  {
    var e := c.Root(k)[id];
    if Malformed(e) then !c.Leased(id) else Expired(e, now) && id !in guarded
  }

  /** The entries whose bytes count: a malformed one is skipped even when a lease saves it. */
  predicate Counted(c: Cache, k: Kind, id: Id, guarded: set<Id>, now: Time)
    requires id in c.Root(k)
  {
    var e := c.Root(k)[id];
    !Malformed(e) && !(Expired(e, now) && id !in guarded)
  }

  function Counts(c: Cache, k: Kind, guarded: set<Id>, now: Time): Id -> bool {
    id => id in c.Root(k) && Counted(c, k, id, guarded, now)
  }

  function CountedIds(c: Cache, k: Kind, listing: seq<Id>, guarded: set<Id>, now: Time): (ids: seq<Id>)
    ensures forall id :: id in ids <==> id in listing && id in c.Root(k) && Counted(c, k, id, guarded, now)
  {
    var ids := Filter(listing, Counts(c, k, guarded, now));
    FilterKeeps(listing, Counts(c, k, guarded, now));
    ids
  }

  function DoomedIds(c: Cache, k: Kind, guarded: set<Id>, now: Time): set<Id> {
    set id | id in c.Root(k) && Doomed(c, k, id, guarded, now)
  }

  function AccessTime(m: map<Id, Entry>, id: Id): Time {
    if id in m && m[id].manifest.accessed.Some? then m[id].manifest.accessed.value else 0
  }

  /** Insertion that keeps equal access times in their given order. */
  function Insert(m: map<Id, Entry>, id: Id, sorted: seq<Id>): seq<Id> {
    if sorted == [] || AccessTime(m, id) <= AccessTime(m, sorted[0]) then [id] + sorted
    else [sorted[0]] + Insert(m, id, sorted[1..])
  }

  /** sorted(entries, key=accessed): a stable sort. */
  function SortByAccess(m: map<Id, Entry>, ids: seq<Id>): seq<Id> {
    if ids == [] then [] else Insert(m, ids[0], SortByAccess(m, ids[1..]))
  }

  function SizeOf(m: map<Id, Entry>, id: Id): nat { if id in m then Size(m[id]) else 0 }

  /** The eviction loop over the sorted entries: what it removes. */
  function Evict(m: map<Id, Entry>, order: seq<Id>, total: int, maxBytes: int, guarded: set<Id>): set<Id> {
    if order == [] || total <= maxBytes then {}
    else if order[0] in guarded then Evict(m, order[1..], total, maxBytes, guarded)
    else {order[0]} + Evict(m, order[1..], total - SizeOf(m, order[0]), maxBytes, guarded)
  }

  function BytesOf(m: map<Id, Entry>, ids: seq<Id>): nat { SeqSum(ids, m, Size) }

  function EvictedIds(c: Cache, k: Kind, maxBytes: int, guarded: set<Id>, env: Env): set<Id> {
    var ids := CountedIds(c, k, env.listing, guarded, env.now);
    Evict(c.Root(k), SortByAccess(c.Root(k), ids), BytesOf(c.Root(k), ids), maxBytes, guarded)
  }

  /** Everything one call of _cleanup removes. */
  function Removed(c: Cache, k: Kind, maxBytes: int, protect: set<Id>, env: Env): set<Id> {
    var guarded := protect + c.leases.Keys;
    DoomedIds(c, k, guarded, env.now) + EvictedIds(c, k, maxBytes, guarded, env)
  }

  function Cleanup(c: Cache, k: Kind, maxBytes: int, protect: set<Id>, env: Env): Cache {
    c.WithRoot(k, c.Root(k) - Removed(c, k, maxBytes, protect, env))
  }

  // ---- staging ----

  function StagingPath(c: Cache, k: Kind, path: Path): Cache {
    c.(staging := c.staging[path := Area(k, 0, false)])
  }

  function Discard(c: Cache, path: Path): Cache { c.(staging := c.staging - {path}) }

  // NoArea is the KeyError of an unknown area; the next three are CacheCapacityExceeded.
  datatype Reservation = Reserved | NoArea | StagedTooMuch | VolumeFull | Busy

  /** The bytes a root keeps after _cleanup has made room for `wanted` others. */
  ghost function Remaining(c: Cache, k: Kind, wanted: int, s: Settings, env: Env): nat {
    Total(c.Root(k) - Removed(c, k, MaxBytes(s, k) - wanted, {}, env))
  }

  /** Whether reserve grants the size, and which of its refusals comes first. */
  ghost function Verdict(c: Cache, s: Settings, path: Path, size: nat, env: Env): Reservation {
    if path !in c.staging then NoArea
    else
      var Area(k, held, _) := c.staging[path];
      var wanted := size + Others(c, path);
      if wanted > MaxBytes(s, k) then StagedTooMuch
      else if size - held > env.free then VolumeFull
      else if Remaining(c, k, wanted, s, env) + wanted > MaxBytes(s, k) then Busy
      else Reserved
  }

  /** The cache after reserve has evicted what it may for the wanted size. */
  ghost function MakeRoom(c: Cache, s: Settings, path: Path, size: nat, env: Env): Cache
    requires path in c.staging
  {
    var k := c.staging[path].kind;
    Cleanup(c, k, MaxBytes(s, k) - (size + Others(c, path)), {}, env)
  }

  /** reserve: evictions made on the way to a refusal stay made. */
  ghost function Reserve(c: Cache, s: Settings, path: Path, size: nat, env: Env): (Cache, Reservation) {
    var verdict := Verdict(c, s, path, size, env);
    if verdict.NoArea? || verdict.StagedTooMuch? || verdict.VolumeFull? then (c, verdict)
    else if verdict.Busy? then (MakeRoom(c, s, path, size, env), verdict)
    else
      var c' := MakeRoom(c, s, path, size, env);
      (c'.(staging := c'.staging[path := c.staging[path].(reserved := size)]), verdict)
  }

  ghost function HasCapacity(c: Cache, s: Settings): bool {
    forall k: Kind :: Pinned(c, k) + Staged(c.staging, k) < MaxBytes(s, k)
  }

  /** The bytes of a root that no eviction can free. */
  ghost function Pinned(c: Cache, k: Kind): nat {
    Total(map id | id in c.Root(k) && id in c.leases :: c.Root(k)[id])
  }

  // ---- publication ----

  // Kept: the target exists and get_* answered for it. Lost: it exists but the lookup raised.
  // HalfDone: something raised after os.replace; the entry is there all the same.
  datatype Commit<+T> = Committed(record: T) | Kept(record: T) | Lost | Refused(why: Reservation) | HalfDone

  // What may go wrong once the directory is moved: a directory that cannot be synchronised, the
  // staging area then still being registered, or the closing cleanup.
  datatype Mishap = Unsynced | Uncleaned

  /** From the rename on: the entry is in its root, the area is given up, the root is cleaned. */
  ghost function MovedIn(c: Cache, s: Settings, k: Kind, path: Path, id: Id, e: Entry, after: Env,
                         mishap: Option<Mishap>): Cache
    requires path in c.staging
  {
    var c' := c.WithRoot(k, c.Root(k)[id := e]);
    match mishap
    case Some(Unsynced) => c'.(staging := c.staging[path := c.staging[path].(moved := true)])
    case Some(Uncleaned) => c'.(staging := c.staging - {path})
    case None => Cleanup(c'.(staging := c.staging - {path}), k, MaxBytes(s, k), {id}, after)
  }

  /** commit_source and commit_result after the manifest is written: reserve, move, clean up. */
  ghost function Publish(c: Cache, s: Settings, k: Kind, path: Path, id: Id, e: Entry, before: Env, after: Env,
                         mishap: Option<Mishap>)
    : (Cache, Reservation)
  {
    var (c1, got) := Reserve(c, s, path, Size(e), before);
    if got != Reserved then (c1, got) else (MovedIn(c1, s, k, path, id, e, after, mishap), Reserved)
  }

  function CommitOf<T>(got: Reservation, mishap: Option<Mishap>, record: T): Commit<T> {
    if got != Reserved then Refused(got) else if mishap.Some? then HalfDone else Committed(record)
  }

  ghost function CommitSource(c: Cache, s: Settings, path: Path, r: SourceRecord, e: Entry, before: Env, after: Env,
                              mishap: Option<Mishap>)
    : (Cache, Commit<SourceRecord>)
  {
    if r.id in c.sources then
      var (c', found) := GetSource(Discard(c, path), s, r.id, before.now, true);
      (c', if found.Found? then Kept(found.record) else Lost)
    else
      var (c', got) := Publish(c, s, Source, path, r.id, e, before, after, mishap);
      (c', CommitOf(got, mishap, r))
  }

  ghost function CommitResult(c: Cache, s: Settings, path: Path, r: ResultRecord, e: Entry, before: Env, after: Env,
                              mishap: Option<Mishap>)
    : (Cache, Commit<ResultRecord>)
  {
    if r.id in c.results then
      var (c', found) := GetResult(Discard(c, path), s, r.id, before.now, true);
      (c', if found.Found? then Kept(found.record) else Lost)
    else
      var (c', got) := Publish(c, s, Result, path, r.id, e, before, after, mishap);
      (c', CommitOf(got, mishap, r))
  }

  /** The entry that ingestion stages: the manifest carries the digest of the data file. */
  function SourceEntry(r: SourceRecord, files: map<Text, Bytes>, payload: nat, base: nat, now: Time, s: Settings): Entry
  {
    Entry(Manifest(Some(SourceRec(r)), Some(now), Some(Expiry(now, s.sourceTtlSeconds)), Some(r.scope), Some(r.id),
                   base),
          files, payload)
  }

  function ResultEntry(r: ResultRecord, files: map<Text, Bytes>, payload: nat, base: nat, now: Time, s: Settings): Entry
  {
    Entry(Manifest(Some(ResultRec(r)), Some(now), Some(Expiry(now, s.resultTtlSeconds)), None, Some(r.source), base),
          files, payload)
  }

  // ---- purge ----

  datatype Selector = BySource(id: Id) | ByScope(scope: Text) | ByResult(id: Id)

  predicate SelectsSource(sel: Selector, id: Id, e: Entry) {
    match sel
    case BySource(s) => id == s
    case ByScope(scope) => scope != [] && e.manifest.scope == Some(scope)
    case ByResult(_) => false
  }

  function SelectedSources(c: Cache, sel: Selector): set<Id> {
    set id | id in c.sources && SelectsSource(sel, id, c.sources[id])
  }

  function SelectedResults(c: Cache, sel: Selector): set<Id> {
    var picked := SelectedSources(c, sel);
    set id | id in c.results &&
      ((sel.ByResult? && id == sel.id) ||
       (c.results[id].manifest.source.Some? && c.results[id].manifest.source.value in picked))
  }

  datatype PurgeReport = PurgeReport(selected: set<Id>, removed: set<Id>, busy: set<Id>)

  function Purge(c: Cache, sel: Selector, dryRun: bool): (Cache, PurgeReport) {
    var sources, results := SelectedSources(c, sel), SelectedResults(c, sel);
    var busy := set id | id in sources + results && c.Leased(id);
    if busy != {} then (c, PurgeReport(sources + results, {}, busy))
    else if dryRun then (c, PurgeReport(sources + results, {}, {}))
    else
      (c.(sources := c.sources - sources, results := c.results - results),
       PurgeReport(sources + results, sources + results, {}))
  }

  // ---- recovery ----

  /** What recover demands of a directory before it keeps it. */
  predicate Recoverable(k: Kind, id: Id, e: Entry) {
    match e.manifest.record
    case Some(SourceRec(r)) =>
      var expected := if r.dataSha256.Some? then r.dataSha256
                      else if !r.format.Csv? then Some(r.sha256) else None;
      && k.Source? && r.id == id && IsBareName(r.dataFile) && r.dataFile in e.files
      && expected == Some(Sha256(e.files[r.dataFile]))
    case Some(ResultRec(r)) =>
      && k.Result? && r.id == id && IsBareName(r.resultFile) && r.resultFile in e.files
      && r.byteCount == |e.files[r.resultFile]|
      && r.execution.Some? && r.execution.value.resultSha256 == Some(Sha256(e.files[r.resultFile]))
    case None => false
  }

  function RecoverRoot(k: Kind, m: map<Id, Entry>): map<Id, Entry> {
    map id | id in m && Recoverable(k, id, m[id]) :: m[id]
  }

  /** recover() of a new process: no leases, no staging areas. */
  function Recover(c: Cache): Cache {
    c.(sources := RecoverRoot(Source, c.sources), results := RecoverRoot(Result, c.results))
  }
}
