/** QueryService as a labelled transition system: many threads, one shared cache, any interleaving.
    A thread's step is a transition of its program counter under an action, together with the
    effect of that action on the shared state. Every lock-protected section is one action. */
module Service {
  import opened Basics
  import opened JsonModel
  import opened Model
  import opened CacheSpec
  import opened Rereading

  type Tid = nat
  type LockId = nat

  datatype LockName = ForQuery(key: QueryKey) | ForSource(id: Id)
  datatype Semaphore = QuerySlots | IngestSlots | UploadSlots

  datatype Request = Request(sql: Text, params: map<Text, Param>)
  datatype Query = Query(source: Id, request: Request)
  datatype Upload = Upload(scope: Text, ref: Text, format: Format, filename: Text,
                           declared: nat, expected: Option<Digest>, content: Bytes)

  function SourceIdOf(u: Upload): Id { SrcId(u.scope, u.ref) }

  datatype Answer = Answer(shape: Shape, csv: Bytes)

  /** The answer as its manifest gives it back. */
  function AsRead(a: Answer): Answer { Answer(SortedShape(a.shape), a.csv) }

  // What the model does not see into: the engines, the SQL canonicaliser, the volatility test,
  // and which data file and schema digest ingestion may make of an upload.
  datatype World = World(
    engine: (Runtime, Bytes, Format, Text, map<Text, Param>) -> Answer,
    canonical: (Text, Format) -> Text,
    deterministic: (Text, Format) -> bool,
    converts: (Bytes, Format, Bytes, Digest) -> bool)

  function KeyOf(w: World, runtime: Runtime, src: SourceRecord, r: Request): QueryKey {
    QueryKey(src.scope, src.sha256, src.schemaDigest, src.format, w.canonical(r.sql, src.format), r.params, runtime)
  }

  // ---- threads ----

  datatype Grip = Grip(name: LockName, lock: LockId)

  // How an admitted query is named: by its key and under the key's lock when deterministic,
  // else by a UUID (its lock is private to the thread).
  datatype Ticket = Keyed(key: QueryKey, lock: LockId) | Bypass(uuid: nat)

  datatype Job = Job(q: Query, src: SourceRecord, ticket: Ticket)
  {
    function Rid(): Id { if ticket.Keyed? then ResKey(ticket.key) else ResUuid(ticket.uuid) }

    function JobGrip(): Option<Grip> {
      if ticket.Keyed? then Some(Grip(ForQuery(ticket.key), ticket.lock)) else None
    }

    function StoredKey(): Option<QueryKey> { if ticket.Keyed? then Some(ticket.key) else None }
  }

  // LeftBehind: an exception after os.replace; the client sees a failure, the entry is published.
  datatype Outcome =
    | Failed
    | LeftBehind(id: Id)
    | Hit(result: ResultRecord)
    | Ran(result: ResultRecord)
    | Reused(source: SourceRecord)
    | Created(source: SourceRecord)
    | Conflict

  // query, _query and _execute
  datatype QueryPc =
    | QStart(q: Query)
    | QLeased(q: Query, src: SourceRecord)
    | QLook1(q: Query, src: SourceRecord, key: QueryKey)
    | QLegacy1(q: Query, src: SourceRecord, key: QueryKey)
    | QName(q: Query, src: SourceRecord, key: QueryKey)
    | QTry(q: Query, src: SourceRecord, key: QueryKey, lock: LockId)
    | QLook2(q: Query, src: SourceRecord, key: QueryKey, lock: LockId)
    | QLegacy2(q: Query, src: SourceRecord, key: QueryKey, lock: LockId)
    | QAdmit(job: Job)
    | QActivate(job: Job)
    | QStage(job: Job)
    | QRun(job: Job, path: Path)
    | QCommit(job: Job, path: Path, answer: Answer)
    | QDiscard(job: Job, path: Path, registered: bool, out: Outcome)
    | QDeactivate(job: Job, out: Outcome)
    | QFree(job: Job, out: Outcome)
    | QUnlock(q: Query, src: SourceRecord, grip: Option<Grip>, out: Outcome)
    | QRelease(q: Query, src: SourceRecord, out: Outcome)
    | QDone(out: Outcome)

  // ingest_source and _ingest_source
  datatype IngestPc =
    | IStart(u: Upload)
    | IName(u: Upload)
    | ITry(u: Upload, lock: LockId)
    | ILook(u: Upload, lock: LockId)
    | IStage(u: Upload, lock: LockId)
    | IReserve(u: Upload, lock: LockId, path: Path)
    | ICopy(u: Upload, lock: LockId, path: Path, copied: nat)
    | IConvert(u: Upload, lock: LockId, path: Path)
    | ICommit(u: Upload, lock: LockId, path: Path, schema: Digest, file: Text, data: Bytes)
    | IDiscard(u: Upload, lock: LockId, path: Path, registered: bool, out: Outcome)
    | IUnlock(u: Upload, lock: LockId, out: Outcome)
    | IFree(u: Upload, out: Outcome)
    | IDone(out: Outcome)

  // a download: acquire_result until the response is sent. DLost: the request is cancelled while
  // the lookup runs in its own thread; nobody is left to release the lease.
  datatype DownloadPc = DStart(id: Id) | DSend(id: Id, result: ResultRecord) | DLost(id: Id,
                                                                                     result: ResultRecord) | DDone

  // UploadAdmission: the multipart spool of an upload request. Cancelled while staging_path runs, it
  // never learns of the area (UForgets, ULostArea). Cancelled before discard_staging begins to run, it
  // keeps area and slot (ULostBoth); cancelled while that runs, it does not come to release its slot (ULostSlot).
  datatype SpoolPc =
    | UStart | UStage | USpool(path: Path) | UDiscard(path: Path) | UFree | UDone
    | UForgets(path: Path) | ULostArea(path: Path) | ULostBoth(path: Path) | ULostSlot

  datatype Pc = Q(q: QueryPc) | I(i: IngestPc) | D(d: DownloadPc) | U(u: SpoolPc)

  predicate IsStart(p: Pc) {
    match p case Q(q) => q.QStart? case I(i) => i.IStart? case D(d) => d.DStart? case U(u) => u.UStart?
  }

  // ---- what a thread holds at each program point ----

  // A staging area; not `live` once the cache has forgotten it, `moved` once its directory is published.
  datatype Claim = Claim(path: Path, kind: Kind, live: bool, moved: bool)

  // `grip`: the lock object it refers to, `locked`: whether it has it. `target`: the entry it is about to publish,
  // once it has
  // found it absent.
  datatype Holding = Holding(
    lease: Option<Id>, grip: Option<Grip>, locked: bool, slot: Option<Semaphore>,
    active: bool, claim: Option<Claim>, target: Option<Id>)

  function Nothing(): Holding { Holding(None, None, false, None, false, None, None) }

  function Leasing(id: Id): Holding { Holding(Some(id), None, false, None, false, None, None) }

  function Looking(q: Query, key: QueryKey, lock: LockId, locked: bool): Holding {
    Holding(Some(q.source), Some(Grip(ForQuery(key), lock)), locked, None, false, None, None)
  }

  function Gripping(q: Query, grip: Option<Grip>, target: Option<Id>): Holding {
    Holding(Some(q.source), grip, grip.Some?, None, false, None, target)
  }

  function Working(j: Job, active: bool, claim: Option<Claim>, target: Option<Id>): Holding {
    Holding(Some(j.q.source), j.JobGrip(), j.JobGrip().Some?, Some(QuerySlots), active, claim, target)
  }

  function Ingesting(u: Upload, lock: LockId, locked: bool, claim: Option<Claim>, target: Option<Id>): Holding {
    Holding(None, Some(Grip(ForSource(SourceIdOf(u)), lock)), locked, Some(IngestSlots), false, claim, target)
  }

  function Serving(slot: Semaphore, claim: Option<Claim>): Holding {
    Holding(None, None, false, Some(slot), false, claim, None)
  }

  function HoldingOfQuery(p: QueryPc): Holding {
    match p
    case QStart(_) => Nothing()
    case QLeased(q, _) => Leasing(q.source)
    case QLook1(q, _, _) => Leasing(q.source)
    case QLegacy1(q, _, _) => Leasing(q.source)
    case QName(q, _, _) => Leasing(q.source)
    case QTry(q, _, key, lock) => Looking(q, key, lock, false)
    case QLook2(q, _, key, lock) => Looking(q, key, lock, true)
    case QLegacy2(q, _, key, lock) => Looking(q, key, lock, true)
    case QAdmit(j) => Gripping(j.q, j.JobGrip(), Some(j.Rid()))
    case QActivate(j) => Working(j, false, None, Some(j.Rid()))
    case QStage(j) => Working(j, true, None, Some(j.Rid()))
    case QRun(j, path) => Working(j, true, Some(Claim(path, Result, true, false)), Some(j.Rid()))
    case QCommit(j, path, _) => Working(j, true, Some(Claim(path, Result, true, false)), Some(j.Rid()))
    case QDiscard(j, path, registered, out) =>
      Working(j, true, Some(Claim(path, Result, registered, out.LeftBehind?)), None)
    case QDeactivate(j, _) => Working(j, true, None, None)
    case QFree(j, _) => Working(j, false, None, None)
    case QUnlock(q, _, grip, _) => Gripping(q, grip, None)
    case QRelease(q, _, _) => Leasing(q.source)
    case QDone(_) => Nothing()
  }

  function HoldingOfIngest(p: IngestPc): Holding {
    match p
    case IStart(_) => Nothing()
    case IName(_) => Serving(IngestSlots, None)
    case ITry(u, lock) => Ingesting(u, lock, false, None, None)
    case ILook(u, lock) => Ingesting(u, lock, true, None, None)
    case IStage(u, lock) => Ingesting(u, lock, true, None, Some(SourceIdOf(u)))
    case IReserve(u, lock, path) =>
      Ingesting(u, lock, true, Some(Claim(path, Source, true, false)), Some(SourceIdOf(u)))
    case ICopy(u, lock, path, _) =>
      Ingesting(u, lock, true, Some(Claim(path, Source, true, false)), Some(SourceIdOf(u)))
    case IConvert(u, lock, path) =>
      Ingesting(u, lock, true, Some(Claim(path, Source, true, false)), Some(SourceIdOf(u)))
    case ICommit(u, lock, path, _, _, _) =>
      Ingesting(u, lock, true, Some(Claim(path, Source, true, false)), Some(SourceIdOf(u)))
    case IDiscard(u, lock, path, registered, out) =>
      Ingesting(u, lock, true, Some(Claim(path, Source, registered, out.LeftBehind?)), None)
    case IUnlock(u, lock, _) => Ingesting(u, lock, true, None, None)
    case IFree(_, _) => Serving(IngestSlots, None)
    case IDone(_) => Nothing()
  }

  function HoldingOfDownload(p: DownloadPc): Holding {
    if p.DSend? || p.DLost? then Leasing(p.id) else Nothing()
  }

  function HoldingOfSpool(p: SpoolPc): Holding {
    match p
    case UStart => Nothing()
    case UStage => Serving(UploadSlots, None)
    case USpool(path) => Serving(UploadSlots, Some(Claim(path, Source, true, false)))
    case UDiscard(path) => Serving(UploadSlots, Some(Claim(path, Source, true, false)))
    case UFree => Serving(UploadSlots, None)
    case UDone => Nothing()
    case UForgets(path) => Serving(UploadSlots, Some(Claim(path, Source, true, false)))
    case ULostArea(path) => Nothing().(claim := Some(Claim(path, Source, true, false)))
    case ULostBoth(path) => Serving(UploadSlots, Some(Claim(path, Source, true, false)))
    case ULostSlot => Serving(UploadSlots, None)
  }

  /** Where a cancelled request's thread of control has ended with something in its hands. */
  predicate Leaks(p: Pc) { (p.D? && p.d.DLost?) || (p.U? && (p.u.ULostArea? || p.u.ULostBoth? || p.u.ULostSlot?)) }

  function HoldingOf(p: Pc): Holding {
    match p
    case Q(q) => HoldingOfQuery(q)
    case I(i) => HoldingOfIngest(i)
    case D(d) => HoldingOfDownload(d)
    case U(u) => HoldingOfSpool(u)
  }

  // ---- the shared state and the effect of each action on it ----

  // `next` supplies what never repeats: lock objects, staging paths, UUIDs.
  datatype Shared = Shared(
    settings: Settings,
    cache: Cache,
    table: map<LockName, LockId>,   // the two WeakValueDictionaries
    held: set<LockId>,
    queries: nat, ingestions: nat, uploads: nat,   // taken semaphore slots
    active: nat,
    next: nat)
  {
    function Taken(sem: Semaphore): nat {
      match sem case QuerySlots => queries case IngestSlots => ingestions case UploadSlots => uploads
    }

    function Slots(sem: Semaphore): nat {
      if sem.QuerySlots? then settings.maxQueries else settings.maxIngestions
    }

    function WithTaken(sem: Semaphore, n: nat): Shared {
      match sem
      case QuerySlots => this.(queries := n)
      case IngestSlots => this.(ingestions := n)
      case UploadSlots => this.(uploads := n)
    }
  }

  datatype Action =
    | Tau
    | LeaseSrc(id: Id, now: Time, source: Lookup<SourceRecord>)
    | LeaseRes(id: Id, now: Time, result: Lookup<ResultRecord>)
    | Unlease(id: Id)
    | LookSrc(id: Id, now: Time, source: Lookup<SourceRecord>)
    | LookKey(key: QueryKey, now: Time, found: KeyLookup)
    | Drop(key: QueryKey, dropped: bool)
    | Name(name: LockName, lock: LockId)
    | TryLock(lock: LockId, got: bool)
    | Unlock(lock: LockId)
    | TakeSlot(sem: Semaphore, got: bool)
    | FreeSlot(sem: Semaphore)
    | Activate
    | Deactivate
    | Uuid(n: nat)
    | Stage(kind: Kind, path: Path)
    | Resv(path: Path, size: nat, env: Env, verdict: Reservation)
    | Unstage(path: Path)
    | ReadData(id: Id, file: Text, data: Bytes)
    | PutSource(path: Path, src: SourceRecord, entry: Entry, before: Env, after: Env, mishap: Option<Mishap>,
                sput: Commit<SourceRecord>)
    | PutResult(path: Path, res: ResultRecord, entry: Entry, before: Env, after: Env, mishap: Option<Mishap>,
                rput: Commit<ResultRecord>)

  /** The cache after an action, and the answer the action reports. */
  ghost predicate CacheEffect(s: Settings, c: Cache, a: Action, c': Cache) {
    match a
    case LeaseSrc(id, now, found) => (c', found) == LeaseSource(c, s, id, now)
    case LeaseRes(id, now, found) => (c', found) == AcquireResult(c, s, id, now)
    case Unlease(id) => c' == Release(c, id)
    case LookSrc(id, now, found) => (c', found) == GetSource(c, s, id, now, true)
    case LookKey(key, now, found) => (c', found) == ByQueryKey(c, s, key, now)
    case Drop(key, dropped) => (c', dropped) == DropLegacy(c, key)
    case Stage(kind, path) => c' == StagingPath(c, kind, path)
    case Resv(path, size, env, verdict) => (c', verdict) == Reserve(c, s, path, size, env)
    case Unstage(path) => c' == Discard(c, path)
    case ReadData(id, file, data) =>
      c' == c && id in c.sources && file in c.sources[id].files && data == c.sources[id].files[file]
    case PutSource(path, r, e, before, after, mishap, put) =>
      (c', put) == CommitSource(c, s, path, r, e, before, after, mishap)
    case PutResult(path, r, e, before, after, mishap, put) =>
      (c', put) == CommitResult(c, s, path, r, e, before, after, mishap)
    case _ => c' == c
  }

  /** Locks, semaphores, counters and fresh names after an action. */
  ghost predicate TableEffect(sh: Shared, a: Action, sh': Shared) {
    match a
    // setdefault: the object another thread still refers to, or a new one
    case Name(name, lock) =>
      if name in sh.table then lock == sh.table[name] && sh' == sh.(cache := sh'.cache)
      else lock == sh.next && sh' == sh.(cache := sh'.cache, table := sh.table[name := lock], next := sh.next + 1)
    case TryLock(lock, got) =>
      got == (lock !in sh.held) && sh' == sh.(cache := sh'.cache, held := sh.held + {lock})
    case Unlock(lock) => sh' == sh.(cache := sh'.cache, held := sh.held - {lock})
    case TakeSlot(sem, got) =>
      && got == (sh.Taken(sem) < sh.Slots(sem))
      && sh' == (if got then sh.WithTaken(sem, sh.Taken(sem) + 1) else sh).(cache := sh'.cache)
    case FreeSlot(sem) => sh.Taken(sem) > 0 && sh' == sh.WithTaken(sem, sh.Taken(sem) - 1).(cache := sh'.cache)
    case Activate => sh' == sh.(cache := sh'.cache, active := sh.active + 1)
    case Deactivate => sh.active > 0 && sh' == sh.(cache := sh'.cache, active := sh.active - 1)
    case Uuid(n) => n == sh.next && sh' == sh.(cache := sh'.cache, next := sh.next + 1)
    case Stage(kind, path) => path == sh.next && sh' == sh.(cache := sh'.cache, next := sh.next + 1)
    case _ => sh' == sh.(cache := sh'.cache)
  }

  ghost predicate Effect(sh: Shared, a: Action, sh': Shared) {
    CacheEffect(sh.settings, sh.cache, a, sh'.cache) && TableEffect(sh, a, sh')
  }

  // ---- the program of each kind of thread ----

  const RESULT_CSV: Text := Ascii("result.csv")

  function Ascii(s: string): Text {
    seq(|s|, i requires 0 <= i < |s| => if s[i] < 128 as char then s[i] as int as Code else 0)
  }

  /** The record _execute builds from the engine's answer; the engine child reports the digest. */
  function ResultRecordOf(j: Job, answer: Answer): ResultRecord {
    ResultRecord(j.Rid(), j.StoredKey(), j.src.id, j.src.sha256,
                 answer.shape, |answer.csv|, RESULT_CSV,
                 Some(Provenance(Some(Sha256(answer.csv)), j.src.schemaDigest)))
  }

  /** What is staged for the record: lookups will read the record back from the manifest. */
  predicate StagesResult(j: Job, answer: Answer, r: ResultRecord, e: Entry) {
    && r == ResultRecordOf(j, answer)
    && e.manifest ==
       Manifest(Some(ResultRec(Reread(r))), e.manifest.accessed, e.manifest.expires, None, Some(r.source),
                e.manifest.base)
    && !Malformed(e)
    && RESULT_CSV in e.files && e.files[RESULT_CSV] == answer.csv
  }

  /** The record _ingest_source builds, with the digest commit_source computes from the data file. */
  function SourceRecordOf(u: Upload, schema: Digest, file: Text, data: Bytes): SourceRecord {
    SourceRecord(SourceIdOf(u), u.scope, u.ref, u.format, u.filename, |u.content|,
                 Sha256(u.content), schema, file, Some(Sha256(data)))
  }

  predicate StagesSource(u: Upload, schema: Digest, file: Text, data: Bytes, r: SourceRecord, e: Entry) {
    && r == SourceRecordOf(u, schema, file, data)
    && e.manifest ==
       Manifest(Some(SourceRec(r)), e.manifest.accessed, e.manifest.expires, Some(r.scope), Some(r.id), e.manifest.base)
    && !Malformed(e)
    && file in e.files && e.files[file] == data
  }

  function AfterLook1(q: Query, src: SourceRecord, key: QueryKey, found: KeyLookup): QueryPc {
    match found
    case Hit(r) => QRelease(q, src, Outcome.Hit(r))
    case NoHit => QName(q, src, key)
    case Legacy => QLegacy1(q, src, key)
    case Raised => QRelease(q, src, Failed)
  }

  function AfterLook2(q: Query, src: SourceRecord, key: QueryKey, lock: LockId, found: KeyLookup): QueryPc {
    var grip := Some(Grip(ForQuery(key), lock));
    match found
    case Hit(r) => QUnlock(q, src, grip, Outcome.Hit(r))
    case NoHit => QAdmit(Job(q, src, Keyed(key, lock)))
    case Legacy => QLegacy2(q, src, key, lock)
    case Raised => QUnlock(q, src, grip, Failed)
  }

  /** Whether the cache still knows the staging area after a commit. */
  predicate StillKnown<T>(mishap: Option<Mishap>, put: Commit<T>) {
    put.Refused? || (put.HalfDone? && mishap == Some(Unsynced))
  }

  function AfterPutResult(j: Job, path: Path, mishap: Option<Mishap>, put: Commit<ResultRecord>): QueryPc {
    match put
    case Committed(r) => QDiscard(j, path, false, Ran(r))
    case Kept(r) => QDiscard(j, path, false, Ran(r))
    case Lost => QDiscard(j, path, false, Failed)
    case Refused(_) => QDiscard(j, path, true, Failed)
    case HalfDone => QDiscard(j, path, StillKnown(mishap, put), LeftBehind(j.Rid()))
  }

  function AfterPutSource(u: Upload, lock: LockId, path: Path, mishap: Option<Mishap>,
                          put: Commit<SourceRecord>): IngestPc
  {
    match put
    case Committed(r) => IDiscard(u, lock, path, false, Created(r))
    case Kept(r) => IDiscard(u, lock, path, false, Created(r))
    case Lost => IDiscard(u, lock, path, false, Failed)
    case Refused(_) => IDiscard(u, lock, path, true, Failed)
    case HalfDone => IDiscard(u, lock, path, StillKnown(mishap, put), LeftBehind(SourceIdOf(u)))
  }

  // The test by which _ingest_source answers reused.
  predicate Matches(existing: SourceRecord, u: Upload) {
    && existing.format == u.format
    && existing.size == u.declared
    && (u.expected.None? || existing.sha256 == u.expected.value)
  }

  /** _ingest_source's answer from the lookup under its lock. */
  function AfterLook(s: Settings, u: Upload, lock: LockId, found: Lookup<SourceRecord>): IngestPc {
    match found
    case Found(r) => IUnlock(u, lock, if Matches(r, u) then Reused(r) else Conflict)
    case Missing => if u.declared > s.maxSourceBytes then IUnlock(u, lock, Failed) else IStage(u, lock)
    case BadStamp => IUnlock(u, lock, Failed)
  }

  // A Tau to a failing point stands for any exception raised there: cancellation, shutdown,
  // a rejected request, an engine error, a timeout, a dead child.
  predicate LookupTransition(w: World, s: Settings, p: QueryPc, a: Action, p': QueryPc) {
    match p
    case QStart(q) =>
      a.LeaseSrc? && a.id == q.source && p' == (if a.source.Found? then QLeased(q, a.source.record) else QDone(Failed))
    case QLeased(q, src) =>
      || (a == Tau && p' == QRelease(q, src, Failed))
      || (a == Tau && w.deterministic(q.request.sql, src.format) &&
          p' == QLook1(q, src, KeyOf(w, s.runtime, src, q.request)))
      || (a.Uuid? && !w.deterministic(q.request.sql, src.format) && p' == QAdmit(Job(q, src, Bypass(a.n))))
    case QLook1(q, src, key) => a.LookKey? && a.key == key && p' == AfterLook1(q, src, key, a.found)
    case QLegacy1(q, src, key) =>
      a.Drop? && a.key == key && p' == (if a.dropped then QName(q, src, key) else QRelease(q, src, Failed))
    case QName(q, src, key) => a.Name? && a.name == ForQuery(key) && p' == QTry(q, src, key, a.lock)
    case _ => false
  }

  predicate LockTransition(p: QueryPc, a: Action, p': QueryPc) {
    match p
    case QTry(q, src, key, lock) =>
      a.TryLock? && a.lock == lock && p' == (if a.got then QLook2(q, src, key, lock) else QRelease(q, src, Failed))
    case QLook2(q, src, key, lock) => a.LookKey? && a.key == key && p' == AfterLook2(q, src, key, lock, a.found)
    case QLegacy2(q, src, key, lock) =>
      var grip := Some(Grip(ForQuery(key), lock));
      a.Drop? && a.key == key &&
      p' == (if a.dropped then QAdmit(Job(q, src, Keyed(key, lock))) else QUnlock(q, src, grip, Failed))
    case _ => false
  }

  predicate AdmitTransition(p: QueryPc, a: Action, p': QueryPc) {
    match p
    case QAdmit(j) =>
      || (a == Tau && p' == QUnlock(j.q, j.src, j.JobGrip(), Failed))
      || (a.TakeSlot? && a.sem == QuerySlots &&
          p' == (if a.got then QActivate(j) else QUnlock(j.q, j.src, j.JobGrip(), Failed)))
    case QActivate(j) => a == Activate && p' == QStage(j)
    case QStage(j) =>
      (a.Stage? && a.kind == Result && p' == QRun(j, a.path)) || (a == Tau && p' == QDeactivate(j, Failed))
    case _ => false
  }

  predicate ExecuteTransition(w: World, s: Settings, p: QueryPc, a: Action, p': QueryPc) {
    match p
    case QRun(j, path) =>
      || (a == Tau && p' == QDiscard(j, path, true, Failed))
      || (a.Resv? && a.path == path && p' == (if a.verdict == Reserved then p else QDiscard(j, path, true, Failed)))
      || (a.ReadData? && a.id == j.q.source && a.file == j.src.dataFile && p'.QCommit? && p'.job == j && p'.path == path
          && (w.deterministic(j.q.request.sql, j.src.format) ==>
                p'.answer == w.engine(s.runtime, a.data, j.src.format, j.q.request.sql, j.q.request.params)))
    case QCommit(j, path, answer) =>
      || (a == Tau && p' == QDiscard(j, path, true, Failed))
      || (a.Resv? && a.path == path && p' == (if a.verdict == Reserved then p else QDiscard(j, path, true, Failed)))
      || (a.PutResult? && a.path == path && StagesResult(j, answer, a.res, a.entry) &&
          p' == AfterPutResult(j, path, a.mishap, a.rput))
    case _ => false
  }

  /** The finally blocks of a query, innermost first. */
  predicate UnwindTransition(p: QueryPc, a: Action, p': QueryPc) {
    match p
    case QDiscard(j, path, _, out) => a == Unstage(path) && p' == QDeactivate(j, out)
    case QDeactivate(j, out) => a == Deactivate && p' == QFree(j, out)
    case QFree(j, out) => a == FreeSlot(QuerySlots) && p' == QUnlock(j.q, j.src, j.JobGrip(), out)
    case QUnlock(q, src, grip, out) =>
      a == (if grip.Some? then Unlock(grip.value.lock) else Tau) && p' == QRelease(q, src, out)
    case QRelease(q, src, out) => a == Unlease(q.source) && p' == QDone(out)
    case _ => false
  }

  predicate IngestTransition(s: Settings, p: IngestPc, a: Action, p': IngestPc) {
    match p
    case IStart(u) =>
      || (a == Tau && p' == IDone(Failed))
      || (a.TakeSlot? && a.sem == IngestSlots && p' == (if a.got then IName(u) else IDone(Failed)))
    case IName(u) =>
      || (a == Tau && p' == IFree(u, Failed))
      || (a.Name? && a.name == ForSource(SourceIdOf(u)) && p' == ITry(u, a.lock))
    case ITry(u, lock) => a.TryLock? && a.lock == lock && p' == (if a.got then ILook(u, lock) else IFree(u, Failed))
    case ILook(u, lock) => a.LookSrc? && a.id == SourceIdOf(u) && p' == AfterLook(s, u, lock, a.source)
    case IStage(u, lock) =>
      (a.Stage? && a.kind == Source && p' == IReserve(u, lock, a.path)) || (a == Tau && p' == IUnlock(u, lock, Failed))
    case _ => false
  }

  predicate StoreTransition(w: World, s: Settings, p: IngestPc, a: Action, p': IngestPc) {
    match p
    case IReserve(u, lock, path) =>
      || (a == Tau && p' == IDiscard(u, lock, path, true, Failed))
      || (a.Resv? && a.path == path &&
          if a.verdict == Reserved then p' == p || (a.size == u.declared && p' == ICopy(u, lock, path, 0))
          else p' == IDiscard(u, lock, path, true, Failed))
    case ICopy(u, lock, path, copied) =>
      || (a == Tau && p' == IDiscard(u, lock, path, true, Failed))
      || (a.Resv? && a.path == path && copied < a.size <= |u.content| && a.size <= s.maxSourceBytes &&
          p' == (if a.verdict == Reserved then ICopy(u, lock, path, a.size) else IDiscard(u, lock, path, true, Failed)))
      || (a == Tau && copied == |u.content| && copied == u.declared &&
          (u.expected.Some? ==> u.expected.value == Sha256(u.content)) && p' == IConvert(u, lock, path))
    case IConvert(u, lock, path) =>
      || (a == Tau && p' == IDiscard(u, lock, path, true, Failed))
      || (a.Resv? && a.path == path &&
          p' == (if a.verdict == Reserved then p else IDiscard(u, lock, path, true, Failed)))
      || (a == Tau && p'.ICommit? && p'.u == u && p'.lock == lock && p'.path == path && IsBareName(p'.file) &&
          w.converts(u.content, u.format, p'.data, p'.schema))
    case ICommit(u, lock, path, schema, file, data) =>
      || (a == Tau && p' == IDiscard(u, lock, path, true, Failed))
      || (a.PutSource? && a.path == path && StagesSource(u, schema, file, data, a.src, a.entry) &&
          p' == AfterPutSource(u, lock, path, a.mishap, a.sput))
    case IDiscard(u, lock, path, _, out) => a == Unstage(path) && p' == IUnlock(u, lock, out)
    case IUnlock(u, lock, out) => a == Unlock(lock) && p' == IFree(u, out)
    case IFree(u, out) => a == FreeSlot(IngestSlots) && p' == IDone(out)
    case _ => false
  }

  predicate DownloadTransition(p: DownloadPc, a: Action, p': DownloadPc) {
    match p
    case DStart(id) =>
      a.LeaseRes? && a.id == id &&
      if a.result.Found? then p' == DSend(id, a.result.record) || p' == DLost(id, a.result.record) else p' == DDone
    case DSend(id, r) => a == Unlease(id) && p' == DDone
    case _ => false
  }

  predicate SpoolTransition(p: SpoolPc, a: Action, p': SpoolPc) {
    match p
    case UStart => a.TakeSlot? && a.sem == UploadSlots && p' == (if a.got then UStage else UDone)
    case UStage =>
      || (a.Stage? && a.kind == Source && (p' == USpool(a.path) || p' == UForgets(a.path)))
      || (a == Tau && p' == UFree)
    case USpool(path) =>
      || (a == Tau && p' == UDiscard(path))
      || (a.Resv? && a.path == path && p' == (if a.verdict == Reserved then p else UDiscard(path)))
    case UDiscard(path) =>
      || (a == Unstage(path) && (p' == UFree || p' == ULostSlot))
      || (a == Tau && p' == ULostBoth(path))
    case UFree => a == FreeSlot(UploadSlots) && p' == UDone
    case UForgets(path) => a == FreeSlot(UploadSlots) && p' == ULostArea(path)
    case _ => false
  }

  // A request cancelled at a moment after which nobody gives back all its thread holds.
  predicate Abandoned(p: Pc) { Leaks(p) || (p.U? && p.u.UForgets?) }

  predicate Transition(w: World, s: Settings, p: Pc, a: Action, p': Pc) {
    match p
    case Q(q) => p'.Q? &&
      (LookupTransition(w, s, q, a, p'.q) || LockTransition(q, a, p'.q) || AdmitTransition(q, a, p'.q) ||
       ExecuteTransition(w, s, q, a, p'.q) || UnwindTransition(q, a, p'.q))
    case I(i) => p'.I? && (IngestTransition(s, i, a, p'.i) || StoreTransition(w, s, i, a, p'.i))
    case D(d) => p'.D? && DownloadTransition(d, a, p'.d)
    case U(u) => p'.U? && SpoolTransition(u, a, p'.u)
  }

  // ---- the whole service ----

  datatype State = State(sh: Shared, threads: map<Tid, Pc>)

  // Steps that belong to no thread above: the cleaner, an administrator, lookups that keep
  // nothing, the garbage collector, and the death and restart of the process.
  datatype Label =
    | Do(t: Tid, a: Action, p: Pc)
    | Spawn(t: Tid, p: Pc)
    | CleanUp(kind: Kind, env: Env)
    | PurgeBy(sel: Selector, dryRun: bool)
    | PeekSource(id: Id, now: Time)
    | PeekResult(id: Id, now: Time)
    | Collect(name: LockName)
    | Restart(settings: Settings, disk: Cache, first: Env, second: Env)

  ghost predicate ThreadStep(w: World, s: State, t: Tid, a: Action, p: Pc, s': State) {
    && t in s.threads
    && Transition(w, s.sh.settings, s.threads[t], a, p)
    && Effect(s.sh, a, s'.sh)
    && s'.threads == s.threads[t := p]
  }

  /** A weak entry may go once no thread refers to its lock. */
  ghost predicate Collectable(s: State, name: LockName) {
    name in s.sh.table && forall t :: t in s.threads ==>
        HoldingOf(s.threads[t]).grip != Some(Grip(name, s.sh.table[name]))
  }

  ghost predicate EnvStep(s: State, l: Label, s': State) {
    match l
    case Spawn(t, p) => t !in s.threads && IsStart(p) && s' == s.(threads := s.threads[t := p])
    case CleanUp(k, env) =>
      s' == s.(sh := s.sh.(cache := Cleanup(s.sh.cache, k, MaxBytes(s.sh.settings, k), {}, env)))
    case PurgeBy(sel, dryRun) => s' == s.(sh := s.sh.(cache := Purge(s.sh.cache, sel, dryRun).0))
    case PeekSource(id, now) => s' == s.(sh := s.sh.(cache := GetSource(s.sh.cache, s.sh.settings, id, now, true).0))
    case PeekResult(id, now) => s' == s.(sh := s.sh.(cache := GetResult(s.sh.cache, s.sh.settings, id, now, true).0))
    case Collect(name) => Collectable(s, name) && s' == s.(sh := s.sh.(table := s.sh.table - {name}))
    case _ => false
  }

  /** prepare(): recover what the disk holds, then clean both roots up to their quotas. */
  ghost function Prepared(settings: Settings, disk: Cache, first: Env, second: Env): Cache {
    var c := Recover(disk.(leases := map[], staging := map[]));
    Cleanup(Cleanup(c, Source, settings.sourceMaxBytes, {}, first), Result, settings.resultMaxBytes, {}, second)
  }
}
