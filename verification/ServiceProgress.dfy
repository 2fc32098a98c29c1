/** What a request can count on: while the others stand still it is carried out, given a slot, a free name and room. */
module ServiceProgress {
  import opened Basics
  import opened JsonModel
  import opened Model
  import opened CacheSpec
  import opened CleanupTheorems
  import opened CacheInvariants
  import opened Rereading
  import opened Service
  import opened ServiceInvariants
  import opened ServiceSafety
  import opened ServiceRuns
  import opened ServiceTheorems
  import opened ServiceHistory
  import opened ServiceExits
  import opened ServiceAnswers

  // ---- what a thread finds free ----

  /** Nobody else has the lock of a name. */
  ghost predicate NameFree(threads: map<Tid, Pc>, t: Tid, name: LockName) {
    forall u :: u in threads && u != t && HoldingOf(threads[u]).locked && HoldingOf(threads[u]).grip.Some? ==>
      HoldingOf(threads[u]).grip.value.name != name
  }

  lemma LockIsFree(s: State, t: Tid, g: Grip)
    requires LocksCounted(s) && TableAgrees(s) && t in s.threads && NameFree(s.threads, t, g.name)
    requires HoldingOf(s.threads[t]).grip == Some(g) && !HoldingOf(s.threads[t]).locked
    ensures g.lock !in s.sh.held
  {
    assert GripAgrees(s.sh, g);
    forall u | u in s.threads ensures LockOf(HoldingOf(s.threads[u])) != Some(g.lock) {
      var h := HoldingOf(s.threads[u]);
      if h.locked && h.grip.Some? { assert GripAgrees(s.sh, h.grip.value); }
    }
    HeldIff(s, g.lock);
  }

  /** Leased bytes, what staging areas other than the path have reserved, and the size fit the maximum. */
  ghost predicate Fits(c: Cache, s: Settings, k: Kind, path: Path, size: nat) {
    Pinned(c, k) + Staged(c.staging - {path}, k) + size <= MaxBytes(s, k)
  }

  lemma SamePins(c: Cache, c': Cache, s: Settings, k: Kind, path: Path, size: nat)
    requires Fits(c, s, k, path, size) && PinnedRoot(c', k) == PinnedRoot(c, k)
    requires c'.staging - {path} == c.staging - {path}
    ensures Fits(c', s, k, path, size)
  {
  }

  lemma Granted(c: Cache, s: Settings, path: Path, size: nat, now: Time) returns (env: Env)
    requires path in c.staging && Fits(c, s, c.staging[path].kind, path, size) && LeasesPositive(c)
    requires WellFormed(c.Root(c.staging[path].kind))
    ensures Verdict(c, s, path, size, env) == Reserved && Covers(env.listing, c.Root(c.staging[path].kind))
  {
    var listing := SomeListing(c.Root(c.staging[path].kind));
    env := Env(now, listing, size);
    ReserveExact(c, s, path, size, env);
  }

  // ---- a query ----

  // The source's record and data, the answer of the engine, how the result's manifest will be, and the result
  // that is served instead if there is one.
  datatype Plan = Plan(q: Query, src: SourceRecord, data: Bytes, answer: Answer, now: Time, base: nat, payload: nat,
                       hit: Option<ResultRecord>)

  /** What the result cache can serve for a query. */
  ghost function Served(w: World, s: Settings, c: Cache, q: Query, src: SourceRecord, now: Time): Option<ResultRecord> {
    var id := ResKey(KeyOf(w, s.runtime, src, q.request));
    if w.deterministic(q.request.sql, src.format) && Servable(c, Result, id, now) then Some(StoredResult(c, id))
        else None
  }

  predicate Looking(p: QueryPc) {
    p.QStart? || p.QLeased? || p.QLook1? || p.QName? || p.QTry? || p.QLook2?
  }

  predicate Good(plan: Plan, out: Outcome) {
    if plan.hit.Some? then out == Outcome.Hit(plan.hit.value) else out.Ran? && Describes(out.result, plan.answer)
  }

  /** A point on the way of the plan. */
  predicate OnTrack(plan: Plan, p: QueryPc) {
    && (p.QStart? ==> p.q == plan.q)
    && (BeliefOf(p).src.Some? ==> BeliefOf(p).src.value == Subject(plan.q, plan.src))
    && !p.QLegacy1? && !p.QLegacy2?
    && (ReportOf(Q(p)).None? && !p.QStart? && !p.QLeased? && !p.QLook1? ==> plan.hit.None?)
    && (p.QCommit? ==> p.answer == plan.answer)
    && (ReportOf(Q(p)).Some? ==> Good(plan, ReportOf(Q(p)).value))
  }

  ghost predicate SourceReady(c: Cache, plan: Plan) {
    && plan.q.source in c.sources && plan.src.dataFile in c.sources[plan.q.source].files
    && c.sources[plan.q.source].files[plan.src.dataFile] == plan.data
  }

  // The path a query has staged at; for those that have none, one that nobody has.
  function PathOf(sh: Shared, p: QueryPc): Path { if p.QRun? || p.QCommit? then p.path else sh.next }

  function Space(plan: Plan): nat { plan.base + plan.payload + 54 }

  ghost predicate CacheReady(w: World, sh: Shared, plan: Plan, p: QueryPc) {
    && SourceReady(sh.cache, plan)
    && (p.QStart? ==>
          Servable(sh.cache, Source, plan.q.source, plan.now) && StoredSource(sh.cache, plan.q.source) == plan.src)
    && (Looking(p) ==> Served(w, sh.settings, sh.cache, plan.q, plan.src, plan.now) == plan.hit)
    && (plan.hit.None? ==> Fits(sh.cache, sh.settings, Result, PathOf(sh, p), Space(plan)))
  }

  ghost predicate Computed(w: World, s: Settings, plan: Plan) {
    w.deterministic(plan.q.request.sql, plan.src.format) ==>
      plan.answer == w.engine(s.runtime, plan.data, plan.src.format, plan.q.request.sql, plan.q.request.params)
  }

  predicate BeforeSlot(p: QueryPc) { Looking(p) || p.QAdmit? }

  /** What is free for a query: the lock of its key, a slot, room. */
  ghost predicate Ready(w: World, s: State, t: Tid, plan: Plan) {
    && t in s.threads && s.threads[t].Q?
    && Computed(w, s.sh.settings, plan)
    && var p := s.threads[t].q;
       && OnTrack(plan, p)
       && (ReportOf(Q(p)).None? ==> CacheReady(w, s.sh, plan, p))
       && (plan.hit.None? && BeforeSlot(p) ==> s.sh.queries < s.sh.settings.maxQueries)
       && (plan.hit.None? && w.deterministic(plan.q.request.sql, plan.src.format) ==>
             NameFree(s.threads, t, ForQuery(KeyOf(w, s.sh.settings.runtime, plan.src, plan.q.request))))
  }

  function Ahead(p: QueryPc): nat {
    match p
    case QStart(_) => 11
    case QLeased(_, _) => 10
    case QLook1(_, _, _) => 9
    case QName(_, _, _) => 8
    case QTry(_, _, _, _) => 7
    case QLook2(_, _, _, _) => 6
    case QAdmit(_) => 5
    case QActivate(_) => 4
    case QStage(_) => 3
    case QRun(_, _) => 2
    case QCommit(_, _, _) => 1
    case _ => 0
  }

  // A step along the plan, and what is shared stays ready for the next.
  ghost predicate Goes(w: World, sh: Shared, plan: Plan, p: QueryPc, a: Action, p': QueryPc, sh': Shared) {
    Walks(w, sh.settings, p, a, p') && Effect(sh, a, sh') && Lands(w, sh, plan, p, p', sh')
  }

  predicate Walks(w: World, s: Settings, p: QueryPc, a: Action, p': QueryPc) {
    LookupTransition(w, s, p, a, p') || LockTransition(p, a, p') || AdmitTransition(p, a, p') ||
    ExecuteTransition(w, s, p, a, p')
  }

  ghost predicate Lands(w: World, sh: Shared, plan: Plan, p: QueryPc, p': QueryPc, sh': Shared) {
    && OnTrack(plan, p') && Ahead(p') < Ahead(p)
    && (ReportOf(Q(p')).None? ==> CacheReady(w, sh', plan, p'))
    && (BeforeSlot(p') ==> sh'.queries == sh.queries)
  }

  ghost predicate Orderly(w: World, c: Cache) { ContentsValid(w, c) && LeasesPositive(c) }

  ghost predicate Fresh(sh: Shared) { forall path :: path in sh.cache.staging ==> path < sh.next }

  // ---- the cache along the plan ----

  /** Steps that leave the cache alone leave it ready. */
  lemma StaysReady(w: World, sh: Shared, sh': Shared, plan: Plan, p: QueryPc, p': QueryPc)
    requires CacheReady(w, sh, plan, p) && sh'.cache == sh.cache && sh'.settings == sh.settings
    requires !p'.QStart? && (Looking(p') ==> Looking(p))
    requires PathOf(sh', p') == PathOf(sh, p) ||
        (PathOf(sh, p) !in sh.cache.staging && PathOf(sh', p') !in sh.cache.staging)
    ensures CacheReady(w, sh', plan, p')
  {
    if PathOf(sh', p') != PathOf(sh, p) {
      assert sh.cache.staging - {PathOf(sh', p')} == sh.cache.staging - {PathOf(sh, p)};
    }
  }

  lemma SourceIsNoResult(w: World, c: Cache, c': Cache, id: Id)
    requires ContentsValid(w, c) && IsSourceId(id) && c'.results == c.results
    requires c'.leases == AddLease(c, id).leases
    ensures PinnedRoot(c', Result) == PinnedRoot(c, Result)
    ensures forall x :: IsResultId(x) ==> (c'.Leased(x) <==> c.Leased(x))
  {
    forall x | x in c.results ensures x != id { assert ValidResult(w, x, c.results[x]); }
  }

  lemma SameServed(w: World, s: Settings, c: Cache, c': Cache, plan: Plan)
    requires c'.results == c.results && forall id :: IsResultId(id) ==> (c'.Leased(id) <==> c.Leased(id))
    ensures Served(w, s, c', plan.q, plan.src, plan.now) == Served(w, s, c, plan.q, plan.src, plan.now)
  {
  }

  /** The source leased. */
  lemma LeaseLeaves(w: World, s: Settings, c: Cache, plan: Plan)
    requires ContentsValid(w, c) && SourceReady(c, plan) && Servable(c, Source, plan.q.source, plan.now)
    requires StoredSource(c, plan.q.source) == plan.src
    ensures var (c', found) := LeaseSource(c, s, plan.q.source, plan.now);
      && found == Found(plan.src) && SourceReady(c', plan) && c'.staging == c.staging
      && PinnedRoot(c', Result) == PinnedRoot(c, Result)
      && Served(w, s, c', plan.q, plan.src, plan.now) == Served(w, s, c, plan.q, plan.src, plan.now)
  {
    SourceLeased(s, c, plan);
    var c' := LeaseSource(c, s, plan.q.source, plan.now).0;
    SourceIsNoResult(w, c, c', plan.q.source);
    SameServed(w, s, c, c', plan);
  }

  lemma SourceLeased(s: Settings, c: Cache, plan: Plan)
    requires SourceReady(c, plan) && Servable(c, Source, plan.q.source, plan.now)
    requires StoredSource(c, plan.q.source) == plan.src
    ensures var (c', found) := LeaseSource(c, s, plan.q.source, plan.now);
      && found == Found(plan.src) && SourceReady(c', plan)
      && c'.staging == c.staging && c'.results == c.results && c'.leases == AddLease(c, plan.q.source).leases
  {
    SourceLookupExact(c, s, plan.q.source, plan.now, true);
  }

  /** A key looked up in vain. */
  lemma MissLeaves(w: World, s: Settings, c: Cache, key: QueryKey, now: Time)
    requires ContentsValid(w, c) && LeasesPositive(c) && !Servable(c, Result, ResKey(key), now)
    ensures var c' := ByQueryKey(c, s, key, now).0;
      && PinnedRoot(c', Result) == PinnedRoot(c, Result) && ResKey(key) !in c'.results
      && c'.sources == c.sources && c'.staging == c.staging
  {
    var id := ResKey(key);
    ResultLookupExact(c, s, id, now, true);
    KeyLookupIsRight(w, c, s, key, now);
    if id in c.results { assert ValidResult(w, id, c.results[id]); }
    SamePinned(c, ByQueryKey(c, s, key, now).0, id);
  }

  lemma SamePinned(c: Cache, c': Cache, id: Id)
    requires c'.results - {id} == c.results - {id} && id !in c'.results && c'.leases == c.leases
    requires id in c.results ==> id !in c.leases
    ensures PinnedRoot(c', Result) == PinnedRoot(c, Result)
  {
    forall x | x in c.results && x in c.leases ensures x in c'.results && c'.results[x] == c.results[x] {
      assert x in c.results - {id};
    }
    forall x | x in c'.results ensures x in c.results && c'.results[x] == c.results[x] {
      assert x in c'.results - {id};
    }
  }

  lemma MissReady(w: World, sh: Shared, c': Cache, plan: Plan, p: QueryPc, p': QueryPc)
    requires CacheReady(w, sh, plan, p) && Looking(p) && plan.hit.None?
    requires w.deterministic(plan.q.request.sql, plan.src.format)
    requires PinnedRoot(c', Result) == PinnedRoot(sh.cache, Result)
    requires ResKey(KeyOf(w, sh.settings.runtime, plan.src, plan.q.request)) !in c'.results
    requires c'.sources == sh.cache.sources && c'.staging == sh.cache.staging
    requires !p'.QStart? && PathOf(sh, p') == PathOf(sh, p)
    ensures CacheReady(w, sh.(cache := c'), plan, p')
  {
    SamePins(sh.cache, c', sh.settings, Result, PathOf(sh, p), Space(plan));
  }

  // ---- the steps ----

  lemma StartGoes(w: World, sh: Shared, plan: Plan) returns (a: Action, p': QueryPc, sh': Shared)
    requires CacheReady(w, sh, plan, QStart(plan.q)) && Orderly(w, sh.cache)
    ensures Goes(w, sh, plan, QStart(plan.q), a, p', sh')
  {
    a, p' := LeaseSrc(plan.q.source, plan.now, Found(plan.src)), QLeased(plan.q, plan.src);
    LeaseLeaves(w, sh.settings, sh.cache, plan);
    sh' := sh.(cache := LeaseSource(sh.cache, sh.settings, plan.q.source, plan.now).0);
    Leased(sh, a, sh');
    StartLands(w, sh, plan, sh');
  }

  lemma StartLands(w: World, sh: Shared, plan: Plan, sh': Shared)
    requires CacheReady(w, sh, plan, QStart(plan.q)) && sh' == sh.(cache := sh'.cache)
    requires SourceReady(sh'.cache, plan) && sh'.cache.staging == sh.cache.staging
    requires PinnedRoot(sh'.cache, Result) == PinnedRoot(sh.cache, Result)
    requires Served(w, sh.settings, sh'.cache, plan.q, plan.src, plan.now) == plan.hit
    ensures Lands(w, sh, plan, QStart(plan.q), QLeased(plan.q, plan.src), sh')
  {
    if plan.hit.None? { SamePins(sh.cache, sh'.cache, sh.settings, Result, sh.next, Space(plan)); }
  }

  lemma Leased(sh: Shared, a: Action, sh': Shared)
    requires a.LeaseSrc? && (sh'.cache, a.source) == LeaseSource(sh.cache, sh.settings, a.id, a.now)
    requires sh' == sh.(cache := sh'.cache)
    ensures Effect(sh, a, sh')
  {
  }

  lemma LeasedGoes(w: World, sh: Shared, plan: Plan) returns (a: Action, p': QueryPc, sh': Shared)
    requires CacheReady(w, sh, plan, QLeased(plan.q, plan.src)) && Fresh(sh)
    ensures Goes(w, sh, plan, QLeased(plan.q, plan.src), a, p', sh')
  {
    if w.deterministic(plan.q.request.sql, plan.src.format) {
      a, p' := Tau, QLook1(plan.q, plan.src, KeyOf(w, sh.settings.runtime, plan.src, plan.q.request));
    } else {
      a, p' := Uuid(sh.next), QAdmit(Job(plan.q, plan.src, Bypass(sh.next)));
    }
    sh' := TakesName(sh, a);
    StaysReady(w, sh, sh', plan, QLeased(plan.q, plan.src), p');
  }

  lemma TakesName(sh: Shared, a: Action) returns (sh': Shared)
    requires a == Tau || a == Uuid(sh.next)
    ensures Effect(sh, a, sh') && sh' == sh.(next := sh'.next) && sh'.next >= sh.next
  {
    sh' := if a == Tau then sh else sh.(next := sh.next + 1);
  }

  // Where a lookup leads, before the lock or under it.
  function AfterLook(plan: Plan, key: QueryKey, lock: Option<LockId>): QueryPc {
    match plan.hit
    case Some(r) => QRelease(plan.q, plan.src, Outcome.Hit(r))
    case None => if lock.None? then QName(plan.q, plan.src, key)
                 else QAdmit(Job(plan.q, plan.src, Keyed(key, lock.value)))
  }

  function Look(plan: Plan, key: QueryKey, lock: Option<LockId>): QueryPc {
    if lock.None? then QLook1(plan.q, plan.src, key) else QLook2(plan.q, plan.src, key, lock.value)
  }

  lemma LookWalks(w: World, s: Settings, plan: Plan, key: QueryKey, lock: Option<LockId>, a: Action)
    requires OnTrack(plan, Look(plan, key, lock)) && LooksUpAs(plan, key, a)
    ensures Walks(w, s, Look(plan, key, lock), a, AfterLook(plan, key, lock))
    ensures OnTrack(plan, AfterLook(plan, key, lock))
    ensures Ahead(AfterLook(plan, key, lock)) < Ahead(Look(plan, key, lock))
  {
  }

  predicate LooksUpAs(plan: Plan, key: QueryKey, a: Action) {
    a.LookKey? && a.key == key && a.found == if plan.hit.Some? then KeyLookup.Hit(plan.hit.value) else NoHit
  }

  lemma LookGoes(w: World, sh: Shared, plan: Plan, key: QueryKey, lock: Option<LockId>)
    returns (a: Action, p': QueryPc, sh': Shared)
    requires CacheReady(w, sh, plan, Look(plan, key, lock)) && OnTrack(plan, Look(plan, key, lock))
    requires Orderly(w, sh.cache) && KeyAgrees(w, sh.settings, plan.q, plan.src, key)
    ensures Goes(w, sh, plan, Look(plan, key, lock), a, p', sh')
  {
    a, sh' := KeyLooked(w, sh, plan, key);
    p' := AfterLook(plan, key, lock);
    LookWalks(w, sh.settings, plan, key, lock, a);
    if plan.hit.None? { MissReady(w, sh, sh'.cache, plan, Look(plan, key, lock), p'); }
  }

  lemma KeyLooked(w: World, sh: Shared, plan: Plan, key: QueryKey) returns (a: Action, sh': Shared)
    requires Orderly(w, sh.cache) && KeyAgrees(w, sh.settings, plan.q, plan.src, key)
    requires Served(w, sh.settings, sh.cache, plan.q, plan.src, plan.now) == plan.hit
    ensures LooksUpAs(plan, key, a) && Effect(sh, a, sh') && sh' == sh.(cache := sh'.cache)
    ensures plan.hit.None? ==>
      && PinnedRoot(sh'.cache, Result) == PinnedRoot(sh.cache, Result) && ResKey(key) !in sh'.cache.results
      && sh'.cache.sources == sh.cache.sources && sh'.cache.staging == sh.cache.staging
  {
    var (c', found) := ByQueryKey(sh.cache, sh.settings, key, plan.now);
    a, sh' := LookKey(key, plan.now, found), sh.(cache := c');
    KeyFoundIff(w, sh.settings, sh.cache, a, c');
    if plan.hit.None? { MissLeaves(w, sh.settings, sh.cache, key, plan.now); }
  }

  lemma NameGoes(w: World, sh: Shared, plan: Plan, key: QueryKey) returns (a: Action, p': QueryPc, sh': Shared)
    requires plan.hit.None? && CacheReady(w, sh, plan, QName(plan.q, plan.src, key)) && Fresh(sh)
    ensures Goes(w, sh, plan, QName(plan.q, plan.src, key), a, p', sh')
  {
    var lock;
    lock, sh' := TakesLock(sh, ForQuery(key));
    a, p' := Name(ForQuery(key), lock), QTry(plan.q, plan.src, key, lock);
    StaysReady(w, sh, sh', plan, QName(plan.q, plan.src, key), p');
  }

  lemma TakesLock(sh: Shared, name: LockName) returns (lock: LockId, sh': Shared)
    ensures Effect(sh, Name(name, lock), sh')
    ensures sh' == sh.(table := sh'.table, next := sh'.next) && sh'.next >= sh.next
  {
    var a;
    a, sh' := CanName(sh, name);
    lock := a.lock;
  }

  lemma TryGoes(w: World, sh: Shared, plan: Plan, key: QueryKey, lock: LockId)
    returns (a: Action, p': QueryPc, sh': Shared)
    requires plan.hit.None? && CacheReady(w, sh, plan, QTry(plan.q, plan.src, key, lock)) && lock !in sh.held
    ensures Goes(w, sh, plan, QTry(plan.q, plan.src, key, lock), a, p', sh')
  {
    a, p', sh' := TryLock(lock, true), QLook2(plan.q, plan.src, key, lock), sh.(held := sh.held + {lock});
    StaysReady(w, sh, sh', plan, QTry(plan.q, plan.src, key, lock), p');
  }

  lemma AdmitGoes(w: World, sh: Shared, plan: Plan, j: Job) returns (a: Action, p': QueryPc, sh': Shared)
    requires plan.hit.None? && CacheReady(w, sh, plan, QAdmit(j)) && OnTrack(plan, QAdmit(j))
    requires sh.queries < sh.settings.maxQueries
    ensures Goes(w, sh, plan, QAdmit(j), a, p', sh')
  {
    a, p', sh' := TakeSlot(QuerySlots, true), QActivate(j), sh.(queries := sh.queries + 1);
    StaysReady(w, sh, sh', plan, QAdmit(j), p');
  }

  lemma ActivateGoes(w: World, sh: Shared, plan: Plan, j: Job) returns (a: Action, p': QueryPc, sh': Shared)
    requires CacheReady(w, sh, plan, QActivate(j)) && OnTrack(plan, QActivate(j))
    ensures Goes(w, sh, plan, QActivate(j), a, p', sh')
  {
    a, p', sh' := Activate, QStage(j), sh.(active := sh.active + 1);
    StaysReady(w, sh, sh', plan, QActivate(j), p');
  }

  lemma StageGoes(w: World, sh: Shared, plan: Plan, j: Job) returns (a: Action, p': QueryPc, sh': Shared)
    requires CacheReady(w, sh, plan, QStage(j)) && OnTrack(plan, QStage(j)) && Fresh(sh)
    ensures Goes(w, sh, plan, QStage(j), a, p', sh')
  {
    a, p' := Stage(Result, sh.next), QRun(j, sh.next);
    sh' := sh.(cache := StagingPath(sh.cache, Result, sh.next), next := sh.next + 1);
    StagedReady(w, sh, plan, j);
  }

  lemma StagedReady(w: World, sh: Shared, plan: Plan, j: Job)
    requires CacheReady(w, sh, plan, QStage(j))
    ensures CacheReady(w, sh.(cache := StagingPath(sh.cache, Result, sh.next), next := sh.next + 1), plan,
                       QRun(j, sh.next))
  {
    var c' := StagingPath(sh.cache, Result, sh.next);
    assert c'.staging - {sh.next} == sh.cache.staging - {sh.next};
    assert PinnedRoot(c', Result) == PinnedRoot(sh.cache, Result);
    if plan.hit.None? { SamePins(sh.cache, c', sh.settings, Result, sh.next, Space(plan)); }
  }

  lemma RunGoes(w: World, sh: Shared, plan: Plan, j: Job, path: Path) returns (a: Action, p': QueryPc, sh': Shared)
    requires CacheReady(w, sh, plan, QRun(j, path)) && OnTrack(plan, QRun(j, path)) && Computed(w, sh.settings, plan)
    ensures Goes(w, sh, plan, QRun(j, path), a, p', sh')
  {
    a, p', sh' := ReadData(plan.q.source, plan.src.dataFile, plan.data), QCommit(j, path, plan.answer), sh;
    StaysReady(w, sh, sh', plan, QRun(j, path), p');
  }

  // The entry as it is staged at the time of the plan.
  function StagedFor(s: Settings, plan: Plan, j: Job): Entry {
    ResultEntry(Reread(ResultRecordOf(j, plan.answer)), map[RESULT_CSV := plan.answer.csv], plan.payload, plan.base,
                plan.now, s)
  }

  lemma CommitWalks(w: World, s: Settings, plan: Plan, j: Job, path: Path, env: Env)
    requires plan.hit.None? && OnTrack(plan, QCommit(j, path, plan.answer))
    ensures var r := ResultRecordOf(j, plan.answer);
      Walks(w, s, QCommit(j, path, plan.answer),
            PutResult(path, r, StagedFor(s, plan, j), env, env, None, Committed(r)), QDiscard(j, path, false, Ran(r)))
  {
    assert StagesResult(j, plan.answer, ResultRecordOf(j, plan.answer), StagedFor(s, plan, j));
  }

  lemma CommitSucceeds(sh: Shared, path: Path, r: ResultRecord, e: Entry, env: Env) returns (sh': Shared)
    requires r.id !in sh.cache.results && Verdict(sh.cache, sh.settings, path, Size(e), env) == Reserved
    ensures Effect(sh, PutResult(path, r, e, env, env, None, Committed(r)), sh')
  {
    var (c', put) := CommitResult(sh.cache, sh.settings, path, r, e, env, env, None);
    assert put == Committed(r);
    sh' := sh.(cache := c');
  }

  predicate IsArea(c: Cache, path: Path, k: Kind) { path in c.staging && c.staging[path].kind == k }

  lemma CommitGoes(w: World, sh: Shared, plan: Plan, j: Job, path: Path)
    returns (a: Action, p': QueryPc, sh': Shared)
    requires plan.hit.None? && OnTrack(plan, QCommit(j, path, plan.answer)) && Orderly(w, sh.cache)
    requires Fits(sh.cache, sh.settings, Result, path, Space(plan)) && IsArea(sh.cache, path, Result)
    requires j.Rid() !in sh.cache.results
    ensures Goes(w, sh, plan, QCommit(j, path, plan.answer), a, p', sh')
  {
    var r, e := ResultRecordOf(j, plan.answer), StagedFor(sh.settings, plan, j);
    var env := RoomForResult(w, sh, plan, j, path);
    sh' := CommitSucceeds(sh, path, r, e, env);
    a, p' := PutResult(path, r, e, env, env, None, Committed(r)), QDiscard(j, path, false, Ran(r));
    CommitWalks(w, sh.settings, plan, j, path, env);
  }

  lemma RoomForResult(w: World, sh: Shared, plan: Plan, j: Job, path: Path) returns (env: Env)
    requires Orderly(w, sh.cache) && IsArea(sh.cache, path, Result)
    requires Fits(sh.cache, sh.settings, Result, path, Space(plan))
    ensures Verdict(sh.cache, sh.settings, path, Size(StagedFor(sh.settings, plan, j)), env) == Reserved
  {
    ValidIsWellFormed(w, sh.cache);
    env := Granted(sh.cache, sh.settings, path, Size(StagedFor(sh.settings, plan, j)), plan.now);
  }

  // What a thread on its way may rely on.
  ghost predicate Able(w: World, sh: Shared, plan: Plan, p: QueryPc) {
    && (p.QLook1? || p.QLook2? ==> KeyAgrees(w, sh.settings, plan.q, plan.src, p.key))
    && (p.QTry? ==> p.lock !in sh.held)
    && (p.QAdmit? ==> sh.queries < sh.settings.maxQueries)
    && (p.QCommit? ==> IsArea(sh.cache, p.path, Result) && p.job.Rid() !in sh.cache.results)
  }

  lemma ReadyIsAble(w: World, s: State, t: Tid, plan: Plan)
    requires Invariant(w, s) && Ready(w, s, t, plan) && ReportOf(s.threads[t]).None?
    ensures Able(w, s.sh, plan, s.threads[t].q) && Orderly(w, s.sh.cache) && Fresh(s.sh)
  {
    var p := s.threads[t].q;
    KeyIsRight(w, s, t, plan);
    if p.QTry? { LockIsFree(s, t, Grip(ForQuery(p.key), p.lock)); }
    assert HoldingOf(Q(p)).claim.Some? ==> ClaimAgrees(s.sh, HoldingOf(Q(p)).claim.value);
    assert TargetAgrees(s.sh, HoldingOf(Q(p)));
  }

  lemma KeyIsRight(w: World, s: State, t: Tid, plan: Plan)
    requires FactsHold(w, s) && t in s.threads && s.threads[t].Q? && OnTrack(plan, s.threads[t].q)
    ensures var p := s.threads[t].q;
      p.QLook1? || p.QLook2? || p.QTry? ==> KeyAgrees(w, s.sh.settings, plan.q, plan.src, p.key)
  {
    assert Fact(w, s.sh.settings, s.sh.cache, s.threads[t]);
  }

  lemma NextOnTrack(w: World, sh: Shared, plan: Plan, p: QueryPc) returns (a: Action, p': QueryPc, sh': Shared)
    requires OnTrack(plan, p) && CacheReady(w, sh, plan, p) && Orderly(w, sh.cache) && Fresh(sh) && Able(w, sh, plan, p)
    requires Computed(w, sh.settings, plan) && Ahead(p) > 0
    ensures Goes(w, sh, plan, p, a, p', sh')
  {
    if Ahead(p) > 8 {
      a, p', sh' := NextUnnamed(w, sh, plan, p);
    } else if p.QName? {
      assert p == QName(plan.q, plan.src, p.key);
      a, p', sh' := NameGoes(w, sh, plan, p.key);
    } else if p.QTry? {
      assert p == QTry(plan.q, plan.src, p.key, p.lock);
      a, p', sh' := TryGoes(w, sh, plan, p.key, p.lock);
    } else if p.QLook2? {
      assert p == Look(plan, p.key, Some(p.lock));
      a, p', sh' := LookGoes(w, sh, plan, p.key, Some(p.lock));
    } else {
      a, p', sh' := NextWorking(w, sh, plan, p);
    }
  }

  lemma NextUnnamed(w: World, sh: Shared, plan: Plan, p: QueryPc) returns (a: Action, p': QueryPc, sh': Shared)
    requires OnTrack(plan, p) && CacheReady(w, sh, plan, p) && Orderly(w, sh.cache) && Fresh(sh) && Able(w, sh, plan, p)
    requires p.QStart? || p.QLeased? || p.QLook1?
    ensures Goes(w, sh, plan, p, a, p', sh')
  {
    match p {
      case QStart(_) => a, p', sh' := StartGoes(w, sh, plan);
      case QLeased(_, _) => a, p', sh' := LeasedGoes(w, sh, plan);
      case QLook1(_, _, key) => a, p', sh' := LookGoes(w, sh, plan, key, None);
    }
  }

  lemma NextWorking(w: World, sh: Shared, plan: Plan, p: QueryPc) returns (a: Action, p': QueryPc, sh': Shared)
    requires OnTrack(plan, p) && CacheReady(w, sh, plan, p) && Orderly(w, sh.cache) && Fresh(sh) && Able(w, sh, plan, p)
    requires Computed(w, sh.settings, plan) && Ahead(p) > 0 && !Looking(p)
    ensures Goes(w, sh, plan, p, a, p', sh')
  {
    match p {
      case QAdmit(j) => a, p', sh' := AdmitGoes(w, sh, plan, j);
      case QActivate(j) => a, p', sh' := ActivateGoes(w, sh, plan, j);
      case QStage(j) => a, p', sh' := StageGoes(w, sh, plan, j);
      case QRun(j, path) => a, p', sh' := RunGoes(w, sh, plan, j, path);
      case QCommit(j, path, _) => a, p', sh' := CommitGoes(w, sh, plan, j, path);
    }
  }

  predicate Stands(threads: map<Tid, Pc>, t: Tid, p: QueryPc) { t in threads && threads[t] == Q(p) }

  lemma GoesOn(w: World, s: State, t: Tid, p: QueryPc, a: Action, p': QueryPc, sh': Shared)
    requires Stands(s.threads, t, p) && Walks(w, s.sh.settings, p, a, p') && Effect(s.sh, a, sh')
    ensures ThreadStep(w, s, t, a, Q(p'), State(sh', s.threads[t := Q(p')])) && sh'.settings == s.sh.settings
  {
  }

  lemma GoneIsReady(w: World, s: State, t: Tid, plan: Plan, p: QueryPc, p': QueryPc, sh': Shared)
    requires Ready(w, s, t, plan) && Stands(s.threads, t, p)
    requires Lands(w, s.sh, plan, p, p', sh') && sh'.settings == s.sh.settings
    ensures var s' := State(sh', s.threads[t := Q(p')]); Ready(w, s', t, plan) && Height(t)(s') < Height(t)(s)
  {
  }

  ghost function Going(w: World, t: Tid, plan: Plan): State -> bool {
    s => Invariant(w, s) && Ready(w, s, t, plan)
  }

  ghost function Own(w: World, t: Tid): (State, Label, State) -> bool {
    (s, l, s') => Steps(w)(s, l, s') && l.Do? && l.t == t
  }

  function Height(t: Tid): State -> nat {
    (s: State) => if t in s.threads && s.threads[t].Q? then Ahead(s.threads[t].q) else 0
  }

  lemma Onward(w: World, s: State, t: Tid, plan: Plan) returns (l: Label, s': State)
    requires Sound(w) && Going(w, t, plan)(s) && Height(t)(s) > 0
    ensures Own(w, t)(s, l, s') && Going(w, t, plan)(s') && Height(t)(s') < Height(t)(s)
  {
    var a, p';
    a, p', s' := StepTaken(w, s, t, plan);
    l := Do(t, a, p');
    OwnStep(w, s, t, a, p', s');
    ThreadStepKeeps(w, s, t, a, p', s');
  }

  lemma OwnStep(w: World, s: State, t: Tid, a: Action, p: Pc, s': State)
    requires ThreadStep(w, s, t, a, p, s')
    ensures Own(w, t)(s, Do(t, a, p), s')
  {
    assert Step(w, s, Do(t, a, p), s');
    assert Steps(w)(s, Do(t, a, p), s');
  }

  lemma StepTaken(w: World, s: State, t: Tid, plan: Plan) returns (a: Action, p': Pc, s': State)
    requires Invariant(w, s) && Ready(w, s, t, plan) && Height(t)(s) > 0
    ensures ThreadStep(w, s, t, a, p', s') && Ready(w, s', t, plan) && Height(t)(s') < Height(t)(s)
  {
    var p := s.threads[t].q;
    ReadyIsAble(w, s, t, plan);
    var q', sh';
    a, q', sh' := NextOnTrack(w, s.sh, plan, p);
    p' := Q(q');
    s' := State(sh', s.threads[t := p']);
    GoesOn(w, s, t, p, a, q', sh');
    GoneIsReady(w, s, t, plan, p, q', sh');
  }

  // ---- the way back ----

  lemma ReportStays(w: World, s: Settings, p: Pc, a: Action, p': Pc)
    requires Transition(w, s, p, a, p') && ReportOf(p).Some?
    ensures ReportOf(p') == ReportOf(p)
  {
  }

  ghost predicate Reporting(s: State, t: Tid, out: Outcome) { t in s.threads && ReportOf(s.threads[t]) == Some(out) }

  /** Whoever has something to report gives back all it holds and reports it. */
  lemma ReportArrives(w: World, s: State, t: Tid, out: Outcome) returns (states: seq<State>, labels: seq<Label>)
    requires Sound(w) && Invariant(w, s) && Reporting(s, t, out)
    ensures Finishes(w, s, t, states, labels) && Reporting(states[|labels|], t, out)
  {
    assert !Abandoned(s.threads[t]);
    states, labels := CanFinishAlone(w, s, t);
    var p := (m: nat) => m < |states| && Reporting(states[m], t, out);
    forall m: nat | 0 <= m < |labels| && p(m) ensures p(m + 1) {
      assert Steps(w)(states[m], labels[m], states[m + 1]);
      ReportStays(w, states[m].sh.settings, states[m].threads[t], labels[m].a, labels[m].p);
    }
    Stays(p, 0, |labels|);
  }

  lemma OwnPath(w: World, t: Tid, states: seq<State>, labels: seq<Label>)
    requires IsPath(states, labels, Own(w, t))
    ensures IsPath(states, labels, Steps(w)) && forall i :: 0 <= i < |labels| ==> labels[i].Do? && labels[i].t == t
  {
    forall i | 0 <= i < |labels|
      ensures Steps(w)(states[i], labels[i], states[i + 1]) && labels[i].Do? && labels[i].t == t
    {
      assert Own(w, t)(states[i], labels[i], states[i + 1]);
    }
  }

  lemma FinishFollows(w: World, s: State, t: Tid, states: seq<State>, labels: seq<Label>, states': seq<State>,
                      labels': seq<Label>)
    requires IsPath(states, labels, Own(w, t)) && states[0] == s && Finishes(w, states[|labels|], t, states', labels')
    ensures Finishes(w, s, t, states + states'[1..], labels + labels')
    ensures (states + states'[1..])[|labels + labels'|] == states'[|labels'|]
  {
    OwnPath(w, t, states, labels);
    PathConcat(states, labels, states', labels', Steps(w));
  }

  lemma PlanIsCarriedOut(w: World, s: State, t: Tid, plan: Plan)
    returns (states: seq<State>, labels: seq<Label>, out: Outcome)
    requires Sound(w) && Invariant(w, s) && Ready(w, s, t, plan)
    ensures Finishes(w, s, t, states, labels) && Reporting(states[|labels|], t, out) && Good(plan, out)
  {
    forall x | Going(w, t, plan)(x) && Height(t)(x) > 0
      ensures exists l, y :: Own(w, t)(x, l, y) && Going(w, t, plan)(y) && Height(t)(y) < Height(t)(x)
    {
      var l, y := Onward(w, x, t, plan);
    }
    var up, way := PathDown(s, Own(w, t), Going(w, t, plan), Height(t));
    var s' := up[|way|];
    out := Arrived(w, s', t, plan);
    var states', labels' := ReportArrives(w, s', t, out);
    states, labels := up + states'[1..], way + labels';
    FinishFollows(w, s, t, up, way, states', labels');
  }

  lemma Arrived(w: World, s: State, t: Tid, plan: Plan) returns (out: Outcome)
    requires Going(w, t, plan)(s) && Height(t)(s) == 0
    ensures Invariant(w, s) && Reporting(s, t, out) && Good(plan, out)
  {
    out := ReportOf(s.threads[t]).value;
  }

  /** A query whose source can be served is answered by its own steps, whatever the others hold, provided that
      nobody has the lock of its key, that a slot is free, and that its result, with 54 bytes for its stamps,
      fits beside what is leased and reserved. The answer is the stored result if that can be served, and else
      a result that describes what the engine answers. */
  lemma QueryIsAnswered(w: World, s: State, t: Tid, q: Query, answer: Answer, now: Time, base: nat, payload: nat)
    returns (states: seq<State>, labels: seq<Label>, out: Outcome)
    requires Sound(w) && Invariant(w, s) && t in s.threads && s.threads[t] == Q(QStart(q))
    requires Servable(s.sh.cache, Source, q.source, now)
    requires var src := StoredSource(s.sh.cache, q.source);
      && (w.deterministic(q.request.sql, src.format) ==> answer == FreshRun(w, s, q, src))
      && (Served(w, s.sh.settings, s.sh.cache, q, src, now).None? ==>
            && (w.deterministic(q.request.sql, src.format) ==>
                  NameFree(s.threads, t, ForQuery(KeyOf(w, s.sh.settings.runtime, src, q.request))))
            && s.sh.queries < s.sh.settings.maxQueries
            && Pinned(s.sh.cache, Result) + Staged(s.sh.cache.staging, Result) + base + payload + 54
               <= s.sh.settings.resultMaxBytes)
    ensures Finishes(w, s, t, states, labels) && Reporting(states[|labels|], t, out)
    ensures var served := Served(w, s.sh.settings, s.sh.cache, q, StoredSource(s.sh.cache, q.source), now);
      if served.Some? then out == Outcome.Hit(served.value) else out.Ran? && Describes(out.result, answer)
  {
    var plan := PlanOf(w, s, q, answer, now, base, payload);
    StartIsReady(w, s, t, plan);
    states, labels, out := PlanIsCarriedOut(w, s, t, plan);
  }

  ghost function PlanOf(w: World, s: State, q: Query, answer: Answer, now: Time, base: nat, payload: nat): Plan
    requires Servable(s.sh.cache, Source, q.source, now)
  {
    var src := StoredSource(s.sh.cache, q.source);
    Plan(q, src, s.sh.cache.sources[q.source].files[src.dataFile], answer, now, base, payload,
         Served(w, s.sh.settings, s.sh.cache, q, src, now))
  }

  lemma StartIsReady(w: World, s: State, t: Tid, plan: Plan)
    requires t in s.threads && s.threads[t] == Q(QStart(plan.q)) && Computed(w, s.sh.settings, plan)
    requires StagingCounted(s) && SourceReady(s.sh.cache, plan)
    requires Servable(s.sh.cache, Source, plan.q.source, plan.now)
    requires StoredSource(s.sh.cache, plan.q.source) == plan.src
    requires Served(w, s.sh.settings, s.sh.cache, plan.q, plan.src, plan.now) == plan.hit
    requires plan.hit.None? ==>
      && (w.deterministic(plan.q.request.sql, plan.src.format) ==>
            NameFree(s.threads, t, ForQuery(KeyOf(w, s.sh.settings.runtime, plan.src, plan.q.request))))
      && s.sh.queries < s.sh.settings.maxQueries
      && Pinned(s.sh.cache, Result) + Staged(s.sh.cache.staging, Result) + Space(plan) <= s.sh.settings.resultMaxBytes
    ensures Ready(w, s, t, plan)
  {
    assert s.sh.cache.staging - {s.sh.next} == s.sh.cache.staging;
  }
}
