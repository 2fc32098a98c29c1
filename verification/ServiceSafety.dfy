/** What the cached bytes mean, and that every step of the service keeps the whole invariant. */
module ServiceSafety {
  import opened Basics
  import opened Model
  import opened CacheSpec
  import opened CleanupTheorems
  import opened CacheInvariants
  import opened Rereading
  import opened Service
  import opened ServiceInvariants

  // ---- meaning ----

  /** The two assumptions about code the model does not see into: canonicalising SQL preserves
      the meaning of deterministic queries, and two conversions of the same upload with the same
      schema digest answer deterministic queries alike. */
  ghost predicate Sound(w: World) {
    && (forall runtime, data, f, sql, sql', ps ::
          w.canonical(sql, f) == w.canonical(sql', f) && w.deterministic(sql, f) && w.deterministic(sql', f) ==>
            w.engine(runtime, data, f, sql, ps) == w.engine(runtime, data, f, sql', ps))
    && (forall runtime, raw, f, schema, data, data', sql, ps ::
          w.converts(raw, f, data, schema) && w.converts(raw, f, data', schema) && w.deterministic(sql, f) ==>
            w.engine(runtime, data, f, sql, ps) == w.engine(runtime, data', f, sql, ps))
  }

  /** A data file and a query text that a key describes. */
  ghost predicate Stands(w: World, key: QueryKey, data: Bytes, sql: Text) {
    && w.converts(key.sourceSha256.preimage, key.format, data, key.schemaDigest)
    && w.canonical(sql, key.format) == key.sql
    && w.deterministic(sql, key.format)
  }

  ghost function RunAs(w: World, key: QueryKey, data: Bytes, sql: Text): Answer {
    w.engine(key.runtime, data, key.format, sql, key.params)
  }

  /** The answer, as a manifest gives it back, of every execution that a key describes. */
  ghost predicate Right(w: World, key: QueryKey, answer: Answer) {
    forall data, sql :: Stands(w, key, data, sql) ==> AsRead(RunAs(w, key, data, sql)) == answer
  }

  lemma OneRunIsRight(w: World, key: QueryKey, data: Bytes, sql: Text)
    requires Sound(w) && Stands(w, key, data, sql)
    ensures Right(w, key, AsRead(RunAs(w, key, data, sql)))
  {
    forall data', sql' | Stands(w, key, data', sql')
      ensures AsRead(RunAs(w, key, data', sql')) == AsRead(RunAs(w, key, data, sql))
    {
      assert w.engine(key.runtime, data', key.format, sql', key.params)
          == w.engine(key.runtime, data', key.format, sql, key.params);
    }
  }

  // ---- valid entries ----

  /** The manifest names the scope and the source of its record. */
  predicate Named(e: Entry) {
    e.manifest.record.Some? && e.manifest.scope == ScopeOf(e.manifest.record.value) &&
        e.manifest.source == Some(SourceOf(e.manifest.record.value))
  }

  ghost predicate ValidSource(w: World, id: Id, e: Entry) {
    && Recoverable(Source, id, e) && !Malformed(e) && Named(e)
    && var r := e.manifest.record.value.source;
       && id == SrcId(r.scope, r.ref)
       && r.size == |r.sha256.preimage|
       && w.converts(r.sha256.preimage, r.format, e.files[r.dataFile], r.schemaDigest)
  }

  ghost predicate ValidResult(w: World, id: Id, e: Entry) {
    && Recoverable(Result, id, e) && !Malformed(e) && Named(e) && IsResultId(id)
    && var r := e.manifest.record.value.result;
       id.ResKey? ==> r.queryKey == Some(id.key) && Right(w, id.key, Answer(r.shape, e.files[r.resultFile]))
  }

  ghost predicate ContentsValid(w: World, c: Cache) {
    && (forall id :: id in c.sources ==> ValidSource(w, id, c.sources[id]))
    && (forall id :: id in c.results ==> ValidResult(w, id, c.results[id]))
  }

  lemma ValidKept(w: World, id: Id, e: Entry, e': Entry)
    requires SameContent(e, e')
    ensures ValidSource(w, id, e) ==> ValidSource(w, id, e')
    ensures ValidResult(w, id, e) ==> ValidResult(w, id, e')
  {
  }

  // ---- locks by name ----

  ghost predicate TableAgrees(s: State) {
    && (forall name :: name in s.sh.table ==> s.sh.table[name] < s.sh.next)
    && (forall m, n :: m in s.sh.table && n in s.sh.table && s.sh.table[m] == s.sh.table[n] ==> m == n)
    && (forall t :: t in s.threads && HoldingOf(s.threads[t]).grip.Some? ==>
        GripAgrees(s.sh, HoldingOf(s.threads[t]).grip.value))
  }

  ghost predicate GripAgrees(sh: Shared, g: Grip) { g.name in sh.table && sh.table[g.name] == g.lock }

  /** Whatever the garbage collector has dropped meanwhile, one name is locked by one thread. */
  lemma OneLockPerName(s: State, t: Tid, u: Tid)
    requires LocksCounted(s) && TableAgrees(s) && t in s.threads && u in s.threads
    requires var g, h := HoldingOf(s.threads[t]), HoldingOf(s.threads[u]);
      g.locked && h.locked && g.grip.Some? && h.grip.Some? && g.grip.value.name == h.grip.value.name
    ensures t == u
  {
    if t != u {
      TwoHolders(s.threads, t, u, Holds(HoldingOf(s.threads[t]).grip.value.lock));
      assert false;
    }
  }

  // ---- targets ----

  ghost predicate Absent(c: Cache, id: Id) { if IsSourceId(id) then id !in c.sources else id !in c.results }

  ghost predicate TargetAgrees(sh: Shared, h: Holding) {
    && TargetBacked(h)
    && (h.target.Some? ==>
        Absent(sh.cache, h.target.value) && (h.target.value.ResUuid? ==> h.target.value.uuid < sh.next))
  }

  ghost predicate SameTarget(p: Pc, p': Pc) {
    HoldingOf(p).target.Some? && HoldingOf(p).target == HoldingOf(p').target
  }

  ghost predicate TargetsAgree(s: State) {
    && (forall t :: t in s.threads ==> TargetAgrees(s.sh, HoldingOf(s.threads[t])))
    && (forall t, u :: t in s.threads && u in s.threads && SameTarget(s.threads[t], s.threads[u]) ==> t == u)
    && (forall n: nat :: ResUuid(n) in s.sh.cache.results ==> n < s.sh.next)
  }

  // ---- what a thread's variables mean ----

  ghost predicate SrcAgrees(c: Cache, q: Query, src: SourceRecord) {
    q.source in c.sources && c.sources[q.source].manifest.record == Some(SourceRec(src))
  }

  ghost predicate KeyAgrees(w: World, s: Settings, q: Query, src: SourceRecord, key: QueryKey) {
    key == KeyOf(w, s.runtime, src, q.request) && w.deterministic(q.request.sql, src.format)
  }

  /** The record stands for the answer, CSV bytes included, of every execution under the key. */
  ghost predicate RightRecord(w: World, key: QueryKey, r: ResultRecord) {
    && r.execution.Some? && r.execution.value.resultSha256.Some?
    && r.byteCount == |r.execution.value.resultSha256.value.preimage|
    && Right(w, key, Answer(r.shape, r.execution.value.resultSha256.value.preimage))
  }

  // What a query thread takes to be true: its source's record, the key it computed, the engine's
  // answer it holds, and the outcome it is about to report.
  datatype Belief = Belief(src: Option<Subject>, key: Option<QueryKey>, answer: Option<Answer>, out: Option<Outcome>)
  datatype Subject = Subject(q: Query, src: SourceRecord)

  function OfLookup(q: Query, src: SourceRecord, key: QueryKey): Belief {
    Belief(Some(Subject(q, src)), Some(key), None, None)
  }

  function OfJob(j: Job, answer: Option<Answer>, out: Option<Outcome>): Belief {
    Belief(Some(Subject(j.q, j.src)), j.StoredKey(), answer, out)
  }

  function OfReport(q: Query, src: SourceRecord, out: Outcome): Belief {
    Belief(Some(Subject(q, src)), None, None, Some(out))
  }

  function BeliefOf(p: QueryPc): Belief {
    match p
    case QStart(_) => Belief(None, None, None, None)
    case QLeased(q, src) => Belief(Some(Subject(q, src)), None, None, None)
    case QLook1(q, src, key) => OfLookup(q, src, key)
    case QLegacy1(q, src, key) => OfLookup(q, src, key)
    case QName(q, src, key) => OfLookup(q, src, key)
    case QTry(q, src, key, _) => OfLookup(q, src, key)
    case QLook2(q, src, key, _) => OfLookup(q, src, key)
    case QLegacy2(q, src, key, _) => OfLookup(q, src, key)
    case QAdmit(j) => OfJob(j, None, None)
    case QActivate(j) => OfJob(j, None, None)
    case QStage(j) => OfJob(j, None, None)
    case QRun(j, _) => OfJob(j, None, None)
    case QCommit(j, _, answer) => OfJob(j, Some(answer), None)
    case QDiscard(j, _, _, out) => OfJob(j, None, Some(out))
    case QDeactivate(j, out) => OfJob(j, None, Some(out))
    case QFree(j, out) => OfJob(j, None, Some(out))
    case QUnlock(q, src, _, out) => OfReport(q, src, out)
    case QRelease(q, src, out) => OfReport(q, src, out)
    case QDone(_) => Belief(None, None, None, None)
  }

  ghost predicate Justified(w: World, s: Settings, c: Cache, b: Belief) {
    && (b.src.Some? ==> SrcAgrees(c, b.src.value.q, b.src.value.src))
    && (b.key.Some? ==> b.src.Some? && KeyAgrees(w, s, b.src.value.q, b.src.value.src, b.key.value))
    && (b.answer.Some? && b.key.Some? ==> Right(w, b.key.value, AsRead(b.answer.value)))
    && (b.out.Some? && b.out.value.Hit? ==> b.src.Some? && HitAgrees(w, s, b.src.value, b.out.value.result))
  }

  ghost predicate HitAgrees(w: World, s: Settings, subject: Subject, r: ResultRecord) {
    && w.deterministic(subject.q.request.sql, subject.src.format)
    && RightRecord(w, KeyOf(w, s.runtime, subject.src, subject.q.request), r)
  }

  ghost predicate IngestFact(w: World, p: IngestPc) {
    p.ICommit? ==> IsBareName(p.file) && w.converts(p.u.content, p.u.format, p.data, p.schema)
  }

  /** A download streams the entry whose record it was given. */
  ghost predicate ServedAgrees(c: Cache, p: DownloadPc) {
    p.DSend? || p.DLost? ==> p.id in c.results && c.results[p.id].manifest.record == Some(ResultRec(p.result))
  }

  ghost predicate Fact(w: World, s: Settings, c: Cache, p: Pc) {
    (p.Q? ==> Justified(w, s, c, BeliefOf(p.q))) && (p.I? ==> IngestFact(w, p.i)) && (p.D? ==> ServedAgrees(c, p.d))
  }

  ghost predicate FactsHold(w: World, s: State) {
    forall t :: t in s.threads ==> Fact(w, s.sh.settings, s.sh.cache, s.threads[t])
  }

  ghost predicate QuotasHold(s: State) { forall k: Kind :: WithinQuota(s.sh.cache, s.sh.settings, k) }

  // ---- what lookups tell, once entries are valid ----

  /** Under a valid cache a lookup that finds nothing leaves nothing. */
  lemma MissingIsAbsent(w: World, c: Cache, s: Settings, id: Id, now: Time)
    requires ContentsValid(w, c) && IsSourceId(id)
    ensures var (c', found) := GetSource(c, s, id, now, true);
      && !found.BadStamp?
      && (found.Missing? ==> id !in c'.sources)
      && (found.Found? ==> id in c'.sources && c'.sources[id].manifest.record == Some(SourceRec(found.record)))
  {
    if id in c.sources { assert ValidSource(w, id, c.sources[id]); }
  }

  /** Under a valid cache a key lookup either hits with the right answer or leaves the key
      absent; a legacy record is never met. */
  lemma KeyLookupIsRight(w: World, c: Cache, s: Settings, key: QueryKey, now: Time)
    requires ContentsValid(w, c)
    ensures var (c', found) := ByQueryKey(c, s, key, now);
      && (found.NoHit? ==> ResKey(key) !in c'.results)
      && (found.Hit? ==> RightRecord(w, key, found.record))
      && !found.Legacy? && !found.Raised?
  {
    if ResKey(key) in c.results { assert ValidResult(w, ResKey(key), c.results[ResKey(key)]); }
  }

  // ---- each part of the invariant is kept by a thread's step ----

  lemma GripMoves(sh: Shared, a: Action, sh': Shared, h: Holding, h': Holding)
    requires TableEffect(sh, a, sh') && MovesLock(h, a, h')
    requires h.grip.Some? ==> GripAgrees(sh, h.grip.value)
    ensures h'.grip.Some? ==> GripAgrees(sh', h'.grip.value)
  {
  }

  lemma TableMoves(sh: Shared, a: Action, sh': Shared)
    requires TableEffect(sh, a, sh')
    requires forall name :: name in sh.table ==> sh.table[name] < sh.next
    requires forall m, n :: m in sh.table && n in sh.table && sh.table[m] == sh.table[n] ==> m == n
    ensures forall name :: name in sh'.table ==> sh'.table[name] < sh'.next
    ensures forall m, n :: m in sh'.table && n in sh'.table && sh'.table[m] == sh'.table[n] ==> m == n
    ensures forall g: Grip :: GripAgrees(sh, g) ==> GripAgrees(sh', g)
  {
  }

  lemma TableKept(w: World, s: State, t: Tid, a: Action, p: Pc, s': State)
    requires TableAgrees(s) && ThreadStep(w, s, t, a, p, s')
    ensures TableAgrees(s')
  {
    TransitionMoves(w, s.sh.settings, s.threads[t], a, p);
    TableMoves(s.sh, a, s'.sh);
    GripMoves(s.sh, a, s'.sh, HoldingOf(s.threads[t]), HoldingOf(p));
    forall u | u in s'.threads && HoldingOf(s'.threads[u]).grip.Some?
      ensures GripAgrees(s'.sh, HoldingOf(s'.threads[u]).grip.value)
    {
      if u != t { assert GripAgrees(s.sh, HoldingOf(s.threads[u]).grip.value); }
    }
  }

  lemma StagedSourceIsValid(w: World, u: Upload, schema: Digest, file: Text, data: Bytes, r: SourceRecord, e: Entry)
    requires StagesSource(u, schema, file, data, r, e)
    requires IsBareName(file) && w.converts(u.content, u.format, data, schema)
    ensures ValidSource(w, r.id, e)
  {
  }

  lemma StagedResultIsValid(w: World, j: Job, answer: Answer, r: ResultRecord, e: Entry)
    requires StagesResult(j, answer, r, e)
    requires j.ticket.Keyed? ==> Right(w, j.ticket.key, AsRead(answer))
    ensures ValidResult(w, r.id, e)
  {
    assert IsBareName(RESULT_CSV);
  }

  lemma PublishedIsValid(w: World, s: Settings, c: Cache, p: Pc, a: Action, p': Pc, id: Id)
    requires Fact(w, s, c, p) && Transition(w, s, p, a, p')
    ensures Publishes(a, Source, id) ==> ValidSource(w, id, a.entry)
    ensures Publishes(a, Result, id) ==> ValidResult(w, id, a.entry)
  {
    if a.PutSource? {
      var i := p.i;
      assert StoreTransition(w, s, i, a, p'.i);
      StagedSourceIsValid(w, i.u, i.schema, i.file, i.data, a.src, a.entry);
    } else if a.PutResult? {
      var q := p.q;
      assert ExecuteTransition(w, s, q, a, p'.q);
      StagedResultIsValid(w, q.job, q.answer, a.res, a.entry);
    }
  }

  lemma ContentsKept(w: World, s: State, t: Tid, a: Action, p: Pc, s': State)
    requires ContentsValid(w, s.sh.cache) && FactsHold(w, s) && ThreadStep(w, s, t, a, p, s')
    ensures ContentsValid(w, s'.sh.cache)
  {
    var c, c' := s.sh.cache, s'.sh.cache;
    EffectEvolves(s.sh.settings, c, a, c');
    forall id | id in c'.sources ensures ValidSource(w, id, c'.sources[id]) {
      PublishedIsValid(w, s.sh.settings, c, s.threads[t], a, p, id);
      ValidKept(w, id, if id in c.sources then c.sources[id] else a.entry, c'.sources[id]);
    }
    forall id | id in c'.results ensures ValidResult(w, id, c'.results[id]) {
      PublishedIsValid(w, s.sh.settings, c, s.threads[t], a, p, id);
      ValidKept(w, id, if id in c.results then c.results[id] else a.entry, c'.results[id]);
    }
  }

  /** A target just chosen is absent, and no other thread has it. */
  lemma ChosenIsAbsent(w: World, sh: Shared, a: Action, sh': Shared, h: Holding, h': Holding)
    requires ContentsValid(w, sh.cache) && Effect(sh, a, sh') && MovesTarget(h, a, h')
    requires TargetAgrees(sh, h) && forall n: nat :: ResUuid(n) in sh.cache.results ==> n < sh.next
    ensures TargetAgrees(sh', h')
  {
    EffectEvolves(sh.settings, sh.cache, a, sh'.cache);
    if h'.target.Some? && h'.target != h.target {
      if a.LookKey? {
        KeyLookupIsRight(w, sh.cache, sh.settings, a.key, a.now);
      } else if a.LookSrc? {
        MissingIsAbsent(w, sh.cache, sh.settings, a.id, a.now);
      }
    }
  }

  lemma OthersStayAbsent(w: World, s: State, t: Tid, a: Action, p: Pc, s': State, u: Tid)
    requires TargetsAgree(s) && ThreadStep(w, s, t, a, p, s') && u in s.threads && u != t
    ensures TargetAgrees(s'.sh, HoldingOf(s.threads[u]))
  {
    TransitionMoves(w, s.sh.settings, s.threads[t], a, p);
    EffectEvolves(s.sh.settings, s.sh.cache, a, s'.sh.cache);
    assert TargetAgrees(s.sh, HoldingOf(s.threads[u])) && TargetAgrees(s.sh, HoldingOf(s.threads[t]));
    assert !SameTarget(s.threads[t], s.threads[u]);
  }

  /** Two threads never aim at the same entry: the lock of its name, or its UUID, forbids it. */
  lemma TargetsStayApart(w: World, s: State, t: Tid, a: Action, p: Pc, s': State, u: Tid)
    requires TargetsAgree(s) && LocksCounted(s') && TableAgrees(s') && ThreadStep(w, s, t, a, p, s')
    requires u in s.threads && u != t
    ensures !SameTarget(p, s.threads[u])
  {
    TransitionMoves(w, s.sh.settings, s.threads[t], a, p);
    var h, g := HoldingOf(p), HoldingOf(s.threads[u]);
    assert TargetAgrees(s.sh, g) && TargetAgrees(s.sh, HoldingOf(s.threads[t]));
    assert !SameTarget(s.threads[t], s.threads[u]);
    if SameTarget(p, s.threads[u]) && !h.target.value.ResUuid? {
      assert s'.threads[t] == p && s'.threads[u] == s.threads[u];
      OneLockPerName(s', t, u);
      assert false;
    }
  }

  lemma TargetsKept(w: World, s: State, t: Tid, a: Action, p: Pc, s': State)
    requires ContentsValid(w, s.sh.cache) && TargetsAgree(s) && ThreadStep(w, s, t, a, p, s')
    requires LocksCounted(s') && TableAgrees(s')
    ensures TargetsAgree(s')
  {
    TransitionMoves(w, s.sh.settings, s.threads[t], a, p);
    ChosenIsAbsent(w, s.sh, a, s'.sh, HoldingOf(s.threads[t]), HoldingOf(p));
    forall u | u in s'.threads ensures TargetAgrees(s'.sh, HoldingOf(s'.threads[u])) {
      if u != t { OthersStayAbsent(w, s, t, a, p, s', u); }
    }
    forall u, v | u in s'.threads && v in s'.threads && SameTarget(s'.threads[u], s'.threads[v]) ensures u == v {
      if u == t && v != t { TargetsStayApart(w, s, t, a, p, s', v); }
      if v == t && u != t { TargetsStayApart(w, s, t, a, p, s', u); }
    }
    UuidsStayBelow(w, s, t, a, p, s');
  }

  lemma UuidsStayBelow(w: World, s: State, t: Tid, a: Action, p: Pc, s': State)
    requires TargetsAgree(s) && ThreadStep(w, s, t, a, p, s')
    ensures forall n: nat :: ResUuid(n) in s'.sh.cache.results ==> n < s'.sh.next
  {
    TransitionMoves(w, s.sh.settings, s.threads[t], a, p);
    EffectEvolves(s.sh.settings, s.sh.cache, a, s'.sh.cache);
    assert TargetAgrees(s.sh, HoldingOf(s.threads[t]));
    forall n: nat | ResUuid(n) in s'.sh.cache.results ensures n < s'.sh.next {
      assert ResUuid(n) in s.sh.cache.results || Publishes(a, Result, ResUuid(n));
    }
  }

  // ---- the meaning of variables ----

  /** A leased source keeps its record and its files through any action. */
  lemma LeasedSourceKept(c: Cache, a: Action, c': Cache, q: Query, src: SourceRecord)
    requires Evolves(c, a, c') && SrcAgrees(c, q, src) && LeaseCount(c.leases, q.source) >= 1
    ensures SrcAgrees(c', q, src)
    ensures c'.sources[q.source].files == c.sources[q.source].files
  {
  }

  lemma BeliefSurvives(w: World, s: Settings, c: Cache, a: Action, c': Cache, b: Belief)
    requires Evolves(c, a, c') && Justified(w, s, c, b)
    requires b.src.Some? ==> LeaseCount(c.leases, b.src.value.q.source) >= 1
    ensures Justified(w, s, c', b)
  {
    if b.src.Some? { LeasedSourceKept(c, a, c', b.src.value.q, b.src.value.src); }
  }

  /** A leased result keeps its record through any action. */
  lemma ServedSurvives(c: Cache, a: Action, c': Cache, p: DownloadPc)
    requires Evolves(c, a, c') && ServedAgrees(c, p) && (p.DSend? || p.DLost?) && LeaseCount(c.leases, p.id) >= 1
    ensures ServedAgrees(c', p)
  {
  }

  lemma AcquiredAgrees(s: Settings, c: Cache, a: Action, c': Cache)
    requires a.LeaseRes? && a.result.Found? && CacheEffect(s, c, a, c')
    ensures a.id in c'.results && c'.results[a.id].manifest.record == Some(ResultRec(a.result.record))
  {
  }

  /** The ways a transition may change what its thread believes. */
  ghost predicate Learns(w: World, s: Settings, b: Belief, a: Action, b': Belief) {
    && (|| b'.src.None? || b'.src == b.src
        || (a.LeaseSrc? && a.source.Found? && b'.src.Some? && b'.src.value.q.source == a.id &&
            b'.src.value.src == a.source.record))
    && (|| b'.key.None? || (b'.key == b.key && b'.src == b.src)
        || (b'.src == b.src && b.src.Some? && KeyAgrees(w, s, b.src.value.q, b.src.value.src, b'.key.value)))
    && (|| b'.answer.None? || (b'.answer == b.answer && b'.key == b.key)
        || (a.ReadData? && b'.src == b.src && b'.key == b.key && b.src.Some? &&
            Computes(w, s, b.src.value, a, b'.answer.value)))
    && (|| b'.out.None? || !b'.out.value.Hit? || (b'.out == b.out && b'.src == b.src)
        || (a.LookKey? && a.found.Hit? && b'.out.value.result == a.found.record && b.key == Some(a.key) &&
            b'.src == b.src))
  }

  ghost predicate Computes(w: World, s: Settings, subject: Subject, a: Action, answer: Answer)
    requires a.ReadData?
  {
    && a.id == subject.q.source && a.file == subject.src.dataFile
    && (w.deterministic(subject.q.request.sql, subject.src.format) ==>
          answer == w.engine(s.runtime, a.data, subject.src.format, subject.q.request.sql, subject.q.request.params))
  }

  lemma LookupLearns(w: World, s: Settings, p: QueryPc, a: Action, p': QueryPc)
    requires LookupTransition(w, s, p, a, p')
    ensures Learns(w, s, BeliefOf(p), a, BeliefOf(p'))
  {
  }

  lemma LockLearns(w: World, s: Settings, p: QueryPc, a: Action, p': QueryPc)
    requires LockTransition(p, a, p')
    ensures Learns(w, s, BeliefOf(p), a, BeliefOf(p'))
  {
  }

  lemma ExecuteLearns(w: World, s: Settings, p: QueryPc, a: Action, p': QueryPc)
    requires ExecuteTransition(w, s, p, a, p')
    ensures Learns(w, s, BeliefOf(p), a, BeliefOf(p'))
  {
  }

  lemma UnwindLearns(w: World, s: Settings, p: QueryPc, a: Action, p': QueryPc)
    requires AdmitTransition(p, a, p') || UnwindTransition(p, a, p')
    ensures Learns(w, s, BeliefOf(p), a, BeliefOf(p'))
  {
  }

  lemma TransitionLearns(w: World, s: Settings, p: QueryPc, a: Action, p': QueryPc)
    requires Transition(w, s, Q(p), a, Q(p'))
    ensures Learns(w, s, BeliefOf(p), a, BeliefOf(p'))
  {
    if LookupTransition(w, s, p, a, p') {
      LookupLearns(w, s, p, a, p');
    } else if LockTransition(p, a, p') {
      LockLearns(w, s, p, a, p');
    } else if ExecuteTransition(w, s, p, a, p') {
      ExecuteLearns(w, s, p, a, p');
    } else {
      UnwindLearns(w, s, p, a, p');
    }
  }

  /** What the engine computes from the leased source's file is right under the query's key. */
  lemma ComputedIsRight(w: World, s: Settings, c: Cache, subject: Subject, a: Action, answer: Answer, key: QueryKey)
    requires Sound(w) && ContentsValid(w, c) && SrcAgrees(c, subject.q, subject.src)
    requires KeyAgrees(w, s, subject.q, subject.src, key)
    requires a.ReadData? && Computes(w, s, subject, a, answer) && CacheEffect(s, c, a, c)
    ensures Right(w, key, AsRead(answer))
  {
    assert ValidSource(w, a.id, c.sources[a.id]);
    OneRunIsRight(w, key, a.data, subject.q.request.sql);
  }

  lemma LeasedRecordAgrees(w: World, c: Cache, s: Settings, a: Action, c': Cache)
    requires ContentsValid(w, c) && a.LeaseSrc? && a.source.Found? && CacheEffect(s, c, a, c')
    ensures a.id in c'.sources && c'.sources[a.id].manifest.record == Some(SourceRec(a.source.record))
  {
    MissingIsAbsent(w, c, s, a.id, a.now);
  }

  lemma LearnedIsJustified(w: World, s: Settings, c: Cache, b: Belief, a: Action, c': Cache, b': Belief)
    requires Sound(w) && ContentsValid(w, c) && Justified(w, s, c, b) && Justified(w, s, c', b)
    requires Learns(w, s, b, a, b') && CacheEffect(s, c, a, c')
    ensures Justified(w, s, c', b')
  {
    if a.LeaseSrc? && a.source.Found? {
      LeasedRecordAgrees(w, c, s, a, c');
    } else if a.LookKey? {
      KeyLookupIsRight(w, c, s, a.key, a.now);
    } else if a.ReadData? && b'.answer.Some? && b'.key.Some? && b'.answer != b.answer {
      ComputedIsRight(w, s, c, b.src.value, a, b'.answer.value, b'.key.value);
    }
  }

  lemma BelieverLeases(p: QueryPc)
    ensures BeliefOf(p).src.Some? ==> HoldingOfQuery(p).lease == Some(BeliefOf(p).src.value.q.source)
  {
  }

  /** Every thread's beliefs survive a step, whoever takes it. */
  lemma OldFactKept(w: World, s: State, a: Action, c': Cache, u: Tid)
    requires FactsHold(w, s) && LeasesCounted(s) && Evolves(s.sh.cache, a, c') && u in s.threads
    ensures Fact(w, s.sh.settings, c', s.threads[u])
  {
    assert Fact(w, s.sh.settings, s.sh.cache, s.threads[u]);
    if s.threads[u].Q? {
      var b := BeliefOf(s.threads[u].q);
      BelieverLeases(s.threads[u].q);
      if b.src.Some? { CountAtLeastOne(s.threads, u, Leases(b.src.value.q.source)); }
      BeliefSurvives(w, s.sh.settings, s.sh.cache, a, c', b);
    } else if s.threads[u].D? && (s.threads[u].d.DSend? || s.threads[u].d.DLost?) {
      CountAtLeastOne(s.threads, u, Leases(s.threads[u].d.id));
      ServedSurvives(s.sh.cache, a, c', s.threads[u].d);
    }
  }

  lemma OldFactsKept(w: World, s: State, a: Action, c': Cache)
    requires FactsHold(w, s) && LeasesCounted(s) && Evolves(s.sh.cache, a, c')
    ensures forall u :: u in s.threads ==> Fact(w, s.sh.settings, c', s.threads[u])
  {
    forall u | u in s.threads ensures Fact(w, s.sh.settings, c', s.threads[u]) {
      OldFactKept(w, s, a, c', u);
    }
  }

  lemma FactsCombine(w: World, threads: map<Tid, Pc>, t: Tid, p: Pc, s': State)
    requires forall u :: u in threads ==> Fact(w, s'.sh.settings, s'.sh.cache, threads[u])
    requires Fact(w, s'.sh.settings, s'.sh.cache, p) && s'.threads == threads[t := p]
    ensures FactsHold(w, s')
  {
  }

  lemma StepFact(w: World, s: State, t: Tid, a: Action, p: Pc, s': State)
    requires Sound(w) && ContentsValid(w, s.sh.cache) && FactsHold(w, s) && ThreadStep(w, s, t, a, p, s')
    requires Fact(w, s.sh.settings, s'.sh.cache, s.threads[t])
    ensures Fact(w, s.sh.settings, s'.sh.cache, p)
  {
    assert Fact(w, s.sh.settings, s.sh.cache, s.threads[t]);
    OwnFactKept(w, s.sh.settings, s.sh.cache, s.threads[t], a, s'.sh.cache, p);
  }

  lemma SettingsStay(sh: Shared, a: Action, sh': Shared)
    requires TableEffect(sh, a, sh')
    ensures sh'.settings == sh.settings
  {
  }

  lemma FactsKept(w: World, s: State, t: Tid, a: Action, p: Pc, s': State)
    requires Sound(w) && ContentsValid(w, s.sh.cache) && FactsHold(w, s) && LeasesCounted(s)
    requires ThreadStep(w, s, t, a, p, s')
    ensures FactsHold(w, s')
  {
    EffectEvolves(s.sh.settings, s.sh.cache, a, s'.sh.cache);
    OldFactsKept(w, s, a, s'.sh.cache);
    StepFact(w, s, t, a, p, s');
    SettingsStay(s.sh, a, s'.sh);
    FactsCombine(w, s.threads, t, p, s');
  }

  lemma OwnBeliefKept(w: World, s: Settings, c: Cache, p: QueryPc, a: Action, c': Cache, p': QueryPc)
    requires Sound(w) && ContentsValid(w, c) && Justified(w, s, c, BeliefOf(p)) && Justified(w, s, c', BeliefOf(p))
    requires Transition(w, s, Q(p), a, Q(p')) && CacheEffect(s, c, a, c')
    ensures Justified(w, s, c', BeliefOf(p'))
  {
    TransitionLearns(w, s, p, a, p');
    LearnedIsJustified(w, s, c, BeliefOf(p), a, c', BeliefOf(p'));
  }

  lemma OwnServedKept(w: World, s: Settings, c: Cache, p: DownloadPc, a: Action, c': Cache, p': DownloadPc)
    requires DownloadTransition(p, a, p') && CacheEffect(s, c, a, c')
    ensures ServedAgrees(c', p')
  {
    if a.LeaseRes? && a.result.Found? { AcquiredAgrees(s, c, a, c'); }
  }

  lemma OwnIngestKept(w: World, s: Settings, p: IngestPc, a: Action, p': IngestPc)
    requires IngestTransition(s, p, a, p') || StoreTransition(w, s, p, a, p')
    ensures IngestFact(w, p')
  {
  }

  lemma OwnFactKept(w: World, s: Settings, c: Cache, p: Pc, a: Action, c': Cache, p': Pc)
    requires Sound(w) && ContentsValid(w, c) && Fact(w, s, c, p) && Fact(w, s, c', p)
    requires Transition(w, s, p, a, p') && CacheEffect(s, c, a, c')
    ensures Fact(w, s, c', p')
  {
    match p {
      case Q(q) => OwnBeliefKept(w, s, c, q, a, c', p'.q);
      case I(i) => OwnIngestKept(w, s, i, a, p'.i);
      case D(d) => OwnServedKept(w, s, c, d, a, c', p'.d);
      case U(u) =>
    }
  }

  // ---- quotas ----

  lemma ValidIsWellFormed(w: World, c: Cache)
    requires ContentsValid(w, c)
    ensures forall k: Kind :: WellFormed(c.Root(k))
  {
    forall id | id in c.sources ensures !Malformed(c.sources[id]) { assert ValidSource(w, id, c.sources[id]); }
    forall id | id in c.results ensures !Malformed(c.results[id]) { assert ValidResult(w, id, c.results[id]); }
    assert c.Root(Source) == c.sources && c.Root(Result) == c.results;
  }

  lemma QuotaAfterStage(c: Cache, s: Settings, kind: Kind, path: Path, k: Kind)
    requires WithinQuota(c, s, k) && path !in c.staging
    ensures WithinQuota(StagingPath(c, kind, path), s, k)
  {
    SumUpdate(c.staging, HereFor(k), path, Area(kind, 0, false));
  }

  lemma QuotaAfterDiscard(c: Cache, s: Settings, path: Path, k: Kind)
    requires WithinQuota(c, s, k)
    ensures WithinQuota(Discard(c, path), s, k)
  {
    SumMonotone(c.staging - {path}, HereFor(k), c.staging, HereFor(k));
  }

  lemma QuotaAfterLookup(c: Cache, s: Settings, a: Action, c': Cache, k: Kind)
    requires CacheEffect(s, c, a, c') && WithinQuota(c, s, k)
    requires a.LeaseSrc? || a.LeaseRes? || a.LookSrc? || a.LookKey? || a.Drop?
    ensures WithinQuota(c', s, k)
  {
    match a {
      case LeaseSrc(id, now, _) =>
        GetSourceIsTame(c, s, id, now, true);
        QuotaKeptByTame(c, GetSource(c, s, id, now, true).0, s, k);
      case LeaseRes(id, now, _) =>
        GetResultIsTame(c, s, id, now, true);
        QuotaKeptByTame(c, GetResult(c, s, id, now, true).0, s, k);
      case LookSrc(id, now, _) =>
        GetSourceIsTame(c, s, id, now, true);
        QuotaKeptByTame(c, c', s, k);
      case LookKey(key, now, _) =>
        ByQueryKeyIsTame(c, s, key, now);
        QuotaKeptByTame(c, c', s, k);
      case Drop(key, _) =>
        DropLegacyIsTame(c, key);
        QuotaKeptByTame(c, c', s, k);
    }
  }

  /** Committing to an absent target under a reservation of the right kind keeps both quotas. */
  lemma QuotaAfterPut(w: World, sh: Shared, a: Action, c': Cache, h: Holding, h': Holding, k: Kind)
    requires ContentsValid(w, sh.cache) && WithinQuota(sh.cache, sh.settings, k)
    requires CacheEffect(sh.settings, sh.cache, a, c') && Moves(h, a, h')
    requires TargetAgrees(sh, h) && (h.claim.Some? ==> ClaimAgrees(sh, h.claim.value))
    requires a.PutSource? || a.PutResult?
    ensures WithinQuota(c', sh.settings, k)
  {
    ValidIsWellFormed(w, sh.cache);
    if a.PutSource? {
      QuotaAfterPublish(sh.cache, sh.settings, Source, a.path, a.src.id, a.entry, a.before, a.after, a.mishap, k);
    } else {
      QuotaAfterPublish(sh.cache, sh.settings, Result, a.path, a.res.id, a.entry, a.before, a.after, a.mishap, k);
    }
  }

  lemma QuotaAfterStaging(c: Cache, s: Settings, a: Action, c': Cache, k: Kind)
    requires CacheEffect(s, c, a, c') && WithinQuota(c, s, k) && WellFormed(c.Root(k))
    requires a.Stage? ==> a.path !in c.staging
    requires a.Stage? || a.Unstage? || a.Resv?
    ensures WithinQuota(c', s, k)
  {
    if a.Stage? {
      QuotaAfterStage(c, s, a.kind, a.path, k);
    } else if a.Unstage? {
      QuotaAfterDiscard(c, s, a.path, k);
    } else {
      QuotaAfterReserve(c, s, a.path, a.size, a.env, k);
    }
  }

  lemma QuotaAfterQuiet(c: Cache, s: Settings, a: Action, c': Cache, k: Kind)
    requires CacheEffect(s, c, a, c') && WithinQuota(c, s, k)
    requires a.Tau? || a.Unlease? || a.Name? || a.TryLock? || a.Unlock? || a.TakeSlot? || a.FreeSlot? ||
             a.Activate? || a.Deactivate? || a.Uuid? || a.ReadData?
    ensures WithinQuota(c', s, k)
  {
    assert c'.Root(k) == c.Root(k) && c'.staging == c.staging;
  }

  lemma StagePathIsNew(s: State, a: Action, s': State)
    requires StagingCounted(s) && TableEffect(s.sh, a, s'.sh)
    ensures a.Stage? ==> a.path !in s.sh.cache.staging
  {
  }

  lemma QuotaAfterEffect(w: World, c: Cache, s: Settings, a: Action, c': Cache, k: Kind)
    requires ContentsValid(w, c) && CacheEffect(s, c, a, c') && WithinQuota(c, s, k)
    requires !a.PutSource? && !a.PutResult? && (a.Stage? ==> a.path !in c.staging)
    ensures WithinQuota(c', s, k)
  {
    if a.LeaseSrc? || a.LeaseRes? || a.LookSrc? || a.LookKey? || a.Drop? {
      QuotaAfterLookup(c, s, a, c', k);
    } else if a.Stage? || a.Unstage? || a.Resv? {
      ValidIsWellFormed(w, c);
      QuotaAfterStaging(c, s, a, c', k);
    } else {
      QuotaAfterQuiet(c, s, a, c', k);
    }
  }

  lemma QuotaKeptByPut(w: World, s: State, t: Tid, a: Action, p: Pc, s': State, k: Kind)
    requires ContentsValid(w, s.sh.cache) && StagingCounted(s) && TargetsAgree(s) && (a.PutSource? || a.PutResult?)
    requires WithinQuota(s.sh.cache, s.sh.settings, k) && ThreadStep(w, s, t, a, p, s')
    ensures WithinQuota(s'.sh.cache, s.sh.settings, k)
  {
    TransitionMoves(w, s.sh.settings, s.threads[t], a, p);
    QuotaAfterPut(w, s.sh, a, s'.sh.cache, HoldingOf(s.threads[t]), HoldingOf(p), k);
  }

  lemma QuotaKept(w: World, s: State, t: Tid, a: Action, p: Pc, s': State, k: Kind)
    requires ContentsValid(w, s.sh.cache) && StagingCounted(s) && TargetsAgree(s)
    requires WithinQuota(s.sh.cache, s.sh.settings, k) && ThreadStep(w, s, t, a, p, s')
    ensures WithinQuota(s'.sh.cache, s'.sh.settings, k)
  {
    SettingsStay(s.sh, a, s'.sh);
    if a.PutSource? || a.PutResult? {
      QuotaKeptByPut(w, s, t, a, p, s', k);
    } else {
      StagePathIsNew(s, a, s');
      QuotaAfterEffect(w, s.sh.cache, s.sh.settings, a, s'.sh.cache, k);
    }
  }
}
