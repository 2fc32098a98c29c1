/** What the service guarantees in every state of every run, restarts included. */
module ServiceTheorems {
  import opened Basics
  import opened Model
  import opened CacheSpec
  import opened CleanupTheorems
  import opened CacheInvariants
  import opened Rereading
  import opened Service
  import opened ServiceInvariants
  import opened ServiceSafety
  import opened ServiceRuns

  // ---- transparency ----

  /** What running the query now, on the source as it is committed now, would answer. */
  ghost function FreshRun(w: World, s: State, q: Query, src: SourceRecord): Answer
    requires q.source in s.sh.cache.sources && src.dataFile in s.sh.cache.sources[q.source].files
  {
    w.engine(s.sh.settings.runtime, s.sh.cache.sources[q.source].files[src.dataFile], src.format, q.request.sql,
             q.request.params)
  }

  /** The record describes an answer to the letter: columns, row count and preview, the length and the
      digest of its CSV bytes. */
  predicate Describes(r: ResultRecord, answer: Answer) {
    && r.shape == answer.shape
    && r.byteCount == |answer.csv|
    && r.execution.Some? && r.execution.value.resultSha256 == Some(Sha256(answer.csv))
  }

  predicate Reports(p: QueryPc, q: Query, src: SourceRecord, out: Outcome) {
    || (p.QUnlock? && p.q == q && p.src == src && p.out == out)
    || (p.QRelease? && p.q == q && p.src == src && p.out == out)
  }

  /** The result cache is transparent: in every reachable state, whatever was evicted, expired,
      purged, re-bound or recovered before, a hit describes what a fresh execution on the source now
      leased would produce, read back from a manifest: columns, row count, length and digest of the
      CSV are the same, and so is the preview, whose objects come back with their members sorted. It
      is the same to the letter exactly when the fresh preview's members are sorted already. */
  lemma CacheIsTransparent(w: World, states: seq<State>, labels: seq<Label>, i: nat, t: Tid,
                           q: Query, src: SourceRecord, r: ResultRecord)
    requires Sound(w) && IsRun(w, states, labels) && i < |states|
    requires t in states[i].threads && states[i].threads[t].Q?
    requires Reports(states[i].threads[t].q, q, src, Outcome.Hit(r))
    ensures q.source in states[i].sh.cache.sources
    ensures src.dataFile in states[i].sh.cache.sources[q.source].files
    ensures Describes(r, AsRead(FreshRun(w, states[i], q, src)))
    ensures Describes(r, FreshRun(w, states[i], q, src)) <==>
      SortedRows(FreshRun(w, states[i], q, src).shape.preview) == FreshRun(w, states[i], q, src).shape.preview
  {
    InvariantAlways(w, states, labels, i);
    HitIsFresh(w, states[i], t, q, src, r);
  }

  lemma HitIsFresh(w: World, s: State, t: Tid, q: Query, src: SourceRecord, r: ResultRecord)
    requires ContentsValid(w, s.sh.cache) && FactsHold(w, s) && t in s.threads
    requires s.threads[t].Q? && Reports(s.threads[t].q, q, src, Outcome.Hit(r))
    ensures q.source in s.sh.cache.sources && src.dataFile in s.sh.cache.sources[q.source].files
    ensures Describes(r, AsRead(FreshRun(w, s, q, src)))
  {
    ReportIsJustified(w, s.sh.settings, s.sh.cache, s.threads[t].q, q, src, r);
    assert ValidSource(w, q.source, s.sh.cache.sources[q.source]);
    FreshIsRight(w, s, q, src, r);
  }

  lemma ReportIsJustified(w: World, s: Settings, c: Cache, p: QueryPc, q: Query, src: SourceRecord, r: ResultRecord)
    requires Fact(w, s, c, Q(p)) && Reports(p, q, src, Outcome.Hit(r))
    ensures SrcAgrees(c, q, src) && HitAgrees(w, s, Subject(q, src), r)
  {
  }

  lemma FreshIsRight(w: World, s: State, q: Query, src: SourceRecord, r: ResultRecord)
    requires SrcAgrees(s.sh.cache, q, src) && ValidSource(w, q.source, s.sh.cache.sources[q.source])
    requires HitAgrees(w, s.sh.settings, Subject(q, src), r)
    ensures src.dataFile in s.sh.cache.sources[q.source].files && Describes(r, AsRead(FreshRun(w, s, q, src)))
  {
    var e := s.sh.cache.sources[q.source];
    var key := KeyOf(w, s.sh.settings.runtime, src, q.request);
    assert Stands(w, key, e.files[src.dataFile], q.request.sql);
    assert RunAs(w, key, e.files[src.dataFile], q.request.sql) == FreshRun(w, s, q, src);
  }

  /** A download of a keyed result serves, for as long as it lasts, the CSV bytes that every
      execution its key describes would write, under the digest and length it announced. */
  lemma DownloadsAreRight(w: World, states: seq<State>, labels: seq<Label>, i: nat, t: Tid, id: Id, r: ResultRecord,
                          data: Bytes, sql: Text)
    requires Sound(w) && IsRun(w, states, labels) && i < |states|
    requires t in states[i].threads && states[i].threads[t] == D(DSend(id, r))
    ensures id in states[i].sh.cache.results && r.resultFile in states[i].sh.cache.results[id].files
    ensures var csv := states[i].sh.cache.results[id].files[r.resultFile];
      && r.byteCount == |csv|
      && r.execution.Some? && r.execution.value.resultSha256 == Some(Sha256(csv))
      && (id.ResKey? && Stands(w, id.key, data, sql) ==> AsRead(RunAs(w, id.key, data, sql)) == Answer(r.shape, csv))
  {
    InvariantAlways(w, states, labels, i);
    var s := states[i];
    assert Fact(w, s.sh.settings, s.sh.cache, s.threads[t]);
    assert ValidResult(w, id, s.sh.cache.results[id]);
  }

  // ---- single flight ----

  /** A thread that has decided to execute a key and has not yet published or failed. */
  predicate Executes(p: Pc, key: QueryKey) { HoldingOf(p).target == Some(ResKey(key)) }

  predicate Ingests(p: Pc, id: Id) { IsSourceId(id) && HoldingOf(p).target == Some(id) }

  /** No two threads ever execute the same deterministic key or ingest the same source at once,
      although unreferenced locks may be collected at any time. */
  lemma SingleFlight(w: World, states: seq<State>, labels: seq<Label>, i: nat, t: Tid, u: Tid, key: QueryKey, id: Id)
    requires Sound(w) && IsRun(w, states, labels) && i < |states|
    requires t in states[i].threads && u in states[i].threads && t != u
    ensures !(Executes(states[i].threads[t], key) && Executes(states[i].threads[u], key))
    ensures !(Ingests(states[i].threads[t], id) && Ingests(states[i].threads[u], id))
    ensures Executes(states[i].threads[t], key) ==> ResKey(key) !in states[i].sh.cache.results
    ensures Ingests(states[i].threads[t], id) ==> id !in states[i].sh.cache.sources
  {
    InvariantAlways(w, states, labels, i);
    var s := states[i];
    assert TargetAgrees(s.sh, HoldingOf(s.threads[t]));
    assert !SameTarget(s.threads[t], s.threads[u]);
  }

  /** The branches for an existing target, a legacy record or an unreadable stamp never run. */
  lemma DeadBranches(w: World, states: seq<State>, labels: seq<Label>, i: nat)
    requires Sound(w) && IsRun(w, states, labels) && i < |labels| && labels[i].Do?
    ensures var a := labels[i].a;
      && (a.PutSource? ==> !a.sput.Kept? && !a.sput.Lost?)
      && (a.PutResult? ==> !a.rput.Kept? && !a.rput.Lost?)
      && (a.LookSrc? && IsSourceId(a.id) ==> !a.source.BadStamp?)
      && (a.LookKey? ==> !a.found.Legacy? && !a.found.Raised?)
  {
    InvariantAlways(w, states, labels, i);
    assert Step(w, states[i], labels[i], states[i + 1]);
    NoDeadBranch(w, states[i], labels[i].t, labels[i].a, labels[i].p, states[i + 1]);
  }

  lemma NoDeadBranch(w: World, s: State, t: Tid, a: Action, p: Pc, s': State)
    requires ContentsValid(w, s.sh.cache) && TargetsAgree(s) && ThreadStep(w, s, t, a, p, s')
    ensures a.PutSource? ==> !a.sput.Kept? && !a.sput.Lost?
    ensures a.PutResult? ==> !a.rput.Kept? && !a.rput.Lost?
    ensures a.LookSrc? && IsSourceId(a.id) ==> !a.source.BadStamp?
    ensures a.LookKey? ==> !a.found.Legacy? && !a.found.Raised?
  {
    TransitionMoves(w, s.sh.settings, s.threads[t], a, p);
    assert TargetAgrees(s.sh, HoldingOf(s.threads[t]));
    if a.LookSrc? && IsSourceId(a.id) {
      MissingIsAbsent(w, s.sh.cache, s.sh.settings, a.id, a.now);
    } else if a.LookKey? {
      KeyLookupIsRight(w, s.sh.cache, s.sh.settings, a.key, a.now);
    }
  }

  predicate Commits(l: Label, k: Kind, id: Id) { l.Do? && Publishes(l.a, k, id) }

  /** A commit publishes an entry that was absent and is there afterwards. */
  lemma CommitAppears(w: World, states: seq<State>, labels: seq<Label>, i: nat, k: Kind, id: Id)
    requires Sound(w) && IsRun(w, states, labels) && i < |labels| && Commits(labels[i], k, id)
    ensures id !in states[i].sh.cache.Root(k) && id in states[i + 1].sh.cache.Root(k)
  {
    InvariantAlways(w, states, labels, i);
    assert Step(w, states[i], labels[i], states[i + 1]);
    PutAppears(w, states[i], labels[i].t, labels[i].a, labels[i].p, states[i + 1], k, id);
  }

  lemma PutAppears(w: World, s: State, t: Tid, a: Action, p: Pc, s': State, k: Kind, id: Id)
    requires TargetsAgree(s) && ThreadStep(w, s, t, a, p, s') && Publishes(a, k, id)
    ensures id !in s.sh.cache.Root(k) && id in s'.sh.cache.Root(k)
  {
    TransitionMoves(w, s.sh.settings, s.threads[t], a, p);
    assert TargetAgrees(s.sh, HoldingOf(s.threads[t]));
    PublishIsTame(s.sh.cache, s.sh.settings, k, a.path, id, a.entry, a.before, a.after, a.mishap);
  }

  /** Two commits of one id are separated by a step that removes the entry of the first. */
  lemma CommitsAreSeparated(w: World, states: seq<State>, labels: seq<Label>, i: nat, j: nat, k: Kind, id: Id)
    returns (m: nat)
    requires Sound(w) && IsRun(w, states, labels) && i < j < |labels|
    requires Commits(labels[i], k, id) && Commits(labels[j], k, id)
    ensures i < m < j && id in states[m].sh.cache.Root(k) && id !in states[m + 1].sh.cache.Root(k)
  {
    CommitAppears(w, states, labels, i, k, id);
    CommitAppears(w, states, labels, j, k, id);
    m := EndsBetween(states, i + 1, j, k, id);
  }

  lemma EndsBetween(states: seq<State>, i: nat, j: nat, k: Kind, id: Id) returns (m: nat)
    requires i <= j < |states| && id in states[i].sh.cache.Root(k) && id !in states[j].sh.cache.Root(k)
    ensures i <= m < j && id in states[m].sh.cache.Root(k) && id !in states[m + 1].sh.cache.Root(k)
  {
    m := WhereItEnds((n: nat) => n < |states| && id in states[n].sh.cache.Root(k), i, j);
  }

  // ---- conservation ----

  /** In every reachable state the lease table, the locks, the slots, the active counter and the
      staging areas are exactly what the threads hold, and no slot count exceeds its limit. */
  lemma ResourcesAreConserved(w: World, states: seq<State>, labels: seq<Label>, i: nat)
    requires Sound(w) && IsRun(w, states, labels) && i < |states|
    ensures forall id :: LeaseCount(states[i].sh.cache.leases, id) == Count(states[i].threads, Leases(id))
    ensures forall lock :: Count(states[i].threads, Holds(lock)) == if lock in states[i].sh.held then 1 else 0
    ensures forall sem: Semaphore ::
      states[i].sh.Taken(sem) == Count(states[i].threads, Slot(sem)) &&
          states[i].sh.Taken(sem) <= states[i].sh.Slots(sem)
    ensures states[i].sh.active == Count(states[i].threads, Active())
    ensures forall path :: Count(states[i].threads, Claims(path)) == if path in states[i].sh.cache.staging then 1 else 0
  {
    InvariantAlways(w, states, labels, i);
  }

  predicate Idle(p: Pc) { HoldingOf(p) == Nothing() }

  lemma NobodyCounts(threads: map<Tid, Pc>, p: Pc -> bool)
    requires forall t :: t in threads ==> !p(threads[t])
    ensures Count(threads, p) == 0
  {
    assert Where(threads, p) == {};
  }

  /** When no operation and no download is in progress everything is back to its initial value,
      whichever exceptions occurred before. */
  lemma QuietIsInitial(w: World, states: seq<State>, labels: seq<Label>, i: nat)
    requires Sound(w) && IsRun(w, states, labels) && i < |states|
    requires forall t :: t in states[i].threads ==> Idle(states[i].threads[t])
    ensures states[i].sh.cache.leases == map[] && states[i].sh.cache.staging == map[] && states[i].sh.held == {}
    ensures forall sem: Semaphore :: states[i].sh.Taken(sem) == 0
    ensures states[i].sh.active == 0
  {
    InvariantAlways(w, states, labels, i);
    QuietHoldsNothing(states[i]);
  }

  lemma QuietHoldsNothing(s: State)
    requires LeasesCounted(s) && LocksCounted(s) && SlotsCounted(s) && StagingCounted(s)
    requires forall t :: t in s.threads ==> Idle(s.threads[t])
    ensures s.sh.cache.leases == map[] && s.sh.cache.staging == map[] && s.sh.held == {}
    ensures forall sem: Semaphore :: s.sh.Taken(sem) == 0
    ensures s.sh.active == 0
  {
    forall id ensures id !in s.sh.cache.leases { NobodyCounts(s.threads, Leases(id)); }
    forall lock ensures lock !in s.sh.held { NobodyCounts(s.threads, Holds(lock)); }
    forall sem: Semaphore ensures s.sh.Taken(sem) == 0 { NobodyCounts(s.threads, Slot(sem)); }
    forall path ensures path !in s.sh.cache.staging { NobodyCounts(s.threads, Claims(path)); }
    NobodyCounts(s.threads, Active());
  }
}
