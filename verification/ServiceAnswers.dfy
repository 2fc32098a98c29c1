/** Who is served, admitted and locked out: what the steps of a run answer, told of entries, leases, slots and locks. */
module ServiceAnswers {
  import opened Basics
  import opened Model
  import opened CacheSpec
  import opened CleanupTheorems
  import opened CacheInvariants
  import opened Rereading
  import opened Service
  import opened ServiceInvariants
  import opened ServiceSafety
  import opened ServiceRuns
  import opened ServiceTheorems
  import opened ServiceHistory

  // ---- the steps of a run ----

  /** Step i of a run leads from s to s'. */
  ghost predicate StepOf(w: World, states: seq<State>, labels: seq<Label>, i: nat, s: State, l: Label, s': State) {
    IsRun(w, states, labels) && i < |labels| && s == states[i] && l == labels[i] && s' == states[i + 1]
  }

  /** In step i of a run thread t, which is at p, takes the action and is then at p'. */
  ghost predicate Takes(w: World, states: seq<State>, labels: seq<Label>, i: nat, s: State, t: Tid, p: Pc, a: Action,
                        p': Pc, s': State)
  {
    StepOf(w, states, labels, i, s, Do(t, a, p'), s') && t in s.threads && s.threads[t] == p
  }

  lemma TakenAt(w: World, states: seq<State>, labels: seq<Label>, i: nat, s: State, t: Tid, p: Pc, a: Action, p': Pc,
                s': State)
    requires Sound(w) && Takes(w, states, labels, i, s, t, p, a, p', s')
    ensures Invariant(w, s) && Transition(w, s.sh.settings, p, a, p') && Effect(s.sh, a, s'.sh)
  {
    StepAt(w, states, labels, i);
  }

  // ---- lookups ----

  function StoredSource(c: Cache, id: Id): SourceRecord
    requires id in c.sources && Readable(c.sources[id], Source)
  {
    c.sources[id].manifest.record.value.source
  }

  function StoredResult(c: Cache, id: Id): ResultRecord
    requires id in c.results && Readable(c.results[id], Result)
  {
    c.results[id].manifest.record.value.result
  }

  /** Before either of its two lookups, of the cache before its lock and under it, a query has nothing to report. */
  predicate LooksUp(p: Pc, key: QueryKey) { p.Q? && (p.q.QLook1? || p.q.QLook2?) && p.q.key == key }

  /** The stored result, which has this key and provenance, is reported if it can be served; if not, there is
      nothing to report yet. */
  predicate HitServed(c: Cache, key: QueryKey, a: Action, p': Pc) {
    && a.LookKey? && a.key == key
    && if Servable(c, Result, ResKey(key), a.now) then
         var r := StoredResult(c, ResKey(key));
         ReportOf(p') == Some(Outcome.Hit(r)) && r.queryKey == Some(key) && r.execution.Some?
       else ReportOf(p').None?
  }

  /** A query that looks its key up is answered with the stored result if and only if that can be served. */
  lemma HitIsServed(w: World, states: seq<State>, labels: seq<Label>, i: nat, s: State, t: Tid, p: Pc, a: Action,
                    p': Pc, s': State, key: QueryKey)
    requires Sound(w) && Takes(w, states, labels, i, s, t, p, a, p', s') && LooksUp(p, key)
    ensures HitServed(s.sh.cache, key, a, p')
  {
    TakenAt(w, states, labels, i, s, t, p, a, p', s');
    KeyIsAnswered(w, s.sh.settings, p, a, p', key);
    KeyFoundIff(w, s.sh.settings, s.sh.cache, a, s'.sh.cache);
  }

  lemma KeyIsAnswered(w: World, s: Settings, p: Pc, a: Action, p': Pc, key: QueryKey)
    requires Transition(w, s, p, a, p') && LooksUp(p, key)
    ensures a.LookKey? && a.key == key
    ensures a.found.Hit? ==> ReportOf(p') == Some(Outcome.Hit(a.found.record))
    ensures a.found.NoHit? ==> ReportOf(p').None?
  {
  }

  lemma KeyFoundIff(w: World, s: Settings, c: Cache, a: Action, c': Cache)
    requires ContentsValid(w, c) && CacheEffect(s, c, a, c') && a.LookKey?
    ensures var id := ResKey(a.key);
      if Servable(c, Result, id, a.now) then
        && a.found == KeyLookup.Hit(StoredResult(c, id))
        && StoredResult(c, id).queryKey == Some(a.key) && StoredResult(c, id).execution.Some?
      else a.found.NoHit?
  {
    ResultLookupExact(c, s, ResKey(a.key), a.now, true);
    KeyLookupIsRight(w, c, s, a.key, a.now);
    if ResKey(a.key) in c.results { assert ValidResult(w, ResKey(a.key), c.results[ResKey(a.key)]); }
  }

  predicate LeaseServed(c: Cache, q: Query, a: Action, p': Pc) {
    && a.LeaseSrc? && a.id == q.source
    && p' == if Servable(c, Source, q.source, a.now) then Q(QLeased(q, StoredSource(c, q.source))) else Q(QDone(Failed))
  }

  /** A query begins with the record of its source if that can be served, and else fails at once. */
  lemma LeaseIsServed(w: World, states: seq<State>, labels: seq<Label>, i: nat, s: State, t: Tid, q: Query, a: Action,
                      p': Pc, s': State)
    requires Sound(w) && Takes(w, states, labels, i, s, t, Q(QStart(q)), a, p', s')
    ensures LeaseServed(s.sh.cache, q, a, p')
  {
    TakenAt(w, states, labels, i, s, t, Q(QStart(q)), a, p', s');
    SourceServed(s.sh.cache, s.sh.settings, q.source, a.now, true);
  }

  predicate DownloadServed(c: Cache, id: Id, a: Action, p': Pc) {
    && a.LeaseRes? && a.id == id
    && if Servable(c, Result, id, a.now)
       then p' == D(DSend(id, StoredResult(c, id))) || p' == D(DLost(id, StoredResult(c, id))) else p' == D(DDone)
  }

  /** A download is sent the stored result if that can be served, and else ends at once. */
  lemma DownloadIsServed(w: World, states: seq<State>, labels: seq<Label>, i: nat, s: State, t: Tid, id: Id, a: Action,
                         p': Pc, s': State)
    requires Sound(w) && Takes(w, states, labels, i, s, t, D(DStart(id)), a, p', s')
    ensures DownloadServed(s.sh.cache, id, a, p')
  {
    TakenAt(w, states, labels, i, s, t, D(DStart(id)), a, p', s');
    ResultServed(s.sh.cache, s.sh.settings, id, a.now, true);
  }

  /** The stored record if the declaration agrees with it, and a conflict if not; if there is nothing to serve,
      nothing yet, unless the upload is declared too large. */
  predicate UploadAnswered(c: Cache, s: Settings, u: Upload, a: Action, p': Pc) {
    var id := SrcId(u.scope, u.ref);
    && a.LookSrc? && a.id == id
    && ReportOf(p') ==
       if Servable(c, Source, id, a.now) then
         var r := StoredSource(c, id);
         if r.format == u.format && r.size == u.declared && (u.expected == Some(r.sha256) || u.expected == None)
         then Some(Reused(r)) else Some(Conflict)
       else if u.declared > s.maxSourceBytes then Some(Failed)
       else None
  }

  /** An upload is answered at its lookup if and only if its source can be served or it is too large. */
  lemma UploadIsAnswered(w: World, states: seq<State>, labels: seq<Label>, i: nat, s: State, t: Tid, u: Upload,
                         lock: LockId, a: Action, p': Pc, s': State)
    requires Sound(w) && Takes(w, states, labels, i, s, t, I(ILook(u, lock)), a, p', s')
    ensures UploadAnswered(s.sh.cache, s.sh.settings, u, a, p')
  {
    TakenAt(w, states, labels, i, s, t, I(ILook(u, lock)), a, p', s');
    LookIsAnswered(w, s.sh.settings, u, lock, a, p');
    SourceFoundIff(w, s.sh.cache, s.sh.settings, a.id, a.now);
  }

  lemma SourceFoundIff(w: World, c: Cache, s: Settings, id: Id, now: Time)
    requires ContentsValid(w, c) && IsSourceId(id)
    ensures GetSource(c, s, id, now, true).1 ==
      if Servable(c, Source, id, now) then Found(StoredSource(c, id)) else Missing
  {
    SourceLookupExact(c, s, id, now, true);
    MissingIsAbsent(w, c, s, id, now);
  }

  lemma LookIsAnswered(w: World, s: Settings, u: Upload, lock: LockId, a: Action, p': Pc)
    requires Transition(w, s, I(ILook(u, lock)), a, p')
    ensures a.LookSrc? && a.id == SrcId(u.scope, u.ref)
    ensures ReportOf(p') ==
      match a.source
      case Found(r) =>
        if r.format == u.format && r.size == u.declared && (u.expected == Some(r.sha256) || u.expected == None)
        then Some(Reused(r)) else Some(Conflict)
      case Missing => if u.declared > s.maxSourceBytes then Some(Failed) else None
      case BadStamp => Some(Failed)
  {
  }

  // ---- how a query is named ----

  function JobOf(p: Pc): Option<Job> {
    if !p.Q? then None
    else
      match p.q
      case QAdmit(j) => Some(j)
      case QActivate(j) => Some(j)
      case QStage(j) => Some(j)
      case QRun(j, _) => Some(j)
      case QCommit(j, _, _) => Some(j)
      case QDiscard(j, _, _, _) => Some(j)
      case QDeactivate(j, _) => Some(j)
      case QFree(j, _) => Some(j)
      case _ => None
  }

  // A UUID names a query only if it is not deterministic.
  predicate TicketRight(w: World, p: Pc) {
    match JobOf(p)
    case Some(Job(q, src, Bypass(_))) => !w.deterministic(q.request.sql, src.format)
    case _ => true
  }

  lemma TicketChosen(w: World, s: Settings, p: QueryPc, a: Action, p': QueryPc)
    requires LookupTransition(w, s, p, a, p') || LockTransition(p, a, p')
    ensures TicketRight(w, Q(p'))
  {
  }

  lemma JobStays(w: World, s: Settings, p: QueryPc, a: Action, p': QueryPc)
    requires AdmitTransition(p, a, p') || ExecuteTransition(w, s, p, a, p') || UnwindTransition(p, a, p')
    ensures JobOf(Q(p')).None? || JobOf(Q(p')) == JobOf(Q(p))
  {
  }

  lemma TicketKept(w: World, s: Settings, p: Pc, a: Action, p': Pc)
    requires Transition(w, s, p, a, p') && TicketRight(w, p)
    ensures TicketRight(w, p')
  {
    if p.Q? {
      if LookupTransition(w, s, p.q, a, p'.q) || LockTransition(p.q, a, p'.q) {
        TicketChosen(w, s, p.q, a, p'.q);
      } else {
        JobStays(w, s, p.q, a, p'.q);
      }
    }
  }

  ghost function Ticketed(w: World): State -> bool {
    (s: State) => forall t :: t in s.threads ==> TicketRight(w, s.threads[t])
  }

  lemma TicketsKept(w: World)
    ensures Preserves(Steps(w), Ticketed(w))
  {
    forall s, l, s' | Ticketed(w)(s) && Steps(w)(s, l, s') ensures Ticketed(w)(s') {
      if l.Do? { TicketKept(w, s.sh.settings, s.threads[l.t], l.a, l.p); }
    }
  }

  /** What is executed is named by its key if and only if it is deterministic: it is then the key of this source
      and request, and no deterministic query gets past the cache. */
  lemma KeyedIff(w: World, states: seq<State>, labels: seq<Label>, i: nat, t: Tid, j: Job)
    requires Sound(w) && IsRun(w, states, labels) && i < |states|
    requires t in states[i].threads && JobOf(states[i].threads[t]) == Some(j)
    ensures j.ticket.Keyed? <==> w.deterministic(j.q.request.sql, j.src.format)
    ensures j.ticket.Keyed? ==> j.ticket.key == KeyOf(w, states[i].sh.settings.runtime, j.src, j.q.request)
  {
    InvariantAlways(w, states, labels, i);
    TicketsKept(w);
    PathKeeps(states, labels, Steps(w), Ticketed(w), i);
    JobIsJustified(w, states[i], t, j);
    assert TicketRight(w, states[i].threads[t]);
  }

  lemma JobIsJustified(w: World, s: State, t: Tid, j: Job)
    requires FactsHold(w, s) && t in s.threads && JobOf(s.threads[t]) == Some(j)
    ensures j.ticket.Keyed? ==> KeyAgrees(w, s.sh.settings, j.q, j.src, j.ticket.key)
  {
    assert Fact(w, s.sh.settings, s.sh.cache, s.threads[t]);
  }

  // ---- executions ----

  /** The report is of a result of this source, named by its ticket, and describes the engine's answer to the
      letter; the answer to a deterministic query is that of a fresh execution now, as a manifest gives it back. */
  ghost predicate RanRight(w: World, s: State, j: Job, answer: Answer, r: ResultRecord, p': Pc) {
    && ReportOf(p') == Some(Ran(r)) && Describes(r, answer) && r.source == j.q.source
    && r.id == (if j.ticket.Keyed? then ResKey(j.ticket.key) else ResUuid(j.ticket.uuid))
    && j.q.source in s.sh.cache.sources && j.src.dataFile in s.sh.cache.sources[j.q.source].files
    && (w.deterministic(j.q.request.sql, j.src.format) ==> AsRead(answer) == AsRead(FreshRun(w, s, j.q, j.src)))
  }

  /** What a query reports as published is right. */
  lemma RanIsRight(w: World, states: seq<State>, labels: seq<Label>, i: nat, s: State, t: Tid, j: Job, path: Path,
                   answer: Answer, a: Action, r: ResultRecord, p': Pc, s': State)
    requires Sound(w) && Takes(w, states, labels, i, s, t, Q(QCommit(j, path, answer)), a, p', s')
    requires a.PutResult? && a.rput == Committed(r)
    ensures RanRight(w, s, j, answer, r, p')
  {
    TakenAt(w, states, labels, i, s, t, Q(QCommit(j, path, answer)), a, p', s');
    ReportsOwn(w, s.sh.settings, s.sh.cache, j, path, answer, a, p', s'.sh.cache);
    KeyedIff(w, states, labels, i, t, j);
    AnswerIsRight(w, s, t, j, path, answer, p');
  }

  lemma AnswerIsRight(w: World, s: State, t: Tid, j: Job, path: Path, answer: Answer, p': Pc)
    requires ContentsValid(w, s.sh.cache) && FactsHold(w, s) && t in s.threads
    requires s.threads[t] == Q(QCommit(j, path, answer))
    requires j.ticket.Keyed? <==> w.deterministic(j.q.request.sql, j.src.format)
    requires ReportOf(p') == Some(Ran(ResultRecordOf(j, answer)))
    ensures RanRight(w, s, j, answer, ResultRecordOf(j, answer), p')
  {
    AnswerIsFresh(w, s, t, j, path, answer);
  }

  lemma ReportsOwn(w: World, s: Settings, c: Cache, j: Job, path: Path, answer: Answer, a: Action, p': Pc, c': Cache)
    requires Transition(w, s, Q(QCommit(j, path, answer)), a, p') && CacheEffect(s, c, a, c')
    requires a.PutResult? && a.rput.Committed?
    ensures ReportOf(p') == Some(Ran(ResultRecordOf(j, answer))) && a.rput.record == ResultRecordOf(j, answer)
  {
    CommitIsExecution(w, s, j, path, answer, a, p');
    CommitReports(w, s, j, path, answer, a, p'.q);
    CommittedIsOwn(s, c, a, c');
  }

  lemma CommittedIsOwn(s: Settings, c: Cache, a: Action, c': Cache)
    requires CacheEffect(s, c, a, c') && a.PutResult? && a.rput.Committed?
    ensures a.rput.record == a.res
  {
  }

  lemma CommitReports(w: World, s: Settings, j: Job, path: Path, answer: Answer, a: Action, p': QueryPc)
    requires ExecuteTransition(w, s, QCommit(j, path, answer), a, p') && a.PutResult? && a.rput.Committed?
    ensures ReportOf(Q(p')) == Some(Ran(a.rput.record)) && a.res == ResultRecordOf(j, answer)
  {
  }

  lemma CommitIsExecution(w: World, s: Settings, j: Job, path: Path, answer: Answer, a: Action, p': Pc)
    requires Transition(w, s, Q(QCommit(j, path, answer)), a, p')
    ensures p'.Q? && ExecuteTransition(w, s, QCommit(j, path, answer), a, p'.q)
  {
  }

  lemma SubjectIsSource(w: World, s: State, t: Tid, j: Job, path: Path, answer: Answer)
    requires ContentsValid(w, s.sh.cache) && FactsHold(w, s) && t in s.threads
    requires s.threads[t] == Q(QCommit(j, path, answer))
    ensures SrcAgrees(s.sh.cache, j.q, j.src) && j.src.id == j.q.source
    ensures ValidSource(w, j.q.source, s.sh.cache.sources[j.q.source])
  {
    assert Fact(w, s.sh.settings, s.sh.cache, s.threads[t]);
    assert SrcAgrees(s.sh.cache, j.q, j.src);
    assert ValidSource(w, j.q.source, s.sh.cache.sources[j.q.source]);
  }

  lemma AnswerIsFresh(w: World, s: State, t: Tid, j: Job, path: Path, answer: Answer)
    requires ContentsValid(w, s.sh.cache) && FactsHold(w, s) && t in s.threads
    requires s.threads[t] == Q(QCommit(j, path, answer))
    requires j.ticket.Keyed? <==> w.deterministic(j.q.request.sql, j.src.format)
    ensures var c := s.sh.cache;
      && j.src.id == j.q.source && j.q.source in c.sources && j.src.dataFile in c.sources[j.q.source].files
      && (j.ticket.Keyed? ==> AsRead(answer) == AsRead(FreshRun(w, s, j.q, j.src)))
  {
    SubjectIsSource(w, s, t, j, path, answer);
    if j.ticket.Keyed? {
      assert Fact(w, s.sh.settings, s.sh.cache, s.threads[t]);
      var data := s.sh.cache.sources[j.q.source].files[j.src.dataFile];
      assert Stands(w, j.ticket.key, data, j.q.request.sql);
      assert RunAs(w, j.ticket.key, data, j.q.request.sql) == FreshRun(w, s, j.q, j.src);
    }
  }

  // ---- admission ----

  function Limit(s: Settings, sem: Semaphore): nat {
    match sem case QuerySlots => s.maxQueries case IngestSlots => s.maxIngestions case UploadSlots => s.maxIngestions
  }

  /** A request is admitted if and only if fewer threads than the limit hold a slot of its kind, and then it holds
      one itself. */
  lemma AdmittedIff(w: World, states: seq<State>, labels: seq<Label>, i: nat, s: State, t: Tid, p: Pc, sem: Semaphore,
                    got: bool, p': Pc, s': State)
    requires Sound(w) && Takes(w, states, labels, i, s, t, p, TakeSlot(sem, got), p', s')
    ensures got <==> Count(s.threads, Slot(sem)) < Limit(s.sh.settings, sem)
    ensures HoldingOf(p).slot.None? && HoldingOf(p').slot == if got then Some(sem) else None
  {
    TakenAt(w, states, labels, i, s, t, p, TakeSlot(sem, got), p', s');
    TransitionMoves(w, s.sh.settings, p, TakeSlot(sem, got), p');
    assert s.sh.Taken(sem) == Count(s.threads, Slot(sem));
  }

  ghost predicate Unlocked(threads: map<Tid, Pc>, lock: LockId) {
    forall u :: u in threads ==> LockOf(HoldingOf(threads[u])) != Some(lock)
  }

  /** A lock is taken if and only if nobody has it; whoever finds it taken fails at once and holds nothing by it. */
  lemma LockedIff(w: World, states: seq<State>, labels: seq<Label>, i: nat, s: State, t: Tid, p: Pc, lock: LockId,
                  got: bool, p': Pc, s': State)
    requires Sound(w) && Takes(w, states, labels, i, s, t, p, TryLock(lock, got), p', s')
    ensures got <==> Unlocked(s.threads, lock)
    ensures LockOf(HoldingOf(p')) == (if got then Some(lock) else None)
    ensures ReportOf(p') == if got then None else Some(Failed)
  {
    TakenAt(w, states, labels, i, s, t, p, TryLock(lock, got), p', s');
    HeldIff(s, lock);
    TryIsReported(w, s.sh.settings, p, TryLock(lock, got), p');
  }

  lemma TryIsReported(w: World, s: Settings, p: Pc, a: Action, p': Pc)
    requires Transition(w, s, p, a, p') && a.TryLock?
    ensures LockOf(HoldingOf(p')) == (if a.got then Some(a.lock) else None)
    ensures ReportOf(p') == if a.got then None else Some(Failed)
  {
    TransitionMoves(w, s, p, a, p');
  }

  lemma HeldIff(s: State, lock: LockId)
    requires LocksCounted(s)
    ensures lock !in s.sh.held <==> Unlocked(s.threads, lock)
  {
    if lock in s.sh.held {
      var holders := Where(s.threads, Holds(lock));
      assert |holders| == 1;
      var u :| u in holders;
    } else {
      forall u | u in s.threads ensures LockOf(HoldingOf(s.threads[u])) != Some(lock) {
        if Holds(lock)(s.threads[u]) {
          CountAtLeastOne(s.threads, u, Holds(lock));
          assert false;
        }
      }
    }
  }

  // ---- cleanups nobody asked for ----

  /** The cleaner's pass over a root makes room down to the maximum, and only that. */
  lemma CleanerMakesRoom(w: World, states: seq<State>, labels: seq<Label>, i: nat, s: State, k: Kind, env: Env,
                         s': State)
    requires Sound(w) && StepOf(w, states, labels, i, s, CleanUp(k, env), s')
    requires Covers(env.listing, s.sh.cache.Root(k))
    ensures RoomMade(s.sh.cache, k, {}, MaxBytes(s.sh.settings, k), env.now, s'.sh.cache.Root(k))
    ensures SameOther(s.sh.cache, k, s'.sh.cache)
  {
    StepAt(w, states, labels, i);
    CleanupMakesRoom(s.sh.cache, k, MaxBytes(s.sh.settings, k), {}, env);
    CleanupFrame(s.sh.cache, k, MaxBytes(s.sh.settings, k), {}, env);
  }

  /** So does a start, in both roots, on what recovery has kept. */
  lemma StartMakesRoom(w: World, states: seq<State>, labels: seq<Label>, i: nat, s: State, settings: Settings,
                       disk: Cache, first: Env, second: Env, s': State)
    requires Sound(w) && StepOf(w, states, labels, i, s, Restart(settings, disk, first, second), s')
    ensures var kept, c := Recover(disk.(leases := map[], staging := map[])), s'.sh.cache;
      && RoomMade(kept, Source, {}, settings.sourceMaxBytes, first.now, c.sources)
      && RoomMade(kept, Result, {}, settings.resultMaxBytes, second.now, c.results)
      && c.leases == map[] && c.staging == map[]
  {
    StepAt(w, states, labels, i);
    var kept := Recover(disk.(leases := map[], staging := map[]));
    var c1 := Cleanup(kept, Source, settings.sourceMaxBytes, {}, first);
    CleanupMakesRoom(kept, Source, settings.sourceMaxBytes, {}, first);
    CleanupFrame(kept, Source, settings.sourceMaxBytes, {}, first);
    CleanupMakesRoom(c1, Result, settings.resultMaxBytes, {}, second);
    CleanupFrame(c1, Result, settings.resultMaxBytes, {}, second);
    SameRoom(kept, c1, Result, settings.resultMaxBytes, second.now, s'.sh.cache.results);
  }

  lemma SameRoom(c: Cache, c1: Cache, k: Kind, limit: int, now: Time, m: map<Id, Entry>)
    requires RoomMade(c1, k, {}, limit, now, m) && c1.Root(k) == c.Root(k) && c1.leases == c.leases
    ensures RoomMade(c, k, {}, limit, now, m)
  {
  }
}
