/** What holds between the states of a run: bindings, leases, purges, reports; and in each of its
    states: quotas, exact reservations, exits. */
module ServiceHistory {
  import opened Basics
  import opened Model
  import opened CacheSpec
  import opened CleanupTheorems
  import opened CacheInvariants
  import opened Service
  import opened ServiceInvariants
  import opened ServiceSafety
  import opened ServiceRuns
  import opened ServiceTheorems

  // ---- one step ----

  function ActionOf(l: Label): Action { if l.Do? then l.a else Tau }

  ghost predicate BothEvolve(c: Cache, a: Action, c': Cache) {
    forall k: Kind :: RootEvolves(c.Root(k), c.leases, a, k, c'.Root(k))
  }

  lemma EnvEvolves(s: State, l: Label, s': State)
    requires EnvStep(s, l, s')
    ensures BothEvolve(s.sh.cache, Tau, s'.sh.cache)
  {
    match l {
      case Spawn(t, p) =>
      case CleanUp(k, env) => CleanupIsTame(s.sh.cache, k, MaxBytes(s.sh.settings, k), {}, env);
      case PurgeBy(sel, dryRun) => PurgeIsTame(s.sh.cache, sel, dryRun);
      case PeekSource(id, now) => GetSourceIsTame(s.sh.cache, s.sh.settings, id, now, true);
      case PeekResult(id, now) => GetResultIsTame(s.sh.cache, s.sh.settings, id, now, true);
      case Collect(name) =>
    }
  }

  lemma StepEvolves(w: World, s: State, l: Label, s': State)
    requires Step(w, s, l, s') && !l.Restart?
    ensures BothEvolve(s.sh.cache, ActionOf(l), s'.sh.cache)
  {
    if l.Do? {
      EffectEvolves(s.sh.settings, s.sh.cache, l.a, s'.sh.cache);
    } else {
      EnvEvolves(s, l, s');
    }
  }

  lemma StepBinds(w: World, s: State, l: Label, s': State, k: Kind, id: Id)
    requires Step(w, s, l, s') && !l.Restart? && id in s.sh.cache.Root(k) && id in s'.sh.cache.Root(k)
    ensures SameContent(s.sh.cache.Root(k)[id], s'.sh.cache.Root(k)[id])
  {
    StepEvolves(w, s, l, s');
  }

  /** A run's step, with what is known before it. */
  lemma StepAt(w: World, states: seq<State>, labels: seq<Label>, i: nat)
    requires Sound(w) && IsRun(w, states, labels) && i < |labels|
    ensures Step(w, states[i], labels[i], states[i + 1]) && Invariant(w, states[i])
  {
    InvariantAlways(w, states, labels, i);
    assert Steps(w)(states[i], labels[i], states[i + 1]);
  }

  // ---- bindings ----

  /** An entry of one state is in another, with the same record, files and extra bytes. */
  ghost predicate Persists(s: State, s': State, k: Kind, id: Id) {
    && id in s.sh.cache.Root(k) && id in s'.sh.cache.Root(k)
    && SameContent(s.sh.cache.Root(k)[id], s'.sh.cache.Root(k)[id])
  }

  lemma BindsOn(w: World, first: State, s: State, l: Label, s': State, k: Kind, id: Id)
    requires Step(w, s, l, s') && !l.Restart? && Persists(first, s, k, id) && id in s'.sh.cache.Root(k)
    ensures Persists(first, s', k, id)
  {
    StepBinds(w, s, l, s', k, id);
  }

  /** A binding is immutable: while an id stays committed in one life of the process, its record
      (format, size, digests, shape) and its files never change. */
  lemma BindingIsImmutable(w: World, states: seq<State>, labels: seq<Label>, i: nat, j: nat, k: Kind, id: Id)
    requires Sound(w) && IsRun(w, states, labels) && i <= j < |states|
    requires forall m :: i <= m <= j ==> id in states[m].sh.cache.Root(k)
    requires forall m :: i <= m < j ==> !labels[m].Restart?
    ensures states[j].sh.cache.Root(k)[id].manifest.record == states[i].sh.cache.Root(k)[id].manifest.record
    ensures states[j].sh.cache.Root(k)[id].files == states[i].sh.cache.Root(k)[id].files
  {
    forall m: nat | i <= m < j && Persists(states[i], states[m], k, id)
      ensures Persists(states[i], states[m + 1], k, id)
    {
      assert Steps(w)(states[m], labels[m], states[m + 1]);
      BindsOn(w, states[i], states[m], labels[m], states[m + 1], k, id);
    }
    PersistsOn(states, i, j, k, id);
  }

  lemma PersistsOn(states: seq<State>, i: nat, j: nat, k: Kind, id: Id)
    requires i <= j < |states| && Persists(states[i], states[i], k, id)
    requires forall m: nat :: i <= m < j && Persists(states[i], states[m], k, id) ==>
      Persists(states[i], states[m + 1], k, id)
    ensures Persists(states[i], states[j], k, id)
  {
    Stays((m: nat) => m < |states| && Persists(states[i], states[m], k, id), i, j);
  }

  /** A cached source resolves exactly when ingesting the same declaration would answer reused,
      with the same record; a live entry that does not match makes ingestion a conflict. */
  lemma ResolveIffReused(w: World, c: Cache, s: Settings, u: Upload, lock: LockId, now: Time)
    requires ContentsValid(w, c)
    ensures var (c1, resolved) := ResolveSource(c, s, u.scope, u.ref, u.format, u.declared, u.expected, now);
      var (c2, found) := GetSource(c, s, SourceIdOf(u), now, true);
      var next := AfterLook(s, u, lock, found);
      && c1 == c2 && !resolved.BadStamp?
      && (resolved.Found? <==> next.IUnlock? && next.out.Reused?)
      && (resolved.Found? ==> next.out == Reused(resolved.record))
      && (next.IUnlock? && next.out.Conflict? <==> SourceIdOf(u) in c2.sources && resolved.Missing?)
  {
    MissingIsAbsent(w, c, s, SourceIdOf(u), now);
  }

  // ---- leases ----

  ghost predicate LeasedThrough(states: seq<State>, labels: seq<Label>, i: nat, j: nat, id: Id)
    requires |states| == |labels| + 1 && i <= j < |states|
  {
    forall m :: i <= m < j ==> states[m].sh.cache.Leased(id) && !labels[m].Restart?
  }

  lemma LeasedKept(w: World, first: State, s: State, l: Label, s': State, k: Kind, id: Id)
    requires Step(w, s, l, s') && !l.Restart? && Persists(first, s, k, id) && s.sh.cache.Leased(id)
    ensures Persists(first, s', k, id)
  {
    StepEvolves(w, s, l, s');
  }

  lemma EntryIsWellFormed(w: World, s: State, k: Kind, id: Id)
    requires Invariant(w, s) && id in s.sh.cache.Root(k)
    ensures !Malformed(s.sh.cache.Root(k)[id])
  {
    ValidIsWellFormed(w, s.sh.cache);
  }

  /** Between acquiring a lease and releasing it no step of anybody removes the entry, changes
      its record or files, or spoils its manifest. */
  lemma LeasedEntryStays(w: World, states: seq<State>, labels: seq<Label>, i: nat, j: nat, k: Kind, id: Id)
    requires Sound(w) && IsRun(w, states, labels) && i <= j < |states|
    requires id in states[i].sh.cache.Root(k) && LeasedThrough(states, labels, i, j, id)
    ensures id in states[j].sh.cache.Root(k)
    ensures var e, e' := states[i].sh.cache.Root(k)[id], states[j].sh.cache.Root(k)[id];
      e'.manifest.record == e.manifest.record && e'.files == e.files && e'.payload == e.payload && !Malformed(e')
  {
    forall m: nat | i <= m < j && Persists(states[i], states[m], k, id)
      ensures Persists(states[i], states[m + 1], k, id)
    {
      assert Steps(w)(states[m], labels[m], states[m + 1]);
      LeasedKept(w, states[i], states[m], labels[m], states[m + 1], k, id);
    }
    PersistsOn(states, i, j, k, id);
    InvariantAlways(w, states, labels, j);
    EntryIsWellFormed(w, states[j], k, id);
  }

  /** Whatever is leased is committed. */
  lemma LeasedIsCommitted(w: World, states: seq<State>, labels: seq<Label>, i: nat, id: Id)
    requires Sound(w) && IsRun(w, states, labels) && i < |states| && states[i].sh.cache.Leased(id)
    ensures id in states[i].sh.cache.sources || id in states[i].sh.cache.results
  {
    InvariantAlways(w, states, labels, i);
    var s := states[i];
    assert Count(s.threads, Leases(id)) > 0;
    if forall t :: t in s.threads ==> !Leases(id)(s.threads[t]) {
      NobodyCounts(s.threads, Leases(id));
      assert false;
    }
    var t :| t in s.threads && Leases(id)(s.threads[t]);
    LessorIsRight(w, s, t, id);
  }

  lemma LessorIsRight(w: World, s: State, t: Tid, id: Id)
    requires FactsHold(w, s) && t in s.threads && Leases(id)(s.threads[t])
    ensures id in s.sh.cache.sources || id in s.sh.cache.results
  {
    assert Fact(w, s.sh.settings, s.sh.cache, s.threads[t]);
    if s.threads[t].Q? {
      LesseeBelieves(s.threads[t].q);
    } else if s.threads[t].D? {
      assert (s.threads[t].d.DSend? || s.threads[t].d.DLost?) && s.threads[t].d.id == id;
    } else {
      OthersLeaseNothing(s.threads[t]);
    }
  }

  lemma OthersLeaseNothing(p: Pc)
    requires p.I? || p.U?
    ensures HoldingOf(p).lease.None?
  {
  }

  lemma LesseeBelieves(p: QueryPc)
    ensures HoldingOfQuery(p).lease.Some? ==>
      BeliefOf(p).src.Some? && HoldingOfQuery(p).lease == Some(BeliefOf(p).src.value.q.source)
  {
  }

  // ---- purges ----

  ghost predicate Unnamed(c: Cache, sid: Id) {
    forall r :: r in c.results ==> c.results[r].manifest.source != Some(sid)
  }

  lemma PurgedIsUnnamed(c: Cache, sel: Selector, sid: Id)
    requires sid in SelectedSources(c, sel) && Purge(c, sel, false).1.busy == {}
    ensures sid !in Purge(c, sel, false).0.sources && Unnamed(Purge(c, sel, false).0, sid)
  {
  }

  /** An applied purge that selects a source and is not refused because of a lease. */
  ghost predicate Purges(s: State, l: Label, sid: Id) {
    && l.PurgeBy? && !l.dryRun
    && sid in SelectedSources(s.sh.cache, l.sel) && Purge(s.sh.cache, l.sel, false).1.busy == {}
  }

  lemma PurgeUnnames(w: World, s: State, l: Label, s': State, sid: Id)
    requires Step(w, s, l, s') && Purges(s, l, sid)
    ensures Unnamed(s'.sh.cache, sid) && sid !in s'.sh.cache.sources
  {
    PurgedIsUnnamed(s.sh.cache, l.sel, sid);
  }

  lemma PublishesOwn(w: World, s: Settings, p: QueryPc, a: Action, p': QueryPc)
    requires Transition(w, s, Q(p), a, Q(p')) && a.PutResult?
    ensures BeliefOf(p).src.Some? && a.entry.manifest.source == Some(BeliefOf(p).src.value.src.id)
  {
    assert ExecuteTransition(w, s, p, a, p');
  }

  lemma SubjectPresent(w: World, s: Settings, c: Cache, p: QueryPc)
    requires ContentsValid(w, c) && Fact(w, s, c, Q(p)) && BeliefOf(p).src.Some?
    ensures BeliefOf(p).src.value.src.id in c.sources
  {
    var q := BeliefOf(p).src.value.q;
    assert ValidSource(w, q.source, c.sources[q.source]);
  }

  /** A result can only be published under the name of a source that is committed. */
  lemma CommitNamesPresent(w: World, s: State, t: Tid, a: Action, p: Pc, s': State)
    requires ContentsValid(w, s.sh.cache) && FactsHold(w, s) && ThreadStep(w, s, t, a, p, s') && a.PutResult?
    ensures a.entry.manifest.source.Some? && a.entry.manifest.source.value in s.sh.cache.sources
  {
    PublishesOwn(w, s.sh.settings, s.threads[t].q, a, p.q);
    SubjectPresent(w, s.sh.settings, s.sh.cache, s.threads[t].q);
  }

  lemma UnnamedKept(w: World, s: State, l: Label, s': State, sid: Id)
    requires Invariant(w, s) && Step(w, s, l, s') && !l.Restart?
    requires Unnamed(s.sh.cache, sid) && sid !in s.sh.cache.sources
    ensures Unnamed(s'.sh.cache, sid)
  {
    StepEvolves(w, s, l, s');
    assert RootEvolves(s.sh.cache.Root(Result), s.sh.cache.leases, ActionOf(l), Result, s'.sh.cache.Root(Result));
    if l.Do? && l.a.PutResult? {
      CommitNamesPresent(w, s, l.t, l.a, l.p, s');
    }
  }

  ghost predicate AbsentThrough(states: seq<State>, labels: seq<Label>, i: nat, j: nat, sid: Id)
    requires |states| == |labels| + 1 && i <= j < |states|
  {
    forall m :: i <= m < j ==> sid !in states[m].sh.cache.sources && !labels[m].Restart?
  }

  lemma UnnamedStays(w: World, states: seq<State>, labels: seq<Label>, i: nat, j: nat, sid: Id)
    requires Sound(w) && IsRun(w, states, labels) && i <= j < |states|
    requires AbsentThrough(states, labels, i, j, sid) && Unnamed(states[i].sh.cache, sid)
    ensures Unnamed(states[j].sh.cache, sid)
  {
    forall m: nat | i <= m < j && Unnamed(states[m].sh.cache, sid) ensures Unnamed(states[m + 1].sh.cache, sid) {
      StepAt(w, states, labels, m);
      UnnamedKept(w, states[m], labels[m], states[m + 1], sid);
    }
    UnnamedLasts(states, i, j, sid);
  }

  lemma UnnamedLasts(states: seq<State>, i: nat, j: nat, sid: Id)
    requires i <= j < |states| && Unnamed(states[i].sh.cache, sid)
    requires forall m: nat :: i <= m < j && Unnamed(states[m].sh.cache, sid) ==> Unnamed(states[m + 1].sh.cache, sid)
    ensures Unnamed(states[j].sh.cache, sid)
  {
    Stays((m: nat) => m < |states| && Unnamed(states[m].sh.cache, sid), i, j);
  }

  /** A purge is final: once it has removed a source, no result names that source until it is
      ingested again, whatever queries were in flight. (Removals are not synchronised to the
      disk: a restart can bring entries back, so the statement is about one process.) */
  lemma PurgeIsFinal(w: World, states: seq<State>, labels: seq<Label>, i: nat, j: nat, sid: Id)
    requires Sound(w) && IsRun(w, states, labels) && i < j < |states|
    requires Purges(states[i], labels[i], sid)
    requires AbsentThrough(states, labels, i + 1, j, sid)
    ensures Unnamed(states[j].sh.cache, sid)
  {
    assert Steps(w)(states[i], labels[i], states[i + 1]);
    PurgeUnnames(w, states[i], labels[i], states[i + 1], sid);
    UnnamedStays(w, states, labels, i + 1, j, sid);
  }

  // ---- quotas and reservations in reachable states ----

  /** In every reachable state, committed bytes plus what is reserved for directories under tmp stay
      within the maximum of their kind, but for the 14 bytes that the stamps of a touched entry may
      gain. */
  lemma QuotaAlways(w: World, states: seq<State>, labels: seq<Label>, i: nat, k: Kind)
    requires Sound(w) && IsRun(w, states, labels) && i < |states|
    ensures var c := states[i].sh.cache;
      Total(c.Root(k)) + StagedHere(c.staging, k) <= MaxBytes(states[i].sh.settings, k) + 14 * |c.Root(k)|
  {
    InvariantAlways(w, states, labels, i);
    ValidIsWellFormed(w, states[i].sh.cache);
    QuotaInBytes(states[i].sh.cache, states[i].sh.settings, k);
  }

  /** Between a commit that raised after the rename and its discard. */
  predicate Doubling(p: Pc, staging: map<Path, Area>, k: Kind) {
    var claim := HoldingOf(p).claim;
    && claim.Some? && claim.value.live && claim.value.moved && claim.value.kind == k
    && claim.value.path in staging && staging[claim.value.path].reserved > 0
  }

  lemma MovedAreaHasThread(s: State, path: Path) returns (t: Tid)
    requires StagingCounted(s) && path in s.sh.cache.staging
    ensures t in s.threads && HoldingOf(s.threads[t]).claim.Some? && HoldingOf(s.threads[t]).claim.value.path == path
    ensures HoldingOf(s.threads[t]).claim.value.live && ClaimAgrees(s.sh, HoldingOf(s.threads[t]).claim.value)
  {
    if forall u :: u in s.threads ==> !Claims(path)(s.threads[u]) {
      NobodyCounts(s.threads, Claims(path));
      assert false;
    }
    t :| t in s.threads && Claims(path)(s.threads[t]);
  }

  /** reserve's own count of staged bytes is the bytes staged, except exactly while a thread stands
      between a commit that raised after the rename and the discard of its area: those count twice. */
  lemma CountsTwiceIff(w: World, states: seq<State>, labels: seq<Label>, i: nat, k: Kind)
    requires Sound(w) && IsRun(w, states, labels) && i < |states|
    ensures Staged(states[i].sh.cache.staging, k) == StagedHere(states[i].sh.cache.staging, k) <==>
      forall t :: t in states[i].threads ==> !Doubling(states[i].threads[t], states[i].sh.cache.staging, k)
  {
    InvariantAlways(w, states, labels, i);
    DoublingIsMoved(states[i], k);
    CountedTwiceIff(states[i].sh.cache.staging, k);
  }

  lemma DoublingIsMoved(s: State, k: Kind)
    requires StagingCounted(s)
    ensures (forall t :: t in s.threads ==> !Doubling(s.threads[t], s.sh.cache.staging, k)) <==>
      forall p :: p in s.sh.cache.staging && s.sh.cache.staging[p].kind == k && s.sh.cache.staging[p].moved ==>
          s.sh.cache.staging[p].reserved == 0
  {
    var staging := s.sh.cache.staging;
    if p :| p in staging && staging[p].kind == k && staging[p].moved && staging[p].reserved > 0 {
      var t := MovedAreaHasThread(s, p);
      assert Doubling(s.threads[t], staging, k);
    }
    if t :| t in s.threads && Doubling(s.threads[t], staging, k) {
      assert ClaimAgrees(s.sh, HoldingOf(s.threads[t]).claim.value);
      var p := HoldingOf(s.threads[t]).claim.value.path;
      assert p in staging && staging[p].moved && staging[p].kind == k && staging[p].reserved > 0;
    }
  }

  /** A purge by scope in a reachable state leaves no result of the scope exactly when each names a
      source still committed. */
  lemma ScopePurgeAlways(w: World, states: seq<State>, labels: seq<Label>, i: nat, scope: Text)
    requires Sound(w) && IsRun(w, states, labels) && i < |states|
    requires Purge(states[i].sh.cache, ByScope(scope), false).1.busy == {}
    ensures var c := states[i].sh.cache; var c' := Purge(c, ByScope(scope), false).0;
      (forall r :: r in c'.results ==> !NamesScope(c'.results[r], scope)) <==>
      (forall r :: r in c.results && NamesScope(c.results[r], scope) ==>
       scope != [] && c.results[r].manifest.source.value in c.sources)
  {
    InvariantAlways(w, states, labels, i);
    SourcesNameScopes(w, states[i].sh.cache);
    ScopePurgeFinality(states[i].sh.cache, scope);
  }

  lemma SourcesNameScopes(w: World, c: Cache)
    requires ContentsValid(w, c)
    ensures forall id :: id in c.sources ==> id.SrcId? && c.sources[id].manifest.scope == Some(id.scope)
  {
    forall id | id in c.sources ensures id.SrcId? && c.sources[id].manifest.scope == Some(id.scope) {
      assert ValidSource(w, id, c.sources[id]);
    }
  }

  lemma InvariantIsOrderly(w: World, s: State)
    requires Invariant(w, s)
    ensures LeasesPositive(s.sh.cache) && s.sh.next !in s.sh.cache.staging
    ensures forall k: Kind :: LeasedWellFormed(s.sh.cache, k)
  {
    ValidIsWellFormed(w, s.sh.cache);
  }

  /** In every reachable state a reservation is granted exactly when the leased bytes, the other
      staging areas of its kind and the request fit together and the volume has the room. */
  lemma ReserveExactAlways(w: World, states: seq<State>, labels: seq<Label>, i: nat, path: Path, size: nat, env: Env)
    requires Sound(w) && IsRun(w, states, labels) && i < |states|
    requires path in states[i].sh.cache.staging
    requires Enumerates(env.listing, states[i].sh.cache.Root(states[i].sh.cache.staging[path].kind))
    ensures var c, s := states[i].sh.cache, states[i].sh.settings;
      var Area(k, held, _) := c.staging[path];
      Verdict(c, s, path, size, env) == Reserved <==>
        Pinned(c, k) + Others(c, path) + size <= MaxBytes(s, k) && size - held <= env.free
  {
    InvariantAlways(w, states, labels, i);
    InvariantIsOrderly(w, states[i]);
    ReserveExact(states[i].sh.cache, states[i].sh.settings, path, size, env);
  }

  /** In every reachable state the worker is ready exactly when a new staging area of either kind
      would be granted its first byte on a volume with room. */
  lemma ReadinessIsExact(w: World, states: seq<State>, labels: seq<Label>, i: nat)
    requires Sound(w) && IsRun(w, states, labels) && i < |states|
    ensures var c, s, unused := states[i].sh.cache, states[i].sh.settings, states[i].sh.next;
      HasCapacity(c, s) <==>
        forall k: Kind, env: Env :: Enumerates(env.listing, c.Root(k)) && env.free > 0 ==>
          Verdict(StagingPath(c, k, unused), s, unused, 1, env) == Reserved
  {
    InvariantAlways(w, states, labels, i);
    InvariantIsOrderly(w, states[i]);
    HasCapacityExact(states[i].sh.cache, states[i].sh.settings, states[i].sh.next);
  }

  // ---- reports ----

  function ReportOf(p: Pc): Option<Outcome> {
    match p
    case Q(q) =>
      (match q
       case QDiscard(_, _, _, out) => Some(out)
       case QDeactivate(_, out) => Some(out)
       case QFree(_, out) => Some(out)
       case QUnlock(_, _, _, out) => Some(out)
       case QRelease(_, _, out) => Some(out)
       case QDone(out) => Some(out)
       case _ => None)
    case I(i) =>
      (match i
       case IDiscard(_, _, _, _, out) => Some(out)
       case IUnlock(_, _, out) => Some(out)
       case IFree(_, out) => Some(out)
       case IDone(out) => Some(out)
       case _ => None)
    case _ => None
  }

  // What a commit that was carried out must be reported as.
  function ReportOfCommit(a: Action): Option<Outcome> {
    if a.PutSource? && a.sput.Committed? then Some(Created(a.src))
    else if a.PutResult? && a.rput.Committed? then Some(Ran(a.res))
    else if a.PutSource? && a.sput.HalfDone? then Some(LeftBehind(a.src.id))
    else if a.PutResult? && a.rput.HalfDone? then Some(LeftBehind(a.res.id))
    else None
  }

  predicate ClaimsCommit(out: Option<Outcome>) {
    out.Some? && (out.value.Created? || out.value.Ran? || out.value.LeftBehind?)
  }

  /** What a thread says it published is what it published: a report of a new source or result is
      made by the step that commits it and never changes. A thread that fails has committed nothing,
      unless its commit raised after the rename: exactly then it has left its entry behind. */
  lemma ReportsAreHonest(w: World, states: seq<State>, labels: seq<Label>, i: nat)
    requires Sound(w) && IsRun(w, states, labels) && i < |labels| && labels[i].Do?
    ensures labels[i].t in states[i].threads
    ensures var before, after := ReportOf(states[i].threads[labels[i].t]), ReportOf(labels[i].p);
      && (before.Some? ==> after == before && ReportOfCommit(labels[i].a).None?)
      && (before.None? && (ClaimsCommit(after) || ReportOfCommit(labels[i].a).Some?) ==>
          after == ReportOfCommit(labels[i].a))
  {
    StepAt(w, states, labels, i);
    var s, t, a, p := states[i], labels[i].t, labels[i].a, labels[i].p;
    NoDeadBranch(w, s, t, a, p, states[i + 1]);
    if s.threads[t].Q? {
      QueryReports(w, s.sh.settings, s.sh.cache, s.threads[t].q, a, p.q, states[i + 1].sh.cache);
    } else if s.threads[t].I? {
      IngestReports(w, s.sh.settings, s.sh.cache, s.threads[t].i, a, p.i, states[i + 1].sh.cache);
    }
  }

  predicate HonestStep(before: Option<Outcome>, a: Action, after: Option<Outcome>) {
    && (before.Some? ==> after == before && ReportOfCommit(a).None?)
    && (before.None? && (ClaimsCommit(after) || ReportOfCommit(a).Some?) ==> after == ReportOfCommit(a))
  }

  lemma SearchReports(w: World, s: Settings, p: QueryPc, a: Action, p': QueryPc)
    requires LookupTransition(w, s, p, a, p') || LockTransition(p, a, p') || AdmitTransition(p, a, p')
    ensures HonestStep(ReportOf(Q(p)), a, ReportOf(Q(p')))
  {
  }

  lemma ExecuteReports(w: World, s: Settings, c: Cache, p: QueryPc, a: Action, p': QueryPc, c': Cache)
    requires ExecuteTransition(w, s, p, a, p') && CacheEffect(s, c, a, c')
    requires a.PutResult? ==> !a.rput.Kept? && !a.rput.Lost?
    ensures HonestStep(ReportOf(Q(p)), a, ReportOf(Q(p')))
  {
  }

  lemma UnwindReports(p: QueryPc, a: Action, p': QueryPc)
    requires UnwindTransition(p, a, p')
    ensures HonestStep(ReportOf(Q(p)), a, ReportOf(Q(p')))
  {
  }

  lemma QueryReports(w: World, s: Settings, c: Cache, p: QueryPc, a: Action, p': QueryPc, c': Cache)
    requires Transition(w, s, Q(p), a, Q(p')) && CacheEffect(s, c, a, c')
    requires a.PutResult? ==> !a.rput.Kept? && !a.rput.Lost?
    ensures HonestStep(ReportOf(Q(p)), a, ReportOf(Q(p')))
  {
    if ExecuteTransition(w, s, p, a, p') {
      ExecuteReports(w, s, c, p, a, p', c');
    } else if UnwindTransition(p, a, p') {
      UnwindReports(p, a, p');
    } else {
      SearchReports(w, s, p, a, p');
    }
  }

  lemma AdmitReports(s: Settings, p: IngestPc, a: Action, p': IngestPc)
    requires IngestTransition(s, p, a, p')
    ensures HonestStep(ReportOf(I(p)), a, ReportOf(I(p')))
  {
  }

  lemma StoreReports(w: World, s: Settings, c: Cache, p: IngestPc, a: Action, p': IngestPc, c': Cache)
    requires StoreTransition(w, s, p, a, p') && CacheEffect(s, c, a, c')
    requires a.PutSource? ==> !a.sput.Kept? && !a.sput.Lost?
    ensures HonestStep(ReportOf(I(p)), a, ReportOf(I(p')))
  {
  }

  lemma IngestReports(w: World, s: Settings, c: Cache, p: IngestPc, a: Action, p': IngestPc, c': Cache)
    requires Transition(w, s, I(p), a, I(p')) && CacheEffect(s, c, a, c')
    requires a.PutSource? ==> !a.sput.Kept? && !a.sput.Lost?
    ensures HonestStep(ReportOf(I(p)), a, ReportOf(I(p')))
  {
    if IngestTransition(s, p, a, p') {
      AdmitReports(s, p, a, p');
    } else {
      StoreReports(w, s, c, p, a, p', c');
    }
  }
}
