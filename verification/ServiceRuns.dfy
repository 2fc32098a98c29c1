/** Runs of the service, restarts included, and the theorems that hold in all of them. */
module ServiceRuns {
  import opened Basics
  import opened Model
  import opened CacheSpec
  import opened CleanupTheorems
  import opened CacheInvariants
  import opened Service
  import opened ServiceInvariants
  import opened ServiceSafety

  /** What the disk may hold when the process comes back: anything, provided that what passes the
      recovery checks was once published here. Entries may have gone, and others that were removed
      may be back. */
  ghost predicate DiskAfter(w: World, s: State, disk: Cache) {
    && (forall id :: id in disk.sources && Recoverable(Source, id, disk.sources[id]) ==>
        ValidSource(w, id, disk.sources[id]))
    && (forall id :: id in disk.results && Recoverable(Result, id, disk.results[id]) ==>
        ValidResult(w, id, disk.results[id]))
    && (forall n: nat :: ResUuid(n) in disk.results ==> n < s.sh.next)
  }

  ghost predicate Restarts(w: World, s: State, settings: Settings, disk: Cache, first: Env, second: Env, s': State) {
    DiskAfter(w, s, disk) && StartsFrom(s, settings, disk, first, second, s')
  }

  /** A new process on what the disk holds; nothing else is left of the old one. */
  ghost predicate StartsFrom(s: State, settings: Settings, disk: Cache, first: Env, second: Env, s': State) {
    && Enumerates(first.listing, RecoverRoot(Source, disk.sources))
    && Enumerates(second.listing, RecoverRoot(Result, disk.results))
    && s' == State(Shared(settings, Prepared(settings, disk, first, second), map[], {}, 0, 0, 0, 0, s.sh.next), map[])
  }

  ghost predicate Step(w: World, s: State, l: Label, s': State) {
    match l
    case Do(t, a, p) => ThreadStep(w, s, t, a, p, s')
    case Restart(settings, disk, first, second) => Restarts(w, s, settings, disk, first, second, s')
    case _ => EnvStep(s, l, s')
  }

  ghost predicate Init(s: State) {
    s == State(Shared(s.sh.settings, Cache(map[], map[], map[], map[]), map[], {}, 0, 0, 0, 0, 0), map[])
  }

  ghost predicate Invariant(w: World, s: State) {
    && LeasesCounted(s) && LocksCounted(s) && SlotsCounted(s) && StagingCounted(s)
    && TableAgrees(s) && TargetsAgree(s)
    && ContentsValid(w, s.sh.cache) && FactsHold(w, s) && QuotasHold(s)
  }

  // ---- steps of threads ----

  lemma ThreadStepKeeps(w: World, s: State, t: Tid, a: Action, p: Pc, s': State)
    requires Sound(w) && Invariant(w, s) && ThreadStep(w, s, t, a, p, s')
    ensures Invariant(w, s')
  {
    LeasesConserved(w, s, t, a, p, s');
    LocksConserved(w, s, t, a, p, s');
    SlotsConserved(w, s, t, a, p, s');
    StagingConserved(w, s, t, a, p, s');
    TableKept(w, s, t, a, p, s');
    TargetsKept(w, s, t, a, p, s');
    ContentsKept(w, s, t, a, p, s');
    FactsKept(w, s, t, a, p, s');
    forall k: Kind ensures WithinQuota(s'.sh.cache, s'.sh.settings, k) {
      QuotaKept(w, s, t, a, p, s', k);
    }
  }

  // ---- steps of nobody ----

  /** A tame change of the cache, by whomever, keeps the invariant. */
  lemma TameStepKeeps(w: World, s: State, c': Cache)
    requires Invariant(w, s) && Tame(s.sh.cache, c') && c'.staging == s.sh.cache.staging
    ensures Invariant(w, s.(sh := s.sh.(cache := c')))
  {
    var s' := s.(sh := s.sh.(cache := c'));
    TameContents(w, s, c');
    TameFacts(w, s, c');
    TameTargets(s, c');
    forall k: Kind ensures WithinQuota(c', s.sh.settings, k) {
      QuotaKeptByTame(s.sh.cache, c', s.sh.settings, k);
    }
    TameCounts(s, c');
  }

  lemma TameCounts(s: State, c': Cache)
    requires c'.leases == s.sh.cache.leases && c'.staging == s.sh.cache.staging
    requires LeasesCounted(s) && SlotsCounted(s) && StagingCounted(s)
    ensures var s' := s.(sh := s.sh.(cache := c')); LeasesCounted(s') && SlotsCounted(s') && StagingCounted(s')
  {
    var s' := s.(sh := s.sh.(cache := c'));
    forall t | t in s'.threads && HoldingOf(s'.threads[t]).claim.Some?
      ensures ClaimAgrees(s'.sh, HoldingOf(s'.threads[t]).claim.value)
    {
      assert ClaimAgrees(s.sh, HoldingOf(s.threads[t]).claim.value);
    }
  }

  lemma TameContents(w: World, s: State, c': Cache)
    requires ContentsValid(w, s.sh.cache) && Tame(s.sh.cache, c')
    ensures ContentsValid(w, c')
  {
    forall id | id in c'.sources ensures ValidSource(w, id, c'.sources[id]) {
      ValidKept(w, id, s.sh.cache.sources[id], c'.sources[id]);
    }
    forall id | id in c'.results ensures ValidResult(w, id, c'.results[id]) {
      ValidKept(w, id, s.sh.cache.results[id], c'.results[id]);
    }
  }

  lemma TameFacts(w: World, s: State, c': Cache)
    requires FactsHold(w, s) && LeasesCounted(s) && Tame(s.sh.cache, c') && c'.staging == s.sh.cache.staging
    ensures FactsHold(w, s.(sh := s.sh.(cache := c')))
  {
    TameEvolves(s.sh.cache, Tau, c');
    OldFactsKept(w, s, Tau, c');
  }

  lemma TameTargets(s: State, c': Cache)
    requires TargetsAgree(s) && Tame(s.sh.cache, c')
    ensures TargetsAgree(s.(sh := s.sh.(cache := c')))
  {
    var s' := s.(sh := s.sh.(cache := c'));
    forall t | t in s'.threads ensures TargetAgrees(s'.sh, HoldingOf(s'.threads[t])) {
      assert TargetAgrees(s.sh, HoldingOf(s.threads[t]));
    }
  }

  lemma SpawnKeeps(w: World, s: State, t: Tid, p: Pc)
    requires Invariant(w, s) && t !in s.threads && IsStart(p)
    ensures Invariant(w, s.(threads := s.threads[t := p]))
  {
    var s' := s.(threads := s.threads[t := p]);
    assert HoldingOf(p) == Nothing();
    forall id
      ensures Count(s'.threads, Leases(id)) == Count(s.threads, Leases(id))
    {
      CountInsert(s.threads, t, p, Leases(id));
    }
    forall lock
      ensures Count(s'.threads, Holds(lock)) == Count(s.threads, Holds(lock))
    {
      CountInsert(s.threads, t, p, Holds(lock));
    }
    forall sem: Semaphore
      ensures Count(s'.threads, Slot(sem)) == Count(s.threads, Slot(sem))
    {
      CountInsert(s.threads, t, p, Slot(sem));
    }
    forall path
      ensures Count(s'.threads, Claims(path)) == Count(s.threads, Claims(path))
    {
      CountInsert(s.threads, t, p, Claims(path));
    }
    CountInsert(s.threads, t, p, Active());
  }

  lemma CollectKeeps(w: World, s: State, name: LockName)
    requires Invariant(w, s) && Collectable(s, name)
    ensures Invariant(w, s.(sh := s.sh.(table := s.sh.table - {name})))
  {
  }

  // ---- restarts ----

  lemma RecoveredIsValid(w: World, s: State, disk: Cache)
    requires DiskAfter(w, s, disk)
    ensures ContentsValid(w, Recover(disk.(leases := map[], staging := map[])))
  {
  }

  lemma PreparedIsTame(settings: Settings, disk: Cache, first: Env, second: Env)
    ensures var c := Recover(disk.(leases := map[], staging := map[]));
      && Tame(c, Prepared(settings, disk, first, second))
      && Prepared(settings, disk, first, second).leases == map[]
      && Prepared(settings, disk, first, second).staging == map[]
  {
    var c := Recover(disk.(leases := map[], staging := map[]));
    var c1 := Cleanup(c, Source, settings.sourceMaxBytes, {}, first);
    CleanupIsTame(c, Source, settings.sourceMaxBytes, {}, first);
    CleanupIsTame(c1, Result, settings.resultMaxBytes, {}, second);
    TameTransitive(c, c1, Cleanup(c1, Result, settings.resultMaxBytes, {}, second));
  }

  /** Starting up evicts down to the quotas, whatever the previous process's quotas were. */
  lemma CleanedFits(c: Cache, s: Settings, k: Kind, env: Env)
    requires c.leases == map[] && c.staging == map[] && Enumerates(env.listing, c.Root(k)) && WellFormed(c.Root(k))
    ensures var c' := Cleanup(c, k, MaxBytes(s, k), {}, env); WithinQuota(c', s, k) && WellFormed(c'.Root(k))
  {
    var c' := Cleanup(c, k, MaxBytes(s, k), {}, env);
    CleanupTotal(c, k, MaxBytes(s, k), env);
    CleanupFrame(c, k, MaxBytes(s, k), {}, env);
    assert PinnedRoot(c, k) == map[];
    TotalAboveFloor(c'.Root(k));
  }

  lemma PreparedFits(w: World, settings: Settings, disk: Cache, first: Env, second: Env)
    requires ContentsValid(w, Recover(disk.(leases := map[], staging := map[])))
    requires Enumerates(first.listing, RecoverRoot(Source, disk.sources))
    requires Enumerates(second.listing, RecoverRoot(Result, disk.results))
    ensures forall k: Kind :: WithinQuota(Prepared(settings, disk, first, second), settings, k)
  {
    var c := Recover(disk.(leases := map[], staging := map[]));
    var c1 := Cleanup(c, Source, settings.sourceMaxBytes, {}, first);
    var c2 := Cleanup(c1, Result, settings.resultMaxBytes, {}, second);
    ValidIsWellFormed(w, c);
    assert c.Root(Source) == RecoverRoot(Source, disk.sources) && c.Root(Result) == RecoverRoot(Result, disk.results);
    CleanedFits(c, settings, Source, first);
    CleanupFrame(c, Source, settings.sourceMaxBytes, {}, first);
    assert c1.Root(Result) == c.Root(Result);
    CleanedFits(c1, settings, Result, second);
    OtherRootFits(c1, settings, second);
  }

  lemma OtherRootFits(c: Cache, s: Settings, env: Env)
    requires WithinQuota(c, s, Source)
    ensures WithinQuota(Cleanup(c, Result, s.resultMaxBytes, {}, env), s, Source)
  {
    CleanupFrame(c, Result, s.resultMaxBytes, {}, env);
    assert Cleanup(c, Result, s.resultMaxBytes, {}, env).Root(Source) == c.Root(Source);
  }

  lemma NoThreads<V>(p: V -> bool)
    ensures Count<Tid, V>(map[], p) == 0
  {
    assert Where<Tid, V>(map[], p) == {};
  }

  lemma RestartKeeps(w: World, s: State, settings: Settings, disk: Cache, first: Env, second: Env, s': State)
    requires Restarts(w, s, settings, disk, first, second, s')
    ensures Invariant(w, s')
  {
    RecoveredIsValid(w, s, disk);
    PreparedIsTame(settings, disk, first, second);
    PreparedFits(w, settings, disk, first, second);
    var c := Recover(disk.(leases := map[], staging := map[]));
    TameContents(w, State(s'.sh.(cache := c), map[]), s'.sh.cache);
    IdleIsCounted(s');
  }

  lemma IdleIsCounted(s: State)
    requires s.threads == map[] && s.sh.cache.leases == map[] && s.sh.cache.staging == map[] && s.sh.held == {}
    requires s.sh.queries == s.sh.ingestions == s.sh.uploads == s.sh.active == 0
    ensures LeasesCounted(s) && LocksCounted(s) && SlotsCounted(s) && StagingCounted(s)
  {
    forall id ensures Count(s.threads, Leases(id)) == 0 { NoThreads(Leases(id)); }
    forall lock ensures Count(s.threads, Holds(lock)) == 0 { NoThreads(Holds(lock)); }
    forall sem: Semaphore ensures Count(s.threads, Slot(sem)) == 0 { NoThreads(Slot(sem)); }
    forall path ensures Count(s.threads, Claims(path)) == 0 { NoThreads(Claims(path)); }
    NoThreads(Active());
  }

  // ---- all runs ----

  lemma StepKeeps(w: World, s: State, l: Label, s': State)
    requires Sound(w) && Invariant(w, s) && Step(w, s, l, s')
    ensures Invariant(w, s')
  {
    match l {
      case Do(t, a, p) => ThreadStepKeeps(w, s, t, a, p, s');
      case Spawn(t, p) => SpawnKeeps(w, s, t, p);
      case CleanUp(k, env) =>
        CleanupIsTame(s.sh.cache, k, MaxBytes(s.sh.settings, k), {}, env);
        TameStepKeeps(w, s, s'.sh.cache);
      case PurgeBy(sel, dryRun) =>
        PurgeIsTame(s.sh.cache, sel, dryRun);
        TameStepKeeps(w, s, s'.sh.cache);
      case PeekSource(id, now) =>
        GetSourceIsTame(s.sh.cache, s.sh.settings, id, now, true);
        TameStepKeeps(w, s, s'.sh.cache);
      case PeekResult(id, now) =>
        GetResultIsTame(s.sh.cache, s.sh.settings, id, now, true);
        TameStepKeeps(w, s, s'.sh.cache);
      case Collect(name) => CollectKeeps(w, s, name);
      case Restart(settings, disk, first, second) => RestartKeeps(w, s, settings, disk, first, second, s');
    }
  }

  lemma InitHolds(w: World, s: State)
    requires Init(s)
    ensures Invariant(w, s)
  {
    IdleIsCounted(s);
    assert forall k: Kind :: s.sh.cache.Root(k) == map[];
  }

  /** A finite run: states joined by steps, starting from a process that has never run. */
  ghost predicate IsRun(w: World, states: seq<State>, labels: seq<Label>) {
    && IsPath(states, labels, Steps(w))
    && Init(states[0])
  }

  ghost function Steps(w: World): (State, Label, State) -> bool { (s, l, s') => Step(w, s, l, s') }

  ghost function Safe(w: World): State -> bool { s => Invariant(w, s) }

  lemma StepsKeep(w: World)
    requires Sound(w)
    ensures Preserves(Steps(w), Safe(w))
  {
    forall s, l, s' | Safe(w)(s) && Steps(w)(s, l, s') ensures Safe(w)(s') {
      StepKeeps(w, s, l, s');
    }
  }

  /** The invariant holds in every state of every run. */
  lemma InvariantAlways(w: World, states: seq<State>, labels: seq<Label>, i: nat)
    requires Sound(w) && IsRun(w, states, labels) && i < |states|
    ensures Invariant(w, states[i])
  {
    InitHolds(w, states[0]);
    StepsKeep(w);
    PathKeeps(states, labels, Steps(w), Safe(w), i);
  }
}
