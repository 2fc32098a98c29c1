/** The invariant of the service and its preservation by every step. */
module ServiceInvariants {
  import opened Basics
  import opened Model
  import opened CacheSpec
  import opened CleanupTheorems
  import opened CacheInvariants
  import opened Service

  // ---- resources: what threads hold is what the shared state counts ----

  function Leases(id: Id): Pc -> bool { p => HoldingOf(p).lease == Some(id) }
  function Holds(lock: LockId): Pc -> bool { p => LockOf(HoldingOf(p)) == Some(lock) }
  function Slot(sem: Semaphore): Pc -> bool { p => HoldingOf(p).slot == Some(sem) }
  function Active(): Pc -> bool { p => HoldingOf(p).active }
  function Claims(path: Path): Pc -> bool {
    p => HoldingOf(p).claim.Some? && HoldingOf(p).claim.value.path == path && HoldingOf(p).claim.value.live
  }


  /** A lease count is the number of threads that hold the lease. */
  ghost predicate LeasesCounted(s: State) {
    && LeasesPositive(s.sh.cache)
    && forall id :: LeaseCount(s.sh.cache.leases, id) == Count(s.threads, Leases(id))
  }

  ghost predicate LocksCounted(s: State) {
    forall lock :: Count(s.threads, Holds(lock)) == if lock in s.sh.held then 1 else 0
  }

  ghost predicate SlotsCounted(s: State) {
    && (forall sem: Semaphore :: s.sh.Taken(sem) == Count(s.threads, Slot(sem)) && s.sh.Taken(sem) <= s.sh.Slots(sem))
    && s.sh.active == Count(s.threads, Active())
  }

  ghost predicate ClaimAgrees(sh: Shared, claim: Claim) {
    && claim.path < sh.next
    && (claim.live <==> claim.path in sh.cache.staging)
    && (claim.live ==>
        sh.cache.staging[claim.path].kind == claim.kind && sh.cache.staging[claim.path].moved == claim.moved)
  }

  /** The cache knows exactly the staging areas that threads have, each of one thread. */
  ghost predicate StagingCounted(s: State) {
    && (forall path :: Count(s.threads, Claims(path)) == if path in s.sh.cache.staging then 1 else 0)
    && (forall path :: path in s.sh.cache.staging ==> path < s.sh.next)
    && (forall t :: t in s.threads && HoldingOf(s.threads[t]).claim.Some? ==>
          ClaimAgrees(s.sh, HoldingOf(s.threads[t]).claim.value))
  }

  // ---- how each transition moves what its thread holds ----

  predicate MovesLease(h: Holding, a: Action, h': Holding) {
    match a
    case LeaseSrc(id, _, found) => h.lease.None? && h'.lease == (if found.Found? then Some(id) else None)
    case LeaseRes(id, _, found) => h.lease.None? && h'.lease == (if found.Found? then Some(id) else None)
    case Unlease(id) => h.lease == Some(id) && h'.lease.None?
    case _ => h'.lease == h.lease
  }

  function LockOf(h: Holding): Option<LockId> {
    if h.locked && h.grip.Some? then Some(h.grip.value.lock) else None
  }

  predicate MovesLock(h: Holding, a: Action, h': Holding) {
    && (match a
        case TryLock(lock, got) => LockOf(h).None? && LockOf(h') == (if got then Some(lock) else None)
        case Unlock(lock) => LockOf(h) == Some(lock) && LockOf(h').None?
        case _ => LockOf(h') == LockOf(h))
    && (match a
        case Name(name, lock) => h'.grip == Some(Grip(name, lock))
        case _ => h'.grip == h.grip || h'.grip.None?)
  }

  predicate MovesSlot(h: Holding, a: Action, h': Holding) {
    && (match a
        case TakeSlot(sem, got) => h.slot.None? && h'.slot == (if got then Some(sem) else None)
        case FreeSlot(sem) => h.slot == Some(sem) && h'.slot.None?
        case _ => h'.slot == h.slot)
    && (match a
        case Activate => !h.active && h'.active
        case Deactivate => h.active && !h'.active
        case _ => h'.active == h.active)
  }

  predicate MovesClaim(h: Holding, a: Action, h': Holding) {
    match a
    case Stage(kind, path) => h.claim.None? && h'.claim == Some(Claim(path, kind, true, false))
    case Unstage(path) => h.claim.Some? && h.claim.value.path == path && h'.claim.None?
    case PutSource(path, _, _, _, _, mishap, put) =>
      && h.claim == Some(Claim(path, Source, true, false))
      && h'.claim == Some(Claim(path, Source, StillKnown(mishap, put), put.HalfDone?))
    case PutResult(path, _, _, _, _, mishap, put) =>
      && h.claim == Some(Claim(path, Result, true, false))
      && h'.claim == Some(Claim(path, Result, StillKnown(mishap, put), put.HalfDone?))
    case Resv(path, _, _, _) => h.claim.Some? && h.claim.value.path == path && h.claim.value.live && h'.claim == h.claim
    case _ => h'.claim == h.claim
  }

  /** A target under a name that others could use is backed by the lock of that name. */
  predicate TargetBacked(h: Holding) {
    match h.target
    case None => true
    case Some(ResKey(key)) => h.locked && h.grip.Some? && h.grip.value.name == ForQuery(key)
    case Some(SrcId(scope, ref)) => h.locked && h.grip.Some? && h.grip.value.name == ForSource(SrcId(scope, ref))
    case Some(ResUuid(n)) => true
    case Some(Stray(_)) => false
  }

  // A target is chosen only on learning, with the lock in hand or under a new UUID, that it is
  // absent; it is given up before the lock is, or with the commit.
  predicate MovesTarget(h: Holding, a: Action, h': Holding) {
    && (|| h'.target.None?
        || (h'.target == h.target && h'.locked == h.locked && h'.grip == h.grip)
        || (TargetBacked(h') && h'.locked == h.locked && h'.grip == h.grip &&
            match a
            case LookKey(key, _, found) => found.NoHit? && h'.target == Some(ResKey(key))
            case Drop(key, dropped) => dropped && h'.target == Some(ResKey(key))
            case LookSrc(id, _, found) => found.Missing? && IsSourceId(id) && h'.target == Some(id)
            case Uuid(n) => h'.target == Some(ResUuid(n))
            case _ => false))
    && (a.PutSource? ==> h.target == Some(a.src.id) && IsSourceId(a.src.id) && h'.target.None? && !Malformed(a.entry))
    && (a.PutResult? ==> h.target == Some(a.res.id) && !IsSourceId(a.res.id) && h'.target.None? && !Malformed(a.entry))
  }

  predicate Moves(h: Holding, a: Action, h': Holding) {
    MovesLease(h, a, h') && MovesLock(h, a, h') && MovesSlot(h, a, h') && MovesClaim(h, a, h') && MovesTarget(h, a, h')
  }

  lemma LookupMoves(w: World, s: Settings, p: QueryPc, a: Action, p': QueryPc)
    requires LookupTransition(w, s, p, a, p')
    ensures Moves(HoldingOfQuery(p), a, HoldingOfQuery(p'))
  {
  }

  lemma RunMoves(w: World, s: Settings, p: QueryPc, a: Action, p': QueryPc)
    requires ExecuteTransition(w, s, p, a, p') && !p.QCommit?
    ensures Moves(HoldingOfQuery(p), a, HoldingOfQuery(p'))
  {
  }

  lemma ExecuteMoves(w: World, s: Settings, p: QueryPc, a: Action, p': QueryPc)
    requires ExecuteTransition(w, s, p, a, p')
    ensures Moves(HoldingOfQuery(p), a, HoldingOfQuery(p'))
  {
    if !p.QCommit? { RunMoves(w, s, p, a, p'); }
  }

  lemma LockMoves(p: QueryPc, a: Action, p': QueryPc)
    requires LockTransition(p, a, p')
    ensures Moves(HoldingOfQuery(p), a, HoldingOfQuery(p'))
  {
  }

  lemma AdmitMoves(p: QueryPc, a: Action, p': QueryPc)
    requires AdmitTransition(p, a, p')
    ensures Moves(HoldingOfQuery(p), a, HoldingOfQuery(p'))
  {
  }

  lemma UnwindMoves(p: QueryPc, a: Action, p': QueryPc)
    requires UnwindTransition(p, a, p')
    ensures Moves(HoldingOfQuery(p), a, HoldingOfQuery(p'))
  {
  }

  lemma StageMoves(w: World, s: Settings, p: IngestPc, a: Action, p': IngestPc)
    requires StoreTransition(w, s, p, a, p') && !p.ICommit?
    ensures Moves(HoldingOfIngest(p), a, HoldingOfIngest(p'))
  {
  }

  lemma StoreMoves(w: World, s: Settings, p: IngestPc, a: Action, p': IngestPc)
    requires StoreTransition(w, s, p, a, p')
    ensures Moves(HoldingOfIngest(p), a, HoldingOfIngest(p'))
  {
    if !p.ICommit? { StageMoves(w, s, p, a, p'); }
  }

  lemma IngestMoves(s: Settings, p: IngestPc, a: Action, p': IngestPc)
    requires IngestTransition(s, p, a, p')
    ensures Moves(HoldingOfIngest(p), a, HoldingOfIngest(p'))
  {
  }

  lemma DownloadMoves(p: DownloadPc, a: Action, p': DownloadPc)
    requires DownloadTransition(p, a, p')
    ensures Moves(HoldingOfDownload(p), a, HoldingOfDownload(p'))
  {
  }

  lemma SpoolMoves(p: SpoolPc, a: Action, p': SpoolPc)
    requires SpoolTransition(p, a, p')
    ensures Moves(HoldingOfSpool(p), a, HoldingOfSpool(p'))
  {
  }

  /** Every transition moves its thread's holdings exactly as its action says. */
  lemma TransitionMoves(w: World, s: Settings, p: Pc, a: Action, p': Pc)
    requires Transition(w, s, p, a, p')
    ensures Moves(HoldingOf(p), a, HoldingOf(p'))
  {
    match p {
      case Q(q) =>
        if LookupTransition(w, s, q, a, p'.q) {
          LookupMoves(w, s, q, a, p'.q);
        } else if LockTransition(q, a, p'.q) {
          LockMoves(q, a, p'.q);
        } else if AdmitTransition(q, a, p'.q) {
          AdmitMoves(q, a, p'.q);
        } else if ExecuteTransition(w, s, q, a, p'.q) {
          ExecuteMoves(w, s, q, a, p'.q);
        } else {
          UnwindMoves(q, a, p'.q);
        }
      case I(i) =>
        if IngestTransition(s, i, a, p'.i) {
          IngestMoves(s, i, a, p'.i);
        } else {
          StoreMoves(w, s, i, a, p'.i);
        }
      case D(d) => DownloadMoves(d, a, p'.d);
      case U(u) => SpoolMoves(u, a, p'.u);
    }
  }

  // ---- what each action does to the cache ----

  /** The entry an action publishes. */
  predicate Publishes(a: Action, k: Kind, id: Id) {
    || (k.Source? && a.PutSource? && (a.sput.Committed? || a.sput.HalfDone?) && id == a.src.id)
    || (k.Result? && a.PutResult? && (a.rput.Committed? || a.rput.HalfDone?) && id == a.res.id)
  }

  ghost predicate RootEvolves(m: map<Id, Entry>, leases: map<Id, nat>, a: Action, k: Kind, m': map<Id, Entry>) {
    && (forall id :: id in m' ==>
          || (id in m && SameContent(m[id], m'[id]))
          || (id !in m && Publishes(a, k, id) && SameContent(a.entry, m'[id])))
    && (forall id :: id in m && id in leases && leases[id] > 0 ==> id in m')
  }

  ghost predicate LeasesEvolve(c: Cache, a: Action, c': Cache) {
    match a
    case LeaseSrc(id, _, found) => c'.leases == if found.Found? then AddLease(c, id).leases else c.leases
    case LeaseRes(id, _, found) => c'.leases == if found.Found? then AddLease(c, id).leases else c.leases
    case Unlease(id) => c'.leases == Release(c, id).leases
    case _ => c'.leases == c.leases
  }

  ghost predicate PutStaging<T>(staging: map<Path, Area>, path: Path, e: Entry, mishap: Option<Mishap>, put: Commit<T>,
                                staging': map<Path, Area>)
  {
    && (put.Committed? || put.HalfDone? ==> path in staging)
    && staging' ==
        if put.Refused? then staging
        else if path in staging && StillKnown(mishap, put) then staging[path := Area(staging[path].kind, Size(e), true)]
        else staging - {path}
  }

  ghost predicate StagingEvolves(c: Cache, a: Action, c': Cache) {
    match a
    case Stage(kind, path) => c'.staging == c.staging[path := Area(kind, 0, false)]
    case Resv(path, size, _, verdict) =>
      if verdict == Reserved then path in c.staging &&
          c'.staging == c.staging[path := c.staging[path].(reserved := size)]
      else c'.staging == c.staging
    case Unstage(path) => c'.staging == c.staging - {path}
    case PutSource(path, _, e, _, _, mishap, put) => PutStaging(c.staging, path, e, mishap, put, c'.staging)
    case PutResult(path, _, e, _, _, mishap, put) => PutStaging(c.staging, path, e, mishap, put, c'.staging)
    case _ => c'.staging == c.staging
  }

  ghost predicate Evolves(c: Cache, a: Action, c': Cache) {
    && LeasesEvolve(c, a, c')
    && StagingEvolves(c, a, c')
    && RootEvolves(c.sources, c.leases, a, Source, c'.sources)
    && RootEvolves(c.results, c.leases, a, Result, c'.results)
  }

  lemma TameEvolves(c: Cache, a: Action, c': Cache)
    requires Tame(c, c')
    ensures RootEvolves(c.sources, c.leases, a, Source, c'.sources)
    ensures RootEvolves(c.results, c.leases, a, Result, c'.results)
  {
  }

  lemma PublishEvolves(c: Cache, a: Action, k: Kind, id: Id, c': Cache)
    requires Publishes(a, k, id) && id !in c.Root(k) && Tame(c.WithRoot(k, c.Root(k)[id := a.entry]), c')
    ensures RootEvolves(c.sources, c.leases, a, Source, c'.sources)
    ensures RootEvolves(c.results, c.leases, a, Result, c'.results)
  {
    if k.Source? {
      assert c.WithRoot(k, c.Root(k)[id := a.entry]).sources == c.sources[id := a.entry];
    } else {
      assert c.WithRoot(k, c.Root(k)[id := a.entry]).results == c.results[id := a.entry];
    }
  }

  lemma PutSourceEvolves(s: Settings, c: Cache, a: Action, c': Cache)
    requires a.PutSource? && CacheEffect(s, c, a, c')
    ensures Evolves(c, a, c')
  {
    if a.src.id in c.sources {
      GetSourceIsTame(Discard(c, a.path), s, a.src.id, a.before.now, true);
      TameEvolves(c, a, c');
    } else {
      PublishIsTame(c, s, Source, a.path, a.src.id, a.entry, a.before, a.after, a.mishap);
      if a.sput.Refused? {
        TameEvolves(c, a, c');
      } else {
        PublishEvolves(c, a, Source, a.src.id, c');
      }
    }
  }

  lemma PutResultEvolves(s: Settings, c: Cache, a: Action, c': Cache)
    requires a.PutResult? && CacheEffect(s, c, a, c')
    ensures Evolves(c, a, c')
  {
    if a.res.id in c.results {
      GetResultIsTame(Discard(c, a.path), s, a.res.id, a.before.now, true);
      TameEvolves(c, a, c');
    } else {
      PublishIsTame(c, s, Result, a.path, a.res.id, a.entry, a.before, a.after, a.mishap);
      if a.rput.Refused? {
        TameEvolves(c, a, c');
      } else {
        PublishEvolves(c, a, Result, a.res.id, c');
      }
    }
  }

  lemma LookupEvolves(s: Settings, c: Cache, a: Action, c': Cache)
    requires CacheEffect(s, c, a, c') && (a.LookSrc? || a.LookKey? || a.Drop?)
    ensures Evolves(c, a, c')
  {
    match a {
      case LookSrc(id, now, found) => GetSourceIsTame(c, s, id, now, true);
      case LookKey(key, now, found) => ByQueryKeyIsTame(c, s, key, now);
      case Drop(key, dropped) => DropLegacyIsTame(c, key);
    }
    TameEvolves(c, a, c');
  }

  lemma LeaseEvolves(s: Settings, c: Cache, a: Action, c': Cache)
    requires CacheEffect(s, c, a, c') && (a.LeaseSrc? || a.LeaseRes?)
    ensures Evolves(c, a, c')
  {
    if a.LeaseSrc? {
      GetSourceIsTame(c, s, a.id, a.now, true);
      TameEvolves(c, a, GetSource(c, s, a.id, a.now, true).0);
    } else {
      GetResultIsTame(c, s, a.id, a.now, true);
      TameEvolves(c, a, GetResult(c, s, a.id, a.now, true).0);
    }
  }

  lemma ReserveEvolves(s: Settings, c: Cache, a: Action, c': Cache)
    requires CacheEffect(s, c, a, c') && a.Resv?
    ensures Evolves(c, a, c')
  {
    ReserveIsTame(c, s, a.path, a.size, a.env);
    TameEvolves(c, a, c');
  }

  lemma QuietEvolves(s: Settings, c: Cache, a: Action, c': Cache)
    requires CacheEffect(s, c, a, c')
    requires !(a.LookSrc? || a.LookKey? || a.Drop? || a.LeaseSrc? || a.LeaseRes? || a.Resv? || a.PutSource? ||
               a.PutResult?)
    ensures Evolves(c, a, c')
  {
  }

  /** Lease safety and content immutability of every action a thread can take: entries are only
      touched or, unless leased, removed; one that appears is the one the action publishes. */
  lemma EffectEvolves(s: Settings, c: Cache, a: Action, c': Cache)
    requires CacheEffect(s, c, a, c')
    ensures Evolves(c, a, c')
  {
    if a.LookSrc? || a.LookKey? || a.Drop? {
      LookupEvolves(s, c, a, c');
    } else if a.LeaseSrc? || a.LeaseRes? {
      LeaseEvolves(s, c, a, c');
    } else if a.Resv? {
      ReserveEvolves(s, c, a, c');
    } else if a.PutSource? {
      PutSourceEvolves(s, c, a, c');
    } else if a.PutResult? {
      PutResultEvolves(s, c, a, c');
    } else {
      QuietEvolves(s, c, a, c');
    }
  }

  // ---- conservation of leases, locks, slots and staging areas ----

  lemma LeaseArithmetic(c: Cache, a: Action, c': Cache, h: Holding, h': Holding, id: Id)
    requires LeasesPositive(c) && LeasesEvolve(c, a, c') && MovesLease(h, a, h')
    requires h.lease == Some(id) ==> LeaseCount(c.leases, id) >= 1
    ensures LeaseCount(c'.leases, id) + (if h.lease == Some(id) then 1 else 0)
         == LeaseCount(c.leases, id) + (if h'.lease == Some(id) then 1 else 0)
  {
  }

  lemma LeasesStayPositive(c: Cache, a: Action, c': Cache)
    requires LeasesPositive(c) && LeasesEvolve(c, a, c')
    ensures LeasesPositive(c')
  {
  }

  lemma CountAtLeastOne<K, V>(m: map<K, V>, k: K, p: V -> bool)
    requires k in m && p(m[k])
    ensures Count(m, p) >= 1
  {
    assert k in Where(m, p);
  }

  lemma LeasesConserved(w: World, s: State, t: Tid, a: Action, p: Pc, s': State)
    requires LeasesCounted(s) && ThreadStep(w, s, t, a, p, s')
    ensures LeasesCounted(s')
  {
    var c, c', h, h' := s.sh.cache, s'.sh.cache, HoldingOf(s.threads[t]), HoldingOf(p);
    TransitionMoves(w, s.sh.settings, s.threads[t], a, p);
    EffectEvolves(s.sh.settings, c, a, c');
    LeasesStayPositive(c, a, c');
    forall id ensures LeaseCount(c'.leases, id) == Count(s'.threads, Leases(id)) {
      if h.lease == Some(id) { CountAtLeastOne(s.threads, t, Leases(id)); }
      CountUpdate(s.threads, t, p, Leases(id));
      LeaseArithmetic(c, a, c', h, h', id);
    }
  }

  lemma LocksConserved(w: World, s: State, t: Tid, a: Action, p: Pc, s': State)
    requires LocksCounted(s) && ThreadStep(w, s, t, a, p, s')
    ensures LocksCounted(s')
  {
    TransitionMoves(w, s.sh.settings, s.threads[t], a, p);
    forall lock ensures Count(s'.threads, Holds(lock)) == if lock in s'.sh.held then 1 else 0 {
      CountUpdate(s.threads, t, p, Holds(lock));
      if Holds(lock)(s.threads[t]) { CountAtLeastOne(s.threads, t, Holds(lock)); }
    }
  }

  lemma SlotArithmetic(sh: Shared, a: Action, sh': Shared, h: Holding, h': Holding, sem: Semaphore)
    requires TableEffect(sh, a, sh') && MovesSlot(h, a, h')
    ensures sh'.Taken(sem) + (if h.slot == Some(sem) then 1 else 0) ==
        sh.Taken(sem) + (if h'.slot == Some(sem) then 1 else 0)
    ensures sh'.active + (if h.active then 1 else 0) == sh.active + (if h'.active then 1 else 0)
    ensures sh.Taken(sem) <= sh.Slots(sem) ==> sh'.Taken(sem) <= sh'.Slots(sem)
  {
  }

  lemma SlotsConserved(w: World, s: State, t: Tid, a: Action, p: Pc, s': State)
    requires SlotsCounted(s) && ThreadStep(w, s, t, a, p, s')
    ensures SlotsCounted(s')
  {
    var h, h' := HoldingOf(s.threads[t]), HoldingOf(p);
    TransitionMoves(w, s.sh.settings, s.threads[t], a, p);
    forall sem: Semaphore
      ensures s'.sh.Taken(sem) == Count(s'.threads, Slot(sem)) && s'.sh.Taken(sem) <= s'.sh.Slots(sem)
    {
      CountUpdate(s.threads, t, p, Slot(sem));
      SlotArithmetic(s.sh, a, s'.sh, h, h', sem);
    }
    CountUpdate(s.threads, t, p, Active());
    SlotArithmetic(s.sh, a, s'.sh, h, h', QuerySlots);
  }

  lemma {:induction false} TwoHolders<K, V>(m: map<K, V>, j: K, k: K, p: V -> bool)
    requires j in m && k in m && j != k && p(m[j]) && p(m[k])
    ensures Count(m, p) >= 2
  {
    assert {j, k} <= Where(m, p);
    var rest := Where(m, p) - {j};
    assert k in rest && Where(m, p) == rest + {j};
  }

  predicate HasClaim(h: Holding, path: Path) { h.claim.Some? && h.claim.value.path == path && h.claim.value.live }

  lemma ClaimArithmetic(c: Cache, a: Action, c': Cache, h: Holding, h': Holding, path: Path)
    requires StagingEvolves(c, a, c') && MovesClaim(h, a, h')
    requires h.claim.Some? ==> (h.claim.value.live <==> h.claim.value.path in c.staging)
    requires a.Stage? ==> a.path !in c.staging
    ensures (if path in c'.staging then 1 else 0) + (if HasClaim(h, path) then 1 else 0)
         == (if path in c.staging then 1 else 0) + (if HasClaim(h', path) then 1 else 0)
  {
  }

  lemma StagingCountKept(w: World, s: State, t: Tid, a: Action, p: Pc, s': State, path: Path)
    requires StagingCounted(s) && ThreadStep(w, s, t, a, p, s')
    ensures Count(s'.threads, Claims(path)) == if path in s'.sh.cache.staging then 1 else 0
  {
    TransitionMoves(w, s.sh.settings, s.threads[t], a, p);
    EffectEvolves(s.sh.settings, s.sh.cache, a, s'.sh.cache);
    CountUpdate(s.threads, t, p, Claims(path));
    var h, h' := HoldingOf(s.threads[t]), HoldingOf(p);
    if h.claim.Some? { assert ClaimAgrees(s.sh, h.claim.value); }
    ClaimArithmetic(s.sh.cache, a, s'.sh.cache, h, h', path);
  }

  lemma ClaimMoves(sh: Shared, a: Action, sh': Shared, h: Holding, h': Holding)
    requires TableEffect(sh, a, sh') && StagingEvolves(sh.cache, a, sh'.cache) && MovesClaim(h, a, h')
    requires h.claim.Some? ==> ClaimAgrees(sh, h.claim.value)
    requires forall path :: path in sh.cache.staging ==> path < sh.next
    ensures h'.claim.Some? ==> ClaimAgrees(sh', h'.claim.value)
    ensures forall path :: path in sh'.cache.staging ==> path < sh'.next
  {
  }

  lemma OtherClaimMoves(sh: Shared, a: Action, sh': Shared, h: Holding, h': Holding, claim: Claim)
    requires TableEffect(sh, a, sh') && StagingEvolves(sh.cache, a, sh'.cache) && MovesClaim(h, a, h')
    requires ClaimAgrees(sh, claim)
    requires h.claim.Some? && h.claim.value.path == claim.path ==> !h.claim.value.live && !claim.live
    ensures ClaimAgrees(sh', claim)
  {
  }

  lemma ClaimsApart(s: State, t: Tid, u: Tid)
    requires StagingCounted(s) && t in s.threads && u in s.threads && t != u
    requires HoldingOf(s.threads[u]).claim.Some?
    ensures var mine, claim := HoldingOf(s.threads[t]).claim, HoldingOf(s.threads[u]).claim.value;
      mine.Some? && mine.value.path == claim.path ==> !mine.value.live && !claim.live
  {
    var mine, claim := HoldingOf(s.threads[t]).claim, HoldingOf(s.threads[u]).claim.value;
    if mine.Some? && mine.value.path == claim.path {
      assert ClaimAgrees(s.sh, mine.value) && ClaimAgrees(s.sh, claim);
      if claim.live {
        TwoHolders(s.threads, t, u, Claims(claim.path));
        assert false;
      }
    }
  }

  lemma StagingConserved(w: World, s: State, t: Tid, a: Action, p: Pc, s': State)
    requires StagingCounted(s) && ThreadStep(w, s, t, a, p, s')
    ensures StagingCounted(s')
  {
    forall path ensures Count(s'.threads, Claims(path)) == if path in s'.sh.cache.staging then 1 else 0 {
      StagingCountKept(w, s, t, a, p, s', path);
    }
    TransitionMoves(w, s.sh.settings, s.threads[t], a, p);
    EffectEvolves(s.sh.settings, s.sh.cache, a, s'.sh.cache);
    ClaimMoves(s.sh, a, s'.sh, HoldingOf(s.threads[t]), HoldingOf(p));
    forall u | u in s'.threads && HoldingOf(s'.threads[u]).claim.Some?
      ensures ClaimAgrees(s'.sh, HoldingOf(s'.threads[u]).claim.value)
    {
      if u != t {
        ClaimsApart(s, t, u);
        OtherClaimMoves(s.sh, a, s'.sh, HoldingOf(s.threads[t]), HoldingOf(p), HoldingOf(s.threads[u]).claim.value);
      }
    }
  }
}
