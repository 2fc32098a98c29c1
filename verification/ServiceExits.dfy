/** Nobody waits for anybody: from every reachable state each thread can finish by its own steps,
    whatever the others hold, and hand back all it has. */
module ServiceExits {
  import opened Basics
  import opened Model
  import opened CacheSpec
  import opened Service
  import opened ServiceInvariants
  import opened ServiceSafety
  import opened ServiceRuns
  import opened ServiceTheorems

  // How many of its own steps a thread is from its end when every choice goes the short way.
  function Rank(p: Pc): nat {
    match p
    case Q(q) => RankOfQuery(q)
    case I(i) => RankOfIngest(i)
    case D(d) => (match d case DStart(_) => 2 case DSend(_, _) => 1 case DLost(_, _) => 0 case DDone => 0)
    case U(u) =>
      (match u
       case UStart => 3 case UStage => 2 case USpool(_) => 3 case UDiscard(_) => 2 case UFree => 1 case UDone => 0
       case UForgets(_) => 1 case ULostArea(_) => 0 case ULostBoth(_) => 0 case ULostSlot => 0)
  }

  function RankOfQuery(p: QueryPc): nat {
    match p
    case QStart(_) => 3
    case QLeased(_, _) => 2
    case QLook1(_, _, _) => 9
    case QLegacy1(_, _, _) => 8
    case QName(_, _, _) => 7
    case QTry(_, _, _, _) => 6
    case QLook2(_, _, _, _) => 5
    case QLegacy2(_, _, _, _) => 4
    case QAdmit(_) => 3
    case QActivate(_) => 6
    case QStage(_) => 5
    case QRun(_, _) => 6
    case QCommit(_, _, _) => 6
    case QDiscard(_, _, _, _) => 5
    case QDeactivate(_, _) => 4
    case QFree(_, _) => 3
    case QUnlock(_, _, _, _) => 2
    case QRelease(_, _, _) => 1
    case QDone(_) => 0
  }

  function RankOfIngest(p: IngestPc): nat {
    match p
    case IStart(_) => 1
    case IName(_) => 2
    case ITry(_, _) => 5
    case ILook(_, _) => 4
    case IStage(_, _) => 3
    case IReserve(_, _, _) => 4
    case ICopy(_, _, _, _) => 4
    case IConvert(_, _, _) => 4
    case ICommit(_, _, _, _, _, _) => 4
    case IDiscard(_, _, _, _, _) => 3
    case IUnlock(_, _, _) => 2
    case IFree(_, _) => 1
    case IDone(_) => 0
  }

  // ---- every action a thread may need can be taken at once ----

  lemma CanRelease(sh: Shared, a: Action) returns (sh': Shared)
    requires a == Tau || a == Activate || a.Unlease? || a.Unlock? || a.Unstage? ||
             (a.FreeSlot? && sh.Taken(a.sem) > 0) || (a.Deactivate? && sh.active > 0)
    ensures Effect(sh, a, sh')
  {
    match a {
      case Tau => sh' := sh;
      case Activate => sh' := sh.(active := sh.active + 1);
      case Deactivate => sh' := sh.(active := sh.active - 1);
      case Unlease(id) => sh' := sh.(cache := Release(sh.cache, id));
      case Unlock(lock) => sh' := sh.(held := sh.held - {lock});
      case Unstage(path) => sh' := sh.(cache := Discard(sh.cache, path));
      case FreeSlot(sem) => sh' := sh.WithTaken(sem, sh.Taken(sem) - 1);
    }
  }

  lemma CanLeaseSource(sh: Shared, id: Id) returns (a: Action, sh': Shared)
    ensures a.LeaseSrc? && a.id == id && Effect(sh, a, sh')
  {
    var (c', found) := LeaseSource(sh.cache, sh.settings, id, 0);
    a, sh' := LeaseSrc(id, 0, found), sh.(cache := c');
  }

  lemma CanAcquire(sh: Shared, id: Id) returns (a: Action, sh': Shared)
    ensures a.LeaseRes? && a.id == id && Effect(sh, a, sh')
  {
    var (c', found) := AcquireResult(sh.cache, sh.settings, id, 0);
    a, sh' := LeaseRes(id, 0, found), sh.(cache := c');
  }

  lemma CanLookUp(sh: Shared, id: Id) returns (a: Action, sh': Shared)
    ensures a.LookSrc? && a.id == id && Effect(sh, a, sh')
  {
    var (c', found) := GetSource(sh.cache, sh.settings, id, 0, true);
    a, sh' := LookSrc(id, 0, found), sh.(cache := c');
  }

  lemma CanLookUpKey(sh: Shared, key: QueryKey) returns (a: Action, sh': Shared)
    ensures a.LookKey? && a.key == key && Effect(sh, a, sh')
  {
    var (c', found) := ByQueryKey(sh.cache, sh.settings, key, 0);
    a, sh' := LookKey(key, 0, found), sh.(cache := c');
  }

  lemma CanDrop(sh: Shared, key: QueryKey) returns (a: Action, sh': Shared)
    ensures a.Drop? && a.key == key && Effect(sh, a, sh')
  {
    var (c', dropped) := DropLegacy(sh.cache, key);
    a, sh' := Drop(key, dropped), sh.(cache := c');
  }

  lemma CanName(sh: Shared, name: LockName) returns (a: Action, sh': Shared)
    ensures a.Name? && a.name == name && Effect(sh, a, sh')
  {
    if name in sh.table {
      a, sh' := Name(name, sh.table[name]), sh;
    } else {
      a, sh' := Name(name, sh.next), sh.(table := sh.table[name := sh.next], next := sh.next + 1);
    }
  }

  lemma CanTry(sh: Shared, lock: LockId) returns (a: Action, sh': Shared)
    ensures a.TryLock? && a.lock == lock && Effect(sh, a, sh')
  {
    a, sh' := TryLock(lock, lock !in sh.held), sh.(held := sh.held + {lock});
  }

  lemma CanAsk(sh: Shared, sem: Semaphore) returns (a: Action, sh': Shared)
    ensures a.TakeSlot? && a.sem == sem && Effect(sh, a, sh')
  {
    var got := sh.Taken(sem) < sh.Slots(sem);
    a, sh' := TakeSlot(sem, got), if got then sh.WithTaken(sem, sh.Taken(sem) + 1) else sh;
  }

  // ---- one step nearer the end ----

  lemma SearchExit(w: World, sh: Shared, p: QueryPc) returns (a: Action, p': QueryPc, sh': Shared)
    requires p.QStart? || p.QLeased? || p.QLook1? || p.QLegacy1? || p.QName?
    ensures LookupTransition(w, sh.settings, p, a, p') && Effect(sh, a, sh') && RankOfQuery(p') < RankOfQuery(p)
  {
    match p {
      case QStart(q) =>
        a, sh' := CanLeaseSource(sh, q.source);
        p' := if a.source.Found? then QLeased(q, a.source.record) else QDone(Failed);
      case QLeased(q, src) =>
        a, p', sh' := Tau, QRelease(q, src, Failed), sh;
      case QLook1(q, src, key) =>
        a, sh' := CanLookUpKey(sh, key);
        p' := AfterLook1(q, src, key, a.found);
      case QLegacy1(q, src, key) =>
        a, sh' := CanDrop(sh, key);
        p' := if a.dropped then QName(q, src, key) else QRelease(q, src, Failed);
      case QName(q, src, key) =>
        a, sh' := CanName(sh, ForQuery(key));
        p' := QTry(q, src, key, a.lock);
    }
  }

  lemma LockExit(sh: Shared, p: QueryPc) returns (a: Action, p': QueryPc, sh': Shared)
    requires p.QTry? || p.QLook2? || p.QLegacy2?
    ensures LockTransition(p, a, p') && Effect(sh, a, sh') && RankOfQuery(p') < RankOfQuery(p)
  {
    match p {
      case QTry(q, src, key, lock) =>
        a, sh' := CanTry(sh, lock);
        p' := if a.got then QLook2(q, src, key, lock) else QRelease(q, src, Failed);
      case QLook2(q, src, key, lock) =>
        a, sh' := CanLookUpKey(sh, key);
        p' := AfterLook2(q, src, key, lock, a.found);
      case QLegacy2(q, src, key, lock) =>
        a, sh' := CanDrop(sh, key);
        p' := if a.dropped then QAdmit(Job(q, src, Keyed(key, lock)))
            else QUnlock(q, src, Some(Grip(ForQuery(key), lock)), Failed);
    }
  }

  lemma WorkExit(w: World, sh: Shared, p: QueryPc) returns (a: Action, p': QueryPc, sh': Shared)
    requires p.QAdmit? || p.QActivate? || p.QStage? || p.QRun? || p.QCommit?
    ensures (AdmitTransition(p, a, p') || ExecuteTransition(w, sh.settings, p, a, p')) && Effect(sh, a, sh')
    ensures RankOfQuery(p') < RankOfQuery(p)
  {
    match p {
      case QAdmit(j) => a, p' := Tau, QUnlock(j.q, j.src, j.JobGrip(), Failed);
      case QActivate(j) => a, p' := Activate, QStage(j);
      case QStage(j) => a, p' := Tau, QDeactivate(j, Failed);
      case QRun(j, path) => a, p' := Tau, QDiscard(j, path, true, Failed);
      case QCommit(j, path, _) => a, p' := Tau, QDiscard(j, path, true, Failed);
    }
    sh' := CanRelease(sh, a);
  }

  // The step that each point of the finally blocks takes.
  function UnwindAction(p: QueryPc): (Action, QueryPc) {
    match p
    case QDiscard(j, path, _, out) => (Unstage(path), QDeactivate(j, out))
    case QDeactivate(j, out) => (Deactivate, QFree(j, out))
    case QFree(j, out) => (FreeSlot(QuerySlots), QUnlock(j.q, j.src, j.JobGrip(), out))
    case QUnlock(q, src, grip, out) => (if grip.Some? then Unlock(grip.value.lock) else Tau, QRelease(q, src, out))
    case QRelease(q, src, out) => (Unlease(q.source), QDone(out))
    case _ => (Tau, p)
  }

  lemma UnwindActs(p: QueryPc)
    requires RankedByUnwind(p)
    ensures var (a, p') := UnwindAction(p);
      && UnwindTransition(p, a, p') && RankOfQuery(p') < RankOfQuery(p)
      && (a == Tau || a.Unlock? || a.Unlease? || a.Unstage? || (a == Deactivate && p.QDeactivate?) ||
          (a == FreeSlot(QuerySlots) && p.QFree?))
  {
  }

  lemma UnwindExit(w: World, sh: Shared, p: QueryPc) returns (a: Action, p': QueryPc, sh': Shared)
    requires p.QDiscard? || (p.QDeactivate? && sh.active > 0) || (p.QFree? && sh.queries > 0) || p.QUnlock? ||
        p.QRelease?
    ensures UnwindTransition(p, a, p') && Effect(sh, a, sh') && RankOfQuery(p') < RankOfQuery(p)
  {
    UnwindActs(p);
    a, p' := UnwindAction(p).0, UnwindAction(p).1;
    sh' := CanRelease(sh, a);
  }

  predicate Admitting(p: IngestPc) { p.IStart? || p.IName? || p.ITry? || p.ILook? || p.IStage? }

  lemma IngestExit(w: World, sh: Shared, p: IngestPc) returns (a: Action, p': IngestPc, sh': Shared)
    requires Admitting(p)
    ensures IngestTransition(sh.settings, p, a, p') && Effect(sh, a, sh') && RankOfIngest(p') < RankOfIngest(p)
  {
    match p {
      case IStart(u) => a, p', sh' := Tau, IDone(Failed), sh;
      case IName(u) => a, p', sh' := Tau, IFree(u, Failed), sh;
      case IStage(u, lock) => a, p', sh' := Tau, IUnlock(u, lock, Failed), sh;
      case ITry(u, lock) =>
        a, sh' := CanTry(sh, lock);
        p' := if a.got then ILook(u, lock) else IFree(u, Failed);
      case ILook(u, lock) =>
        a, sh' := CanLookUp(sh, SourceIdOf(u));
        p' := AfterLook(sh.settings, u, lock, a.source);
    }
  }

  lemma StoreExit(w: World, sh: Shared, p: IngestPc) returns (a: Action, p': IngestPc, sh': Shared)
    requires !Admitting(p) && !p.IDone? && (p.IFree? ==> sh.ingestions > 0)
    ensures StoreTransition(w, sh.settings, p, a, p') && Effect(sh, a, sh') && RankOfIngest(p') < RankOfIngest(p)
  {
    match p {
      case IReserve(u, lock, path) => a, p' := Tau, IDiscard(u, lock, path, true, Failed);
      case ICopy(u, lock, path, _) => a, p' := Tau, IDiscard(u, lock, path, true, Failed);
      case IConvert(u, lock, path) => a, p' := Tau, IDiscard(u, lock, path, true, Failed);
      case ICommit(u, lock, path, _, _, _) => a, p' := Tau, IDiscard(u, lock, path, true, Failed);
      case IDiscard(u, lock, path, _, out) => a, p' := Unstage(path), IUnlock(u, lock, out);
      case IUnlock(u, lock, out) => a, p' := Unlock(lock), IFree(u, out);
      case IFree(u, out) => a, p' := FreeSlot(IngestSlots), IDone(out);
    }
    sh' := CanRelease(sh, a);
  }

  lemma SpoolExit(w: World, sh: Shared, p: SpoolPc) returns (a: Action, p': SpoolPc, sh': Shared)
    requires !p.UDone? && !Abandoned(U(p)) && (p.UFree? ==> sh.uploads > 0)
    ensures !Abandoned(U(p'))
    ensures SpoolTransition(p, a, p') && Effect(sh, a, sh') && Rank(U(p')) < Rank(U(p))
  {
    match p {
      case UStart =>
        a, sh' := CanAsk(sh, UploadSlots);
        p' := if a.got then UStage else UDone;
      case UStage => a, p', sh' := Tau, UFree, sh;
      case USpool(path) => a, p', sh' := Tau, UDiscard(path), sh;
      case UDiscard(path) =>
        a, p' := Unstage(path), UFree;
        sh' := CanRelease(sh, a);
      case UFree =>
        a, p' := FreeSlot(UploadSlots), UDone;
        sh' := CanRelease(sh, a);
    }
  }

  lemma DownloadExit(w: World, sh: Shared, p: DownloadPc) returns (a: Action, p': DownloadPc, sh': Shared)
    requires !p.DDone? && !p.DLost?
    ensures !p'.DLost?
    ensures DownloadTransition(p, a, p') && Effect(sh, a, sh') && Rank(D(p')) < Rank(D(p))
  {
    match p {
      case DStart(id) =>
        a, sh' := CanAcquire(sh, id);
        p' := if a.result.Found? then DSend(id, a.result.record) else DDone;
      case DSend(id, _) =>
        a, p' := Unlease(id), DDone;
        sh' := CanRelease(sh, a);
    }
  }

  /** A thread that holds a slot, or counts as active, is counted. */
  lemma HeldIsCounted(s: State, t: Tid)
    requires SlotsCounted(s) && t in s.threads
    ensures forall sem :: HoldingOf(s.threads[t]).slot == Some(sem) ==> s.sh.Taken(sem) > 0
    ensures HoldingOf(s.threads[t]).active ==> s.sh.active > 0
  {
    forall sem | HoldingOf(s.threads[t]).slot == Some(sem) ensures s.sh.Taken(sem) > 0 {
      CountAtLeastOne(s.threads, t, Slot(sem));
    }
    if HoldingOf(s.threads[t]).active { CountAtLeastOne(s.threads, t, Active()); }
  }

  lemma QueryExit(w: World, sh: Shared, q: QueryPc) returns (a: Action, p': Pc, sh': Shared)
    requires !q.QDone? && (q.QDeactivate? ==> sh.active > 0) && (q.QFree? ==> sh.queries > 0)
    ensures Transition(w, sh.settings, Q(q), a, p') && Effect(sh, a, sh') && Rank(p') < Rank(Q(q)) && !Abandoned(p')
  {
    var q';
    if RankedByUnwind(q) {
      a, q', sh' := UnwindExit(w, sh, q);
    } else if q.QAdmit? || q.QActivate? || q.QStage? || q.QRun? || q.QCommit? {
      a, q', sh' := WorkExit(w, sh, q);
    } else if q.QTry? || q.QLook2? || q.QLegacy2? {
      a, q', sh' := LockExit(sh, q);
    } else {
      a, q', sh' := SearchExit(w, sh, q);
    }
    p' := Q(q');
  }

  lemma UploadExit(w: World, sh: Shared, i: IngestPc) returns (a: Action, p': Pc, sh': Shared)
    requires !i.IDone? && (i.IFree? ==> sh.ingestions > 0)
    ensures Transition(w, sh.settings, I(i), a, p') && Effect(sh, a, sh') && Rank(p') < Rank(I(i)) && !Abandoned(p')
  {
    var i';
    if Admitting(i) {
      a, i', sh' := IngestExit(w, sh, i);
    } else {
      a, i', sh' := StoreExit(w, sh, i);
    }
    p' := I(i');
  }

  /** No thread is ever stuck, unless its request was abandoned: it has a step that brings it nearer its end, whatever
      others hold. */
  lemma NeverStuck(w: World, s: State, t: Tid) returns (a: Action, p': Pc, s': State)
    requires SlotsCounted(s) && t in s.threads && Rank(s.threads[t]) > 0 && !Abandoned(s.threads[t])
    ensures ThreadStep(w, s, t, a, p', s') && Rank(p') < Rank(s.threads[t]) && !Abandoned(p')
  {
    HeldIsCounted(s, t);
    var sh' := s.sh;
    match s.threads[t] {
      case Q(q) =>
        assert q.QDeactivate? ==> HoldingOf(Q(q)).active;
        assert q.QFree? ==> HoldingOf(Q(q)).slot == Some(QuerySlots);
        a, p', sh' := QueryExit(w, s.sh, q);
      case I(i) =>
        assert i.IFree? ==> HoldingOf(I(i)).slot == Some(IngestSlots);
        a, p', sh' := UploadExit(w, s.sh, i);
      case D(d) =>
        var d';
        a, d', sh' := DownloadExit(w, s.sh, d);
        p' := D(d');
      case U(u) =>
        assert u.UFree? ==> HoldingOf(U(u)).slot == Some(UploadSlots);
        var u';
        a, u', sh' := SpoolExit(w, s.sh, u);
        p' := U(u');
    }
    s' := State(sh', s.threads[t := p']);
  }

  predicate RankedByUnwind(q: QueryPc) { q.QDiscard? || q.QDeactivate? || q.QFree? || q.QUnlock? || q.QRelease? }

  lemma RankIsSmall(p: Pc)
    ensures Rank(p) <= 9
    ensures Rank(p) == 0 && !Leaks(p) ==> HoldingOf(p) == Nothing()
  {
  }

  /** A path of steps of one thread from a state to the thread's end. */
  ghost predicate Finishes(w: World, s: State, t: Tid, states: seq<State>, labels: seq<Label>) {
    && IsPath(states, labels, Steps(w))
    && states[0] == s
    && (forall i :: 0 <= i < |labels| ==> labels[i].Do? && labels[i].t == t)
    && t in states[|labels|].threads && HoldingOf(states[|labels|].threads[t]) == Nothing()
  }

  /** From every state that keeps the invariant, so from every reachable one, a thread whose request
      was not abandoned can run to its end alone within nine steps, and then holds nothing. */
  lemma {:induction false} CanFinishAlone(w: World, s: State, t: Tid) returns (states: seq<State>, labels: seq<Label>)
    requires Sound(w) && Invariant(w, s) && t in s.threads && !Abandoned(s.threads[t])
    ensures Finishes(w, s, t, states, labels) && |labels| <= Rank(s.threads[t]) <= 9
    decreases Rank(s.threads[t])
  {
    RankIsSmall(s.threads[t]);
    if Rank(s.threads[t]) == 0 {
      states, labels := [s], [];
    } else {
      var a, p', s' := NextExit(w, s, t);
      var states', labels' := CanFinishAlone(w, s', t);
      states, labels := [s] + states', [Do(t, a, p')] + labels';
      FinishGrows(w, s, t, a, p', s', states', labels');
    }
  }

  lemma NextExit(w: World, s: State, t: Tid) returns (a: Action, p': Pc, s': State)
    requires Sound(w) && Invariant(w, s) && t in s.threads && Rank(s.threads[t]) > 0 && !Abandoned(s.threads[t])
    ensures Steps(w)(s, Do(t, a, p'), s') && Invariant(w, s')
    ensures t in s'.threads && Rank(s'.threads[t]) < Rank(s.threads[t]) && !Abandoned(s'.threads[t])
  {
    a, p', s' := NeverStuck(w, s, t);
    ThreadStepKeeps(w, s, t, a, p', s');
  }

  lemma FinishGrows(w: World, s: State, t: Tid, a: Action, p': Pc, s': State, states: seq<State>, labels: seq<Label>)
    requires Steps(w)(s, Do(t, a, p'), s') && Finishes(w, s', t, states, labels)
    ensures Finishes(w, s, t, [s] + states, [Do(t, a, p')] + labels)
  {
    PathPrepends(s, Do(t, a, p'), states, labels, Steps(w));
  }

  // ---- abandoned requests ----

  lemma AbandonedHolds(p: Pc)
    requires Abandoned(p)
    ensures HoldingOf(p) != Nothing()
    ensures HoldingOf(p).lease.Some? || HoldingOf(p).slot.Some? ||
        (HoldingOf(p).claim.Some? && HoldingOf(p).claim.value.live)
  {
  }

  lemma StaysAbandoned(w: World, s: State, t: Tid, l: Label, s': State)
    requires Steps(w)(s, l, s') && l.Do? && l.t == t && t in s.threads && Abandoned(s.threads[t])
    ensures t in s'.threads && Abandoned(s'.threads[t])
  {
  }

  /** A thread can give back all it holds exactly when its request was not cancelled in one of the
      awaits after which nobody does: of the lookup, of staging_path, of discard_staging before or after
      it begins. */
  lemma FinishesIff(w: World, s: State, t: Tid)
    requires Sound(w) && Invariant(w, s) && t in s.threads
    ensures (exists states, labels :: Finishes(w, s, t, states, labels)) <==> !Abandoned(s.threads[t])
  {
    if !Abandoned(s.threads[t]) {
      var states, labels := CanFinishAlone(w, s, t);
    } else if exists states, labels :: Finishes(w, s, t, states, labels) {
      var states, labels :| Finishes(w, s, t, states, labels);
      NeverFinishes(w, s, t, states, labels);
    }
  }

  lemma NeverFinishes(w: World, s: State, t: Tid, states: seq<State>, labels: seq<Label>)
    requires t in s.threads && Abandoned(s.threads[t]) && IsPath(states, labels, Steps(w)) && states[0] == s
    requires forall i :: 0 <= i < |labels| ==> labels[i].Do? && labels[i].t == t
    ensures t in states[|labels|].threads && HoldingOf(states[|labels|].threads[t]) != Nothing()
  {
    var p := (m: nat) => m < |states| && t in states[m].threads && Abandoned(states[m].threads[t]);
    forall m: nat | 0 <= m < |labels| && p(m) ensures p(m + 1) {
      assert Steps(w)(states[m], labels[m], states[m + 1]);
      StaysAbandoned(w, states[m], t, labels[m], states[m + 1]);
    }
    Stays(p, 0, |labels|);
    AbandonedHolds(states[|labels|].threads[t]);
  }

  ghost predicate AllInitial(s: State) {
    && s.sh.cache.leases == map[] && s.sh.cache.staging == map[] && s.sh.held == {}
    && (forall sem: Semaphore :: s.sh.Taken(sem) == 0) && s.sh.active == 0
  }

  /** Once no thread has a step left, everything is back to its initial value exactly when no request
      was abandoned. */
  lemma LeakIff(w: World, states: seq<State>, labels: seq<Label>, i: nat)
    requires Sound(w) && IsRun(w, states, labels) && i < |states|
    requires forall t :: t in states[i].threads ==> Idle(states[i].threads[t]) || Leaks(states[i].threads[t])
    ensures AllInitial(states[i]) <==> forall t :: t in states[i].threads ==> !Leaks(states[i].threads[t])
  {
    InvariantAlways(w, states, labels, i);
    var s := states[i];
    if forall t :: t in s.threads ==> !Leaks(s.threads[t]) {
      QuietHoldsNothing(s);
    } else {
      var t :| t in s.threads && Leaks(s.threads[t]);
      LostLeaks(s, t);
    }
  }

  lemma LostLeaks(s: State, t: Tid)
    requires LeasesCounted(s) && SlotsCounted(s) && StagingCounted(s) && t in s.threads && Leaks(s.threads[t])
    ensures !AllInitial(s)
  {
    var h := HoldingOf(s.threads[t]);
    AbandonedHolds(s.threads[t]);
    if h.lease.Some? { CountAtLeastOne(s.threads, t, Leases(h.lease.value)); }
    if h.slot.Some? { CountAtLeastOne(s.threads, t, Slot(h.slot.value)); }
    if h.claim.Some? && h.claim.value.live { CountAtLeastOne(s.threads, t, Claims(h.claim.value.path)); }
  }
}
