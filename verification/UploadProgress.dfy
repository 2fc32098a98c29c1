/** The same for uploads: while the others stand still a source is created, given a slot, a free name and room. */
module UploadProgress {
  import opened Basics
  import opened Model
  import opened CacheSpec
  import opened CleanupTheorems
  import opened CacheInvariants
  import opened Service
  import opened ServiceInvariants
  import opened ServiceSafety
  import opened ServiceRuns
  import opened ServiceTheorems
  import opened ServiceHistory
  import opened ServiceExits
  import opened ServiceAnswers
  import opened ServiceProgress

  // The upload, what its conversion makes of it, and how its manifest will be.
  datatype Draft = Draft(u: Upload, schema: Digest, file: Text, data: Bytes, now: Time, base: nat, payload: nat)

  /** An upload that keeps its declaration and the limits, and a conversion of it. */
  ghost predicate Uploadable(w: World, s: Settings, d: Draft) {
    && d.u.declared == |d.u.content| <= s.maxSourceBytes
    && (d.u.expected.Some? ==> d.u.expected.value == Sha256(d.u.content))
    && IsBareName(d.file) && w.converts(d.u.content, d.u.format, d.data, d.schema)
  }

  // The bytes reserved at most: for the upload, then for the entry with its stamps.
  function SpaceFor(d: Draft): nat {
    if |d.u.content| >= d.base + d.payload + 54 then |d.u.content| else d.base + d.payload + 54
  }

  /** A record tells what was uploaded and what was made of it. */
  predicate Depicts(r: SourceRecord, d: Draft) {
    && r.id == SrcId(d.u.scope, d.u.ref) && r.scope == d.u.scope && r.ref == d.u.ref
    && r.format == d.u.format && r.filename == d.u.filename
    && r.size == |d.u.content| && r.sha256 == Sha256(d.u.content)
    && r.schemaDigest == d.schema && r.dataFile == d.file && r.dataSha256 == Some(Sha256(d.data))
  }

  predicate Asking(p: IngestPc) { p.IStart? || p.IName? || p.ITry? || p.ILook? }

  predicate Drafting(d: Draft, p: IngestPc) {
    && (ReportOf(I(p)).None? ==> p.u == d.u)
    && (p.ICopy? ==> p.copied <= |d.u.content|)
    && (p.ICommit? ==> p.schema == d.schema && p.file == d.file && p.data == d.data)
    && (ReportOf(I(p)).Some? ==> ReportOf(I(p)).value.Created? && Depicts(ReportOf(I(p)).value.source, d))
  }

  function AreaOf(sh: Shared, p: IngestPc): Path {
    if p.IReserve? || p.ICopy? || p.IConvert? || p.ICommit? then p.path else sh.next
  }

  ghost predicate Spacious(sh: Shared, d: Draft, p: IngestPc) {
    && (Asking(p) ==> !Servable(sh.cache, Source, SourceIdOf(d.u), d.now))
    && Fits(sh.cache, sh.settings, Source, AreaOf(sh, p), SpaceFor(d))
  }

  function Distance(d: Draft, p: IngestPc): nat {
    match p
    case IStart(_) => 10
    case IName(_) => 9
    case ITry(_, _) => 8
    case ILook(_, _) => 7
    case IStage(_, _) => 6
    case IReserve(_, _, _) => 5
    case ICopy(_, _, _, copied) => if copied < |d.u.content| then 4 else 3
    case IConvert(_, _, _) => 2
    case ICommit(_, _, _, _, _, _) => 1
    case _ => 0
  }

  predicate Advances(w: World, s: Settings, d: Draft, p: IngestPc, a: Action, p': IngestPc) {
    && (IngestTransition(s, p, a, p') || StoreTransition(w, s, p, a, p'))
    && Drafting(d, p') && Distance(d, p') < Distance(d, p) && !p'.IStart?
  }

  ghost predicate Goes(w: World, sh: Shared, d: Draft, p: IngestPc, a: Action, p': IngestPc, sh': Shared) {
    && Advances(w, sh.settings, d, p, a, p') && Effect(sh, a, sh')
    && (ReportOf(I(p')).None? ==> Spacious(sh', d, p'))
  }

  // ---- the cache on the way ----

  lemma StaysSpacious(sh: Shared, sh': Shared, d: Draft, p: IngestPc, p': IngestPc)
    requires Spacious(sh, d, p) && sh'.cache == sh.cache && sh'.settings == sh.settings && (Asking(p') ==> Asking(p))
    requires AreaOf(sh', p') == AreaOf(sh, p) ||
        (AreaOf(sh, p) !in sh.cache.staging && AreaOf(sh', p') !in sh.cache.staging)
    ensures Spacious(sh', d, p')
  {
    if AreaOf(sh', p') != AreaOf(sh, p) {
      assert sh.cache.staging - {AreaOf(sh', p')} == sh.cache.staging - {AreaOf(sh, p)};
    }
  }

  /** A source looked up in vain. */
  lemma MissingLeaves(w: World, s: Settings, c: Cache, id: Id, now: Time)
    requires Orderly(w, c) && IsSourceId(id) && !Servable(c, Source, id, now)
    ensures var (c', found) := GetSource(c, s, id, now, true);
      && found == Missing && PinnedRoot(c', Source) == PinnedRoot(c, Source) && c'.staging == c.staging
  {
    SourceFoundIff(w, c, s, id, now);
    SourceLookupExact(c, s, id, now, true);
    MissingIsAbsent(w, c, s, id, now);
    if id in c.sources { assert ValidSource(w, id, c.sources[id]); }
    SameLeased(c, GetSource(c, s, id, now, true).0, id);
  }

  lemma SameLeased(c: Cache, c': Cache, id: Id)
    requires c'.sources - {id} == c.sources - {id} && id !in c'.sources && c'.leases == c.leases
    requires id in c.sources ==> id !in c.leases
    ensures PinnedRoot(c', Source) == PinnedRoot(c, Source)
  {
    forall x | x in c.sources && x in c.leases ensures x in c'.sources && c'.sources[x] == c.sources[x] {
      assert x in c.sources - {id};
    }
    forall x | x in c'.sources ensures x in c.sources && c'.sources[x] == c.sources[x] {
      assert x in c'.sources - {id};
    }
  }

  /** A reservation evicts nothing that is leased. */
  lemma ReservationLeaves(c: Cache, s: Settings, path: Path, size: nat, env: Env)
    requires Verdict(c, s, path, size, env) == Reserved && c.staging[path].kind == Source
    requires Covers(env.listing, c.sources) && LeasesPositive(c)
    ensures var (c', verdict) := Reserve(c, s, path, size, env);
      && verdict == Reserved && PinnedRoot(c', Source) == PinnedRoot(c, Source)
      && c'.staging == c.staging[path := c.staging[path].(reserved := size)]
  {
    ReserveMakesRoom(c, s, path, size, env);
    LeasedStay(c, Room(c, s, path, size), env.now, Reserve(c, s, path, size, env).0);
  }

  lemma LeasedStay(c: Cache, limit: int, now: Time, c': Cache)
    requires RoomMade(c, Source, {}, limit, now, c'.sources) && LeasesPositive(c) && c'.leases == c.leases
    ensures PinnedRoot(c', Source) == PinnedRoot(c, Source)
  {
    var m, guarded := c.sources, {} + c.leases.Keys;
    var run :| OldestRun(m, guarded, now, limit, run) && forall id :: id in m ==>
      (id in c'.sources <==> if Stamped(m[id]) then id in Standing(m, guarded, now) && id !in run else c.Leased(id));
    forall id | id in m && id in c.leases ensures id in c'.sources {
      assert id in run ==> Evictable(m, guarded, now, id);
    }
  }

  // ---- the steps ----

  // What is done before the source is looked up, and how that ends.
  predicate Asks(d: Draft, p: IngestPc, a: Action) {
    match p
    case IStart(_) => a == TakeSlot(IngestSlots, true)
    case IName(_) => a.Name? && a.name == ForSource(SourceIdOf(d.u))
    case ITry(_, lock) => a == TryLock(lock, true)
    case ILook(_, _) => a == LookSrc(SourceIdOf(d.u), d.now, Missing)
    case _ => false
  }

  lemma AskWalks(w: World, s: Settings, d: Draft, p: IngestPc, a: Action) returns (p': IngestPc)
    requires Drafting(d, p) && Uploadable(w, s, d) && Asks(d, p, a)
    ensures Advances(w, s, d, p, a, p') && (Asking(p') || p'.IStage?) && (p'.IStage? <==> p.ILook?)
  {
    match p {
      case IStart(u) => p' := IName(u);
      case IName(u) => p' := ITry(u, a.lock);
      case ITry(u, lock) => p' := ILook(u, lock);
      case ILook(u, lock) => p' := IStage(u, lock);
    }
  }

  lemma AskTakes(sh: Shared, d: Draft, p: IngestPc) returns (a: Action, sh': Shared)
    requires Asking(p) && !p.ILook? && Able(sh, d, p)
    ensures Effect(sh, a, sh') && sh'.cache == sh.cache && sh'.settings == sh.settings && sh'.next >= sh.next
    ensures Asks(d, p, a)
  {
    match p {
      case IStart(_) => a, sh' := TakeSlot(IngestSlots, true), sh.(ingestions := sh.ingestions + 1);
      case ITry(_, lock) => a, sh' := TryLock(lock, true), sh.(held := sh.held + {lock});
      case IName(_) =>
        var lock;
        lock, sh' := TakesLock(sh, ForSource(SourceIdOf(d.u)));
        a := Name(ForSource(SourceIdOf(d.u)), lock);
    }
  }

  lemma AskGoes(w: World, sh: Shared, d: Draft, p: IngestPc) returns (a: Action, p': IngestPc, sh': Shared)
    requires Drafting(d, p) && Spacious(sh, d, p) && Uploadable(w, sh.settings, d) && Fresh(sh)
    requires Asking(p) && !p.ILook? && Able(sh, d, p)
    ensures Goes(w, sh, d, p, a, p', sh')
  {
    a, sh' := AskTakes(sh, d, p);
    p' := AskWalks(w, sh.settings, d, p, a);
    StaysSpacious(sh, sh', d, p, p');
  }

  lemma LookGoes(w: World, sh: Shared, d: Draft, p: IngestPc) returns (a: Action, p': IngestPc, sh': Shared)
    requires Drafting(d, p) && Spacious(sh, d, p) && Uploadable(w, sh.settings, d) && Orderly(w, sh.cache) && p.ILook?
    ensures Goes(w, sh, d, p, a, p', sh')
  {
    var id := SourceIdOf(d.u);
    MissingLeaves(w, sh.settings, sh.cache, id, d.now);
    var (c', found) := GetSource(sh.cache, sh.settings, id, d.now, true);
    a, sh' := LookSrc(id, d.now, found), sh.(cache := c');
    p' := AskWalks(w, sh.settings, d, p, a);
    SamePins(sh.cache, c', sh.settings, Source, sh.next, SpaceFor(d));
  }

  lemma StageGoes(w: World, sh: Shared, d: Draft, lock: LockId) returns (a: Action, p': IngestPc, sh': Shared)
    requires Spacious(sh, d, IStage(d.u, lock))
    ensures Goes(w, sh, d, IStage(d.u, lock), a, p', sh')
  {
    a, p' := Stage(Source, sh.next), IReserve(d.u, lock, sh.next);
    var c' := StagingPath(sh.cache, Source, sh.next);
    sh' := sh.(cache := c', next := sh.next + 1);
    assert c'.staging - {sh.next} == sh.cache.staging - {sh.next};
    assert PinnedRoot(c', Source) == PinnedRoot(sh.cache, Source);
    SamePins(sh.cache, c', sh.settings, Source, sh.next, SpaceFor(d));
  }

  predicate ReservesAll(a: Action, path: Path, d: Draft) {
    a.Resv? && a.path == path && a.size == |d.u.content| && a.verdict == Reserved
  }

  lemma TakesRoom(w: World, sh: Shared, path: Path, d: Draft) returns (a: Action, sh': Shared)
    requires Orderly(w, sh.cache) && IsArea(sh.cache, path, Source)
    requires Fits(sh.cache, sh.settings, Source, path, SpaceFor(d))
    ensures ReservesAll(a, path, d) && Effect(sh, a, sh')
    ensures sh'.settings == sh.settings && Fits(sh'.cache, sh'.settings, Source, path, SpaceFor(d))
  {
    ValidIsWellFormed(w, sh.cache);
    var env := Granted(sh.cache, sh.settings, path, |d.u.content|, d.now);
    ReservationLeaves(sh.cache, sh.settings, path, |d.u.content|, env);
    var (c', verdict) := Reserve(sh.cache, sh.settings, path, |d.u.content|, env);
    a, sh' := Resv(path, |d.u.content|, env, verdict), sh.(cache := c');
    assert c'.staging - {path} == sh.cache.staging - {path};
    SamePins(sh.cache, c', sh.settings, Source, path, SpaceFor(d));
  }

  predicate Copying(d: Draft, p: IngestPc) { p.IReserve? || (p.ICopy? && p.copied < |d.u.content|) }

  lemma CopyWalks(w: World, s: Settings, d: Draft, p: IngestPc, path: Path, a: Action) returns (p': IngestPc)
    requires Drafting(d, p) && Uploadable(w, s, d) && Copying(d, p) && ReservesAll(a, path, d) && IsAt(p, path)
    ensures Advances(w, s, d, p, a, p') && p'.ICopy? && IsAt(p', path)
  {
    p' := ICopy(p.u, p.lock, p.path, if p.IReserve? then 0 else |d.u.content|);
  }

  // The staging area of an ingestion under way.
  predicate IsAt(p: IngestPc, path: Path) { (p.IReserve? || p.ICopy? || p.IConvert? || p.ICommit?) && p.path == path }

  lemma CopyGoes(w: World, sh: Shared, d: Draft, p: IngestPc, path: Path)
    returns (a: Action, p': IngestPc, sh': Shared)
    requires Drafting(d, p) && Spacious(sh, d, p) && Uploadable(w, sh.settings, d) && Orderly(w, sh.cache)
    requires Copying(d, p) && IsAt(p, path) && IsArea(sh.cache, path, Source)
    ensures Goes(w, sh, d, p, a, p', sh')
  {
    a, sh' := TakesRoom(w, sh, path, d);
    p' := CopyWalks(w, sh.settings, d, p, path, a);
  }

  lemma ConvertGoes(w: World, sh: Shared, d: Draft, p: IngestPc) returns (a: Action, p': IngestPc, sh': Shared)
    requires Drafting(d, p) && Spacious(sh, d, p) && Uploadable(w, sh.settings, d)
    requires (p.IConvert? || p.ICopy?) && !Copying(d, p)
    ensures Goes(w, sh, d, p, a, p', sh')
  {
    a, sh' := Tau, sh;
    p' := if p.ICopy? then IConvert(p.u, p.lock, p.path) else ICommit(p.u, p.lock, p.path, d.schema, d.file, d.data);
    StaysSpacious(sh, sh', d, p, p');
  }

  // The entry as it is staged.
  function EntryOf(s: Settings, d: Draft): Entry {
    SourceEntry(SourceRecordOf(d.u, d.schema, d.file, d.data), map[d.file := d.data], d.payload, d.base, d.now, s)
  }

  lemma CommitSucceeds(sh: Shared, path: Path, r: SourceRecord, e: Entry, env: Env) returns (sh': Shared)
    requires r.id !in sh.cache.sources && Verdict(sh.cache, sh.settings, path, Size(e), env) == Reserved
    ensures Effect(sh, PutSource(path, r, e, env, env, None, Committed(r)), sh')
  {
    var (c', put) := CommitSource(sh.cache, sh.settings, path, r, e, env, env, None);
    assert put == Committed(r);
    sh' := sh.(cache := c');
  }

  function Drafted(d: Draft, lock: LockId, path: Path): IngestPc {
    ICommit(d.u, lock, path, d.schema, d.file, d.data)
  }

  lemma CommitWalks(w: World, s: Settings, d: Draft, lock: LockId, path: Path, env: Env)
    ensures var r := SourceRecordOf(d.u, d.schema, d.file, d.data);
      Advances(w, s, d, Drafted(d, lock, path), PutSource(path, r, EntryOf(s, d), env, env, None, Committed(r)),
               IDiscard(d.u, lock, path, false, Created(r)))
  {
    assert StagesSource(d.u, d.schema, d.file, d.data, SourceRecordOf(d.u, d.schema, d.file, d.data), EntryOf(s, d));
  }

  lemma CommitGoes(w: World, sh: Shared, d: Draft, lock: LockId, path: Path)
    returns (a: Action, p': IngestPc, sh': Shared)
    requires Spacious(sh, d, Drafted(d, lock, path)) && Orderly(w, sh.cache) && IsArea(sh.cache, path, Source)
    requires SourceIdOf(d.u) !in sh.cache.sources
    ensures Goes(w, sh, d, Drafted(d, lock, path), a, p', sh')
  {
    var r, e := SourceRecordOf(d.u, d.schema, d.file, d.data), EntryOf(sh.settings, d);
    ValidIsWellFormed(w, sh.cache);
    var env := Granted(sh.cache, sh.settings, path, Size(e), d.now);
    sh' := CommitSucceeds(sh, path, r, e, env);
    a, p' := PutSource(path, r, e, env, env, None, Committed(r)), IDiscard(d.u, lock, path, false, Created(r));
    CommitWalks(w, sh.settings, d, lock, path, env);
  }

  // ---- the whole way ----

  /** What is free for an upload: the lock of its name, a slot, room. */
  ghost predicate Ready(w: World, s: State, t: Tid, d: Draft) {
    && t in s.threads && s.threads[t].I? && Uploadable(w, s.sh.settings, d)
    && Drafting(d, s.threads[t].i)
    && (ReportOf(s.threads[t]).None? ==> Spacious(s.sh, d, s.threads[t].i))
    && (s.threads[t].i.IStart? ==> s.sh.ingestions < s.sh.settings.maxIngestions)
    && NameFree(s.threads, t, ForSource(SourceIdOf(d.u)))
  }

  ghost predicate Able(sh: Shared, d: Draft, p: IngestPc) {
    && (p.IStart? ==> sh.ingestions < sh.settings.maxIngestions)
    && (p.ITry? ==> p.lock !in sh.held)
    && (p.IReserve? || p.ICopy? || p.ICommit? ==>
          IsArea(sh.cache, p.path, Source))
    && (p.ICommit? ==> SourceIdOf(d.u) !in sh.cache.sources)
  }

  lemma ReadyIsAble(w: World, s: State, t: Tid, d: Draft)
    requires Invariant(w, s) && Ready(w, s, t, d) && ReportOf(s.threads[t]).None?
    ensures Able(s.sh, d, s.threads[t].i) && Orderly(w, s.sh.cache) && Fresh(s.sh)
  {
    var p := s.threads[t].i;
    if p.ITry? { LockIsFree(s, t, Grip(ForSource(SourceIdOf(d.u)), p.lock)); }
    assert HoldingOf(I(p)).claim.Some? ==> ClaimAgrees(s.sh, HoldingOf(I(p)).claim.value);
    assert TargetAgrees(s.sh, HoldingOf(I(p)));
  }

  lemma NextOnWay(w: World, sh: Shared, d: Draft, p: IngestPc) returns (a: Action, p': IngestPc, sh': Shared)
    requires Drafting(d, p) && Spacious(sh, d, p) && Uploadable(w, sh.settings, d)
    requires Orderly(w, sh.cache) && Fresh(sh) && Able(sh, d, p) && ReportOf(I(p)).None?
    ensures Goes(w, sh, d, p, a, p', sh')
  {
    if p.ILook? {
      a, p', sh' := LookGoes(w, sh, d, p);
    } else if Asking(p) {
      a, p', sh' := AskGoes(w, sh, d, p);
    } else if p.IStage? {
      a, p', sh' := StageGoes(w, sh, d, p.lock);
    } else if Copying(d, p) {
      a, p', sh' := CopyGoes(w, sh, d, p, p.path);
    } else if p.ICommit? {
      a, p', sh' := CommitGoes(w, sh, d, p.lock, p.path);
    } else {
      a, p', sh' := ConvertGoes(w, sh, d, p);
    }
  }

  predicate Stands(threads: map<Tid, Pc>, t: Tid, p: IngestPc) { t in threads && threads[t] == I(p) }

  lemma GoesOn(w: World, s: State, t: Tid, d: Draft, p: IngestPc, a: Action, p': IngestPc, sh': Shared)
    requires Stands(s.threads, t, p) && Goes(w, s.sh, d, p, a, p', sh')
    ensures ThreadStep(w, s, t, a, I(p'), State(sh', s.threads[t := I(p')]))
    ensures sh'.settings == s.sh.settings && Distance(d, p') < Distance(d, p)
  {
  }

  lemma GoneIsReady(w: World, s: State, t: Tid, d: Draft, p: IngestPc, a: Action, p': IngestPc, sh': Shared)
    requires Ready(w, s, t, d) && Stands(s.threads, t, p)
    requires Goes(w, s.sh, d, p, a, p', sh') && sh'.settings == s.sh.settings
    ensures Ready(w, State(sh', s.threads[t := I(p')]), t, d)
  {
  }

  lemma StepTaken(w: World, s: State, t: Tid, d: Draft) returns (a: Action, p': Pc, s': State)
    requires Invariant(w, s) && Ready(w, s, t, d) && Height(t, d)(s) > 0
    ensures ThreadStep(w, s, t, a, p', s') && Ready(w, s', t, d) && Height(t, d)(s') < Height(t, d)(s)
  {
    var p := s.threads[t].i;
    ReadyIsAble(w, s, t, d);
    var i', sh';
    a, i', sh' := NextOnWay(w, s.sh, d, p);
    p' := I(i');
    s' := State(sh', s.threads[t := p']);
    GoesOn(w, s, t, d, p, a, i', sh');
    GoneIsReady(w, s, t, d, p, a, i', sh');
  }

  ghost function Going(w: World, t: Tid, d: Draft): State -> bool { s => Invariant(w, s) && Ready(w, s, t, d) }

  function Height(t: Tid, d: Draft): State -> nat {
    (s: State) => if t in s.threads && s.threads[t].I? then Distance(d, s.threads[t].i) else 0
  }

  lemma Onward(w: World, s: State, t: Tid, d: Draft) returns (l: Label, s': State)
    requires Sound(w) && Going(w, t, d)(s) && Height(t, d)(s) > 0
    ensures Own(w, t)(s, l, s') && Going(w, t, d)(s') && Height(t, d)(s') < Height(t, d)(s)
  {
    var a, p';
    a, p', s' := StepTaken(w, s, t, d);
    l := Do(t, a, p');
    OwnStep(w, s, t, a, p', s');
    ThreadStepKeeps(w, s, t, a, p', s');
  }

  lemma Arrived(w: World, s: State, t: Tid, d: Draft) returns (r: SourceRecord)
    requires Going(w, t, d)(s) && Height(t, d)(s) == 0
    ensures Invariant(w, s) && Reporting(s, t, Created(r)) && Depicts(r, d)
  {
    r := ReportOf(s.threads[t]).value.source;
  }

  lemma StartIsReady(w: World, s: State, t: Tid, d: Draft)
    requires StagingCounted(s) && t in s.threads && s.threads[t] == I(IStart(d.u))
    requires Uploadable(w, s.sh.settings, d) && !Servable(s.sh.cache, Source, SourceIdOf(d.u), d.now)
    requires NameFree(s.threads, t, ForSource(SourceIdOf(d.u))) && s.sh.ingestions < s.sh.settings.maxIngestions
    requires Pinned(s.sh.cache, Source) + Staged(s.sh.cache.staging, Source) + SpaceFor(d)
          <= s.sh.settings.sourceMaxBytes
    ensures Ready(w, s, t, d)
  {
    assert s.sh.cache.staging - {s.sh.next} == s.sh.cache.staging;
  }

  lemma DraftIsCarriedOut(w: World, s: State, t: Tid, d: Draft)
    returns (states: seq<State>, labels: seq<Label>, r: SourceRecord)
    requires Sound(w) && Going(w, t, d)(s)
    ensures Finishes(w, s, t, states, labels) && Reporting(states[|labels|], t, Created(r)) && Depicts(r, d)
  {
    forall x | Going(w, t, d)(x) && Height(t, d)(x) > 0
      ensures exists l, y :: Own(w, t)(x, l, y) && Going(w, t, d)(y) && Height(t, d)(y) < Height(t, d)(x)
    {
      var l, y := Onward(w, x, t, d);
    }
    var up, way := PathDown(s, Own(w, t), Going(w, t, d), Height(t, d));
    var s' := up[|way|];
    r := Arrived(w, s', t, d);
    var states', labels' := ReportArrives(w, s', t, Created(r));
    states, labels := up + states'[1..], way + labels';
    FinishFollows(w, s, t, up, way, states', labels');
  }

  /** An upload that keeps its declaration and the limits is carried out by its own steps, whatever the others
      hold, provided that the source is not there to be served, that nobody has the lock of its name, that a slot
      is free, and that it fits, converted and with 54 bytes for its stamps, beside what is leased and reserved.
      The record it reports tells what was uploaded. */
  lemma UploadIsCreated(w: World, s: State, t: Tid, d: Draft)
    returns (states: seq<State>, labels: seq<Label>, r: SourceRecord)
    requires Sound(w) && Invariant(w, s) && t in s.threads && s.threads[t] == I(IStart(d.u))
    requires Uploadable(w, s.sh.settings, d) && !Servable(s.sh.cache, Source, SrcId(d.u.scope, d.u.ref), d.now)
    requires NameFree(s.threads, t, ForSource(SrcId(d.u.scope, d.u.ref)))
    requires s.sh.ingestions < s.sh.settings.maxIngestions
    requires Pinned(s.sh.cache, Source) + Staged(s.sh.cache.staging, Source) + SpaceFor(d)
          <= s.sh.settings.sourceMaxBytes
    ensures Finishes(w, s, t, states, labels) && Reporting(states[|labels|], t, Created(r)) && Depicts(r, d)
  {
    StartIsReady(w, s, t, d);
    states, labels, r := DraftIsCarriedOut(w, s, t, d);
  }
}
