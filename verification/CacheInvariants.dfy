/** What every cache operation keeps: leased entries, contents, quotas, recoverability. */
module CacheInvariants {
  import opened Basics
  import opened Model
  import opened CacheSpec
  import opened CleanupTheorems

  // ---- tame changes: entries may be touched or, unless leased, removed; nothing is added ----

  ghost predicate SameContent(e: Entry, e': Entry) {
    && e' == e.(manifest := e.manifest.(accessed := e'.manifest.accessed, expires := e'.manifest.expires))
    && (!Malformed(e) ==> !Malformed(e'))
  }

  ghost predicate Shrinks(m: map<Id, Entry>, m': map<Id, Entry>, leases: map<Id, nat>) {
    && (forall id :: id in m' ==> id in m && SameContent(m[id], m'[id]))
    && (forall id :: id in m && id in leases && leases[id] > 0 ==> id in m')
  }

  ghost predicate Tame(c: Cache, c': Cache) {
    && c'.leases == c.leases
    && Shrinks(c.sources, c'.sources, c.leases)
    && Shrinks(c.results, c'.results, c.leases)
  }

  lemma TameTransitive(a: Cache, b: Cache, c: Cache)
    requires Tame(a, b) && Tame(b, c)
    ensures Tame(a, c)
  {
  }

  lemma CleanupIsTame(c: Cache, k: Kind, maxBytes: int, protect: set<Id>, env: Env)
    ensures Tame(c, Cleanup(c, k, maxBytes, protect, env))
    ensures Cleanup(c, k, maxBytes, protect, env).staging == c.staging
    ensures forall id :: id in protect && id in c.Root(k) && !Malformed(c.Root(k)[id]) ==>
              id in Cleanup(c, k, maxBytes, protect, env).Root(k)
  {
    CleanupFrame(c, k, maxBytes, protect, env);
    var guarded := protect + c.leases.Keys;
    var ids := CountedIds(c, k, env.listing, guarded, env.now);
    EvictSparesGuarded(c.Root(k), SortByAccess(c.Root(k), ids), BytesOf(c.Root(k), ids), maxBytes, guarded);
  }

  lemma {:induction false} EvictSparesGuarded(m: map<Id, Entry>, order: seq<Id>, total: int, maxBytes: int,
                                              guarded: set<Id>)
    ensures Evict(m, order, total, maxBytes, guarded) !! guarded
  {
    if order != [] && total > maxBytes {
      EvictSparesGuarded(m, order[1..], total, maxBytes, guarded);
      EvictSparesGuarded(m, order[1..], total - SizeOf(m, order[0]), maxBytes, guarded);
    }
  }

  /** Lease safety of the lookups: neither expiry nor a touch takes a leased entry away. */
  lemma GetSourceIsTame(c: Cache, s: Settings, id: Id, now: Time, touch: bool)
    ensures Tame(c, GetSource(c, s, id, now, touch).0)
    ensures GetSource(c, s, id, now, touch).0.staging == c.staging
  {
  }

  lemma GetResultIsTame(c: Cache, s: Settings, id: Id, now: Time, touch: bool)
    ensures Tame(c, GetResult(c, s, id, now, touch).0)
    ensures GetResult(c, s, id, now, touch).0.staging == c.staging
  {
  }

  /** An entry whose record and expiry a lookup can read. */
  predicate Readable(e: Entry, k: Kind) {
    e.manifest.record.Some? && e.manifest.expires.Some? && (e.manifest.record.value.SourceRec? <==> k.Source?)
  }

  /** And whose data file is there. */
  predicate Complete(e: Entry, k: Kind) {
    && Readable(e, k)
    && IsBareName(DataFile(e.manifest.record.value)) && DataFile(e.manifest.record.value) in e.files
  }

  predicate NamesKind(k: Kind, id: Id) { if k.Source? then IsSourceId(id) else IsResultId(id) }

  /** What a lookup can serve: a complete entry that has not expired, or is leased. */
  predicate Servable(c: Cache, k: Kind, id: Id, now: Time) {
    && NamesKind(k, id) && id in c.Root(k) && Complete(c.Root(k)[id], k)
    && (c.Root(k)[id].manifest.expires.value > now || c.Leased(id))
  }

  /** The same entry with new stamps: looked up now, alive for so many seconds more. */
  function Restamped(e: Entry, now: Time, ttlSeconds: nat): Entry {
    e.(manifest := e.manifest.(accessed := Some(now), expires := Some(now + 1_000_000 * ttlSeconds)))
  }

  /** A name whose manifest makes the lookup raise: its expiry cannot be read. */
  predicate Unstamped(c: Cache, k: Kind, id: Id) {
    && NamesKind(k, id) && id in c.Root(k)
    && var m := c.Root(k)[id].manifest; m.record.Some? && (m.record.value.SourceRec? <==> k.Source?) && m.expires.None?
  }

  /** What becomes of the entry that a lookup asks for: served, it has the stamps of now, if it is
      touched, and all else as before; not served, it is gone unless a lease keeps it. */
  ghost predicate Answers(c: Cache, k: Kind, id: Id, now: Time, ttl: nat, touch: bool, found: bool, c': Cache) {
    var m, m' := c.Root(k), c'.Root(k);
    && m' - {id} == m - {id}
    && c'.leases == c.leases && c'.staging == c.staging
    && (forall other: Kind :: other != k ==> c'.Root(other) == c.Root(other))
    && (found ==> id in m && id in m' && m'[id] == if touch then Restamped(m[id], now, ttl) else m[id])
    && (!found && NamesKind(k, id) && id in m && Readable(m[id], k) ==> (id in m' <==> c.Leased(id)))
  }

  /** Lookups of sources: expired entries are never served unless leased, a lease serves whatever
      the clock says, and what cannot be served is removed. */
  lemma SourceLookupExact(c: Cache, s: Settings, id: Id, now: Time, touch: bool)
    ensures var (c', found) := GetSource(c, s, id, now, touch);
      && Answers(c, Source, id, now, s.sourceTtlSeconds, touch, found.Found?, c')
      && (found.Found? <==> Servable(c, Source, id, now))
      && (found.BadStamp? <==> Unstamped(c, Source, id))
      && (found.Found? ==> c.sources[id].manifest.record == Some(SourceRec(found.record)))
  {
    SourceServed(c, s, id, now, touch);
    var c' := GetSource(c, s, id, now, touch).0;
    assert c'.sources - {id} == c.sources - {id};
  }

  lemma SourceServed(c: Cache, s: Settings, id: Id, now: Time, touch: bool)
    ensures var found := GetSource(c, s, id, now, touch).1;
      && (found.Found? <==> Servable(c, Source, id, now))
      && (found.BadStamp? <==> Unstamped(c, Source, id))
      && (found.Found? ==> c.sources[id].manifest.record == Some(SourceRec(found.record)))
  {
  }

  lemma ResultLookupExact(c: Cache, s: Settings, id: Id, now: Time, touch: bool)
    ensures var (c', found) := GetResult(c, s, id, now, touch);
      && Answers(c, Result, id, now, s.resultTtlSeconds, touch, found.Found?, c')
      && (found.Found? <==> Servable(c, Result, id, now))
      && (found.BadStamp? <==> Unstamped(c, Result, id))
      && (found.Found? ==> c.results[id].manifest.record == Some(ResultRec(found.record)))
  {
    ResultServed(c, s, id, now, touch);
    var c' := GetResult(c, s, id, now, touch).0;
    assert c'.results - {id} == c.results - {id};
  }

  lemma ResultServed(c: Cache, s: Settings, id: Id, now: Time, touch: bool)
    ensures var found := GetResult(c, s, id, now, touch).1;
      && (found.Found? <==> Servable(c, Result, id, now))
      && (found.BadStamp? <==> Unstamped(c, Result, id))
      && (found.Found? ==> c.results[id].manifest.record == Some(ResultRec(found.record)))
  {
  }

  lemma ByQueryKeyIsTame(c: Cache, s: Settings, key: QueryKey, now: Time)
    ensures Tame(c, ByQueryKey(c, s, key, now).0)
    ensures ByQueryKey(c, s, key, now).0.staging == c.staging
  {
    GetResultIsTame(c, s, ResKey(key), now, true);
  }

  lemma DropLegacyIsTame(c: Cache, key: QueryKey)
    ensures Tame(c, DropLegacy(c, key).0)
    ensures DropLegacy(c, key).0.staging == c.staging
  {
  }

  lemma PurgeIsTame(c: Cache, sel: Selector, dryRun: bool)
    ensures Tame(c, Purge(c, sel, dryRun).0)
    ensures Purge(c, sel, dryRun).0.staging == c.staging
  {
    var sources, results := SelectedSources(c, sel), SelectedResults(c, sel);
    var busy := set id | id in sources + results && c.Leased(id);
    forall id | id in sources + results ensures c.Leased(id) ==> id in busy {}
  }

  lemma MakeRoomIsTame(c: Cache, s: Settings, path: Path, size: nat, env: Env)
    requires path in c.staging
    ensures Tame(c, MakeRoom(c, s, path, size, env))
    ensures MakeRoom(c, s, path, size, env).staging == c.staging
  {
    CleanupIsTame(c, c.staging[path].kind,
      MaxBytes(s, c.staging[path].kind) - (size + Others(c, path)), {}, env);
  }

  lemma ReserveIsTame(c: Cache, s: Settings, path: Path, size: nat, env: Env)
    ensures var (c', verdict) := Reserve(c, s, path, size, env);
      && Tame(c, c')
      && (verdict == Reserved ==> path in c.staging)
      && c'.staging ==
         (if verdict == Reserved then c.staging[path := c.staging[path].(reserved := size)] else c.staging)
  {
    if path in c.staging {
      MakeRoomIsTame(c, s, path, size, env);
    }
  }

  /** The state between the rename and the end of a commit: the area forgotten, or still known. */
  ghost function Renamed(c: Cache, s: Settings, k: Kind, path: Path, id: Id, e: Entry, before: Env, known: bool): Cache
    requires Verdict(c, s, path, Size(e), before) == Reserved
  {
    var c1 := Reserve(c, s, path, Size(e), before).0;
    c1.WithRoot(k, c1.Root(k)[id := e]).(
      staging := if known then c1.staging[path := c1.staging[path].(moved := true)] else c1.staging - {path})
  }

  lemma InsertIsTame(c: Cache, c1: Cache, c2: Cache, k: Kind, id: Id, e: Entry)
    requires Tame(c, c1) && id !in c.Root(k)
    requires c2.leases == c1.leases && c2.Root(k) == c1.Root(k)[id := e]
    requires forall other: Kind :: other != k ==> c2.Root(other) == c1.Root(other)
    ensures Tame(c.WithRoot(k, c.Root(k)[id := e]), c2)
  {
    assert c2.Root(Source) == c2.sources && c2.Root(Result) == c2.results;
  }

  lemma RenamedIsTame(c: Cache, s: Settings, k: Kind, path: Path, id: Id, e: Entry, before: Env, known: bool)
    requires id !in c.Root(k) && Verdict(c, s, path, Size(e), before) == Reserved
    ensures Tame(c.WithRoot(k, c.Root(k)[id := e]), Renamed(c, s, k, path, id, e, before, known))
    ensures id in Renamed(c, s, k, path, id, e, before, known).Root(k)
    ensures Renamed(c, s, k, path, id, e, before, known).Root(k)[id] == e
  {
    ReserveIsTame(c, s, path, Size(e), before);
    InsertIsTame(c, Reserve(c, s, path, Size(e), before).0, Renamed(c, s, k, path, id, e, before, known), k, id, e);
  }

  // What a commit leaves of its staging area.
  ghost function LeftStaged(c: Cache, path: Path, e: Entry, mishap: Option<Mishap>): map<Path, Area>
    requires path in c.staging
  {
    if mishap == Some(Unsynced) then c.staging[path := Area(c.staging[path].kind, Size(e), true)]
        else c.staging - {path}
  }

  /** Publishing adds one entry; everything else is tame and the staging area is given up, unless a
      directory could not be synchronised. A refusal adds nothing. */
  lemma PublishIsTame(c: Cache, s: Settings, k: Kind, path: Path, id: Id, e: Entry, before: Env, after: Env,
                      mishap: Option<Mishap>)
    requires id !in c.Root(k)
    ensures var (c', verdict) := Publish(c, s, k, path, id, e, before, after, mishap);
      if verdict == Reserved then
        && path in c.staging && c'.staging == LeftStaged(c, path, e, mishap)
        && Tame(c.WithRoot(k, c.Root(k)[id := e]), c')
        && (!Malformed(e) ==> id in c'.Root(k))
      else Tame(c, c') && c'.staging == c.staging
  {
    ReserveIsTame(c, s, path, Size(e), before);
    if Verdict(c, s, path, Size(e), before) == Reserved {
      RenamedIsTame(c, s, k, path, id, e, before, mishap == Some(Unsynced));
      if mishap.None? {
        var c2 := Renamed(c, s, k, path, id, e, before, false);
        CleanupIsTame(c2, k, MaxBytes(s, k), {id}, after);
        TameTransitive(c.WithRoot(k, c.Root(k)[id := e]), c2, Cleanup(c2, k, MaxBytes(s, k), {id}, after));
      }
    }
  }

  // ---- what a reservation and a commit may evict ----

  ghost predicate SameOther(c: Cache, k: Kind, c': Cache) {
    c'.leases == c.leases && forall other: Kind :: other != k ==> c'.Root(other) == c.Root(other)
  }

  /** The bytes left for committed entries of the kind when the other areas and the request have theirs. */
  ghost function Room(c: Cache, s: Settings, path: Path, size: nat): int
    requires path in c.staging
  {
    MaxBytes(s, c.staging[path].kind) - size - Staged(c.staging - {path}, c.staging[path].kind)
  }

  /** What reserve answers and what it evicts: nothing when the request is refused for its size or for the
      volume, else as much as makes room for it. */
  ghost predicate ReserveDone(c: Cache, s: Settings, path: Path, size: nat, env: Env, c': Cache, r: Reservation) {
    if path !in c.staging then r == NoArea && c' == c
    else
      var k, room := c.staging[path].kind, Room(c, s, path, size);
      && r != NoArea
      && (r == StagedTooMuch <==> room < 0)
      && (r == VolumeFull <==> room >= 0 && size - c.staging[path].reserved > env.free)
      && (r == StagedTooMuch || r == VolumeFull ==> c' == c)
      && (r == Reserved || r == Busy ==>
            && RoomMade(c, k, {}, room, env.now, c'.Root(k)) && SameOther(c, k, c')
            && (r == Reserved <==> Total(c'.Root(k)) <= room)
            && c'.staging == if r == Reserved then c.staging[path := c.staging[path].(reserved := size)] else c.staging)
  }

  lemma ReserveMakesRoom(c: Cache, s: Settings, path: Path, size: nat, env: Env)
    requires path in c.staging ==> Covers(env.listing, c.Root(c.staging[path].kind))
    ensures ReserveDone(c, s, path, size, env, Reserve(c, s, path, size, env).0, Reserve(c, s, path, size, env).1)
  {
    if path in c.staging {
      var k := c.staging[path].kind;
      CleanupMakesRoom(c, k, Room(c, s, path, size), {}, env);
      CleanupFrame(c, k, Room(c, s, path, size), {}, env);
      MakeRoomLimit(c, s, path, size, env);
      RoomIsRemaining(c, s, path, size, env);
      VerdictCases(c, s, path, size, env);
      ReserveCases(c, s, path, size, env);
    }
  }

  lemma MakeRoomLimit(c: Cache, s: Settings, path: Path, size: nat, env: Env)
    requires path in c.staging
    ensures MakeRoom(c, s, path, size, env) == Cleanup(c, c.staging[path].kind, Room(c, s, path, size), {}, env)
  {
    assert MaxBytes(s, c.staging[path].kind) - (size + Others(c, path)) == Room(c, s, path, size);
  }

  lemma VerdictCases(c: Cache, s: Settings, path: Path, size: nat, env: Env)
    requires path in c.staging
    ensures var r, room := Verdict(c, s, path, size, env), Room(c, s, path, size);
      && r != NoArea
      && (r == StagedTooMuch <==> room < 0)
      && (r == VolumeFull <==> room >= 0 && size - c.staging[path].reserved > env.free)
      && (r == Reserved ==> Remaining(c, c.staging[path].kind, size + Others(c, path), s, env) <= room)
      && (r == Busy ==> Remaining(c, c.staging[path].kind, size + Others(c, path), s, env) > room)
  {
  }

  lemma ReserveCases(c: Cache, s: Settings, path: Path, size: nat, env: Env)
    requires path in c.staging
    ensures var (c', r) := Reserve(c, s, path, size, env);
      var c1 := MakeRoom(c, s, path, size, env);
      && r == Verdict(c, s, path, size, env)
      && c' == (if r == Reserved then c1.(staging := c1.staging[path := c.staging[path].(reserved := size)])
                else if r == Busy then c1 else c)
  {
    VerdictCases(c, s, path, size, env);
  }

  // The new entry, and of the others all but what has expired by now and nobody leases.
  ghost predicate Leaves(m: map<Id, Entry>, leases: map<Id, nat>, id: Id, e: Entry, now: Time, m': map<Id, Entry>) {
    && (forall i :: i in m' && i != id ==> i in m && m'[i] == m[i])
    && (forall i :: i in m && i != id && (Live(m[i], now) || (Stamped(m[i]) && i in leases)) ==> i in m')
    && (id in m' ==> m'[id] == e)
    && (Stamped(e) ==> id in m')
  }

  /** What a commit leaves of its root: its entry, and what its reservation left, except what has expired
      since unless somebody leases it. */
  ghost predicate CommitLeaves(c: Cache, s: Settings, k: Kind, path: Path, id: Id, e: Entry, before: Env, after: Env,
                               c': Cache)
  {
    && path in c.staging && SameOther(c, k, c')
    && exists m ::
        && RoomMade(c, k, {}, Room(c, s, path, Size(e)), before.now, m)
        && Leaves(m, c.leases, id, e, after.now, c'.Root(k))
  }

  lemma PublishLeaves(c: Cache, s: Settings, k: Kind, path: Path, id: Id, e: Entry, before: Env, after: Env,
                      mishap: Option<Mishap>)
    requires id !in c.Root(k) && (path in c.staging ==> c.staging[path].kind == k)
    requires Covers(before.listing, c.Root(k)) && Distinct(after.listing)
    requires Publish(c, s, k, path, id, e, before, after, mishap).1 == Reserved
    ensures CommitLeaves(c, s, k, path, id, e, before, after, Publish(c, s, k, path, id, e, before, after, mishap).0)
  {
    ReserveMakesRoom(c, s, path, Size(e), before);
    var c1, c' := Reserve(c, s, path, Size(e), before).0, Publish(c, s, k, path, id, e, before, after, mishap).0;
    if mishap.Some? {
      RenameLeaves(c1, s, k, path, id, e, after, mishap);
    } else {
      CommitEvictsNoLiveEntry(c, s, k, path, id, e, before, after);
      TidyLeaves(c1, s, k, path, id, e, after);
    }
    RootLeft(c, s, k, path, id, e, before, after, c1.Root(k), c');
  }

  lemma RenameLeaves(c1: Cache, s: Settings, k: Kind, path: Path, id: Id, e: Entry, after: Env, mishap: Option<Mishap>)
    requires path in c1.staging && mishap.Some?
    ensures var c' := MovedIn(c1, s, k, path, id, e, after, mishap);
      SameOther(c1, k, c') && Leaves(c1.Root(k), c1.leases, id, e, after.now, c'.Root(k))
  {
  }

  lemma TidyLeaves(c1: Cache, s: Settings, k: Kind, path: Path, id: Id, e: Entry, after: Env)
    requires path in c1.staging
    requires var c2 := c1.WithRoot(k, c1.Root(k)[id := e]).(staging := c1.staging - {path});
      EvictedIds(c2, k, MaxBytes(s, k), {id} + c2.leases.Keys, after) == {}
    ensures var c' := MovedIn(c1, s, k, path, id, e, after, None);
      SameOther(c1, k, c') && Leaves(c1.Root(k), c1.leases, id, e, after.now, c'.Root(k))
  {
    var c2 := c1.WithRoot(k, c1.Root(k)[id := e]).(staging := c1.staging - {path});
    CleanupFrame(c2, k, MaxBytes(s, k), {id}, after);
    OnlyDoomedGo(c2, k, MaxBytes(s, k), {id}, after);
  }

  lemma RootLeft(c: Cache, s: Settings, k: Kind, path: Path, id: Id, e: Entry, before: Env, after: Env,
                 m: map<Id, Entry>, c': Cache)
    requires path in c.staging && RoomMade(c, k, {}, Room(c, s, path, Size(e)), before.now, m)
    requires SameOther(c, k, c') && Leaves(m, c.leases, id, e, after.now, c'.Root(k))
    ensures CommitLeaves(c, s, k, path, id, e, before, after, c')
  {
  }

  lemma OnlyDoomedGo(c: Cache, k: Kind, maxBytes: int, protect: set<Id>, env: Env)
    requires EvictedIds(c, k, maxBytes, protect + c.leases.Keys, env) == {}
    ensures forall i :: i in c.Root(k) && i !in Cleanup(c, k, maxBytes, protect, env).Root(k) ==>
      !Live(c.Root(k)[i], env.now) && (Stamped(c.Root(k)[i]) ==> i !in protect + c.leases.Keys)
  {
    CleanupFrame(c, k, maxBytes, protect, env);
  }

  // ---- quotas ----

  // The bytes of an entry with its two stamps on whole seconds.
  ghost function Floor(e: Entry): nat { e.manifest.base + 40 + e.payload }

  ghost predicate WellFormed(m: map<Id, Entry>) { forall id :: id in m ==> !Malformed(m[id]) }

  /** Committed bytes, stamps floored, plus what is reserved for directories under tmp fit the quota
      of a kind. A directory that has moved into the root counts there, not by its reservation. */
  ghost predicate WithinQuota(c: Cache, s: Settings, k: Kind) {
    Sum(c.Root(k), Floor) + StagedHere(c.staging, k) <= MaxBytes(s, k)
  }

  /** Every reservation is of a directory still under tmp, or counts bytes of the root twice. */
  lemma StagedHereWithin(staging: map<Path, Area>, k: Kind)
    ensures StagedHere(staging, k) <= Staged(staging, k)
  {
    SumMonotone(staging, HereFor(k), staging, ReservedFor(k));
  }

  lemma {:induction false} NothingMoved(staging: map<Path, Area>, k: Kind)
    requires forall p :: p in staging && staging[p].kind == k && staging[p].moved ==> staging[p].reserved == 0
    ensures StagedHere(staging, k) == Staged(staging, k)
  {
    StagedHereWithin(staging, k);
    SumMonotone(staging, ReservedFor(k), staging, HereFor(k));
  }

  /** The code's own count exceeds the bytes there are exactly while an area whose directory has
      moved is still registered with bytes. */
  lemma CountedTwiceIff(staging: map<Path, Area>, k: Kind)
    ensures StagedHere(staging, k) == Staged(staging, k) <==>
      forall p :: p in staging && staging[p].kind == k && staging[p].moved ==> staging[p].reserved == 0
  {
    if forall p :: p in staging && staging[p].kind == k && staging[p].moved ==> staging[p].reserved == 0 {
      NothingMoved(staging, k);
    } else {
      var p :| p in staging && staging[p].kind == k && staging[p].moved && staging[p].reserved > 0;
      SumSplit(staging, HereFor(k), p);
      SumSplit(staging, ReservedFor(k), p);
      StagedHereWithin(staging - {p}, k);
    }
  }

  /** What the quota invariant means for the disk: at most 14 bytes of slack an entry. */
  lemma QuotaInBytes(c: Cache, s: Settings, k: Kind)
    requires WithinQuota(c, s, k) && WellFormed(c.Root(k))
    ensures Total(c.Root(k)) + StagedHere(c.staging, k) <= MaxBytes(s, k) + 14 * |c.Root(k)|
  {
    TotalAboveFloor(c.Root(k));
  }

  lemma {:induction false} TotalAboveFloor(m: map<Id, Entry>)
    requires WellFormed(m)
    ensures Sum(m, Floor) <= Total(m) <= Sum(m, Floor) + 14 * |m|
    decreases |m|
  {
    if m != map[] {
      var id :| id in m;
      SumSplit(m, Size, id);
      SumSplit(m, Floor, id);
      TotalAboveFloor(m - {id});
      assert |m - {id}| == |m| - 1 by { assert (m - {id}).Keys == m.Keys - {id}; }
    }
  }

  /** A touching lookup moves the bytes of its root by the change of two stamps: growth happens
      exactly when the clock shows microseconds and the old stamps did not. */
  lemma TouchGrowth(c: Cache, s: Settings, id: Id, now: Time)
    requires GetSource(c, s, id, now, true).1.Found?
    ensures id in c.sources && var old', c' := c.sources[id].manifest, GetSource(c, s, id, now, true).0;
      Total(c'.sources) == Total(c.sources) + 2 * StampBytes(Some(now))
                           - StampBytes(old'.accessed) - StampBytes(old'.expires)
  {
    SumUpdate(c.sources, Size, id, Touched(c.sources[id], now, s.sourceTtlSeconds));
  }

  lemma FloorKept(m: map<Id, Entry>, m': map<Id, Entry>, leases: map<Id, nat>)
    requires Shrinks(m, m', leases)
    ensures Sum(m', Floor) <= Sum(m, Floor)
  {
    SumMonotone(m', Floor, m, Floor);
  }

  lemma QuotaKeptByTame(c: Cache, c': Cache, s: Settings, k: Kind)
    requires Tame(c, c') && c'.staging == c.staging && WithinQuota(c, s, k)
    ensures WithinQuota(c', s, k)
  {
    FloorKept(c.Root(k), c'.Root(k), c.leases);
  }

  /** A granted reservation leaves committed bytes and reservations within the maximum. */
  lemma QuotaAfterReserve(c: Cache, s: Settings, path: Path, size: nat, env: Env, k: Kind)
    requires WithinQuota(c, s, k) && WellFormed(c.Root(k))
    ensures WithinQuota(Reserve(c, s, path, size, env).0, s, k)
  {
    ReserveIsTame(c, s, path, size, env);
    var (c', verdict) := Reserve(c, s, path, size, env);
    FloorKept(c.Root(k), c'.Root(k), c.leases);
    if verdict == Reserved {
      var kind := c.staging[path].kind;
      SumUpdate(c.staging, HereFor(k), path, c.staging[path].(reserved := size));
      if k == kind {
        StagedHereWithin(c.staging - {path}, k);
        ReservedBytesFit(c, s, path, size, env);
        TotalAboveFloor(c'.Root(k));
      }
    }
  }

  lemma ReservedBytesFit(c: Cache, s: Settings, path: Path, size: nat, env: Env)
    requires Verdict(c, s, path, size, env) == Reserved
    ensures Total(Reserve(c, s, path, size, env).0.Root(c.staging[path].kind)) + size + Others(c, path)
         <= MaxBytes(s, c.staging[path].kind)
  {
    RoomIsRemaining(c, s, path, size, env);
    VerdictCases(c, s, path, size, env);
    ReserveRoot(c, s, path, size, env);
  }

  lemma ReserveRoot(c: Cache, s: Settings, path: Path, size: nat, env: Env)
    requires Verdict(c, s, path, size, env) == Reserved
    ensures forall k: Kind :: Reserve(c, s, path, size, env).0.Root(k) == MakeRoom(c, s, path, size, env).Root(k)
  {
  }

  lemma RoomIsRemaining(c: Cache, s: Settings, path: Path, size: nat, env: Env)
    requires path in c.staging
    ensures var k := c.staging[path].kind;
      Total(MakeRoom(c, s, path, size, env).Root(k)) == Remaining(c, k, size + Others(c, path), s, env)
  {
    var k := c.staging[path].kind;
    CleanupFrame(c, k, MaxBytes(s, k) - (size + Others(c, path)), {}, env);
  }

  lemma {:induction false} SeqSumWithin(ids: seq<Id>, m: map<Id, Entry>)
    requires Distinct(ids)
    ensures BytesOf(m, ids) <= Total(m)
    decreases |ids|
  {
    if ids != [] {
      if ids[0] in m {
        SumSplit(m, Size, ids[0]);
        SeqSumWithin(ids[1..], m - {ids[0]});
        forall id | id in ids[1..] ensures id in m <==> id in m - {ids[0]} {}
        SeqSumSame(ids[1..], m, m - {ids[0]}, Size);
      } else {
        SeqSumWithin(ids[1..], m);
      }
    }
  }

  lemma RenamedFits(c: Cache, s: Settings, k: Kind, path: Path, id: Id, e: Entry, before: Env, known: bool)
    requires Verdict(c, s, path, Size(e), before) == Reserved && c.staging[path].kind == k
    requires id !in c.Root(k)
    ensures Total(Renamed(c, s, k, path, id, e, before, known).Root(k)) + Others(c, path) <= MaxBytes(s, k)
  {
    ReservedBytesFit(c, s, path, Size(e), before);
    ReserveIsTame(c, s, path, Size(e), before);
    var c1 := Reserve(c, s, path, Size(e), before).0;
    SumUpdate(c1.Root(k), Size, id, e);
  }

  /** The cleanup that closes a commit never evicts a live entry for space. */
  lemma CommitEvictsNoLiveEntry(c: Cache, s: Settings, k: Kind, path: Path, id: Id, e: Entry, before: Env, after: Env)
    requires Verdict(c, s, path, Size(e), before) == Reserved && c.staging[path].kind == k
    requires id !in c.Root(k)
    requires Distinct(after.listing)
    ensures var c2 := Renamed(c, s, k, path, id, e, before, false);
      EvictedIds(c2, k, MaxBytes(s, k), {id} + c2.leases.Keys, after) == {}
  {
    var c2 := Renamed(c, s, k, path, id, e, before, false);
    var guarded := {id} + c2.leases.Keys;
    RenamedFits(c, s, k, path, id, e, before, false);
    CountedDistinct(c2, k, after.listing, guarded, after.now);
    SeqSumWithin(CountedIds(c2, k, after.listing, guarded, after.now), c2.Root(k));
  }

  /** Once its directory has moved an area stages nothing, known or forgotten. */
  lemma MovedStagesNothing(staging: map<Path, Area>, path: Path, k: Kind)
    requires path in staging
    ensures StagedHere(staging[path := staging[path].(moved := true)], k) == StagedHere(staging - {path}, k)
    ensures StagedHere(staging - {path}, k) <= StagedHere(staging, k)
  {
    SumUpdate(staging, HereFor(k), path, staging[path].(moved := true));
    SumSplit(staging, HereFor(k), path);
  }

  lemma QuotaAfterRename(c: Cache, s: Settings, k: Kind, path: Path, id: Id, e: Entry, before: Env, known: bool,
                         q: Kind)
    requires WithinQuota(c, s, q) && WellFormed(c.Root(q)) && !Malformed(e) && id !in c.Root(k)
    requires Verdict(c, s, path, Size(e), before) == Reserved && c.staging[path].kind == k
    ensures WithinQuota(Renamed(c, s, k, path, id, e, before, known), s, q)
  {
    var c1, c2 := Reserve(c, s, path, Size(e), before).0, Renamed(c, s, k, path, id, e, before, known);
    QuotaAfterReserve(c, s, path, Size(e), before, q);
    ReserveIsTame(c, s, path, Size(e), before);
    MovedStagesNothing(c1.staging, path, q);
    assert c1.staging - {path} == c.staging - {path};
    if q == k {
      RenamedFits(c, s, k, path, id, e, before, known);
      StagedHereWithin(c.staging - {path}, k);
      TotalAboveFloor(c2.Root(k));
    }
  }

  lemma QuotaAfterPublish(c: Cache, s: Settings, k: Kind, path: Path, id: Id, e: Entry, before: Env, after: Env,
                          mishap: Option<Mishap>, q: Kind)
    requires WithinQuota(c, s, q) && WellFormed(c.Root(q)) && !Malformed(e) && id !in c.Root(k)
    requires path in c.staging ==> c.staging[path].kind == k
    ensures WithinQuota(Publish(c, s, k, path, id, e, before, after, mishap).0, s, q)
  {
    QuotaAfterReserve(c, s, path, Size(e), before, q);
    if Verdict(c, s, path, Size(e), before) == Reserved {
      QuotaAfterRename(c, s, k, path, id, e, before, mishap == Some(Unsynced), q);
      if mishap.None? {
        var c2 := Renamed(c, s, k, path, id, e, before, false);
        CleanupIsTame(c2, k, MaxBytes(s, k), {id}, after);
        QuotaKeptByTame(c2, Cleanup(c2, k, MaxBytes(s, k), {id}, after), s, q);
      }
    }
  }

  // ---- purge ----

  /** A purge by source id leaves no result that names the source exactly when the source was
      still on disk or no result named it: results of an evicted source are not found. */
  lemma PurgeFinality(c: Cache, id: Id)
    requires Purge(c, BySource(id), false).1.busy == {}
    ensures var c' := Purge(c, BySource(id), false).0;
      && id !in c'.sources
      && ((forall r :: r in c'.results ==> c'.results[r].manifest.source != Some(id)) <==>
          (id in c.sources || forall r :: r in c.results ==> c.results[r].manifest.source != Some(id)))
  {
    if id in c.sources {
      assert id in SelectedSources(c, BySource(id));
    } else {
      assert SelectedSources(c, BySource(id)) == {};
      assert SelectedResults(c, BySource(id)) == {};
      assert c.results - SelectedResults(c, BySource(id)) == c.results;
    }
  }

  predicate NamesScope(e: Entry, scope: Text) {
    e.manifest.source.Some? && e.manifest.source.value.SrcId? && e.manifest.source.value.scope == scope
  }

  /** A purge by scope leaves no result of the scope exactly when every such result names a source
      still on disk; the empty scope selects nothing. */
  lemma ScopePurgeFinality(c: Cache, scope: Text)
    requires Purge(c, ByScope(scope), false).1.busy == {}
    requires forall id :: id in c.sources ==> id.SrcId? && c.sources[id].manifest.scope == Some(id.scope)
    ensures var c' := Purge(c, ByScope(scope), false).0;
      && (scope != [] ==> forall id :: id in c'.sources ==> id.scope != scope)
      && ((forall r :: r in c'.results ==> !NamesScope(c'.results[r], scope)) <==>
          (forall r :: r in c.results && NamesScope(c.results[r], scope) ==>
            scope != [] && c.results[r].manifest.source.value in c.sources))
  {
    var c' := Purge(c, ByScope(scope), false).0;
    var picked := SelectedSources(c, ByScope(scope));
    forall r | r in c.results && NamesScope(c.results[r], scope)
      ensures r !in c'.results <==> scope != [] && c.results[r].manifest.source.value in c.sources
    {
      var id := c.results[r].manifest.source.value;
      assert id in picked <==> scope != [] && id in c.sources;
    }
  }

  /** The sources that a purge asks for: of one id, or of one scope. */
  predicate AsksSource(sel: Selector, id: Id, e: Entry) {
    sel == BySource(id) || (sel.ByScope? && sel.scope != [] && e.manifest.scope == Some(sel.scope))
  }

  /** And the results: of one id, or naming a source asked for. */
  ghost predicate AsksResult(c: Cache, sel: Selector, id: Id, e: Entry) {
    || sel == ByResult(id)
    || exists x :: x in c.sources && AsksSource(sel, x, c.sources[x]) && e.manifest.source == Some(x)
  }

  ghost predicate Asked(c: Cache, sel: Selector, id: Id) {
    || (id in c.sources && AsksSource(sel, id, c.sources[id]))
    || (id in c.results && AsksResult(c, sel, id, c.results[id]))
  }

  ghost predicate Applied(c: Cache, sel: Selector, dryRun: bool) {
    !dryRun && forall id :: Asked(c, sel, id) ==> !c.Leased(id)
  }

  /** What a purge reports and does: selected is what was asked for, busy the leased part of it; it is carried
      out unless it is a dry run or something selected is leased, and then all that was selected goes and
      nothing else. */
  ghost predicate PurgeDone(c: Cache, sel: Selector, dryRun: bool, c': Cache, report: PurgeReport) {
    && (forall id :: id in report.selected <==> Asked(c, sel, id))
    && (forall id :: id in report.busy <==> Asked(c, sel, id) && c.Leased(id))
    && report.removed == (if Applied(c, sel, dryRun) then report.selected else {})
    && (forall id :: id in c'.sources <==>
          id in c.sources && !(Applied(c, sel, dryRun) && AsksSource(sel, id, c.sources[id])))
    && (forall id :: id in c'.results <==>
          id in c.results && !(Applied(c, sel, dryRun) && AsksResult(c, sel, id, c.results[id])))
    && (forall id :: id in c'.sources ==> c'.sources[id] == c.sources[id])
    && (forall id :: id in c'.results ==> c'.results[id] == c.results[id])
    && c'.leases == c.leases && c'.staging == c.staging
  }

  lemma SelectedIsAsked(c: Cache, sel: Selector)
    ensures forall id :: id in SelectedSources(c, sel) <==> id in c.sources && AsksSource(sel, id, c.sources[id])
    ensures forall id :: id in SelectedResults(c, sel) <==> id in c.results && AsksResult(c, sel, id, c.results[id])
  {
  }

  lemma BusyIsAsked(c: Cache, sel: Selector, dryRun: bool)
    ensures var report := Purge(c, sel, dryRun).1;
      && (forall id :: id in report.selected <==> Asked(c, sel, id))
      && (forall id :: id in report.busy <==> Asked(c, sel, id) && c.Leased(id))
      && (report.busy == {} <==> forall id :: Asked(c, sel, id) ==> !c.Leased(id))
  {
    SelectedIsAsked(c, sel);
    var report := Purge(c, sel, dryRun).1;
    forall id ensures id in report.selected <==> Asked(c, sel, id) {}
    if id :| id in report.busy { assert Asked(c, sel, id) && c.Leased(id); }
  }

  /** All or nothing, and never nothing without a lease in the way. */
  lemma PurgeAllOrNothing(c: Cache, sel: Selector, dryRun: bool)
    ensures PurgeDone(c, sel, dryRun, Purge(c, sel, dryRun).0, Purge(c, sel, dryRun).1)
  {
    BusyIsAsked(c, sel, dryRun);
    SelectedIsAsked(c, sel);
    assert Applied(c, sel, dryRun) <==> !dryRun && Purge(c, sel, dryRun).1.busy == {};
  }

  // ---- recovery ----

  /** A source as ingestion left it: the manifest is of this name, the data file is there, and it has the
      digest that the manifest gives for it, or, if it gives none and nothing was converted, the upload's. */
  predicate IntactSource(id: Id, e: Entry) {
    && e.manifest.record.Some? && e.manifest.record.value.SourceRec?
    && var r := e.manifest.record.value.source;
       && r.id == id && IsBareName(r.dataFile) && r.dataFile in e.files
       && var digest := Sha256(e.files[r.dataFile]);
          r.dataSha256 == Some(digest) || (r.dataSha256.None? && r.format != Csv && r.sha256 == digest)
  }

  /** A result as a query left it: the manifest is of this name and has provenance, the file is there with
      the length and the digest that the manifest gives. */
  predicate IntactResult(id: Id, e: Entry) {
    && e.manifest.record.Some? && e.manifest.record.value.ResultRec?
    && var r := e.manifest.record.value.result;
       && r.id == id && IsBareName(r.resultFile) && r.resultFile in e.files && r.byteCount == |e.files[r.resultFile]|
       && r.execution.Some? && r.execution.value.resultSha256 == Some(Sha256(e.files[r.resultFile]))
  }

  /** recover keeps exactly what is intact, as it is. */
  lemma RecoverKeepsIntact(c: Cache)
    ensures Recover(c).sources == map id | id in c.sources && IntactSource(id, c.sources[id]) :: c.sources[id]
    ensures Recover(c).results == map id | id in c.results && IntactResult(id, c.results[id]) :: c.results[id]
    ensures Recover(c).leases == c.leases && Recover(c).staging == c.staging
  {
  }

  /** Touches, any number of them, never make an entry fail the recovery checks. */
  lemma RecoverableKept(k: Kind, id: Id, e: Entry, e': Entry)
    requires SameContent(e, e')
    ensures Recoverable(k, id, e') <==> Recoverable(k, id, e)
  {
  }

  /** What ingestion publishes passes recovery: commit_source records the data file's digest. */
  lemma PublishedSourceRecovers(r: SourceRecord, files: map<Text, Bytes>, payload: nat, base: nat, now: Time,
                                s: Settings)
    requires IsBareName(r.dataFile) && r.dataFile in files && r.dataSha256 == Some(Sha256(files[r.dataFile]))
    ensures Recoverable(Source, r.id, SourceEntry(r, files, payload, base, now, s))
  {
  }
}
