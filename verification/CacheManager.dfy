/** CacheManager as the class it is: every method, each a section under the manager's lock, is
    proved to change the state as the functions of CacheSpec say. */
module CacheManager {
  import opened Basics
  import opened Model
  import opened CacheSpec
  import opened CleanupTheorems
  import opened CacheInvariants

  lemma {:induction false} CoveredSum(ids: seq<Id>, m: map<Id, Entry>)
    requires Covers(ids, m)
    ensures BytesOf(m, ids) == Total(m)
    decreases |ids|
  {
    if ids == [] {
      assert m == map[];
    } else {
      var rest := m - {ids[0]};
      assert forall id :: id in ids[1..] ==> id != ids[0];
      CoveredSum(ids[1..], rest);
      SeqSumSame(ids[1..], m, rest, Size);
      if ids[0] in m {
        SumSplit(m, Size, ids[0]);
      } else {
        assert rest == m;
      }
    }
  }

  /** The entries of a root that a table names. */
  ghost function Picked(m: map<Id, Entry>, names: map<Id, nat>): map<Id, Entry> {
    map id | id in m && id in names :: m[id]
  }

  lemma PickedStep(m: map<Id, Entry>, names: map<Id, nat>, id: Id)
    requires id in names
    ensures Total(Picked(m, names)) == (if id in m then Size(m[id]) else 0) + Total(Picked(m, names - {id}))
  {
    if id in m {
      SumSplit(Picked(m, names), Size, id);
      assert Picked(m, names) - {id} == Picked(m, names - {id});
    } else {
      assert Picked(m, names) == Picked(m, names - {id});
    }
  }

  lemma PickedNone(m: map<Id, Entry>)
    ensures Total(Picked(m, map[])) == 0
  {
    assert Picked(m, map[]) == map[];
  }

  lemma {:induction false} NotYet<K>(ids: seq<K>, i: nat)
    requires Distinct(ids) && i < |ids|
    ensures ids[i] !in ids[..i]
  {
    if i > 0 {
      assert ids[1..][i - 1] == ids[i] && ids[..i] == [ids[0]] + ids[1..][..i - 1];
      NotYet(ids[1..], i - 1);
    }
  }

  ghost function DoomedAmong(c: Cache, k: Kind, ids: seq<Id>, guarded: set<Id>, now: Time): set<Id> {
    set id | id in c.Root(k) && id in ids && Doomed(c, k, id, guarded, now)
  }

  /** What the first pass has done after the names of `ids`. */
  ghost predicate Swept(c: Cache, k: Kind, ids: seq<Id>, guarded: set<Id>, now: Time, c': Cache, entries: seq<Id>,
                        total: nat)
  {
    && c' == c.WithRoot(k, c.Root(k) - DoomedAmong(c, k, ids, guarded, now))
    && entries == CountedIds(c, k, ids, guarded, now)
    && total == BytesOf(c.Root(k), entries)
  }

  lemma SweptNone(c: Cache, k: Kind, guarded: set<Id>, now: Time)
    ensures Swept(c, k, [], guarded, now, c, [], 0)
  {
    assert c.Root(k) - DoomedAmong(c, k, [], guarded, now) == c.Root(k);
  }

  lemma DoomedAll(c: Cache, k: Kind, ids: seq<Id>, guarded: set<Id>, now: Time)
    requires Covers(ids, c.Root(k))
    ensures DoomedAmong(c, k, ids, guarded, now) == DoomedIds(c, k, guarded, now)
  {
  }

  lemma CountedStep(c: Cache, k: Kind, ids: seq<Id>, i: nat, guarded: set<Id>, now: Time)
    requires i < |ids|
    ensures CountedIds(c, k, ids[..i + 1], guarded, now) == CountedIds(c, k, ids[..i], guarded, now) +
      (if ids[i] in c.Root(k) && Counted(c, k, ids[i], guarded, now) then [ids[i]] else [])
  {
    assert ids[..i + 1] == ids[..i] + [ids[i]];
    FilterAppend(ids[..i], [ids[i]], Counts(c, k, guarded, now));
  }

  /** The next listed entry is still as it was before the pass. */
  lemma StillThere(c: Cache, k: Kind, ids: seq<Id>, i: nat, guarded: set<Id>, now: Time)
    requires Distinct(ids) && i < |ids|
    ensures var root, id := c.Root(k) - DoomedAmong(c, k, ids[..i], guarded, now), ids[i];
      && (id in root <==> id in c.Root(k)) && (id in root ==> root[id] == c.Root(k)[id])
      && c.Root(k) - DoomedAmong(c, k, ids[..i + 1], guarded, now)
           == root - (if id in c.Root(k) && Doomed(c, k, id, guarded, now) then {id} else {})
  {
    NotYet(ids, i);
    assert ids[..i + 1] == ids[..i] + [ids[i]];
  }

  lemma SweptStep(c: Cache, k: Kind, ids: seq<Id>, i: nat, guarded: set<Id>, now: Time,
                  before: Cache, entries: seq<Id>, total: nat, after: Cache, counted: bool, entries': seq<Id>,
                  total': nat)
    requires Distinct(ids) && i < |ids| && Swept(c, k, ids[..i], guarded, now, before, entries, total)
    requires after == before.WithRoot(k, before.Root(k) -
      if ids[i] in before.Root(k) && Doomed(before, k, ids[i], guarded, now) then {ids[i]} else {})
    requires counted <==> ids[i] in before.Root(k) && Counted(before, k, ids[i], guarded, now)
    requires if counted then
        ids[i] in after.Root(k) && entries' == entries + [ids[i]] && total' == total + Size(after.Root(k)[ids[i]])
      else entries' == entries && total' == total
    ensures Swept(c, k, ids[..i + 1], guarded, now, after, entries', total')
  {
    StillThere(c, k, ids, i, guarded, now);
    CountedStep(c, k, ids, i, guarded, now);
    if counted { SeqSumAppend(entries, [ids[i]], c.Root(k), Size); }
  }

  lemma RemovedOne(c: Cache, k: Kind, m: map<Id, Entry>, gone: set<Id>, id: Id)
    requires !c.Leased(id) && m == c.Root(k)
    ensures CacheSpec.Remove(c.WithRoot(k, m - gone), k, id) == c.WithRoot(k, m - (gone + {id}))
  {
    assert (m - gone) - {id} == m - (gone + {id});
    assert c.WithRoot(k, m - gone).Root(k) == m - gone;
    if id !in m - gone { assert m - gone == m - (gone + {id}); }
  }

  lemma EvictStep(m: map<Id, Entry>, order: seq<Id>, i: nat, left: int, maxBytes: int, guarded: set<Id>)
    requires Distinct(order) && i < |order| && left > maxBytes && order[i] in m
    ensures Evict(m, order[i..], left, maxBytes, guarded) ==
      if order[i] in guarded then Evict(m, order[i + 1..], left, maxBytes, guarded)
      else {order[i]} + Evict(m, order[i + 1..], left - Size(m[order[i]]), maxBytes, guarded)
    ensures Elements(order[i..]) == {order[i]} + Elements(order[i + 1..]) && order[i] !in order[i + 1..]
  {
    LaterDiffer(order, i);
    assert order[i..][0] == order[i] && order[i..][1..] == order[i + 1..];
    assert order[i..] == [order[i]] + order[i + 1..];
  }

  /** What the second pass has done when it has evicted `gone`, stands before order[i] and counts
      `left` bytes. */
  ghost predicate EvictedTo(c: Cache, k: Kind, order: seq<Id>, total: int, maxBytes: int, guarded: set<Id>,
                            i: nat, left: int, gone: set<Id>, c': Cache)
    requires i <= |order|
  {
    && c' == c.WithRoot(k, c.Root(k) - gone)
    && Evict(c.Root(k), order, total, maxBytes, guarded) == gone + Evict(c.Root(k), order[i..], left, maxBytes, guarded)
    && gone !! Elements(order[i..])
  }

  lemma EvictedStart(c: Cache, k: Kind, order: seq<Id>, total: int, maxBytes: int, guarded: set<Id>)
    ensures EvictedTo(c, k, order, total, maxBytes, guarded, 0, total, {}, c)
  {
    assert order[0..] == order && c.Root(k) - {} == c.Root(k);
    assert c == c.WithRoot(k, c.Root(k) - {});
  }

  lemma EvictedSkip(c: Cache, k: Kind, order: seq<Id>, total: int, maxBytes: int, guarded: set<Id>, i: nat, left: int,
                    gone: set<Id>, c': Cache)
    requires Distinct(order) && i < |order| && left > maxBytes && order[i] in c.Root(k) && order[i] in guarded
    requires EvictedTo(c, k, order, total, maxBytes, guarded, i, left, gone, c')
    ensures EvictedTo(c, k, order, total, maxBytes, guarded, i + 1, left, gone, c')
  {
    EvictStep(c.Root(k), order, i, left, maxBytes, guarded);
  }

  lemma EvictedNext(c: Cache, k: Kind, order: seq<Id>, total: int, maxBytes: int, guarded: set<Id>, i: nat, left: int,
                    gone: set<Id>, c': Cache)
    requires guarded >= c.leases.Keys && Distinct(order) && i < |order| && left > maxBytes && order[i] in c.Root(k)
    requires order[i] !in guarded && EvictedTo(c, k, order, total, maxBytes, guarded, i, left, gone, c')
    ensures order[i] in c'.Root(k) && c'.Root(k)[order[i]] == c.Root(k)[order[i]]
    ensures EvictedTo(c, k, order, total, maxBytes, guarded, i + 1, left - Size(c.Root(k)[order[i]]), gone + {order[i]},
                      CacheSpec.Remove(c', k, order[i]))
  {
    EvictStep(c.Root(k), order, i, left, maxBytes, guarded);
    RemovedOne(c, k, c.Root(k), gone, order[i]);
  }

  lemma EvictedEnd(c: Cache, k: Kind, order: seq<Id>, total: int, maxBytes: int, guarded: set<Id>, i: nat, left: int,
                   gone: set<Id>, c': Cache)
    requires i <= |order| && (i == |order| || left <= maxBytes)
    requires EvictedTo(c, k, order, total, maxBytes, guarded, i, left, gone, c')
    ensures c' == c.WithRoot(k, c.Root(k) - Evict(c.Root(k), order, total, maxBytes, guarded))
  {
    assert Evict(c.Root(k), order[i..], left, maxBytes, guarded) == {};
  }

  lemma {:induction false} LaterDiffer<K>(ids: seq<K>, i: nat)
    requires Distinct(ids) && i < |ids|
    ensures ids[i] !in ids[i + 1..]
  {
    if i > 0 {
      LaterDiffer(ids[1..], i - 1);
      assert ids[1..][i - 1] == ids[i] && ids[1..][i..] == ids[i + 1..];
    }
  }

  /** Sorting and evicting read nothing of a root but the entries listed. */
  lemma {:induction false} SortSame(m: map<Id, Entry>, n: map<Id, Entry>, ids: seq<Id>)
    requires forall id :: id in ids ==> id in m && id in n && m[id] == n[id]
    ensures SortByAccess(m, ids) == SortByAccess(n, ids)
  {
    if ids != [] {
      SortSame(m, n, ids[1..]);
      SortKeeps(m, ids[1..]);
      SameElements(ids[1..], SortByAccess(m, ids[1..]));
      InsertSame(m, n, ids[0], SortByAccess(m, ids[1..]));
    }
  }

  lemma {:induction false} InsertSame(m: map<Id, Entry>, n: map<Id, Entry>, id: Id, ids: seq<Id>)
    requires id in m && id in n && m[id] == n[id]
    requires forall i :: i in ids ==> i in m && i in n && m[i] == n[i]
    ensures Insert(m, id, ids) == Insert(n, id, ids)
  {
    if ids != [] { InsertSame(m, n, id, ids[1..]); }
  }

  lemma {:induction false} EvictSame(m: map<Id, Entry>, n: map<Id, Entry>, order: seq<Id>, total: int, maxBytes: int,
                                     guarded: set<Id>)
    requires forall id :: id in order ==> id in m && id in n && m[id] == n[id]
    ensures Evict(m, order, total, maxBytes, guarded) == Evict(n, order, total, maxBytes, guarded)
  {
    if order != [] {
      EvictSame(m, n, order[1..], total, maxBytes, guarded);
      EvictSame(m, n, order[1..], total - SizeOf(m, order[0]), maxBytes, guarded);
    }
  }

  /** The second pass works on what the first has left. */
  lemma SweptOrder(c: Cache, k: Kind, env: Env, guarded: set<Id>, swept: Cache, entries: seq<Id>, order: seq<Id>,
                   total: nat, maxBytes: int)
    requires Covers(env.listing, c.Root(k)) && Swept(c, k, env.listing, guarded, env.now, swept, entries, total)
    requires order == SortByAccess(swept.Root(k), entries)
    ensures Distinct(order) && forall id :: id in order ==> id in swept.Root(k)
    ensures swept == c.WithRoot(k, c.Root(k) - DoomedIds(c, k, guarded, env.now))
    ensures order == SortByAccess(c.Root(k), entries)
    ensures Evict(swept.Root(k), order, total, maxBytes, guarded) == Evict(c.Root(k), order, total, maxBytes, guarded)
  {
    var left := swept.Root(k);
    DoomedAll(c, k, env.listing, guarded, env.now);
    CountedDistinct(c, k, env.listing, guarded, env.now);
    forall id | id in entries ensures id in left && left[id] == c.Root(k)[id] {}
    SortSame(left, c.Root(k), entries);
    SortKeeps(left, entries);
    SameElements(entries, order);
    DistinctByCount(entries);
    DistinctByCount(order);
    EvictSame(left, c.Root(k), order, total, maxBytes, guarded);
  }

  lemma TwoPasses(c: Cache, k: Kind, maxBytes: int, protect: set<Id>, env: Env, swept: Cache, order: seq<Id>,
                  total: nat)
    requires var guarded := protect + c.leases.Keys;
      var ids := CountedIds(c, k, env.listing, guarded, env.now);
      && swept == c.WithRoot(k, c.Root(k) - DoomedIds(c, k, guarded, env.now))
      && order == SortByAccess(c.Root(k), ids) && total == BytesOf(c.Root(k), ids)
      && Evict(swept.Root(k), order, total, maxBytes, guarded) == Evict(c.Root(k), order, total, maxBytes, guarded)
    ensures swept.WithRoot(k, swept.Root(k) - Evict(swept.Root(k), order, total, maxBytes, protect + c.leases.Keys))
      == CacheSpec.Cleanup(c, k, maxBytes, protect, env)
  {
    var guarded := protect + c.leases.Keys;
    BothGone(c, k, DoomedIds(c, k, guarded, env.now), EvictedIds(c, k, maxBytes, guarded, env));
  }

  lemma BothGone(c: Cache, k: Kind, a: set<Id>, b: set<Id>)
    ensures var c1 := c.WithRoot(k, c.Root(k) - a); c1.WithRoot(k, c1.Root(k) - b) == c.WithRoot(k, c.Root(k) - (a + b))
  {
    assert (c.Root(k) - a) - b == c.Root(k) - (a + b);
  }

  /** reserve in one expression over the cache after eviction. */
  ghost function Settled(c: Cache, s: Settings, path: Path, size: nat, env: Env, c': Cache): (Cache, Reservation)
    requires path in c.staging
  {
    var Area(k, held, _) := c.staging[path];
    var wanted, maximum := size + Others(c, path), MaxBytes(s, k);
    if wanted > maximum then (c, StagedTooMuch)
    else if size - held > env.free then (c, VolumeFull)
    else if Total(c'.Root(k)) + wanted > maximum then (c', Busy)
    else (c'.(staging := c'.staging[path := c.staging[path].(reserved := size)]), Reserved)
  }

  lemma ReserveIs(c: Cache, s: Settings, path: Path, size: nat, env: Env)
    requires path in c.staging
    ensures CacheSpec.Reserve(c, s, path, size, env) == Settled(c, s, path, size, env, MakeRoom(c, s, path, size, env))
  {
    RoomIsRemaining(c, s, path, size, env);
    VerdictIs(c, s, path, size, env, Total(MakeRoom(c, s, path, size, env).Root(c.staging[path].kind)));
    var c' := MakeRoom(c, s, path, size, env);
    MakeRoomIsTame(c, s, path, size, env);
  }

  /** The verdict, told of the bytes that eviction leaves. */
  lemma VerdictIs(c: Cache, s: Settings, path: Path, size: nat, env: Env, left: nat)
    requires path in c.staging && left == Remaining(c, c.staging[path].kind, size + Others(c, path), s, env)
    ensures var Area(k, held, _) := c.staging[path];
      var wanted, maximum := size + Others(c, path), MaxBytes(s, k);
      Verdict(c, s, path, size, env) ==
        if wanted > maximum then StagedTooMuch
        else if size - held > env.free then VolumeFull
        else if left + wanted > maximum then Busy else Reserved
  {
  }

  lemma CleanupNarrows(c: Cache, k: Kind, maxBytes: int, protect: set<Id>, env: Env)
    ensures var c' := CacheSpec.Cleanup(c, k, maxBytes, protect, env);
      c'.staging == c.staging && forall id :: id in c'.Root(k) ==> id in c.Root(k)
  {
    CleanupFrame(c, k, maxBytes, protect, env);
  }

  lemma FreshStagesNothing(staging: map<Path, Area>, k: Kind, path: Path)
    requires path !in staging
    ensures forall q: Kind :: Staged(staging[path := Area(k, 0, false)], q) == Staged(staging, q)
    ensures forall q: Kind :: StagedHere(staging[path := Area(k, 0, false)], q) == StagedHere(staging, q)
  {
    forall q: Kind
      ensures Staged(staging[path := Area(k, 0, false)], q) == Staged(staging, q)
      ensures StagedHere(staging[path := Area(k, 0, false)], q) == StagedHere(staging, q)
    {
      SumUpdate(staging, ReservedFor(q), path, Area(k, 0, false));
      SumUpdate(staging, HereFor(q), path, Area(k, 0, false));
    }
  }

  function ReservedAt(staging: map<Path, Area>, path: Path, k: Kind): nat {
    if path in staging && staging[path].kind == k then staging[path].reserved else 0
  }

  lemma ReservedGivenBack(staging: map<Path, Area>, path: Path)
    ensures forall q: Kind :: Staged(staging - {path}, q) == Staged(staging, q) - ReservedAt(staging, path, q)
  {
    forall q: Kind ensures Staged(staging - {path}, q) == Staged(staging, q) - ReservedAt(staging, path, q) {
      if path in staging { SumSplit(staging, ReservedFor(q), path); } else { assert staging - {path} == staging; }
    }
  }

  /** What a commit does for its caller: its entry is there or nothing was added; entries that were
      there are only touched or, unless leased, removed; the area is given up unless it is refused. */
  ghost predicate Commits(c: Cache, k: Kind, path: Path, id: Id, e: Entry, mishap: Option<Mishap>, placed: bool,
                          refused: bool, c': Cache)
  {
    && (placed ==> id !in c.Root(k) && path in c.staging && c'.staging == LeftStaged(c, path, e, mishap)
                   && Tame(c.WithRoot(k, c.Root(k)[id := e]), c') && (!Malformed(e) ==> id in c'.Root(k)))
    && (!placed ==> Tame(c, c'))
    && (refused ==> id !in c.Root(k) && c'.staging == c.staging)
    && (!placed && !refused ==> id in c.Root(k) && c'.staging == c.staging - {path})
  }

  /** A result goes with a purge that selects it or a source it names. */
  predicate NamesOne(sel: Selector, picked: set<Id>, id: Id, e: Entry) {
    (sel.ByResult? && id == sel.id) || (e.manifest.source.Some? && e.manifest.source.value in picked)
  }

  class CacheManager {
    const settings: Settings
    var sources: map<Id, Entry>
    var results: map<Id, Entry>
    var leases: map<Id, nat>
    var staging: map<Path, Area>
    var evictions: nat

    ghost function State(): Cache reads this { Cache(sources, results, leases, staging) }

    constructor (settings: Settings, sources: map<Id, Entry>, results: map<Id, Entry>)
      ensures this.settings == settings && State() == Cache(sources, results, map[], map[]) && evictions == 0
    {
      this.settings := settings;
      this.sources, this.results, leases, staging, evictions := sources, results, map[], map[], 0;
    }

    function Root(k: Kind): map<Id, Entry> reads this { if k.Source? then sources else results }

    function Leased(id: Id): bool reads this { id in leases && leases[id] > 0 }

    // ---- leases ----

    function Holders(id: Id): nat reads this { LeaseCount(leases, id) }

    method AddLease(id: Id)
      modifies this
      ensures State() == CacheSpec.AddLease(old(State()), id) && evictions == old(evictions)
      ensures forall i: Id :: Holders(i) == old(Holders(i)) + (if i == id then 1 else 0)
    {
      leases := leases[id := (if id in leases then leases[id] else 0) + 1];
    }

    /** One holder less, of this name only; a release that nobody owes changes nothing. */
    method Release(id: Id)
      modifies this
      ensures State() == CacheSpec.Release(old(State()), id) && evictions == old(evictions)
      ensures forall i: Id :: Holders(i) == old(Holders(i)) - (if i == id && old(Leased(id)) then 1 else 0)
      ensures forall i: Id :: Leased(i) <==> old(Leased(i)) && (i == id ==> old(Holders(id)) > 1)
      ensures sources == old(sources) && results == old(results) && staging == old(staging)
    {
      var count := if id in leases then leases[id] else 0;
      if count <= 1 {
        leases := leases - {id};
      } else {
        leases := leases[id := count - 1];
      }
    }

    /** _remove_directory, the only place where entries go: each one gone is one eviction counted. */
    method RemoveDirectory(k: Kind, id: Id)
      modifies this
      ensures State() == CacheSpec.Remove(old(State()), k, id)
      ensures evictions == old(evictions) + if id in old(Root(k)) && !old(Leased(id)) then 1 else 0
    {
      if Leased(id) { return; }
      if id in Root(k) {
        if k.Source? { sources := sources - {id}; } else { results := results - {id}; }
        evictions := evictions + 1;
      }
    }

    // ---- lookups ----

    method GetSource(id: Id, now: Time, touch: bool) returns (found: Lookup<SourceRecord>)
      modifies this
      ensures (State(), found) == CacheSpec.GetSource(old(State()), settings, id, now, touch)
      ensures found.Found? <==> Servable(old(State()), Source, id, now)
      ensures found.BadStamp? <==> Unstamped(old(State()), Source, id)
      ensures found.Found? ==> old(sources)[id].manifest.record == Some(SourceRec(found.record))
      ensures Answers(old(State()), Source, id, now, settings.sourceTtlSeconds, touch, found.Found?, State())
    {
      SourceLookupExact(State(), settings, id, now, touch);
      if !IsSourceId(id) || id !in sources { return Missing; }
      var e := sources[id];
      if e.manifest.record.None? || !e.manifest.record.value.SourceRec? { return Missing; }
      var record := e.manifest.record.value.source;
      if e.manifest.expires.None? { return BadStamp; }
      if (e.manifest.expires.value <= now && !Leased(id)) || !IsBareName(record.dataFile) ||
          record.dataFile !in e.files {
        RemoveDirectory(Source, id);
        return Missing;
      }
      if touch { sources := sources[id := Touched(e, now, settings.sourceTtlSeconds)]; }
      return Found(record);
    }

    method GetResult(id: Id, now: Time, touch: bool) returns (found: Lookup<ResultRecord>)
      modifies this
      ensures (State(), found) == CacheSpec.GetResult(old(State()), settings, id, now, touch)
      ensures found.Found? <==> Servable(old(State()), Result, id, now)
      ensures found.BadStamp? <==> Unstamped(old(State()), Result, id)
      ensures found.Found? ==> old(results)[id].manifest.record == Some(ResultRec(found.record))
      ensures Answers(old(State()), Result, id, now, settings.resultTtlSeconds, touch, found.Found?, State())
    {
      ResultLookupExact(State(), settings, id, now, touch);
      if !IsResultId(id) || id !in results { return Missing; }
      var e := results[id];
      if e.manifest.record.None? || !e.manifest.record.value.ResultRec? { return Missing; }
      var record := e.manifest.record.value.result;
      if e.manifest.expires.None? { return BadStamp; }
      if (e.manifest.expires.value <= now && !Leased(id)) || !IsBareName(record.resultFile) ||
          record.resultFile !in e.files {
        RemoveDirectory(Result, id);
        return Missing;
      }
      if touch { results := results[id := Touched(e, now, settings.resultTtlSeconds)]; }
      return Found(record);
    }

    /** Found and leased under one lock: from here on the entry is there until the lease is released. */
    method LeaseSource(id: Id, now: Time) returns (found: Lookup<SourceRecord>)
      modifies this
      ensures (State(), found) == CacheSpec.LeaseSource(old(State()), settings, id, now)
      ensures found.Found? <==> Servable(old(State()), Source, id, now)
      ensures found.Found? ==>
        id in sources && Leased(id) && sources[id].manifest.record == Some(SourceRec(found.record))
      ensures forall i: Id :: Holders(i) == old(Holders(i)) + (if i == id && found.Found? then 1 else 0)
      ensures sources - {id} == old(sources) - {id} && results == old(results) && staging == old(staging)
    {
      found := GetSource(id, now, true);
      if found.Found? { AddLease(id); }
    }

    method AcquireResult(id: Id, now: Time) returns (found: Lookup<ResultRecord>)
      modifies this
      ensures (State(), found) == CacheSpec.AcquireResult(old(State()), settings, id, now)
      ensures found.Found? <==> Servable(old(State()), Result, id, now)
      ensures found.Found? ==>
        id in results && Leased(id) && results[id].manifest.record == Some(ResultRec(found.record))
      ensures forall i: Id :: Holders(i) == old(Holders(i)) + (if i == id && found.Found? then 1 else 0)
      ensures results - {id} == old(results) - {id} && sources == old(sources) && staging == old(staging)
    {
      found := GetResult(id, now, true);
      if found.Found? { AddLease(id); }
    }

    method ResolveSource(scope: Text, ref: Text, format: Format, size: nat, expected: Option<Digest>, now: Time)
      returns (found: Lookup<SourceRecord>)
      modifies this
      ensures (State(), found) ==
          CacheSpec.ResolveSource(old(State()), settings, scope, ref, format, size, expected, now)
      ensures found.Found? <==>
        && Servable(old(State()), Source, SrcId(scope, ref), now)
        && var r := old(sources)[SrcId(scope, ref)].manifest.record.value.source;
           r.format == format && r.size == size && (expected.Some? ==> r.sha256 == expected.value)
      ensures found.Found? ==> old(sources)[SrcId(scope, ref)].manifest.record == Some(SourceRec(found.record))
      ensures Answers(old(State()), Source, SrcId(scope, ref), now, settings.sourceTtlSeconds, true,
                      Servable(old(State()), Source, SrcId(scope, ref), now), State())
    {
      found := GetSource(SrcId(scope, ref), now, true);
      if found.Found? && (found.record.format != format || found.record.size != size) { return Missing; }
      if found.Found? && expected.Some? && found.record.sha256 != expected.value { return Missing; }
    }

    /** get_result_by_query_key with provenance required, up to its second locked section. */
    method LookUpKey(key: QueryKey, now: Time) returns (found: KeyLookup)
      modifies this
      ensures (State(), found) == ByQueryKey(old(State()), settings, key, now)
      ensures found.Hit? || found.Legacy? <==>
        Servable(old(State()), Result, ResKey(key), now) &&
            old(results)[ResKey(key)].manifest.record.value.result.queryKey == Some(key)
      ensures found.Hit? ==>
        old(results)[ResKey(key)].manifest.record == Some(ResultRec(found.record)) && found.record.execution.Some?
      ensures found.Legacy? ==> old(results)[ResKey(key)].manifest.record.value.result.execution.None?
      ensures Answers(old(State()), Result, ResKey(key), now, settings.resultTtlSeconds, true,
                      Servable(old(State()), Result, ResKey(key), now), State())
    {
      var r := GetResult(ResKey(key), now, true);
      match r {
        case BadStamp => return Raised;
        case Missing => return NoHit;
        case Found(record) =>
          if record.queryKey != Some(key) { return NoHit; }
          if record.execution.None? { return Legacy; }
          return Hit(record);
      }
    }

    method DropLegacy(key: QueryKey) returns (dropped: bool)
      modifies this
      ensures (State(), dropped) == CacheSpec.DropLegacy(old(State()), key)
      ensures dropped <==> !old(Leased(ResKey(key)))
      ensures dropped ==> ResKey(key) !in results
      ensures !dropped ==> results == old(results)
      ensures results - {ResKey(key)} == old(results) - {ResKey(key)}
      ensures sources == old(sources) && leases == old(leases) && staging == old(staging)
    {
      if Leased(ResKey(key)) { return false; }
      RemoveDirectory(Result, ResKey(key));
      return true;
    }

    // ---- sums over directories and staging areas ----

    /** directory_bytes of a root. */
    method DirectoryBytes(k: Kind, listing: seq<Id>) returns (total: nat)
      requires Covers(listing, Root(k))
      ensures total == Total(Root(k))
    {
      total := 0;
      var i := 0;
      while i < |listing|
        invariant 0 <= i <= |listing| && total == BytesOf(Root(k), listing[..i])
      {
        assert listing[..i + 1] == listing[..i] + [listing[i]];
        SeqSumAppend(listing[..i], [listing[i]], Root(k), Size);
        if listing[i] in Root(k) { total := total + Size(Root(k)[listing[i]]); }
        i := i + 1;
      }
      assert listing[..i] == listing;
      CoveredSum(listing, Root(k));
    }

    /** The reservations of a kind, one area left out if asked. */
    method StagedBytes(k: Kind, but: Option<Path>) returns (total: nat)
      ensures total == Staged(if but.Some? then staging - {but.value} else staging, k)
    {
      total := 0;
      var all := if but.Some? then staging - {but.value} else staging;
      var rest := all;
      while rest != map[]
        invariant total + Staged(rest, k) == Staged(all, k)
        decreases |rest|
      {
        var p :| p in rest;
        SumSplit(rest, ReservedFor(k), p);
        if rest[p].kind == k { total := total + rest[p].reserved; }
        rest := rest - {p};
      }
    }

    /** The bytes of a root that leases keep. */
    method PinnedBytes(k: Kind) returns (total: nat)
      ensures total == Pinned(State(), k)
    {
      total := 0;
      var rest := leases;
      while rest != map[]
        invariant total + Total(Picked(Root(k), rest)) == Total(Picked(Root(k), leases))
        decreases |rest|
      {
        var id :| id in rest;
        PickedStep(Root(k), rest, id);
        if id in Root(k) { total := total + Size(Root(k)[id]); }
        rest := rest - {id};
      }
      PickedNone(Root(k));
      assert Picked(Root(k), leases) == PinnedRoot(State(), k);
    }

    method HasCapacity() returns (ready: bool)
      ensures ready <==> CacheSpec.HasCapacity(State(), settings)
    {
      var pinned := PinnedBytes(Source);
      var staged := StagedBytes(Source, None);
      if pinned + staged >= settings.sourceMaxBytes { return false; }
      pinned := PinnedBytes(Result);
      staged := StagedBytes(Result, None);
      return pinned + staged < settings.resultMaxBytes;
    }

    // ---- cleanup ----

    /** One entry of the first pass. */
    method SweepOne(k: Kind, id: Id, guarded: set<Id>, now: Time) returns (counted: bool)
      requires guarded >= leases.Keys
      modifies this
      ensures State() == old(State()).WithRoot(k,
        old(Root(k)) - if id in old(Root(k)) && Doomed(old(State()), k, id, guarded, now) then {id} else {})
      ensures counted <==> id in old(Root(k)) && Counted(old(State()), k, id, guarded, now)
    {
      assert Root(k) - {} == Root(k);
      if id !in Root(k) { return false; }
      var e := Root(k)[id];
      if Malformed(e) || (Expired(e, now) && id !in guarded) {
        RemoveDirectory(k, id);
        return false;
      }
      return true;
    }

    /** The first pass: remove what is malformed or expired, list the rest with their bytes. */
    method Sweep(k: Kind, guarded: set<Id>, env: Env) returns (entries: seq<Id>, total: nat)
      requires guarded >= leases.Keys && Covers(env.listing, Root(k))
      modifies this
      ensures Swept(old(State()), k, env.listing, guarded, env.now, State(), entries, total)
    {
      ghost var c := State();
      entries, total := [], 0;
      var i := 0;
      SweptNone(c, k, guarded, env.now);
      assert env.listing[..0] == [];
      while i < |env.listing|
        invariant 0 <= i <= |env.listing|
        invariant leases == c.leases && Swept(c, k, env.listing[..i], guarded, env.now, State(), entries, total)
      {
        var id := env.listing[i];
        ghost var before, sofar, sum := State(), entries, total;
        var counted := SweepOne(k, id, guarded, env.now);
        if counted {
          total := total + Size(Root(k)[id]);
          entries := entries + [id];
        }
        SweptStep(c, k, env.listing, i, guarded, env.now, before, sofar, sum, State(), counted, entries, total);
        i := i + 1;
      }
      assert env.listing[..i] == env.listing;
    }

    /** The second pass: evict in the order of access until the rest fits. */
    method EvictOldest(k: Kind, order: seq<Id>, total: nat, maxBytes: int, guarded: set<Id>)
      requires guarded >= leases.Keys && Distinct(order) && forall id :: id in order ==> id in Root(k)
      modifies this
      ensures State() == old(State()).WithRoot(k, old(Root(k)) - Evict(old(Root(k)), order, total, maxBytes, guarded))
    {
      ghost var c := State();
      ghost var gone: set<Id> := {};
      var left: int := total;
      var i := 0;
      EvictedStart(c, k, order, total, maxBytes, guarded);
      assert forall id :: id in order ==> id in c.Root(k);
      while i < |order| && left > maxBytes
        invariant 0 <= i <= |order| && EvictedTo(c, k, order, total, maxBytes, guarded, i, left, gone, State())
      {
        var id := order[i];
        assert leases == c.leases;
        if id !in guarded {
          EvictedNext(c, k, order, total, maxBytes, guarded, i, left, gone, State());
          left := left - Size(Root(k)[id]);
          RemoveDirectory(k, id);
          gone := gone + {id};
        } else {
          EvictedSkip(c, k, order, total, maxBytes, guarded, i, left, gone, State());
        }
        i := i + 1;
      }
      EvictedEnd(c, k, order, total, maxBytes, guarded, i, left, gone, State());
    }

    /** _cleanup. */
    method Cleanup(k: Kind, maxBytes: int, protect: set<Id>, env: Env)
      requires Covers(env.listing, Root(k))
      modifies this
      ensures State() == CacheSpec.Cleanup(old(State()), k, maxBytes, protect, env)
      ensures staging == old(staging) && forall id :: id in Root(k) ==> id in old(Root(k))
    {
      ghost var c := State();
      var guarded := protect + leases.Keys;
      var entries, total := Sweep(k, guarded, env);
      var order := SortByAccess(Root(k), entries);
      ghost var swept := State();
      SweptOrder(c, k, env, guarded, swept, entries, order, total, maxBytes);
      EvictOldest(k, order, total, maxBytes, guarded);
      TwoPasses(c, k, maxBytes, protect, env, swept, order, total);
      CleanupNarrows(c, k, maxBytes, protect, env);
    }

    /** cleanup_sources and cleanup_results: what has expired goes, and as much as meets the quota. */
    method CleanupRoot(k: Kind, protect: set<Id>, env: Env)
      requires Covers(env.listing, Root(k))
      modifies this
      ensures State() == CacheSpec.Cleanup(old(State()), k, MaxBytes(settings, k), protect, env)
      ensures RoomMade(old(State()), k, protect, MaxBytes(settings, k), env.now, Root(k))
      ensures SameOther(old(State()), k, State()) && staging == old(staging)
    {
      CleanupMakesRoom(State(), k, MaxBytes(settings, k), protect, env);
      CleanupFrame(State(), k, MaxBytes(settings, k), protect, env);
      Cleanup(k, MaxBytes(settings, k), protect, env);
    }

    // ---- staging ----

    /** A new area reserves nothing; its name is a new one. */
    method StagingPath(k: Kind, path: Path)
      requires path !in staging
      modifies this
      ensures State() == CacheSpec.StagingPath(old(State()), k, path)
      ensures forall q: Kind :: Staged(staging, q) == Staged(old(staging), q)
      ensures forall q: Kind :: StagedHere(staging, q) == StagedHere(old(staging), q)
    {
      staging := staging[path := Area(k, 0, false)];
      ghost var before := old(staging);
      FreshStagesNothing(before, k, path);
    }

    /** Gives back exactly what the area had reserved, of its kind. */
    method DiscardStaging(path: Path)
      modifies this
      ensures State() == Discard(old(State()), path)
      ensures forall q: Kind :: Staged(staging, q) == Staged(old(staging), q) - ReservedAt(old(staging), path, q)
    {
      ReservedGivenBack(staging, path);
      staging := staging - {path};
    }

    method Reserve(path: Path, size: nat, env: Env) returns (r: Reservation)
      requires path in staging ==> Covers(env.listing, Root(staging[path].kind))
      modifies this
      ensures (State(), r) == CacheSpec.Reserve(old(State()), settings, path, size, env)
      ensures ReserveDone(old(State()), settings, path, size, env, State(), r)
    {
      ReserveMakesRoom(State(), settings, path, size, env);
      if path !in staging { return NoArea; }
      ReserveIs(State(), settings, path, size, env);
      r := ReserveArea(path, size, env);
    }

    method ReserveArea(path: Path, size: nat, env: Env) returns (r: Reservation)
      requires path in staging && Covers(env.listing, Root(staging[path].kind))
      modifies this
      ensures (State(), r) ==
          Settled(old(State()), settings, path, size, env, MakeRoom(old(State()), settings, path, size, env))
    {
      ghost var c := State();
      var Area(k, held, _) := staging[path];
      var maximum := MaxBytes(settings, k);
      var others := StagedBytes(k, Some(path));
      if size + others > maximum { return StagedTooMuch; }
      if size - held > env.free { return VolumeFull; }
      Cleanup(k, maximum - (size + others), {}, env);
      assert State() == MakeRoom(c, settings, path, size, env);
      var total := DirectoryBytes(k, env.listing);
      if total + size + others > maximum { return Busy; }
      staging := staging[path := staging[path].(reserved := size)];
      return Reserved;
    }

    // ---- publication ----

    /** os.replace into a root. */
    method Place(k: Kind, id: Id, e: Entry)
      modifies this
      ensures State() == old(State()).WithRoot(k, old(Root(k))[id := e]) && Root(k) == old(Root(k))[id := e]
    {
      if k.Source? { sources := sources[id := e]; } else { results := results[id := e]; }
    }

    /** From the rename on; `mishap` is what raises then. */
    method MoveIn(k: Kind, path: Path, id: Id, e: Entry, after: Env, mishap: Option<Mishap>)
      requires path in staging && Covers(after.listing, Root(k)[id := e])
      modifies this
      ensures State() == MovedIn(old(State()), settings, k, path, id, e, after, mishap)
    {
      Place(k, id, e);
      if mishap == Some(Unsynced) {
        staging := staging[path := staging[path].(moved := true)];
        return;
      }
      staging := staging - {path};
      if mishap == Some(Uncleaned) { return; }
      Cleanup(k, MaxBytes(settings, k), {id}, after);
    }

    /** From the reservation to the cleanup of commit_source and commit_result. */
    method Publish(k: Kind, path: Path, id: Id, e: Entry, before: Env, after: Env, mishap: Option<Mishap>)
      returns (r: Reservation)
      requires path in staging ==> staging[path].kind == k
      requires Covers(before.listing, Root(k)) && Covers(after.listing, Root(k)[id := e])
      modifies this
      ensures (State(), r) == CacheSpec.Publish(old(State()), settings, k, path, id, e, before, after, mishap)
    {
      ghost var c := State();
      r := Reserve(path, Size(e), before);
      if r != Reserved { return; }
      ReserveIsTame(c, settings, path, Size(e), before);
      MoveIn(k, path, id, e, after, mishap);
    }

    method CommitSource(path: Path, r: SourceRecord, e: Entry, before: Env, after: Env, mishap: Option<Mishap>)
      returns (done: Commit<SourceRecord>)
      requires path in staging ==> staging[path].kind == Source
      requires Covers(before.listing, sources) && Covers(after.listing, sources[r.id := e])
      modifies this
      ensures (State(), done) == CacheSpec.CommitSource(old(State()), settings, path, r, e, before, after, mishap)
      ensures Commits(old(State()), Source, path, r.id, e, mishap,
                      done.Committed? || done.HalfDone?, done.Refused?, State())
      ensures done.Committed? || done.HalfDone? ==>
        CommitLeaves(old(State()), settings, Source, path, r.id, e, before, after, State())
      ensures done.Refused? <==>
        r.id !in old(sources) && Verdict(old(State()), settings, path, Size(e), before) != Reserved
      ensures done.HalfDone? ==> mishap.Some?
      ensures done.Committed? ==> done.record == r
      ensures done.Kept? <==> Servable(old(State()), Source, r.id, before.now)
    {
      if r.id in sources {
        DiscardStaging(path);
        var found := GetSource(r.id, before.now, true);
        GetSourceIsTame(Discard(old(State()), path), settings, r.id, before.now, true);
        return if found.Found? then Kept(found.record) else Lost;
      }
      PublishIsTame(State(), settings, Source, path, r.id, e, before, after, mishap);
      ghost var c := State();
      var got := Publish(Source, path, r.id, e, before, after, mishap);
      if got == Reserved { PublishLeaves(c, settings, Source, path, r.id, e, before, after, mishap); }
      return CommitOf(got, mishap, r);
    }

    method CommitResult(path: Path, r: ResultRecord, e: Entry, before: Env, after: Env, mishap: Option<Mishap>)
      returns (done: Commit<ResultRecord>)
      requires path in staging ==> staging[path].kind == Result
      requires Covers(before.listing, results) && Covers(after.listing, results[r.id := e])
      modifies this
      ensures (State(), done) == CacheSpec.CommitResult(old(State()), settings, path, r, e, before, after, mishap)
      ensures Commits(old(State()), Result, path, r.id, e, mishap,
                      done.Committed? || done.HalfDone?, done.Refused?, State())
      ensures done.Committed? || done.HalfDone? ==>
        CommitLeaves(old(State()), settings, Result, path, r.id, e, before, after, State())
      ensures done.Refused? <==>
        r.id !in old(results) && Verdict(old(State()), settings, path, Size(e), before) != Reserved
      ensures done.HalfDone? ==> mishap.Some?
      ensures done.Committed? ==> done.record == r
      ensures done.Kept? <==> Servable(old(State()), Result, r.id, before.now)
    {
      if r.id in results {
        DiscardStaging(path);
        var found := GetResult(r.id, before.now, true);
        GetResultIsTame(Discard(old(State()), path), settings, r.id, before.now, true);
        return if found.Found? then Kept(found.record) else Lost;
      }
      PublishIsTame(State(), settings, Result, path, r.id, e, before, after, mishap);
      ghost var c := State();
      var got := Publish(Result, path, r.id, e, before, after, mishap);
      if got == Reserved { PublishLeaves(c, settings, Result, path, r.id, e, before, after, mishap); }
      return CommitOf(got, mishap, r);
    }

    // ---- purge and recovery ----

    method RemoveEach(k: Kind, ids: set<Id>)
      requires forall id :: id in ids ==> !Leased(id)
      modifies this
      ensures State() == old(State()).WithRoot(k, old(Root(k)) - ids)
    {
      ghost var c := State();
      var rest := ids;
      assert Root(k) - {} == Root(k);
      while rest != {}
        invariant rest <= ids && State() == c.WithRoot(k, c.Root(k) - (ids - rest))
        decreases |rest|
      {
        var id :| id in rest;
        RemoveDirectory(k, id);
        RemovedOne(c, k, c.Root(k), ids - rest, id);
        assert ids - rest + {id} == ids - (rest - {id});
        rest := rest - {id};
      }
      assert ids - {} == ids;
    }

    method Purge(sel: Selector, dryRun: bool, sourceList: seq<Id>, resultList: seq<Id>) returns (report: PurgeReport)
      requires Covers(sourceList, sources) && Covers(resultList, results)
      modifies this
      ensures (State(), report) == CacheSpec.Purge(old(State()), sel, dryRun)
      ensures PurgeDone(old(State()), sel, dryRun, State(), report)
    {
      PurgeAllOrNothing(State(), sel, dryRun);
      var picked := SelectSources(sel, sourceList);
      var named := SelectResults(sel, picked, resultList);
      var busy := set id | id in picked + named && Leased(id);
      assert busy == set id | id in picked + named && State().Leased(id);
      if busy != {} { return PurgeReport(picked + named, {}, busy); }
      if dryRun { return PurgeReport(picked + named, {}, {}); }
      assert forall id :: id in picked + named ==> id !in busy;
      RemoveEach(Source, picked);
      RemoveEach(Result, named);
      return PurgeReport(picked + named, picked + named, {});
    }

    method SelectSources(sel: Selector, listing: seq<Id>) returns (picked: set<Id>)
      requires Covers(listing, sources)
      ensures picked == SelectedSources(State(), sel)
    {
      picked := {};
      var i := 0;
      while i < |listing|
        invariant 0 <= i <= |listing|
        invariant picked == set id | id in sources && id in listing[..i] && SelectsSource(sel, id, sources[id])
      {
        assert listing[..i + 1] == listing[..i] + [listing[i]];
        if listing[i] in sources && SelectsSource(sel, listing[i], sources[listing[i]]) {
          picked := picked + {listing[i]};
        }
        i := i + 1;
      }
      assert listing[..i] == listing;
    }

    method SelectResults(sel: Selector, picked: set<Id>, listing: seq<Id>) returns (named: set<Id>)
      requires Covers(listing, results) && picked == SelectedSources(State(), sel)
      ensures named == SelectedResults(State(), sel)
    {
      named := {};
      var i := 0;
      while i < |listing|
        invariant 0 <= i <= |listing|
        invariant named == set id | id in results && id in listing[..i] && NamesOne(sel, picked, id, results[id])
      {
        assert listing[..i + 1] == listing[..i] + [listing[i]];
        if listing[i] in results && NamesOne(sel, picked, listing[i], results[listing[i]]) {
          named := named + {listing[i]};
        }
        i := i + 1;
      }
      assert listing[..i] == listing;
    }

    /** One root of recover(). */
    method RecoverKind(k: Kind, listing: seq<Id>)
      requires leases == map[] && Covers(listing, Root(k))
      modifies this
      ensures State() == old(State()).WithRoot(k, RecoverRoot(k, old(Root(k))))
    {
      ghost var c := State();
      ghost var gone: set<Id> := {};
      var i := 0;
      assert Root(k) - {} == Root(k);
      while i < |listing|
        invariant 0 <= i <= |listing| && leases == map[]
        invariant State() == c.WithRoot(k, c.Root(k) - gone)
        invariant gone == set id | id in c.Root(k) && id in listing[..i] && !Recoverable(k, id, c.Root(k)[id])
      {
        assert listing[..i + 1] == listing[..i] + [listing[i]];
        var id := listing[i];
        if id in Root(k) && !Recoverable(k, id, Root(k)[id]) {
          RemoveDirectory(k, id);
          RemovedOne(c, k, c.Root(k), gone, id);
          gone := gone + {id};
        }
        i := i + 1;
      }
      assert listing[..i] == listing;
      assert c.Root(k) - gone == RecoverRoot(k, c.Root(k));
    }

    /** recover(), called before any lease or staging area exists; tmp is emptied. */
    method Recover(sourceList: seq<Id>, resultList: seq<Id>)
      requires leases == map[] && Covers(sourceList, sources) && Covers(resultList, results)
      modifies this
      ensures State() == CacheSpec.Recover(old(State()))
      ensures sources == map id | id in old(sources) && IntactSource(id, old(sources)[id]) :: old(sources)[id]
      ensures results == map id | id in old(results) && IntactResult(id, old(results)[id]) :: old(results)[id]
    {
      RecoverKeepsIntact(State());
      RecoverKind(Source, sourceList);
      RecoverKind(Result, resultList);
    }
  }
}
