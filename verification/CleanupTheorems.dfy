/** What _cleanup removes, and the exactness of reserve and has_capacity. */
module CleanupTheorems {
  import opened Basics
  import opened Model
  import opened CacheSpec

  // ---- the stable sort ----

  ghost predicate Ordered(m: map<Id, Entry>, ids: seq<Id>) {
    forall i, j :: 0 <= i < j < |ids| ==> AccessTime(m, ids[i]) <= AccessTime(m, ids[j])
  }

  lemma {:induction false} InsertAdds(m: map<Id, Entry>, id: Id, ids: seq<Id>)
    ensures multiset(Insert(m, id, ids)) == multiset{id} + multiset(ids)
    ensures BytesOf(m, Insert(m, id, ids)) == SizeOf(m, id) + BytesOf(m, ids)
  {
    if ids == [] || AccessTime(m, id) <= AccessTime(m, ids[0]) {
      assert ([id] + ids)[1..] == ids;
    } else {
      InsertAdds(m, id, ids[1..]);
      assert ids == [ids[0]] + ids[1..];
      assert ([ids[0]] + Insert(m, id, ids[1..]))[1..] == Insert(m, id, ids[1..]);
    }
  }

  lemma {:induction false} InsertOrders(m: map<Id, Entry>, id: Id, ids: seq<Id>)
    requires Ordered(m, ids)
    ensures Ordered(m, Insert(m, id, ids))
  {
    if ids != [] && AccessTime(m, id) > AccessTime(m, ids[0]) {
      var rest := Insert(m, id, ids[1..]);
      InsertOrders(m, id, ids[1..]);
      InsertAdds(m, id, ids[1..]);
      forall j | 0 <= j < |rest|
        ensures AccessTime(m, ids[0]) <= AccessTime(m, rest[j])
      {
        assert rest[j] in multiset(rest);
        assert rest[j] == id || rest[j] in ids[1..];
      }
      OrderedFirst(m, ids[0], rest);
    }
  }

  lemma OrderedFirst(m: map<Id, Entry>, id: Id, rest: seq<Id>)
    requires Ordered(m, rest) && forall j :: 0 <= j < |rest| ==> AccessTime(m, id) <= AccessTime(m, rest[j])
    ensures Ordered(m, [id] + rest)
  {
  }

  /** The eviction order lists the counted entries by access time, oldest first. */
  lemma {:induction false} SortKeeps(m: map<Id, Entry>, ids: seq<Id>)
    ensures Ordered(m, SortByAccess(m, ids))
    ensures multiset(SortByAccess(m, ids)) == multiset(ids)
    ensures BytesOf(m, SortByAccess(m, ids)) == BytesOf(m, ids)
  {
    if ids != [] {
      SortKeeps(m, ids[1..]);
      InsertAdds(m, ids[0], SortByAccess(m, ids[1..]));
      InsertOrders(m, ids[0], SortByAccess(m, ids[1..]));
      assert ids == [ids[0]] + ids[1..];
    }
  }

  lemma SameElements(a: seq<Id>, b: seq<Id>)
    requires multiset(a) == multiset(b)
    ensures forall id :: id in a <==> id in b
  {
    assert forall id :: id in a <==> id in multiset(a);
  }

  lemma {:induction false} DistinctByCount(a: seq<Id>)
    ensures Distinct(a) <==> forall id :: multiset(a)[id] <= 1
  {
    if a != [] {
      assert a == [a[0]] + a[1..];
      assert multiset(a) == multiset{a[0]} + multiset(a[1..]);
      DistinctByCount(a[1..]);
      if a[0] in a[1..] {
        assert a[0] in multiset(a[1..]);
        assert multiset(a)[a[0]] > 1;
      } else {
        assert multiset(a[1..])[a[0]] == 0;
        forall id ensures multiset(a)[id] == (if id == a[0] then 1 else multiset(a[1..])[id]) {}
        assert Distinct(a) <==> Distinct(a[1..]);
        assert forall id :: multiset(a[1..])[id] <= multiset(a)[id];
      }
    }
  }

  lemma CountedDistinct(c: Cache, k: Kind, listing: seq<Id>, guarded: set<Id>, now: Time)
    requires Distinct(listing)
    ensures Distinct(CountedIds(c, k, listing, guarded, now))
  {
    FilterDistinct(listing, Counts(c, k, guarded, now));
  }

  /** What the operating system lists: every entry once. Names that have gone are skipped. */
  ghost predicate Covers(listing: seq<Id>, m: map<Id, Entry>) {
    Distinct(listing) && forall id :: id in m ==> id in listing
  }

  /** The order in which _cleanup considers the counted entries of a root. */
  ghost function Order(c: Cache, k: Kind, guarded: set<Id>, env: Env): seq<Id> {
    SortByAccess(c.Root(k), CountedIds(c, k, env.listing, guarded, env.now))
  }

  lemma OrderIsSorted(c: Cache, k: Kind, guarded: set<Id>, env: Env)
    requires Covers(env.listing, c.Root(k))
    ensures var order := Order(c, k, guarded, env);
      && Ordered(c.Root(k), order) && Distinct(order)
      && (forall id :: id in order <==> id in c.Root(k) && Counted(c, k, id, guarded, env.now))
      && BytesOf(c.Root(k), order) == BytesOf(c.Root(k), CountedIds(c, k, env.listing, guarded, env.now))
  {
    var ids := CountedIds(c, k, env.listing, guarded, env.now);
    SortKeeps(c.Root(k), ids);
    SameElements(ids, Order(c, k, guarded, env));
    CountedDistinct(c, k, env.listing, guarded, env.now);
    DistinctByCount(ids);
    DistinctByCount(Order(c, k, guarded, env));
  }

  // ---- the eviction loop ----

  function Unguarded(order: seq<Id>, guarded: set<Id>): seq<Id> {
    if order == [] then [] else
      (if order[0] in guarded then [] else [order[0]]) + Unguarded(order[1..], guarded)
  }

  lemma {:induction false} UnguardedKeeps(m: map<Id, Entry>, order: seq<Id>, guarded: set<Id>)
    ensures forall id :: id in Unguarded(order, guarded) <==> id in order && id !in guarded
    ensures Ordered(m, order) ==> Ordered(m, Unguarded(order, guarded))
  {
    if order != [] {
      UnguardedKeeps(m, order[1..], guarded);
      assert order == [order[0]] + order[1..];
      var rest := Unguarded(order[1..], guarded);
      if Ordered(m, order) {
        assert Ordered(m, order[1..]);
        forall j | 0 <= j < |rest| ensures AccessTime(m, order[0]) <= AccessTime(m, rest[j]) {
          assert rest[j] in order[1..];
        }
      }
    }
  }

  ghost function Elements(ids: seq<Id>): set<Id> { set id | id in ids }

  /** `n` is the least number of queued entries whose bytes bring the total within the limit,
      or the length of the queue when even all of them do not. */
  ghost predicate LeastRun(m: map<Id, Entry>, queue: seq<Id>, total: int, maxBytes: int, n: nat) {
    && n <= |queue|
    && (n < |queue| ==> total - BytesOf(m, queue[..n]) <= maxBytes)
    && (forall j :: 0 <= j < n ==> total - BytesOf(m, queue[..j]) > maxBytes)
  }

  lemma {:induction false} EvictIsLeastRun(m: map<Id, Entry>, order: seq<Id>, total: int, maxBytes: int,
                                           guarded: set<Id>)
    returns (n: nat)
    ensures LeastRun(m, Unguarded(order, guarded), total, maxBytes, n)
    ensures Evict(m, order, total, maxBytes, guarded) == Elements(Unguarded(order, guarded)[..n])
  {
    var queue := Unguarded(order, guarded);
    if order == [] || total <= maxBytes {
      n := 0;
      assert queue[..0] == [];
    } else if order[0] in guarded {
      n := EvictIsLeastRun(m, order[1..], total, maxBytes, guarded);
      assert queue == Unguarded(order[1..], guarded);
    } else {
      var rest := Unguarded(order[1..], guarded);
      var size := SizeOf(m, order[0]);
      var n' := EvictIsLeastRun(m, order[1..], total - size, maxBytes, guarded);
      n := n' + 1;
      assert queue == [order[0]] + rest;
      assert queue[..n] == [order[0]] + rest[..n'];
      forall j | 0 < j <= |queue|
        ensures BytesOf(m, queue[..j]) == size + BytesOf(m, rest[..j - 1])
      {
        assert queue[..j] == [order[0]] + rest[..j - 1];
        assert queue[..j][1..] == rest[..j - 1];
      }
      assert BytesOf(m, queue[..0]) == 0;
      forall j | 0 <= j < n ensures total - BytesOf(m, queue[..j]) > maxBytes {
        if j > 0 {
          assert total - size - BytesOf(m, rest[..j - 1]) > maxBytes;
        }
      }
    }
  }

  /** A cleanup takes the removed entries out of its root and touches nothing else but the counter. */
  lemma CleanupFrame(c: Cache, k: Kind, maxBytes: int, protect: set<Id>, env: Env)
    ensures var c' := Cleanup(c, k, maxBytes, protect, env);
      && c'.Root(k) == c.Root(k) - Removed(c, k, maxBytes, protect, env)
      && c'.leases == c.leases && c'.staging == c.staging
      && (forall other: Kind :: other != k ==> c'.Root(other) == c.Root(other))
  {
  }

  ghost function Queue(c: Cache, k: Kind, guarded: set<Id>, env: Env): seq<Id> {
    Unguarded(Order(c, k, guarded, env), guarded)
  }

  /** Nobody in the queue's evicted run was accessed later than anybody left in the queue. */
  lemma RunIsOldest(m: map<Id, Entry>, queue: seq<Id>, n: nat)
    requires Ordered(m, queue) && n <= |queue|
    ensures forall gone, kept :: gone in queue[..n] && kept in queue && kept !in queue[..n] ==>
              AccessTime(m, gone) <= AccessTime(m, kept)
  {
    forall gone, kept | gone in queue[..n] && kept in queue && kept !in queue[..n]
      ensures AccessTime(m, gone) <= AccessTime(m, kept)
    {
      forall j | 0 <= j < n ensures queue[j] in queue[..n] { assert queue[..n][j] == queue[j]; }
      var i :| 0 <= i < n && queue[i] == gone;
      var j :| 0 <= j < |queue| && queue[j] == kept;
    }
  }

  /** _cleanup removes exactly the doomed entries and the shortest least-recently-used run of
      unguarded live entries that brings the counted total within the limit. */
  lemma CleanupExact(c: Cache, k: Kind, maxBytes: int, protect: set<Id>, env: Env) returns (run: seq<Id>)
    requires Covers(env.listing, c.Root(k))
    ensures var guarded := protect + c.leases.Keys;
      var m, queue := c.Root(k), Queue(c, k, guarded, env);
      && |run| <= |queue| && run == queue[..|run|]
      && LeastRun(m, queue, BytesOf(m, Order(c, k, guarded, env)), maxBytes, |run|)
      && Removed(c, k, maxBytes, protect, env) == DoomedIds(c, k, guarded, env.now) + Elements(run)
      && (forall id :: id in queue <==> id in m && Counted(c, k, id, guarded, env.now) && id !in guarded)
      && (forall gone, kept :: gone in run && kept in queue && kept !in run ==>
            AccessTime(m, gone) <= AccessTime(m, kept))
  {
    var guarded := protect + c.leases.Keys;
    var m, order := c.Root(k), Order(c, k, guarded, env);
    OrderIsSorted(c, k, guarded, env);
    UnguardedKeeps(m, order, guarded);
    var queue := Unguarded(order, guarded);
    var n := EvictIsLeastRun(m, order, BytesOf(m, order), maxBytes, guarded);
    run := queue[..n];
    RunIsOldest(m, queue, n);
  }

  // ---- the same, told of stamps and leases alone ----

  predicate Stamped(e: Entry) { e.manifest.accessed.Some? && e.manifest.expires.Some? }

  predicate Live(e: Entry, now: Time) { Stamped(e) && e.manifest.expires.value > now }

  // The entries whose bytes a cleanup counts.
  ghost function Standing(m: map<Id, Entry>, guarded: set<Id>, now: Time): map<Id, Entry> {
    map id | id in m && Stamped(m[id]) && (m[id].manifest.expires.value > now || id in guarded) :: m[id]
  }

  predicate Evictable(m: map<Id, Entry>, guarded: set<Id>, now: Time, id: Id) {
    id in m && Live(m[id], now) && id !in guarded
  }

  // Nobody in the run was accessed later than anybody who could have gone and stays.
  ghost predicate Older(m: map<Id, Entry>, guarded: set<Id>, now: Time, run: seq<Id>) {
    && (forall id :: id in run ==> Evictable(m, guarded, now, id))
    && (forall id, kept :: id in run && Evictable(m, guarded, now, kept) && kept !in run ==>
          m[id].manifest.accessed.value <= m[kept].manifest.accessed.value)
  }

  /** The shortest run of live entries that nobody guards, least recently used first, without which the
      standing bytes are within the limit; or all of them, if even that does not do. */
  ghost predicate OldestRun(m: map<Id, Entry>, guarded: set<Id>, now: Time, limit: int, run: seq<Id>) {
    && Distinct(run) && Older(m, guarded, now, run)
    && (Total(Standing(m, guarded, now)) <= limit ==> run == [])
    && (run != [] ==> Total(Standing(m, guarded, now)) - BytesOf(m, run[..|run| - 1]) > limit)
    && (Total(Standing(m, guarded, now)) - BytesOf(m, run) <= limit
        || forall id :: Evictable(m, guarded, now, id) ==> id in run)
  }

  /** What a cleanup leaves of a root: of the entries without readable stamps the leased ones, of the others
      those that have not expired or are guarded, less the run that has to go. */
  ghost predicate RoomMade(c: Cache, k: Kind, protect: set<Id>, limit: int, now: Time, m': map<Id, Entry>) {
    var m, guarded := c.Root(k), protect + c.leases.Keys;
    && (forall id :: id in m' ==> id in m && m'[id] == m[id])
    && exists run ::
        && OldestRun(m, guarded, now, limit, run)
        && forall id :: id in m ==>
            (id in m' <==> if Stamped(m[id]) then id in Standing(m, guarded, now) && id !in run else c.Leased(id))
  }

  lemma StandingBytes(c: Cache, k: Kind, guarded: set<Id>, env: Env)
    requires Covers(env.listing, c.Root(k))
    ensures BytesOf(c.Root(k), Order(c, k, guarded, env)) == Total(Standing(c.Root(k), guarded, env.now))
  {
    OrderIsSorted(c, k, guarded, env);
    CountedStands(c, k, guarded, env.now);
    var standing, order := Standing(c.Root(k), guarded, env.now), Order(c, k, guarded, env);
    assert Enumerates(order, standing);
    ListedTotal(c.Root(k), standing, order);
  }

  lemma CountedStands(c: Cache, k: Kind, guarded: set<Id>, now: Time)
    ensures forall id ::
      id in c.Root(k) && Counted(c, k, id, guarded, now) <==> id in Standing(c.Root(k), guarded, now)
  {
  }

  lemma {:induction false} PrefixDistinct(ids: seq<Id>, n: nat)
    requires Distinct(ids) && n <= |ids|
    ensures Distinct(ids[..n])
  {
    if n > 0 {
      PrefixDistinct(ids[1..], n - 1);
      assert ids[..n] == [ids[0]] + ids[1..][..n - 1];
    }
  }

  lemma {:induction false} UnguardedDistinct(order: seq<Id>, guarded: set<Id>)
    requires Distinct(order)
    ensures Distinct(Unguarded(order, guarded))
  {
    if order != [] {
      var rest := Unguarded(order[1..], guarded);
      UnguardedDistinct(order[1..], guarded);
      UnguardedKeeps(map[], order[1..], guarded);
      assert ([order[0]] + rest)[1..] == rest && order[0] !in rest && [] + rest == rest;
    }
  }

  lemma GoneAreOlder(m: map<Id, Entry>, guarded: set<Id>, now: Time, queue: seq<Id>, run: seq<Id>)
    requires (forall id :: id in queue <==> Evictable(m, guarded, now, id)) && forall id :: id in run ==> id in queue
    requires forall gone, kept :: gone in run && kept in queue && kept !in run ==>
      AccessTime(m, gone) <= AccessTime(m, kept)
    ensures Older(m, guarded, now, run)
  {
    forall id, kept | id in run && Evictable(m, guarded, now, kept) && kept !in run
      ensures Evictable(m, guarded, now, id) && m[id].manifest.accessed.value <= m[kept].manifest.accessed.value
    {
      assert id in queue && kept in queue;
      assert AccessTime(m, id) <= AccessTime(m, kept);
    }
  }

  lemma LeastIsOldest(m: map<Id, Entry>, guarded: set<Id>, now: Time, limit: int, queue: seq<Id>, run: seq<Id>)
    requires Distinct(queue) && |run| <= |queue| && run == queue[..|run|]
    requires LeastRun(m, queue, Total(Standing(m, guarded, now)), limit, |run|)
    requires (forall id :: id in queue <==> Evictable(m, guarded, now, id)) && Older(m, guarded, now, run)
    ensures OldestRun(m, guarded, now, limit, run)
  {
    PrefixDistinct(queue, |run|);
    assert queue[..0] == [];
    if run != [] { assert run[..|run| - 1] == queue[..|run| - 1]; }
    if |run| == |queue| { assert run == queue; }
  }

  lemma QueueDistinct(c: Cache, k: Kind, guarded: set<Id>, env: Env)
    requires Covers(env.listing, c.Root(k))
    ensures Distinct(Queue(c, k, guarded, env))
    ensures forall id :: id in Queue(c, k, guarded, env) <==> Evictable(c.Root(k), guarded, env.now, id)
  {
    OrderIsSorted(c, k, guarded, env);
    UnguardedDistinct(Order(c, k, guarded, env), guarded);
    UnguardedKeeps(c.Root(k), Order(c, k, guarded, env), guarded);
  }

  /** _cleanup makes room, and only that. */
  lemma CleanupMakesRoom(c: Cache, k: Kind, limit: int, protect: set<Id>, env: Env)
    requires Covers(env.listing, c.Root(k))
    ensures RoomMade(c, k, protect, limit, env.now, Cleanup(c, k, limit, protect, env).Root(k))
  {
    var run := OldestRunGoes(c, k, limit, protect, env);
    CleanupFrame(c, k, limit, protect, env);
    RunRemoved(c, k, limit, protect, env, run);
  }

  lemma OldestRunGoes(c: Cache, k: Kind, limit: int, protect: set<Id>, env: Env) returns (run: seq<Id>)
    requires Covers(env.listing, c.Root(k))
    ensures var guarded := protect + c.leases.Keys;
      && OldestRun(c.Root(k), guarded, env.now, limit, run)
      && Removed(c, k, limit, protect, env) == DoomedIds(c, k, guarded, env.now) + Elements(run)
  {
    run := CleanupExact(c, k, limit, protect, env);
    var guarded := protect + c.leases.Keys;
    var queue := Queue(c, k, guarded, env);
    QueueDistinct(c, k, guarded, env);
    assert forall id :: id in run ==> id in queue;
    GoneAreOlder(c.Root(k), guarded, env.now, queue, run);
    StandingBytes(c, k, guarded, env);
    LeastIsOldest(c.Root(k), guarded, env.now, limit, queue, run);
  }

  lemma RunRemoved(c: Cache, k: Kind, limit: int, protect: set<Id>, env: Env, run: seq<Id>)
    requires var guarded := protect + c.leases.Keys;
      && OldestRun(c.Root(k), guarded, env.now, limit, run)
      && Removed(c, k, limit, protect, env) == DoomedIds(c, k, guarded, env.now) + Elements(run)
    ensures RoomMade(c, k, protect, limit, env.now, c.Root(k) - Removed(c, k, limit, protect, env))
  {
    var m, guarded := c.Root(k), protect + c.leases.Keys;
    var m' := m - Removed(c, k, limit, protect, env);
    forall id | id in m
      ensures id in m' <==> if Stamped(m[id]) then id in Standing(m, guarded, env.now) && id !in run else c.Leased(id)
    {
      assert id in DoomedIds(c, k, guarded, env.now) <==> Doomed(c, k, id, guarded, env.now);
      if id in run { assert Evictable(m, guarded, env.now, id); }
    }
  }

  // ---- totals after a cleanup ----

  /** What eviction leaves: either it fits, or all of it is guarded. */
  lemma {:induction false} EvictLeaves(m: map<Id, Entry>, order: seq<Id>, total: int, maxBytes: int, guarded: set<Id>)
    returns (left: seq<Id>)
    requires Distinct(order)
    ensures Distinct(left)
    ensures var gone := Evict(m, order, total, maxBytes, guarded);
      && gone <= Elements(order) && gone !! guarded
      && (forall id :: id in left <==> id in order && id !in gone)
    ensures BytesOf(m, left) <= BytesOf(m, order)
    ensures total - (BytesOf(m, order) - BytesOf(m, left)) <= maxBytes || forall id :: id in left ==> id in guarded
  {
    if order == [] || total <= maxBytes {
      left := order;
    } else {
      assert order[0] !in order[1..];
      assert order == [order[0]] + order[1..];
      if order[0] in guarded {
        var rest := EvictLeaves(m, order[1..], total, maxBytes, guarded);
        left := [order[0]] + rest;
        assert left[1..] == rest;
      } else {
        left := EvictLeaves(m, order[1..], total - SizeOf(m, order[0]), maxBytes, guarded);
      }
    }
  }

  ghost predicate LeasesPositive(c: Cache) { forall id :: id in c.leases ==> c.leases[id] > 0 }

  ghost predicate LeasedWellFormed(c: Cache, k: Kind) {
    forall id :: id in c.Root(k) && c.Leased(id) ==> !Malformed(c.Root(k)[id])
  }

  ghost function PinnedRoot(c: Cache, k: Kind): map<Id, Entry> {
    map id | id in c.Root(k) && id in c.leases :: c.Root(k)[id]
  }

  /** The survivors of a cleanup, in eviction order. */
  lemma Survivors(c: Cache, k: Kind, maxBytes: int, env: Env) returns (left: seq<Id>)
    requires Enumerates(env.listing, c.Root(k)) && LeasesPositive(c) && LeasedWellFormed(c, k)
    ensures Enumerates(left, c.Root(k) - Removed(c, k, maxBytes, {}, env))
    ensures BytesOf(c.Root(k), left) <= maxBytes || forall id :: id in left ==> id in c.leases
    ensures forall id :: id in c.Root(k) && id in c.leases ==> id in left
  {
    var guarded := {} + c.leases.Keys;
    var m, order := c.Root(k), Order(c, k, guarded, env);
    OrderIsSorted(c, k, guarded, env);
    left := EvictLeaves(m, order, BytesOf(m, order), maxBytes, guarded);
    forall id ensures id in left <==> id in m && id !in Removed(c, k, maxBytes, {}, env) {
      if id in m {
        assert Counted(c, k, id, guarded, env.now) <==> !Doomed(c, k, id, guarded, env.now);
      }
    }
  }

  lemma ListedTotal(m: map<Id, Entry>, m': map<Id, Entry>, ids: seq<Id>)
    requires Enumerates(ids, m') && forall id :: id in m' ==> id in m && m'[id] == m[id]
    ensures BytesOf(m, ids) == Total(m')
  {
    SeqSumSame(ids, m, m', Size);
    SeqSumIsSum(ids, m', Size);
  }

  /** The bytes of any root that has all the leased entries, and of one that has no others. */
  lemma PinnedWithin(c: Cache, k: Kind, m': map<Id, Entry>)
    requires forall id :: id in m' ==> id in c.Root(k) && m'[id] == c.Root(k)[id]
    requires forall id :: id in c.Root(k) && id in c.leases ==> id in m'
    ensures Pinned(c, k) <= Total(m')
    ensures (forall id :: id in m' ==> id in c.leases) ==> Total(m') == Pinned(c, k)
  {
    var pinned := PinnedRoot(c, k);
    SumMonotone(pinned, Size, m', Size);
    if forall id :: id in m' ==> id in c.leases {
      assert m' == pinned;
    }
  }

  /** With nothing protected but the leases, cleanup ends within the limit or at the leased entries. */
  lemma CleanupTotal(c: Cache, k: Kind, maxBytes: int, env: Env)
    requires Enumerates(env.listing, c.Root(k)) && LeasesPositive(c) && LeasedWellFormed(c, k)
    ensures var m' := c.Root(k) - Removed(c, k, maxBytes, {}, env);
      && Pinned(c, k) <= Total(m')
      && (Total(m') <= maxBytes || Total(m') == Pinned(c, k))
  {
    var m' := c.Root(k) - Removed(c, k, maxBytes, {}, env);
    var left := Survivors(c, k, maxBytes, env);
    ListedTotal(c.Root(k), m', left);
    PinnedWithin(c, k, m');
  }

  lemma RemainingFits(c: Cache, k: Kind, wanted: int, s: Settings, env: Env)
    requires Enumerates(env.listing, c.Root(k)) && LeasesPositive(c) && LeasedWellFormed(c, k)
    ensures Remaining(c, k, wanted, s, env) + wanted <= MaxBytes(s, k) <==> Pinned(c, k) + wanted <= MaxBytes(s, k)
  {
    CleanupTotal(c, k, MaxBytes(s, k) - wanted, env);
  }

  /** reserve succeeds exactly when the leased bytes, the other staging areas and the request
      fit together; the volume's free space is the only other reason to refuse. */
  lemma ReserveExact(c: Cache, s: Settings, path: Path, size: nat, env: Env)
    requires path in c.staging
    requires Enumerates(env.listing, c.Root(c.staging[path].kind)) && LeasesPositive(c)
    requires LeasedWellFormed(c, c.staging[path].kind)
    ensures var Area(k, held, _) := c.staging[path];
      var verdict, wanted := Verdict(c, s, path, size, env), size + Others(c, path);
      && (verdict == Reserved <==> Pinned(c, k) + wanted <= MaxBytes(s, k) && size - held <= env.free)
      && (verdict == VolumeFull ==> size - held > env.free)
  {
    RemainingFits(c, c.staging[path].kind, size + Others(c, path), s, env);
  }

  /** One byte in a staging area made just now: admitted exactly while its kind has headroom. */
  lemma FirstByte(c: Cache, s: Settings, k: Kind, unused: Path, env: Env)
    requires unused !in c.staging && LeasesPositive(c) && LeasedWellFormed(c, k)
    requires Enumerates(env.listing, c.Root(k)) && env.free > 0
    ensures Verdict(StagingPath(c, k, unused), s, unused, 1, env) == Reserved
       <==> Pinned(c, k) + Staged(c.staging, k) < MaxBytes(s, k)
  {
    var c1 := StagingPath(c, k, unused);
    assert c1.staging - {unused} == c.staging;
    assert PinnedRoot(c1, k) == PinnedRoot(c, k);
    ReserveExact(c1, s, unused, 1, env);
  }

  /** Readiness is exact: it holds when and only when one byte would be admitted in a new staging
      area of either kind, on a volume that has room. */
  lemma HasCapacityExact(c: Cache, s: Settings, unused: Path)
    requires unused !in c.staging && LeasesPositive(c)
    requires LeasedWellFormed(c, Source) && LeasedWellFormed(c, Result)
    ensures HasCapacity(c, s) <==>
      forall k: Kind, env: Env :: Enumerates(env.listing, c.Root(k)) && env.free > 0 ==>
        Verdict(StagingPath(c, k, unused), s, unused, 1, env) == Reserved
  {
    forall k: Kind, env: Env | Enumerates(env.listing, c.Root(k)) && env.free > 0
      ensures Verdict(StagingPath(c, k, unused), s, unused, 1, env) == Reserved
         <==> Pinned(c, k) + Staged(c.staging, k) < MaxBytes(s, k)
    {
      FirstByte(c, s, k, unused, env);
    }
    forall k: Kind ensures exists env: Env :: Enumerates(env.listing, c.Root(k)) && env.free > 0 {
      var ids := SomeListing(c.Root(k));
      assert Enumerates(Env(0, ids, 1).listing, c.Root(k));
    }
  }

  /** A ready cache also lets every existing staging area grow by a byte. */
  lemma HasCapacityGrows(c: Cache, s: Settings, path: Path, env: Env)
    requires HasCapacity(c, s) && path in c.staging && LeasesPositive(c)
    requires LeasedWellFormed(c, c.staging[path].kind)
    requires Enumerates(env.listing, c.Root(c.staging[path].kind)) && env.free > 0
    ensures Verdict(c, s, path, c.staging[path].reserved + 1, env) == Reserved
  {
    StagedSplit(c.staging, path);
    ReserveExact(c, s, path, c.staging[path].reserved + 1, env);
  }

  /** An area's reservation is counted once, under its own kind. */
  lemma StagedSplit(staging: map<Path, Area>, p: Path)
    requires p in staging
    ensures Staged(staging, staging[p].kind) == staging[p].reserved + Staged(staging - {p}, staging[p].kind)
    ensures forall k: Kind :: k != staging[p].kind ==> Staged(staging, k) == Staged(staging - {p}, k)
  {
    forall k: Kind ensures Staged(staging, k) == ReservedFor(k)(staging[p]) + Staged(staging - {p}, k) {
      SumSplit(staging, ReservedFor(k), p);
    }
  }
}
