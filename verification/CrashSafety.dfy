/** What survives crashes at whatever points, over whole runs. */
module CrashSafety {
  import opened Basics
  import opened Model
  import opened CacheSpec
  import opened Publication
  import opened PublicationInvariant

  // ---- what holds over whole runs ----

  ghost function DiskSteps(parse: Parser): (Disk, Act, Disk) -> bool { (s, a, s') => DiskStep(parse, s, a, s') }

  ghost predicate IsDiskRun(parse: Parser, states: seq<Disk>, acts: seq<Act>) {
    IsPath(states, acts, DiskSteps(parse)) && Fresh(states[0])
  }

  lemma ConsistentAlways(parse: Parser, states: seq<Disk>, acts: seq<Act>, i: nat)
    requires IsDiskRun(parse, states, acts) && i < |states|
    ensures Consistent(parse, states[i])
  {
    var good: Disk -> bool := s => Consistent(parse, s);
    forall s, a, s' | good(s) && DiskSteps(parse)(s, a, s') ensures good(s') {
      DiskStepKeeps(parse, s, a, s');
    }
    PathKeeps(states, acts, DiskSteps(parse), good, i);
  }

  /** Crash consistency: when recovery completes, after crashes at whatever points, the temporary
      root is empty and every entry left passes the checks and shows exactly what was published
      under its id: a commit that was cut short left nothing or all of its entry. */
  lemma RecoveryLeavesOnlyWhole(parse: Parser, states: seq<Disk>, acts: seq<Act>, i: nat, k: Kind, id: Id)
    requires IsDiskRun(parse, states, acts) && i < |acts| && acts[i] == Recovered
    ensures states[i + 1].fs.tmp.now == map[]
    ensures Visible(states[i + 1].fs, k, id) ==>
      && Recoverable(k, id, View(parse, states[i + 1].fs, k, id))
      && var d := states[i + 1].fs.Root(k).now[id];
         d in states[i + 1].homes && states[i + 1].homes[d].Filed? &&
             Shows(parse, states[i + 1].fs, d, states[i + 1].homes[d].filing)
  {
    ConsistentAlways(parse, states, acts, i);
    assert DiskSteps(parse)(states[i], acts[i], states[i + 1]);
    LeftIsWhole(parse, states[i], states[i + 1], k, id);
  }

  lemma LeftIsWhole(parse: Parser, s: Disk, s': Disk, k: Kind, id: Id)
    requires Consistent(parse, s) && DiskStep(parse, s, Recovered, s')
    ensures s'.fs.tmp.now == map[]
    ensures Visible(s'.fs, k, id) ==>
      && Recoverable(k, id, View(parse, s'.fs, k, id))
      && var d := s'.fs.Root(k).now[id];
         d in s'.homes && s'.homes[d].Filed? && Shows(parse, s'.fs, d, s'.homes[d].filing)
  {
    if Visible(s.fs, k, id) {
      var d := s.fs.Root(k).now[id];
      assert s.fs.Root(k).Possible(id, Some(d)) && !Rejects(parse, s.fs, k, id);
      RecoverableShows(parse, s.fs, d, s.homes[d].filing);
    }
  }

  /** An exception in a commit leaves its entry in its root exactly when it comes between the rename and
      the last fsync; the entry is then whole. */
  lemma AbortLeavesIff(parse: Parser, states: seq<Disk>, acts: seq<Act>, i: nat)
    requires IsDiskRun(parse, states, acts) && i < |acts| && acts[i] == Abort && states[i].job.Commit?
    ensures var j := states[i].job; var fs := states[i + 1].fs;
      && (InPlace(fs, j.d, j.filing) <==> j.pc.SyncRoot? || j.pc.SyncTmp?)
      && (InPlace(fs, j.d, j.filing) ==>
          Shows(parse, fs, j.d, j.filing) && Recoverable(j.filing.k, j.filing.id, EntryIn(parse, fs, j.d)))
  {
    ConsistentAlways(parse, states, acts, i);
    assert DiskSteps(parse)(states[i], acts[i], states[i + 1]);
    AbortLeaves(parse, states[i]);
  }

  lemma AbortLeaves(parse: Parser, s: Disk)
    requires Consistent(parse, s) && s.job.Commit?
    ensures InPlace(s.fs, s.job.d, s.job.filing) <==> s.job.pc.SyncRoot? || s.job.pc.SyncTmp?
    ensures s.job.pc.SyncRoot? || s.job.pc.SyncTmp? ==>
      Shows(parse, s.fs, s.job.d, s.job.filing) &&
          Recoverable(s.job.filing.k, s.job.filing.id, EntryIn(parse, s.fs, s.job.d))
  {
    if s.job.pc.SyncRoot? || s.job.pc.SyncTmp? { FirmShows(parse, s.fs, s.job.d, s.job.filing); }
  }

  lemma CommitKeepsLives(parse: Parser, s: Disk, s': Disk, d: NodeNo, g: Filing)
    requires s.job.Commit? && CommitHolds(parse, s, s.job) && CommitStep(s, s.job, s') && LivesAs(s, d, g)
    ensures LivesAs(s', d, g)
  {
  }

  lemma LiveSurvives(parse: Parser, s: Disk, a: Act, s': Disk, d: NodeNo, g: Filing)
    requires Consistent(parse, s) && DiskStep(parse, s, a, s') && a != Doom(d)
    requires LivesAs(s, d, g)
    ensures LivesAs(s', d, g)
  {
    if a.Recovered? {
      RecoveredKeeps(parse, s, s');
    } else if a.Advance? && s.job.Commit? {
      CommitKeepsLives(parse, s, s', d, g);
    }
  }

  ghost predicate LivesAs(s: Disk, d: NodeNo, g: Filing) { d in s.live && d in s.homes && s.homes[d] == Filed(g) }

  lemma LivesOn(parse: Parser, states: seq<Disk>, acts: seq<Act>, i: nat, j: nat, d: NodeNo, g: Filing)
    requires IsDiskRun(parse, states, acts) && i <= j < |states| && LivesAs(states[i], d, g)
    requires forall m :: i <= m < j ==> acts[m] != Doom(d)
    ensures LivesAs(states[j], d, g)
  {
    forall m: nat | i <= m < j && LivesAs(states[m], d, g) ensures LivesAs(states[m + 1], d, g) {
      ConsistentAlways(parse, states, acts, m);
      assert DiskSteps(parse)(states[m], acts[m], states[m + 1]);
      LiveSurvives(parse, states[m], acts[m], states[m + 1], d, g);
    }
    LivesLast(states, i, j, d, g);
  }

  lemma LivesLast(states: seq<Disk>, i: nat, j: nat, d: NodeNo, g: Filing)
    requires i <= j < |states| && LivesAs(states[i], d, g)
    requires forall m: nat :: i <= m < j && LivesAs(states[m], d, g) ==> LivesAs(states[m + 1], d, g)
    ensures LivesAs(states[j], d, g)
  {
    Stays((m: nat) => m < |states| && LivesAs(states[m], d, g), i, j);
  }

  lemma LiveShows(parse: Parser, s: Disk, d: NodeNo, g: Filing)
    requires Consistent(parse, s) && LivesAs(s, d, g)
    ensures InPlace(s.fs, d, g) && Shows(parse, s.fs, d, g) && Recoverable(g.k, g.id, EntryIn(parse, s.fs, d))
  {
    FirmShows(parse, s.fs, d, g);
  }

  /** Durability: an entry whose commit returned, and whose removal has not begun since, is there
      in every later state, crashes included, under its id and with the data it was published with. */
  lemma CommittedSurvives(parse: Parser, states: seq<Disk>, acts: seq<Act>, i: nat, j: nat, d: NodeNo, g: Filing)
    requires IsDiskRun(parse, states, acts) && i <= j < |states| && LivesAs(states[i], d, g)
    requires forall m :: i <= m < j ==> acts[m] != Doom(d)
    ensures InPlace(states[j].fs, d, g) && Shows(parse, states[j].fs, d, g)
    ensures Recoverable(g.k, g.id, EntryIn(parse, states[j].fs, d))
  {
    LivesOn(parse, states, acts, i, j, d, g);
    ConsistentAlways(parse, states, acts, j);
    LiveShows(parse, states[j], d, g);
  }

  /** What a new process finds on the disk: all that was live, as published; and whatever else
      passes the checks was once published here. */
  lemma CrashGivesDisk(parse: Parser, s: Disk, fs: Fs, k: Kind, id: Id)
    requires Consistent(parse, s) && Crashes(s.fs, fs)
    ensures forall d :: d in s.live ==> InPlace(fs, d, s.homes[d].filing) && Shows(parse, fs, d, s.homes[d].filing)
    ensures Visible(fs, k, id) && Recoverable(k, id, View(parse, fs, k, id)) ==>
      var d := fs.Root(k).now[id];
      && d in s.homes && s.homes[d].Filed? && s.homes[d].filing.k == k && s.homes[d].filing.id == id
      && Shows(parse, fs, d, s.homes[d].filing)
  {
    var s' := s.(fs := fs, doomed := {}, job := RecoverTmp(true));
    CrashKeeps(parse, s, fs, s');
    forall d | d in s.live ensures InPlace(fs, d, s.homes[d].filing) && Shows(parse, fs, d, s.homes[d].filing) {
      FirmShows(parse, fs, d, s.homes[d].filing);
    }
    if Visible(fs, k, id) && Recoverable(k, id, View(parse, fs, k, id)) {
      var d := fs.Root(k).now[id];
      assert s'.fs.Root(k).Possible(id, Some(d));
      RecoverableShows(parse, fs, d, s.homes[d].filing);
    }
  }

  // ---- removals are not synchronised ----

  function Settle(fs: Fs): Fs {
    Fs(map f | f in fs.files :: File(fs.files[f].data, true), map d | d in fs.nodes :: fs.nodes[d].Synced(),
       fs.tmp.Synced(), fs.sources.Synced(), fs.results.Synced())
  }

  lemma SettleCrashes(fs: Fs)
    ensures Crashes(fs, Settle(fs))
  {
    forall d: NodeNo ensures Survives(fs.Node(d), Settle(fs).Node(d)) {
      assert Settle(fs).Node(d) == fs.Node(d).Synced();
    }
  }

  lemma ReturnedWasPossible(fs: Fs, fs': Fs, k: Kind, id: Id)
    requires Crashes(fs, fs') && Visible(fs', k, id)
    ensures fs.Root(k).Possible(id, Some(fs'.Root(k).now[id]))
  {
    assert Survives(fs.Root(k), fs'.Root(k));
    assert fs.Root(k).Possible(id, fs'.Root(k).At(id));
  }

  /** Removing a live entry and then losing power can bring all of it back: it passes recovery. */
  lemma RemovedMayReturn(parse: Parser, s: Disk, d: NodeNo, names: seq<Text>) returns (states: seq<Disk>,
                         acts: seq<Act>)
    requires Consistent(parse, s) && s.job == Idle && d in s.live
    requires forall name :: name in s.fs.Node(d).now ==> name in names
    ensures IsPath(states, acts, DiskSteps(parse)) && states[0] == s && |acts| == |names| + 3
    ensures var g, gone, back := s.homes[d].filing, states[|acts| - 1].fs, states[|acts|];
      && !Visible(gone, g.k, g.id)
      && acts[|acts| - 1].Crash? && InPlace(back.fs, d, g) && Recoverable(g.k, g.id, EntryIn(parse, back.fs, d))
  {
    var g := s.homes[d].filing;
    FirmShows(parse, s.fs, d, g);
    var s1 := s.(live := s.live - {d}, doomed := s.doomed + {d});
    assert DiskSteps(parse)(s, Doom(d), s1);
    var inner, calls := RemoveAll(parse, s1, s.fs, d, names);
    var gone, back := LastSteps(parse, s.fs, inner[|calls|], d, g);
    states, acts := [s] + inner + [gone, back], [Doom(d)] + calls + [RemoveNode(d), Crash(Settle(s.fs))];
    RemovalPath(parse, s, d, inner, calls, gone, back);
    SettledShows(parse, s.fs, d, g);
  }

  /** The directory itself goes, and a crash brings everything back. */
  lemma LastSteps(parse: Parser, before: Fs, emptied: Disk, d: NodeNo, g: Filing) returns (gone: Disk, back: Disk)
    requires Recalls(before, emptied.fs, d) && emptied.fs.Node(d).now == map[] && emptied.job == Idle
    requires d in emptied.doomed && d in emptied.homes && emptied.homes[d] == Filed(g) && InPlace(before, d, g)
    ensures DiskSteps(parse)(emptied, RemoveNode(d), gone) && DiskSteps(parse)(gone, Crash(back.fs), back)
    ensures !Visible(gone.fs, g.k, g.id) && back.fs == Settle(before)
  {
    gone := emptied.(fs := emptied.fs.WithRoot(g.k, emptied.fs.Root(g.k).Unbind(g.id)));
    back := gone.(fs := Settle(before), doomed := {}, job := RecoverTmp(true));
    RecallCrashes(before, emptied.fs, gone.fs, d, g);
  }

  lemma SettledShows(parse: Parser, fs: Fs, d: NodeNo, g: Filing)
    requires Recoverable(g.k, g.id, EntryIn(parse, fs, d)) && InPlace(fs, d, g)
    ensures Recoverable(g.k, g.id, EntryIn(parse, Settle(fs), d)) && InPlace(Settle(fs), d, g)
  {
    assert Settle(fs).Node(d) == fs.Node(d).Synced();
    assert EntryIn(parse, Settle(fs), d) == EntryIn(parse, fs, d);
  }

  lemma RemovalPath(parse: Parser, s: Disk, d: NodeNo, inner: seq<Disk>, calls: seq<Act>, gone: Disk, back: Disk)
    requires IsPath(inner, calls, DiskSteps(parse)) && DiskSteps(parse)(s, Doom(d), inner[0])
    requires DiskSteps(parse)(inner[|calls|], RemoveNode(d), gone) && DiskSteps(parse)(gone, Crash(back.fs), back)
    ensures IsPath([s] + inner + [gone, back], [Doom(d)] + calls + [RemoveNode(d), Crash(back.fs)], DiskSteps(parse))
  {
    var step := DiskSteps(parse);
    PathPrepends(s, Doom(d), inner, calls, step);
    PathAppends([s] + inner, [Doom(d)] + calls, RemoveNode(d), gone, step);
    PathAppends([s] + inner + [gone], [Doom(d)] + calls + [RemoveNode(d)], Crash(back.fs), back, step);
    assert [s] + inner + [gone, back] == [s] + inner + [gone] + [back];
    assert [Doom(d)] + calls + [RemoveNode(d), Crash(back.fs)] ==
        [Doom(d)] + calls + [RemoveNode(d)] + [Crash(back.fs)];
  }

  /** Every binding of a directory before the removal began may come back. */
  ghost predicate Recalls(before: Fs, fs: Fs, d: NodeNo) {
    && (forall name :: fs.Node(d).Possible(name, before.Node(d).At(name)))
    && (forall o: NodeNo :: o != d ==> fs.Node(o) == before.Node(o))
    && fs.files == before.files && fs.tmp == before.tmp && fs.sources == before.sources && fs.results == before.results
    && fs.nodes.Keys == before.nodes.Keys
  }

  lemma {:induction false} RemoveAll(parse: Parser, s: Disk, before: Fs, d: NodeNo, names: seq<Text>)
    returns (states: seq<Disk>, acts: seq<Act>)
    requires d in s.doomed && Placed(s, d) && s.job == Idle && d in s.fs.nodes && Recalls(before, s.fs, d)
    requires forall name :: name in s.fs.Node(d).now ==> name in names
    ensures IsPath(states, acts, DiskSteps(parse)) && states[0] == s && |acts| == |names|
    ensures var last := states[|acts|];
      last == s.(fs := last.fs) && last.fs.Node(d).now == map[] && Recalls(before, last.fs, d)
    decreases |names|
  {
    if names == [] {
      states, acts := [s], [];
    } else {
      var s' := s.(fs := s.fs.Unlink(d, names[0]));
      assert DiskSteps(parse)(s, RemoveFile(d, names[0]), s');
      assert s'.fs.Root(s.homes[d].filing.k) == s.fs.Root(s.homes[d].filing.k);
      var states', acts' := RemoveAll(parse, s', before, d, names[1..]);
      states, acts := [s] + states', [RemoveFile(d, names[0])] + acts';
      PathPrepends(s, RemoveFile(d, names[0]), states', acts', DiskSteps(parse));
    }
  }

  lemma RecallCrashes(before: Fs, emptied: Fs, gone: Fs, d: NodeNo, g: Filing)
    requires Recalls(before, emptied, d) && before.Root(g.k).At(g.id) == Some(d)
    requires gone == emptied.WithRoot(g.k, emptied.Root(g.k).Unbind(g.id))
    ensures Crashes(gone, Settle(before))
  {
    forall o: NodeNo ensures Survives(gone.Node(o), Settle(before).Node(o)) {
      assert Settle(before).Node(o) == before.Node(o).Synced() && gone.Node(o) == emptied.Node(o);
      forall name ensures gone.Node(o).Possible(name, Settle(before).Node(o).At(name)) {
        assert Settle(before).Node(o).At(name) == before.Node(o).At(name);
      }
    }
  }
}
