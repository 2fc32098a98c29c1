/** Directories that were committed under one name one after the other: which of them a power loss
    may bring back. */
module Incarnations {
  import opened Basics
  import opened Model
  import opened CacheSpec
  import opened Publication
  import opened PublicationInvariant
  import opened CrashSafety

  // ---- what is whole outside recovery ----

  predicate Normal(s: Disk) { !s.job.RecoverTmp? && !s.job.RecoverRoots? }

  ghost predicate CanBe<N(!new)>(folder: Folder<N>, name: N) { exists t: nat :: folder.Possible(name, Some(t)) }

  /** Some outcome of a crash has both names that a lookup needs. */
  ghost predicate Revivable(fs: Fs, d: NodeNo, g: Filing) {
    CanBe(fs.Node(d), MANIFEST) && CanBe(fs.Node(d), DataFile(g.record))
  }

  ghost predicate TmpDrafts(s: Disk) {
    forall path: Path, d: NodeNo :: s.fs.tmp.At(path) == Some(d) ==> d in s.homes && s.homes[d].Draft?
  }

  ghost predicate StandsWhole(s: Disk, d: NodeNo) {
    d in s.homes && Placed(s, d) ==>
      Revivable(s.fs, d, s.homes[d].filing) && (d !in s.doomed ==> Whole(s.fs, d, s.homes[d].filing))
  }

  /** Temporary names lead to drafts once recovery has emptied tmp; outside recovery every directory
      in a root can come back whole, and is whole unless its removal has begun. */
  ghost predicate Wholesome(s: Disk) {
    && (!s.job.RecoverTmp? ==> TmpDrafts(s))
    && (Normal(s) ==> forall d :: StandsWhole(s, d))
  }

  lemma WholeRevives(fs: Fs, d: NodeNo, g: Filing)
    requires Whole(fs, d, g)
    ensures Revivable(fs, d, g)
  {
    var node := fs.Node(d);
    assert node.Possible(MANIFEST, Some(node.now[MANIFEST]));
    assert node.Possible(DataFile(g.record), Some(node.now[DataFile(g.record)]));
  }

  lemma UnlinkRevives(fs: Fs, d: NodeNo, name: Text, o: NodeNo, g: Filing)
    requires Revivable(fs, o, g)
    ensures Revivable(fs.Unlink(d, name), o, g)
  {
    var fs' := fs.Unlink(d, name);
    forall n: Text | CanBe(fs.Node(o), n) ensures CanBe(fs'.Node(o), n) {
      var t: nat :| fs.Node(o).Possible(n, Some(t));
      assert fs'.Node(o).Possible(n, Some(t));
    }
  }

  // What a step does not do to a directory keeps it whole.
  lemma SameNodeWhole(s: Disk, s': Disk, d: NodeNo)
    requires StandsWhole(s, d) && s'.fs.Node(d) == s.fs.Node(d)
    requires d in s'.homes && Placed(s', d) ==> d in s.homes && s.homes[d] == s'.homes[d] && Placed(s, d)
    requires d in s.doomed ==> d in s'.doomed
    ensures StandsWhole(s', d)
  {
  }

  lemma StagingWholesome(s: Disk, a: Act, s': Disk)
    requires AllKnown(s) && Wholesome(s) && Normal(s) && StagingStep(s, a, s')
    ensures Wholesome(s')
  {
    forall d ensures StandsWhole(s', d) {
      if d in s'.homes && Placed(s', d) {
        assert d in s.homes && s.homes[d] == s'.homes[d] && !Drafting(s, d);
        StagingFrame(s, a, s', d);
        SameNodeWhole(s, s', d);
      }
    }
    forall path: Path, d: NodeNo | s'.fs.tmp.At(path) == Some(d) ensures d in s'.homes && s'.homes[d].Draft? {
      assert a == Stage(path, d) || s.fs.tmp.At(path) == Some(d);
    }
  }

  lemma RemoveWholesome(s: Disk, a: Act, s': Disk)
    requires Wholesome(s) && Normal(s) && RemoveStep(s, a, s')
    ensures Wholesome(s')
  {
    forall d ensures StandsWhole(s', d) {
      if d in s'.homes && Placed(s', d) {
        assert s.fs.Root(s.homes[d].filing.k).At(s.homes[d].filing.id) == Some(d);
        assert StandsWhole(s, d);
        if a.RemoveFile? {
          UnlinkRevives(s.fs, a.d, a.name, d, s.homes[d].filing);
        }
      }
    }
  }

  lemma TouchWholesome(parse: Parser, s: Disk, s': Disk)
    requires Consistent(parse, s) && Wholesome(s) && s.job.Touch? && TouchStep(s, s.job, s')
    ensures Wholesome(s')
  {
    var j := s.job;
    assert FilesKnown(s.fs, j.d);
    TouchLocal(parse, s, s');
    TouchStaysWhole(parse, s, s');
    forall d ensures StandsWhole(s', d) {
      if d == j.d {
        WholeRevives(s'.fs, j.d, j.filing);
      } else {
        SameNodeWhole(s, s', d);
      }
    }
  }

  lemma TouchStaysWhole(parse: Parser, s: Disk, s': Disk)
    requires s.job.Touch? && TouchStep(s, s.job, s') && TouchHolds(parse, s, s.job)
    ensures Whole(s'.fs, s.job.d, s.job.filing)
  {
  }

  lemma CommitWholesome(parse: Parser, s: Disk, s': Disk)
    requires Consistent(parse, s) && Wholesome(s) && s.job.Commit? && CommitStep(s, s.job, s')
    ensures Wholesome(s')
  {
    var j := s.job;
    if OwnDirectory(j.pc) {
      assert FilesKnown(s.fs, j.d);
      CommitLocal(parse, s, s');
      forall d ensures StandsWhole(s', d) {
        if d != j.d { SameNodeWhole(s, s', d); }
      }
    } else if j.pc.MoveToRoot? {
      MoveWholesome(parse, s, s');
    } else {
      SyncWholesome(s, s');
    }
  }

  lemma SyncWholesome(s: Disk, s': Disk)
    requires Wholesome(s) && s.job.Commit? && (s.job.pc.SyncRoot? || s.job.pc.SyncTmp?) && CommitStep(s, s.job, s')
    ensures Wholesome(s')
  {
    assert s'.fs.sources.now == s.fs.sources.now && s'.fs.results.now == s.fs.results.now;
    assert s'.fs.tmp.now == s.fs.tmp.now;
    forall d ensures StandsWhole(s', d) { SameNodeWhole(s, s', d); }
    forall path: Path, d: NodeNo | s'.fs.tmp.At(path) == Some(d) ensures d in s'.homes && s'.homes[d].Draft? {
      assert s.fs.tmp.At(path) == Some(d);
    }
  }

  lemma FirmIsWhole(fs: Fs, d: NodeNo, g: Filing)
    requires Firm(fs, d, g)
    ensures Whole(fs, d, g)
  {
    var node := fs.Node(d);
    assert node.Possible(MANIFEST, node.At(MANIFEST)) && node.Possible(DataFile(g.record), node.At(DataFile(g.record)));
  }

  lemma MoveWholesome(parse: Parser, s: Disk, s': Disk)
    requires Consistent(parse, s) && Wholesome(s) && s.job.Commit? && s.job.pc.MoveToRoot? && CommitStep(s, s.job, s')
    ensures Wholesome(s')
  {
    var j := s.job;
    FirmIsWhole(s.fs, j.d, j.filing);
    forall d ensures StandsWhole(s', d) {
      if d == j.d {
        WholeRevives(s'.fs, d, j.filing);
      } else if d in s'.homes && Placed(s', d) {
        assert s.fs.Root(s.homes[d].filing.k).At(s.homes[d].filing.id) == Some(d);
        SameNodeWhole(s, s', d);
      }
    }
    forall path: Path, d: NodeNo | s'.fs.tmp.At(path) == Some(d) ensures d in s'.homes && s'.homes[d].Draft? {
      assert s.fs.tmp.At(path) == Some(d);
      assert s.fs.tmp.Possible(path, Some(d));
    }
  }

  lemma RecoveredWholesome(parse: Parser, s: Disk, s': Disk)
    requires Consistent(parse, s) && RecoverStep(parse, s, Recovered, s')
    ensures Wholesome(s')
  {
    forall d ensures StandsWhole(s', d) {
      if d in s'.homes && Placed(s', d) {
        var g := s.homes[d].filing;
        assert Visible(s.fs, g.k, g.id) && !Rejects(parse, s.fs, g.k, g.id);
        RecoverableShows(parse, s.fs, d, g);
        assert MANIFEST in s.fs.Node(d).now;
        WholeRevives(s.fs, d, g);
      }
    }
  }

  lemma TidyWholesome(parse: Parser, s: Disk, a: Act, s': Disk)
    requires Consistent(parse, s) && Wholesome(s) && RecoverStep(parse, s, a, s') && !a.Recovered?
    ensures Wholesome(s')
  {
  }

  lemma WholesomeKept(parse: Parser, s: Disk, a: Act, s': Disk)
    requires Consistent(parse, s) && Wholesome(s) && DiskStep(parse, s, a, s')
    ensures Wholesome(s')
  {
    if a.Begin? || a.Abort? {
      BeginWholesome(parse, s, a, s');
    } else if a.Advance? {
      if s.job.Commit? { CommitWholesome(parse, s, s'); } else { TouchWholesome(parse, s, s'); }
    } else if a.Crash? || a.Kill? {
      assert s'.job.RecoverTmp?;
    } else {
      OthersWholesome(parse, s, a, s');
    }
  }

  lemma BeginWholesome(parse: Parser, s: Disk, a: Act, s': Disk)
    requires Wholesome(s) && DiskStep(parse, s, a, s') && (a.Begin? || a.Abort?)
    ensures Wholesome(s')
  {
    forall d ensures StandsWhole(s', d) { SameNodeWhole(s, s', d); }
  }

  lemma OthersWholesome(parse: Parser, s: Disk, a: Act, s': Disk)
    requires Consistent(parse, s) && Wholesome(s) && DiskStep(parse, s, a, s')
    requires !a.Begin? && !a.Advance? && !a.Abort? && !a.Crash? && !a.Kill?
    ensures Wholesome(s')
  {
    if !Normal(s) {
      assert RecoverStep(parse, s, a, s');
      if a.Recovered? { RecoveredWholesome(parse, s, s'); } else { TidyWholesome(parse, s, a, s'); }
    } else if StagingStep(s, a, s') {
      StagingWholesome(s, a, s');
    } else {
      RemoveWholesome(s, a, s');
    }
  }

  lemma WholesomeAlways(parse: Parser, states: seq<Disk>, acts: seq<Act>, i: nat)
    requires IsDiskRun(parse, states, acts) && i < |states|
    ensures Consistent(parse, states[i]) && Wholesome(states[i])
  {
    var good: Disk -> bool := s => Consistent(parse, s) && Wholesome(s);
    forall s, a, s' | good(s) && DiskSteps(parse)(s, a, s') ensures good(s') {
      DiskStepKeeps(parse, s, a, s');
      WholesomeKept(parse, s, a, s');
    }
    PathKeeps(states, acts, DiskSteps(parse), good, i);
  }

  // ---- after the name of a directory has gone ----

  /** The fsync of a root in the course of a commit. */
  predicate SyncsRoot(s: Disk, a: Act, k: Kind) {
    a.Advance? && s.job.Commit? && s.job.pc.SyncRoot? && s.job.filing.k == k
  }

  /** A step that takes a directory's name out of its root: the end of a removal, or recovery. */
  predicate Unbinds(s: Disk, a: Act, n: NodeNo) {
    && Placed(s, n)
    && (a == RemoveNode(n) || a == RecoverDrop(s.homes[n].filing.k, s.homes[n].filing.id))
  }

  /** The name has gone and nothing has settled that: the directory is as it was then. */
  ghost predicate GoneAs(s: Disk, n: NodeNo, g: Filing, node: Folder<Text>) {
    && n in s.homes && s.homes[n] == Filed(g)
    && Stale(g.id, Some(n)) in s.fs.Root(g.k).stale && !InPlace(s.fs, n, g)
    && s.fs.Node(n) == node && TmpDrafts(s) && !InHand(s, n)
  }

  lemma GoneStarts(parse: Parser, s: Disk, a: Act, s': Disk, n: NodeNo)
    requires Consistent(parse, s) && Wholesome(s) && DiskStep(parse, s, a, s') && n in s.homes && Unbinds(s, a, n)
    ensures GoneAs(s', n, s.homes[n].filing, s.fs.Node(n))
  {
  }

  lemma StagingLeavesGone(s: Disk, a: Act, s': Disk, n: NodeNo, g: Filing, node: Folder<Text>)
    requires AllKnown(s) && GoneAs(s, n, g, node) && StagingStep(s, a, s')
    ensures GoneAs(s', n, g, node)
  {
    assert !Drafting(s, n);
    StagingFrame(s, a, s', n);
    forall path: Path, d: NodeNo | s'.fs.tmp.At(path) == Some(d) ensures d in s'.homes && s'.homes[d].Draft? {
      assert a == Stage(path, d) || s.fs.tmp.At(path) == Some(d);
    }
  }

  lemma RemovalLeavesGone(s: Disk, a: Act, s': Disk, n: NodeNo, g: Filing, node: Folder<Text>)
    requires GoneAs(s, n, g, node) && RemoveStep(s, a, s')
    ensures GoneAs(s', n, g, node)
  {
  }

  lemma RecoveryLeavesDrafts(parse: Parser, s: Disk, a: Act, s': Disk)
    requires TmpDrafts(s) && RecoverStep(parse, s, a, s')
    ensures TmpDrafts(s')
  {
    forall path: Path, d: NodeNo | s'.fs.tmp.At(path) == Some(d) ensures d in s'.homes && s'.homes[d].Draft? {
      assert s.fs.tmp.At(path) == Some(d);
    }
  }

  lemma RecoveryLeavesGone(parse: Parser, s: Disk, a: Act, s': Disk, n: NodeNo, g: Filing, node: Folder<Text>)
    requires RootHomed(s, Source) && RootHomed(s, Result) && GoneAs(s, n, g, node) && RecoverStep(parse, s, a, s')
    ensures GoneAs(s', n, g, node)
  {
    RecoveryLeavesDrafts(parse, s, a, s');
    if a.RecoverUnlink? {
      assert s.fs.tmp.At(a.path) == Some(s.fs.tmp.now[a.path]);
    } else if a.RecoverReject? {
      assert s.fs.Root(a.k).Possible(a.id, Some(s.fs.Root(a.k).now[a.id]));
    }
  }

  lemma OwnLeavesGone(parse: Parser, s: Disk, s': Disk, n: NodeNo, g: Filing, node: Folder<Text>)
    requires Consistent(parse, s) && GoneAs(s, n, g, node) && s.job.Commit? && CommitStep(s, s.job, s')
    requires OwnDirectory(s.job.pc)
    ensures GoneAs(s', n, g, node)
  {
    assert FilesKnown(s.fs, s.job.d);
    CommitLocal(parse, s, s');
  }

  lemma MoveLeavesGone(s: Disk, s': Disk, n: NodeNo, g: Filing, node: Folder<Text>)
    requires TmpHomed(s) && GoneAs(s, n, g, node) && s.job.Commit? && s.job.pc.MoveToRoot? && CommitStep(s, s.job, s')
    requires BeforeMove(s, s.job)
    ensures GoneAs(s', n, g, node)
  {
    forall path: Path, d: NodeNo | s'.fs.tmp.At(path) == Some(d) ensures d in s'.homes && s'.homes[d].Draft? {
      assert s.fs.tmp.At(path) == Some(d);
      assert s.fs.tmp.Possible(path, Some(d));
    }
  }

  lemma SyncLeavesGone(s: Disk, s': Disk, n: NodeNo, g: Filing, node: Folder<Text>)
    requires GoneAs(s, n, g, node) && s.job.Commit? && CommitStep(s, s.job, s')
    requires (s.job.pc.SyncRoot? && s.job.filing.k != g.k) || s.job.pc.SyncTmp?
    ensures GoneAs(s', n, g, node)
  {
    assert s'.fs.Root(g.k) == s.fs.Root(g.k) && s'.fs.tmp.now == s.fs.tmp.now;
    forall path: Path, d: NodeNo | s'.fs.tmp.At(path) == Some(d) ensures d in s'.homes && s'.homes[d].Draft? {
      assert s.fs.tmp.At(path) == Some(d);
    }
  }

  lemma CommitLeavesGone(parse: Parser, s: Disk, s': Disk, n: NodeNo, g: Filing, node: Folder<Text>)
    requires Consistent(parse, s) && GoneAs(s, n, g, node) && s.job.Commit? && CommitStep(s, s.job, s')
    requires !SyncsRoot(s, Advance, g.k)
    ensures GoneAs(s', n, g, node)
  {
    if OwnDirectory(s.job.pc) {
      OwnLeavesGone(parse, s, s', n, g, node);
    } else if s.job.pc.MoveToRoot? {
      MoveLeavesGone(s, s', n, g, node);
    } else {
      SyncLeavesGone(s, s', n, g, node);
    }
  }

  lemma TouchLeavesGone(parse: Parser, s: Disk, s': Disk, n: NodeNo, g: Filing, node: Folder<Text>)
    requires Consistent(parse, s) && GoneAs(s, n, g, node) && s.job.Touch? && TouchStep(s, s.job, s')
    ensures GoneAs(s', n, g, node)
  {
    assert FilesKnown(s.fs, s.job.d);
    TouchLocal(parse, s, s');
  }

  lemma GoneStays(parse: Parser, s: Disk, a: Act, s': Disk, n: NodeNo, g: Filing, node: Folder<Text>)
    requires Consistent(parse, s) && GoneAs(s, n, g, node) && DiskStep(parse, s, a, s')
    requires !a.Crash? && !SyncsRoot(s, a, g.k)
    ensures GoneAs(s', n, g, node)
  {
    if a.Advance? {
      if s.job.Commit? {
        CommitLeavesGone(parse, s, s', n, g, node);
      } else {
        TouchLeavesGone(parse, s, s', n, g, node);
      }
    } else if a.Begin? || a.Abort? || a.Kill? {
      BeginLeavesGone(parse, s, a, s', n, g, node);
    } else if !Normal(s) {
      RecoveryLeavesGone(parse, s, a, s', n, g, node);
    } else if StagingStep(s, a, s') {
      StagingLeavesGone(s, a, s', n, g, node);
    } else {
      RemovalLeavesGone(s, a, s', n, g, node);
    }
  }

  lemma BeginLeavesGone(parse: Parser, s: Disk, a: Act, s': Disk, n: NodeNo, g: Filing, node: Folder<Text>)
    requires GoneAs(s, n, g, node) && DiskStep(parse, s, a, s') && (a.Begin? || a.Abort? || a.Kill?)
    ensures GoneAs(s', n, g, node)
  {
  }

  // ---- what brings it back, and what does not ----

  /** After a crash the directory is under its name again and passes recovery. */
  ghost predicate MayBeBack(parse: Parser, fs: Fs, n: NodeNo, g: Filing) {
    exists fs' :: Crashes(fs, fs') && InPlace(fs', n, g) && Recoverable(g.k, g.id, EntryIn(parse, fs', n))
  }

  lemma BackAgain(parse: Parser, s: Disk, n: NodeNo, g: Filing) returns (fs': Fs)
    requires Consistent(parse, s) && n in s.homes && s.homes[n] == Filed(g)
    requires s.fs.Root(g.k).Possible(g.id, Some(n)) && Revivable(s.fs, n, g)
    ensures Crashes(s.fs, fs') && InPlace(fs', n, g) && Recoverable(g.k, g.id, EntryIn(parse, fs', n))
  {
    var m: nat :| s.fs.Node(n).Possible(MANIFEST, Some(m));
    var f: nat :| s.fs.Node(n).Possible(DataFile(g.record), Some(f));
    SettleCrashes(s.fs);
    var node := Folder(s.fs.Node(n).now[MANIFEST := m][DataFile(g.record) := f], {});
    var fs1 := Settle(s.fs);
    fs' := fs1.WithRoot(g.k, Folder(s.fs.Root(g.k).now[g.id := n], {})).(nodes := fs1.nodes[n := node]);
    BackCrashes(s.fs, fs', n, g, m, f);
    assert fs'.Data(m) == s.fs.Data(m) && fs'.Data(f) == s.fs.Data(f);
  }

  lemma BackCrashes(fs: Fs, fs': Fs, n: NodeNo, g: Filing, m: nat, f: nat)
    requires n in fs.nodes && fs.Node(n).Possible(MANIFEST, Some(m)) && fs.Node(n).Possible(DataFile(g.record), Some(f))
    requires DataFile(g.record) != MANIFEST && fs.Root(g.k).Possible(g.id, Some(n))
    requires fs' == Settle(fs).WithRoot(g.k, Folder(fs.Root(g.k).now[g.id := n], {})).(
      nodes := Settle(fs).nodes[n := Folder(fs.Node(n).now[MANIFEST := m][DataFile(g.record) := f], {})])
    ensures Crashes(fs, fs')
  {
    forall d: NodeNo ensures Survives(fs.Node(d), fs'.Node(d)) {
      assert Settle(fs).Node(d) == fs.Node(d).Synced();
    }
    assert Survives(fs.Root(g.k), fs'.Root(g.k));
  }

  lemma BackWasRevivable(parse: Parser, s: Disk, fs': Fs, n: NodeNo, g: Filing)
    requires Filings(parse, s) && n in s.homes && s.homes[n] == Filed(g) && Crashes(s.fs, fs') && InPlace(fs', n, g)
    requires Recoverable(g.k, g.id, EntryIn(parse, fs', n))
    ensures s.fs.Root(g.k).Possible(g.id, Some(n)) && Revivable(s.fs, n, g)
  {
    ReturnedWasPossible(s.fs, fs', g.k, g.id);
    CrashFades(parse, s.fs, fs', n, g);
    RecoverableShows(parse, fs', n, g);
    var node, node' := s.fs.Node(n), fs'.Node(n);
    assert Survives(node, node');
    assert MANIFEST in node'.now && node.Possible(MANIFEST, node'.At(MANIFEST));
    assert node.Possible(DataFile(g.record), node'.At(DataFile(g.record)));
  }

  // ---- over whole runs ----

  ghost predicate Unsettled(states: seq<Disk>, acts: seq<Act>, i: nat, j: nat, k: Kind)
    requires |states| == |acts| + 1 && i <= j < |states|
  {
    forall m :: i < m < j ==> !SyncsRoot(states[m], acts[m], k) && !acts[m].Crash?
  }

  lemma GoneFrom(parse: Parser, states: seq<Disk>, acts: seq<Act>, i: nat, n: NodeNo)
    requires IsDiskRun(parse, states, acts) && i < |acts| && n in states[i].homes && Unbinds(states[i], acts[i], n)
    ensures GoneAs(states[i + 1], n, states[i].homes[n].filing, states[i].fs.Node(n))
  {
    WholesomeAlways(parse, states, acts, i);
    assert DiskSteps(parse)(states[i], acts[i], states[i + 1]);
    GoneStarts(parse, states[i], acts[i], states[i + 1], n);
  }

  lemma GoneOn(parse: Parser, states: seq<Disk>, acts: seq<Act>, i: nat, j: nat, n: NodeNo, g: Filing,
               node: Folder<Text>)
    requires IsDiskRun(parse, states, acts) && i <= j < |states| && GoneAs(states[i], n, g, node)
    requires forall m :: i <= m < j ==> !acts[m].Crash? && !SyncsRoot(states[m], acts[m], g.k)
    ensures GoneAs(states[j], n, g, node)
  {
    forall m: nat | i <= m < j && GoneAs(states[m], n, g, node) ensures GoneAs(states[m + 1], n, g, node) {
      ConsistentAlways(parse, states, acts, m);
      assert DiskSteps(parse)(states[m], acts[m], states[m + 1]);
      GoneStays(parse, states[m], acts[m], states[m + 1], n, g, node);
    }
    GoneLasts(states, i, j, n, g, node);
  }

  lemma GoneLasts(states: seq<Disk>, i: nat, j: nat, n: NodeNo, g: Filing, node: Folder<Text>)
    requires i <= j < |states| && GoneAs(states[i], n, g, node)
    requires forall m: nat :: i <= m < j && GoneAs(states[m], n, g, node) ==> GoneAs(states[m + 1], n, g, node)
    ensures GoneAs(states[j], n, g, node)
  {
    Stays((m: nat) => m < |states| && GoneAs(states[m], n, g, node), i, j);
  }

  lemma GoneSince(parse: Parser, states: seq<Disk>, acts: seq<Act>, i: nat, j: nat, n: NodeNo)
    requires IsDiskRun(parse, states, acts) && i < j < |states| && n in states[i].homes
    requires Unbinds(states[i], acts[i], n)
    requires Unsettled(states, acts, i, j, states[i].homes[n].filing.k)
    ensures GoneAs(states[j], n, states[i].homes[n].filing, states[i].fs.Node(n))
  {
    GoneFrom(parse, states, acts, i, n);
    GoneOn(parse, states, acts, i + 1, j, n, states[i].homes[n].filing, states[i].fs.Node(n));
  }

  /** Once the name cannot lead there, it never will again: a filed directory is not filed twice. */
  ghost predicate NeverBack(s: Disk, n: NodeNo, g: Filing) {
    n in s.homes && s.homes[n] == Filed(g) && !s.fs.Root(g.k).Possible(g.id, Some(n))
  }

  /** What a step may newly bind in the roots: the directory that a commit moves in, nothing else. */
  ghost predicate BindsOnly(s: Disk, s': Disk, moved: Option<NodeNo>) {
    && (forall id: Id, t: NodeNo :: s'.fs.sources.Possible(id, Some(t)) ==>
        s.fs.sources.Possible(id, Some(t)) || moved == Some(t))
    && (forall id: Id, t: NodeNo :: s'.fs.results.Possible(id, Some(t)) ==>
        s.fs.results.Possible(id, Some(t)) || moved == Some(t))
    && (forall n :: n in s.homes && s.homes[n].Filed? ==> n in s'.homes && s'.homes[n] == s.homes[n])
  }

  // The draft that this step publishes.
  function Moving(s: Disk, a: Act): Option<NodeNo> {
    if a.Advance? && s.job.Commit? && s.job.pc.MoveToRoot? then Some(s.job.d) else None
  }

  lemma CommitBinds(parse: Parser, s: Disk, s': Disk)
    requires s.job.Commit? && CommitStep(s, s.job, s') && CommitHolds(parse, s, s.job)
    ensures BindsOnly(s, s', Moving(s, Advance))
  {
  }

  lemma RemoveBinds(s: Disk, a: Act, s': Disk)
    requires RemoveStep(s, a, s') || StagingStep(s, a, s')
    ensures BindsOnly(s, s', None)
  {
  }

  lemma RecoverBinds(parse: Parser, s: Disk, a: Act, s': Disk)
    requires RecoverStep(parse, s, a, s')
    ensures BindsOnly(s, s', None)
  {
    if Tidies(a) { TidyFrame(parse, s, a, s'); }
  }

  lemma HandBinds(parse: Parser, s: Disk, a: Act, s': Disk)
    requires DiskStep(parse, s, a, s') && (a.Begin? || a.Abort? || a.Kill? || (a.Advance? && s.job.Touch?))
    ensures BindsOnly(s, s', None)
  {
  }

  lemma CrashBinds(parse: Parser, s: Disk, a: Act, s': Disk)
    requires DiskStep(parse, s, a, s') && a.Crash?
    ensures BindsOnly(s, s', None)
  {
    assert Survives(s.fs.sources, s'.fs.sources) && Survives(s.fs.results, s'.fs.results);
    forall id: Id
      ensures s.fs.sources.Possible(id, s'.fs.sources.At(id)) && s.fs.results.Possible(id, s'.fs.results.At(id)) {}
  }

  lemma StepBindsOnly(parse: Parser, s: Disk, a: Act, s': Disk)
    requires Consistent(parse, s) && DiskStep(parse, s, a, s')
    ensures BindsOnly(s, s', Moving(s, a))
  {
    if a.Crash? {
      CrashBinds(parse, s, a, s');
    } else if a.Advance? && s.job.Commit? {
      CommitBinds(parse, s, s');
    } else if a.Begin? || a.Abort? || a.Kill? || a.Advance? {
      HandBinds(parse, s, a, s');
    } else if !Normal(s) {
      RecoverBinds(parse, s, a, s');
    } else {
      RemoveBinds(s, a, s');
    }
  }

  lemma MovingIsDraft(parse: Parser, s: Disk, a: Act, n: NodeNo)
    requires Consistent(parse, s) && n in s.homes && s.homes[n].Filed?
    ensures Moving(s, a) != Some(n)
  {
  }

  lemma NeverBackStays(parse: Parser, s: Disk, a: Act, s': Disk, n: NodeNo, g: Filing)
    requires Consistent(parse, s) && NeverBack(s, n, g) && DiskStep(parse, s, a, s')
    ensures NeverBack(s', n, g)
  {
    StepBindsOnly(parse, s, a, s');
    MovingIsDraft(parse, s, a, n);
  }

  lemma SettlingEnds(parse: Parser, s: Disk, a: Act, s': Disk, n: NodeNo, g: Filing)
    requires Consistent(parse, s) && n in s.homes && s.homes[n] == Filed(g) && DiskStep(parse, s, a, s')
    requires SyncsRoot(s, a, g.k) || a.Crash?
    requires !InPlace(s'.fs, n, g)
    ensures NeverBack(s', n, g)
  {
  }

  predicate FiledAs(s: Disk, n: NodeNo, h: Home) { h.Filed? && n in s.homes && s.homes[n] == h }

  lemma FiledOn(parse: Parser, states: seq<Disk>, acts: seq<Act>, i: nat, j: nat, n: NodeNo, h: Home)
    requires IsDiskRun(parse, states, acts) && i <= j < |states| && FiledAs(states[i], n, h)
    ensures FiledAs(states[j], n, h)
  {
    forall m: nat | i <= m < j && FiledAs(states[m], n, h) ensures FiledAs(states[m + 1], n, h) {
      ConsistentAlways(parse, states, acts, m);
      assert DiskSteps(parse)(states[m], acts[m], states[m + 1]);
      StepBindsOnly(parse, states[m], acts[m], states[m + 1]);
    }
    FiledLasts(states, i, j, n, h);
  }

  lemma FiledLasts(states: seq<Disk>, i: nat, j: nat, n: NodeNo, h: Home)
    requires i <= j < |states| && FiledAs(states[i], n, h)
    requires forall m: nat :: i <= m < j && FiledAs(states[m], n, h) ==> FiledAs(states[m + 1], n, h)
    ensures FiledAs(states[j], n, h)
  {
    Stays((m: nat) => m < |states| && FiledAs(states[m], n, h), i, j);
  }

  lemma NeverBackOn(parse: Parser, states: seq<Disk>, acts: seq<Act>, i: nat, j: nat, n: NodeNo, g: Filing)
    requires IsDiskRun(parse, states, acts) && i <= j < |states| && NeverBack(states[i], n, g)
    ensures NeverBack(states[j], n, g)
  {
    forall m: nat | i <= m < j && NeverBack(states[m], n, g) ensures NeverBack(states[m + 1], n, g) {
      ConsistentAlways(parse, states, acts, m);
      assert DiskSteps(parse)(states[m], acts[m], states[m + 1]);
      NeverBackStays(parse, states[m], acts[m], states[m + 1], n, g);
    }
    NeverBackLasts(states, i, j, n, g);
  }

  lemma NeverBackLasts(states: seq<Disk>, i: nat, j: nat, n: NodeNo, g: Filing)
    requires i <= j < |states| && NeverBack(states[i], n, g)
    requires forall m: nat :: i <= m < j && NeverBack(states[m], n, g) ==> NeverBack(states[m + 1], n, g)
    ensures NeverBack(states[j], n, g)
  {
    Stays((m: nat) => m < |states| && NeverBack(states[m], n, g), i, j);
  }

  lemma SettledNeverBack(parse: Parser, states: seq<Disk>, acts: seq<Act>, i: nat, m: nat, j: nat, n: NodeNo)
    requires IsDiskRun(parse, states, acts) && i < m < j < |states| && n in states[i].homes && states[i].homes[n].Filed?
    requires SyncsRoot(states[m], acts[m], states[i].homes[n].filing.k) || acts[m].Crash?
    requires !InPlace(states[m + 1].fs, n, states[i].homes[n].filing)
    ensures NeverBack(states[j], n, states[i].homes[n].filing)
  {
    FiledOn(parse, states, acts, i, m, n, states[i].homes[n]);
    ConsistentAlways(parse, states, acts, m);
    assert DiskSteps(parse)(states[m], acts[m], states[m + 1]);
    SettlingEnds(parse, states[m], acts[m], states[m + 1], n, states[i].homes[n].filing);
    NeverBackOn(parse, states, acts, m + 1, j, n, states[i].homes[n].filing);
  }

  lemma NeverBackIsNot(parse: Parser, s: Disk, n: NodeNo, g: Filing)
    requires Filings(parse, s) && NeverBack(s, n, g)
    ensures !MayBeBack(parse, s.fs, n, g)
  {
    forall fs' | Crashes(s.fs, fs') && InPlace(fs', n, g) ensures !Recoverable(g.k, g.id, EntryIn(parse, fs', n)) {
      if Recoverable(g.k, g.id, EntryIn(parse, fs', n)) {
        BackWasRevivable(parse, s, fs', n, g);
        assert false;
      }
    }
  }

  lemma GoneMayBeBack(parse: Parser, s: Disk, n: NodeNo, g: Filing, before: Fs)
    requires Consistent(parse, s) && GoneAs(s, n, g, before.Node(n)) && Revivable(before, n, g)
    ensures MayBeBack(parse, s.fs, n, g)
  {
    assert s.fs.Root(g.k).Possible(g.id, Some(n)) && Revivable(s.fs, n, g);
    var fs' := BackAgain(parse, s, n, g);
  }

  /** How final a removal is: the entry whose removal ended with step i, and that has not been back
      since, can be on the disk after a power loss at j and pass recovery exactly when between i and
      j no commit has synchronised its root and no power loss has settled what was left. */
  lemma RemovalIsFinalIff(parse: Parser, states: seq<Disk>, acts: seq<Act>, i: nat, j: nat, n: NodeNo)
    requires IsDiskRun(parse, states, acts) && i < j < |states| && acts[i] == RemoveNode(n)
    requires n in states[i].homes && states[i].homes[n].Filed?
    requires forall m :: i < m <= j ==> !InPlace(states[m].fs, n, states[i].homes[n].filing)
    ensures MayBeBack(parse, states[j].fs, n, states[i].homes[n].filing) <==>
      Unsettled(states, acts, i, j, states[i].homes[n].filing.k)
  {
    var g := states[i].homes[n].filing;
    WholesomeAlways(parse, states, acts, i);
    WholesomeAlways(parse, states, acts, j);
    if Unsettled(states, acts, i, j, g.k) {
      RemovedWasRevivable(parse, states, acts, i, n);
      GoneSince(parse, states, acts, i, j, n);
      GoneMayBeBack(parse, states[j], n, g, states[i].fs);
    } else {
      var m: nat :| i < m < j && (SyncsRoot(states[m], acts[m], g.k) || acts[m].Crash?);
      SettledNeverBack(parse, states, acts, i, m, j, n);
      NeverBackIsNot(parse, states[j], n, g);
    }
  }

  lemma RemovedWasRevivable(parse: Parser, states: seq<Disk>, acts: seq<Act>, i: nat, n: NodeNo)
    requires IsDiskRun(parse, states, acts) && i < |acts| && acts[i] == RemoveNode(n) && n in states[i].homes
    requires states[i].homes[n].Filed?
    ensures Unbinds(states[i], acts[i], n) && Revivable(states[i].fs, n, states[i].homes[n].filing)
  {
    WholesomeAlways(parse, states, acts, i);
    assert DiskSteps(parse)(states[i], acts[i], states[i + 1]);
    assert StandsWhole(states[i], n);
  }

  // ---- which incarnation a name may lead to ----

  /** Step i took the name of the directory out of the root, and nothing has settled that up to j. */
  ghost predicate Cause(states: seq<Disk>, acts: seq<Act>, i: nat, j: nat, k: Kind, id: Id, n: NodeNo)
    requires |states| == |acts| + 1 && j < |states|
  {
    && i < j && n in states[i].homes && states[i].homes[n].Filed?
    && states[i].homes[n].filing.k == k && states[i].homes[n].filing.id == id
    && Unbinds(states[i], acts[i], n) && Unsettled(states, acts, i, j, k)
  }

  ghost predicate NewlyUnbound(s: Disk, a: Act, k: Kind, id: Id, n: NodeNo) {
    n in s.homes && s.homes[n].Filed? && s.homes[n].filing.k == k && s.homes[n].filing.id == id && Unbinds(s, a, n)
  }

  ghost predicate StillStale(s: Disk, a: Act, k: Kind, id: Id, n: NodeNo) {
    Stale(id, Some(n)) in s.fs.Root(k).stale && !SyncsRoot(s, a, k)
  }

  lemma CommitNewStale(parse: Parser, s: Disk, s': Disk, k: Kind, id: Id, n: NodeNo)
    requires s.job.Commit? && CommitStep(s, s.job, s') && CommitHolds(parse, s, s.job)
    requires Stale(id, Some(n)) in s'.fs.Root(k).stale
    ensures StillStale(s, Advance, k, id, n)
  {
  }

  lemma RemoveNewStale(s: Disk, a: Act, s': Disk, k: Kind, id: Id, n: NodeNo)
    requires RemoveStep(s, a, s') && Stale(id, Some(n)) in s'.fs.Root(k).stale
    ensures StillStale(s, a, k, id, n) || NewlyUnbound(s, a, k, id, n)
  {
  }

  lemma RecoverNewStale(parse: Parser, s: Disk, a: Act, s': Disk, k: Kind, id: Id, n: NodeNo)
    requires RootHomed(s, Source) && RootHomed(s, Result) && RecoverStep(parse, s, a, s')
    requires Stale(id, Some(n)) in s'.fs.Root(k).stale
    ensures StillStale(s, a, k, id, n) || NewlyUnbound(s, a, k, id, n)
  {
    if a.RecoverDrop? {
      assert s.fs.Root(a.k).Possible(a.id, Some(s.fs.Root(a.k).now[a.id]));
    }
  }

  lemma QuietNewStale(parse: Parser, s: Disk, a: Act, s': Disk, k: Kind)
    requires StagingStep(s, a, s') ||
        (DiskStep(parse, s, a, s') && (a.Begin? || a.Abort? || a.Kill? || (a.Advance? && s.job.Touch?)))
    ensures s'.fs.Root(k) == s.fs.Root(k)
  {
  }

  lemma NewStale(parse: Parser, s: Disk, a: Act, s': Disk, k: Kind, id: Id, n: NodeNo)
    requires Consistent(parse, s) && DiskStep(parse, s, a, s') && !a.Crash? && Stale(id, Some(n)) in s'.fs.Root(k).stale
    ensures StillStale(s, a, k, id, n) || NewlyUnbound(s, a, k, id, n)
  {
    if a.Advance? && s.job.Commit? {
      CommitNewStale(parse, s, s', k, id, n);
    } else if a.Advance? || a.Begin? || a.Abort? || a.Kill? {
      QuietNewStale(parse, s, a, s', k);
    } else if !Normal(s) {
      RecoverNewStale(parse, s, a, s', k, id, n);
    } else if StagingStep(s, a, s') {
      QuietNewStale(parse, s, a, s', k);
    } else {
      RemoveNewStale(s, a, s', k, id, n);
    }
  }

  lemma StaleAt(parse: Parser, states: seq<Disk>, acts: seq<Act>, i: nat, k: Kind, id: Id, n: NodeNo)
    requires IsDiskRun(parse, states, acts) && i < |acts| && Stale(id, Some(n)) in states[i + 1].fs.Root(k).stale
    ensures !acts[i].Crash? && (StillStale(states[i], acts[i], k, id, n) || NewlyUnbound(states[i], acts[i], k, id, n))
  {
    ConsistentAlways(parse, states, acts, i);
    assert DiskSteps(parse)(states[i], acts[i], states[i + 1]);
    if acts[i].Crash? {
      CrashEmptiesStale(parse, states[i], acts[i], states[i + 1], k);
      assert false;
    }
    NewStale(parse, states[i], acts[i], states[i + 1], k, id, n);
  }

  lemma CrashEmptiesStale(parse: Parser, s: Disk, a: Act, s': Disk, k: Kind)
    requires DiskStep(parse, s, a, s') && a.Crash?
    ensures s'.fs.Root(k).stale == {}
  {
  }

  lemma CauseIsNew(states: seq<Disk>, acts: seq<Act>, i: nat, k: Kind, id: Id, n: NodeNo)
    requires |states| == |acts| + 1 && i < |acts| && NewlyUnbound(states[i], acts[i], k, id, n)
    ensures Cause(states, acts, i, i + 1, k, id, n)
  {
  }

  lemma CauseLasts(states: seq<Disk>, acts: seq<Act>, i: nat, j: nat, k: Kind, id: Id, n: NodeNo)
    requires |states| == |acts| + 1 && j < |acts| && Cause(states, acts, i, j, k, id, n)
    requires !SyncsRoot(states[j], acts[j], k) && !acts[j].Crash?
    ensures Cause(states, acts, i, j + 1, k, id, n)
  {
  }

  lemma FreshIsNotStale(parse: Parser, states: seq<Disk>, acts: seq<Act>, k: Kind, id: Id, n: NodeNo)
    requires IsDiskRun(parse, states, acts)
    ensures Stale(id, Some(n)) !in states[0].fs.Root(k).stale
  {
  }

  lemma {:induction false} StaleHasCause(parse: Parser, states: seq<Disk>, acts: seq<Act>, j: nat, k: Kind, id: Id,
                                         n: NodeNo) returns (i: nat)
    requires IsDiskRun(parse, states, acts) && j < |states| && Stale(id, Some(n)) in states[j].fs.Root(k).stale
    ensures Cause(states, acts, i, j, k, id, n)
    decreases j
  {
    FreshIsNotStale(parse, states, acts, k, id, n);
    i := j - 1;
    StaleAt(parse, states, acts, i, k, id, n);
    if NewlyUnbound(states[i], acts[i], k, id, n) {
      CauseIsNew(states, acts, i, k, id, n);
    } else {
      i := StaleHasCause(parse, states, acts, j - 1, k, id, n);
      CauseLasts(states, acts, i, j - 1, k, id, n);
    }
  }

  /** A power loss may put another directory under the name than the one there now. */
  ghost predicate OtherMayCome(parse: Parser, fs: Fs, k: Kind, id: Id, n: NodeNo) {
    exists fs' :: Crashes(fs, fs') && Visible(fs', k, id) && fs'.Root(k).now[id] != n &&
        Recoverable(k, id, View(parse, fs', k, id))
  }

  /** A binding can change across a power loss exactly when another directory went from under the
      name, one that could come back whole, and no commit has synchronised the root since and no
      power loss has settled it. Committed in full, an entry cannot be displaced. */
  lemma RebindsIff(parse: Parser, states: seq<Disk>, acts: seq<Act>, j: nat, k: Kind, id: Id, n: NodeNo)
    requires IsDiskRun(parse, states, acts) && j < |states| && states[j].fs.Root(k).At(id) == Some(n)
    ensures OtherMayCome(parse, states[j].fs, k, id, n) <==>
      exists i: nat, o: NodeNo :: o != n && Cause(states, acts, i, j, k, id, o) &&
          Revivable(states[i].fs, o, states[i].homes[o].filing)
  {
    WholesomeAlways(parse, states, acts, j);
    forall i: nat, o: NodeNo | o != n && Cause(states, acts, i, j, k, id, o) &&
        Revivable(states[i].fs, o, states[i].homes[o].filing)
      ensures OtherMayCome(parse, states[j].fs, k, id, n)
    {
      OldOneComes(parse, states, acts, i, j, n, o);
    }
    if OtherMayCome(parse, states[j].fs, k, id, n) {
      var fs' :| Crashes(states[j].fs, fs') && Visible(fs', k, id) && fs'.Root(k).now[id] != n &&
          Recoverable(k, id, View(parse, fs', k, id));
      var i, o := ComerIsOld(parse, states, acts, j, k, id, n, fs');
    }
  }

  lemma OldOneComes(parse: Parser, states: seq<Disk>, acts: seq<Act>, i: nat, j: nat, n: NodeNo, o: NodeNo)
    requires IsDiskRun(parse, states, acts) && i < j < |states| && o != n && o in states[i].homes
    requires states[i].homes[o].Filed?
    requires Unbinds(states[i], acts[i], o) && Unsettled(states, acts, i, j, states[i].homes[o].filing.k)
    requires Revivable(states[i].fs, o, states[i].homes[o].filing)
    ensures OtherMayCome(parse, states[j].fs, states[i].homes[o].filing.k, states[i].homes[o].filing.id, n)
  {
    var g := states[i].homes[o].filing;
    WholesomeAlways(parse, states, acts, j);
    GoneSince(parse, states, acts, i, j, o);
    GoneMayBeBack(parse, states[j], o, g, states[i].fs);
    var fs' :| Crashes(states[j].fs, fs') && InPlace(fs', o, g) && Recoverable(g.k, g.id, EntryIn(parse, fs', o));
    assert Visible(fs', g.k, g.id) && fs'.Root(g.k).now[g.id] == o;
  }

  lemma ComerIsOld(parse: Parser, states: seq<Disk>, acts: seq<Act>, j: nat, k: Kind, id: Id, n: NodeNo, fs': Fs)
    returns (i: nat, o: NodeNo)
    requires IsDiskRun(parse, states, acts) && j < |states| && states[j].fs.Root(k).At(id) == Some(n)
    requires Crashes(states[j].fs, fs') && Visible(fs', k, id) && fs'.Root(k).now[id] != n
    requires Recoverable(k, id, View(parse, fs', k, id))
    ensures o != n && Cause(states, acts, i, j, k, id, o) && Revivable(states[i].fs, o, states[i].homes[o].filing)
  {
    o := fs'.Root(k).now[id];
    WholesomeAlways(parse, states, acts, j);
    ReturnedWasPossible(states[j].fs, fs', k, id);
    i := StaleHasCause(parse, states, acts, j, k, id, o);
    GoneSince(parse, states, acts, i, j, o);
    BackWasRevivable(parse, states[j], fs', o, states[i].homes[o].filing);
  }

  // ---- a run in which a binding changes ----

  lemma FreshFile(files: map<FileNo, File>) returns (m: FileNo)
    ensures m !in files
  {
    m := Above(files.Keys);
  }

  function StagesLeft(pc: CommitPc): nat {
    match pc
    case WriteManifest => 6
    case SyncManifest => 5
    case ReplaceManifest => 4
    case SyncAfterReplace => 3
    case SyncFiles(_) => 2
    case SyncStaging => 1
    case _ => 0
  }

  function FilesLeft(pc: CommitPc): nat { if pc.SyncFiles? then |pc.todo| else 0 }

  predicate Nearer(pc: CommitPc, pc': CommitPc) {
    StagesLeft(pc') < StagesLeft(pc) || (StagesLeft(pc') == StagesLeft(pc) && FilesLeft(pc') < FilesLeft(pc))
  }

  /** A commit can always make its next call in its own directory. */
  lemma CommitGoesOn(parse: Parser, s: Disk) returns (s': Disk)
    requires s.job.Commit? && OwnDirectory(s.job.pc)
    ensures CommitStep(s, s.job, s') && s'.job.Commit? && Nearer(s.job.pc, s'.job.pc)
    ensures s'.job == s.job.(m := s'.job.m, pc := s'.job.pc) && (OwnDirectory(s'.job.pc) || s'.job.pc.MoveToRoot?)
  {
    var j := s.job;
    match j.pc {
      case WriteManifest =>
        var m := FreshFile(s.fs.files);
        s' := s.(fs := s.fs.Write(j.d, j.temp, m, j.bytes), job := j.(m := m, pc := SyncManifest));
      case SyncManifest => s' := s.(fs := s.fs.SyncFile(j.m), job := j.(pc := ReplaceManifest));
      case ReplaceManifest => s' := s.(fs := s.fs.Rename(j.d, j.temp, MANIFEST), job := j.(pc := SyncAfterReplace));
      case SyncAfterReplace =>
        var names := SomeListing(s.fs.Node(j.d).now);
        s' := s.(fs := s.fs.SyncNode(j.d), job := j.(pc := SyncFiles(names)));
      case SyncFiles(todo) =>
        if todo == [] {
          s' := s.(job := j.(pc := SyncStaging));
        } else if todo[0] in s.fs.Node(j.d).now {
          s' := s.(fs := s.fs.SyncFile(s.fs.Node(j.d).now[todo[0]]), job := j.(pc := SyncFiles(todo[1..])));
        } else {
          s' := s.(job := j.(pc := SyncFiles(todo[1..])));
        }
      case SyncStaging => s' := s.(fs := s.fs.SyncNode(j.d), job := j.(pc := MoveToRoot));
    }
  }

  ghost predicate Carries(parse: Parser, s: Disk, n: NodeNo, g: Filing, node: Folder<Text>) {
    Consistent(parse, s) && GoneAs(s, n, g, node)
  }

  lemma GoesOnWith(parse: Parser, s: Disk, n: NodeNo, g: Filing, node: Folder<Text>) returns (s': Disk)
    requires Carries(parse, s, n, g, node) && s.job.Commit? && OwnDirectory(s.job.pc)
    ensures DiskSteps(parse)(s, Advance, s') && Carries(parse, s', n, g, node) && s'.job.Commit?
    ensures Nearer(s.job.pc, s'.job.pc)
    ensures s'.job == s.job.(m := s'.job.m, pc := s'.job.pc) && (OwnDirectory(s'.job.pc) || s'.job.pc.MoveToRoot?)
  {
    s' := CommitGoesOn(parse, s);
    CommitKeeps(parse, s, s');
    CommitLeavesGone(parse, s, s', n, g, node);
  }

  lemma {:induction false} CommitRuns(parse: Parser, s: Disk, n: NodeNo, g: Filing, node: Folder<Text>)
    returns (states: seq<Disk>, acts: seq<Act>)
    requires Carries(parse, s, n, g, node) && s.job.Commit? && (OwnDirectory(s.job.pc) || s.job.pc.MoveToRoot?)
    ensures IsPath(states, acts, DiskSteps(parse)) && states[0] == s
    ensures var last := states[|acts|];
      Carries(parse, last, n, g, node) && last.job.Commit? && last.job.pc.MoveToRoot? && last.job.d == s.job.d &&
          last.job.filing == s.job.filing
    decreases StagesLeft(s.job.pc), FilesLeft(s.job.pc)
  {
    if s.job.pc.MoveToRoot? {
      states, acts := [s], [];
    } else {
      var s' := GoesOnWith(parse, s, n, g, node);
      var states', acts' := CommitRuns(parse, s', n, g, node);
      states, acts := [s] + states', [Advance] + acts';
      PathPrepends(s, Advance, states', acts', DiskSteps(parse));
    }
  }

  lemma MovesIn(parse: Parser, s: Disk, n: NodeNo, g: Filing, node: Folder<Text>) returns (s': Disk)
    requires Carries(parse, s, n, g, node) && s.job.Commit? && s.job.pc.MoveToRoot?
    ensures DiskSteps(parse)(s, Advance, s') && Carries(parse, s', n, g, node)
    ensures s'.job.Commit? && s'.job.pc.SyncRoot? && s'.job.d == s.job.d && s'.job.filing == s.job.filing
  {
    var j := s.job;
    s' := s.(fs := s.fs.MoveIn(j.path, j.filing.k, j.filing.id, j.d), homes := s.homes[j.d := Filed(j.filing)],
             job := j.(pc := SyncRoot));
    assert CommitStep(s, s.job, s');
    CommitKeeps(parse, s, s');
    CommitLeavesGone(parse, s, s', n, g, node);
  }

  lemma MovesAndStops(parse: Parser, s: Disk, n: NodeNo, g: Filing, node: Folder<Text>) returns (s1: Disk, s2: Disk)
    requires Carries(parse, s, n, g, node) && s.job.Commit? && s.job.pc.MoveToRoot?
    ensures DiskSteps(parse)(s, Advance, s1) && DiskSteps(parse)(s1, Abort, s2) && Carries(parse, s2, n, g, node)
    ensures s2.job == Idle && InPlace(s2.fs, s.job.d, s.job.filing) && Shows(parse, s2.fs, s.job.d, s.job.filing)
  {
    s1 := MovesIn(parse, s, n, g, node);
    MovedShows(parse, s1);
    s2 := Stops(parse, s1, n, g, node);
  }

  lemma Stops(parse: Parser, s: Disk, n: NodeNo, g: Filing, node: Folder<Text>) returns (s': Disk)
    requires Carries(parse, s, n, g, node) && s.job.Commit?
    ensures DiskSteps(parse)(s, Abort, s') && Carries(parse, s', n, g, node) && s'.job == Idle && s'.fs == s.fs
  {
    s' := s.(job := Idle);
    assert DiskStep(parse, s, Abort, s');
    BeginLeavesGone(parse, s, Abort, s', n, g, node);
    DiskStepKeeps(parse, s, Abort, s');
  }

  lemma MovedShows(parse: Parser, s: Disk)
    requires Consistent(parse, s) && s.job.Commit? && s.job.pc.SyncRoot?
    ensures InPlace(s.fs, s.job.d, s.job.filing) && Shows(parse, s.fs, s.job.d, s.job.filing)
  {
    FirmShows(parse, s.fs, s.job.d, s.job.filing);
  }

  lemma PowerGoes(parse: Parser, s: Disk, n: NodeNo, g: Filing, node: Folder<Text>, before: Fs) returns (s': Disk)
    requires Carries(parse, s, n, g, node) && before.Node(n) == node && Revivable(before, n, g)
    ensures DiskSteps(parse)(s, Crash(s'.fs), s') && InPlace(s'.fs, n, g)
    ensures Recoverable(g.k, g.id, EntryIn(parse, s'.fs, n))
  {
    assert s.fs.Root(g.k).Possible(g.id, Some(n)) && Revivable(s.fs, n, g);
    var fs' := BackAgain(parse, s, n, g);
    s' := s.(fs := fs', doomed := {}, job := RecoverTmp(true));
  }

  lemma PathGood(parse: Parser, states: seq<Disk>, acts: seq<Act>, i: nat)
    requires IsPath(states, acts, DiskSteps(parse)) && Consistent(parse, states[0]) && Wholesome(states[0])
    requires i < |states|
    ensures Consistent(parse, states[i]) && Wholesome(states[i])
  {
    var good: Disk -> bool := s => Consistent(parse, s) && Wholesome(s);
    forall s, a, s' | good(s) && DiskSteps(parse)(s, a, s') ensures good(s') {
      DiskStepKeeps(parse, s, a, s');
      WholesomeKept(parse, s, a, s');
    }
    PathKeeps(states, acts, DiskSteps(parse), good, i);
  }

  /** The files of a live entry are removed, its directory is empty. */
  lemma Empties(parse: Parser, s: Disk, n: NodeNo, names: seq<Text>) returns (states: seq<Disk>, acts: seq<Act>)
    requires Consistent(parse, s) && s.job == Idle && n in s.live
    requires forall name :: name in s.fs.Node(n).now ==> name in names
    ensures IsPath(states, acts, DiskSteps(parse)) && states[0] == s
    ensures var last := states[|acts|];
      && last == s.(fs := last.fs, live := s.live - {n}, doomed := s.doomed + {n})
      && last.fs.Node(n).now == map[] && Recalls(s.fs, last.fs, n)
  {
    FirmIsWhole(s.fs, n, s.homes[n].filing);
    var s1 := s.(live := s.live - {n}, doomed := s.doomed + {n});
    assert DiskSteps(parse)(s, Doom(n), s1);
    var inner, calls := RemoveAll(parse, s1, s.fs, n, names);
    states, acts := [s] + inner, [Doom(n)] + calls;
    PathPrepends(s, Doom(n), inner, calls, DiskSteps(parse));
  }

  lemma RecalledRevives(before: Fs, fs: Fs, n: NodeNo, g: Filing)
    requires Whole(before, n, g) && Recalls(before, fs, n)
    ensures Revivable(fs, n, g)
  {
    assert fs.Node(n).Possible(MANIFEST, before.Node(n).At(MANIFEST));
    assert fs.Node(n).Possible(DataFile(g.record), before.Node(n).At(DataFile(g.record)));
  }

  /** And then its name. */
  lemma Removes(parse: Parser, s: Disk, n: NodeNo, names: seq<Text>) returns (states: seq<Disk>, acts: seq<Act>)
    requires Consistent(parse, s) && Wholesome(s) && s.job == Idle && n in s.live
    requires forall name :: name in s.fs.Node(n).now ==> name in names
    ensures IsPath(states, acts, DiskSteps(parse)) && states[0] == s
    ensures var last, g := states[|acts|], s.homes[n].filing;
      && last.job == Idle && last.homes == s.homes && last.fs.files == s.fs.files && last.fs.tmp == s.fs.tmp
      && (forall o: NodeNo :: o != n ==> last.fs.Node(o) == s.fs.Node(o))
      && Carries(parse, last, n, g, last.fs.Node(n)) && Revivable(last.fs, n, g) && g.id !in last.fs.Root(g.k).now
  {
    var g := s.homes[n].filing;
    FirmIsWhole(s.fs, n, g);
    var inner, calls := Empties(parse, s, n, names);
    var emptied := inner[|calls|];
    PathGood(parse, inner, calls, |calls|);
    var last := emptied.(fs := emptied.fs.WithRoot(g.k, emptied.fs.Root(g.k).Unbind(g.id)));
    assert DiskSteps(parse)(emptied, RemoveNode(n), last);
    states, acts := inner + [last], calls + [RemoveNode(n)];
    PathAppends(inner, calls, RemoveNode(n), last, DiskSteps(parse));
    DiskStepKeeps(parse, emptied, RemoveNode(n), last);
    GoneStarts(parse, emptied, RemoveNode(n), last, n);
    RecalledRevives(s.fs, emptied.fs, n, g);
    assert last.fs.Node(n) == emptied.fs.Node(n);
  }

  /** A binding that changes: a committed entry is removed, its name is committed again with other
      content, the commit is interrupted between the rename and the fsync of the root, the new entry
      can be seen and used, and a power loss puts the old one back. */
  lemma StaleIncarnation(parse: Parser, s: Disk, n: NodeNo, names: seq<Text>, j: Job) returns (states: seq<Disk>,
                         acts: seq<Act>)
    requires Consistent(parse, s) && Wholesome(s) && s.job == Idle && n in s.live
    requires forall name :: name in s.fs.Node(n).now ==> name in names
    requires ReadyToCommit(parse, s, j) && j.filing.k == s.homes[n].filing.k && j.filing.id == s.homes[n].filing.id
    ensures IsPath(states, acts, DiskSteps(parse)) && states[0] == s && |acts| >= 1 && acts[|acts| - 1].Crash?
    ensures var served := states[|acts| - 1];
      served.job == Idle && InPlace(served.fs, j.d, j.filing) && Shows(parse, served.fs, j.d, j.filing)
    ensures var g, back := s.homes[n].filing, states[|acts|].fs;
      j.d != n && InPlace(back, n, g) && Recoverable(g.k, g.id, EntryIn(parse, back, n))
  {
    var g := s.homes[n].filing;
    var rs, ra := Removes(parse, s, n, names);
    var cs, ca := Republishes(parse, s, rs[|ra|], n, j);
    var served := cs[|ca|];
    var node := rs[|ra|].fs.Node(n);
    var back := PowerGoes(parse, served, n, g, node, rs[|ra|].fs);
    PathConcat(rs, ra, cs, ca, DiskSteps(parse));
    PathAppends(rs + cs[1..], ra + ca, Crash(back.fs), back, DiskSteps(parse));
    states, acts := rs + cs[1..] + [back], ra + ca + [Crash(back.fs)];
  }

  lemma Republishes(parse: Parser, s: Disk, gone: Disk, n: NodeNo, j: Job) returns (states: seq<Disk>, acts: seq<Act>)
    requires n in s.homes && s.homes[n].Filed? && ReadyToCommit(parse, s, j)
    requires gone.job == Idle && gone.homes == s.homes && gone.fs.files == s.fs.files && gone.fs.tmp == s.fs.tmp
    requires forall o: NodeNo :: o != n ==> gone.fs.Node(o) == s.fs.Node(o)
    requires Carries(parse, gone, n, s.homes[n].filing, gone.fs.Node(n)) && j.filing.id !in gone.fs.Root(j.filing.k).now
    ensures IsPath(states, acts, DiskSteps(parse)) && states[0] == gone
    ensures var served := states[|acts|];
      && served.job == Idle && InPlace(served.fs, j.d, j.filing) && Shows(parse, served.fs, j.d, j.filing)
      && Carries(parse, served, n, s.homes[n].filing, gone.fs.Node(n))
  {
    var g, node := s.homes[n].filing, gone.fs.Node(n);
    var begun := gone.(job := j);
    assert DiskSteps(parse)(gone, Begin(j), begun);
    DiskStepKeeps(parse, gone, Begin(j), begun);
    BeginLeavesGone(parse, gone, Begin(j), begun, n, g, node);
    var cs, ca := CommitRuns(parse, begun, n, g, node);
    var s1, s2 := MovesAndStops(parse, cs[|ca|], n, g, node);
    var step := DiskSteps(parse);
    PathPrepends(gone, Begin(j), cs, ca, step);
    PathAppends([gone] + cs, [Begin(j)] + ca, Advance, s1, step);
    PathAppends([gone] + cs + [s1], [Begin(j)] + ca + [Advance], Abort, s2, step);
    states, acts := [gone] + cs + [s1] + [s2], [Begin(j)] + ca + [Advance] + [Abort];
  }
}
