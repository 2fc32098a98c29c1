/** Every system call, and every crash, keeps the invariant of Publication. */
module PublicationInvariant {
  import opened Basics
  import opened Model
  import opened CacheSpec
  import opened Publication

  // ---- frames ----

  /** Files only gain bytes on the disk: what is written stays written. */
  ghost predicate FilesKept(fs: Fs, fs': Fs) {
    forall f :: f in fs.files ==>
        f in fs'.files && fs'.files[f].data == fs.files[f].data && (fs.files[f].safe ==> fs'.files[f].safe)
  }

  ghost predicate Narrows<N(!new)>(folder: Folder<N>, folder': Folder<N>, name: N) {
    forall t :: folder'.Possible(name, t) ==> folder.Possible(name, t)
  }

  /** Only the absence of the name is new. */
  ghost predicate Fades<N(!new)>(folder: Folder<N>, folder': Folder<N>, name: N) {
    forall t: nat :: folder'.Possible(name, Some(t)) ==> folder.Possible(name, Some(t))
  }

  ghost predicate NodeNarrows(fs: Fs, fs': Fs, d: NodeNo, g: Filing) {
    Narrows(fs.Node(d), fs'.Node(d), DataFile(g.record)) && Narrows(fs.Node(d), fs'.Node(d), MANIFEST)
  }

  ghost predicate NodeFades(fs: Fs, fs': Fs, d: NodeNo, g: Filing) {
    Fades(fs.Node(d), fs'.Node(d), DataFile(g.record)) && Fades(fs.Node(d), fs'.Node(d), MANIFEST)
  }

  ghost predicate SameHomes(s: Disk, s': Disk) {
    forall d :: d in s'.homes && s'.homes[d].Filed? ==> d in s.homes && s.homes[d] == s'.homes[d]
  }

  lemma FadedKept(parse: Parser, fs: Fs, fs': Fs, d: NodeNo, g: Filing)
    requires FilesKept(fs, fs') && NodeFades(fs, fs', d, g) && Faded(parse, fs, d, g)
    ensures Faded(parse, fs', d, g)
  {
  }

  lemma FilingsKept(parse: Parser, s: Disk, s': Disk)
    requires Filings(parse, s) && FilesKept(s.fs, s'.fs) && SameHomes(s, s')
    requires forall d :: d in s'.homes && s'.homes[d].Filed? ==> NodeFades(s.fs, s'.fs, d, s'.homes[d].filing)
    ensures Filings(parse, s')
  {
    forall d | d in s'.homes && s'.homes[d].Filed? ensures Faded(parse, s'.fs, d, s'.homes[d].filing) {
      FadedKept(parse, s.fs, s'.fs, d, s'.homes[d].filing);
    }
  }

  ghost predicate DurablyNarrows(fs: Fs, fs': Fs, d: NodeNo, g: Filing) {
    && NodeNarrows(fs, fs', d, g)
    && Narrows(fs.Root(g.k), fs'.Root(g.k), g.id)
    && forall path: Path :: fs'.tmp.Possible(path, Some(d)) ==> fs.tmp.Possible(path, Some(d))
  }

  lemma DurableKept(fs: Fs, fs': Fs, d: NodeNo, g: Filing)
    requires Durable(fs, d, g) && DurablyNarrows(fs, fs', d, g)
    ensures Durable(fs', d, g)
  {
    assert fs'.Root(g.k).Possible(g.id, fs'.Root(g.k).At(g.id));
  }

  lemma LiveKept(s: Disk, s': Disk)
    requires LiveDurable(s) && s'.live <= s.live
    requires forall d :: d in s'.live && d in s.homes ==> d in s'.homes && s'.homes[d] == s.homes[d]
    requires forall d :: d in s'.live && d in s.homes && s.homes[d].Filed? ==>
      DurablyNarrows(s.fs, s'.fs, d, s.homes[d].filing)
    ensures LiveDurable(s')
  {
    forall d | d in s'.live ensures d in s'.homes && s'.homes[d].Filed? && Durable(s'.fs, d, s'.homes[d].filing) {
      DurableKept(s.fs, s'.fs, d, s.homes[d].filing);
    }
  }

  /** The parts of the invariant that are about what can be reached, after a step that binds
      nothing new in the roots or under tmp. */
  lemma HomedKept(s: Disk, s': Disk)
    requires RootHomed(s, Source) && RootHomed(s, Result) && TmpHomed(s)
    requires forall d :: d in s.homes ==> d in s'.homes && s'.homes[d] == s.homes[d]
    requires forall id, d: NodeNo :: s'.fs.sources.Possible(id, Some(d)) ==> s.fs.sources.Possible(id, Some(d))
    requires forall id, d: NodeNo :: s'.fs.results.Possible(id, Some(d)) ==> s.fs.results.Possible(id, Some(d))
    requires forall path, d: NodeNo :: s'.fs.tmp.Possible(path, Some(d)) ==> s.fs.tmp.Possible(path, Some(d))
    ensures RootHomed(s', Source) && RootHomed(s', Result) && TmpHomed(s')
  {
    assert s'.fs.Root(Source) == s'.fs.sources && s'.fs.Root(Result) == s'.fs.results;
    assert s.fs.Root(Source) == s.fs.sources && s.fs.Root(Result) == s.fs.results;
  }

  // ---- what others do leaves the operation in hand alone ----

  ghost predicate SameRoot(fs: Fs, fs': Fs, k: Kind, id: Id) {
    fs'.Root(k).At(id) == fs.Root(k).At(id) && Narrows(fs.Root(k), fs'.Root(k), id)
  }

  ghost predicate SameTmp(fs: Fs, fs': Fs, d: NodeNo) {
    forall path: Path :: fs'.tmp.At(path) == Some(d) <==> fs.tmp.At(path) == Some(d)
  }

  ghost predicate Untouched(s: Disk, s': Disk, d: NodeNo) {
    && FilesKept(s.fs, s'.fs) && s'.fs.Node(d) == s.fs.Node(d) && SameTmp(s.fs, s'.fs, d)
    && d in s.homes && d in s'.homes && s'.homes[d] == s.homes[d]
  }

  lemma CommitUntouched(parse: Parser, s: Disk, s': Disk, j: Job)
    requires j.Commit? && CommitHolds(parse, s, j) && Untouched(s, s', j.d) && j.d !in s'.live && j.d !in s'.doomed
    requires SameRoot(s.fs, s'.fs, j.filing.k, j.filing.id)
    ensures CommitHolds(parse, s', j)
  {
    var now := s.fs.Node(j.d).now;
    if j.pc.MoveToRoot? { FadedKept(parse, s.fs, s'.fs, j.d, j.filing); }
    assert HasData(s'.fs, j.d, j.filing);
  }

  lemma TouchUntouched(parse: Parser, s: Disk, s': Disk, j: Job)
    requires j.Touch? && TouchHolds(parse, s, j) && Untouched(s, s', j.d)
    ensures TouchHolds(parse, s', j)
  {
  }

  lemma KnownKept(s: Disk, s': Disk)
    requires AllKnown(s) && FilesKept(s.fs, s'.fs)
    requires forall d :: d in s'.fs.nodes ==> d in s'.homes
    requires forall d: NodeNo, name, f: nat :: s'.fs.Node(d).Possible(name, Some(f)) ==>
      s.fs.Node(d).Possible(name, Some(f)) || f in s'.fs.files
    ensures AllKnown(s')
  {
    forall d: NodeNo ensures FilesKnown(s'.fs, d) {
      assert FilesKnown(s.fs, d);
    }
  }

  // ---- staging areas ----

  lemma StagingFrame(s: Disk, a: Act, s': Disk, d: NodeNo)
    requires StagingStep(s, a, s') && AllKnown(s) && d in s.homes && !Drafting(s, d)
    ensures Untouched(s, s', d)
    ensures s'.fs.sources == s.fs.sources && s'.fs.results == s.fs.results
    ensures forall path: Path :: s'.fs.tmp.Possible(path, Some(d)) ==> s.fs.tmp.Possible(path, Some(d))
    ensures s'.live == s.live && s'.job == s.job && s'.doomed == s.doomed
  {
  }

  lemma StagingJob(parse: Parser, s: Disk, a: Act, s': Disk)
    requires JobHolds(parse, s) && AllKnown(s) && StagingStep(s, a, s') && !s.job.RecoverTmp? && !s.job.RecoverRoots?
    ensures JobHolds(parse, s')
  {
    if s.job.Commit? {
      StagingFrame(s, a, s', s.job.d);
      CommitUntouched(parse, s, s', s.job);
    } else if s.job.Touch? {
      StagingFrame(s, a, s', s.job.d);
      TouchUntouched(parse, s, s', s.job);
    }
  }

  lemma StagingHomes(s: Disk, a: Act, s': Disk)
    requires RootHomed(s, Source) && RootHomed(s, Result) && TmpHomed(s) && AllKnown(s) && StagingStep(s, a, s')
    ensures RootHomed(s', Source) && RootHomed(s', Result) && TmpHomed(s')
  {
    assert s'.fs.Root(Source) == s.fs.Root(Source) && s'.fs.Root(Result) == s.fs.Root(Result);
    forall path: Path, d: NodeNo | s'.fs.tmp.Possible(path, Some(d))
      ensures d in s'.homes && (s'.homes[d].Draft? ==> s'.homes[d].path == path)
    {
      assert (a == Stage(path, d)) || s.fs.tmp.Possible(path, Some(d));
    }
  }

  lemma StagingKnown(s: Disk, a: Act, s': Disk)
    requires AllKnown(s) && StagingStep(s, a, s')
    ensures AllKnown(s')
  {
    forall d: NodeNo ensures FilesKnown(s'.fs, d) {
      forall name: Text, f: FileNo | s'.fs.Node(d).Possible(name, Some(f)) ensures f in s'.fs.files {
        assert (a.Fill? && f == a.f) || s.fs.Node(d).Possible(name, Some(f));
        assert FilesKnown(s.fs, d);
      }
    }
  }

  lemma StagingKeeps(parse: Parser, s: Disk, a: Act, s': Disk)
    requires Consistent(parse, s) && StagingStep(s, a, s') && !s.job.RecoverTmp? && !s.job.RecoverRoots?
    ensures Consistent(parse, s')
  {
    forall d | d in s.homes && s.homes[d].Filed?
      ensures Untouched(s, s', d) && DurablyNarrows(s.fs, s'.fs, d, s.homes[d].filing)
    {
      StagingFrame(s, a, s', d);
    }
    assert FilesKept(s.fs, s'.fs);
    FilingsKept(parse, s, s');
    LiveKept(s, s');
    StagingHomes(s, a, s');
    StagingKnown(s, a, s');
    StagingJob(parse, s, a, s');
  }

  // ---- removals ----

  lemma RemoveFrame(s: Disk, a: Act, s': Disk, d: NodeNo, g: Filing)
    requires RemoveStep(s, a, s')
    ensures FilesKept(s.fs, s'.fs) && s'.fs.tmp == s.fs.tmp && s'.homes == s.homes && s'.job == s.job
    ensures s'.live <= s.live
    ensures NodeFades(s.fs, s'.fs, d, g)
    ensures d !in s.doomed || InHand(s, d) ==> s'.fs.Node(d) == s.fs.Node(d)
  {
  }

  /** A removal leaves a name alone that leads nowhere or to a directory it may not remove. */
  lemma RemoveRoots(s: Disk, a: Act, s': Disk, k: Kind, id: Id)
    requires RemoveStep(s, a, s')
    requires id in s.fs.Root(k).now ==> s.fs.Root(k).now[id] !in s.doomed || InHand(s, s.fs.Root(k).now[id])
    ensures SameRoot(s.fs, s'.fs, k, id)
  {
  }

  lemma RemoveLive(s: Disk, a: Act, s': Disk)
    requires LiveDurable(s) && s.live !! s.doomed && RemoveStep(s, a, s')
    ensures LiveDurable(s') && s'.live !! s'.doomed
  {
    forall d | d in s'.live && d in s.homes && s.homes[d].Filed?
      ensures DurablyNarrows(s.fs, s'.fs, d, s.homes[d].filing)
    {
      var g := s.homes[d].filing;
      RemoveFrame(s, a, s', d, g);
      RemoveRoots(s, a, s', g.k, g.id);
    }
    LiveKept(s, s');
  }

  lemma RemoveHomes(s: Disk, a: Act, s': Disk)
    requires RootHomed(s, Source) && RootHomed(s, Result) && TmpHomed(s) && AllKnown(s) && RemoveStep(s, a, s')
    ensures RootHomed(s', Source) && RootHomed(s', Result) && TmpHomed(s') && AllKnown(s')
  {
    HomedKept(s, s');
    KnownKept(s, s');
  }

  lemma RemoveJob(parse: Parser, s: Disk, a: Act, s': Disk)
    requires JobHolds(parse, s) && !s.job.RecoverTmp? && !s.job.RecoverRoots? && RemoveStep(s, a, s')
    ensures JobHolds(parse, s')
  {
    if s.job.Commit? {
      RemoveFrame(s, a, s', s.job.d, s.job.filing);
      RemoveRoots(s, a, s', s.job.filing.k, s.job.filing.id);
      CommitUntouched(parse, s, s', s.job);
    } else if s.job.Touch? {
      RemoveFrame(s, a, s', s.job.d, s.job.filing);
      TouchUntouched(parse, s, s', s.job);
    }
  }

  lemma RemoveKeeps(parse: Parser, s: Disk, a: Act, s': Disk)
    requires Consistent(parse, s) && RemoveStep(s, a, s') && !s.job.RecoverTmp? && !s.job.RecoverRoots?
    ensures Consistent(parse, s')
  {
    forall d | d in s.homes && s.homes[d].Filed? ensures NodeFades(s.fs, s'.fs, d, s.homes[d].filing) {
      RemoveFrame(s, a, s', d, s.homes[d].filing);
    }
    assert s'.homes == s.homes && FilesKept(s.fs, s'.fs);
    FilingsKept(parse, s, s');
    RemoveLive(s, a, s');
    RemoveHomes(s, a, s');
    RemoveJob(parse, s, a, s');
  }

  // ---- the operation in hand ----

  lemma BeginKeeps(parse: Parser, s: Disk, j: Job, s': Disk)
    requires Consistent(parse, s) && BeginStep(parse, s, j, s')
    ensures Consistent(parse, s')
  {
    if j.Commit? {
      assert j.d !in s.live;
      assert CommitHolds(parse, s', j);
    } else {
      assert TouchHolds(parse, s', j);
    }
  }

  // What a step of the operation in hand on its own directory leaves to every other directory.
  ghost predicate Local(s: Disk, s': Disk, d0: NodeNo) {
    && FilesKept(s.fs, s'.fs)
    && (forall d :: d != d0 ==> s'.fs.Node(d) == s.fs.Node(d))
    && s'.fs.tmp == s.fs.tmp && s'.fs.sources == s.fs.sources && s'.fs.results == s.fs.results
    && s'.homes == s.homes && s'.live == s.live && s'.doomed == s.doomed
  }

  /** A step inside one directory keeps everything but the job, if it keeps what the directory is
      filed for. */
  lemma LocalKeeps(parse: Parser, s: Disk, s': Disk, d0: NodeNo)
    requires Consistent(parse, s) && Local(s, s', d0) && d0 in s.homes
    requires BindsKnown(s.fs, s'.fs, d0)
    requires s.homes[d0].Filed? ==> StaysWhole(parse, s.fs, s'.fs, d0, s.homes[d0].filing)
    ensures Filings(parse, s') && LiveDurable(s')
    ensures RootHomed(s', Source) && RootHomed(s', Result) && TmpHomed(s') && AllKnown(s')
  {
    forall d | d in s'.homes && s'.homes[d].Filed? ensures Faded(parse, s'.fs, d, s'.homes[d].filing) {
      if d != d0 { FadedKept(parse, s.fs, s'.fs, d, s'.homes[d].filing); }
    }
    forall d | d in s'.live ensures Durable(s'.fs, d, s'.homes[d].filing) {
      assert s'.fs.Root(s'.homes[d].filing.k) == s.fs.Root(s'.homes[d].filing.k);
    }
    HomedKept(s, s');
    KnownKept(s, s');
  }

  /** Writing under a temporary name changes neither data nor manifest of the directory. */
  lemma WriteTemp(parse: Parser, fs: Fs, d: NodeNo, temp: Text, m: FileNo, bytes: Bytes, g: Filing)
    requires m !in fs.files && TempName(temp, g)
    ensures var fs' := fs.Write(d, temp, m, bytes);
      FilesKept(fs, fs') && NodeNarrows(fs, fs', d, g) && HasTemp(fs', d, temp, m, bytes)
  {
  }

  /** Replacing the manifest by a synchronised one with the same record keeps the directory whole
      whatever comes back. */
  lemma ReplaceKeeps(parse: Parser, fs: Fs, d: NodeNo, temp: Text, m: FileNo, bytes: Bytes, g: Filing)
    requires HasTemp(fs, d, temp, m, bytes) && fs.Safe(m) && TempName(temp, g) && DataFile(g.record) != MANIFEST
    requires Tells(parse, bytes, g.record)
    ensures var fs' := fs.Rename(d, temp, MANIFEST);
      && (Faded(parse, fs, d, g) ==> Faded(parse, fs', d, g))
      && (Firm(fs, d, g) ==> Firm(fs', d, g))
  {
  }

  ghost predicate StaysWhole(parse: Parser, fs: Fs, fs': Fs, d: NodeNo, g: Filing) {
    (Faded(parse, fs, d, g) ==> Faded(parse, fs', d, g)) && (Firm(fs, d, g) ==> Firm(fs', d, g))
  }

  ghost predicate BindsKnown(fs: Fs, fs': Fs, d: NodeNo) {
    && (forall name, f: nat :: fs'.Node(d).Possible(name, Some(f)) ==> f in fs'.files)
    && fs'.nodes.Keys <= fs.nodes.Keys + {d}
  }

  lemma NarrowStaysWhole(parse: Parser, fs: Fs, fs': Fs, d: NodeNo, g: Filing)
    requires FilesKept(fs, fs') && NodeNarrows(fs, fs', d, g)
    ensures StaysWhole(parse, fs, fs', d, g)
  {
  }

  lemma KnownAfter(fs: Fs, fs': Fs, d: NodeNo)
    requires FilesKnown(fs, d) && FilesKept(fs, fs')
    requires forall name, f: nat :: fs'.Node(d).Possible(name, Some(f)) ==>
      fs.Node(d).Possible(name, Some(f)) || f in fs'.files
    ensures forall name, f: nat :: fs'.Node(d).Possible(name, Some(f)) ==> f in fs'.files
  {
  }

  lemma WriteLocal(s: Disk, d: NodeNo, name: Text, m: FileNo, bytes: Bytes, j: Job)
    requires FilesKnown(s.fs, d) && m !in s.fs.files
    ensures var s' := s.(fs := s.fs.Write(d, name, m, bytes), job := j); Local(s, s', d) && BindsKnown(s.fs, s'.fs, d)
  {
    KnownAfter(s.fs, s.fs.Write(d, name, m, bytes), d);
  }

  lemma SyncLocal(s: Disk, d: NodeNo, m: FileNo, j: Job)
    requires FilesKnown(s.fs, d) && m in s.fs.files
    ensures var s' := s.(fs := s.fs.SyncFile(m), job := j); Local(s, s', d) && BindsKnown(s.fs, s'.fs, d)
  {
    KnownAfter(s.fs, s.fs.SyncFile(m), d);
  }

  lemma RenameLocal(s: Disk, d: NodeNo, from: Text, to: Text, j: Job)
    requires FilesKnown(s.fs, d)
    ensures var s' := s.(fs := s.fs.Rename(d, from, to), job := j); Local(s, s', d) && BindsKnown(s.fs, s'.fs, d)
  {
    if from in s.fs.Node(d).now {
      assert s.fs.Node(d).Possible(from, Some(s.fs.Node(d).now[from]));
    }
    KnownAfter(s.fs, s.fs.Rename(d, from, to), d);
  }

  lemma SyncNodeLocal(s: Disk, d: NodeNo, j: Job)
    requires FilesKnown(s.fs, d)
    ensures var s' := s.(fs := s.fs.SyncNode(d), job := j); Local(s, s', d) && BindsKnown(s.fs, s'.fs, d)
  {
    KnownAfter(s.fs, s.fs.SyncNode(d), d);
  }

  lemma TouchLocal(parse: Parser, s: Disk, s': Disk)
    requires s.job.Touch? && TouchStep(s, s.job, s') && TouchHolds(parse, s, s.job)
    requires Fits(s.job.filing) && FilesKnown(s.fs, s.job.d)
    ensures Local(s, s', s.job.d) && BindsKnown(s.fs, s'.fs, s.job.d)
    ensures StaysWhole(parse, s.fs, s'.fs, s.job.d, s.job.filing)
    ensures s'.job.Touch? ==> TouchHolds(parse, s', s'.job)
  {
    var j, g := s.job, s.job.filing;
    match j.tpc {
      case TWrite =>
        WriteTemp(parse, s.fs, j.d, j.temp, s'.job.m, j.bytes, g);
        NarrowStaysWhole(parse, s.fs, s'.fs, j.d, g);
        WriteLocal(s, j.d, j.temp, s'.job.m, j.bytes, s'.job);
      case TSync =>
        SyncLocal(s, j.d, j.m, s'.job);
        NarrowStaysWhole(parse, s.fs, s'.fs, j.d, g);
      case TReplace =>
        ReplaceKeeps(parse, s.fs, j.d, j.temp, j.m, j.bytes, g);
        RenameLocal(s, j.d, j.temp, MANIFEST, s'.job);
      case TSyncDir =>
        SyncNodeLocal(s, j.d, s'.job);
        NarrowStaysWhole(parse, s.fs, s'.fs, j.d, g);
    }
  }

  lemma TouchKeeps(parse: Parser, s: Disk, s': Disk)
    requires Consistent(parse, s) && s.job.Touch? && TouchStep(s, s.job, s')
    ensures Consistent(parse, s')
  {
    assert FilesKnown(s.fs, s.job.d);
    TouchLocal(parse, s, s');
    LocalKeeps(parse, s, s', s.job.d);
  }

  predicate OwnDirectory(pc: CommitPc) { !pc.MoveToRoot? && !pc.SyncRoot? && !pc.SyncTmp? }

  lemma CommitLocal(parse: Parser, s: Disk, s': Disk)
    requires s.job.Commit? && CommitStep(s, s.job, s') && CommitHolds(parse, s, s.job) && OwnDirectory(s.job.pc)
    requires FilesKnown(s.fs, s.job.d)
    ensures Local(s, s', s.job.d) && BindsKnown(s.fs, s'.fs, s.job.d)
  {
    var j := s.job;
    match j.pc {
      case WriteManifest => WriteLocal(s, j.d, j.temp, s'.job.m, j.bytes, s'.job);
      case SyncManifest => SyncLocal(s, j.d, j.m, s'.job);
      case ReplaceManifest => RenameLocal(s, j.d, j.temp, MANIFEST, s'.job);
      case SyncAfterReplace => SyncNodeLocal(s, j.d, s'.job);
      case SyncFiles(todo) =>
        if todo != [] && todo[0] in s.fs.Node(j.d).now {
          assert s.fs.Node(j.d).Possible(todo[0], Some(s.fs.Node(j.d).now[todo[0]]));
          SyncLocal(s, j.d, s.fs.Node(j.d).now[todo[0]], s'.job);
        } else {
          KnownAfter(s.fs, s.fs, j.d);
        }
      case SyncStaging => SyncNodeLocal(s, j.d, s'.job);
    }
  }

  predicate WritesManifest(pc: CommitPc) { pc.WriteManifest? || pc.SyncManifest? || pc.ReplaceManifest? }

  lemma ManifestAdvances(parse: Parser, s: Disk, s': Disk)
    requires s.job.Commit? && CommitStep(s, s.job, s') && CommitHolds(parse, s, s.job) && WritesManifest(s.job.pc)
    ensures s'.job.Commit? && s'.job.d == s.job.d && CommitHolds(parse, s', s'.job)
  {
  }

  lemma SyncAdvances(parse: Parser, s: Disk, s': Disk)
    requires s.job.Commit? && CommitStep(s, s.job, s') && CommitHolds(parse, s, s.job)
    requires s.job.pc.SyncAfterReplace? || s.job.pc.SyncFiles? || s.job.pc.SyncStaging?
    requires FilesKnown(s.fs, s.job.d)
    ensures s'.job.Commit? && s'.job.d == s.job.d && CommitHolds(parse, s', s'.job)
  {
  }

  /** The program order of a commit: each call establishes what the next one relies on, up to a
      directory that is whole whatever comes back. */
  lemma CommitAdvances(parse: Parser, s: Disk, s': Disk)
    requires s.job.Commit? && CommitStep(s, s.job, s') && CommitHolds(parse, s, s.job) && OwnDirectory(s.job.pc)
    requires FilesKnown(s.fs, s.job.d)
    ensures s'.job.Commit? && s'.job.d == s.job.d && CommitHolds(parse, s', s'.job)
  {
    if WritesManifest(s.job.pc) {
      ManifestAdvances(parse, s, s');
    } else {
      SyncAdvances(parse, s, s');
    }
  }

  lemma MoveHomes(parse: Parser, s: Disk, s': Disk)
    requires s.job.Commit? && s.job.pc.MoveToRoot? && CommitStep(s, s.job, s') && CommitHolds(parse, s, s.job)
    requires RootHomed(s, Source) && RootHomed(s, Result) && TmpHomed(s)
    ensures RootHomed(s', Source) && RootHomed(s', Result) && TmpHomed(s')
  {
    var j := s.job;
    forall k: Kind, id: Id, d: NodeNo | s'.fs.Root(k).Possible(id, Some(d))
      ensures (k == j.filing.k && id == j.filing.id && d == j.d) || s.fs.Root(k).Possible(id, Some(d))
    {
    }
    forall path: Path, d: NodeNo | s'.fs.tmp.Possible(path, Some(d)) ensures s.fs.tmp.Possible(path, Some(d)) {
    }
  }

  lemma MoveKeepsLive(parse: Parser, s: Disk, s': Disk)
    requires s.job.Commit? && s.job.pc.MoveToRoot? && CommitStep(s, s.job, s') && CommitHolds(parse, s, s.job)
    requires LiveDurable(s)
    ensures LiveDurable(s')
  {
    var j := s.job;
    forall d | d in s'.live && d in s.homes && s.homes[d].Filed?
      ensures DurablyNarrows(s.fs, s'.fs, d, s.homes[d].filing)
    {
      var g := s.homes[d].filing;
      assert s.fs.Root(g.k).At(g.id) == Some(d);
    }
    LiveKept(s, s');
  }

  lemma MoveKeepsFilings(parse: Parser, s: Disk, s': Disk)
    requires s.job.Commit? && s.job.pc.MoveToRoot? && CommitStep(s, s.job, s') && CommitHolds(parse, s, s.job)
    requires Filings(parse, s)
    ensures Filings(parse, s')
  {
    forall d | d in s'.homes && s'.homes[d].Filed? ensures Faded(parse, s'.fs, d, s'.homes[d].filing) {
      if d != s.job.d { FadedKept(parse, s.fs, s'.fs, d, s'.homes[d].filing); }
    }
  }

  lemma MoveHolds(parse: Parser, s: Disk, s': Disk)
    requires s.job.Commit? && s.job.pc.MoveToRoot? && CommitStep(s, s.job, s') && CommitHolds(parse, s, s.job)
    requires TmpHomed(s)
    ensures JobHolds(parse, s')
  {
    forall path: Path ensures s'.fs.tmp.At(path) != Some(s.job.d) {
      if s.fs.tmp.At(path) == Some(s.job.d) { assert s.fs.tmp.Possible(path, Some(s.job.d)); }
    }
  }

  lemma MoveKeeps(parse: Parser, s: Disk, s': Disk)
    requires Consistent(parse, s) && s.job.Commit? && s.job.pc.MoveToRoot? && CommitStep(s, s.job, s')
    ensures Consistent(parse, s')
  {
    MoveKeepsFilings(parse, s, s');
    MoveKeepsLive(parse, s, s');
    MoveHomes(parse, s, s');
    KnownKept(s, s');
    MoveHolds(parse, s, s');
  }

  /** Synchronising a folder keeps everything but the operation's own progress. */
  lemma SyncKeeps(parse: Parser, s: Disk, s': Disk)
    requires Consistent(parse, s) && s'.fs.files == s.fs.files && s'.fs.nodes == s.fs.nodes
    requires s'.homes == s.homes && s'.live == s.live && s'.doomed == s.doomed
    requires s'.fs.tmp == s.fs.tmp || s'.fs.tmp == s.fs.tmp.Synced()
    requires s'.fs.sources == s.fs.sources || s'.fs.sources == s.fs.sources.Synced()
    requires s'.fs.results == s.fs.results || s'.fs.results == s.fs.results.Synced()
    ensures Filings(parse, s') && LiveDurable(s')
    ensures RootHomed(s', Source) && RootHomed(s', Result) && TmpHomed(s') && AllKnown(s')
  {
    FilingsKept(parse, s, s');
    HomedKept(s, s');
    KnownKept(s, s');
    LiveKept(s, s');
  }

  lemma SyncRootKeeps(parse: Parser, s: Disk, s': Disk)
    requires Consistent(parse, s) && s.job.Commit? && s.job.pc.SyncRoot? && CommitStep(s, s.job, s')
    ensures Consistent(parse, s')
  {
    SyncKeeps(parse, s, s');
    SyncRootHolds(parse, s, s');
  }

  lemma SyncRootHolds(parse: Parser, s: Disk, s': Disk)
    requires s.job.Commit? && s.job.pc.SyncRoot? && CommitStep(s, s.job, s') && CommitHolds(parse, s, s.job)
    ensures JobHolds(parse, s')
  {
    var j := s.job;
    assert s'.fs.Root(j.filing.k) == s.fs.Root(j.filing.k).Synced();
    assert s'.fs.Node(j.d) == s.fs.Node(j.d) && s'.fs.tmp == s.fs.tmp;
  }

  lemma NewIsDurable(parse: Parser, s: Disk, s': Disk)
    requires s.job.Commit? && s.job.pc.SyncTmp? && CommitStep(s, s.job, s') && CommitHolds(parse, s, s.job)
    ensures s.job.d in s'.homes && s'.homes[s.job.d] == Filed(s.job.filing)
    ensures Durable(s'.fs, s.job.d, s.job.filing)
  {
    var j := s.job;
    assert s'.fs.Root(j.filing.k) == s.fs.Root(j.filing.k) && s'.fs.Node(j.d) == s.fs.Node(j.d);
    forall path: Path ensures !s'.fs.tmp.Possible(path, Some(j.d)) {
      assert s'.fs.tmp.At(path) == s.fs.tmp.At(path);
    }
  }

  /** The last fsync makes the new entry one that cannot be lost. */
  lemma SyncTmpKeeps(parse: Parser, s: Disk, s': Disk)
    requires Consistent(parse, s) && s.job.Commit? && s.job.pc.SyncTmp? && CommitStep(s, s.job, s')
    ensures Consistent(parse, s') && s.job.d in s'.live
  {
    SyncKeeps(parse, s, s'.(live := s.live));
    NewIsDurable(parse, s, s');
    assert s'.job == Idle;
  }

  lemma CommitKeeps(parse: Parser, s: Disk, s': Disk)
    requires Consistent(parse, s) && s.job.Commit? && CommitStep(s, s.job, s')
    ensures Consistent(parse, s')
  {
    if OwnDirectory(s.job.pc) {
      assert FilesKnown(s.fs, s.job.d);
      CommitLocal(parse, s, s');
      CommitAdvances(parse, s, s');
      LocalKeeps(parse, s, s', s.job.d);
    } else if s.job.pc.MoveToRoot? {
      MoveKeeps(parse, s, s');
    } else if s.job.pc.SyncRoot? {
      SyncRootKeeps(parse, s, s');
    } else {
      SyncTmpKeeps(parse, s, s');
    }
  }

  // ---- crash and recovery ----

  lemma CrashFades(parse: Parser, fs: Fs, fs': Fs, d: NodeNo, g: Filing)
    requires Crashes(fs, fs') && Faded(parse, fs, d, g)
    ensures Faded(parse, fs', d, g)
    ensures Firm(fs, d, g) ==> Firm(fs', d, g)
  {
    assert Survives(fs.Node(d), fs'.Node(d));
  }

  lemma CrashDurable(fs: Fs, fs': Fs, d: NodeNo, g: Filing)
    requires Crashes(fs, fs') && Durable(fs, d, g) && Firm(fs', d, g)
    ensures Durable(fs', d, g)
  {
    assert Survives(fs.Root(g.k), fs'.Root(g.k));
    assert fs.Root(g.k).Possible(g.id, fs'.Root(g.k).At(g.id));
  }

  lemma CrashKeeps(parse: Parser, s: Disk, fs: Fs, s': Disk)
    requires Consistent(parse, s) && DiskStep(parse, s, Crash(fs), s')
    ensures Consistent(parse, s')
  {
    forall d | d in s'.homes && s'.homes[d].Filed?
      ensures Faded(parse, s'.fs, d, s'.homes[d].filing)
      ensures d in s.live ==> Durable(s'.fs, d, s'.homes[d].filing)
    {
      CrashFades(parse, s.fs, s'.fs, d, s'.homes[d].filing);
      if d in s.live { CrashDurable(s.fs, s'.fs, d, s'.homes[d].filing); }
    }
    HomedKept(s, s');
    CrashKnown(s, fs, s');
  }

  lemma CrashKnown(s: Disk, fs: Fs, s': Disk)
    requires AllKnown(s) && Crashes(s.fs, fs) && s' == s.(fs := fs, doomed := {}, job := RecoverTmp(true))
    ensures AllKnown(s') && RecoveryHolds(s')
  {
    forall d: NodeNo ensures FilesKnown(fs, d) {
      assert Survives(s.fs.Node(d), fs.Node(d)) && FilesKnown(s.fs, d);
    }
    forall d: NodeNo ensures Settled(fs.Node(d)) {
      assert Survives(s.fs.Node(d), fs.Node(d));
    }
  }

  lemma FirmShows(parse: Parser, fs: Fs, d: NodeNo, g: Filing)
    requires Fits(g) && Faded(parse, fs, d, g) && Firm(fs, d, g)
    ensures Shows(parse, fs, d, g) && Recoverable(g.k, g.id, EntryIn(parse, fs, d))
  {
    var node := fs.Node(d);
    assert node.Possible(MANIFEST, node.At(MANIFEST)) && node.Possible(DataFile(g.record), node.At(DataFile(g.record)));
  }

  /** What passes the recovery checks shows exactly what was published under its name. */
  lemma RecoverableShows(parse: Parser, fs: Fs, d: NodeNo, g: Filing)
    requires Fits(g) && Faded(parse, fs, d, g) && Recoverable(g.k, g.id, EntryIn(parse, fs, d))
    ensures Shows(parse, fs, d, g)
    ensures Settled(fs.Node(d)) ==> Firm(fs, d, g)
  {
    var node := fs.Node(d);
    assert MANIFEST in node.now;
    assert node.Possible(MANIFEST, node.At(MANIFEST));
    assert DataFile(g.record) in node.now;
    assert node.Possible(DataFile(g.record), node.At(DataFile(g.record)));
  }

  /** Recovery never empties a live directory: it is neither under tmp nor rejected. */
  lemma VictimIsNotLive(parse: Parser, s: Disk, a: Act, s': Disk)
    requires Filings(parse, s) && LiveDurable(s) && RootHomed(s, Source) && RootHomed(s, Result)
    requires RecoverStep(parse, s, a, s')
    ensures a.RecoverUnlink? ==> s.fs.tmp.now[a.path] !in s.live
    ensures a.RecoverReject? || a.RecoverDrop? ==> s.fs.Root(a.k).now[a.id] !in s.live
  {
    if a.RecoverUnlink? {
      assert s.fs.tmp.Possible(a.path, Some(s.fs.tmp.now[a.path]));
    } else if a.RecoverReject? || a.RecoverDrop? {
      var d := s.fs.Root(a.k).now[a.id];
      assert s.fs.Root(a.k).Possible(a.id, Some(d));
      if d in s.live {
        FirmShows(parse, s.fs, d, s.homes[d].filing);
        assert false;
      }
    }
  }

  predicate Tidies(a: Act) { a.RecoverUnlink? || a.RecoverRmdir? || a.RecoverReject? || a.RecoverDrop? }

  lemma TidyNode(parse: Parser, s: Disk, a: Act, s': Disk, d: NodeNo, g: Filing)
    requires RecoverStep(parse, s, a, s') && Tidies(a)
    ensures NodeFades(s.fs, s'.fs, d, g)
  {
  }

  lemma TidyFrame(parse: Parser, s: Disk, a: Act, s': Disk)
    requires RecoverStep(parse, s, a, s') && Tidies(a)
    ensures FilesKept(s.fs, s'.fs) && s'.homes == s.homes && s'.live == s.live && s'.doomed == s.doomed
    ensures forall id, t: NodeNo :: s'.fs.sources.Possible(id, Some(t)) ==> s.fs.sources.Possible(id, Some(t))
    ensures forall id, t: NodeNo :: s'.fs.results.Possible(id, Some(t)) ==> s.fs.results.Possible(id, Some(t))
    ensures forall path, t: NodeNo :: s'.fs.tmp.Possible(path, Some(t)) ==> s.fs.tmp.Possible(path, Some(t))
  {
  }

  lemma TidyLive(parse: Parser, s: Disk, a: Act, s': Disk)
    requires RecoverStep(parse, s, a, s') && Tidies(a)
    requires Filings(parse, s) && LiveDurable(s) && RootHomed(s, Source) && RootHomed(s, Result)
    ensures LiveDurable(s')
  {
    VictimIsNotLive(parse, s, a, s');
    forall d | d in s'.live && d in s.homes && s.homes[d].Filed?
      ensures DurablyNarrows(s.fs, s'.fs, d, s.homes[d].filing)
    {
      var g := s.homes[d].filing;
      assert s.fs.Root(g.k).At(g.id) == Some(d);
      TidyFrame(parse, s, a, s');
      TidyNode(parse, s, a, s', d, g);
    }
    LiveKept(s, s');
  }

  lemma UnbindSettles<N(!new)>(folder: Folder<N>, name: N)
    requires Settled(folder)
    ensures Settled(folder.Unbind(name))
  {
  }

  lemma UnlinkSettles(fs: Fs, d: NodeNo, name: Text)
    requires forall o: NodeNo :: Settled(fs.Node(o))
    ensures forall o: NodeNo :: Settled(fs.Unlink(d, name).Node(o))
  {
    forall o: NodeNo ensures Settled(fs.Unlink(d, name).Node(o)) {
      assert Settled(fs.Node(o));
      UnbindSettles(fs.Node(o), name);
    }
  }

  lemma SameNodes(fs: Fs, fs': Fs)
    requires fs'.nodes == fs.nodes && forall d: NodeNo :: Settled(fs.Node(d))
    ensures forall d: NodeNo :: Settled(fs'.Node(d))
  {
    forall d: NodeNo ensures Settled(fs'.Node(d)) { assert Settled(fs.Node(d)); }
  }

  lemma TidyFolders(parse: Parser, s: Disk, a: Act, s': Disk)
    requires RecoverStep(parse, s, a, s') && Tidies(a) && ColdHolds(s)
    ensures Settled(s'.fs.tmp) && Settled(s'.fs.sources) && Settled(s'.fs.results)
    ensures forall d: NodeNo :: Settled(s'.fs.Node(d))
  {
    match a {
      case RecoverUnlink(path, name) =>
        UnlinkSettles(s.fs, s.fs.tmp.now[path], name);
      case RecoverRmdir(path) =>
        UnbindSettles(s.fs.tmp, path);
        SameNodes(s.fs, s'.fs);
      case RecoverReject(k, id, name) =>
        UnlinkSettles(s.fs, s.fs.Root(k).now[id], name);
      case RecoverDrop(k, id) =>
        UnbindSettles(s.fs.Root(k), id);
        SameNodes(s.fs, s'.fs);
    }
  }

  lemma TidySettled(parse: Parser, s: Disk, a: Act, s': Disk)
    requires RecoverStep(parse, s, a, s') && Tidies(a) && ColdHolds(s)
    ensures ColdHolds(s')
  {
    TidyFolders(parse, s, a, s');
    forall path: Path, d: NodeNo | s'.fs.tmp.Possible(path, Some(d))
      ensures s'.fs.tmp.At(path) == Some(d) || s'.fs.Node(d).now == map[]
    {
      assert s.fs.tmp.Possible(path, Some(d));
    }
  }

  lemma TidyKnown(parse: Parser, s: Disk, a: Act, s': Disk)
    requires RecoverStep(parse, s, a, s') && Tidies(a)
    requires RootHomed(s, Source) && RootHomed(s, Result) && TmpHomed(s) && AllKnown(s)
    ensures AllKnown(s')
  {
    if a.RecoverUnlink? {
      assert s.fs.tmp.Possible(a.path, Some(s.fs.tmp.now[a.path]));
    } else if a.RecoverReject? {
      assert s.fs.Root(a.k).Possible(a.id, Some(s.fs.Root(a.k).now[a.id]));
    }
    KnownKept(s, s');
  }

  lemma TidyKeeps(parse: Parser, s: Disk, a: Act, s': Disk)
    requires Consistent(parse, s) && RecoverStep(parse, s, a, s') && Tidies(a)
    ensures Consistent(parse, s')
  {
    TidyFrame(parse, s, a, s');
    forall d: NodeNo, g: Filing ensures NodeFades(s.fs, s'.fs, d, g) { TidyNode(parse, s, a, s', d, g); }
    FilingsKept(parse, s, s');
    TidyLive(parse, s, a, s');
    HomedKept(s, s');
    TidyKnown(parse, s, a, s');
    if s.job.cold { TidySettled(parse, s, a, s'); }
  }

  /** What recovery leaves cannot be lost. */
  lemma RecoveredDurable(parse: Parser, s: Disk, s': Disk, d: NodeNo)
    requires RecoverStep(parse, s, Recovered, s') && Placed(s, d) && Filings(parse, s) && ColdHolds(s)
    requires s.fs.tmp.now == map[]
    ensures Durable(s.fs, d, s.homes[d].filing) && Shows(parse, s.fs, d, s.homes[d].filing)
  {
    var g := s.homes[d].filing;
    assert Visible(s.fs, g.k, g.id) && !Rejects(parse, s.fs, g.k, g.id);
    RecoverableShows(parse, s.fs, d, g);
    assert Settled(s.fs.Root(g.k));
    forall path: Path ensures !s.fs.tmp.Possible(path, Some(d)) {
      if s.fs.tmp.Possible(path, Some(d)) {
        assert false;
      }
    }
  }

  lemma RecoveredKeeps(parse: Parser, s: Disk, s': Disk)
    requires Consistent(parse, s) && RecoverStep(parse, s, Recovered, s')
    ensures Consistent(parse, s') && s.live <= s'.live
  {
    if s.job.cold {
      forall d | d in s'.live ensures Durable(s.fs, d, s.homes[d].filing) {
        RecoveredDurable(parse, s, s', d);
      }
    }
  }

  lemma OthersKeep(parse: Parser, s: Disk, a: Act, s': Disk)
    requires Consistent(parse, s) && DiskStep(parse, s, a, s')
    requires !a.Begin? && !a.Advance? && !a.Abort? && !a.Crash? && !a.Kill?
    ensures Consistent(parse, s')
  {
    if s.job.RecoverTmp? || s.job.RecoverRoots? {
      assert RecoverStep(parse, s, a, s');
      if a.Recovered? {
        RecoveredKeeps(parse, s, s');
      } else if Tidies(a) {
        TidyKeeps(parse, s, a, s');
      }
    } else if StagingStep(s, a, s') {
      StagingKeeps(parse, s, a, s');
    } else {
      RemoveKeeps(parse, s, a, s');
    }
  }

  lemma HandKeeps(parse: Parser, s: Disk, a: Act, s': Disk)
    requires Consistent(parse, s) && DiskStep(parse, s, a, s') && (a.Begin? || a.Advance? || a.Abort? || a.Kill?)
    ensures Consistent(parse, s')
  {
    if a.Begin? {
      BeginKeeps(parse, s, a.job, s');
    } else if a.Advance? && s.job.Commit? {
      CommitKeeps(parse, s, s');
    } else if a.Advance? {
      TouchKeeps(parse, s, s');
    }
  }

  lemma DiskStepKeeps(parse: Parser, s: Disk, a: Act, s': Disk)
    requires Consistent(parse, s) && DiskStep(parse, s, a, s')
    ensures Consistent(parse, s')
  {
    if a.Begin? || a.Advance? || a.Abort? || a.Kill? {
      HandKeeps(parse, s, a, s');
    } else if a.Crash? {
      CrashKeeps(parse, s, a.fs, s');
    } else {
      OthersKeep(parse, s, a, s');
    }
  }
}
