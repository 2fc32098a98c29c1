/** Stretches of work on the disk between two moments: which directories come, stay and go. */
module DiskPaths {
  import opened Basics
  import opened Model
  import opened CacheSpec
  import opened Publication
  import opened PublicationInvariant
  import opened CrashSafety
  import opened Incarnations

  // ---- while a process works ----

  predicate FiledAs(s: Disk, n: NodeNo, g: Filing) { n in s.homes && s.homes[n] == Filed(g) }

  // The rename of a commit, which files its directory.
  predicate Moving(s: Disk, a: Act) { a.Advance? && s.job.Commit? && s.job.pc.MoveToRoot? }

  /** A stretch of work without a death: what is renamed into a root is to be carried there, and only
      condemned directories are removed. */
  ghost predicate Work(parse: Parser, states: seq<Disk>, acts: seq<Act>, carried: Filing -> bool,
                       condemned: NodeNo -> bool)
  {
    && IsPath(states, acts, DiskSteps(parse))
    && Normal(states[0])
    && forall m :: 0 <= m < |acts| ==>
        && !acts[m].Crash? && !acts[m].Kill?
        && (Moving(states[m], acts[m]) ==> carried(states[m].job.filing))
        && (acts[m].Doom? ==> condemned(acts[m].d))
  }

  /** What one step of work does to the directories of the roots. */
  ghost predicate Moves(s: Disk, a: Act, s': Disk) {
    && Normal(s')
    && (forall n, g :: FiledAs(s, n, g) ==> FiledAs(s', n, g))
    && (forall n, g :: FiledAs(s', n, g) ==> FiledAs(s, n, g) || (Moving(s, a) && g == s.job.filing))
    && (forall n, g :: FiledAs(s, n, g) && InPlace(s'.fs, n, g) ==> InPlace(s.fs, n, g))
    && (forall n, g :: FiledAs(s, n, g) && InPlace(s.fs, n, g) ==> InPlace(s'.fs, n, g) || n in s.doomed)
    && s'.doomed == (if a.Doom? then s.doomed + {a.d} else s.doomed)
  }

  lemma StagingMoves(s: Disk, a: Act, s': Disk)
    requires AllKnown(s) && Normal(s) && StagingStep(s, a, s')
    ensures Moves(s, a, s')
  {
  }

  lemma RemovalMoves(s: Disk, a: Act, s': Disk)
    requires Normal(s) && RemoveStep(s, a, s')
    ensures Moves(s, a, s')
  {
  }

  lemma OwnMoves(s: Disk, s': Disk)
    requires Normal(s) && s.job.Commit? && CommitStep(s, s.job, s') && OwnDirectory(s.job.pc)
    ensures Moves(s, Advance, s')
  {
  }

  lemma MoveMoves(s: Disk, s': Disk)
    requires Normal(s) && s.job.Commit? && CommitStep(s, s.job, s') && s.job.pc.MoveToRoot? && BeforeMove(s, s.job)
    ensures Moves(s, Advance, s')
  {
  }

  lemma CommitMoves(parse: Parser, s: Disk, s': Disk)
    requires Normal(s) && s.job.Commit? && CommitStep(s, s.job, s') && CommitHolds(parse, s, s.job)
    ensures Moves(s, Advance, s')
  {
    if OwnDirectory(s.job.pc) {
      OwnMoves(s, s');
    } else if s.job.pc.MoveToRoot? {
      MoveMoves(s, s');
    } else {
      SyncMoves(s, s');
    }
  }

  lemma SyncMoves(s: Disk, s': Disk)
    requires Normal(s) && s.job.Commit? && CommitStep(s, s.job, s') && (s.job.pc.SyncRoot? || s.job.pc.SyncTmp?)
    ensures Moves(s, Advance, s')
  {
  }

  lemma TouchMoves(s: Disk, s': Disk)
    requires Normal(s) && s.job.Touch? && TouchStep(s, s.job, s')
    ensures Moves(s, Advance, s')
  {
  }

  lemma BeginMoves(parse: Parser, s: Disk, a: Act, s': Disk)
    requires Normal(s) && DiskStep(parse, s, a, s') && (a.Begin? || a.Abort?)
    ensures Moves(s, a, s')
  {
  }

  lemma WorkMoves(parse: Parser, s: Disk, a: Act, s': Disk)
    requires Consistent(parse, s) && Normal(s) && DiskStep(parse, s, a, s') && !a.Crash? && !a.Kill?
    ensures Moves(s, a, s')
  {
    if a.Begin? || a.Abort? {
      BeginMoves(parse, s, a, s');
    } else if a.Advance? {
      if s.job.Commit? { CommitMoves(parse, s, s'); } else { TouchMoves(s, s'); }
    } else if StagingStep(s, a, s') {
      StagingMoves(s, a, s');
    } else {
      RemovalMoves(s, a, s');
    }
  }

  /** What a stretch of work has done to the directories of the roots. */
  ghost predicate Worked(s: Disk, s': Disk, carried: Filing -> bool, condemned: NodeNo -> bool) {
    && Normal(s')
    && (forall n, g :: FiledAs(s, n, g) ==> FiledAs(s', n, g))
    && (forall n, g :: FiledAs(s', n, g) ==> FiledAs(s, n, g) || carried(g))
    && (forall n, g :: FiledAs(s, n, g) && InPlace(s'.fs, n, g) ==> InPlace(s.fs, n, g))
    && (forall n, g :: FiledAs(s, n, g) && InPlace(s.fs, n, g) ==> InPlace(s'.fs, n, g) || n in s'.doomed)
    && (forall n :: n in s'.doomed ==> n in s.doomed || condemned(n))
  }

  lemma WorkedOn(s0: Disk, s: Disk, a: Act, s': Disk, carried: Filing -> bool, condemned: NodeNo -> bool)
    requires Worked(s0, s, carried, condemned) && Moves(s, a, s')
    requires Moving(s, a) ==> carried(s.job.filing)
    requires a.Doom? ==> condemned(a.d)
    ensures Worked(s0, s', carried, condemned)
  {
  }

  ghost predicate Sound(parse: Parser, s: Disk) { Consistent(parse, s) && Wholesome(s) }

  lemma WorkStep(parse: Parser, s0: Disk, s: Disk, a: Act, s': Disk, carried: Filing -> bool, condemned: NodeNo -> bool)
    requires WorkedSoundly(parse, s0, s, carried, condemned)
    requires DiskStep(parse, s, a, s') && !a.Crash? && !a.Kill?
    requires (Moving(s, a) ==> carried(s.job.filing)) && (a.Doom? ==> condemned(a.d))
    ensures WorkedSoundly(parse, s0, s', carried, condemned)
  {
    DiskStepKeeps(parse, s, a, s');
    WholesomeKept(parse, s, a, s');
    WorkMoves(parse, s, a, s');
    WorkedOn(s0, s, a, s', carried, condemned);
  }

  lemma WorkBetween(parse: Parser, states: seq<Disk>, acts: seq<Act>, carried: Filing -> bool,
                    condemned: NodeNo -> bool,
                    i: nat, j: nat)
    requires Work(parse, states, acts, carried, condemned) && i <= j < |states|
    requires Sound(parse, states[i]) && Normal(states[i])
    ensures Sound(parse, states[j]) && Worked(states[i], states[j], carried, condemned)
  {
    WorkedNothing(states[i], carried, condemned);
    forall m: nat | i <= m < j && WorkedSoundly(parse, states[i], states[m], carried, condemned)
      ensures WorkedSoundly(parse, states[i], states[m + 1], carried, condemned)
    {
      assert DiskSteps(parse)(states[m], acts[m], states[m + 1]);
      WorkStep(parse, states[i], states[m], acts[m], states[m + 1], carried, condemned);
    }
    WorkLasts(parse, states, carried, condemned, i, j);
  }

  lemma WorkLasts(parse: Parser, states: seq<Disk>, carried: Filing -> bool, condemned: NodeNo -> bool, i: nat, j: nat)
    requires i <= j < |states| && WorkedSoundly(parse, states[i], states[i], carried, condemned)
    requires forall m: nat :: i <= m < j && WorkedSoundly(parse, states[i], states[m], carried, condemned) ==>
      WorkedSoundly(parse, states[i], states[m + 1], carried, condemned)
    ensures WorkedSoundly(parse, states[i], states[j], carried, condemned)
  {
    Stays((m: nat) => m < |states| && WorkedSoundly(parse, states[i], states[m], carried, condemned), i, j);
  }

  ghost predicate WorkedSoundly(parse: Parser, s: Disk, s': Disk, carried: Filing -> bool, condemned: NodeNo -> bool) {
    Sound(parse, s') && Worked(s, s', carried, condemned)
  }

  lemma WorkedNothing(s: Disk, carried: Filing -> bool, condemned: NodeNo -> bool)
    requires Normal(s)
    ensures Worked(s, s, carried, condemned)
  {
  }

  lemma WorkDone(parse: Parser, states: seq<Disk>, acts: seq<Act>, carried: Filing -> bool, condemned: NodeNo -> bool)
    requires Work(parse, states, acts, carried, condemned) && Sound(parse, states[0])
    ensures Sound(parse, states[|acts|]) && Worked(states[0], states[|acts|], carried, condemned)
  {
    WorkBetween(parse, states, acts, carried, condemned, 0, |acts|);
  }

  /** Somewhere in the stretch a commit renames its directory into a root under the name. */
  ghost predicate MovedAs(states: seq<Disk>, acts: seq<Act>, k: Kind, id: Id)
    requires |states| == |acts| + 1
  {
    exists m :: 0 <= m < |acts| && Moving(states[m], acts[m]) && states[m].job.filing.k == k &&
        states[m].job.filing.id == id
  }

  predicate HomedAs(s: Disk, n: NodeNo, k: Kind, id: Id) {
    n in s.homes && s.homes[n].Filed? && s.homes[n].filing.k == k && s.homes[n].filing.id == id
  }

  lemma MoveFiles(parse: Parser, s: Disk, s': Disk)
    requires Consistent(parse, s) && Moving(s, Advance) && DiskStep(parse, s, Advance, s')
    ensures FiledAs(s', s.job.d, s.job.filing) && InPlace(s'.fs, s.job.d, s.job.filing) && s.job.d !in s'.doomed
  {
  }

  lemma MovedAt(parse: Parser, states: seq<Disk>, acts: seq<Act>, carried: Filing -> bool, condemned: NodeNo -> bool,
                m: nat)
    requires Work(parse, states, acts, carried, condemned) && Sound(parse, states[0]) && m < |acts|
    requires Moving(states[m], acts[m])
    ensures var g, n, s := states[m].job.filing, states[m].job.d, states[m + 1];
      Sound(parse, s) && Normal(s) && FiledAs(s, n, g) && InPlace(s.fs, n, g) && n !in s.doomed
  {
    WorkBetween(parse, states, acts, carried, condemned, 0, m);
    assert DiskSteps(parse)(states[m], acts[m], states[m + 1]);
    WorkStep(parse, states[0], states[m], acts[m], states[m + 1], carried, condemned);
    MoveFiles(parse, states[m], states[m + 1]);
  }

  /** What is renamed into a root is there afterwards, unless it is condemned at once. */
  lemma MovedIsThere(parse: Parser, states: seq<Disk>, acts: seq<Act>, carried: Filing -> bool,
                     condemned: NodeNo -> bool,
                     k: Kind, id: Id) returns (n: NodeNo)
    requires Work(parse, states, acts, carried, condemned) && Sound(parse, states[0]) && MovedAs(states, acts, k, id)
    ensures HomedAs(states[|acts|], n, k, id) && (states[|acts|].fs.Root(k).At(id) == Some(n) || condemned(n))
  {
    var m :| 0 <= m < |acts| && Moving(states[m], acts[m]) && states[m].job.filing.k == k &&
        states[m].job.filing.id == id;
    n := states[m].job.d;
    MovedStays(parse, states, acts, carried, condemned, m);
  }

  lemma MovedStays(parse: Parser, states: seq<Disk>, acts: seq<Act>, carried: Filing -> bool, condemned: NodeNo -> bool,
                   m: nat)
    requires Work(parse, states, acts, carried, condemned) && Sound(parse, states[0]) && m < |acts|
    requires Moving(states[m], acts[m])
    ensures var g, n, s := states[m].job.filing, states[m].job.d, states[|acts|];
      HomedAs(s, n, g.k, g.id) && (s.fs.Root(g.k).At(g.id) == Some(n) || condemned(n))
  {
    MovedAt(parse, states, acts, carried, condemned, m);
    WorkBetween(parse, states, acts, carried, condemned, m + 1, |acts|);
    StaysArrived(states[m + 1], states[|acts|], carried, condemned, states[m].job.d, states[m].job.filing);
  }

  lemma StaysArrived(s: Disk, s': Disk, carried: Filing -> bool, condemned: NodeNo -> bool, n: NodeNo, g: Filing)
    requires Worked(s, s', carried, condemned) && FiledAs(s, n, g) && InPlace(s.fs, n, g) && n !in s.doomed
    ensures HomedAs(s', n, g.k, g.id) && (s'.fs.Root(g.k).At(g.id) == Some(n) || condemned(n))
  {
    assert FiledAs(s', n, g);
  }

  lemma RemovalUnplaces(parse: Parser, s: Disk, n: NodeNo, s': Disk, g: Filing)
    requires Normal(s) && DiskStep(parse, s, RemoveNode(n), s') && FiledAs(s, n, g)
    ensures FiledAs(s', n, g) && !InPlace(s'.fs, n, g)
  {
  }

  /** What is removed is not there afterwards. */
  lemma RemovedIsGone(parse: Parser, states: seq<Disk>, acts: seq<Act>, carried: Filing -> bool,
                      condemned: NodeNo -> bool,
                      n: NodeNo, g: Filing)
    requires Work(parse, states, acts, carried, condemned) && Sound(parse, states[0])
    requires FiledAs(states[0], n, g) && RemoveNode(n) in acts
    ensures !InPlace(states[|acts|].fs, n, g)
  {
    var m :| 0 <= m < |acts| && acts[m] == RemoveNode(n);
    WorkBetween(parse, states, acts, carried, condemned, 0, m);
    assert DiskSteps(parse)(states[m], acts[m], states[m + 1]);
    WorkBetween(parse, states, acts, carried, condemned, 0, m + 1);
    RemovalUnplaces(parse, states[m], n, states[m + 1], g);
    WorkBetween(parse, states, acts, carried, condemned, m + 1, |acts|);
  }

  // ---- recovery, while the roots are checked ----

  predicate Passes(parse: Parser, fs: Fs, k: Kind, id: Id) {
    Visible(fs, k, id) && Recoverable(k, id, View(parse, fs, k, id))
  }

  // What became of one name: what passed is as it was, what did not still does not.
  predicate NameChecked(parse: Parser, fs: Fs, fs': Fs, k: Kind, id: Id) {
    && (Visible(fs', k, id) ==> Visible(fs, k, id) && fs'.Root(k).now[id] == fs.Root(k).now[id])
    && (Passes(parse, fs, k, id) ==> Visible(fs', k, id) && fs'.Node(fs.Root(k).now[id]) == fs.Node(fs.Root(k).now[id]))
    && (Passes(parse, fs', k, id) ==> Passes(parse, fs, k, id))
  }

  /** Against the moment when tmp was empty. */
  ghost predicate Checked(parse: Parser, fs: Fs, fs': Fs) {
    fs'.files == fs.files && forall k: Kind, id: Id :: NameChecked(parse, fs, fs', k, id)
  }

  /** Losing files never makes a directory pass. */
  lemma LosingFiles(parse: Parser, fs: Fs, d: NodeNo, name: Text, k: Kind, id: Id)
    requires Recoverable(k, id, EntryIn(parse, fs.Unlink(d, name), d))
    ensures Recoverable(k, id, EntryIn(parse, fs, d))
  {
  }

  lemma SameEntry(parse: Parser, fs: Fs, fs': Fs, d: NodeNo)
    requires fs'.files == fs.files && fs'.Node(d) == fs.Node(d)
    ensures EntryIn(parse, fs', d) == EntryIn(parse, fs, d)
  {
  }

  lemma SamePasses(parse: Parser, fs: Fs, fs': Fs, k: Kind, id: Id)
    requires fs'.files == fs.files && fs'.Root(k).At(id) == fs.Root(k).At(id)
    requires Visible(fs, k, id) ==> fs'.Node(fs.Root(k).now[id]) == fs.Node(fs.Root(k).now[id])
    ensures Passes(parse, fs', k, id) <==> Passes(parse, fs, k, id)
  {
    if Visible(fs, k, id) { SameEntry(parse, fs, fs', fs.Root(k).now[id]); }
  }

  /** A name whose directory no step has touched. */
  lemma UntouchedChecked(parse: Parser, fs0: Fs, fs: Fs, fs': Fs, k: Kind, id: Id)
    requires NameChecked(parse, fs0, fs, k, id) && fs.files == fs0.files && fs'.files == fs.files
    requires fs'.Root(k).At(id) == fs.Root(k).At(id)
    requires Visible(fs, k, id) ==> fs'.Node(fs.Root(k).now[id]) == fs.Node(fs.Root(k).now[id])
    ensures NameChecked(parse, fs0, fs', k, id)
  {
    SamePasses(parse, fs, fs', k, id);
  }

  lemma NotItsNode(s: Disk, k: Kind, id: Id, k': Kind, id': Id)
    requires RootHomed(s, Source) && RootHomed(s, Result) && Visible(s.fs, k, id) && Visible(s.fs, k', id')
    ensures s.fs.Root(k).now[id] == s.fs.Root(k').now[id'] ==> k == k' && id == id'
  {
    assert s.fs.Root(k).Possible(id, Some(s.fs.Root(k).now[id]));
    assert s.fs.Root(k').Possible(id', Some(s.fs.Root(k').now[id']));
  }

  lemma RejectedChecked(parse: Parser, fs0: Fs, fs: Fs, k: Kind, id: Id, name: Text)
    requires Checked(parse, fs0, fs) && Visible(fs, k, id) && !Passes(parse, fs, k, id)
    ensures NameChecked(parse, fs0, fs.Unlink(fs.Root(k).now[id], name), k, id)
  {
    var d := fs.Root(k).now[id];
    var fs' := fs.Unlink(d, name);
    assert NameChecked(parse, fs0, fs, k, id);
    if Passes(parse, fs0, k, id) {
      SamePasses(parse, fs0, fs, k, id);
      assert false;
    }
    if Recoverable(k, id, EntryIn(parse, fs', d)) { LosingFiles(parse, fs, d, name, k, id); }
  }

  lemma RejectChecked(parse: Parser, fs0: Fs, s: Disk, a: Act, s': Disk)
    requires RootHomed(s, Source) && RootHomed(s, Result) && Checked(parse, fs0, s.fs)
    requires RecoverStep(parse, s, a, s') && a.RecoverReject?
    ensures Checked(parse, fs0, s'.fs)
  {
    forall k: Kind, id: Id ensures NameChecked(parse, fs0, s'.fs, k, id) {
      if k == a.k && id == a.id {
        RejectedChecked(parse, fs0, s.fs, k, id, a.name);
      } else {
        if Visible(s.fs, k, id) { NotItsNode(s, k, id, a.k, a.id); }
        UntouchedChecked(parse, fs0, s.fs, s'.fs, k, id);
      }
    }
  }

  lemma DroppedChecked(parse: Parser, fs0: Fs, fs: Fs, k: Kind, id: Id)
    requires Checked(parse, fs0, fs) && Visible(fs, k, id) && !Passes(parse, fs, k, id)
    ensures NameChecked(parse, fs0, fs.WithRoot(k, fs.Root(k).Unbind(id)), k, id)
  {
    assert NameChecked(parse, fs0, fs, k, id);
    if Passes(parse, fs0, k, id) {
      SamePasses(parse, fs0, fs, k, id);
      assert false;
    }
  }

  lemma DropChecked(parse: Parser, fs0: Fs, s: Disk, a: Act, s': Disk)
    requires Checked(parse, fs0, s.fs) && RecoverStep(parse, s, a, s') && a.RecoverDrop?
    ensures Checked(parse, fs0, s'.fs)
  {
    forall k: Kind, id: Id ensures NameChecked(parse, fs0, s'.fs, k, id) {
      if k == a.k && id == a.id {
        DroppedChecked(parse, fs0, s.fs, k, id);
      } else {
        UntouchedChecked(parse, fs0, s.fs, s'.fs, k, id);
      }
    }
  }

  predicate Checking(a: Act) { a.RecoverReject? || a.RecoverDrop? || a.Recovered? }

  lemma CheckedOn(parse: Parser, fs0: Fs, s: Disk, a: Act, s': Disk)
    requires Consistent(parse, s) && s.job.RecoverRoots? && Checked(parse, fs0, s.fs) && DiskStep(parse, s, a, s')
    requires Checking(a)
    ensures Checked(parse, fs0, s'.fs)
  {
    if a.RecoverReject? {
      RejectChecked(parse, fs0, s, a, s');
    } else if a.RecoverDrop? {
      DropChecked(parse, fs0, s, a, s');
    }
  }

  // ---- from a death to the last checks ----

  predicate Blow(a: Act) { a.Kill? || a.Crash? }

  predicate Emptying(a: Act) { a.RecoverUnlink? || a.RecoverRmdir? || a.TmpEmpty? }

  predicate Evicting(a: Act) { a.Doom? || a.RemoveFile? || a.RemoveNode? }

  /** A process dies; others start, empty tmp, check the roots, clean up, and die at any call, by a kill
      or by a power loss, any number of times; at last one has emptied tmp. */
  ghost predicate Outage(parse: Parser, states: seq<Disk>, acts: seq<Act>) {
    && IsPath(states, acts, DiskSteps(parse)) && |acts| >= 1
    && Blow(acts[0]) && acts[|acts| - 1] == TmpEmpty
    && forall m :: 0 <= m < |acts| ==> Blow(acts[m]) || Emptying(acts[m]) || Checking(acts[m]) || Evicting(acts[m])
  }

  predicate Startup(a: Act) { Blow(a) || Emptying(a) || Checking(a) || Evicting(a) }

  lemma StartupFrame(parse: Parser, s: Disk, a: Act, s': Disk)
    requires DiskStep(parse, s, a, s') && Startup(a)
    ensures s'.homes == s.homes
    ensures !a.Crash? ==> s'.fs.files == s.fs.files
    ensures a == TmpEmpty ==> s'.job.RecoverRoots? && s'.fs == s.fs
  {
  }

  ghost predicate OutAt(parse: Parser, s0: Disk, s: Disk) { Sound(parse, s) && s.homes == s0.homes }

  lemma OutageStep(parse: Parser, s0: Disk, s: Disk, a: Act, s': Disk)
    requires OutAt(parse, s0, s) && DiskStep(parse, s, a, s') && Startup(a)
    ensures OutAt(parse, s0, s')
  {
    DiskStepKeeps(parse, s, a, s');
    WholesomeKept(parse, s, a, s');
    StartupFrame(parse, s, a, s');
  }

  /** Every directory stays what it was filed as. */
  lemma OutageKeeps(parse: Parser, states: seq<Disk>, acts: seq<Act>, m: nat)
    requires Outage(parse, states, acts) && Sound(parse, states[0]) && m < |states|
    ensures OutAt(parse, states[0], states[m])
  {
    forall x: nat | 0 <= x < m && OutAt(parse, states[0], states[x]) ensures OutAt(parse, states[0], states[x + 1]) {
      assert DiskSteps(parse)(states[x], acts[x], states[x + 1]);
      OutageStep(parse, states[0], states[x], acts[x], states[x + 1]);
    }
    OutLasts(parse, states, m);
  }

  lemma OutLasts(parse: Parser, states: seq<Disk>, m: nat)
    requires m < |states| && OutAt(parse, states[0], states[0])
    requires forall x: nat :: 0 <= x < m && OutAt(parse, states[0], states[x]) ==>
      OutAt(parse, states[0], states[x + 1])
    ensures OutAt(parse, states[0], states[m])
  {
    Stays((x: nat) => x < |states| && OutAt(parse, states[0], states[x]), 0, m);
  }

  lemma OutageEnds(parse: Parser, states: seq<Disk>, acts: seq<Act>)
    requires Outage(parse, states, acts) && Sound(parse, states[0])
    ensures OutAt(parse, states[0], states[|acts|]) && states[|acts|].job.RecoverRoots?
  {
    OutageKeeps(parse, states, acts, |acts|);
    assert DiskSteps(parse)(states[|acts| - 1], acts[|acts| - 1], states[|acts| - 1 + 1]);
    StartupFrame(parse, states[|acts| - 1], acts[|acts| - 1], states[|acts|]);
  }

  // ---- what survives it ----

  /** A directory that no start evicts, committed in full, or whole while the power stays. */
  ghost predicate Held(states: seq<Disk>, acts: seq<Act>, n: NodeNo)
    requires |states| == |acts| + 1
  {
    && Doom(n) !in acts
    && (n in states[0].live || (n !in states[0].doomed && forall m :: 0 <= m < |acts| ==> !acts[m].Crash?))
  }

  ghost predicate KeptAt(s: Disk, n: NodeNo, g: Filing) {
    TmpDrafts(s) && FiledAs(s, n, g) && InPlace(s.fs, n, g) && Whole(s.fs, n, g) && n !in s.doomed
  }

  lemma WholeShows(parse: Parser, s: Disk, n: NodeNo, g: Filing)
    requires Filings(parse, s) && FiledAs(s, n, g) && Whole(s.fs, n, g)
    ensures Shows(parse, s.fs, n, g) && Recoverable(g.k, g.id, EntryIn(parse, s.fs, n))
  {
    var node := s.fs.Node(n);
    assert node.Possible(MANIFEST, Some(node.now[MANIFEST]));
    assert node.Possible(DataFile(g.record), Some(node.now[DataFile(g.record)]));
  }

  lemma EmptyingKeepsKept(parse: Parser, s: Disk, a: Act, s': Disk, n: NodeNo, g: Filing)
    requires KeptAt(s, n, g) && DiskStep(parse, s, a, s') && Emptying(a)
    ensures KeptAt(s', n, g)
  {
    if a.RecoverUnlink? { assert s.fs.tmp.At(a.path) == Some(s.fs.tmp.now[a.path]); }
    if !a.TmpEmpty? { RecoveryLeavesDrafts(parse, s, a, s'); }
  }

  lemma RejectingKeepsKept(parse: Parser, s: Disk, a: Act, s': Disk, n: NodeNo, g: Filing)
    requires RootHomed(s, Source) && RootHomed(s, Result) && KeptAt(s, n, g) && Passes(parse, s.fs, g.k, g.id)
    requires RecoverStep(parse, s, a, s') && Checking(a)
    ensures FiledAs(s', n, g) && InPlace(s'.fs, n, g) && Whole(s'.fs, n, g) && n !in s'.doomed
  {
    if !a.Recovered? { NotItsNode(s, g.k, g.id, a.k, a.id); }
  }

  lemma CheckingRecovers(parse: Parser, s: Disk, a: Act, s': Disk)
    requires DiskStep(parse, s, a, s') && Checking(a)
    ensures RecoverStep(parse, s, a, s')
  {
  }

  lemma CheckingKeepsKept(parse: Parser, s: Disk, a: Act, s': Disk, n: NodeNo, g: Filing)
    requires Consistent(parse, s) && KeptAt(s, n, g) && DiskStep(parse, s, a, s') && Checking(a)
    ensures KeptAt(s', n, g)
  {
    CheckingRecovers(parse, s, a, s');
    WholeShows(parse, s, n, g);
    RejectingKeepsKept(parse, s, a, s', n, g);
    RecoveryLeavesDrafts(parse, s, a, s');
  }

  lemma EvictingKeepsKept(parse: Parser, s: Disk, a: Act, s': Disk, n: NodeNo, g: Filing)
    requires KeptAt(s, n, g) && DiskStep(parse, s, a, s') && Evicting(a) && a != Doom(n)
    ensures KeptAt(s', n, g)
  {
  }

  lemma StartupKeepsKept(parse: Parser, s: Disk, a: Act, s': Disk, n: NodeNo, g: Filing)
    requires Consistent(parse, s) && KeptAt(s, n, g) && DiskStep(parse, s, a, s') && Startup(a) && !a.Crash?
    requires a != Doom(n)
    ensures KeptAt(s', n, g)
  {
    if Emptying(a) {
      EmptyingKeepsKept(parse, s, a, s', n, g);
    } else if Checking(a) {
      CheckingKeepsKept(parse, s, a, s', n, g);
    } else if Evicting(a) {
      EvictingKeepsKept(parse, s, a, s', n, g);
    }
  }

  ghost predicate StillPasses(parse: Parser, s: Disk, n: NodeNo, g: Filing) {
    FiledAs(s, n, g) && InPlace(s.fs, n, g) && Passes(parse, s.fs, g.k, g.id)
  }

  lemma KilledHeld(parse: Parser, states: seq<Disk>, acts: seq<Act>, n: NodeNo, g: Filing)
    requires Outage(parse, states, acts) && Sound(parse, states[0])
    requires KeptAt(states[0], n, g) && Doom(n) !in acts && forall m :: 0 <= m < |acts| ==> !acts[m].Crash?
    ensures StillPasses(parse, states[|acts|], n, g)
  {
    forall m: nat | 0 <= m < |acts| && KeptAt(states[m], n, g) ensures KeptAt(states[m + 1], n, g) {
      OutageKeeps(parse, states, acts, m);
      assert DiskSteps(parse)(states[m], acts[m], states[m + 1]);
      StartupKeepsKept(parse, states[m], acts[m], states[m + 1], n, g);
    }
    KeptLasts(states, |acts|, n, g);
    OutageEnds(parse, states, acts);
    WholeShows(parse, states[|acts|], n, g);
  }

  lemma KeptLasts(states: seq<Disk>, j: nat, n: NodeNo, g: Filing)
    requires j < |states| && KeptAt(states[0], n, g)
    requires forall m: nat :: 0 <= m < j && KeptAt(states[m], n, g) ==> KeptAt(states[m + 1], n, g)
    ensures KeptAt(states[j], n, g)
  {
    Stays((m: nat) => m < |states| && KeptAt(states[m], n, g), 0, j);
  }

  lemma LiveHeld(parse: Parser, states: seq<Disk>, acts: seq<Act>, n: NodeNo, g: Filing)
    requires Outage(parse, states, acts) && Sound(parse, states[0]) && LivesAs(states[0], n, g) && Doom(n) !in acts
    ensures StillPasses(parse, states[|acts|], n, g)
  {
    forall m: nat | 0 <= m < |acts| && LivesAs(states[m], n, g) ensures LivesAs(states[m + 1], n, g) {
      OutageKeeps(parse, states, acts, m);
      assert DiskSteps(parse)(states[m], acts[m], states[m + 1]);
      LiveSurvives(parse, states[m], acts[m], states[m + 1], n, g);
    }
    LivesLast(states, 0, |acts|, n, g);
    OutageEnds(parse, states, acts);
    LiveShows(parse, states[|acts|], n, g);
  }

  lemma PlacedIsKept(parse: Parser, s: Disk, n: NodeNo, g: Filing)
    requires Sound(parse, s) && Normal(s) && FiledAs(s, n, g) && InPlace(s.fs, n, g) && n !in s.doomed
    ensures KeptAt(s, n, g)
  {
    assert StandsWhole(s, n);
  }

  /** What is held when the process dies is there when the last checks begin. */
  lemma HeldThrough(parse: Parser, states: seq<Disk>, acts: seq<Act>, n: NodeNo, g: Filing)
    requires Outage(parse, states, acts) && Sound(parse, states[0]) && Normal(states[0])
    requires FiledAs(states[0], n, g) && InPlace(states[0].fs, n, g) && Held(states, acts, n)
    ensures StillPasses(parse, states[|acts|], n, g)
  {
    if n in states[0].live {
      LiveHeld(parse, states, acts, n, g);
    } else {
      PlacedIsKept(parse, states[0], n, g);
      KilledHeld(parse, states, acts, n, g);
    }
  }

  // ---- and what comes in its place ----

  /** Some power loss finds a directory not committed in full and another able to come under its name. */
  ghost predicate Displaced(parse: Parser, states: seq<Disk>, acts: seq<Act>, k: Kind, id: Id, n: NodeNo)
    requires |states| == |acts| + 1
  {
    exists m :: 0 <= m < |acts| && acts[m].Crash? && n !in states[m].live && OtherMayCome(parse, states[m].fs, k, id, n)
  }

  /** No call of a start gives a name to a directory; only a power loss can. */
  lemma OnlyCrashesBind(parse: Parser, s: Disk, a: Act, s': Disk, k: Kind, id: Id)
    requires DiskStep(parse, s, a, s') && Startup(a) && !a.Crash?
    ensures s'.fs.Root(k).At(id) == s.fs.Root(k).At(id) || s'.fs.Root(k).At(id) == None
  {
  }

  // What is left of a settled directory: fewer names, the same files.
  ghost predicate Dwindled(fs0: Fs, fs: Fs, k: Kind, id: Id, o: NodeNo) {
    && fs.files == fs0.files && (forall f :: f in fs.files ==> fs.files[f].safe)
    && (forall t: nat :: fs.Root(k).Possible(id, Some(t)) ==> t == o)
    && (forall name: Text, f: nat :: fs.Node(o).Possible(name, Some(f)) ==> fs0.Node(o).At(name) == Some(f))
  }

  lemma CrashSettles(parse: Parser, s: Disk, a: Act, s': Disk, k: Kind, id: Id)
    requires DiskStep(parse, s, a, s') && a.Crash? && Visible(s'.fs, k, id)
    ensures Dwindled(s'.fs, s'.fs, k, id, s'.fs.Root(k).now[id])
  {
    assert forall d: NodeNo :: Survives(s.fs.Node(d), s'.fs.Node(d));
  }

  lemma CrashDwindles(fs0: Fs, fs: Fs, fs': Fs, k: Kind, id: Id, o: NodeNo)
    requires Dwindled(fs0, fs, k, id, o) && Crashes(fs, fs')
    ensures Dwindled(fs0, fs', k, id, o)
  {
    assert Survives(fs.Node(o), fs'.Node(o)) && Survives(fs.Root(k), fs'.Root(k));
    forall t: nat | fs'.Root(k).Possible(id, Some(t))
      ensures t == o
    {
      assert fs.Root(k).Possible(id, fs'.Root(k).At(id));
    }
    forall name: Text, f: nat | fs'.Node(o).Possible(name, Some(f)) ensures fs0.Node(o).At(name) == Some(f) {
      assert fs.Node(o).Possible(name, fs'.Node(o).At(name));
    }
    assert fs'.files == fs.files;
  }

  lemma StartupDwindles(parse: Parser, fs0: Fs, s: Disk, a: Act, s': Disk, k: Kind, id: Id, o: NodeNo)
    requires Dwindled(fs0, s.fs, k, id, o) && DiskStep(parse, s, a, s') && Startup(a)
    ensures Dwindled(fs0, s'.fs, k, id, o)
  {
    if a.Crash? {
      CrashDwindles(fs0, s.fs, s'.fs, k, id, o);
    } else if a.RecoverUnlink? || a.RecoverReject? || a.RemoveFile? {
      LossDwindles(parse, fs0, s, a, s', k, id, o);
    } else if Emptying(a) || Checking(a) {
      RecoverDwindles(parse, fs0, s, a, s', k, id, o);
    } else {
      EvictDwindles(parse, fs0, s, a, s', k, id, o);
    }
  }

  lemma LossDwindles(parse: Parser, fs0: Fs, s: Disk, a: Act, s': Disk, k: Kind, id: Id, o: NodeNo)
    requires Dwindled(fs0, s.fs, k, id, o) && DiskStep(parse, s, a, s')
    requires (a.RecoverUnlink? || a.RecoverReject? || a.RemoveFile?)
    ensures Dwindled(fs0, s'.fs, k, id, o)
  {
  }

  lemma RecoverDwindles(parse: Parser, fs0: Fs, s: Disk, a: Act, s': Disk, k: Kind, id: Id, o: NodeNo)
    requires Dwindled(fs0, s.fs, k, id, o) && DiskStep(parse, s, a, s')
    requires a.RecoverRmdir? || a.TmpEmpty? || a.RecoverDrop? || a.Recovered?
    ensures Dwindled(fs0, s'.fs, k, id, o)
  {
  }

  lemma EvictDwindles(parse: Parser, fs0: Fs, s: Disk, a: Act, s': Disk, k: Kind, id: Id, o: NodeNo)
    requires Dwindled(fs0, s.fs, k, id, o) && DiskStep(parse, s, a, s') && (a.Kill? || a.Doom? || a.RemoveNode?)
    ensures Dwindled(fs0, s'.fs, k, id, o)
  {
  }

  /** What passes at last passed when the name came to lead there. */
  lemma DwindledPassed(parse: Parser, fs0: Fs, fs: Fs, k: Kind, id: Id, o: NodeNo)
    requires Dwindled(fs0, fs, k, id, o) && Passes(parse, fs, k, id)
    ensures fs.Root(k).now[id] == o && Recoverable(k, id, EntryIn(parse, fs0, o))
  {
    assert fs.Root(k).Possible(id, Some(fs.Root(k).now[id]));
    DwindledName(fs0, fs, k, id, o, MANIFEST);
    DwindledName(fs0, fs, k, id, o, DataFile(EntryIn(parse, fs, o).manifest.record.value));
  }

  lemma DwindledName(fs0: Fs, fs: Fs, k: Kind, id: Id, o: NodeNo, name: Text)
    requires Dwindled(fs0, fs, k, id, o) && name in fs.Node(o).now
    ensures fs0.Node(o).At(name) == Some(fs.Node(o).now[name])
    ensures fs0.Data(fs.Node(o).now[name]) == fs.Data(fs.Node(o).now[name])
  {
    assert fs.Node(o).Possible(name, Some(fs.Node(o).now[name]));
  }

  predicate Leads(s: Disk, k: Kind, id: Id, n: NodeNo) { s.fs.Root(k).At(id) == None || s.fs.Root(k).At(id) == Some(n) }

  lemma DwindlesOn(parse: Parser, states: seq<Disk>, acts: seq<Act>, m: nat, k: Kind, id: Id)
    requires Outage(parse, states, acts) && m < |acts| && acts[m].Crash? && Visible(states[m + 1].fs, k, id)
    ensures Dwindled(states[m + 1].fs, states[|acts|].fs, k, id, states[m + 1].fs.Root(k).now[id])
  {
    var o := states[m + 1].fs.Root(k).now[id];
    assert DiskSteps(parse)(states[m], acts[m], states[m + 1]);
    CrashSettles(parse, states[m], acts[m], states[m + 1], k, id);
    forall x: nat | m + 1 <= x < |acts| && Dwindled(states[m + 1].fs, states[x].fs, k, id, o)
      ensures Dwindled(states[m + 1].fs, states[x + 1].fs, k, id, o)
    {
      assert DiskSteps(parse)(states[x], acts[x], states[x + 1]);
      StartupDwindles(parse, states[m + 1].fs, states[x], acts[x], states[x + 1], k, id, o);
    }
    DwindledLasts(states, m + 1, |acts|, k, id, o);
  }

  lemma DwindledLasts(states: seq<Disk>, i: nat, j: nat, k: Kind, id: Id, o: NodeNo)
    requires i <= j < |states| && Dwindled(states[i].fs, states[i].fs, k, id, o)
    requires forall x: nat :: i <= x < j && Dwindled(states[i].fs, states[x].fs, k, id, o) ==>
      Dwindled(states[i].fs, states[x + 1].fs, k, id, o)
    ensures Dwindled(states[i].fs, states[j].fs, k, id, o)
  {
    Stays((x: nat) => x < |states| && Dwindled(states[i].fs, states[x].fs, k, id, o), i, j);
  }

  lemma LiveIsNotDisplaced(parse: Parser, s: Disk, fs: Fs, k: Kind, id: Id, n: NodeNo, g: Filing)
    requires Consistent(parse, s) && LivesAs(s, n, g) && g.k == k && g.id == id && Crashes(s.fs, fs)
    ensures fs.Root(k).At(id) == Some(n)
  {
    assert Survives(s.fs.Root(k), fs.Root(k)) && s.fs.Root(k).Possible(id, fs.Root(k).At(id));
  }

  lemma CrashBinds(parse: Parser, s: Disk, a: Act, s': Disk, k: Kind, id: Id, n: NodeNo, g: Filing)
    requires Consistent(parse, s) && DiskStep(parse, s, a, s') && Startup(a) && FiledAs(s, n, g) && g.k == k
    requires g.id == id
    requires Leads(s, k, id, n) && !Leads(s', k, id, n)
    ensures a.Crash? && Crashes(s.fs, s'.fs) && n !in s.live
  {
    if !a.Crash? { OnlyCrashesBind(parse, s, a, s', k, id); }
    if n in s.live { LiveIsNotDisplaced(parse, s, s'.fs, k, id, n, g); }
  }

  lemma CameThen(parse: Parser, fs: Fs, fs0: Fs, last: Fs, k: Kind, id: Id, n: NodeNo)
    requires Crashes(fs, fs0) && Visible(fs0, k, id) && fs0.Root(k).now[id] != n
    requires Dwindled(fs0, last, k, id, fs0.Root(k).now[id]) && Passes(parse, last, k, id)
    ensures OtherMayCome(parse, fs, k, id, n)
  {
    DwindledPassed(parse, fs0, last, k, id, fs0.Root(k).now[id]);
  }

  /** The power loss that first gives the name to another directory displaces what it led to. */
  lemma DisplacedAt(parse: Parser, states: seq<Disk>, acts: seq<Act>, m: nat, k: Kind, id: Id, n: NodeNo, g: Filing)
    requires Outage(parse, states, acts) && m < |acts| && Consistent(parse, states[m]) && FiledAs(states[m], n, g)
    requires g.k == k && g.id == id
    requires Leads(states[m], k, id, n) && !Leads(states[m + 1], k, id, n) && Passes(parse, states[|acts|].fs, k, id)
    ensures acts[m].Crash? && n !in states[m].live && OtherMayCome(parse, states[m].fs, k, id, n)
  {
    assert DiskSteps(parse)(states[m], acts[m], states[m + 1]);
    CrashBinds(parse, states[m], acts[m], states[m + 1], k, id, n, g);
    DwindlesOn(parse, states, acts, m, k, id);
    CameThen(parse, states[m].fs, states[m + 1].fs, states[|acts|].fs, k, id, n);
  }

  /** A name leads on to what it led to, unless some power loss has displaced that. */
  lemma NameThrough(parse: Parser, states: seq<Disk>, acts: seq<Act>, k: Kind, id: Id, n: NodeNo, g: Filing)
    requires Outage(parse, states, acts) && Sound(parse, states[0])
    requires FiledAs(states[0], n, g) && g.k == k && g.id == id && Leads(states[0], k, id, n)
    requires Passes(parse, states[|acts|].fs, k, id) && states[|acts|].fs.Root(k).now[id] != n
    ensures Displaced(parse, states, acts, k, id, n)
  {
    var m := LeadsUntil(states, |acts|, k, id, n);
    OutageKeeps(parse, states, acts, m);
    DisplacedAt(parse, states, acts, m, k, id, n, g);
  }

  lemma LeadsUntil(states: seq<Disk>, end: nat, k: Kind, id: Id, n: NodeNo) returns (m: nat)
    requires end < |states| && Leads(states[0], k, id, n) && !Leads(states[end], k, id, n)
    ensures m < end && Leads(states[m], k, id, n) && !Leads(states[m + 1], k, id, n)
  {
    m := WhereItEnds((x: nat) => x < |states| && Leads(states[x], k, id, n), 0, end);
  }

  // ---- the last checks ----

  /** recover() once tmp is empty, to its end. */
  ghost predicate Checks(parse: Parser, states: seq<Disk>, acts: seq<Act>) {
    && IsPath(states, acts, DiskSteps(parse)) && |acts| >= 1 && states[0].job.RecoverRoots?
    && acts[|acts| - 1] == Recovered && forall m :: 0 <= m < |acts| ==> Checking(acts[m])
  }

  ghost predicate InChecks(parse: Parser, s0: Disk, s: Disk) {
    && Consistent(parse, s) && s.homes == s0.homes && s.job.RecoverRoots? && Checked(parse, s0.fs, s.fs)
  }

  lemma CheckingFrame(parse: Parser, s: Disk, a: Act, s': Disk)
    requires DiskStep(parse, s, a, s') && Checking(a)
    ensures s'.homes == s.homes && s'.doomed == s.doomed && (a.Recovered? ==> s'.job == Idle && s'.fs == s.fs)
    ensures !a.Recovered? ==> s'.job == s.job
  {
  }

  // One check: it is not the last, since another comes after it.
  lemma CheckStep(parse: Parser, s0: Disk, s: Disk, a: Act, s': Disk, a': Act, s'': Disk)
    requires InChecks(parse, s0, s) && Checking(a) && DiskStep(parse, s, a, s')
    requires Checking(a') && DiskStep(parse, s', a', s'')
    ensures InChecks(parse, s0, s')
  {
    DiskStepKeeps(parse, s, a, s');
    if a == Recovered { RecoveredIsLast(parse, s, s', a', s''); }
    CheckingFrame(parse, s, a, s');
    CheckedOn(parse, s0.fs, s, a, s');
  }

  lemma RecoveredIsLast(parse: Parser, s: Disk, s': Disk, a: Act, s'': Disk)
    requires DiskStep(parse, s, Recovered, s') && DiskStep(parse, s', a, s'')
    ensures !Checking(a)
  {
  }

  lemma ChecksKeep(parse: Parser, states: seq<Disk>, acts: seq<Act>)
    requires Checks(parse, states, acts) && Consistent(parse, states[0])
    ensures InChecks(parse, states[0], states[|acts| - 1])
    ensures DiskStep(parse, states[|acts| - 1], Recovered, states[|acts|])
  {
    forall m: nat | 0 <= m < |acts| - 1 && InChecks(parse, states[0], states[m])
      ensures InChecks(parse, states[0], states[m + 1])
    {
      assert DiskSteps(parse)(states[m], acts[m], states[m + 1]);
      assert DiskSteps(parse)(states[m + 1], acts[m + 1], states[m + 1 + 1]);
      CheckStep(parse, states[0], states[m], acts[m], states[m + 1], acts[m + 1], states[m + 2]);
    }
    ChecksLast(parse, states, |acts| - 1);
    assert DiskSteps(parse)(states[|acts| - 1], acts[|acts| - 1], states[|acts| - 1 + 1]);
  }

  lemma ChecksLast(parse: Parser, states: seq<Disk>, j: nat)
    requires j < |states| && InChecks(parse, states[0], states[0])
    requires forall m: nat :: 0 <= m < j && InChecks(parse, states[0], states[m]) ==>
      InChecks(parse, states[0], states[m + 1])
    ensures InChecks(parse, states[0], states[j])
  {
    Stays((m: nat) => m < |states| && InChecks(parse, states[0], states[m]), 0, j);
  }

  /** What recovery leaves is exactly what passes the checks once tmp is empty, under the same names,
      untouched. */
  lemma RecoveryLeaves(parse: Parser, states: seq<Disk>, acts: seq<Act>, k: Kind, id: Id)
    requires Checks(parse, states, acts) && Consistent(parse, states[0])
    ensures var before, after := states[0].fs, states[|acts|].fs;
      && (Visible(after, k, id) <==> Passes(parse, before, k, id))
      && (Visible(after, k, id) ==>
          after.Root(k).now[id] == before.Root(k).now[id] && View(parse, after, k, id) == View(parse, before, k, id))
  {
    ChecksKeep(parse, states, acts);
    var before, last := states[0].fs, states[|acts| - 1];
    CheckingFrame(parse, last, Recovered, states[|acts|]);
    assert NameChecked(parse, before, last.fs, k, id);
    if Visible(last.fs, k, id) {
      assert !Rejects(parse, last.fs, k, id);
      SameEntry(parse, before, last.fs, before.Root(k).now[id]);
    }
  }

  lemma RecoveryEnds(parse: Parser, states: seq<Disk>, acts: seq<Act>)
    requires Checks(parse, states, acts) && Consistent(parse, states[0])
    ensures states[|acts|].job == Idle && states[|acts|].homes == states[0].homes && states[|acts|].doomed == {}
    ensures Sound(parse, states[|acts|])
  {
    ChecksKeep(parse, states, acts);
    CheckingFrame(parse, states[|acts| - 1], Recovered, states[|acts|]);
    DiskStepKeeps(parse, states[|acts| - 1], Recovered, states[|acts|]);
    RecoveredWholesome(parse, states[|acts| - 1], states[|acts|]);
  }
}
