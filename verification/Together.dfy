/** The service and its disk side by side. While the process lives, each step comes with the system
    calls it makes; when it dies, at whatever call, the next process finds what the disk kept. The
    restarts of ServiceRuns are derived here, not assumed. */
module Together {
  import opened Basics
  import opened Model
  import opened CacheSpec
  import opened CacheInvariants
  import opened Rereading
  import opened Service
  import opened ServiceInvariants
  import opened ServiceSafety
  import opened ServiceRuns
  import opened ServiceTheorems
  import opened ServiceHistory
  import P = Publication
  import PI = PublicationInvariant
  import Incarnations
  import DP = DiskPaths

  datatype Both = Both(s: State, d: P.Disk)

  // ---- how the two agree ----

  /** An entry is what was filed: its record, under its scope and source, and the data of its record. */
  predicate IsFiled(e: Entry, g: P.Filing) {
    && e.manifest.record == Some(g.record) && e.manifest.scope == ScopeOf(g.record)
    && e.manifest.source == Some(SourceOf(g.record))
    && DataFile(g.record) in e.files && e.files[DataFile(g.record)] == g.data
  }

  /** The cache manager keeps no index: what it has committed is what the roots list. */
  ghost predicate SameNames(c: Cache, d: P.Disk) {
    forall k: Kind, id: Id :: id in c.Root(k) <==> id in d.fs.Root(k).now
  }

  /** An entry leads to the directory it was filed as. */
  ghost predicate Backs(d: P.Disk, k: Kind, id: Id, e: Entry) {
    && id in d.fs.Root(k).now
    && var n := d.fs.Root(k).now[id];
       && n in d.homes && d.homes[n].Filed?
       && var g := d.homes[n].filing; g.k == k && g.id == id && IsFiled(e, g)
  }

  ghost predicate Agree(c: Cache, d: P.Disk) {
    SameNames(c, d) && forall k: Kind, id: Id :: id in c.Root(k) ==> Backs(d, k, id, c.Root(k)[id])
  }

  ghost predicate ValidEntry(w: World, k: Kind, id: Id, e: Entry) {
    if k.Source? then ValidSource(w, id, e) else ValidResult(w, id, e)
  }

  /** A filing is the content of a valid entry, under a name already drawn. */
  ghost predicate Good(w: World, next: nat, g: P.Filing) {
    && (exists e :: IsFiled(e, g) && ValidEntry(w, g.k, g.id, e))
    && (g.k.Result? && g.id.ResUuid? ==> g.id.uuid < next)
  }

  ghost predicate AllGood(w: World, next: nat, d: P.Disk) { forall n, g :: DP.FiledAs(d, n, g) ==> Good(w, next, g) }

  ghost predicate DoomedGone(d: P.Disk) {
    forall n :: n in d.doomed ==> n in d.homes && d.homes[n].Filed? && !P.InPlace(d.fs, n, d.homes[n].filing)
  }

  /** The cache and the disk agree; what is filed, or about to be, is good. */
  ghost predicate Joined(w: World, parse: P.Parser, x: Both) {
    && DP.Sound(parse, x.d) && x.d.job == P.Idle
    && Agree(x.s.sh.cache, x.d) && AllGood(w, x.s.sh.next, x.d) && DoomedGone(x.d) && StagingFine(w, x.s)
  }

  ghost predicate Coupled(w: World, parse: P.Parser, x: Both) { Invariant(w, x.s) && Joined(w, parse, x) }

  // ---- what a thread may have published ----

  /** What the commit that a thread has come to files: a result's record as it will be read back. */
  function FilingOf(p: Pc): Option<P.Filing> {
    if p.Q? && p.q.QCommit? then
      var r := ResultRecordOf(p.q.job, p.q.answer);
      Some(P.Filing(Result, r.id, ResultRec(Reread(r)), p.q.answer.csv))
    else if p.I? && p.i.ICommit? then
      var r := SourceRecordOf(p.i.u, p.i.schema, p.i.file, p.i.data);
      Some(P.Filing(Source, r.id, SourceRec(r), p.i.data))
    else None
  }

  /** What threads stage is good and new, and no two stage one name. */
  ghost predicate StagingFine(w: World, s: State) {
    && (forall t :: t in s.threads && FilingOf(s.threads[t]).Some? ==> StagedWell(w, s, FilingOf(s.threads[t]).value))
    && (forall t, u :: t in s.threads && u in s.threads && SameFiling(s.threads[t], s.threads[u]) ==> t == u)
  }

  ghost predicate StagedWell(w: World, s: State, g: P.Filing) { Good(w, s.sh.next, g) && g.id !in s.sh.cache.Root(g.k) }

  predicate SameFiling(p: Pc, p': Pc) {
    FilingOf(p).Some? && FilingOf(p').Some? && FilingOf(p).value.id == FilingOf(p').value.id
  }

  ghost function Underway(s: State): P.Filing -> bool {
    (g: P.Filing) => exists t :: t in s.threads && FilingOf(s.threads[t]) == Some(g)
  }

  /** The entry a filing amounts to, read at some time. */
  function EntryOf(g: P.Filing): Entry {
    Entry(Manifest(Some(g.record), Some(0), Some(0), ScopeOf(g.record), Some(SourceOf(g.record)), 0),
          map[DataFile(g.record) := g.data], 0)
  }

  lemma FiledIsGood(w: World, s: Settings, c: Cache, p: Pc)
    requires Fact(w, s, c, p) && FilingOf(p).Some?
    ensures var g := FilingOf(p).value; IsFiled(EntryOf(g), g) && ValidEntry(w, g.k, g.id, EntryOf(g))
  {
    var g := FilingOf(p).value;
    if p.Q? {
      StagedResultIsValid(w, p.q.job, p.q.answer, ResultRecordOf(p.q.job, p.q.answer), EntryOf(g));
    } else {
      StagedSourceIsValid(w, p.i.u, p.i.schema, p.i.file, p.i.data, g.record.source, EntryOf(g));
    }
  }

  lemma FiledIsTarget(sh: Shared, p: Pc)
    requires TargetAgrees(sh, HoldingOf(p)) && FilingOf(p).Some?
    ensures var g := FilingOf(p).value;
      && HoldingOf(p).target == Some(g.id) && g.id !in sh.cache.Root(g.k)
      && (g.k.Result? && g.id.ResUuid? ==> g.id.uuid < sh.next)
  {
  }

  lemma StagedIsGood(w: World, s: State, t: Tid)
    requires Invariant(w, s) && t in s.threads && FilingOf(s.threads[t]).Some?
    ensures StagedWell(w, s, FilingOf(s.threads[t]).value)
    ensures HoldingOf(s.threads[t]).target == Some(FilingOf(s.threads[t]).value.id)
  {
    FiledIsTarget(s.sh, s.threads[t]);
    FiledIsGood(w, s.sh.settings, s.sh.cache, s.threads[t]);
  }

  /** Single flight: two threads never stage one name, so what is filed under it is what its thread staged. */
  lemma StagingIsFine(w: World, s: State)
    requires Invariant(w, s)
    ensures StagingFine(w, s)
  {
    forall t | t in s.threads && FilingOf(s.threads[t]).Some? ensures StagedWell(w, s, FilingOf(s.threads[t]).value) {
      StagedIsGood(w, s, t);
    }
    forall t, u | t in s.threads && u in s.threads && SameFiling(s.threads[t], s.threads[u]) ensures t == u {
      StagedIsGood(w, s, t);
      StagedIsGood(w, s, u);
      assert SameTarget(s.threads[t], s.threads[u]);
    }
  }

  /** What a step publishes is what its thread has staged. */
  lemma PublishedIsStaged(w: World, s: Settings, p: Pc, a: Action, p': Pc, k: Kind, id: Id)
    requires Transition(w, s, p, a, p') && Publishes(a, k, id)
    ensures FilingOf(p).Some? && FilingOf(p).value.id == id && FilingOf(p).value.k == k
    ensures IsFiled(a.entry, FilingOf(p).value)
  {
    if a.PutSource? {
      assert StoreTransition(w, s, p.i, a, p'.i);
    } else {
      assert ExecuteTransition(w, s, p.q, a, p'.q);
    }
  }

  // ---- a step and its system calls ----

  /** A directory whose name is not in the cache. */
  ghost function Unlisted(c: Cache, d: P.Disk): P.NodeNo -> bool {
    (n: P.NodeNo) => n in d.homes && d.homes[n].Filed? && d.homes[n].filing.id !in c.Root(d.homes[n].filing.k)
  }

  /** What calls make of a cache: a filing is renamed into a root exactly when its name is newly in the
      cache, and a name is taken out of a root exactly when it is no longer there. In between there may
      be work in staging areas, touches, commits that fail before the rename, in any order and mixture. */
  ghost predicate Calls(parse: P.Parser, c: Cache, c': Cache, d: P.Disk, d': P.Disk, states: seq<P.Disk>,
                        acts: seq<P.Act>,
                        carried: P.Filing -> bool)
  {
    && DP.Work(parse, states, acts, carried, Unlisted(c', d'))
    && states[0] == d && states[|acts|] == d' && d'.job == P.Idle
    && (forall g :: carried(g) ==> g.id in c'.Root(g.k) && g.id !in c.Root(g.k))
    && (forall k: Kind, id: Id :: id in c'.Root(k) && id !in c.Root(k) ==> DP.MovedAs(states, acts, k, id))
    && (forall k: Kind, id: Id :: id in c.Root(k) && id !in c'.Root(k) && id in d.fs.Root(k).now ==>
          P.RemoveNode(d.fs.Root(k).now[id]) in acts)
  }

  /** What a step may rename into the roots: what a thread stands ready to commit, if the step publishes it. */
  ghost function Carried(s: State, c': Cache): P.Filing -> bool {
    (g: P.Filing) => Underway(s)(g) && g.id in c'.Root(g.k) && g.id !in s.sh.cache.Root(g.k)
  }

  /** A step of the service with its calls. */
  ghost predicate Section(w: World, parse: P.Parser, x: Both, l: Label, states: seq<P.Disk>, acts: seq<P.Act>, x': Both)
  {
    && Step(w, x.s, l, x'.s) && !l.Restart?
    && Calls(parse, x.s.sh.cache, x'.s.sh.cache, x.d, x'.d, states, acts, Carried(x.s, x'.s.sh.cache))
  }

  /** A step that adds and removes nothing has a section without calls. */
  lemma QuietSection(w: World, parse: P.Parser, x: Both, l: Label, s': State)
    requires Joined(w, parse, x) && Step(w, x.s, l, s') && !l.Restart?
    requires forall k: Kind :: s'.sh.cache.Root(k).Keys == x.s.sh.cache.Root(k).Keys
    ensures Section(w, parse, x, l, [x.d], [], Both(s', x.d))
  {
  }

  // ---- names ----

  lemma NameIsFiled(d: P.Disk, k: Kind, id: Id)
    requires P.RootHomed(d, k) && id in d.fs.Root(k).now
    ensures DP.HomedAs(d, d.fs.Root(k).now[id], k, id)
    ensures var n := d.fs.Root(k).now[id]; DP.FiledAs(d, n, d.homes[n].filing) && P.InPlace(d.fs, n, d.homes[n].filing)
  {
    assert d.fs.Root(k).Possible(id, Some(d.fs.Root(k).now[id]));
  }

  /** What a name leads to after a stretch of work it led to before, or it was staged. */
  lemma NameAfterWork(d: P.Disk, d': P.Disk, granted: P.Filing -> bool, condemned: P.NodeNo -> bool, k: Kind, id: Id)
    requires DP.Worked(d, d', granted, condemned) && P.RootHomed(d', k) && id in d'.fs.Root(k).now
    ensures var n := d'.fs.Root(k).now[id];
      && n in d'.homes && d'.homes[n].Filed? && d'.homes[n].filing.k == k && d'.homes[n].filing.id == id
      && (granted(d'.homes[n].filing) || (DP.FiledAs(d, n, d'.homes[n].filing) && d.fs.Root(k).At(id) == Some(n)))
  {
    NameIsFiled(d', k, id);
    var n := d'.fs.Root(k).now[id];
    assert DP.FiledAs(d', n, d'.homes[n].filing);
  }

  /** The name leads to the same directory, filed as the same. */
  ghost predicate SameDirectory(d: P.Disk, d': P.Disk, k: Kind, id: Id) {
    && id in d.fs.Root(k).now && id in d'.fs.Root(k).now
    && var n := d.fs.Root(k).now[id];
       d'.fs.Root(k).now[id] == n && n in d.homes && n in d'.homes && d'.homes[n] == d.homes[n]
  }

  ghost predicate OnlyNew(c: Cache, carried: P.Filing -> bool) { forall g :: carried(g) ==> g.id !in c.Root(g.k) }

  /** A name in use is never given to another directory. */
  lemma KeptLeads(c: Cache, d: P.Disk, d': P.Disk, carried: P.Filing -> bool, condemned: P.NodeNo -> bool, k: Kind,
                  id: Id)
    requires OnlyNew(c, carried) && Agree(c, d) && DP.Worked(d, d', carried, condemned) && P.RootHomed(d', k)
    requires id in c.Root(k) && id in d'.fs.Root(k).now
    ensures SameDirectory(d, d', k, id)
  {
    NameAfterWork(d, d', carried, condemned, k, id);
    assert Backs(d, k, id, c.Root(k)[id]);
  }

  lemma NameStays(parse: P.Parser, c: Cache, c': Cache, d: P.Disk, d': P.Disk, states: seq<P.Disk>, acts: seq<P.Act>,
                  carried: P.Filing -> bool, k: Kind, id: Id)
    requires Calls(parse, c, c', d, d', states, acts, carried) && DP.Sound(parse, d) && SameNames(c, d) && DoomedGone(d)
    requires DP.Worked(d, d', carried, Unlisted(c', d')) && id in c'.Root(k)
    ensures id in d'.fs.Root(k).now
  {
    if id in c.Root(k) {
      NameIsFiled(d, k, id);
      assert DP.FiledAs(d', d.fs.Root(k).now[id], d.homes[d.fs.Root(k).now[id]].filing);
    } else {
      var n := DP.MovedIsThere(parse, states, acts, carried, Unlisted(c', d'), k, id);
    }
  }

  lemma NameGoes(parse: P.Parser, c: Cache, c': Cache, d: P.Disk, d': P.Disk, states: seq<P.Disk>, acts: seq<P.Act>,
                 carried: P.Filing -> bool, k: Kind, id: Id)
    requires Calls(parse, c, c', d, d', states, acts, carried) && DP.Sound(parse, d) && SameNames(c, d)
    requires DP.Worked(d, d', carried, Unlisted(c', d')) && P.RootHomed(d', k) && id in d'.fs.Root(k).now
    ensures id in c'.Root(k)
  {
    NameAfterWork(d, d', carried, Unlisted(c', d'), k, id);
    var n := d'.fs.Root(k).now[id];
    if id !in c'.Root(k) {
      DP.RemovedIsGone(parse, states, acts, carried, Unlisted(c', d'), n, d'.homes[n].filing);
      assert false;
    }
  }

  /** After its calls the disk has the names of the new cache. */
  lemma CallsAgree(parse: P.Parser, c: Cache, c': Cache, d: P.Disk, d': P.Disk, states: seq<P.Disk>, acts: seq<P.Act>,
                   carried: P.Filing -> bool)
    requires Calls(parse, c, c', d, d', states, acts, carried) && DP.Sound(parse, d) && SameNames(c, d) && DoomedGone(d)
    ensures DP.Sound(parse, d') && DP.Worked(d, d', carried, Unlisted(c', d')) && SameNames(c', d') && DoomedGone(d')
  {
    DP.WorkDone(parse, states, acts, carried, Unlisted(c', d'));
    forall k: Kind, id: Id ensures id in c'.Root(k) <==> id in d'.fs.Root(k).now {
      RootsHomed(parse, d', k);
      if id in c'.Root(k) { NameStays(parse, c, c', d, d', states, acts, carried, k, id); }
      if id in d'.fs.Root(k).now { NameGoes(parse, c, c', d, d', states, acts, carried, k, id); }
    }
    DoomedAfterWork(c', d, d', carried);
  }

  // ---- contents ----

  lemma KeptBacks(w: World, parse: P.Parser, x: Both, l: Label, x': Both, carried: P.Filing -> bool,
                  condemned: P.NodeNo -> bool,
                  k: Kind, id: Id)
    requires Joined(w, parse, x) && Step(w, x.s, l, x'.s) && !l.Restart? && OnlyNew(x.s.sh.cache, carried)
    requires DP.Worked(x.d, x'.d, carried, condemned) && P.RootHomed(x'.d, k)
    requires id in x.s.sh.cache.Root(k) && id in x'.s.sh.cache.Root(k) && id in x'.d.fs.Root(k).now
    ensures Backs(x'.d, k, id, x'.s.sh.cache.Root(k)[id])
  {
    StepBinds(w, x.s, l, x'.s, k, id);
    KeptLeads(x.s.sh.cache, x.d, x'.d, carried, condemned, k, id);
    assert Backs(x.d, k, id, x.s.sh.cache.Root(k)[id]);
  }

  lemma NewIsPublished(w: World, s: State, l: Label, s': State, k: Kind, id: Id)
    requires Step(w, s, l, s') && !l.Restart? && id !in s.sh.cache.Root(k) && id in s'.sh.cache.Root(k)
    ensures l.Do? && Publishes(l.a, k, id) && SameContent(l.a.entry, s'.sh.cache.Root(k)[id])
  {
    StepEvolves(w, s, l, s');
  }

  lemma StagedBacks(w: World, s: State, c': Cache, d: P.Disk, d': P.Disk, condemned: P.NodeNo -> bool, k: Kind, id: Id,
                    t: Tid, e: Entry, e': Entry)
    requires StagingFine(w, s) && t in s.threads && FilingOf(s.threads[t]).Some?
    requires FilingOf(s.threads[t]).value.id == id
    requires IsFiled(e, FilingOf(s.threads[t]).value) && SameContent(e, e')
    requires DP.Worked(d, d', Carried(s, c'), condemned) && P.RootHomed(d', k) && id !in d.fs.Root(k).now
    requires id in d'.fs.Root(k).now
    ensures Backs(d', k, id, e')
  {
    NameAfterWork(d, d', Carried(s, c'), condemned, k, id);
    var g := d'.homes[d'.fs.Root(k).now[id]].filing;
    assert Underway(s)(g);
    var u :| u in s.threads && FilingOf(s.threads[u]) == Some(g);
    assert SameFiling(s.threads[t], s.threads[u]);
  }

  lemma NewBacks(w: World, parse: P.Parser, x: Both, l: Label, x': Both, condemned: P.NodeNo -> bool, k: Kind, id: Id)
    requires Joined(w, parse, x) && Step(w, x.s, l, x'.s) && !l.Restart?
    requires DP.Worked(x.d, x'.d, Carried(x.s, x'.s.sh.cache), condemned) && P.RootHomed(x'.d, k)
    requires id !in x.s.sh.cache.Root(k) && id in x'.s.sh.cache.Root(k) && id in x'.d.fs.Root(k).now
    ensures Backs(x'.d, k, id, x'.s.sh.cache.Root(k)[id])
  {
    NewIsPublished(w, x.s, l, x'.s, k, id);
    PublishedIsStaged(w, x.s.sh.settings, x.s.threads[l.t], l.a, l.p, k, id);
    assert id !in x.d.fs.Root(k).now;
    StagedBacks(w, x.s, x'.s.sh.cache, x.d, x'.d, condemned, k, id, l.t, l.a.entry, x'.s.sh.cache.Root(k)[id]);
  }

  lemma NextGrows(w: World, s: State, l: Label, s': State)
    requires Step(w, s, l, s')
    ensures s.sh.next <= s'.sh.next
  {
  }

  lemma GoodAfterWork(w: World, s: State, next': nat, d: P.Disk, d': P.Disk, carried: P.Filing -> bool,
                      condemned: P.NodeNo -> bool)
    requires StagingFine(w, s) && AllGood(w, s.sh.next, d) && DP.Worked(d, d', carried, condemned) && s.sh.next <= next'
    requires forall g :: carried(g) ==> Underway(s)(g)
    ensures AllGood(w, next', d')
  {
    forall n, g | DP.FiledAs(d', n, g) ensures Good(w, next', g) {
      if DP.FiledAs(d, n, g) {
        assert Good(w, s.sh.next, g);
      } else {
        assert Underway(s)(g);
        var t :| t in s.threads && FilingOf(s.threads[t]) == Some(g);
        assert StagedWell(w, s, g);
      }
    }
  }

  lemma DoomedAfterWork(c': Cache, d: P.Disk, d': P.Disk, granted: P.Filing -> bool)
    requires DoomedGone(d) && DP.Worked(d, d', granted, Unlisted(c', d')) && SameNames(c', d')
    ensures DoomedGone(d')
  {
    forall n | n in d'.doomed ensures n in d'.homes && d'.homes[n].Filed? && !P.InPlace(d'.fs, n, d'.homes[n].filing) {
      if n in d.doomed { assert DP.FiledAs(d, n, d.homes[n].filing) && DP.FiledAs(d', n, d.homes[n].filing); }
    }
  }

  lemma SectionBacks(w: World, parse: P.Parser, x: Both, l: Label, x': Both, condemned: P.NodeNo -> bool)
    requires Joined(w, parse, x) && Step(w, x.s, l, x'.s) && !l.Restart?
    requires DP.Worked(x.d, x'.d, Carried(x.s, x'.s.sh.cache), condemned) && P.Consistent(parse, x'.d)
    requires SameNames(x'.s.sh.cache, x'.d)
    ensures Agree(x'.s.sh.cache, x'.d)
  {
    forall k: Kind, id: Id | id in x'.s.sh.cache.Root(k) ensures Backs(x'.d, k, id, x'.s.sh.cache.Root(k)[id]) {
      RootsHomed(parse, x'.d, k);
      if id in x.s.sh.cache.Root(k) {
        KeptBacks(w, parse, x, l, x', Carried(x.s, x'.s.sh.cache), condemned, k, id);
      } else {
        NewBacks(w, parse, x, l, x', condemned, k, id);
      }
    }
  }

  /** Every step of the service keeps the cache and the disk in agreement. */
  lemma SectionKeeps(w: World, parse: P.Parser, x: Both, l: Label, states: seq<P.Disk>, acts: seq<P.Act>, x': Both)
    requires ServiceSafety.Sound(w) && Coupled(w, parse, x) && Section(w, parse, x, l, states, acts, x')
    ensures Coupled(w, parse, x')
  {
    StepKeeps(w, x.s, l, x'.s);
    StagingIsFine(w, x'.s);
    SectionJoins(w, parse, x, l, states, acts, x');
  }

  lemma SectionJoins(w: World, parse: P.Parser, x: Both, l: Label, states: seq<P.Disk>, acts: seq<P.Act>, x': Both)
    requires Joined(w, parse, x) && Section(w, parse, x, l, states, acts, x') && StagingFine(w, x'.s)
    ensures Joined(w, parse, x')
  {
    var carried, condemned := Carried(x.s, x'.s.sh.cache), Unlisted(x'.s.sh.cache, x'.d);
    CallsAgree(parse, x.s.sh.cache, x'.s.sh.cache, x.d, x'.d, states, acts, carried);
    SectionBacks(w, parse, x, l, x', condemned);
    NextGrows(w, x.s, l, x'.s);
    GoodAfterWork(w, x.s, x'.s.sh.next, x.d, x'.d, carried, condemned);
  }

  lemma RootsHomed(parse: P.Parser, d: P.Disk, k: Kind)
    requires P.Consistent(parse, d)
    ensures P.RootHomed(d, k)
  {
  }
}
