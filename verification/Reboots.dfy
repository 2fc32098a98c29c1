/** Deaths of the process, wherever they come: in the calls of a step, in the recovery of the process that
    follows, in its startup cleanup, again and again; and the process that comes up at last. */
module Reboots {
  import opened Basics
  import opened Model
  import opened CacheSpec
  import opened CacheInvariants
  import opened Service
  import opened ServiceInvariants
  import opened ServiceSafety
  import opened ServiceRuns
  import opened Together
  import P = Publication
  import PI = PublicationInvariant
  import DP = DiskPaths

  /** The cache that a disk shows. */
  function Shown(parse: P.Parser, fs: P.Fs): Cache {
    Cache(map id | id in fs.sources.now :: P.EntryIn(parse, fs, fs.sources.now[id]),
          map id | id in fs.results.now :: P.EntryIn(parse, fs, fs.results.now[id]), map[], map[])
  }

  // The last calls of the old process; its death and whatever starts and dies after it, until one
  // process has emptied tmp; the checks of this one; the removals of its startup cleanup.
  datatype Death = Death(
    calls: seq<P.Disk>, callActs: seq<P.Act>,
    outage: seq<P.Disk>, outageActs: seq<P.Act>,
    checks: seq<P.Disk>, checkActs: seq<P.Act>,
    cleaning: seq<P.Disk>, cleaningActs: seq<P.Act>)

  /** A directory whose name nobody leases. */
  ghost function Unleased(c: Cache, d: P.Disk): P.NodeNo -> bool {
    (n: P.NodeNo) => n in d.homes && d.homes[n].Filed? && !c.Leased(d.homes[n].filing.id)
  }

  function NoFiling(): P.Filing -> bool { (g: P.Filing) => false }

  ghost predicate Dies(parse: P.Parser, x: Both, death: Death) {
    && |death.calls| == |death.callActs| + 1
    && var last := death.calls[|death.callActs|];
       && DP.Work(parse, death.calls, death.callActs, Underway(x.s), Unleased(x.s.sh.cache, last))
       && death.calls[0] == x.d
       && DP.Outage(parse, death.outage, death.outageActs) && death.outage[0] == last
  }

  /** From the last checks on: what passes them stays, and the startup cleanup makes its removals. */
  ghost predicate ComesUp(parse: P.Parser, death: Death, before: P.Disk, d': P.Disk, c': Cache) {
    && DP.Checks(parse, death.checks, death.checkActs) && death.checks[0] == before
    && Calls(parse, Recover(Shown(parse, before.fs)), c', death.checks[|death.checkActs|], d',
             death.cleaning, death.cleaningActs, NoFiling())
  }

  /** A process that dies in the middle of any calls, others that die while they start, and the first that
      gets to the end of prepare(). */
  ghost predicate Reboot(parse: P.Parser, x: Both, death: Death, settings: Settings, first: Env, second: Env, x': Both)
  {
    && Dies(parse, x, death)
    && var before := death.outage[|death.outageActs|];
       && ComesUp(parse, death, before, x'.d, x'.s.sh.cache)
       && StartsFrom(x.s, settings, Shown(parse, before.fs), first, second, x'.s)
  }

  /** The disk when the old process dies, and when the last checks begin. */
  function AtDeath(death: Death): P.Disk
    requires |death.calls| == |death.callActs| + 1
  {
    death.calls[|death.callActs|]
  }

  function AtChecks(death: Death): P.Disk
    requires |death.outage| == |death.outageActs| + 1
  {
    death.outage[|death.outageActs|]
  }

  // ---- what the deaths leave ----

  lemma SameHomesGood(w: World, next: nat, d: P.Disk, d': P.Disk)
    requires AllGood(w, next, d) && d'.homes == d.homes
    ensures AllGood(w, next, d')
  {
    forall n, g | DP.FiledAs(d', n, g) ensures Good(w, next, g) { assert DP.FiledAs(d, n, g); }
  }

  lemma LastCalls(w: World, parse: P.Parser, x: Both, death: Death)
    requires Joined(w, parse, x) && Dies(parse, x, death)
    ensures DP.Sound(parse, AtDeath(death)) && AllGood(w, x.s.sh.next, AtDeath(death))
    ensures DP.Worked(x.d, AtDeath(death), Underway(x.s), Unleased(x.s.sh.cache, AtDeath(death)))
  {
    var condemned := Unleased(x.s.sh.cache, AtDeath(death));
    DP.WorkDone(parse, death.calls, death.callActs, Underway(x.s), condemned);
    GoodAfterWork(w, x.s, x.s.sh.next, x.d, AtDeath(death), Underway(x.s), condemned);
  }

  /** Everything filed is good, and tmp is empty. */
  ghost predicate Waiting(w: World, parse: P.Parser, next: nat, last: P.Disk, before: P.Disk) {
    P.Consistent(parse, before) && AllGood(w, next, before) && before.homes == last.homes
  }

  lemma OutageOver(w: World, parse: P.Parser, next: nat, states: seq<P.Disk>, acts: seq<P.Act>)
    requires DP.Outage(parse, states, acts) && DP.Sound(parse, states[0]) && AllGood(w, next, states[0])
    ensures Waiting(w, parse, next, states[0], states[|acts|])
  {
    DP.OutageEnds(parse, states, acts);
    SameHomesGood(w, next, states[0], states[|acts|]);
  }

  /** What dying processes may leave: everything filed is good, whatever they were about. */
  lemma DeathKeeps(w: World, parse: P.Parser, x: Both, death: Death)
    requires Joined(w, parse, x) && Dies(parse, x, death)
    ensures Waiting(w, parse, x.s.sh.next, AtDeath(death), AtChecks(death))
  {
    LastCalls(w, parse, x, death);
    OutageOver(w, parse, x.s.sh.next, death.outage, death.outageActs);
  }

  lemma ValidByContent(w: World, g: P.Filing, e: Entry, e0: Entry)
    requires IsFiled(e0, g) && ValidEntry(w, g.k, g.id, e0) && IsFiled(e, g) && !Malformed(e)
    requires Recoverable(g.k, g.id, e)
    ensures ValidEntry(w, g.k, g.id, e)
  {
  }

  /** What passes the checks shows what was filed under its name. */
  lemma PassingIsFiled(parse: P.Parser, d: P.Disk, k: Kind, id: Id)
    requires P.Consistent(parse, d) && DP.Passes(parse, d.fs, k, id)
    ensures Backs(d, k, id, P.View(parse, d.fs, k, id)) && !Malformed(P.View(parse, d.fs, k, id))
  {
    NameIsFiled(d, k, id);
    var n := d.fs.Root(k).now[id];
    PI.RecoverableShows(parse, d.fs, n, d.homes[n].filing);
  }

  lemma PassingIsValid(w: World, next: nat, parse: P.Parser, d: P.Disk, k: Kind, id: Id)
    requires P.Consistent(parse, d) && AllGood(w, next, d) && DP.Passes(parse, d.fs, k, id)
    ensures ValidEntry(w, k, id, P.View(parse, d.fs, k, id))
  {
    PassingIsFiled(parse, d, k, id);
    var g := d.homes[d.fs.Root(k).now[id]].filing;
    assert DP.FiledAs(d, d.fs.Root(k).now[id], g);
    var e :| IsFiled(e, g) && ValidEntry(w, g.k, g.id, e);
    ValidByContent(w, g, P.View(parse, d.fs, k, id), e);
  }

  lemma NamesAreDrawn(w: World, next: nat, parse: P.Parser, d: P.Disk, n: nat)
    requires P.Consistent(parse, d) && AllGood(w, next, d) && ResUuid(n) in d.fs.Root(Result).now
    ensures n < next
  {
    NameIsFiled(d, Result, ResUuid(n));
    var node := d.fs.Root(Result).now[ResUuid(n)];
    assert DP.FiledAs(d, node, d.homes[node].filing);
  }

  lemma ShownIsFine(w: World, s: State, parse: P.Parser, d: P.Disk)
    requires P.Consistent(parse, d) && AllGood(w, s.sh.next, d)
    ensures DiskAfter(w, s, Shown(parse, d.fs))
  {
    var disk := Shown(parse, d.fs);
    forall id | id in disk.sources && Recoverable(Source, id, disk.sources[id])
      ensures ValidSource(w, id, disk.sources[id])
    {
      PassingIsValid(w, s.sh.next, parse, d, Source, id);
    }
    forall id | id in disk.results && Recoverable(Result, id, disk.results[id])
      ensures ValidResult(w, id, disk.results[id])
    {
      PassingIsValid(w, s.sh.next, parse, d, Result, id);
    }
    forall n: nat | ResUuid(n) in disk.results ensures n < s.sh.next {
      NamesAreDrawn(w, s.sh.next, parse, d, n);
    }
  }

  lemma DiskAfterDeath(w: World, parse: P.Parser, x: Both, death: Death)
    requires Joined(w, parse, x) && Dies(parse, x, death)
    ensures DiskAfter(w, x.s, Shown(parse, AtChecks(death).fs))
  {
    DeathKeeps(w, parse, x, death);
    ShownIsFine(w, x.s, parse, AtChecks(death));
  }

  /** Deaths at any calls, by kills or by power losses, in a step, in recovery or in the startup cleanup,
      are a restart as ServiceRuns takes it: whatever passes the last checks was published here and is
      valid. */
  lemma RebootIsRestart(w: World, parse: P.Parser, x: Both, death: Death, settings: Settings, first: Env, second: Env,
                        x': Both)
    requires Joined(w, parse, x) && Reboot(parse, x, death, settings, first, second, x')
    ensures Restarts(w, x.s, settings, Shown(parse, AtChecks(death).fs), first, second, x'.s)
  {
    DiskAfterDeath(w, parse, x, death);
  }

  // ---- the next process agrees with its disk ----

  lemma PreparedFromShown(settings: Settings, disk: Cache, first: Env, second: Env, k: Kind, id: Id)
    requires id in Prepared(settings, disk, first, second).Root(k)
    ensures id in disk.Root(k) && Recoverable(k, id, disk.Root(k)[id])
    ensures SameContent(disk.Root(k)[id], Prepared(settings, disk, first, second).Root(k)[id])
  {
    PreparedIsTame(settings, disk, first, second);
    assert Recover(disk.(leases := map[], staging := map[])).Root(k) == RecoverRoot(k, disk.Root(k));
  }

  /** After the checks exactly what passed is there, at the same directories. */
  ghost predicate LeavesPassing(parse: P.Parser, before: P.Disk, after: P.Disk) {
    && after.homes == before.homes
    && forall k: Kind, id: Id ::
        && (P.Visible(after.fs, k, id) <==> DP.Passes(parse, before.fs, k, id))
        && (P.Visible(after.fs, k, id) ==> after.fs.Root(k).now[id] == before.fs.Root(k).now[id])
  }

  lemma ChecksOver(parse: P.Parser, states: seq<P.Disk>, acts: seq<P.Act>)
    requires DP.Checks(parse, states, acts) && P.Consistent(parse, states[0])
    ensures LeavesPassing(parse, states[0], states[|acts|]) && DP.Sound(parse, states[|acts|])
    ensures states[|acts|].job == P.Idle && states[|acts|].doomed == {}
  {
    DP.RecoveryEnds(parse, states, acts);
    forall k: Kind, id: Id
      ensures P.Visible(states[|acts|].fs, k, id) <==> DP.Passes(parse, states[0].fs, k, id)
      ensures P.Visible(states[|acts|].fs, k, id) ==> states[|acts|].fs.Root(k).now[id] == states[0].fs.Root(k).now[id]
    {
      DP.RecoveryLeaves(parse, states, acts, k, id);
    }
  }

  lemma PassingNames(parse: P.Parser, before: P.Disk, after: P.Disk)
    requires LeavesPassing(parse, before, after)
    ensures SameNames(Recover(Shown(parse, before.fs)), after)
  {
    forall k: Kind, id: Id ensures id in Recover(Shown(parse, before.fs)).Root(k) <==> id in after.fs.Root(k).now {
      RecoverShown(parse, before.fs, k, id);
      assert P.Visible(after.fs, k, id) <==> DP.Passes(parse, before.fs, k, id);
    }
  }

  lemma RecoverShown(parse: P.Parser, fs: P.Fs, k: Kind, id: Id)
    ensures id in Recover(Shown(parse, fs)).Root(k) <==> DP.Passes(parse, fs, k, id)
    ensures DP.Passes(parse, fs, k, id) ==> Recover(Shown(parse, fs)).Root(k)[id] == P.View(parse, fs, k, id)
  {
    if P.Visible(fs, k, id) { assert Shown(parse, fs).Root(k)[id] == P.View(parse, fs, k, id); }
  }

  /** The new process's disk and cache: what passed, less what the startup cleanup evicts. */
  ghost predicate Started(parse: P.Parser, before: P.Disk, after: P.Disk, d': P.Disk, c': Cache) {
    && P.Consistent(parse, before) && LeavesPassing(parse, before, after)
    && DP.Worked(after, d', NoFiling(), Unlisted(c', d')) && P.Consistent(parse, d') && SameNames(c', d')
  }

  /** The disk's side of a start. */
  lemma DiskComesUp(w: World, parse: P.Parser, next: nat, death: Death, before: P.Disk, d': P.Disk, c': Cache)
    requires ComesUp(parse, death, before, d', c') && P.Consistent(parse, before) && AllGood(w, next, before)
    ensures Started(parse, before, death.checks[|death.checkActs|], d', c')
    ensures DP.Sound(parse, d') && AllGood(w, next, d') && DoomedGone(d')
  {
    var after := death.checks[|death.checkActs|];
    ChecksOver(parse, death.checks, death.checkActs);
    PassingNames(parse, before, after);
    CallsAgree(parse, Recover(Shown(parse, before.fs)), c', after, d', death.cleaning, death.cleaningActs, NoFiling());
    SameHomesGood(w, next, before, after);
    forall n, g | DP.FiledAs(d', n, g) ensures Good(w, next, g) { assert DP.FiledAs(after, n, g); }
  }

  /** An entry as it was when the last checks began, at the same directory. */
  ghost predicate AsChecked(parse: P.Parser, before: P.Disk, d': P.Disk, k: Kind, id: Id, e': Entry) {
    DP.Passes(parse, before.fs, k, id) && Backs(d', k, id, e') && SameDirectory(before, d', k, id)
  }

  lemma StartedAt(parse: P.Parser, before: P.Disk, after: P.Disk, d': P.Disk, c': Cache, k: Kind, id: Id, e': Entry)
    requires Started(parse, before, after, d', c') && id in c'.Root(k) && DP.Passes(parse, before.fs, k, id)
    requires SameContent(P.View(parse, before.fs, k, id), e')
    ensures AsChecked(parse, before, d', k, id, e')
  {
    PassingIsFiled(parse, before, k, id);
    RootsHomed(parse, d', k);
    NameAfterWork(after, d', NoFiling(), Unlisted(c', d'), k, id);
  }

  lemma CameFrom(parse: P.Parser, before: P.Disk, after: P.Disk, d': P.Disk, c': Cache, settings: Settings, first: Env,
                 second: Env,
                 k: Kind, id: Id)
    requires Started(parse, before, after, d', c') && id in c'.Root(k)
    requires c' == Prepared(settings, Shown(parse, before.fs), first, second)
    ensures AsChecked(parse, before, d', k, id, c'.Root(k)[id])
  {
    PreparedFromShown(settings, Shown(parse, before.fs), first, second, k, id);
    assert Shown(parse, before.fs).Root(k)[id] == P.View(parse, before.fs, k, id);
    StartedAt(parse, before, after, d', c', k, id, c'.Root(k)[id]);
  }

  lemma RebootStarted(w: World, parse: P.Parser, x: Both, death: Death, settings: Settings, first: Env, second: Env,
                      x': Both)
    requires Joined(w, parse, x) && Reboot(parse, x, death, settings, first, second, x')
    ensures Started(parse, AtChecks(death), death.checks[|death.checkActs|], x'.d, x'.s.sh.cache)
    ensures DP.Sound(parse, x'.d) && AllGood(w, x.s.sh.next, x'.d) && DoomedGone(x'.d)
  {
    DeathKeeps(w, parse, x, death);
    DiskComesUp(w, parse, x.s.sh.next, death, AtChecks(death), x'.d, x'.s.sh.cache);
  }

  lemma RebootAgrees(w: World, parse: P.Parser, x: Both, death: Death, settings: Settings, first: Env, second: Env,
                     x': Both)
    requires Joined(w, parse, x) && Reboot(parse, x, death, settings, first, second, x')
    ensures Agree(x'.s.sh.cache, x'.d)
  {
    RebootStarted(w, parse, x, death, settings, first, second, x');
    var after := death.checks[|death.checkActs|];
    forall k: Kind, id: Id | id in x'.s.sh.cache.Root(k) ensures Backs(x'.d, k, id, x'.s.sh.cache.Root(k)[id]) {
      CameFrom(parse, AtChecks(death), after, x'.d, x'.s.sh.cache, settings, first, second, k, id);
    }
  }

  /** After any number of deaths the new process agrees with its disk, as the old one did. */
  lemma RebootKeeps(w: World, parse: P.Parser, x: Both, death: Death, settings: Settings, first: Env, second: Env,
                    x': Both)
    requires Joined(w, parse, x) && Reboot(parse, x, death, settings, first, second, x')
    ensures Coupled(w, parse, x')
  {
    RebootIsRestart(w, parse, x, death, settings, first, second, x');
    RestartKeeps(w, x.s, settings, Shown(parse, AtChecks(death).fs), first, second, x'.s);
    StagingIsFine(w, x'.s);
    RebootStarted(w, parse, x, death, settings, first, second, x');
    RebootAgrees(w, parse, x, death, settings, first, second, x');
  }

  // ---- a reboot of any agreeing pair ----

  lemma PlacedPass(w: World, parse: P.Parser, x: Both, k: Kind, id: Id)
    requires Joined(w, parse, x) && P.Visible(x.d.fs, k, id)
    ensures DP.Passes(parse, x.d.fs, k, id)
  {
    NameIsFiled(x.d, k, id);
    var n := x.d.fs.Root(k).now[id];
    DP.PlacedIsKept(parse, x.d, n, x.d.homes[n].filing);
    DP.WholeShows(parse, x.d, n, x.d.homes[n].filing);
  }

  lemma KilledDies(w: World, parse: P.Parser, x: Both, death: Death, killed: P.Disk, emptied: P.Disk)
    requires Joined(w, parse, x) && x.d.fs.tmp.now == map[]
    requires killed == x.d.(doomed := {}, job := P.RecoverTmp(false))
    requires emptied == killed.(job := P.RecoverRoots(false))
    requires death.calls == [x.d] && death.callActs == []
    requires death.outage == [x.d, killed, emptied] && death.outageActs == [P.Kill, P.TmpEmpty]
    ensures Dies(parse, x, death)
  {
    assert P.DiskStep(parse, x.d, P.Kill, killed) && P.DiskStep(parse, killed, P.TmpEmpty, emptied);
  }

  lemma UpAgain(parse: P.Parser, c: Cache, death: Death, emptied: P.Disk, up: P.Disk, c': Cache)
    requires emptied.job == P.RecoverRoots(false) && up == emptied.(job := P.Idle) && SameNames(c, emptied)
    requires forall k: Kind, id: Id :: P.Visible(emptied.fs, k, id) ==> DP.Passes(parse, emptied.fs, k, id)
    requires forall k: Kind :: c'.Root(k).Keys == c.Root(k).Keys
    requires death.checks == [emptied, up] && death.checkActs == [P.Recovered] && death.cleaning == [up]
    requires death.cleaningActs == []
    ensures ComesUp(parse, death, emptied, up, c')
  {
    assert P.DiskStep(parse, emptied, P.Recovered, up);
    forall k: Kind, id: Id ensures id in Recover(Shown(parse, emptied.fs)).Root(k) <==> id in c'.Root(k) {
      RecoverShown(parse, emptied.fs, k, id);
      assert id in c'.Root(k) <==> id in c'.Root(k).Keys;
    }
  }

  /** A process that is killed with tmp empty comes up again, whatever it was about, on all it had
      committed, if its startup cleanup evicts nothing. */
  lemma KilledComesUp(w: World, parse: P.Parser, x: Both, settings: Settings, first: Env, second: Env, s': State)
    returns (death: Death)
    requires Joined(w, parse, x) && x.d.fs.tmp.now == map[]
    requires StartsFrom(x.s, settings, Shown(parse, x.d.fs), first, second, s')
    requires forall k: Kind :: s'.sh.cache.Root(k).Keys == x.s.sh.cache.Root(k).Keys
    ensures |death.cleaning| == 1 && Reboot(parse, x, death, settings, first, second, Both(s', death.cleaning[0]))
  {
    var killed := x.d.(doomed := {}, job := P.RecoverTmp(false));
    var emptied := killed.(job := P.RecoverRoots(false));
    var up := killed.(job := P.Idle);
    forall k: Kind, id: Id | P.Visible(x.d.fs, k, id)
      ensures DP.Passes(parse, x.d.fs, k, id)
    {
      PlacedPass(w, parse, x, k, id);
    }
    death := Death([x.d], [], [x.d, killed, emptied], [P.Kill, P.TmpEmpty], [emptied, up], [P.Recovered], [up], []);
    KilledDies(w, parse, x, death, killed, emptied);
    UpAgain(parse, x.s.sh.cache, death, emptied, up, s'.sh.cache);
  }
}
