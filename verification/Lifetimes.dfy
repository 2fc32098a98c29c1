/** Runs of the service and its disk together, through any number of deaths: what an entry may count
    on, and how a name can come to mean something else. */
module Lifetimes {
  import opened Basics
  import opened Model
  import opened CacheSpec
  import opened CacheInvariants
  import opened Service
  import opened ServiceInvariants
  import opened ServiceSafety
  import opened ServiceRuns
  import opened Together
  import opened Reboots
  import P = Publication
  import CS = CrashSafety
  import Incarnations
  import DP = DiskPaths

  // ---- what an entry may count on ----

  /** One entry shows the record of another, and the data under it. */
  predicate SameData(e: Entry, e': Entry) {
    && e.manifest.record.Some? && e'.manifest.record == e.manifest.record
    && e'.manifest.scope == e.manifest.scope && e'.manifest.source == e.manifest.source
    && var file := DataFile(e.manifest.record.value);
       file in e.files && file in e'.files && e'.files[file] == e.files[file]
  }

  // What the last calls of the old process have done to a committed entry.
  ghost predicate StillThere(c: Cache, d: P.Disk, last: P.Disk, k: Kind, id: Id) {
    && id in c.Root(k) && Backs(d, k, id, c.Root(k)[id])
    && var n := d.fs.Root(k).now[id];
       && n in last.homes && last.homes[n] == d.homes[n]
       && DP.Leads(last, k, id, n)
       && (n !in last.doomed ==> last.fs.Root(k).At(id) == Some(n))
       && (c.Leased(id) ==> n !in last.doomed)
  }

  lemma WorkKeepsHome(c: Cache, d: P.Disk, last: P.Disk, carried: P.Filing -> bool, n: P.NodeNo, g: P.Filing)
    requires DoomedGone(d) && DP.Worked(d, last, carried, Unleased(c, last)) && DP.FiledAs(d, n, g)
    requires P.InPlace(d.fs, n, g)
    ensures DP.FiledAs(last, n, g) && (n !in last.doomed ==> P.InPlace(last.fs, n, g))
    ensures (c.Leased(g.id) ==> n !in last.doomed)
  {
  }

  lemma WorkLeaves(c: Cache, d: P.Disk, last: P.Disk, carried: P.Filing -> bool, k: Kind, id: Id)
    requires OnlyNew(c, carried) && Agree(c, d) && DoomedGone(d)
    requires DP.Worked(d, last, carried, Unleased(c, last)) && P.RootHomed(last, k)
    requires id in c.Root(k)
    ensures StillThere(c, d, last, k, id)
  {
    var n := d.fs.Root(k).now[id];
    assert Backs(d, k, id, c.Root(k)[id]);
    assert DP.FiledAs(d, n, d.homes[n].filing) && P.InPlace(d.fs, n, d.homes[n].filing);
    WorkKeepsHome(c, d, last, carried, n, d.homes[n].filing);
    if id in last.fs.Root(k).now { KeptLeads(c, d, last, carried, Unleased(c, last), k, id); }
  }

  lemma UnderwayIsNew(w: World, s: State)
    requires StagingFine(w, s)
    ensures OnlyNew(s.sh.cache, Underway(s))
  {
    forall g | Underway(s)(g) ensures g.id !in s.sh.cache.Root(g.k) {
      var t :| t in s.threads && FilingOf(s.threads[t]) == Some(g);
      assert StagedWell(w, s, g);
    }
  }

  lemma EntryAtDeath(w: World, parse: P.Parser, x: Both, death: Death, k: Kind, id: Id)
    requires Joined(w, parse, x) && Dies(parse, x, death) && id in x.s.sh.cache.Root(k)
    ensures StillThere(x.s.sh.cache, x.d, AtDeath(death), k, id) && DP.Sound(parse, AtDeath(death))
    ensures Incarnations.Normal(AtDeath(death))
  {
    LastCalls(w, parse, x, death);
    RootsHomed(parse, AtDeath(death), k);
    UnderwayIsNew(w, x.s);
    WorkLeaves(x.s.sh.cache, x.d, AtDeath(death), Underway(x.s), k, id);
  }

  /** The entry is held: no start evicts it, and its commit has returned, or no power is lost and its removal
      has not begun when the process dies, as when somebody leases it. */
  ghost predicate EntryHeld(c: Cache, d: P.Disk, states: seq<P.Disk>, acts: seq<P.Act>, k: Kind, id: Id)
    requires |states| == |acts| + 1
  {
    && id in d.fs.Root(k).now
    && var n := d.fs.Root(k).now[id];
       && P.Doom(n) !in acts
       && (n in states[0].live ||
           ((n !in states[0].doomed || c.Leased(id)) && forall m :: 0 <= m < |acts| ==> !acts[m].Crash?))
  }

  lemma HeldPasses(parse: P.Parser, c: Cache, d: P.Disk, states: seq<P.Disk>, acts: seq<P.Act>, k: Kind, id: Id)
    requires DP.Outage(parse, states, acts) && DP.Sound(parse, states[0]) && Incarnations.Normal(states[0])
    requires StillThere(c, d, states[0], k, id) && EntryHeld(c, d, states, acts, k, id)
    ensures DP.StillPasses(parse, states[|acts|], d.fs.Root(k).now[id], d.homes[d.fs.Root(k).now[id]].filing)
  {
    var n := d.fs.Root(k).now[id];
    DP.HeldThrough(parse, states, acts, n, d.homes[n].filing);
  }

  /** The entry is in the cache that recovery makes of a disk, with its record and data. */
  ghost predicate Recovers(c: Cache, disk: Cache, k: Kind, id: Id) {
    id in c.Root(k) && id in Recover(disk).Root(k) && SameData(c.Root(k)[id], Recover(disk).Root(k)[id])
  }

  lemma FiledRecovers(parse: P.Parser, c: Cache, d: P.Disk, last: P.Disk, before: P.Disk, k: Kind, id: Id)
    requires StillThere(c, d, last, k, id) && P.Consistent(parse, before)
    requires var n := d.fs.Root(k).now[id]; DP.StillPasses(parse, before, n, d.homes[n].filing)
    ensures Recovers(c, Shown(parse, before.fs), k, id)
  {
    PassingIsFiled(parse, before, k, id);
    RecoverShown(parse, before.fs, k, id);
  }

  /** Who survives deaths: an entry whose commit has returned survives any losses of power; kills take none
      but what was being removed, and nothing that is leased; a start that is cut short may have evicted
      some. What survives has the record and the data it had; the startup cleanup starts from it. */
  lemma SurvivesDeath(w: World, parse: P.Parser, x: Both, death: Death, settings: Settings, first: Env, second: Env,
                      x': Both,
                      k: Kind, id: Id)
    requires Joined(w, parse, x) && Reboot(parse, x, death, settings, first, second, x')
    requires id in x.s.sh.cache.Root(k) && EntryHeld(x.s.sh.cache, x.d, death.outage, death.outageActs, k, id)
    ensures Recovers(x.s.sh.cache, Shown(parse, AtChecks(death).fs), k, id)
  {
    EntryAtDeath(w, parse, x, death, k, id);
    HeldRecovers(parse, x.s.sh.cache, x.d, death.outage, death.outageActs, k, id);
  }

  lemma HeldRecovers(parse: P.Parser, c: Cache, d: P.Disk, states: seq<P.Disk>, acts: seq<P.Act>, k: Kind, id: Id)
    requires DP.Outage(parse, states, acts) && DP.Sound(parse, states[0]) && Incarnations.Normal(states[0])
    requires StillThere(c, d, states[0], k, id) && EntryHeld(c, d, states, acts, k, id)
    ensures Recovers(c, Shown(parse, states[|acts|].fs), k, id)
  {
    HeldPasses(parse, c, d, states, acts, k, id);
    DP.OutageEnds(parse, states, acts);
    FiledRecovers(parse, c, d, states[0], states[|acts|], k, id);
  }

  // ---- how a name can come to mean something else ----

  /** The entry's directory, or one that displaces it. */
  ghost predicate SameOrDisplaced(parse: P.Parser, d: P.Disk, states: seq<P.Disk>, acts: seq<P.Act>, d': P.Disk,
                                  k: Kind, id: Id)
    requires |states| == |acts| + 1
  {
    && id in d.fs.Root(k).now
    && (SameDirectory(d, d', k, id) || DP.Displaced(parse, states, acts, k, id, d.fs.Root(k).now[id]))
  }

  lemma NameLeads(parse: P.Parser, c: Cache, d: P.Disk, states: seq<P.Disk>, acts: seq<P.Act>, d': P.Disk, k: Kind,
                  id: Id, e': Entry)
    requires DP.Outage(parse, states, acts) && DP.Sound(parse, states[0])
    requires StillThere(c, d, states[0], k, id) && AsChecked(parse, states[|acts|], d', k, id, e')
    ensures SameOrDisplaced(parse, d, states, acts, d', k, id)
  {
    var n := d.fs.Root(k).now[id];
    DP.OutageEnds(parse, states, acts);
    if states[|acts|].fs.Root(k).now[id] != n { DP.NameThrough(parse, states, acts, k, id, n, d.homes[n].filing); }
  }

  /** A name means after deaths what it meant before: the same directory with the same record and data. It
      can only be otherwise after a power loss that found the entry not committed in full and another
      directory able to come back under its name. */
  lemma DeathBinds(w: World, parse: P.Parser, x: Both, death: Death, settings: Settings, first: Env, second: Env,
                   x': Both,
                   k: Kind, id: Id)
    requires Joined(w, parse, x) && Reboot(parse, x, death, settings, first, second, x')
    requires id in x.s.sh.cache.Root(k) && id in x'.s.sh.cache.Root(k)
    ensures SameOrDisplaced(parse, x.d, death.outage, death.outageActs, x'.d, k, id)
  {
    EntryAtDeath(w, parse, x, death, k, id);
    RebootStarted(w, parse, x, death, settings, first, second, x');
    CameFrom(parse, AtChecks(death), death.checks[|death.checkActs|], x'.d, x'.s.sh.cache, settings, first, second, k,
             id);
    NameLeads(parse, x.s.sh.cache, x.d, death.outage, death.outageActs, x'.d, k, id, x'.s.sh.cache.Root(k)[id]);
  }

  // ---- runs through deaths ----

  datatype Turn =
    | Serve(l: Label, states: seq<P.Disk>, acts: seq<P.Act>)
    | Die(death: Death, settings: Settings, first: Env, second: Env)

  ghost predicate BothStep(w: World, parse: P.Parser, x: Both, turn: Turn, x': Both) {
    match turn
    case Serve(l, states, acts) => Section(w, parse, x, l, states, acts, x')
    case Die(death, settings, first, second) => Reboot(parse, x, death, settings, first, second, x')
  }

  ghost function BothSteps(w: World, parse: P.Parser): (Both, Turn, Both) -> bool {
    (x, turn, x') => BothStep(w, parse, x, turn, x')
  }

  /** A run of the service on its disk, from an empty one. */
  ghost predicate IsBothRun(w: World, parse: P.Parser, xs: seq<Both>, turns: seq<Turn>) {
    IsPath(xs, turns, BothSteps(w, parse)) && Init(xs[0].s) && P.Fresh(xs[0].d)
  }

  lemma BothKeeps(w: World, parse: P.Parser, x: Both, turn: Turn, x': Both)
    requires ServiceSafety.Sound(w) && Coupled(w, parse, x) && BothStep(w, parse, x, turn, x')
    ensures Coupled(w, parse, x')
  {
    match turn {
      case Serve(l, states, acts) => SectionKeeps(w, parse, x, l, states, acts, x');
      case Die(death, settings, first, second) => RebootKeeps(w, parse, x, death, settings, first, second, x');
    }
  }

  lemma FreshCoupled(w: World, parse: P.Parser, x: Both)
    requires Init(x.s) && P.Fresh(x.d)
    ensures Coupled(w, parse, x)
  {
    InitHolds(w, x.s);
    StagingIsFine(w, x.s);
  }

  /** In every run, through every death, cache and disk agree and everything filed is good. */
  lemma CoupledAlways(w: World, parse: P.Parser, xs: seq<Both>, turns: seq<Turn>, i: nat)
    requires ServiceSafety.Sound(w) && IsBothRun(w, parse, xs, turns) && i < |xs|
    ensures Coupled(w, parse, xs[i])
  {
    FreshCoupled(w, parse, xs[0]);
    var good: Both -> bool := x => Coupled(w, parse, x);
    forall x: Both, turn: Turn, x': Both | good(x) && BothSteps(w, parse)(x, turn, x') ensures good(x') {
      BothKeeps(w, parse, x, turn, x');
    }
    PathKeeps(xs, turns, BothSteps(w, parse), good, i);
  }

  lemma JoinedAlways(w: World, parse: P.Parser, xs: seq<Both>, turns: seq<Turn>, i: nat)
    requires ServiceSafety.Sound(w) && IsBothRun(w, parse, xs, turns) && i < |xs|
    ensures Joined(w, parse, xs[i])
  {
    CoupledAlways(w, parse, xs, turns, i);
  }

  // ---- what the service sees of such a run ----

  const EMPTY: P.Fs := P.Fs(map[], map[], P.Folder(map[], {}), P.Folder(map[], {}), P.Folder(map[], {}))

  /** Deaths as the service's own runs have them. */
  function LabelOf(parse: P.Parser, turn: Turn): Label {
    match turn
    case Serve(l, _, _) => l
    case Die(death, settings, first, second) =>
      Restart(settings, Shown(parse, if |death.outage| == |death.outageActs| + 1 then AtChecks(death).fs else EMPTY),
              first, second)
  }

  lemma RestartIsStep(w: World, s: State, settings: Settings, disk: Cache, first: Env, second: Env, s': State)
    requires Restarts(w, s, settings, disk, first, second, s')
    ensures Step(w, s, Restart(settings, disk, first, second), s')
  {
  }

  lemma DeathLabel(parse: P.Parser, death: Death, settings: Settings, first: Env, second: Env)
    requires |death.outage| == |death.outageActs| + 1
    ensures LabelOf(parse, Die(death, settings, first, second)) ==
        Restart(settings, Shown(parse, AtChecks(death).fs), first, second)
  {
  }

  lemma DeathIsStep(w: World, parse: P.Parser, x: Both, death: Death, settings: Settings, first: Env, second: Env,
                    x': Both)
    requires Joined(w, parse, x) && Reboot(parse, x, death, settings, first, second, x')
    ensures Step(w, x.s, LabelOf(parse, Die(death, settings, first, second)), x'.s)
  {
    RebootIsRestart(w, parse, x, death, settings, first, second, x');
    DeathLabel(parse, death, settings, first, second);
    RestartIsStep(w, x.s, settings, Shown(parse, AtChecks(death).fs), first, second, x'.s);
  }

  lemma TurnIsStep(w: World, parse: P.Parser, x: Both, turn: Turn, x': Both)
    requires Joined(w, parse, x) && BothStep(w, parse, x, turn, x')
    ensures Step(w, x.s, LabelOf(parse, turn), x'.s)
  {
    if turn.Die? { DeathIsStep(w, parse, x, turn.death, turn.settings, turn.first, turn.second, x'); }
  }

  function Serviced(xs: seq<Both>): (r: seq<State>)
    ensures |r| == |xs|
  {
    seq(|xs|, i requires 0 <= i < |xs| => xs[i].s)
  }

  function Labelled(parse: P.Parser, turns: seq<Turn>): (r: seq<Label>)
    ensures |r| == |turns|
  {
    seq(|turns|, i requires 0 <= i < |turns| => LabelOf(parse, turns[i]))
  }

  /** Every run on a disk, through kills and power losses at any call, is a run of ServiceRuns:
      whatever holds in all of those holds in it. */
  lemma RunIsRun(w: World, parse: P.Parser, xs: seq<Both>, turns: seq<Turn>)
    requires ServiceSafety.Sound(w) && IsBothRun(w, parse, xs, turns)
    ensures IsRun(w, Serviced(xs), Labelled(parse, turns))
  {
    var states, labels := Serviced(xs), Labelled(parse, turns);
    forall i | 0 <= i < |labels| ensures Steps(w)(states[i], labels[i], states[i + 1]) {
      JoinedAlways(w, parse, xs, turns, i);
      assert BothSteps(w, parse)(xs[i], turns[i], xs[i + 1]);
      TurnIsStep(w, parse, xs[i], turns[i], xs[i + 1]);
    }
  }

  // ---- what the disk sees of such a run ----

  lemma TurnIsPath(w: World, parse: P.Parser, x: Both, turn: Turn, x': Both) returns (states: seq<P.Disk>,
                   acts: seq<P.Act>)
    requires BothStep(w, parse, x, turn, x')
    ensures IsPath(states, acts, CS.DiskSteps(parse)) && states[0] == x.d && states[|acts|] == x'.d
  {
    match turn {
      case Serve(l, ss, aa) => states, acts := ss, aa;
      case Die(death, settings, first, second) => states, acts := DeathIsPath(parse, x, death, x'.d);
    }
  }

  lemma DeathIsPath(parse: P.Parser, x: Both, death: Death, d': P.Disk) returns (states: seq<P.Disk>, acts: seq<P.Act>)
    requires Dies(parse, x, death) && DP.Checks(parse, death.checks, death.checkActs)
    requires death.checks[0] == AtChecks(death)
    requires IsPath(death.cleaning, death.cleaningActs, CS.DiskSteps(parse))
    requires death.cleaning[0] == death.checks[|death.checkActs|] && death.cleaning[|death.cleaningActs|] == d'
    ensures IsPath(states, acts, CS.DiskSteps(parse)) && states[0] == x.d && states[|acts|] == d'
  {
    var step := CS.DiskSteps(parse);
    PathConcat(death.checks, death.checkActs, death.cleaning, death.cleaningActs, step);
    var later, laterActs := death.checks + death.cleaning[1..], death.checkActs + death.cleaningActs;
    PathConcat(death.calls, death.callActs, death.outage, death.outageActs, step);
    var sooner, soonerActs := death.calls + death.outage[1..], death.callActs + death.outageActs;
    PathConcat(sooner, soonerActs, later, laterActs, step);
    states, acts := sooner + later[1..], soonerActs + laterActs;
  }

  ghost predicate OnDiskRun(parse: P.Parser, d: P.Disk) {
    exists states, acts :: CS.IsDiskRun(parse, states, acts) && states[|acts|] == d
  }

  lemma TurnOnDiskRun(w: World, parse: P.Parser, x: Both, turn: Turn, x': Both)
    requires OnDiskRun(parse, x.d) && BothStep(w, parse, x, turn, x')
    ensures OnDiskRun(parse, x'.d)
  {
    var ss, aa :| CS.IsDiskRun(parse, ss, aa) && ss[|aa|] == x.d;
    var ts, ta := TurnIsPath(w, parse, x, turn, x');
    var states, acts := DiskRunOn(parse, ss, aa, ts, ta);
  }

  lemma FreshDiskRun(parse: P.Parser, d: P.Disk)
    requires P.Fresh(d)
    ensures OnDiskRun(parse, d)
  {
    var acts: seq<P.Act> := [];
    assert CS.IsDiskRun(parse, [d], acts) && [d][|acts|] == d;
  }

  /** The disk of a run has a run of its own, of which Incarnations speaks. */
  lemma DiskRuns(w: World, parse: P.Parser, xs: seq<Both>, turns: seq<Turn>, i: nat)
    requires IsBothRun(w, parse, xs, turns) && i < |xs|
    ensures OnDiskRun(parse, xs[i].d)
  {
    FreshDiskRun(parse, xs[0].d);
    var good: Both -> bool := (x: Both) => OnDiskRun(parse, x.d);
    forall x: Both, turn: Turn, x': Both | good(x) && BothSteps(w, parse)(x, turn, x') ensures good(x') {
      TurnOnDiskRun(w, parse, x, turn, x');
    }
    PathKeeps(xs, turns, BothSteps(w, parse), good, i);
  }

  lemma DiskRunOn(parse: P.Parser, ss: seq<P.Disk>, aa: seq<P.Act>, ts: seq<P.Disk>, ta: seq<P.Act>)
    returns (states: seq<P.Disk>, acts: seq<P.Act>)
    requires CS.IsDiskRun(parse, ss, aa) && IsPath(ts, ta, CS.DiskSteps(parse)) && ts[0] == ss[|aa|]
    ensures CS.IsDiskRun(parse, states, acts) && states[|acts|] == ts[|ta|]
  {
    PathConcat(ss, aa, ts, ta, CS.DiskSteps(parse));
    states, acts := ss + ts[1..], aa + ta;
  }

  // ---- bindings, through deaths ----

  // No power loss here finds the entry uncommitted with another directory able to take its name.
  ghost predicate Undisplaced(parse: P.Parser, x: Both, turn: Turn, k: Kind, id: Id) {
    turn.Die? && |turn.death.outage| == |turn.death.outageActs| + 1 && id in x.d.fs.Root(k).now ==>
      !DP.Displaced(parse, turn.death.outage, turn.death.outageActs, k, id, x.d.fs.Root(k).now[id])
  }

  lemma SectionBinds(w: World, parse: P.Parser, x: Both, l: Label, states: seq<P.Disk>, acts: seq<P.Act>, x': Both,
                     k: Kind, id: Id)
    requires Joined(w, parse, x) && Section(w, parse, x, l, states, acts, x')
    requires id in x.s.sh.cache.Root(k) && id in x'.s.sh.cache.Root(k)
    ensures SameDirectory(x.d, x'.d, k, id)
  {
    var carried := Carried(x.s, x'.s.sh.cache);
    CallsAgree(parse, x.s.sh.cache, x'.s.sh.cache, x.d, x'.d, states, acts, carried);
    RootsHomed(parse, x'.d, k);
    KeptLeads(x.s.sh.cache, x.d, x'.d, carried, Unlisted(x'.s.sh.cache, x'.d), k, id);
  }

  lemma TurnBinds(w: World, parse: P.Parser, x: Both, turn: Turn, x': Both, k: Kind, id: Id)
    requires Joined(w, parse, x) && BothStep(w, parse, x, turn, x') && Undisplaced(parse, x, turn, k, id)
    requires id in x.s.sh.cache.Root(k) && id in x'.s.sh.cache.Root(k)
    ensures SameDirectory(x.d, x'.d, k, id)
  {
    match turn {
      case Serve(l, states, acts) => SectionBinds(w, parse, x, l, states, acts, x', k, id);
      case Die(death, settings, first, second) => DeathBinds(w, parse, x, death, settings, first, second, x', k, id);
    }
  }

  ghost predicate KeepsData(x: Both, x': Both, k: Kind, id: Id) {
    && id in x.s.sh.cache.Root(k) && id in x'.s.sh.cache.Root(k)
    && SameData(x.s.sh.cache.Root(k)[id], x'.s.sh.cache.Root(k)[id])
  }

  lemma SameDirectorySameData(x: Both, x': Both, k: Kind, id: Id)
    requires Agree(x.s.sh.cache, x.d) && Agree(x'.s.sh.cache, x'.d) && SameDirectory(x.d, x'.d, k, id)
    requires id in x.s.sh.cache.Root(k) && id in x'.s.sh.cache.Root(k)
    ensures KeepsData(x, x', k, id)
  {
    assert Backs(x.d, k, id, x.s.sh.cache.Root(k)[id]) && Backs(x'.d, k, id, x'.s.sh.cache.Root(k)[id]);
  }

  lemma TurnKeepsData(w: World, parse: P.Parser, x: Both, turn: Turn, x': Both, k: Kind, id: Id)
    requires ServiceSafety.Sound(w) && Coupled(w, parse, x) && BothStep(w, parse, x, turn, x')
    requires Undisplaced(parse, x, turn, k, id)
    requires id in x.s.sh.cache.Root(k) && id in x'.s.sh.cache.Root(k)
    ensures KeepsData(x, x', k, id)
  {
    BothKeeps(w, parse, x, turn, x');
    TurnBinds(w, parse, x, turn, x', k, id);
    SameDirectorySameData(x, x', k, id);
  }

  lemma OwnData(w: World, parse: P.Parser, x: Both, k: Kind, id: Id)
    requires Coupled(w, parse, x) && id in x.s.sh.cache.Root(k)
    ensures KeepsData(x, x, k, id)
  {
    assert Backs(x.d, k, id, x.s.sh.cache.Root(k)[id]);
  }

  lemma {:induction false} DataLasts(xs: seq<Both>, i: nat, j: nat, k: Kind, id: Id)
    requires i <= j < |xs| && KeepsData(xs[i], xs[i], k, id)
    requires forall m :: i <= m < j ==> KeepsData(xs[m], xs[m + 1], k, id)
    ensures KeepsData(xs[i], xs[j], k, id)
    decreases j - i
  {
    if i < j { DataLasts(xs, i, j - 1, k, id); }
  }

  /** Across kills and power losses: while an id stays committed its record and data never change,
      provided no power loss finds it not committed in full and displaces it. */
  lemma BindingLasts(w: World, parse: P.Parser, xs: seq<Both>, turns: seq<Turn>, i: nat, j: nat, k: Kind, id: Id)
    requires ServiceSafety.Sound(w) && IsBothRun(w, parse, xs, turns) && i <= j < |xs|
    requires forall m :: i <= m <= j ==> id in xs[m].s.sh.cache.Root(k)
    requires forall m :: i <= m < j ==> Undisplaced(parse, xs[m], turns[m], k, id)
    ensures SameData(xs[i].s.sh.cache.Root(k)[id], xs[j].s.sh.cache.Root(k)[id])
  {
    CoupledAlways(w, parse, xs, turns, i);
    OwnData(w, parse, xs[i], k, id);
    forall m | i <= m < j ensures KeepsData(xs[m], xs[m + 1], k, id) {
      CoupledAlways(w, parse, xs, turns, m);
      assert BothSteps(w, parse)(xs[m], turns[m], xs[m + 1]);
      TurnKeepsData(w, parse, xs[m], turns[m], xs[m + 1], k, id);
    }
    DataLasts(xs, i, j, k, id);
  }
}
