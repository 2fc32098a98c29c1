/** Services and their engine processes on one cache volume: who may touch it when. Locks belong to
    processes and the kernel gives them up when a process dies. */
module Fencing {
  import opened Basics

  type Pid = nat

  // Started: booting. Owner: has .worker.lock. Stopping: has given it up in lifespan's exit and
  // lives on. Closing: the kernel has closed its files, its children do not know yet.
  datatype ServicePhase = Started | Owner | Recovering | Serving | Stopping | Closing | Dead

  // execution_guard: prctl, the parent check, the shared lock. A killed process still has its
  // files until the kernel has torn it down.
  datatype ChildPhase = Spawned | Armed | Checked | Executing | Killed | Gone

  datatype Child = Child(parent: Pid, phase: ChildPhase)

  // `volume`, `exclusive`: holders of .worker.lock and of .engines.lock in exclusive mode;
  // `shared`: processes that hold .engines.lock in shared mode. `ready`: how many threads of a service
  // have found `stopping` unset and may still start a child.
  datatype Volume = Volume(
    services: map<Pid, ServicePhase>,
    children: map<Pid, Child>,
    volume: Option<Pid>, exclusive: Option<Pid>, shared: set<Pid>,
    ready: map<Pid, nat>)

  datatype Event =
    | Boot(p: Pid)
    | TakeVolume(p: Pid)
    | TakeExclusive(p: Pid)
    | FinishRecovery(p: Pid)
    | Pass(p: Pid)
    | Quit(p: Pid)
    | Spawn(p: Pid, c: Pid)
    | Release(p: Pid)
    | CloseFiles(p: Pid)
    | Notify(p: Pid)
    | Die(p: Pid)
    | Arm(c: Pid)
    | Check(c: Pid)
    | Share(c: Pid)
    | Exit(c: Pid)

  predicate IsIn(s: Volume, p: Pid, phase: ServicePhase) { p in s.services && s.services[p] == phase }

  predicate ChildIn(s: Volume, c: Pid, phase: ChildPhase) { c in s.children && s.children[c].phase == phase }

  predicate Ready(s: Volume, p: Pid) { p in s.ready && s.ready[p] > 0 }

  predicate Alive(s: Volume, p: Pid) { p in s.services && !s.services[p].Dead? && !s.services[p].Closing? }

  ghost predicate Childless(s: Volume, p: Pid) {
    forall c :: c in s.children && s.children[c].parent == p ==> s.children[c].phase.Gone?
  }

  /** Whether an event can happen. With `atomic` a service gives up its locks only together with
      its children: it stops when they have ended, and in its death the kernel signals them before
      anybody can take the locks. Without, the locks may go first, as do_exit closes files before
      it notifies children. */
  ghost predicate Enabled(atomic: bool, s: Volume, e: Event) {
    match e
    case Boot(p) => p !in s.services && p !in s.children
    case TakeVolume(p) => IsIn(s, p, Started) && s.volume.None?
    case TakeExclusive(p) => IsIn(s, p, Owner) && s.exclusive.None? && s.shared == {}
    case FinishRecovery(p) => IsIn(s, p, Recovering)
    // the check that the worker is not stopping, which comes before the volume is given up
    case Pass(p) => IsIn(s, p, Serving)
    case Quit(p) => Ready(s, p)
    case Spawn(p, c) =>
      (IsIn(s, p, Serving) || (!atomic && IsIn(s, p, Stopping))) && Ready(s, p) && c !in s.services && c !in s.children
    case Release(p) =>
      (IsIn(s, p, Owner) || IsIn(s, p, Recovering) || IsIn(s, p, Serving)) && (atomic ==> Childless(s, p))
    case CloseFiles(p) => !atomic && Alive(s, p)
    case Notify(p) => !atomic && IsIn(s, p, Closing)
    case Die(p) => atomic && Alive(s, p)
    case Arm(c) => ChildIn(s, c, Spawned)
    case Check(c) => ChildIn(s, c, Armed)
    case Share(c) => ChildIn(s, c, Checked) && s.exclusive.None?
    case Exit(c) => c in s.children && !s.children[c].phase.Gone?
  }

  function Without(holder: Option<Pid>, p: Pid): Option<Pid> { if holder == Some(p) then None else holder }

  function Unlocked(s: Volume, p: Pid, phase: ServicePhase): Volume {
    s.(services := s.services[p := phase], volume := Without(s.volume, p), exclusive := Without(s.exclusive, p))
  }

  predicate Signalled(phase: ChildPhase) { phase.Armed? || phase.Checked? || phase.Executing? }

  /** The parent-death signal reaches the children that have asked for it. */
  function Orphaned(children: map<Pid, Child>, p: Pid): map<Pid, Child> {
    map c | c in children ::
      if children[c].parent == p && Signalled(children[c].phase) then Child(p, Killed) else children[c]
  }

  function WithChild(s: Volume, c: Pid, phase: ChildPhase): Volume
    requires c in s.children
  {
    s.(children := s.children[c := Child(s.children[c].parent, phase)])
  }

  ghost function Next(atomic: bool, s: Volume, e: Event): Volume
    requires Enabled(atomic, s, e)
  {
    match e
    case Boot(p) => s.(services := s.services[p := Started])
    case TakeVolume(p) => s.(services := s.services[p := Owner], volume := Some(p))
    case TakeExclusive(p) => s.(services := s.services[p := Recovering], exclusive := Some(p))
    case FinishRecovery(p) => s.(services := s.services[p := Serving], exclusive := None)
    case Pass(p) => s.(ready := s.ready[p := (if p in s.ready then s.ready[p] else 0) + 1])
    case Quit(p) => s.(ready := s.ready[p := s.ready[p] - 1])
    case Spawn(p, c) => s.(children := s.children[c := Child(p, Spawned)], ready := s.ready[p := s.ready[p] - 1])
    case Release(p) => Unlocked(s, p, Stopping)
    case CloseFiles(p) => Unlocked(s, p, Closing)
    case Notify(p) => s.(services := s.services[p := Dead], children := Orphaned(s.children, p))
    case Die(p) => Unlocked(s, p, Dead).(children := Orphaned(s.children, p))
    case Arm(c) => WithChild(s, c, Armed)
    // getppid names the parent until it is dead and its children have another
    case Check(c) => WithChild(s, c, if IsIn(s, s.children[c].parent, Dead) then Gone else Checked)
    case Share(c) => WithChild(s, c, Executing).(shared := s.shared + {c})
    case Exit(c) => WithChild(s, c, Gone).(shared := s.shared - {c})
  }

  ghost predicate Happens(atomic: bool, s: Volume, e: Event, s': Volume) {
    Enabled(atomic, s, e) && s' == Next(atomic, s, e)
  }

  ghost function Events(atomic: bool): (Volume, Event, Volume) -> bool { (s, e, s') => Happens(atomic, s, e, s') }

  const NEW: Volume := Volume(map[], map[], None, None, {}, map[])

  ghost predicate IsHistory(atomic: bool, states: seq<Volume>, events: seq<Event>) {
    IsPath(states, events, Events(atomic)) && states[0] == NEW
  }

  // ---- the invariant ----

  predicate OwnsVolume(phase: ServicePhase) { phase.Owner? || phase.Recovering? || phase.Serving? }

  // Past the guard, and not yet torn down.
  predicate Holding(s: Volume, c: Pid) { c in s.shared }

  ghost predicate LocksAgree(s: Volume) {
    && (forall p: Pid :: s.volume == Some(p) <==> p in s.services && OwnsVolume(s.services[p]))
    && (forall p: Pid :: s.exclusive == Some(p) <==> IsIn(s, p, Recovering))
    && (s.exclusive.Some? ==> s.shared == {})
  }

  predicate HasServed(s: Volume, p: Pid) {
    p in s.services && !s.services[p].Started? && !s.services[p].Owner? && !s.services[p].Recovering?
  }

  ghost predicate ChildrenAgree(s: Volume) {
    && (forall c :: c in s.children ==> HasServed(s, s.children[c].parent))
    && (forall c :: c in s.children && s.children[c].phase.Executing? ==> c in s.shared)
    && (forall c :: c in s.shared ==>
        c in s.children && (s.children[c].phase.Executing? || s.children[c].phase.Killed?))
    && (forall c :: c in s.children && IsIn(s, s.children[c].parent, Dead) ==>
          !s.children[c].phase.Checked? && !s.children[c].phase.Executing?)
  }

  // What only atomic deaths and orderly stops give.
  ghost predicate OwnersOnly(s: Volume) {
    && (forall p :: p in s.services ==> !s.services[p].Closing?)
    && (forall c :: c in s.children && !s.children[c].phase.Gone? ==>
          IsIn(s, s.children[c].parent, Serving) || IsIn(s, s.children[c].parent, Dead))
    && (forall c, p: Pid :: c in s.shared && c in s.children && IsIn(s, p, Serving) ==> s.children[c].parent == p)
  }

  ghost predicate Fenced(atomic: bool, s: Volume) {
    LocksAgree(s) && ChildrenAgree(s) && (atomic ==> OwnersOnly(s))
  }

  lemma LocksKept(atomic: bool, s: Volume, e: Event)
    requires LocksAgree(s) && ChildrenAgree(s) && Enabled(atomic, s, e)
    ensures LocksAgree(Next(atomic, s, e))
  {
  }

  predicate OfChild(e: Event) { e.Arm? || e.Check? || e.Share? || e.Exit? }

  lemma ChildEventKeeps(atomic: bool, s: Volume, e: Event)
    requires LocksAgree(s) && ChildrenAgree(s) && Enabled(atomic, s, e) && OfChild(e)
    ensures ChildrenAgree(Next(atomic, s, e))
  {
  }

  lemma ServiceEventKeeps(atomic: bool, s: Volume, e: Event)
    requires LocksAgree(s) && ChildrenAgree(s) && Enabled(atomic, s, e) && !OfChild(e) && !e.Notify? && !e.Die?
    ensures ChildrenAgree(Next(atomic, s, e))
  {
  }

  lemma DeathKeeps(atomic: bool, s: Volume, e: Event)
    requires LocksAgree(s) && ChildrenAgree(s) && Enabled(atomic, s, e) && (e.Notify? || e.Die?)
    ensures ChildrenAgree(Next(atomic, s, e))
  {
  }

  lemma ChildrenKept(atomic: bool, s: Volume, e: Event)
    requires LocksAgree(s) && ChildrenAgree(s) && Enabled(atomic, s, e)
    ensures ChildrenAgree(Next(atomic, s, e))
  {
    if OfChild(e) {
      ChildEventKeeps(atomic, s, e);
    } else if e.Notify? || e.Die? {
      DeathKeeps(atomic, s, e);
    } else {
      ServiceEventKeeps(atomic, s, e);
    }
  }

  lemma OwnersKept(s: Volume, e: Event)
    requires LocksAgree(s) && ChildrenAgree(s) && OwnersOnly(s) && Enabled(true, s, e)
    ensures OwnersOnly(Next(true, s, e))
  {
    if OfChild(e) {
      ChildKeepsOwners(s, e);
    } else if e.Die? {
      DeathKeepsOwners(s, e.p);
    } else {
      ServiceKeepsOwners(s, e);
    }
  }

  lemma ServiceKeepsOwners(s: Volume, e: Event)
    requires LocksAgree(s) && ChildrenAgree(s) && OwnersOnly(s) && Enabled(true, s, e) && !OfChild(e) && !e.Die?
    ensures OwnersOnly(Next(true, s, e))
  {
    var s' := Next(true, s, e);
    if e.FinishRecovery? { assert s.exclusive == Some(e.p); }
    forall c | c in s'.children && !s'.children[c].phase.Gone?
      ensures IsIn(s', s'.children[c].parent, Serving) || IsIn(s', s'.children[c].parent, Dead)
    {
      if !(e.Spawn? && c == e.c) {
        assert s'.children[c] == s.children[c];
        assert IsIn(s, s.children[c].parent, Serving) || IsIn(s, s.children[c].parent, Dead);
      }
    }
    forall c, q: Pid | c in s'.shared && c in s'.children && IsIn(s', q, Serving) ensures s'.children[c].parent == q {
      assert c in s.shared && c in s.children && s'.children[c] == s.children[c];
      assert IsIn(s, q, Serving);
    }
  }

  lemma ChildKeepsOwners(s: Volume, e: Event)
    requires LocksAgree(s) && ChildrenAgree(s) && OwnersOnly(s) && Enabled(true, s, e) && OfChild(e)
    ensures OwnersOnly(Next(true, s, e))
  {
    var s' := Next(true, s, e);
    forall c | c in s'.children && !s'.children[c].phase.Gone?
      ensures IsIn(s', s'.children[c].parent, Serving) || IsIn(s', s'.children[c].parent, Dead)
    {
      assert s'.children[c].parent == s.children[c].parent && !s.children[c].phase.Gone?;
    }
    forall c, q: Pid | c in s'.shared && c in s'.children && IsIn(s', q, Serving) ensures s'.children[c].parent == q {
      assert IsIn(s, q, Serving) && s.volume == Some(q) && s'.children[c].parent == s.children[c].parent;
    }
  }

  lemma DeathKeepsOwners(s: Volume, p: Pid)
    requires LocksAgree(s) && ChildrenAgree(s) && OwnersOnly(s) && Enabled(true, s, Die(p))
    ensures OwnersOnly(Next(true, s, Die(p)))
  {
    var s' := Next(true, s, Die(p));
    forall c | c in s'.children && !s'.children[c].phase.Gone?
      ensures IsIn(s', s'.children[c].parent, Serving) || IsIn(s', s'.children[c].parent, Dead)
    {
      assert s'.children[c].parent == s.children[c].parent && !s.children[c].phase.Gone?;
    }
    forall c, q: Pid | c in s'.shared && c in s'.children && IsIn(s', q, Serving) ensures s'.children[c].parent == q {
      assert IsIn(s, q, Serving) && c in s.shared;
    }
  }

  lemma FencedAlways(atomic: bool, states: seq<Volume>, events: seq<Event>, i: nat)
    requires IsHistory(atomic, states, events) && i < |states|
    ensures Fenced(atomic, states[i])
  {
    var good: Volume -> bool := s => Fenced(atomic, s);
    forall s, e, s' | good(s) && Events(atomic)(s, e, s') ensures good(s') {
      LocksKept(atomic, s, e);
      ChildrenKept(atomic, s, e);
      if atomic { OwnersKept(s, e); }
    }
    PathKeeps(states, events, Events(atomic), good, i);
  }

  // ---- what the locks give, whatever dies when ----

  /** At most one service owns the volume. */
  lemma OneOwner(atomic: bool, states: seq<Volume>, events: seq<Event>, i: nat, p: Pid, q: Pid)
    requires IsHistory(atomic, states, events) && i < |states|
    requires p in states[i].services && OwnsVolume(states[i].services[p])
    requires q in states[i].services && OwnsVolume(states[i].services[q])
    ensures p == q
  {
    FencedAlways(atomic, states, events, i);
  }

  /** Recovery never overlaps an engine process that has passed its guard, killed ones that are
      not yet torn down included. */
  lemma RecoveryIsAlone(atomic: bool, states: seq<Volume>, events: seq<Event>, i: nat, p: Pid, c: Pid)
    requires IsHistory(atomic, states, events) && i < |states|
    requires IsIn(states[i], p, Recovering)
    ensures !Holding(states[i], c) && !ChildIn(states[i], c, Executing)
  {
    FencedAlways(atomic, states, events, i);
  }

  /** No child begins executing once its parent is dead: the signal or the parent check stops it
      at whatever point of its guard the death finds it. */
  lemma OrphansNeverBegin(atomic: bool, states: seq<Volume>, events: seq<Event>, i: nat, j: nat, p: Pid, c: Pid)
    requires IsHistory(atomic, states, events) && i <= j < |events|
    requires IsIn(states[i], p, Dead) && c in states[j].children && states[j].children[c].parent == p
    ensures events[j] != Share(c)
  {
    FencedAlways(atomic, states, events, j);
    DeadStaysDead(atomic, states, events, i, j, p);
    assert Events(atomic)(states[j], events[j], states[j + 1]);
  }

  lemma DeadStaysDead(atomic: bool, states: seq<Volume>, events: seq<Event>, i: nat, j: nat, p: Pid)
    requires IsPath(states, events, Events(atomic)) && i <= j < |states| && IsIn(states[i], p, Dead)
    ensures IsIn(states[j], p, Dead)
  {
    var dead := (m: nat) => m < |states| && IsIn(states[m], p, Dead);
    forall m: nat | i <= m < j && dead(m) ensures dead(m + 1) {
      assert Events(atomic)(states[m], events[m], states[m + 1]);
    }
    Stays(dead, i, j);
  }

  // ---- the whole fence, and when it holds ----

  /** Once a service serves, every process past its guard is its own child. */
  ghost predicate Exclusive(s: Volume) {
    forall p: Pid, c: Pid :: IsIn(s, p, Serving) && Holding(s, c) ==> c in s.children && s.children[c].parent == p
  }

  /** Were locks and children to go together, the fence would be complete. */
  lemma AtomicIsExclusive(states: seq<Volume>, events: seq<Event>, i: nat)
    requires IsHistory(true, states, events) && i < |states|
    ensures Exclusive(states[i])
  {
    FencedAlways(true, states, events, i);
  }

  lemma Extend(states: seq<Volume>, events: seq<Event>, e: Event) returns (states': seq<Volume>, events': seq<Event>)
    requires IsPath(states, events, Events(false)) && Enabled(false, states[|events|], e)
    ensures IsPath(states', events', Events(false)) && states'[0] == states[0] && events' == events + [e]
    ensures states'[|events'|] == Next(false, states[|events|], e)
  {
    states', events' := states + [Next(false, states[|events|], e)], events + [e];
    PathAppends(states, events, e, Next(false, states[|events|], e), Events(false));
  }

  lemma FirstServes() returns (states: seq<Volume>, events: seq<Event>)
    ensures IsHistory(false, states, events)
    ensures states[|events|] == Volume(map[0 := Serving], map[], Some(0), None, {}, map[])
  {
    states, events := [NEW], [];
    states, events := Extend(states, events, Boot(0));
    states, events := Extend(states, events, TakeVolume(0));
    states, events := Extend(states, events, TakeExclusive(0));
    states, events := Extend(states, events, FinishRecovery(0));
    assert states[|events|].services == map[0 := Serving];
  }

  /** A service and its child, which has passed the parent check, when the service's locks go. */
  lemma LocksGoFirst() returns (states: seq<Volume>, events: seq<Event>)
    ensures IsHistory(false, states, events)
    ensures states[|events|] == Volume(map[0 := Closing], map[1 := Child(0, Checked)], None, None, {}, map[0 := 0])
  {
    states, events := FirstServes();
    states, events := Extend(states, events, Pass(0));
    states, events := Extend(states, events, Spawn(0, 1));
    states, events := Extend(states, events, Arm(1));
    states, events := Extend(states, events, Check(1));
    assert states[|events|] == Volume(map[0 := Serving], map[1 := Child(0, Checked)], Some(0), None, {}, map[0 := 0]);
    states, events := Extend(states, events, CloseFiles(0));
  }

  /** Its successor recovers and serves; then the child takes the shared lock and executes. */
  lemma LateChild() returns (states: seq<Volume>, events: seq<Event>)
    ensures IsHistory(false, states, events)
    ensures IsIn(states[|events|], 2, Serving) && ChildIn(states[|events|], 1, Executing)
    ensures !Exclusive(states[|events|])
  {
    states, events := LocksGoFirst();
    states, events := Extend(states, events, Boot(2));
    states, events := Extend(states, events, TakeVolume(2));
    assert states[|events|] ==
        Volume(map[0 := Closing, 2 := Owner], map[1 := Child(0, Checked)], Some(2), None, {}, map[0 := 0]);
    states, events := Extend(states, events, TakeExclusive(2));
    states, events := Extend(states, events, FinishRecovery(2));
    assert states[|events|] ==
        Volume(map[0 := Closing, 2 := Serving], map[1 := Child(0, Checked)], Some(2), None, {}, map[0 := 0]);
    states, events := Extend(states, events, Share(1));
    assert states[|events|] ==
        Volume(map[0 := Closing, 2 := Serving], map[1 := Child(0, Executing)], Some(2), None, {1}, map[0 := 0]);
    assert IsIn(states[|events|], 2, Serving) && Holding(states[|events|], 1);
  }

  // ---- who breaks it, and when ----

  /** A child of one service is past its guard while another service serves. */
  ghost predicate Clashes(s: Volume, p: Pid) {
    exists q: Pid, c: Pid :: q != p && IsIn(s, q, Serving) && Holding(s, c) && c in s.children &&
        s.children[c].parent == p
  }

  predicate LostVolume(s: Volume, p: Pid) { IsIn(s, p, Stopping) || IsIn(s, p, Closing) }

  /** The child's parent has lost the volume, is not yet dead, and another service serves. */
  ghost predicate Straggler(s: Volume, c: Pid) {
    c in s.children && LostVolume(s, s.children[c].parent) && exists q: Pid :: IsIn(s, q, Serving)
  }

  lemma ShareClashes(s: Volume, c: Pid)
    requires LocksAgree(s) && ChildrenAgree(s) && Exclusive(s) && Enabled(false, s, Share(c))
    ensures Exclusive(Next(false, s, Share(c))) <==> !Straggler(s, c)
  {
    var s' := Next(false, s, Share(c));
    var p := s.children[c].parent;
    assert Holding(s', c) && s'.children[c].parent == p;
    if Straggler(s, c) {
      var q: Pid :| IsIn(s, q, Serving);
      assert IsIn(s', q, Serving);
    } else {
      forall q: Pid, d: Pid | IsIn(s', q, Serving) && Holding(s', d)
        ensures d in s'.children && s'.children[d].parent == q
      {
        assert IsIn(s, q, Serving) && s.volume == Some(q);
        if d == c { assert HasServed(s, p) && !IsIn(s, p, Dead); }
      }
    }
  }

  lemma OthersDoNotClash(s: Volume, e: Event)
    requires LocksAgree(s) && ChildrenAgree(s) && Exclusive(s) && Enabled(false, s, e) && !e.Share?
    ensures Exclusive(Next(false, s, e))
  {
    var s' := Next(false, s, e);
    if e.FinishRecovery? { assert s.exclusive == Some(e.p); }
    forall q: Pid, c: Pid | IsIn(s', q, Serving) && Holding(s', c)
      ensures c in s'.children && s'.children[c].parent == q
    {
      assert Holding(s, c) && IsIn(s, q, Serving);
    }
  }

  /** The one event that breaks the fence, whatever dies when: a child takes the shared lock although
      its parent has lost the volume to a service that serves by now. */
  lemma FenceBreaksAt(states: seq<Volume>, events: seq<Event>, j: nat)
    requires IsHistory(false, states, events) && j < |events| && Exclusive(states[j])
    ensures !Exclusive(states[j + 1]) <==> events[j].Share? && Straggler(states[j], events[j].c)
  {
    FencedAlways(false, states, events, j);
    assert Events(false)(states[j], events[j], states[j + 1]);
    if events[j].Share? {
      ShareClashes(states[j], events[j].c);
    } else {
      OthersDoNotClash(states[j], events[j]);
    }
  }

  // ---- what a service may leave when its locks go ----

  /** The volume's owner gives up its locks, by an orderly exit or because the kernel closes its files. */
  ghost predicate GivesUp(s: Volume, e: Event, p: Pid) {
    s.volume == Some(p) && (e == Release(p) || e == CloseFiles(p))
  }

  predicate Underway(s: Volume, p: Pid, c: Pid) {
    c in s.children && s.children[c].parent == p &&
        (s.children[c].phase.Spawned? || s.children[c].phase.Armed? || s.children[c].phase.Checked?)
  }

  /** It has a child on the way through its guard, or lives on with a thread that may start one. */
  ghost predicate MayStraggle(s: Volume, p: Pid) {
    (IsIn(s, p, Stopping) && Ready(s, p)) || exists c: Pid :: Underway(s, p, c)
  }

  ghost predicate CanClash(s: Volume, p: Pid) {
    exists states: seq<Volume>, events: seq<Event> ::
      IsPath(states, events, Events(false)) && states[0] == s && Clashes(states[|events|], p)
  }

  // A child that waits in front of the shared lock while nobody owns the volume.
  ghost predicate Poised(s: Volume, p: Pid, c: Pid) {
    && LostVolume(s, p) && Underway(s, p, c) && c !in s.shared
    && s.volume.None? && s.exclusive.None?
    && (forall d :: d in s.shared ==> d in s.children && !s.children[d].phase.Gone?)
  }

  lemma {:induction false} Passes(states: seq<Volume>, events: seq<Event>, p: Pid, c: Pid)
    returns (states': seq<Volume>, events': seq<Event>)
    requires IsPath(states, events, Events(false)) && Poised(states[|events|], p, c)
    ensures IsPath(states', events', Events(false)) && states'[0] == states[0]
    ensures Poised(states'[|events'|], p, c) && ChildIn(states'[|events'|], c, Checked)
  {
    states', events' := states, events;
    if ChildIn(states[|events|], c, Spawned) { states', events' := Extend(states', events', Arm(c)); }
    if ChildIn(states'[|events'|], c, Armed) { states', events' := Extend(states', events', Check(c)); }
  }

  /** Whoever holds the shared lock ends sooner or later. */
  lemma {:induction false} Drains(states: seq<Volume>, events: seq<Event>, p: Pid, c: Pid)
    returns (states': seq<Volume>, events': seq<Event>)
    requires IsPath(states, events, Events(false)) && Poised(states[|events|], p, c)
    requires ChildIn(states[|events|], c, Checked)
    ensures IsPath(states', events', Events(false)) && states'[0] == states[0]
    ensures Poised(states'[|events'|], p, c) && ChildIn(states'[|events'|], c, Checked)
    ensures states'[|events'|].shared == {}
    decreases states[|events|].shared
  {
    if states[|events|].shared == {} {
      states', events' := states, events;
    } else {
      var d :| d in states[|events|].shared;
      var ss, es := Extend(states, events, Exit(d));
      states', events' := Drains(ss, es, p, c);
    }
  }

  lemma FreshPid(s: Volume) returns (q: Pid)
    ensures q !in s.services && q !in s.children
  {
    q := Above(s.services.Keys + s.children.Keys);
  }

  /** Meanwhile a successor comes up, and then the child takes the lock. */
  lemma Succeeds(states: seq<Volume>, events: seq<Event>, p: Pid, c: Pid) returns (states': seq<Volume>,
                 events': seq<Event>)
    requires IsPath(states, events, Events(false)) && Poised(states[|events|], p, c)
    requires ChildIn(states[|events|], c, Checked)
    requires states[|events|].shared == {}
    ensures IsPath(states', events', Events(false)) && states'[0] == states[0] && Clashes(states'[|events'|], p)
  {
    var q := FreshPid(states[|events|]);
    states', events' := Extend(states, events, Boot(q));
    states', events' := Extend(states', events', TakeVolume(q));
    states', events' := Extend(states', events', TakeExclusive(q));
    states', events' := Extend(states', events', FinishRecovery(q));
    states', events' := Extend(states', events', Share(c));
    var last := states'[|events'|];
    assert q != p && IsIn(last, q, Serving) && Holding(last, c) && c in last.children && last.children[c].parent == p;
  }

  lemma StartsOne(s: Volume, p: Pid) returns (states: seq<Volume>, events: seq<Event>, c: Pid)
    requires LocksAgree(s) && ChildrenAgree(s) && LostVolume(s, p) && s.volume.None? && s.exclusive.None?
    requires MayStraggle(s, p)
    ensures IsPath(states, events, Events(false)) && states[0] == s && Poised(states[|events|], p, c)
  {
    states, events := [s], [];
    if c0: Pid :| Underway(s, p, c0) {
      c := c0;
    } else {
      c := FreshPid(s);
      states, events := Extend(states, events, Spawn(p, c));
    }
  }

  lemma StragglerClashes(s: Volume, p: Pid)
    requires LocksAgree(s) && ChildrenAgree(s) && LostVolume(s, p) && s.volume.None? && s.exclusive.None?
    requires MayStraggle(s, p)
    ensures CanClash(s, p)
  {
    var states, events, c := StartsOne(s, p);
    states, events := Passes(states, events, p, c);
    states, events := Drains(states, events, p, c);
    states, events := Succeeds(states, events, p, c);
  }

  // A service that is going, with no child that could still begin; those that execute are waited for.
  ghost predicate Clear(s: Volume, p: Pid) {
    && (IsIn(s, p, Closing) || IsIn(s, p, Dead) || (IsIn(s, p, Stopping) && !Ready(s, p)))
    && (forall c: Pid :: !Underway(s, p, c))
    && ((forall c: Pid :: Holding(s, c) && c in s.children ==> s.children[c].parent != p)
        || (forall q: Pid :: !IsIn(s, q, Recovering) && !IsIn(s, q, Serving)))
  }

  lemma ClearStays(s: Volume, e: Event, p: Pid)
    requires LocksAgree(s) && ChildrenAgree(s) && Clear(s, p) && Enabled(false, s, e)
    ensures Clear(Next(false, s, e), p)
  {
    var s' := Next(false, s, e);
    forall c: Pid ensures !Underway(s', p, c) { assert !Underway(s, p, c); }
    if e.TakeExclusive? {
      assert forall c: Pid :: Holding(s', c) ==> false;
    } else if e.FinishRecovery? {
      assert s.exclusive == Some(e.p);
    } else if forall c: Pid :: Holding(s, c) && c in s.children ==> s.children[c].parent != p {
      ClearOfHolders(s, e, p);
    } else {
      forall q: Pid
        ensures !IsIn(s', q, Recovering) && !IsIn(s', q, Serving)
      {
        assert !IsIn(s, q, Recovering) && !IsIn(s, q, Serving);
      }
    }
  }

  lemma ClearOfHolders(s: Volume, e: Event, p: Pid)
    requires ChildrenAgree(s) && Enabled(false, s, e) && forall c: Pid :: !Underway(s, p, c)
    requires forall c: Pid :: Holding(s, c) && c in s.children ==> s.children[c].parent != p
    ensures var s' := Next(false, s, e); forall c: Pid :: Holding(s', c) && c in s'.children ==>
      s'.children[c].parent != p
  {
    var s' := Next(false, s, e);
    forall c: Pid | Holding(s', c) && c in s'.children ensures s'.children[c].parent != p {
      assert !Underway(s, p, c);
      if Holding(s, c) { assert c in s.children; }
    }
  }

  ghost predicate ClearlyFenced(s: Volume, p: Pid) { LocksAgree(s) && ChildrenAgree(s) && Clear(s, p) }

  lemma ClearNeverClashes(states: seq<Volume>, events: seq<Event>, p: Pid)
    requires IsPath(states, events, Events(false)) && ClearlyFenced(states[0], p)
    ensures !Clashes(states[|events|], p)
  {
    var good: Volume -> bool := s => ClearlyFenced(s, p);
    forall s, e, s' | good(s) && Events(false)(s, e, s') ensures good(s') {
      LocksKept(false, s, e);
      ChildrenKept(false, s, e);
      ClearStays(s, e, p);
    }
    PathKeeps(states, events, Events(false), good, |events|);
  }

  lemma ClearAtFirst(s: Volume, e: Event, p: Pid)
    requires LocksAgree(s) && Enabled(false, s, e) && GivesUp(s, e, p)
    ensures LostVolume(Next(false, s, e), p) && Next(false, s, e).volume.None? && Next(false, s, e).exclusive.None?
    ensures !MayStraggle(Next(false, s, e), p) ==> Clear(Next(false, s, e), p)
  {
    var s' := Next(false, s, e);
    forall q: Pid ensures !IsIn(s', q, Recovering) && !IsIn(s', q, Serving) {
      if q != p && (IsIn(s, q, Recovering) || IsIn(s, q, Serving)) { assert false; }
    }
    if s.exclusive.Some? { assert IsIn(s, s.exclusive.value, Recovering) && s.volume == Some(s.exclusive.value); }
  }

  /** When an owner's locks go, its children can come to execute beside a successor exactly when one is
      on its way through the guard then, or the owner lives on with a thread past the check for stopping. Children that
      execute already are no danger: the successor waits for them. */
  lemma FenceBreaksIff(states: seq<Volume>, events: seq<Event>, i: nat, p: Pid)
    requires IsHistory(false, states, events) && i < |events| && GivesUp(states[i], events[i], p)
    ensures CanClash(states[i + 1], p) <==> MayStraggle(states[i + 1], p)
  {
    FencedAlways(false, states, events, i);
    FencedAlways(false, states, events, i + 1);
    assert Events(false)(states[i], events[i], states[i + 1]);
    ClearAtFirst(states[i], events[i], p);
    if MayStraggle(states[i + 1], p) {
      StragglerClashes(states[i + 1], p);
    } else {
      forall ss: seq<Volume>, es: seq<Event> | IsPath(ss, es, Events(false)) && ss[0] == states[i + 1]
        ensures !Clashes(ss[|es|], p)
      {
        ClearNeverClashes(ss, es, p);
      }
    }
  }

  /** Who breaks the fence: only a child whose parent has lost the volume but is not yet dead. */
  lemma StragglersOnly(atomic: bool, states: seq<Volume>, events: seq<Event>, j: nat, p: Pid, c: Pid)
    requires IsHistory(atomic, states, events) && j < |events| && events[j] == Share(c)
    requires IsIn(states[j], p, Serving) && c in states[j].children && states[j].children[c].parent != p
    ensures !atomic
    ensures IsIn(states[j], states[j].children[c].parent, Stopping) ||
        IsIn(states[j], states[j].children[c].parent, Closing)
  {
    FencedAlways(atomic, states, events, j);
    assert Events(atomic)(states[j], events[j], states[j + 1]);
  }
}
