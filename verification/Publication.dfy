/** Publication, touching, removal and recovery on a file system that forgets what was not
    synchronised. Every step is one system call; a crash may come between any two. The invariant
    says what each program has achieved at each point. */
module Publication {
  import opened Basics
  import opened Model
  import opened CacheSpec

  type FileNo = nat
  type NodeNo = nat

  // ---- the file system ----

  // `safe`: nothing was written since the last fsync. A crash leaves an unsafe file with any bytes.
  datatype File = File(data: Bytes, safe: bool)

  datatype Stale<N> = Stale(name: N, target: Option<nat>)

  // `stale`: what names were bound to since the last fsync of the directory. A crash may bring any
  // of these bindings back, each name on its own: not even a rename is atomic on the disk.
  datatype Folder<N> = Folder(now: map<N, nat>, stale: set<Stale<N>>)
  {
    function At(name: N): Option<nat> { if name in now then Some(now[name]) else None }

    predicate Possible(name: N, target: Option<nat>) { target == At(name) || Stale(name, target) in stale }

    function Bind(name: N, target: nat): Folder<N> { Folder(now[name := target], stale + {Stale(name, At(name))}) }

    function Unbind(name: N): Folder<N> { Folder(now - {name}, stale + {Stale(name, At(name))}) }

    function Synced(): Folder<N> { Folder(now, {}) }
  }

  datatype Fs = Fs(
    files: map<FileNo, File>,
    nodes: map<NodeNo, Folder<Text>>,
    tmp: Folder<Path>, sources: Folder<Id>, results: Folder<Id>)
  {
    function Root(k: Kind): Folder<Id> { if k.Source? then sources else results }

    function WithRoot(k: Kind, r: Folder<Id>): Fs { if k.Source? then this.(sources := r) else this.(results := r) }

    function Node(d: NodeNo): Folder<Text> { if d in nodes then nodes[d] else Folder(map[], {}) }

    function Data(f: FileNo): Bytes { if f in files then files[f].data else [] }

    predicate Safe(f: FileNo) { f in files && files[f].safe }

    // open, write, flush, close: a new file under the name
    function Write(d: NodeNo, name: Text, f: FileNo, bytes: Bytes): Fs {
      this.(files := files[f := File(bytes, false)], nodes := nodes[d := Node(d).Bind(name, f)])
    }

    function SyncFile(f: FileNo): Fs { this.(files := files[f := File(Data(f), true)]) }

    function SyncNode(d: NodeNo): Fs { this.(nodes := nodes[d := Node(d).Synced()]) }

    function Unlink(d: NodeNo, name: Text): Fs { this.(nodes := nodes[d := Node(d).Unbind(name)]) }

    // os.replace inside one directory
    function Rename(d: NodeNo, from: Text, to: Text): Fs {
      if from !in Node(d).now then this
      else this.(nodes := nodes[d := Node(d).Bind(to, Node(d).now[from]).Unbind(from)])
    }

    // os.replace of a staging directory into a root
    function MoveIn(path: Path, k: Kind, id: Id, d: NodeNo): Fs {
      WithRoot(k, Root(k).Bind(id, d)).(tmp := tmp.Unbind(path))
    }
  }

  ghost predicate Survives<N(!new)>(folder: Folder<N>, folder': Folder<N>) {
    folder'.stale == {} && forall name :: folder.Possible(name, folder'.At(name))
  }

  /** What may be left after a power loss: safe files keep their bytes, every directory entry is
      one of those possible. */
  ghost predicate Crashes(fs: Fs, fs': Fs) {
    && Survives(fs.tmp, fs'.tmp) && Survives(fs.sources, fs'.sources) && Survives(fs.results, fs'.results)
    && (forall d: NodeNo :: Survives(fs.Node(d), fs'.Node(d)))
    && (forall d :: d in fs'.nodes ==> d in fs.nodes)
    && (forall f :: f in fs.files <==> f in fs'.files)
    && (forall f :: f in fs'.files ==> fs'.files[f].safe && (fs.Safe(f) ==> fs'.files[f].data == fs.files[f].data))
  }

  // ---- what the programs see ----

  const MANIFEST: Text := [109, 97, 110, 105, 102, 101, 115, 116, 46, 106, 115, 111, 110]

  type Parser = Bytes -> Manifest

  /** A manifest of the record as it is read back: its scope and source, readable stamps. */
  predicate Told(m: Manifest, record: Record) {
    && m.record == Some(record) && m.accessed.Some? && m.expires.Some?
    && m.scope == ScopeOf(record) && m.source == Some(SourceOf(record))
  }

  predicate Tells(parse: Parser, bytes: Bytes, record: Record) { Told(parse(bytes), record) }

  const BLANK: Manifest := Manifest(None, None, None, None, None, 0)

  /** The entry that a directory holds; what is neither manifest nor named by it is left out. */
  function EntryIn(parse: Parser, fs: Fs, d: NodeNo): Entry {
    var now := fs.Node(d).now;
    Entry(if MANIFEST in now then parse(fs.Data(now[MANIFEST])) else BLANK,
          map name | name in now && name != MANIFEST :: fs.Data(now[name]), 0)
  }

  predicate Visible(fs: Fs, k: Kind, id: Id) { id in fs.Root(k).now }

  function View(parse: Parser, fs: Fs, k: Kind, id: Id): Entry
    requires Visible(fs, k, id)
  {
    EntryIn(parse, fs, fs.Root(k).now[id])
  }

  // ---- the ghost record of what was published ----

  datatype Filing = Filing(k: Kind, id: Id, record: Record, data: Bytes)

  /** A filing whose record describes its data: it passes recovery's checks. */
  predicate Fits(f: Filing) {
    && DataFile(f.record) != MANIFEST
    && Recoverable(f.k, f.id, Entry(BLANK.(record := Some(f.record)), map[DataFile(f.record) := f.data], 0))
  }

  /** The directory shows its filing: the record and the data it was published with. */
  predicate Shows(parse: Parser, fs: Fs, d: NodeNo, g: Filing) {
    var e := EntryIn(parse, fs, d);
    Told(e.manifest, g.record) && DataFile(g.record) in e.files && e.files[DataFile(g.record)] == g.data
  }

  /** Both names that a lookup needs are there. */
  predicate Whole(fs: Fs, d: NodeNo, g: Filing) { MANIFEST in fs.Node(d).now && DataFile(g.record) in fs.Node(d).now }

  datatype Home = Draft(path: Path) | Filed(filing: Filing)

  datatype CommitPc =
    | WriteManifest | SyncManifest | ReplaceManifest | SyncAfterReplace
    | SyncFiles(todo: seq<Text>) | SyncStaging | MoveToRoot | SyncRoot | SyncTmp

  datatype TouchPc = TWrite | TSync | TReplace | TSyncDir

  // The operation under the manager's lock. `m` is the file the new manifest is written to under
  // the name `temp`. A recovery is `cold` after a power loss: what it reads is on the disk.
  datatype Job =
    | Idle
    | Commit(path: Path, d: NodeNo, filing: Filing, bytes: Bytes, temp: Text, m: FileNo, pc: CommitPc)
    | Touch(d: NodeNo, filing: Filing, bytes: Bytes, temp: Text, m: FileNo, tpc: TouchPc)
    | RecoverTmp(cold: bool)
    | RecoverRoots(cold: bool)

  // `live`: the directories whose commit has returned and whose removal has not begun; `doomed`:
  // those whose removal has begun. Removals also happen in the middle of a commit.
  datatype Disk = Disk(fs: Fs, homes: map<NodeNo, Home>, live: set<NodeNo>, doomed: set<NodeNo>, job: Job)

  // ---- the steps ----

  datatype Act =
    | Stage(path: Path, d: NodeNo)
    | Fill(d: NodeNo, name: Text, f: FileNo, bytes: Bytes)
    | SyncDraft(f: FileNo)
    | Erase(d: NodeNo, name: Text)
    | Forget(path: Path, d: NodeNo)
    | Begin(job: Job)
    | Advance
    | Doom(d: NodeNo)
    | RemoveFile(d: NodeNo, name: Text)
    | RemoveNode(d: NodeNo)
    | Abort
    | RecoverUnlink(path: Path, name: Text)
    | RecoverRmdir(path: Path)
    | TmpEmpty
    | RecoverReject(k: Kind, id: Id, name: Text)
    | RecoverDrop(k: Kind, id: Id)
    | Recovered
    | Crash(fs: Fs)
    | Kill

  predicate Committing(s: Disk, d: NodeNo) { s.job.Commit? && s.job.d == d }

  predicate Drafting(s: Disk, d: NodeNo) { d in s.homes && s.homes[d].Draft? && !Committing(s, d) }

  /** Work in staging areas other than the one being committed: engines and upload loops. */
  ghost predicate StagingStep(s: Disk, a: Act, s': Disk) {
    match a
    case Stage(path, d) =>
      path !in s.fs.tmp.now && d !in s.homes &&
      s' == s.(fs := s.fs.(nodes := s.fs.nodes[d := Folder(map[], {})], tmp := s.fs.tmp.Bind(path, d)),
               homes := s.homes[d := Draft(path)])
    case Fill(d, name, f, bytes) => Drafting(s, d) && f !in s.fs.files && s' == s.(fs := s.fs.Write(d, name, f, bytes))
    case SyncDraft(f) => f in s.fs.files && s' == s.(fs := s.fs.SyncFile(f))
    case Erase(d, name) => Drafting(s, d) && s' == s.(fs := s.fs.Unlink(d, name))
    case Forget(path, d) =>
      s.fs.tmp.At(path) == Some(d) && Drafting(s, d) && s' == s.(fs := s.fs.(tmp := s.fs.tmp.Unbind(path)))
    case _ => false
  }

  /** A filled staging area whose record describes the data as written, not yet as synchronised. */
  ghost predicate ReadyToCommit(parse: Parser, s: Disk, j: Job) {
    && j.Commit? && j.pc == WriteManifest
    && j.d in s.homes && s.homes[j.d] == Draft(j.path) && s.fs.tmp.At(j.path) == Some(j.d)
    && Fits(j.filing) && Tells(parse, j.bytes, j.filing.record)
    && HasData(s.fs, j.d, j.filing)
    && TempName(j.temp, j.filing)
  }

  /** commit_source or commit_result starts; its target does not exist. */
  ghost predicate StartsCommit(parse: Parser, s: Disk, j: Job) {
    ReadyToCommit(parse, s, j) && j.filing.id !in s.fs.Root(j.filing.k).now
  }

  predicate HasData(fs: Fs, d: NodeNo, g: Filing) {
    var now := fs.Node(d).now;
    DataFile(g.record) in now && now[DataFile(g.record)] in fs.files && fs.Data(now[DataFile(g.record)]) == g.data
  }

  predicate TempName(temp: Text, g: Filing) { temp != MANIFEST && temp != DataFile(g.record) }

  /** A lookup rewrites the manifest of an entry it can see, manifest and data; the record stays, the
      stamps move. */
  ghost predicate StartsTouch(parse: Parser, s: Disk, j: Job) {
    && j.Touch? && j.tpc == TWrite
    && j.d in s.homes && s.homes[j.d] == Filed(j.filing) && s.fs.Root(j.filing.k).At(j.filing.id) == Some(j.d)
    && Whole(s.fs, j.d, j.filing)
    && Tells(parse, j.bytes, j.filing.record)
    && TempName(j.temp, j.filing)
  }

  ghost predicate BeginStep(parse: Parser, s: Disk, j: Job, s': Disk) {
    && s.job == Idle
    && (StartsCommit(parse, s, j) || StartsTouch(parse, s, j))
    && s' == s.(job := j)
  }

  ghost predicate CommitStep(s: Disk, j: Job, s': Disk)
    requires j.Commit?
  {
    match j.pc
    case WriteManifest =>
      s'.job.Commit? && s'.job.m !in s.fs.files &&
      s' == s.(fs := s.fs.Write(j.d, j.temp, s'.job.m, j.bytes), job := j.(m := s'.job.m, pc := SyncManifest))
    case SyncManifest => s' == s.(fs := s.fs.SyncFile(j.m), job := j.(pc := ReplaceManifest))
    case ReplaceManifest => s' == s.(fs := s.fs.Rename(j.d, j.temp, MANIFEST), job := j.(pc := SyncAfterReplace))
    case SyncAfterReplace =>
      s'.job.Commit? && s'.job.pc.SyncFiles? &&
          (forall name :: name in s.fs.Node(j.d).now ==> name in s'.job.pc.todo) &&
      s' == s.(fs := s.fs.SyncNode(j.d), job := j.(pc := s'.job.pc))
    case SyncFiles(todo) =>
      if todo == [] then s' == s.(job := j.(pc := SyncStaging))
      else if todo[0] in s.fs.Node(j.d).now then
        s' == s.(fs := s.fs.SyncFile(s.fs.Node(j.d).now[todo[0]]), job := j.(pc := SyncFiles(todo[1..])))
      else s' == s.(job := j.(pc := SyncFiles(todo[1..])))
    case SyncStaging => s' == s.(fs := s.fs.SyncNode(j.d), job := j.(pc := MoveToRoot))
    case MoveToRoot =>
      s' == s.(fs := s.fs.MoveIn(j.path, j.filing.k, j.filing.id, j.d), homes := s.homes[j.d := Filed(j.filing)],
               job := j.(pc := SyncRoot))
    case SyncRoot =>
      s' == s.(fs := s.fs.WithRoot(j.filing.k, s.fs.Root(j.filing.k).Synced()), job := j.(pc := SyncTmp))
    case SyncTmp => s' == s.(fs := s.fs.(tmp := s.fs.tmp.Synced()), live := s.live + {j.d}, job := Idle)
  }

  ghost predicate TouchStep(s: Disk, j: Job, s': Disk)
    requires j.Touch?
  {
    match j.tpc
    case TWrite =>
      s'.job.Touch? && s'.job.m !in s.fs.files &&
      s' == s.(fs := s.fs.Write(j.d, j.temp, s'.job.m, j.bytes), job := j.(m := s'.job.m, tpc := TSync))
    case TSync => s' == s.(fs := s.fs.SyncFile(j.m), job := j.(tpc := TReplace))
    case TReplace => s' == s.(fs := s.fs.Rename(j.d, j.temp, MANIFEST), job := j.(tpc := TSyncDir))
    case TSyncDir => s' == s.(fs := s.fs.SyncNode(j.d), job := Idle)
  }

  predicate InHand(s: Disk, d: NodeNo) { (s.job.Commit? && s.job.d == d) || (s.job.Touch? && s.job.d == d) }

  predicate InPlace(fs: Fs, d: NodeNo, g: Filing) { fs.Root(g.k).At(g.id) == Some(d) }

  predicate Placed(s: Disk, d: NodeNo) { d in s.homes && s.homes[d].Filed? && InPlace(s.fs, d, s.homes[d].filing) }

  /** rmtree of a committed directory: its names in any order, then the directory; no fsync. */
  ghost predicate RemoveStep(s: Disk, a: Act, s': Disk) {
    match a
    case Doom(d) => Placed(s, d) && !InHand(s, d) && s' == s.(live := s.live - {d}, doomed := s.doomed + {d})
    case RemoveFile(d, name) => d in s.doomed && Placed(s, d) && !InHand(s, d) && s' == s.(fs := s.fs.Unlink(d, name))
    case RemoveNode(d) =>
      d in s.doomed && Placed(s, d) && !InHand(s, d) && s.fs.Node(d).now == map[] &&
      var g := s.homes[d].filing;
      s' == s.(fs := s.fs.WithRoot(g.k, s.fs.Root(g.k).Unbind(g.id)))
    case _ => false
  }

  /** recover: empty the temporary root, then remove what fails the checks. */
  ghost predicate RecoverStep(parse: Parser, s: Disk, a: Act, s': Disk) {
    match a
    case RecoverUnlink(path, name) =>
      s.job.RecoverTmp? && path in s.fs.tmp.now && s' == s.(fs := s.fs.Unlink(s.fs.tmp.now[path], name))
    case RecoverRmdir(path) =>
      s.job.RecoverTmp? && path in s.fs.tmp.now && s.fs.Node(s.fs.tmp.now[path]).now == map[] &&
      s' == s.(fs := s.fs.(tmp := s.fs.tmp.Unbind(path)))
    case TmpEmpty => s.job.RecoverTmp? && s.fs.tmp.now == map[] && s' == s.(job := RecoverRoots(s.job.cold))
    case RecoverReject(k, id, name) =>
      s.job.RecoverRoots? && Rejects(parse, s.fs, k, id) && s' == s.(fs := s.fs.Unlink(s.fs.Root(k).now[id], name))
    case RecoverDrop(k, id) =>
      s.job.RecoverRoots? && Rejects(parse, s.fs, k, id) && s.fs.Node(s.fs.Root(k).now[id]).now == map[] &&
      s' == s.(fs := s.fs.WithRoot(k, s.fs.Root(k).Unbind(id)))
    case Recovered =>
      s.job.RecoverRoots? && (forall k, id :: Visible(s.fs, k, id) ==> !Rejects(parse, s.fs, k, id)) &&
      s' == s.(job := Idle, live := if s.job.cold then set d | d in s.homes && Placed(s, d) else s.live)
    case _ => false
  }

  predicate Rejects(parse: Parser, fs: Fs, k: Kind, id: Id) {
    Visible(fs, k, id) && !Recoverable(k, id, View(parse, fs, k, id))
  }

  /** One system call of somebody, an exception that ends the locked operation, or a crash. */
  ghost predicate DiskStep(parse: Parser, s: Disk, a: Act, s': Disk) {
    match a
    case Begin(j) => BeginStep(parse, s, j, s')
    case Advance => (s.job.Commit? && CommitStep(s, s.job, s')) || (s.job.Touch? && TouchStep(s, s.job, s'))
    case Abort => (s.job.Commit? || s.job.Touch?) && s' == s.(job := Idle)
    case Crash(fs) => Crashes(s.fs, fs) && s' == s.(fs := fs, doomed := {}, job := RecoverTmp(true))
    case Kill => s' == s.(doomed := {}, job := RecoverTmp(false))
    case _ =>
      if s.job.RecoverTmp? || s.job.RecoverRoots? then RecoverStep(parse, s, a, s')
      else StagingStep(s, a, s') || RemoveStep(s, a, s')
  }

  ghost predicate Fresh(s: Disk) {
    s == Disk(Fs(map[], map[], Folder(map[], {}), Folder(map[], {}), Folder(map[], {})), map[], {}, {}, Idle)
  }

  // ---- the invariant ----

  /** Whatever bindings come back, the directory shows its filing's data and record, or nothing. */
  ghost predicate Faded(parse: Parser, fs: Fs, d: NodeNo, g: Filing) {
    && (forall f: FileNo :: fs.Node(d).Possible(DataFile(g.record), Some(f)) ==>
        fs.Safe(f) && fs.files[f].data == g.data)
    && (forall f: FileNo :: fs.Node(d).Possible(MANIFEST, Some(f)) ==>
        fs.Safe(f) && Tells(parse, fs.files[f].data, g.record))
  }

  /** Neither name can be missing. */
  ghost predicate Firm(fs: Fs, d: NodeNo, g: Filing) {
    !fs.Node(d).Possible(DataFile(g.record), None) && !fs.Node(d).Possible(MANIFEST, None)
  }

  ghost predicate Filings(parse: Parser, s: Disk) {
    forall d :: d in s.homes && s.homes[d].Filed? ==>
        Fits(s.homes[d].filing) && Faded(parse, s.fs, d, s.homes[d].filing)
  }

  /** A committed entry cannot be lost: its name leads to its directory whatever comes back, the
      directory is whole, and no temporary name can lead there. */
  ghost predicate Durable(fs: Fs, d: NodeNo, g: Filing) {
    && Firm(fs, d, g)
    && fs.Root(g.k).At(g.id) == Some(d)
    && (forall t :: fs.Root(g.k).Possible(g.id, t) ==> t == Some(d))
    && (forall path: Path :: !fs.tmp.Possible(path, Some(d)))
  }

  ghost predicate LiveDurable(s: Disk) {
    forall d :: d in s.live ==> d in s.homes && s.homes[d].Filed? && Durable(s.fs, d, s.homes[d].filing)
  }

  ghost predicate RootHomed(s: Disk, k: Kind) {
    forall id: Id, d: NodeNo :: s.fs.Root(k).Possible(id, Some(d)) ==>
      d in s.homes && s.homes[d].Filed? && s.homes[d].filing.k == k && s.homes[d].filing.id == id
  }

  ghost predicate TmpHomed(s: Disk) {
    forall path: Path, d: NodeNo :: s.fs.tmp.Possible(path, Some(d)) ==>
        d in s.homes && (s.homes[d].Draft? ==> s.homes[d].path == path)
  }

  ghost predicate FilesKnown(fs: Fs, d: NodeNo) {
    forall name: Text, f: FileNo :: fs.Node(d).Possible(name, Some(f)) ==> f in fs.files
  }

  ghost predicate AllKnown(s: Disk) {
    && (forall d :: FilesKnown(s.fs, d))
    && (forall d :: d in s.fs.nodes ==> d in s.homes)
  }

  /** What the committing thread has achieved so far, by program point. */
  ghost predicate CommitHolds(parse: Parser, s: Disk, j: Job)
    requires j.Commit?
  {
    var now := s.fs.Node(j.d).now;
    && Fits(j.filing) && Tells(parse, j.bytes, j.filing.record) && TempName(j.temp, j.filing)
    && HasData(s.fs, j.d, j.filing)
    && j.d in s.homes && j.d !in s.live && j.d !in s.doomed
    && match j.pc
       case WriteManifest => BeforeMove(s, j)
       case SyncManifest => BeforeMove(s, j) && HasTemp(s.fs, j.d, j.temp, j.m, j.bytes)
       case ReplaceManifest => BeforeMove(s, j) && HasTemp(s.fs, j.d, j.temp, j.m, j.bytes) && s.fs.Safe(j.m)
       case SyncAfterReplace => BeforeMove(s, j) && HasManifest(parse, s.fs, j)
       case SyncFiles(todo) =>
         BeforeMove(s, j) && HasManifest(parse, s.fs, j) &&
         forall name :: name in now && name !in todo ==> s.fs.Safe(now[name])
       case SyncStaging =>
         BeforeMove(s, j) && HasManifest(parse, s.fs, j) && forall name :: name in now ==> s.fs.Safe(now[name])
       case MoveToRoot =>
         BeforeMove(s, j) && Faded(parse, s.fs, j.d, j.filing) && Firm(s.fs, j.d, j.filing)
       case SyncRoot => Moved(s, j)
       case SyncTmp => Moved(s, j) && forall t :: s.fs.Root(j.filing.k).Possible(j.filing.id, t) ==> t == Some(j.d)
  }

  ghost predicate BeforeMove(s: Disk, j: Job)
    requires j.Commit?
  {
    && j.d in s.homes && s.homes[j.d] == Draft(j.path) && s.fs.tmp.At(j.path) == Some(j.d)
    && j.filing.id !in s.fs.Root(j.filing.k).now
  }

  /** The new manifest is written under its temporary name. */
  predicate HasTemp(fs: Fs, d: NodeNo, temp: Text, m: FileNo, bytes: Bytes) {
    fs.Node(d).At(temp) == Some(m) && m in fs.files && fs.Data(m) == bytes
  }

  predicate HasManifest(parse: Parser, fs: Fs, j: Job)
    requires j.Commit?
  {
    var now := fs.Node(j.d).now;
    MANIFEST in now && fs.Safe(now[MANIFEST]) && Tells(parse, fs.Data(now[MANIFEST]), j.filing.record)
  }

  ghost predicate Moved(s: Disk, j: Job)
    requires j.Commit?
  {
    && j.d in s.homes && s.homes[j.d] == Filed(j.filing) && Firm(s.fs, j.d, j.filing) && InPlace(s.fs, j.d, j.filing)
    && forall path: Path :: s.fs.tmp.At(path) != Some(j.d)
  }

  ghost predicate TouchHolds(parse: Parser, s: Disk, j: Job)
    requires j.Touch?
  {
    && Tells(parse, j.bytes, j.filing.record) && TempName(j.temp, j.filing)
    && j.d in s.homes && s.homes[j.d] == Filed(j.filing) && Whole(s.fs, j.d, j.filing)
    && (j.tpc.TSync? || j.tpc.TReplace? ==> HasTemp(s.fs, j.d, j.temp, j.m, j.bytes))
    && (j.tpc.TReplace? ==> s.fs.Safe(j.m))
  }

  ghost predicate Settled<N(!new)>(folder: Folder<N>) {
    forall name, t :: Stale(name, t) in folder.stale ==> name !in folder.now
  }

  /** In a cold recovery nothing unsettled is in use: only names taken away can come back. */
  ghost predicate ColdHolds(s: Disk) {
    && Settled(s.fs.tmp) && Settled(s.fs.sources) && Settled(s.fs.results)
    && (forall d: NodeNo :: Settled(s.fs.Node(d)))
    && (forall path: Path, d: NodeNo :: s.fs.tmp.Possible(path, Some(d)) ==>
        s.fs.tmp.At(path) == Some(d) || s.fs.Node(d).now == map[])
  }

  ghost predicate RecoveryHolds(s: Disk)
    requires s.job.RecoverTmp? || s.job.RecoverRoots?
  {
    && (s.job.cold ==> ColdHolds(s))
    && (s.job.RecoverRoots? ==> s.fs.tmp.now == map[])
    && s.doomed == {}
  }

  ghost predicate JobHolds(parse: Parser, s: Disk) {
    match s.job
    case Idle => true
    case Commit(_, _, _, _, _, _, _) => CommitHolds(parse, s, s.job)
    case Touch(_, _, _, _, _, _) => TouchHolds(parse, s, s.job)
    case RecoverTmp(_) => RecoveryHolds(s)
    case RecoverRoots(_) => RecoveryHolds(s)
  }

  ghost predicate Consistent(parse: Parser, s: Disk) {
    && Filings(parse, s) && LiveDurable(s)
    && RootHomed(s, Source) && RootHomed(s, Result) && TmpHomed(s) && AllKnown(s)
    && s.live !! s.doomed && (forall d :: d in s.doomed ==> d in s.homes && s.homes[d].Filed?)
    && JobHolds(parse, s)
  }
}
