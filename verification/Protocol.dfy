// The durable delivery protocol as a transition system: any number of Enqueue
// calls, one forwarder, an optional audit wrapper with its redelivery guard, and
// crashes. Every action is one atomic step of the code; the I/O results and the
// clock readings are parameters of the actions, so a run is a list of actions.
module Protocol {
  import opened Options
  import opened SpoolNames
  import opened History

  newtype byte = x: int | 0 <= x < 256
  type Payload = seq<byte>

  // ------------------------------------------------------------ the file system

  // Where the one file of a key is: nowhere, under "<name>.tmp", under "<name>"
  // in the spool directory, or under "<name>" in dead/.
  datatype Loc = Absent | Temp | Queue | Dead

  // A key's file. `data` is what a reader sees, `flushed` whether those contents
  // are on stable storage. `may` holds every place the file may be found after
  // the power fails: the durable one and one for each directory operation that
  // no directory fsync has covered yet. A rename is atomic, so a file is never
  // in two places. `want` and `after` are fixed by the Enqueue call: its payload,
  // and the keys whose Enqueue had committed and returned before it started.
  datatype File = File(want: Payload, after: set<Key>, data: Payload, flushed: bool, loc: Loc, may: set<Loc>)

  function Moved(f: File, to: Loc): File {
    f.(loc := to, may := f.may + {to})
  }

  // fsync of the spool directory. It covers both ends of a rename inside the
  // directory; for a rename into dead/, which is never fsynced itself, all that
  // is known is that the file is at one end or the other.
  function SyncedFile(f: File): File {
    f.(may := if f.loc == Dead then f.may * {Queue, Dead} else {f.loc})
  }

  function Synced(files: map<Key, File>): map<Key, File> {
    map k | k in files :: SyncedFile(files[k])
  }

  // What one file may look like after the power failed.
  predicate Survives(f: File, g: File) {
    && g.want == f.want && g.after == f.after
    && g.loc in f.may && g.may == {g.loc}
    && g.flushed && (f.flushed ==> g.data == f.data)
  }

  function Queued(files: map<Key, File>): set<Key> {
    set k | k in files && files[k].loc == Queue
  }

  // ------------------------------------------------------------- control points

  // An Enqueue call, from the moment it has released the lock.
  datatype Pc =
    | Reserved   // name chosen, depth counted
    | Opened     // temp file created
    | Written    // payload written to it
    | Flushed    // temp file fsynced (or fsync is off)
    | Closed     // temp file closed
    | Renamed    // committed under its final name, forwarder not yet nudged
    | Nudged     // wake sent, directory not yet fsynced
    | Acked      // returned nil
    | Unacked    // committed, but returned the directory fsync error
    | Undoing    // about to remove the temp file
    | Unwinding  // about to give the reservation back
    | Failed     // returned an error, nothing committed

  datatype Forwarder =
    | Idle                                 // about to call forwardOldest
    | Parked                               // queue was empty: waiting for wake or 2 s
    | BackingOff                           // retryable failure: waiting
    | Listed(key: Key)                     // head of the listing chosen
    | Loaded(key: Key, data: Payload)      // head read, calling forward
    | Confirmed(key: Key, data: Payload)   // delivered (now or earlier), audit due
    | Deleting(key: Key)                   // forward returned nil, removing the file
    | Deleted                              // removed, depth not yet decremented
    | Burying(key: Key)                    // dead-lettering: rename due
    | Buried(key: Key)                     // renamed into dead/, depth not yet decremented
    | Mourning                             // decremented, OnDead hook due
  {
    predicate Holds(k: Key) {
      match this
      case Listed(j) => j == k
      case Loaded(j, _) => j == k
      case Confirmed(j, _) => j == k
      case Deleting(j) => j == k
      case Burying(j) => j == k
      case _ => false
    }
  }

  // Settings of the gateway, and hypotheses about its environment.
  datatype Config = Config(
    hash: Payload -> Digest,
    fsync: bool,        // SPOOL_FSYNC
    audit: bool,        // EGRESS_AUDIT_DIR set: forward is wrapped by auditingForward
    maxDepth: nat,
    clearOnDead: bool,  // the OnDead hook clears the guard (the code: true)
    powerLoss: bool,    // the power may fail
    removeWorks: bool,  // os.Remove of a queue file succeeds
    headStable: bool,   // no smaller name is committed while a head is being retried
    steadyClock: bool,  // the clock never goes back
    laterRestarts: bool)  // and reads later in a new process than in the one before
  {
    // Contents survive whatever the environment does.
    predicate Durable() {
      fsync || !powerLoss
    }
  }

  datatype State = State(
    files: map<Key, File>,   // every key ever reserved, so Keys are never reused
    threads: map<Key, Pc>,   // Enqueue calls of this process
    fw: Forwarder,
    depth: nat,
    seqNo: nat,
    wake: bool,
    guard: Option<Digest>,
    guarded: Option<Key>,    // the key whose delivery set the guard last
    clock: nat,              // latest clock reading
    base: nat,               // files found by New
    acked: set<Key>,         // Enqueue returned nil
    returned: set<Key>,      // Enqueue committed and returned
    log: Log)

  function Init(): State {
    State(map[], map[], Idle, 0, 0, false, None, None, 0, 0, {}, {}, Start)
  }

  predicate GuardMatches(cfg: Config, s: State, data: Payload) {
    cfg.audit && s.guard == Some(cfg.hash(data))
  }

  // A head that is being worked on, or whose audit is still owed.
  predicate Watched(s: State, h: Key) {
    s.fw.Holds(h) || (s.guard.Some? && s.guarded == Some(h))
  }

  // --------------------------------------------------------------------- actions

  // One step of an Enqueue call.
  datatype CallAction =
    | Reserve(now: nat, payload: Payload)
    | OpenTemp(key: Key, ok: bool)
    | WriteTemp(key: Key, ok: bool, written: Payload)
    | FlushTemp(key: Key, ok: bool)
    | CloseTemp(key: Key, ok: bool)
    | Commit(key: Key, ok: bool)
    | Nudge(key: Key)
    | SyncDir(key: Key, ok: bool)
    | RemoveTemp(key: Key, ok: bool)
    | Unwind(key: Key)

  // One step of Run and forwardOldest.
  datatype ForwardAction =
    | ListFails
    | ListEmpty
    | ListHead(key: Key)
    | ReadOk
    | ReadFails
    | DeliverOk
    | DeliverSkipped
    | DeliverRetryable
    | DeliverPermanent
    | AuditOk
    | AuditFails(line: bool)
    | Delete(ok: bool)
    | CountDeleted
    | Bury(ok: bool)
    | CountBuried
    | OnDead
    | Woken
    | TimerFires

  // Crash and PowerLoss include the restart that follows.
  datatype Action =
    | Call(c: CallAction)
    | Forward(f: ForwardAction)
    | Crash(now: nat)
    | PowerLoss(now: nat, found: map<Key, File>)

  predicate AtPc(s: State, k: Key, pc: Pc) {
    k in s.threads && k in s.files && s.threads[k] == pc
  }

  predicate ClockAllows(cfg: Config, s: State, now: nat, restart: bool) {
    && now < INT64_LIMIT
    && (cfg.steadyClock ==> s.clock <= now)
    && (cfg.laterRestarts && restart ==> s.clock < now)
  }

  // Committing k keeps every head that is being worked on the head.
  ghost predicate KeepsHeads(s: State, k: Key) {
    forall h :: Watched(s, h) ==> !Precedes(k, h)
  }

  // The control point at which a step of Enqueue is taken.
  function From(c: CallAction): Pc
    requires !c.Reserve?
  {
    match c
    case OpenTemp(_, _) => Reserved
    case WriteTemp(_, _, _) => Opened
    case FlushTemp(_, _) => Written
    case CloseTemp(_, _) => Flushed
    case Commit(_, _) => Closed
    case Nudge(_) => Renamed
    case SyncDir(_, _) => Nudged
    case RemoveTemp(_, _) => Undoing
    case Unwind(_) => Unwinding
  }

  // A write that succeeds writes everything; with fsync off nothing can fail there.
  predicate ResultFits(cfg: Config, c: CallAction, f: File) {
    match c
    case WriteTemp(_, ok, w) => ok ==> w == f.want
    case FlushTemp(_, ok) => cfg.fsync || ok
    case _ => true
  }

  ghost predicate CallEnabled(cfg: Config, s: State, c: CallAction) {
    if c.Reserve? then
      && s.depth < cfg.maxDepth
      && ClockAllows(cfg, s, c.now, false)
      && Key(c.now, s.seqNo + 1) !in s.files
    else
      && AtPc(s, c.key, From(c))
      && ResultFits(cfg, c, s.files[c.key])
      && (c.Commit? && c.ok && cfg.headStable ==> KeepsHeads(s, c.key))
  }

  // The first name of the sorted listing.
  ghost predicate IsHead(files: map<Key, File>, k: Key) {
    k in Queued(files) && forall j | j in Queued(files) :: !Precedes(j, k)
  }

  ghost predicate ForwardEnabled(cfg: Config, s: State, f: ForwardAction) {
    match f
    case ListFails => s.fw.Idle?
    case ListEmpty => s.fw.Idle? && Queued(s.files) == {}
    case ListHead(k) => s.fw.Idle? && IsHead(s.files, k)
    case ReadOk => s.fw.Listed? && s.fw.key in Queued(s.files)
    case ReadFails => s.fw.Listed?
    case DeliverOk => s.fw.Loaded? && !GuardMatches(cfg, s, s.fw.data)
    case DeliverSkipped => s.fw.Loaded? && GuardMatches(cfg, s, s.fw.data)
    case DeliverRetryable => s.fw.Loaded? && !GuardMatches(cfg, s, s.fw.data)
    case DeliverPermanent => s.fw.Loaded? && !GuardMatches(cfg, s, s.fw.data)
    case AuditOk => s.fw.Confirmed?
    case AuditFails(_) => s.fw.Confirmed?
    case Delete(ok) => s.fw.Deleting? && s.fw.key in s.files && (cfg.removeWorks ==> ok)
    case CountDeleted => s.fw.Deleted?
    case Bury(ok) => s.fw.Burying? && s.fw.key in s.files
    case CountBuried => s.fw.Buried?
    case OnDead => s.fw.Mourning?
    case Woken => s.fw.Parked? && s.wake
    case TimerFires => s.fw.Parked? || s.fw.BackingOff?
  }

  ghost predicate Enabled(cfg: Config, s: State, a: Action) {
    match a
    case Call(c) => CallEnabled(cfg, s, c)
    case Forward(f) => ForwardEnabled(cfg, s, f)
    case Crash(now) => ClockAllows(cfg, s, now, true)
    case PowerLoss(now, found) =>
      && cfg.powerLoss
      && ClockAllows(cfg, s, now, true)
      && found.Keys == s.files.Keys
      && forall k | k in s.files :: Survives(s.files[k], found[k])
  }

  // ----------------------------------------------------------------- transitions

  // Where a step of Enqueue leads, and what it does to its own file.
  function NextPc(cfg: Config, c: CallAction): Pc {
    match c
    case Reserve(_, _) => Reserved
    case OpenTemp(_, ok) => if ok then Opened else Undoing
    case WriteTemp(_, ok, _) => if ok then Written else Undoing
    case FlushTemp(_, ok) => if ok then Flushed else Undoing
    case CloseTemp(_, ok) => if ok then Closed else Undoing
    case Commit(_, ok) => if ok then Renamed else Undoing
    case Nudge(_) => if cfg.fsync then Nudged else Acked
    case SyncDir(_, ok) => if ok then Acked else Unacked
    case RemoveTemp(_, _) => Unwinding
    case Unwind(_) => Failed
  }

  function NextFile(cfg: Config, c: CallAction, f: File): File {
    match c
    case OpenTemp(_, ok) => if ok then Moved(f, Temp).(data := [], flushed := false) else f
    case WriteTemp(_, _, w) => f.(data := w)
    case FlushTemp(_, ok) => if ok && cfg.fsync then f.(flushed := true) else f
    case Commit(_, ok) => if ok then Moved(f, Queue) else f
    case RemoveTemp(_, ok) => if ok then Moved(f, Absent) else f
    case _ => f
  }

  // decDepth, with its underflow guard.
  function Decremented(depth: nat): nat {
    if depth > 0 then depth - 1 else depth
  }

  ghost function CallStep(cfg: Config, s: State, c: CallAction): State
    requires CallEnabled(cfg, s, c)
  {
    if c.Reserve? then
      var k := Key(c.now, s.seqNo + 1);
      s.(files := s.files[k := File(c.payload, s.returned, [], false, Absent, {Absent})],
      threads := s.threads[k := Reserved],
      depth := s.depth + 1, seqNo := s.seqNo + 1, clock := c.now)
    else
      var k := c.key;
      var pc := NextPc(cfg, c);
      var files := s.files[k := NextFile(cfg, c, s.files[k])];
      s.(files := if c.SyncDir? && c.ok then Synced(files) else files,
      threads := s.threads[k := pc],
      depth := if c.Unwind? then Decremented(s.depth) else s.depth,
      wake := s.wake || c.Nudge?,
      acked := if pc.Acked? then s.acked + {k} else s.acked,
      returned := if pc.Acked? || pc.Unacked? then s.returned + {k} else s.returned)
  }

  ghost function NextFw(cfg: Config, s: State, f: ForwardAction): Forwarder
    requires ForwardEnabled(cfg, s, f)
  {
    match f
    case ListFails => BackingOff
    case ListEmpty => Parked
    case ListHead(k) => Listed(k)
    case ReadOk => Loaded(s.fw.key, s.files[s.fw.key].data)
    case ReadFails => Burying(s.fw.key)
    case DeliverOk => if cfg.audit then Confirmed(s.fw.key, s.fw.data) else Deleting(s.fw.key)
    case DeliverSkipped => Confirmed(s.fw.key, s.fw.data)
    case DeliverRetryable => BackingOff
    case DeliverPermanent => Burying(s.fw.key)
    case AuditOk => Deleting(s.fw.key)
    case AuditFails(_) => BackingOff
    case Delete(_) => Deleted
    case CountDeleted => Idle
    case Bury(ok) => if ok then Buried(s.fw.key) else Idle
    case CountBuried => Mourning
    case OnDead => Idle
    case Woken => Idle
    case TimerFires => Idle
  }

  ghost function NextFiles(cfg: Config, s: State, f: ForwardAction): map<Key, File>
    requires ForwardEnabled(cfg, s, f)
  {
    if f.Delete? && f.ok then s.files[s.fw.key := Moved(s.files[s.fw.key], Absent)]
    else if f.Bury? && f.ok then s.files[s.fw.key := Moved(s.files[s.fw.key], Dead)]
    else s.files
  }

  ghost function NextGuard(cfg: Config, s: State, f: ForwardAction): Option<Digest>
    requires ForwardEnabled(cfg, s, f)
  {
    if f.DeliverOk? && cfg.audit then Some(cfg.hash(s.fw.data))
    else if f.AuditOk? || (f.OnDead? && cfg.clearOnDead) then None
    else s.guard
  }

  ghost function NextLog(cfg: Config, s: State, f: ForwardAction): Log
    requires ForwardEnabled(cfg, s, f)
  {
    match f
    case DeliverOk => Then(s.log, Delivered(s.fw.key, cfg.hash(s.fw.data)))
    case AuditOk => Then(Then(s.log, AuditLine(cfg.hash(s.fw.data))), Audited(cfg.hash(s.fw.data)))
    case AuditFails(line) => if line then Then(s.log, AuditLine(cfg.hash(s.fw.data))) else s.log
    case Delete(ok) =>
      if ok then Then(s.log, Removed(s.fw.key, cfg.hash(s.files[s.fw.key].data))) else s.log
    case Bury(ok) => if ok then Then(s.log, DeadLettered(s.fw.key)) else s.log
    case OnDead => if cfg.clearOnDead then Then(s.log, GuardCleared) else s.log
    case _ => s.log
  }

  ghost function ForwardStep(cfg: Config, s: State, f: ForwardAction): State
    requires ForwardEnabled(cfg, s, f)
  {
    s.(files := NextFiles(cfg, s, f),
    fw := NextFw(cfg, s, f),
    depth := if f.CountDeleted? || f.CountBuried? then Decremented(s.depth) else s.depth,
    wake := s.wake && !f.Woken?,
    guard := NextGuard(cfg, s, f),
    guarded := if f.DeliverOk? && cfg.audit then Some(s.fw.key) else s.guarded,
    log := NextLog(cfg, s, f))
  }

  // A new process: New counts the files it finds, and nothing else is remembered.
  function Reboot(s: State, files: map<Key, File>, now: nat): State {
    var left := |Queued(files)|;
    s.(files := files, threads := map[], fw := Idle, depth := left, seqNo := 0, wake := false,
    guard := None, clock := now, base := left, log := Then(s.log, Restarted))
  }

  ghost function Step(cfg: Config, s: State, a: Action): State
    requires Enabled(cfg, s, a)
  {
    match a
    case Call(c) => CallStep(cfg, s, c)
    case Forward(f) => ForwardStep(cfg, s, f)
    case Crash(now) => Reboot(s, s.files, now)
    case PowerLoss(now, found) => Reboot(s, found, now)
  }

  // ---------------------------------------------------------------------- frames

  // No step forgets a key or changes what its Enqueue call fixed.
  ghost predicate Remembers(files: map<Key, File>, files': map<Key, File>) {
    forall k | k in files :: k in files' && files'[k].want == files[k].want && files'[k].after == files[k].after
  }

  // An Enqueue step leaves the forwarder's half of the state alone.
  lemma CallFrame(cfg: Config, s: State, c: CallAction)
    requires CallEnabled(cfg, s, c)
    ensures var s' := CallStep(cfg, s, c);
            && s'.log == s.log && s'.fw == s.fw && s'.guard == s.guard && s'.guarded == s.guarded
            && s'.base == s.base && Remembers(s.files, s'.files)
  {
  }

  // ... and any file and call but its own.
  lemma CallOther(cfg: Config, s: State, c: CallAction, k: Key)
    requires CallEnabled(cfg, s, c) && k in s.files && (c.Reserve? || c.key != k)
    ensures var s' := CallStep(cfg, s, c);
            && k in s'.files && s'.files[k].loc == s.files[k].loc
            && (k in s'.threads <==> k in s.threads)
            && (k in s.threads ==> s'.threads[k] == s.threads[k])
  {
  }

  lemma ForwardFrame(cfg: Config, s: State, f: ForwardAction)
    requires ForwardEnabled(cfg, s, f)
    ensures var s' := ForwardStep(cfg, s, f);
            && s'.threads == s.threads && s'.seqNo == s.seqNo && s'.clock == s.clock && s'.base == s.base
            && s'.acked == s.acked && s'.returned == s.returned
            && Remembers(s.files, s'.files) && s'.files.Keys == s.files.Keys
  {
  }

  // ------------------------------------------------------------------------ runs

  // From s, the actions can all be taken one after the other.
  ghost predicate CanRun(cfg: Config, s: State, acts: seq<Action>)
    decreases |acts|
  {
    acts == [] || (Enabled(cfg, s, acts[0]) && CanRun(cfg, Step(cfg, s, acts[0]), acts[1..]))
  }

  ghost function Run(cfg: Config, s: State, acts: seq<Action>): State
    requires CanRun(cfg, s, acts)
    decreases |acts|
  {
    if acts == [] then s else Run(cfg, Step(cfg, s, acts[0]), acts[1..])
  }

  lemma {:induction false} RunAppend(cfg: Config, s: State, xs: seq<Action>, ys: seq<Action>)
    requires CanRun(cfg, s, xs) && CanRun(cfg, Run(cfg, s, xs), ys)
    ensures CanRun(cfg, s, xs + ys) && Run(cfg, s, xs + ys) == Run(cfg, Run(cfg, s, xs), ys)
    decreases |xs|
  {
    if xs == [] {
      assert xs + ys == ys;
    } else {
      assert (xs + ys)[1..] == xs[1..] + ys;
      RunAppend(cfg, Step(cfg, s, xs[0]), xs[1..], ys);
    }
  }

  lemma {:induction false} RunRemembers(cfg: Config, s: State, acts: seq<Action>)
    requires CanRun(cfg, s, acts)
    ensures Remembers(s.files, Run(cfg, s, acts).files)
    decreases |acts|
  {
    if acts != [] {
      match acts[0] {
        case Call(c) => CallFrame(cfg, s, c);
        case Forward(f) => ForwardFrame(cfg, s, f);
        case _ =>
      }
      RunRemembers(cfg, Step(cfg, s, acts[0]), acts[1..]);
    }
  }

  // The actions lead from s to s'.
  ghost predicate Leads(cfg: Config, s: State, acts: seq<Action>, s': State) {
    CanRun(cfg, s, acts) && Run(cfg, s, acts) == s'
  }

  lemma Extend(cfg: Config, s0: State, acts: seq<Action>, s: State, a: Action)
    returns (acts': seq<Action>, s': State)
    requires Leads(cfg, s0, acts, s) && Enabled(cfg, s, a)
    ensures acts' == acts + [a] && s' == Step(cfg, s, a) && Leads(cfg, s0, acts', s')
  {
    acts', s' := acts + [a], Step(cfg, s, a);
    assert CanRun(cfg, s', []);
    RunAppend(cfg, s0, acts, [a]);
  }

  lemma One(cfg: Config, s: State, a: Action) returns (s': State)
    requires Enabled(cfg, s, a)
    ensures s' == Step(cfg, s, a) && Leads(cfg, s, [a], s')
  {
    s' := Step(cfg, s, a);
    assert CanRun(cfg, s', []);
  }

  lemma Chain(cfg: Config, s: State, xs: seq<Action>, s1: State, ys: seq<Action>, s2: State)
    requires Leads(cfg, s, xs, s1) && Leads(cfg, s1, ys, s2)
    ensures Leads(cfg, s, xs + ys, s2)
  {
    RunAppend(cfg, s, xs, ys);
  }
}
