// The Spool class: its fields, the directory its system calls see, and methods
// with the shape of the code. A ghost copy of the protocol's state follows along:
// every method changes it only by enabled protocol steps, so whatever is proved
// of runs holds of the class. Enqueue is made of methods that each keep it so:
// between two of them, other calls and the forwarder may take their own.
module SpoolQueue {
  import opened Options
  import opened SpoolNames
  import opened History
  import opened Protocol
  import opened Listing
  import opened AuditForward
  import Depth
  import Ledger
  import Safety

  // Results of the system calls of one Enqueue.
  datatype EnqueueIo = EnqueueIo(
    open: bool, write: bool, partial: Payload, flush: bool, close: bool, rename: bool, remove: bool, syncDir: bool)

  datatype Outcome =
    | Full
    | Accepted    // returned nil
    | Failed      // nothing committed
    | NotDurable  // committed, but the directory fsync failed

  // Results of one forwardOldest.
  datatype ForwardIo = ForwardIo(
    list: bool, read: bool, deliver: Delivery, record: Recording, remove: bool, bury: bool)

  // Which case of a select is taken.
  datatype Wakeup = Done | Token | Timer

  // ------------------------------------------------------- the steps of each call

  // writeTempFile, up to the first system call that fails.
  function TempSteps(fsync: bool, k: Key, payload: Payload, io: EnqueueIo): seq<Action> {
    [Call(OpenTemp(k, io.open))] + if io.open then WriteSteps(fsync, k, payload, io) else []
  }

  function WriteSteps(fsync: bool, k: Key, payload: Payload, io: EnqueueIo): seq<Action> {
    [Call(WriteTemp(k, io.write, if io.write then payload else io.partial))] +
    if io.write then FlushSteps(fsync, k, io) else []
  }

  function FlushSteps(fsync: bool, k: Key, io: EnqueueIo): seq<Action> {
    [Call(FlushTemp(k, !fsync || io.flush))] + if fsync && !io.flush then [] else [Call(CloseTemp(k, io.close))]
  }

  predicate TempWritten(fsync: bool, io: EnqueueIo) {
    io.open && io.write && (fsync ==> io.flush) && io.close
  }

  function UndoSteps(k: Key, io: EnqueueIo): seq<Action> {
    [Call(RemoveTemp(k, io.remove)), Call(Unwind(k))]
  }

  function PublishSteps(fsync: bool, k: Key, io: EnqueueIo): seq<Action> {
    [Call(Nudge(k))] + if fsync then [Call(SyncDir(k, io.syncDir))] else []
  }

  function CommitSteps(fsync: bool, k: Key, io: EnqueueIo): seq<Action> {
    [Call(Commit(k, io.rename))] + if io.rename then PublishSteps(fsync, k, io) else UndoSteps(k, io)
  }

  function FinishSteps(fsync: bool, k: Key, io: EnqueueIo): seq<Action> {
    if TempWritten(fsync, io) then CommitSteps(fsync, k, io) else UndoSteps(k, io)
  }

  function EnqueueSteps(fsync: bool, k: Key, payload: Payload, io: EnqueueIo): seq<Action> {
    [Call(Reserve(k.nanos, payload))] + TempSteps(fsync, k, payload, io) + FinishSteps(fsync, k, io)
  }

  // One call of the forward function.
  function AttemptSteps(audit: bool, skip: bool, io: ForwardIo): seq<Action> {
    [Forward(DeliverStep(skip, io.deliver))] +
    if audit && (skip || io.deliver.Confirms?) then [Forward(RecordStep(io.record))] else []
  }

  function DeliverStep(skip: bool, delivery: Delivery): ForwardAction {
    if skip then DeliverSkipped
    else match delivery
      case RetryLater => DeliverRetryable
      case Rejects => DeliverPermanent
      case Confirms => DeliverOk
  }

  function RecordStep(recording: Recording): ForwardAction {
    match recording
    case NoLine => AuditFails(false)
    case LineOnly => AuditFails(true)
    case Complete => AuditOk
  }

  function BurySteps(io: ForwardIo): seq<Action> {
    [Forward(Bury(io.bury))] + if io.bury then [Forward(CountBuried), Forward(ForwardAction.OnDead)] else []
  }

  function RemoveSteps(io: ForwardIo): seq<Action> {
    [Forward(Delete(io.remove)), Forward(CountDeleted)]
  }

  // ----------------------------------------------------------- the oldest signal

  // The clock's reading fits an int64.
  ghost predicate InRange(files: map<Key, File>) {
    forall k | k in files :: k.nanos < INT64_LIMIT
  }

  // updateOldestPending: the time in the first name, the epoch when it cannot be
  // read, nothing when nothing is pending.
  function OldestOf(names: seq<string>): Option<int> {
    if names == [] then None
    else match ParseSpoolTime(names[0])
      case Some(nanos) => Some(nanos)
      case None => Some(0)
  }

  // A backlog is never reported as none: an unreadable name stands for the epoch.
  lemma OldestNeverHidden(names: seq<string>)
    ensures OldestOf(names).None? <==> names == []
    ensures names != [] ==>
              OldestOf(names) == if ParseSpoolTime(names[0]).Some? then ParseSpoolTime(names[0]) else Some(0)
  {
  }

  // No signal waits, or this is the enqueue time of the first to be forwarded.
  ghost predicate OldestIs(t: Option<int>, disk: map<Key, Node>) {
    if Waiting(disk) == {} then t == None
    else exists k | k in Waiting(disk) :: t == Some(k.nanos) && forall j | j in Waiting(disk) :: !Precedes(j, k)
  }

  lemma OldestListed(entries: seq<DirEntry>, files: map<Key, File>, names: seq<string>)
    requires Describes(entries, Visible(files)) && InRange(files)
    requires Sorted(names) && multiset(names) == multiset(PendingNames(entries))
    ensures OldestIs(OldestOf(names), Visible(files))
  {
    WaitingVisible(files);
    ListingHead(entries, files, names, Key(0, 0));
    if names != [] {
      var k :| k in Queued(files) && FileName(k) == names[0];
      ListingHead(entries, files, names, k);
      ParseSpoolTimeRoundTrip(k);
    }
  }

  lemma AckedKnown(c: Config, acts: seq<Action>, s: State)
    requires Leads(c, Init(), acts, s)
    ensures s.acked <= s.returned <= s.files.Keys
  {
    Safety.RunSound(c, Init(), acts);
  }

  lemma Restarts(c: Config, past: State, before: seq<Action>, files: map<Key, File>, now: nat, restart: Action)
    requires Leads(c, Init(), before, past) && Enabled(c, past, restart)
    requires restart == (if files == past.files then Crash(now) else PowerLoss(now, files))
    ensures Leads(c, Init(), before + [restart], Reboot(past, files, now))
    ensures AuditsPending(past.log) && LinesBacked(past.log)
  {
    var _, _ := Extend(c, Init(), before, past, restart);
    Ledger.RunBalanced(c, Init(), before);
  }

  // ----------------------------------------------------- the calls as protocol runs

  // What the steps of Enqueue on the temp file of k leave alone.
  ghost predicate OthersKept(s: State, s': State, k: Key) {
    && s'.fw == s.fw && s'.log == s.log && s'.guard == s.guard && s'.guarded == s.guarded
    && s'.base == s.base && s'.clock == s.clock && s'.seqNo == s.seqNo && s'.depth == s.depth && s'.wake == s.wake
    && s'.acked == s.acked && s'.returned == s.returned
    && k in s.files && k in s'.files && s'.files[k].want == s.files[k].want
    && s'.files == s.files[k := s'.files[k]]
    && k in s'.threads && s'.threads == s.threads[k := s'.threads[k]]
  }

  ghost predicate SameForwarder(s: State, s': State) {
    s'.fw == s.fw && s'.guard == s.guard && s'.guarded == s.guarded && s'.log == s.log
  }

  lemma ReserveRun(cfg: Config, s: State, payload: Payload, now: nat) returns (s': State)
    requires CallEnabled(cfg, s, Reserve(now, payload))
    ensures Leads(cfg, s, [Call(Reserve(now, payload))], s')
    ensures s' == CallStep(cfg, s, Reserve(now, payload))
    ensures Visible(s'.files) == Visible(s.files) && Key(now, s.seqNo + 1) !in Visible(s.files)
  {
    s' := One(cfg, s, Call(Reserve(now, payload)));
    VisiblePut(s.files, Key(now, s.seqNo + 1), s'.files[Key(now, s.seqNo + 1)]);
  }

  // One more system call on the temp file of k.
  lemma TempStep(cfg: Config, s0: State, acts: seq<Action>, s: State, c: CallAction) returns (s': State)
    requires c.OpenTemp? || c.WriteTemp? || c.FlushTemp? || c.CloseTemp?
    requires Leads(cfg, s0, acts, s) && OthersKept(s0, s, c.key)
    requires AtPc(s, c.key, From(c)) && ResultFits(cfg, c, s.files[c.key])
    ensures Leads(cfg, s0, acts + [Call(c)], s') && OthersKept(s0, s', c.key)
    ensures AtPc(s', c.key, NextPc(cfg, c)) && s'.files[c.key] == NextFile(cfg, c, s.files[c.key])
  {
    var acts', s'' := Extend(cfg, s0, acts, s, Call(c));
    s' := s'';
  }

  lemma FlushRun(cfg: Config, s0: State, acts: seq<Action>, s: State, k: Key, io: EnqueueIo) returns (s': State)
    requires Leads(cfg, s0, acts, s) && OthersKept(s0, s, k) && AtPc(s, k, Written)
    ensures Leads(cfg, s0, acts + FlushSteps(cfg.fsync, k, io), s') && OthersKept(s0, s', k)
    ensures AtPc(s', k, if (cfg.fsync ==> io.flush) && io.close then Closed else Undoing)
    ensures s'.files[k] == s.files[k].(flushed := s.files[k].flushed || (cfg.fsync && io.flush))
  {
    var a := FlushTemp(k, !cfg.fsync || io.flush);
    s' := TempStep(cfg, s0, acts, s, a);
    if !cfg.fsync || io.flush {
      s' := TempStep(cfg, s0, acts + [Call(a)], s', CloseTemp(k, io.close));
      assert acts + [Call(a)] + [Call(CloseTemp(k, io.close))] == acts + FlushSteps(cfg.fsync, k, io);
    } else {
      assert acts + [Call(a)] == acts + FlushSteps(cfg.fsync, k, io);
    }
  }

  lemma WriteRun(cfg: Config, s0: State, acts: seq<Action>, s: State, k: Key, io: EnqueueIo) returns (s': State)
    requires Leads(cfg, s0, acts, s) && OthersKept(s0, s, k) && AtPc(s, k, Opened)
    ensures Leads(cfg, s0, acts + WriteSteps(cfg.fsync, k, s.files[k].want, io), s') && OthersKept(s0, s', k)
    ensures AtPc(s', k, if io.write && (cfg.fsync ==> io.flush) && io.close then Closed else Undoing)
    ensures s'.files[k] == s.files[k].(data := if io.write then s.files[k].want else io.partial,
                                       flushed := s'.files[k].flushed)
    ensures io.write && io.flush && cfg.fsync ==> s'.files[k].flushed
  {
    var b := WriteTemp(k, io.write, if io.write then s.files[k].want else io.partial);
    s' := TempStep(cfg, s0, acts, s, b);
    if io.write {
      s' := FlushRun(cfg, s0, acts + [Call(b)], s', k, io);
      assert acts + [Call(b)] + FlushSteps(cfg.fsync, k, io) == acts + ([Call(b)] + FlushSteps(cfg.fsync, k, io));
    } else {
      assert acts + [Call(b)] == acts + ([Call(b)] + []);
    }
  }

  // writeTempFile, whole.
  lemma TempRun(cfg: Config, s: State, k: Key, io: EnqueueIo) returns (s': State)
    requires AtPc(s, k, Reserved) && s.files[k].loc == Absent
    ensures Leads(cfg, s, TempSteps(cfg.fsync, k, s.files[k].want, io), s') && OthersKept(s, s', k)
    ensures AtPc(s', k, if TempWritten(cfg.fsync, io) then Closed else Undoing)
    ensures var f := s'.files[k];
            && f.loc == (if io.open then Temp else Absent)
            && (io.open ==> f.data == if io.write then f.want else io.partial)
            && (TempWritten(cfg.fsync, io) && cfg.fsync ==> f.flushed)
  {
    var a := [Call(OpenTemp(k, io.open))];
    s' := TempStep(cfg, s, [], s, OpenTemp(k, io.open));
    assert [] + a == a && a + [] == a;
    if io.open {
      s' := WriteRun(cfg, s, a, s', k, io);
    }
  }

  // Where an Enqueue leaves its own file, its call and the counters.
  ghost predicate EnqueueEnds(cfg: Config, s: State, s': State, k: Key, payload: Payload, io: EnqueueIo) {
    && s'.fw == s.fw && s'.log == s.log && s'.guard == s.guard && s'.guarded == s.guarded && s'.base == s.base
    && s'.seqNo == s.seqNo + 1 && s'.clock == k.nanos
    && s'.depth == s.depth + (if Commits(cfg.fsync, io) then 1 else 0)
    && s'.wake == (s.wake || Commits(cfg.fsync, io))
    && s'.files.Keys == s.files.Keys + {k}
    && s'.acked == s.acked + (if Commits(cfg.fsync, io) && (cfg.fsync ==> io.syncDir) then {k} else {})
    && s'.returned == s.returned + (if Commits(cfg.fsync, io) then {k} else {})
    && Visible(s'.files) == Stored(Visible(s.files), cfg.fsync, k, payload, io)
    // What was accepted with fsync on is durable by now, contents and name.
    && (k in s'.acked && cfg.fsync ==> k in s'.files && s'.files[k].flushed && s'.files[k].may == {Queue})
  }

  predicate Commits(fsync: bool, io: EnqueueIo) {
    TempWritten(fsync, io) && io.rename
  }

  // What a call that found room returns: nil exactly when each system call that is
  // due has succeeded, the directory fsync's error exactly when that alone failed.
  predicate Reports(fsync: bool, io: EnqueueIo, r: Outcome) {
    var committed := io.open && io.write && (fsync ==> io.flush) && io.close && io.rename;
    && (r.Accepted? <==> committed && (fsync ==> io.syncDir))
    && (r.NotDurable? <==> committed && fsync && !io.syncDir)
    && (r.Failed? <==> !committed)
  }

  function Stored(disk: map<Key, Node>, fsync: bool, k: Key, payload: Payload, io: EnqueueIo): map<Key, Node> {
    if Commits(fsync, io) then disk[k := Node(Queue, payload)]
    else if io.open && !io.remove then disk[k := Node(Temp, if io.write then payload else io.partial)]
    else disk
  }

  lemma UndoRun(cfg: Config, s: State, k: Key, io: EnqueueIo) returns (s': State)
    requires AtPc(s, k, Undoing)
    ensures Leads(cfg, s, UndoSteps(k, io), s')
    ensures s' == s.(files := s.files[k := if io.remove then Moved(s.files[k], Absent) else s.files[k]],
                     threads := s.threads[k := Pc.Failed], depth := Decremented(s.depth))
  {
    var a := RemoveTemp(k, io.remove);
    var s1 := One(cfg, s, Call(a));
    var acts, s2 := Extend(cfg, s, [Call(a)], s1, Call(Unwind(k)));
    s' := s2;
    assert acts == UndoSteps(k, io);
    assert s'.threads == s.threads[k := Pc.Failed];
    assert s'.files == s.files[k := s'.files[k]];
  }

  lemma PublishRun(cfg: Config, s: State, k: Key, io: EnqueueIo) returns (s': State)
    requires AtPc(s, k, Renamed)
    ensures Leads(cfg, s, PublishSteps(cfg.fsync, k, io), s')
    ensures var acked := cfg.fsync ==> io.syncDir;
            s' == s.(files := if cfg.fsync && acked then Synced(s.files) else s.files,
                     threads := s.threads[k := if acked then Acked else Unacked], wake := true,
                     acked := if acked then s.acked + {k} else s.acked, returned := s.returned + {k})
  {
    s' := One(cfg, s, Call(Nudge(k)));
    assert s'.files == s.files;
    if cfg.fsync {
      var acts, s2 := Extend(cfg, s, [Call(Nudge(k))], s', Call(SyncDir(k, io.syncDir)));
      s' := s2;
      assert acts == PublishSteps(cfg.fsync, k, io);
      assert s'.threads == s.threads[k := s'.threads[k]];
      assert s.files[k := s.files[k]] == s.files;
    } else {
      assert [Call(Nudge(k))] + [] == [Call(Nudge(k))];
    }
  }

  lemma FailRun(cfg: Config, s: State, k: Key, io: EnqueueIo) returns (s': State)
    requires AtPc(s, k, Undoing)
    ensures Leads(cfg, s, UndoSteps(k, io), s') && AtPc(s', k, Pc.Failed)
    ensures s' == s.(files := s'.files, threads := s'.threads, depth := Decremented(s.depth))
    ensures s'.files.Keys == s.files.Keys
    ensures Visible(s'.files) == if io.remove then Visible(s.files) - {k} else Visible(s.files)
  {
    s' := UndoRun(cfg, s, k, io);
    var f := if io.remove then Moved(s.files[k], Absent) else s.files[k];
    VisiblePut(s.files, k, f);
    if !io.remove {
      assert s.files[k := f] == s.files;
    }
  }

  lemma RenameRun(cfg: Config, s: State, k: Key, ok: bool) returns (s': State)
    requires AtPc(s, k, Closed) && s.files[k].loc == Temp && (ok && cfg.headStable ==> KeepsHeads(s, k))
    ensures Leads(cfg, s, [Call(Commit(k, ok))], s') && AtPc(s', k, if ok then Renamed else Undoing)
    ensures s' == s.(files := s'.files, threads := s'.threads) && s'.files.Keys == s.files.Keys
    ensures s'.files[k] == if ok then Moved(s.files[k], Queue) else s.files[k]
    ensures Visible(s'.files) == if ok then Visible(s.files)[k := Node(Queue, s.files[k].data)] else Visible(s.files)
  {
    s' := One(cfg, s, Call(Commit(k, ok)));
    VisiblePut(s.files, k, s'.files[k]);
    if !ok {
      assert s'.files == s.files;
    }
  }

  // From the closed temp file to the return.
  lemma CommitRun(cfg: Config, s: State, k: Key, io: EnqueueIo) returns (s': State)
    requires AtPc(s, k, Closed) && (cfg.headStable ==> KeepsHeads(s, k))
    requires s.files[k].loc == Temp && Commits(cfg.fsync, io)
    ensures Leads(cfg, s, [Call(Commit(k, true))] + PublishSteps(cfg.fsync, k, io), s')
    ensures var acked := cfg.fsync ==> io.syncDir;
            s' == s.(files := s'.files, threads := s'.threads, wake := true,
                     acked := if acked then s.acked + {k} else s.acked, returned := s.returned + {k})
            && s'.files.Keys == s.files.Keys
            && Visible(s'.files) == Visible(s.files)[k := Node(Queue, s.files[k].data)]
            && (acked && cfg.fsync ==> s'.files[k].flushed == s.files[k].flushed && s'.files[k].may == {Queue})
  {
    var s1 := RenameRun(cfg, s, k, true);
    VisibleSynced(s1.files);
    s' := PublishRun(cfg, s1, k, io);
    Chain(cfg, s, [Call(Commit(k, true))], s1, PublishSteps(cfg.fsync, k, io), s');
  }

  // From the closed temp file to a failed rename and back.
  lemma RevertRun(cfg: Config, s: State, k: Key, io: EnqueueIo) returns (s': State)
    requires AtPc(s, k, Closed) && s.files[k].loc == Temp && !io.rename
    ensures Leads(cfg, s, CommitSteps(cfg.fsync, k, io), s')
    ensures s' == s.(files := s'.files, threads := s'.threads, depth := Decremented(s.depth))
    ensures s'.files.Keys == s.files.Keys
    ensures Visible(s'.files) == if io.remove then Visible(s.files) - {k} else Visible(s.files)
  {
    var s1 := RenameRun(cfg, s, k, false);
    s' := FailRun(cfg, s1, k, io);
    Chain(cfg, s, [Call(Commit(k, false))], s1, UndoSteps(k, io), s');
  }

  lemma Assoc(xs: seq<Action>, ys: seq<Action>, zs: seq<Action>)
    ensures xs + ys + zs == xs + (ys + zs)
  {
  }

  lemma PutAgain(disk: map<Key, Node>, k: Key, m: Node, n: Node)
    requires k !in disk
    ensures disk[k := m][k := n] == disk[k := n] && disk[k := m] - {k} == disk && disk - {k} == disk
  {
  }

  // The reservation and the temp file.
  lemma PrepareRun(cfg: Config, s: State, k: Key, payload: Payload, io: EnqueueIo) returns (s': State)
    requires CallEnabled(cfg, s, Reserve(k.nanos, payload)) && k == Key(k.nanos, s.seqNo + 1)
    ensures Leads(cfg, s, [Call(Reserve(k.nanos, payload))] + TempSteps(cfg.fsync, k, payload, io), s')
    ensures s' == s.(files := s'.files, threads := s'.threads,
                     depth := s.depth + 1, seqNo := s.seqNo + 1, clock := k.nanos)
    ensures s'.files.Keys == s.files.Keys + {k} && k !in Visible(s.files)
    ensures AtPc(s', k, if TempWritten(cfg.fsync, io) then Closed else Undoing)
    ensures io.open ==> s'.files[k].loc == Temp && s'.files[k].data == if io.write then payload else io.partial
    ensures Visible(s'.files) ==
            if io.open then Visible(s.files)[k := Node(Temp, s'.files[k].data)] else Visible(s.files)
    ensures TempWritten(cfg.fsync, io) && cfg.fsync ==> s'.files[k].flushed
  {
    var s1 := ReserveRun(cfg, s, payload, k.nanos);
    s' := TempRun(cfg, s1, k, io);
    VisiblePut(s1.files, k, s'.files[k]);
    Chain(cfg, s, [Call(Reserve(k.nanos, payload))], s1, TempSteps(cfg.fsync, k, payload, io), s');
  }

  lemma CommittedRun(cfg: Config, s: State, k: Key, payload: Payload, io: EnqueueIo) returns (s': State)
    requires CallEnabled(cfg, s, Reserve(k.nanos, payload)) && k == Key(k.nanos, s.seqNo + 1) && k !in s.acked
    requires (cfg.headStable ==> KeepsHeads(s, k)) && Commits(cfg.fsync, io)
    ensures Leads(cfg, s, EnqueueSteps(cfg.fsync, k, payload, io), s')
    ensures EnqueueEnds(cfg, s, s', k, payload, io)
  {
    var acts := [Call(Reserve(k.nanos, payload))] + TempSteps(cfg.fsync, k, payload, io);
    var s1 := PrepareRun(cfg, s, k, payload, io);
    PutAgain(Visible(s.files), k, Node(Temp, payload), Node(Queue, payload));
    s' := CommitRun(cfg, s1, k, io);
    Chain(cfg, s, acts, s1, [Call(Commit(k, true))] + PublishSteps(cfg.fsync, k, io), s');
  }

  lemma RenameFailsRun(cfg: Config, s: State, k: Key, payload: Payload, io: EnqueueIo) returns (s': State)
    requires CallEnabled(cfg, s, Reserve(k.nanos, payload)) && k == Key(k.nanos, s.seqNo + 1) && k !in s.acked
    requires TempWritten(cfg.fsync, io) && !io.rename
    ensures Leads(cfg, s, EnqueueSteps(cfg.fsync, k, payload, io), s')
    ensures EnqueueEnds(cfg, s, s', k, payload, io)
  {
    var acts := [Call(Reserve(k.nanos, payload))] + TempSteps(cfg.fsync, k, payload, io);
    var s1 := PrepareRun(cfg, s, k, payload, io);
    PutAgain(Visible(s.files), k, Node(Temp, payload), Node(Temp, payload));
    s' := RevertRun(cfg, s1, k, io);
    Chain(cfg, s, acts, s1, CommitSteps(cfg.fsync, k, io), s');
  }

  lemma TempFailsRun(cfg: Config, s: State, k: Key, payload: Payload, io: EnqueueIo) returns (s': State)
    requires CallEnabled(cfg, s, Reserve(k.nanos, payload)) && k == Key(k.nanos, s.seqNo + 1) && k !in s.acked
    requires !TempWritten(cfg.fsync, io)
    ensures Leads(cfg, s, EnqueueSteps(cfg.fsync, k, payload, io), s')
    ensures EnqueueEnds(cfg, s, s', k, payload, io)
  {
    var s1 := PrepareRun(cfg, s, k, payload, io);
    var n := Node(Temp, if io.write then payload else io.partial);
    PutAgain(Visible(s.files), k, n, n);
    s' := FailRun(cfg, s1, k, io);
    var acts := [Call(Reserve(k.nanos, payload))] + TempSteps(cfg.fsync, k, payload, io);
    Chain(cfg, s, acts, s1, UndoSteps(k, io), s');
  }

  // Enqueue, whole, when no other call comes between.
  lemma EnqueueRun(cfg: Config, s: State, k: Key, payload: Payload, io: EnqueueIo) returns (s': State)
    requires CallEnabled(cfg, s, Reserve(k.nanos, payload)) && k == Key(k.nanos, s.seqNo + 1) && k !in s.acked
    requires cfg.headStable ==> KeepsHeads(s, k)
    ensures Leads(cfg, s, EnqueueSteps(cfg.fsync, k, payload, io), s')
    ensures EnqueueEnds(cfg, s, s', k, payload, io)
  {
    if Commits(cfg.fsync, io) {
      s' := CommittedRun(cfg, s, k, payload, io);
    } else if TempWritten(cfg.fsync, io) {
      s' := RenameFailsRun(cfg, s, k, payload, io);
    } else {
      s' := TempFailsRun(cfg, s, k, payload, io);
    }
  }

  // The methods took these steps, so they ended where the steps lead.
  lemma EnqueueEnded(cfg: Config, trail: seq<Action>, s: State, s': State, trail': seq<Action>,
                     k: Key, payload: Payload, io: EnqueueIo)
    requires Leads(cfg, Init(), trail, s) && Leads(cfg, Init(), trail', s')
    requires trail' == trail + [Call(Reserve(k.nanos, payload))] + TempSteps(cfg.fsync, k, payload, io)
                       + FinishSteps(cfg.fsync, k, io)
    requires CallEnabled(cfg, s, Reserve(k.nanos, payload)) && k == Key(k.nanos, s.seqNo + 1)
    requires cfg.headStable ==> KeepsHeads(s, k)
    ensures EnqueueEnds(cfg, s, s', k, payload, io) && trail' == trail + EnqueueSteps(cfg.fsync, k, payload, io)
    ensures s'.files[k].want == payload && k !in s.acked && k !in s.returned
  {
    var first, temp := [Call(Reserve(k.nanos, payload))], TempSteps(cfg.fsync, k, payload, io);
    Assoc(trail, first, temp);
    Assoc(trail, first + temp, FinishSteps(cfg.fsync, k, io));
    AckedKnown(cfg, trail, s);
    var s1 := EnqueueRun(cfg, s, k, payload, io);
    Chain(cfg, Init(), trail, s, EnqueueSteps(cfg.fsync, k, payload, io), s1);
    KeepsWant(cfg, s, k, payload, EnqueueSteps(cfg.fsync, k, payload, io));
  }

  // A file is wanted to hold what its call reserved it for.
  lemma KeepsWant(cfg: Config, s: State, k: Key, payload: Payload, acts: seq<Action>)
    requires CanRun(cfg, s, acts) && acts != [] && acts[0] == Call(Reserve(k.nanos, payload))
    requires k == Key(k.nanos, s.seqNo + 1)
    ensures k in Run(cfg, s, acts).files && Run(cfg, s, acts).files[k].want == payload
  {
    var s1 := Step(cfg, s, acts[0]);
    assert s1.files[k].want == payload;
    RunRemembers(cfg, s1, acts[1..]);
  }

  // Where the file of a call is that has not reached its rename, and that no call
  // has returned before its last step.
  lemma CallPlaces(cfg: Config, trail: seq<Action>, s: State, k: Key)
    requires Leads(cfg, Init(), trail, s)
    ensures k in s.threads && k in s.files && !s.threads[k].Acked? && !s.threads[k].Unacked? ==>
              k !in s.acked && k !in s.returned
    ensures AtPc(s, k, Reserved) ==> s.files[k].loc == Absent
    ensures AtPc(s, k, Closed) ==> s.files[k].loc == Temp
  {
    Safety.RunSound(cfg, Init(), trail);
    if k in s.files {
      assert Safety.FileOk(cfg, s.files[k], Safety.ViewOf(s, k));
    }
  }

  // ------------------------------------------------------- one turn of the forwarder

  // What the forward function returns.
  function VerdictOf(audit: bool, skip: bool, io: ForwardIo): Verdict {
    if !skip && !io.deliver.Confirms? then (if io.deliver.Rejects? then Permanent else Retryable)
    else if audit && !io.record.Complete? then Retryable
    else Success
  }

  // An unreadable file is dead-lettered like a rejected one.
  function HeadVerdict(audit: bool, skip: bool, io: ForwardIo): Verdict {
    if io.read then VerdictOf(audit, skip, io) else Permanent
  }

  function SettleSteps(v: Verdict, io: ForwardIo): seq<Action> {
    match v
    case Success => RemoveSteps(io)
    case Permanent => BurySteps(io)
    case Retryable => []
  }

  function HeadSteps(audit: bool, k: Key, skip: bool, io: ForwardIo): seq<Action> {
    [Forward(ListHead(k))] +
    (if io.read then [Forward(ReadOk)] + AttemptSteps(audit, skip, io) else [Forward(ReadFails)]) +
    SettleSteps(HeadVerdict(audit, skip, io), io)
  }

  function GuardTried(audit: bool, guard: Option<Digest>, d: Digest, io: ForwardIo): Option<Digest> {
    var skip := audit && guard == Some(d);
    if !audit || (!skip && !io.deliver.Confirms?) then guard else if io.record.Complete? then None else Some(d)
  }

  function LogTried(audit: bool, log: Log, guard: Option<Digest>, k: Key, d: Digest, io: ForwardIo): Log {
    var skip := audit && guard == Some(d);
    if !skip && !io.deliver.Confirms? then log
    else
      var confirmed := if skip then log else Confirming(log, k, d);
      if audit then Recorded(confirmed, d, io.record) else confirmed
  }

  function LogRemoved(log: Log, k: Key, d: Digest, io: ForwardIo): Log {
    if io.remove then Then(log, Removed(k, d)) else log
  }

  function LogBuried(log: Log, k: Key, io: ForwardIo): Log {
    if io.bury then Then(Then(log, DeadLettered(k)), GuardCleared) else log
  }

  function HeadGuard(audit: bool, guard: Option<Digest>, d: Digest, io: ForwardIo): Option<Digest> {
    if HeadVerdict(audit, audit && guard == Some(d), io).Permanent? && io.bury then None
    else if io.read then GuardTried(audit, guard, d, io)
    else guard
  }

  function HeadLog(audit: bool, log: Log, guard: Option<Digest>, k: Key, d: Digest, io: ForwardIo): Log {
    var tried := if io.read then LogTried(audit, log, guard, k, d, io) else log;
    match HeadVerdict(audit, audit && guard == Some(d), io)
    case Success => LogRemoved(tried, k, d, io)
    case Permanent => LogBuried(tried, k, io)
    case Retryable => tried
  }

  function HeadDisk(disk: map<Key, Node>, k: Key, v: Verdict, io: ForwardIo): map<Key, Node>
    requires k in disk
  {
    match v
    case Success => if io.remove then disk - {k} else disk
    case Permanent => if io.bury then disk[k := Node(Dead, disk[k].data)] else disk
    case Retryable => disk
  }

  // A failed dead-lettering is not counted, a failed removal is.
  function HeadDepth(depth: nat, v: Verdict, io: ForwardIo): nat {
    if v.Success? || (v.Permanent? && io.bury) then Decremented(depth) else depth
  }

  function Settling(v: Verdict, k: Key): Forwarder {
    match v
    case Success => Deleting(k)
    case Permanent => Burying(k)
    case Retryable => BackingOff
  }

  lemma DeliverRun(cfg: Config, s: State, k: Key, delivery: Delivery) returns (s': State)
    requires s.fw.Loaded? && s.fw.key == k
    ensures var d := cfg.hash(s.fw.data);
            var skip := cfg.audit && s.guard == Some(d);
            var done := skip || delivery.Confirms?;
            && Leads(cfg, s, [Forward(DeliverStep(skip, delivery))], s')
            && s' == s.(fw := if done && cfg.audit then Confirmed(k, s.fw.data)
                              else Settling(if done then Success
                                            else if delivery.Rejects? then Permanent else Retryable, k),
                        guard := if done && cfg.audit then Some(d) else s.guard,
                        guarded := s'.guarded,
                        log := if done && !skip then Confirming(s.log, k, d) else s.log)
  {
    s' := One(cfg, s, Forward(DeliverStep(cfg.audit && s.guard == Some(cfg.hash(s.fw.data)), delivery)));
  }

  lemma RecordRun(cfg: Config, s: State, k: Key, recording: Recording) returns (s': State)
    requires s.fw.Confirmed? && s.fw.key == k
    ensures Leads(cfg, s, [Forward(RecordStep(recording))], s')
    ensures s' == s.(fw := Settling(if recording.Complete? then Success else Retryable, k),
                     guard := if recording.Complete? then None else s.guard,
                     log := Recorded(s.log, cfg.hash(s.fw.data), recording))
  {
    s' := One(cfg, s, Forward(RecordStep(recording)));
  }

  lemma AttemptRun(cfg: Config, s: State, k: Key, io: ForwardIo) returns (s': State)
    requires s.fw.Loaded? && s.fw.key == k
    ensures var d := cfg.hash(s.fw.data);
            var skip := cfg.audit && s.guard == Some(d);
            && Leads(cfg, s, AttemptSteps(cfg.audit, skip, io), s')
            && s' == s.(fw := Settling(VerdictOf(cfg.audit, skip, io), k),
                        guard := GuardTried(cfg.audit, s.guard, d, io),
                        guarded := s'.guarded,
                        log := LogTried(cfg.audit, s.log, s.guard, k, d, io))
  {
    var first := Forward(DeliverStep(cfg.audit && s.guard == Some(cfg.hash(s.fw.data)), io.deliver));
    var s1 := DeliverRun(cfg, s, k, io.deliver);
    if s1.fw.Confirmed? {
      s' := RecordRun(cfg, s1, k, io.record);
      Chain(cfg, s, [first], s1, [Forward(RecordStep(io.record))], s');
    } else {
      s' := s1;
      assert [first] + [] == [first];
    }
  }

  lemma BuryRun(cfg: Config, s: State, k: Key, io: ForwardIo) returns (s': State)
    requires cfg.clearOnDead && s.fw == Burying(k) && k in s.files
    ensures Leads(cfg, s, BurySteps(io), s')
    ensures s' == s.(files := if io.bury then s.files[k := Moved(s.files[k], Dead)] else s.files,
                     fw := Idle, depth := HeadDepth(s.depth, Permanent, io),
                     guard := if io.bury then None else s.guard, log := LogBuried(s.log, k, io))
  {
    s' := One(cfg, s, Forward(Bury(io.bury)));
    var acts := [Forward(Bury(io.bury))];
    if io.bury {
      var acts1, s1 := Extend(cfg, s, acts, s', Forward(CountBuried));
      var acts2, s2 := Extend(cfg, s, acts1, s1, Forward(ForwardAction.OnDead));
      s' := s2;
      assert acts2 == BurySteps(io);
    } else {
      assert acts + [] == acts;
    }
  }

  lemma RemoveRun(cfg: Config, s: State, k: Key, io: ForwardIo) returns (s': State)
    requires s.fw == Deleting(k) && k in s.files && (cfg.removeWorks ==> io.remove)
    ensures Leads(cfg, s, RemoveSteps(io), s')
    ensures s' == s.(files := if io.remove then s.files[k := Moved(s.files[k], Absent)] else s.files,
                     fw := Idle, depth := Decremented(s.depth),
                     log := LogRemoved(s.log, k, cfg.hash(s.files[k].data), io))
  {
    var s1 := One(cfg, s, Forward(Delete(io.remove)));
    var acts, s2 := Extend(cfg, s, [Forward(Delete(io.remove))], s1, Forward(CountDeleted));
    s' := s2;
    assert acts == RemoveSteps(io);
  }

  // From the listing to the verdict on the head.
  lemma VerdictRun(cfg: Config, s: State, k: Key, io: ForwardIo) returns (s': State, acts: seq<Action>)
    requires s.fw.Idle? && IsHead(s.files, k)
    ensures var d := cfg.hash(s.files[k].data);
            var skip := cfg.audit && s.guard == Some(d);
            && acts == [Forward(ListHead(k))] +
                       (if io.read then [Forward(ReadOk)] + AttemptSteps(cfg.audit, skip, io) else [Forward(ReadFails)])
            && Leads(cfg, s, acts, s')
            && s' == s.(fw := Settling(HeadVerdict(cfg.audit, skip, io), k),
                        guard := if io.read then GuardTried(cfg.audit, s.guard, d, io) else s.guard,
                        guarded := s'.guarded,
                        log := if io.read then LogTried(cfg.audit, s.log, s.guard, k, d, io) else s.log)
  {
    var s1 := One(cfg, s, Forward(ListHead(k)));
    var acts2, s2 := Extend(cfg, s, [Forward(ListHead(k))], s1, Forward(if io.read then ReadOk else ReadFails));
    acts, s' := acts2, s2;
    if io.read {
      s' := AttemptRun(cfg, s2, k, io);
      var tried := AttemptSteps(cfg.audit, cfg.audit && s.guard == Some(cfg.hash(s.files[k].data)), io);
      Chain(cfg, s, acts2, s2, tried, s');
      acts := acts2 + tried;
      assert acts == [Forward(ListHead(k))] + ([Forward(ReadOk)] + tried);
    }
  }

  // ... and to its consequences.
  lemma SettleRun(cfg: Config, s: State, k: Key, v: Verdict, io: ForwardIo) returns (s': State)
    requires cfg.clearOnDead && s.fw == Settling(v, k) && k in s.files && s.files[k].loc == Queue
    requires cfg.removeWorks ==> io.remove
    ensures Leads(cfg, s, SettleSteps(v, io), s')
    ensures s' == s.(files := s'.files, fw := if v.Retryable? then BackingOff else Idle,
                     depth := HeadDepth(s.depth, v, io),
                     guard := if v.Permanent? && io.bury then None else s.guard,
                     log := match v case Success => LogRemoved(s.log, k, cfg.hash(s.files[k].data), io)
                            case Permanent => LogBuried(s.log, k, io) case Retryable => s.log)
    ensures Visible(s'.files) == HeadDisk(Visible(s.files), k, v, io) && s'.files.Keys == s.files.Keys
  {
    match v
    case Success =>
      s' := RemoveRun(cfg, s, k, io);
      VisiblePut(s.files, k, Moved(s.files[k], Absent));
    case Permanent =>
      s' := BuryRun(cfg, s, k, io);
      VisiblePut(s.files, k, Moved(s.files[k], Dead));
    case Retryable =>
      s' := s;
      assert CanRun(cfg, s, []);
  }

  // forwardOldest on a queue that is not empty, whole.
  lemma HeadRun(cfg: Config, s: State, k: Key, io: ForwardIo) returns (s': State)
    requires cfg.clearOnDead && s.fw.Idle? && IsHead(s.files, k) && (cfg.removeWorks ==> io.remove)
    ensures var d := cfg.hash(s.files[k].data);
            var skip := cfg.audit && s.guard == Some(d);
            var v := HeadVerdict(cfg.audit, skip, io);
            && Leads(cfg, s, HeadSteps(cfg.audit, k, skip, io), s')
            && s' == s.(files := s'.files, fw := if v.Retryable? then BackingOff else Idle,
                        depth := HeadDepth(s.depth, v, io), guard := HeadGuard(cfg.audit, s.guard, d, io),
                        guarded := s'.guarded, log := HeadLog(cfg.audit, s.log, s.guard, k, d, io))
            && Visible(s'.files) == HeadDisk(Visible(s.files), k, v, io) && s'.files.Keys == s.files.Keys
  {
    var skip := cfg.audit && s.guard == Some(cfg.hash(s.files[k].data));
    var v := HeadVerdict(cfg.audit, skip, io);
    var s1, acts := VerdictRun(cfg, s, k, io);
    s' := SettleRun(cfg, s1, k, v, io);
    Chain(cfg, s, acts, s1, SettleSteps(v, io), s');
  }

  // This payload was delivered before, and only its audit record is due.
  predicate Skips(cfg: Config, s: State, data: Payload) {
    cfg.audit && s.guard == Some(cfg.hash(data))
  }

  // What of a state the fate of a signal is told by.
  datatype Scene = Scene(disk: map<Key, Node>, guard: Option<Digest>, sent: multiset<Key>)

  function SceneOf(s: State): Scene {
    Scene(Visible(s.files), s.guard, Sent(s.log))
  }

  // What a turn does to the head k: delivered or recognised, then audited, then
  // removed; rejected or unreadable, then dead-lettered; or left where it is.
  function HeadScene(cfg: Config, c: Scene, k: Key, io: ForwardIo): Scene
    requires k in c.disk
  {
    var d := cfg.hash(c.disk[k].data);
    var skip := cfg.audit && c.guard == Some(d);
    Scene(HeadDisk(c.disk, k, HeadVerdict(cfg.audit, skip, io), io), HeadGuard(cfg.audit, c.guard, d, io),
          c.sent + if io.read && !skip && io.deliver.Confirms? then multiset{k} else multiset{})
  }

  lemma HeadSends(audit: bool, log: Log, guard: Option<Digest>, k: Key, d: Digest, io: ForwardIo)
    ensures var skip := audit && guard == Some(d);
            Sent(HeadLog(audit, log, guard, k, d, io)) ==
            Sent(log) + if io.read && !skip && io.deliver.Confirms? then multiset{k} else multiset{}
  {
    var tried := if io.read then LogTried(audit, log, guard, k, d, io) else log;
    TriedSends(audit, log, guard, k, d, io);
    SettledSends(tried, k, d, io);
  }

  lemma TriedSends(audit: bool, log: Log, guard: Option<Digest>, k: Key, d: Digest, io: ForwardIo)
    ensures var skip := audit && guard == Some(d);
            Sent(LogTried(audit, log, guard, k, d, io)) ==
            Sent(log) + if !skip && io.deliver.Confirms? then multiset{k} else multiset{}
  {
    RecordedSends(log, d, io.record);
    RecordedSends(Confirming(log, k, d), d, io.record);
  }

  lemma SettledSends(log: Log, k: Key, d: Digest, io: ForwardIo)
    ensures Sent(LogBuried(log, k, io)) == Sent(LogRemoved(log, k, d, io)) == Sent(log)
  {
    assert Sent(Then(log, DeadLettered(k))) == Sent(log);
  }

  lemma RecordedSends(log: Log, d: Digest, io: Recording)
    ensures Sent(Recorded(log, d, io)) == Sent(log)
  {
    assert Sent(Then(log, AuditLine(d))) == Sent(log);
  }

  ghost predicate Advanced(cfg: Config, s: State, s': State, k: Key, progressed: bool, io: ForwardIo)
    requires k in Visible(s.files)
  {
    var data := s.files[k].data;
    var v := HeadVerdict(cfg.audit, Skips(cfg, s, data), io);
    && progressed == !v.Retryable?
    && SameButHead(s, s')
    && SceneOf(s') == HeadScene(cfg, SceneOf(s), k, io)
    && s'.depth == HeadDepth(s.depth, v, io)
    && s'.fw == (if v.Retryable? then BackingOff else Idle)
  }

  lemma HeadFrom(cfg: Config, s: State, k: Key, io: ForwardIo) returns (s': State)
    requires cfg.clearOnDead && s.fw.Idle? && IsHead(s.files, k) && (cfg.removeWorks ==> io.remove)
    requires InRange(s.files)
    ensures var d := cfg.hash(s.files[k].data);
            && Leads(cfg, s, HeadSteps(cfg.audit, k, Skips(cfg, s, s.files[k].data), io), s')
            && k in Visible(s.files)
            && Advanced(cfg, s, s', k, !HeadVerdict(cfg.audit, Skips(cfg, s, s.files[k].data), io).Retryable?, io)
            && s'.log == HeadLog(cfg.audit, s.log, s.guard, k, d, io)
  {
    s' := HeadRun(cfg, s, k, io);
    HeadSends(cfg.audit, s.log, s.guard, k, cfg.hash(s.files[k].data), io);
  }

  // What no turn of the forwarder changes.
  ghost predicate SameButHead(s: State, s': State) {
    && s'.threads == s.threads && s'.seqNo == s.seqNo && s'.wake == s.wake && s'.clock == s.clock && s'.base == s.base
    && s'.acked == s.acked && s'.returned == s.returned && s'.files.Keys == s.files.Keys && InRange(s'.files)
  }

  lemma NoHeadRun(cfg: Config, s: State, f: ForwardAction) returns (s': State)
    requires s.fw.Idle? && InRange(s.files) && (f.ListFails? || (f.ListEmpty? && Queued(s.files) == {}))
    ensures Leads(cfg, s, [Forward(f)], s')
    ensures s' == s.(fw := if f.ListFails? then BackingOff else Parked) && SameButHead(s, s')
  {
    s' := One(cfg, s, Forward(f));
  }

  // The first pending name, and the time in it.
  method HeadOf(disk: map<Key, Node>, ghost files: map<Key, File>) returns (head: Option<Key>, oldest: Option<int>)
    requires disk == Visible(files) && InRange(files)
    ensures head.None? <==> Waiting(disk) == {}
    ensures head.None? <==> Queued(files) == {}
    ensures head.Some? ==> head.value in Waiting(disk) && IsHead(files, head.value)
    ensures oldest == if head.Some? then Some(head.value.nanos) else None
  {
    var entries := ReadDir(disk);
    var names := ListPending(entries);
    WaitingVisible(files);
    ListingHead(entries, files, names, Key(0, 0));
    if names == [] {
      return None, OldestOf(names);
    }
    var k :| k in Waiting(disk) && FileName(k) == names[0];
    ListingHead(entries, files, names, k);
    ParseSpoolTimeRoundTrip(k);
    return Some(k), OldestOf(names);
  }

  // The outcome of one attempt on the head k, in the terms of the objects: the
  // directory, the counter, the guard's digest and the audit failures. `known` is
  // that the guard holds these bytes: they were delivered, and their record is due.
  predicate TurnsOut(cfg: Config, k: Key, io: ForwardIo, progressed: bool,
                     disk: map<Key, Node>, disk': map<Key, Node>, depth: nat, depth': nat,
                     digest: Digest, digest': Digest, failures: nat, failures': nat)
    requires k in disk
  {
    var data := disk[k].data;
    var d := cfg.hash(data);
    var known := cfg.audit && digest == d;
    var delivered := io.read && (known || io.deliver.Confirms?);
    var done := delivered && (cfg.audit ==> io.record.Complete?);
    var dead := !io.read || (!known && io.deliver.Rejects?);
    && (progressed <==> done || dead)
    && disk' == (if done && io.remove then disk - {k}
                 else if dead && io.bury then disk[k := Node(Dead, data)] else disk)
    && depth' == (if !done && !(dead && io.bury) then depth else if depth > 0 then depth - 1 else 0)
    && (cfg.audit ==>
          && digest' == (if done || (dead && io.bury) then "" else if delivered then d else digest)
          && failures' == (if done then 0 else if delivered then failures + 1 else failures))
    && (!cfg.audit ==> digest' == digest && failures' == failures)
  }

  // --------------------------------------------------------------------- the class

  class Spool {
    const cfg: Config
    const forward: AuditingForward
    var disk: map<Key, Node>           // the spool directory and dead/
    var depth: nat
    var seqNo: nat
    var wake: bool
    var oldestPendingAt: Option<int>   // nanoseconds
    var dirFsyncFailures: nat
    ghost var model: State
    ghost var trail: seq<Action>

    ghost predicate Sees(s: State)
      reads this`disk, this`depth, this`seqNo, this`wake, forward, forward.guard
    {
      && disk == Visible(s.files)
      && depth == s.depth && seqNo == s.seqNo && wake == s.wake
      && Held(forward.guard.digest) == s.guard
      && (if cfg.audit then forward.log == s.log else forward.guard.digest == "")
      && InRange(s.files)
    }

    ghost predicate Valid()
      reads this`disk, this`depth, this`seqNo, this`wake, this`model, this`trail, forward, forward.guard
    {
      && cfg.clearOnDead && forward.hash == cfg.hash && forward.Valid()
      && Sees(model)
      && Leads(cfg, Init(), trail, model)
    }

    // ----------------------------------------------------------------------- New

    // A new process on the directory the old one left, after a crash or a power
    // loss that the protocol allows.
    constructor (c: Config, found: map<Key, Node>, now: nat,
                 ghost past: State, ghost before: seq<Action>, ghost files: map<Key, File>, ghost restart: Action)
      requires c.clearOnDead && forall p :: c.hash(p) != ""
      requires Leads(c, Init(), before, past) && Enabled(c, past, restart)
      requires restart == (if files == past.files then Crash(now) else PowerLoss(now, files))
      requires found == Visible(files) && InRange(files)
      ensures Valid() && cfg == c && fresh(forward) && fresh(forward.guard)
      ensures trail == before + [restart] && model == Reboot(past, files, now)
      ensures disk == found && depth == |Waiting(found)| && seqNo == 0 && !wake && dirFsyncFailures == 0
      ensures forward.guard.digest == "" && forward.failures == 0 && model.base == |Waiting(found)|
      ensures OldestIs(oldestPendingAt, found)
    {
      var entries := ReadDir(found);
      var names := ListPending(entries);
      ListingCount(entries, files, names);
      WaitingVisible(files);
      OldestListed(entries, files, names);
      Restarts(c, past, before, files, now, restart);
      assert Pending(Then(past.log, Restarted)) == None;
      cfg, disk := c, found;
      depth, seqNo, wake, dirFsyncFailures := |names|, 0, false, 0;
      oldestPendingAt := OldestOf(names);
      forward := new AuditingForward(c.hash, past.log);
      model, trail := Reboot(past, files, now), before + [restart];
    }

    // The protocol's steps behind what the method just did.
    ghost method Take(acts: seq<Action>, s: State)
      requires Leads(cfg, Init(), trail, model) && Leads(cfg, model, acts, s)
      modifies this`model, this`trail
      ensures model == s && trail == old(trail) + acts && Leads(cfg, Init(), trail, model)
    {
      Chain(cfg, Init(), trail, model, acts, s);
      trail, model := trail + acts, s;
    }

    // ------------------------------------------------------------------- Enqueue
    //
    // Each of these methods starts from any reachable state in which its call
    // stands where it should: between two of them any others may come.

    // Under the lock: the depth check and the name.
    method ReserveName(payload: Payload, now: nat) returns (k: Key, full: bool)
      requires Valid() && ClockAllows(cfg, model, now, false) && Key(now, seqNo + 1) !in model.files
      modifies this`depth, this`seqNo, this`model, this`trail
      ensures Valid() && k == Key(now, old(seqNo) + 1)
      ensures full <==> old(depth) >= cfg.maxDepth
      ensures full ==> unchanged(this)
      ensures !full ==>
                && depth == old(depth) + 1 && seqNo == old(seqNo) + 1
                && trail == old(trail) + [Call(Reserve(now, payload))]
                && AtPc(model, k, Reserved) && model.files[k].want == payload && SameForwarder(old(model), model)
    {
      k := Key(now, seqNo + 1);
      if depth >= cfg.maxDepth {
        return k, true;
      }
      ghost var s := ReserveRun(cfg, model, payload, now);
      depth := depth + 1;
      seqNo := seqNo + 1;
      Take([Call(Reserve(now, payload))], s);
      return k, false;
    }

    // writeTempFile: create, write, fsync, close.
    method WriteTempFile(k: Key, payload: Payload, io: EnqueueIo) returns (ok: bool)
      requires Valid() && AtPc(model, k, Reserved) && model.files[k].want == payload
      modifies this`disk, this`model, this`trail
      ensures Valid() && OthersKept(old(model), model, k) && k !in old(disk)
      ensures ok <==> io.open && io.write && (cfg.fsync ==> io.flush) && io.close
      ensures disk == if io.open then old(disk)[k := Node(Temp, if io.write then payload else io.partial)]
                      else old(disk)
      ensures AtPc(model, k, if ok then Closed else Undoing)
      ensures ok && cfg.fsync ==> model.files[k].flushed
      ensures trail == old(trail) + TempSteps(cfg.fsync, k, payload, io)
    {
      CallPlaces(cfg, trail, model, k);
      ghost var s := TempRun(cfg, model, k, io);
      VisiblePut(model.files, k, s.files[k]);
      ok := WriteAll(k, payload, io);
      Take(TempSteps(cfg.fsync, k, payload, io), s);
    }

    method WriteAll(k: Key, payload: Payload, io: EnqueueIo) returns (ok: bool)
      modifies this`disk
      ensures ok <==> io.open && io.write && (cfg.fsync ==> io.flush) && io.close
      ensures disk == if io.open then old(disk)[k := Node(Temp, if io.write then payload else io.partial)]
                      else old(disk)
    {
      if !io.open {
        return false;
      }
      ghost var before := disk;
      disk := disk[k := Node(Temp, [])];
      if !io.write {
        disk := disk[k := Node(Temp, io.partial)];
        assert disk == before[k := disk[k]];
        return false;
      }
      disk := disk[k := Node(Temp, payload)];
      assert disk == before[k := disk[k]];
      if cfg.fsync {
        if !io.flush {
          return false;
        }
      }
      return io.close;
    }

    // os.Rename into the queue.
    method Rename(k: Key, ok: bool)
      requires Valid() && AtPc(model, k, Closed) && (ok && cfg.headStable ==> KeepsHeads(model, k))
      modifies this`disk, this`model, this`trail
      ensures Valid() && AtPc(model, k, if ok then Renamed else Undoing)
      ensures k in old(disk) && disk == if ok then old(disk)[k := old(disk)[k].(loc := Queue)] else old(disk)
      ensures trail == old(trail) + [Call(Commit(k, ok))]
    {
      CallPlaces(cfg, trail, model, k);
      ghost var s := RenameRun(cfg, model, k, ok);
      if ok {
        disk := disk[k := disk[k].(loc := Queue)];
      }
      Take([Call(Commit(k, ok))], s);
    }

    method DecDepth()
      modifies this`depth
      ensures depth == if old(depth) > 0 then old(depth) - 1 else 0
    {
      if depth > 0 {
        depth := depth - 1;
      }
    }

    // os.Remove of the temp file, and the reservation given back.
    method Undo(k: Key, io: EnqueueIo)
      requires Valid() && AtPc(model, k, Undoing)
      modifies this`disk, this`depth, this`model, this`trail
      ensures Valid() && k !in model.returned && k !in model.acked
      ensures disk == if io.remove then old(disk) - {k} else old(disk)
      ensures depth == if old(depth) > 0 then old(depth) - 1 else 0
      ensures trail == old(trail) + UndoSteps(k, io)
    {
      CallPlaces(cfg, trail, model, k);
      ghost var s := FailRun(cfg, model, k, io);
      if io.remove {
        disk := disk - {k};
      }
      DecDepth();
      Take(UndoSteps(k, io), s);
    }

    // After the rename: nudge the forwarder, then make the name durable. The call
    // reports success exactly when it is the protocol's to count as accepted.
    method Publish(k: Key, io: EnqueueIo) returns (r: Outcome)
      requires Valid() && AtPc(model, k, Renamed)
      modifies this`wake, this`dirFsyncFailures, this`model, this`trail
      ensures Valid() && wake && k in model.returned
      ensures r.Accepted? <==> (cfg.fsync ==> io.syncDir)
      ensures r.NotDurable? <==> cfg.fsync && !io.syncDir
      ensures r.Accepted? <==> k in model.acked
      ensures dirFsyncFailures ==
              if !cfg.fsync then old(dirFsyncFailures) else if io.syncDir then 0 else old(dirFsyncFailures) + 1
      ensures trail == old(trail) + PublishSteps(cfg.fsync, k, io)
    {
      CallPlaces(cfg, trail, model, k);
      ghost var s := PublishRun(cfg, model, k, io);
      VisibleSynced(model.files);
      wake := true;
      Take(PublishSteps(cfg.fsync, k, io), s);
      if cfg.fsync {
        if !io.syncDir {
          dirFsyncFailures := dirFsyncFailures + 1;
          return NotDurable;
        }
        dirFsyncFailures := 0;
      }
      return Accepted;
    }

    // Enqueue once the temp file is written.
    method CommitFile(k: Key, io: EnqueueIo) returns (r: Outcome)
      requires Valid() && AtPc(model, k, Closed) && (io.rename && cfg.headStable ==> KeepsHeads(model, k))
      modifies this`disk, this`depth, this`wake, this`dirFsyncFailures, this`model, this`trail
      ensures Valid()
      ensures r.Failed? <==> !io.rename
      ensures r.Accepted? <==> io.rename && (cfg.fsync ==> io.syncDir)
      ensures r.NotDurable? <==> io.rename && cfg.fsync && !io.syncDir
      ensures (r.Failed? <==> k !in model.returned) && (r.Accepted? <==> k in model.acked)
      ensures dirFsyncFailures ==
              if !cfg.fsync || !io.rename then old(dirFsyncFailures)
              else if io.syncDir then 0 else old(dirFsyncFailures) + 1
      ensures trail == old(trail) + CommitSteps(cfg.fsync, k, io)
    {
      ghost var t, c := trail, [Call(Commit(k, io.rename))];
      Rename(k, io.rename);
      if !io.rename {
        Undo(k, io);
        Assoc(t, c, UndoSteps(k, io));
        return Outcome.Failed;
      }
      r := Publish(k, io);
      Assoc(t, c, PublishSteps(cfg.fsync, k, io));
    }

    // Enqueue once its name is reserved, when no other call comes between.
    method Store(k: Key, payload: Payload, io: EnqueueIo) returns (r: Outcome)
      requires Valid() && AtPc(model, k, Reserved) && model.files[k].want == payload
      requires cfg.headStable ==> KeepsHeads(model, k)
      modifies this`disk, this`depth, this`wake, this`dirFsyncFailures, this`model, this`trail
      ensures Valid() && Reports(cfg.fsync, io, r)
      ensures dirFsyncFailures == if r.NotDurable? then old(dirFsyncFailures) + 1
                                  else if r.Accepted? && cfg.fsync then 0 else old(dirFsyncFailures)
      ensures trail == old(trail) + TempSteps(cfg.fsync, k, payload, io) + FinishSteps(cfg.fsync, k, io)
    {
      var ok := WriteTempFile(k, payload, io);
      if ok {
        r := CommitFile(k, io);
      } else {
        Undo(k, io);
        r := Outcome.Failed;
      }
    }

    // The whole call, when no other comes between. It reports success exactly when
    // every system call it needs has succeeded, and exactly then the signal counts
    // as accepted: it is in the queue under its own name, whole, and with fsync on
    // both its contents and its name are durable. A failed call leaves at most its
    // temp file behind, a call cut short by the directory fsync all of an accepted
    // one but the promise. Other files are never touched.
    method Enqueue(payload: Payload, now: nat, io: EnqueueIo) returns (r: Outcome, k: Key)
      requires Valid() && ClockAllows(cfg, model, now, false)
      requires var k := Key(now, seqNo + 1); k !in model.files && (cfg.headStable ==> KeepsHeads(model, k))
      modifies this`disk, this`depth, this`seqNo, this`wake, this`dirFsyncFailures, this`model, this`trail
      ensures Valid() && k == Key(now, old(seqNo) + 1)
      ensures r.Full? <==> old(depth) >= cfg.maxDepth
      ensures r.Full? ==> unchanged(this)
      // What it reports.
      ensures !r.Full? ==> Reports(cfg.fsync, io, r)
      ensures r.Accepted? <==> k in model.acked
      ensures r.NotDurable? <==> k in model.returned && k !in model.acked
      // What it leaves in the directory and in the counters.
      ensures r.Accepted? || r.NotDurable? ==>
                && disk == old(disk)[k := Node(Queue, payload)]
                && depth == old(depth) + 1 && seqNo == old(seqNo) + 1 && wake
      ensures r.Failed? ==>
                && disk == (if io.open && !io.remove
                            then old(disk)[k := Node(Temp, if io.write then payload else io.partial)] else old(disk))
                && depth == old(depth) && seqNo == old(seqNo) + 1 && wake == old(wake)
      ensures dirFsyncFailures == if r.NotDurable? then old(dirFsyncFailures) + 1
                                  else if r.Accepted? && cfg.fsync then 0 else old(dirFsyncFailures)
      // What will survive.
      ensures !r.Full? ==> k in model.files && model.files[k].want == payload
      ensures r.Accepted? && cfg.fsync ==> model.files[k].flushed && model.files[k].may == {Queue}
      // And that all of it is a run of the protocol.
      ensures !r.Full? ==>
                && EnqueueEnds(cfg, old(model), model, k, payload, io)
                && trail == old(trail) + EnqueueSteps(cfg.fsync, k, payload, io)
    {
      ghost var t, before := trail, model;
      var full;
      k, full := ReserveName(payload, now);
      if full {
        AckedKnown(cfg, trail, model);
        return Full, k;
      }
      r := Store(k, payload, io);
      EnqueueEnded(cfg, t, before, model, trail, k, payload, io);
    }

    // --------------------------------------------------------------- forwardOldest

    method RemoveFile(k: Key, ok: bool)
      modifies this`disk
      ensures disk == if ok then old(disk) - {k} else old(disk)
    {
      if ok {
        disk := disk - {k};
      }
    }

    // The forward function: with auditing the wrapped one, else the bare delivery.
    method Attempt(k: Key, payload: Payload, io: ForwardIo) returns (v: Verdict)
      requires forward.Valid() && forward.hash == cfg.hash && (!cfg.audit ==> forward.guard.digest == "")
      modifies forward, forward.guard
      ensures forward.Valid() && (!cfg.audit ==> forward.guard.digest == "")
      ensures var d := cfg.hash(payload);
              var guard := old(Held(forward.guard.digest));
              && v == VerdictOf(cfg.audit, cfg.audit && guard == Some(d), io)
              && (cfg.audit ==> Held(forward.guard.digest) == GuardTried(true, guard, d, io))
              && (cfg.audit ==> forward.log == LogTried(true, old(forward.log), guard, k, d, io))
      ensures var d := cfg.hash(payload);
              var known := cfg.audit && old(forward.guard.digest) == d;
              var delivered := known || io.deliver.Confirms?;
              var done := delivered && (cfg.audit ==> io.record.Complete?);
              && (v.Success? <==> done) && (v.Permanent? <==> !known && io.deliver.Rejects?)
              && forward.guard.digest == (if !cfg.audit then old(forward.guard.digest)
                                          else if done then "" else if delivered then d
                                          else old(forward.guard.digest))
              && forward.failures == (if !cfg.audit then old(forward.failures)
                                      else if done then 0 else if delivered then old(forward.failures) + 1
                                      else old(forward.failures))
    {
      if cfg.audit {
        v := forward.Forward(payload, io.deliver, io.record, k);
      } else {
        v := match io.deliver case Confirms => Success case Rejects => Permanent case RetryLater => Retryable;
      }
    }

    method DeadLetter(k: Key, io: ForwardIo)
      requires k in disk && forward.Valid() && (!cfg.audit ==> forward.guard.digest == "")
      modifies this`disk, this`depth, forward, forward.guard
      ensures forward.Valid() && (!cfg.audit ==> forward.guard.digest == "")
      ensures disk == if io.bury then old(disk)[k := Node(Dead, old(disk)[k].data)] else old(disk)
      ensures depth == if io.bury && old(depth) > 0 then old(depth) - 1 else old(depth)
      ensures forward.guard.digest == if io.bury then "" else old(forward.guard.digest)
      ensures forward.failures == old(forward.failures)
      ensures cfg.audit ==> forward.log == LogBuried(old(forward.log), k, io)
    {
      if !io.bury {
        return;
      }
      disk := disk[k := disk[k].(loc := Dead)];
      DecDepth();
      if cfg.audit {
        forward.NoteLeft(DeadLettered(k));
        forward.OnDead();
      }
    }

    // forwardOldest from the read of its head on; true when the queue advanced.
    method ForwardHead(k: Key, io: ForwardIo) returns (progressed: bool)
      requires k in disk && disk[k].loc == Queue
      requires forward.Valid() && forward.hash == cfg.hash && (!cfg.audit ==> forward.guard.digest == "")
      modifies this`disk, this`depth, forward, forward.guard
      ensures forward.Valid() && (!cfg.audit ==> forward.guard.digest == "")
      ensures var d := cfg.hash(old(disk)[k].data);
              var guard := old(Held(forward.guard.digest));
              var v := HeadVerdict(cfg.audit, cfg.audit && guard == Some(d), io);
              && progressed == !v.Retryable?
              && disk == HeadDisk(old(disk), k, v, io) && depth == HeadDepth(old(depth), v, io)
              && Held(forward.guard.digest) == HeadGuard(cfg.audit, guard, d, io)
              && (cfg.audit ==> forward.log == HeadLog(true, old(forward.log), guard, k, d, io))
      ensures TurnsOut(cfg, k, io, progressed, old(disk), disk, old(depth), depth,
                       old(forward.guard.digest), forward.guard.digest, old(forward.failures), forward.failures)
    {
      if !io.read {
        DeadLetter(k, io);
        return true;
      }
      var payload := disk[k].data;
      var v := Attempt(k, payload, io);
      match v {
        case Permanent =>
          DeadLetter(k, io);
          return true;
        case Retryable =>
          return false;
        case Success =>
          RemoveFile(k, io.remove);
          DecDepth();
          if cfg.audit && io.remove {
            forward.NoteLeft(Removed(k, cfg.hash(payload)));
          }
          return true;
      }
    }

    // The listing, and updateOldestPending.
    method ListOldest(list: bool) returns (head: Option<Key>)
      requires disk == Visible(model.files) && InRange(model.files)
      modifies this`oldestPendingAt
      ensures head.Some? <==> list && Waiting(disk) != {}
      ensures head.Some? ==> head.value in Waiting(disk) && IsHead(model.files, head.value)
      ensures list && head.None? ==> Queued(model.files) == {}
      ensures oldestPendingAt == if !list then old(oldestPendingAt)
                                 else if head.Some? then Some(head.value.nanos) else None
    {
      if !list {
        return None;
      }
      head, oldestPendingAt := HeadOf(disk, model.files);
    }

    // Nothing to forward, or no listing.
    ghost method Pause(list: bool)
      requires Valid() && model.fw.Idle? && (list ==> Queued(model.files) == {})
      modifies this`model, this`trail
      ensures Valid() && SameButHead(old(model), model)
      ensures model == old(model).(fw := if list then Parked else BackingOff)
      ensures trail == old(trail) + [Forward(if list then ListEmpty else ListFails)]
    {
      var s := NoHeadRun(cfg, model, if list then ListEmpty else ListFails);
      Take([Forward(if list then ListEmpty else ListFails)], s);
    }

    // One attempt on the oldest signal.
    method ForwardOldest(io: ForwardIo) returns (progressed: bool, failed: bool, ghost head: Option<Key>)
      requires Valid() && model.fw.Idle? && (cfg.removeWorks ==> io.remove)
      modifies this`disk, this`depth, this`oldestPendingAt, this`model, this`trail, forward, forward.guard
      ensures Valid()
      ensures head.Some? <==> io.list && Waiting(old(disk)) != {}
      ensures oldestPendingAt == if !io.list then old(oldestPendingAt)
                                 else if head.Some? then Some(head.value.nanos) else None
      ensures head.None? ==>
                && !progressed && failed == !io.list
                && model == old(model).(fw := if io.list then Parked else BackingOff)
                && trail == old(trail) + [Forward(if io.list then ListEmpty else ListFails)]
      ensures head.Some? ==>
                && IsHead(old(model.files), head.value)
                && head.value in Visible(old(model.files))
                && Advanced(cfg, old(model), model, head.value, progressed, io)
                && head.value in old(disk) && failed == !progressed
                && TurnsOut(cfg, head.value, io, progressed, old(disk), disk, old(depth), depth,
                            old(forward.guard.digest), forward.guard.digest, old(forward.failures), forward.failures)
                && (var known := cfg.audit && old(forward.guard.digest) == cfg.hash(old(disk)[head.value].data);
                    Sent(model.log) == old(Sent(model.log)) +
                      if io.read && !known && io.deliver.Confirms? then multiset{head.value} else multiset{})
                && var skip := Skips(cfg, old(model), old(model.files)[head.value].data);
                   trail == old(trail) + HeadSteps(cfg.audit, head.value, skip, io)
    {
      var first := ListOldest(io.list);
      head := first;
      if first.None? {
        Pause(io.list);
        return false, !io.list, None;
      }
      progressed := AdvanceHead(first.value, io);
      failed := !progressed;
    }

    // ForwardHead, along a turn of the protocol.
    method Follow(k: Key, io: ForwardIo, ghost s: State, ghost s': State) returns (progressed: bool)
      requires forward.Valid() && forward.hash == cfg.hash && Sees(s)
      requires k in Visible(s.files) && s.files[k].loc == Queue
      requires Advanced(cfg, s, s', k, !HeadVerdict(cfg.audit, Skips(cfg, s, s.files[k].data), io).Retryable?, io)
      requires s'.log == HeadLog(cfg.audit, s.log, s.guard, k, cfg.hash(s.files[k].data), io)
      modifies this`disk, this`depth, forward, forward.guard
      ensures forward.Valid() && Sees(s') && k in old(disk)
      ensures progressed == !HeadVerdict(cfg.audit, Skips(cfg, s, s.files[k].data), io).Retryable?
      ensures TurnsOut(cfg, k, io, progressed, old(disk), disk, old(depth), depth,
                       old(forward.guard.digest), forward.guard.digest, old(forward.failures), forward.failures)
      ensures var known := cfg.audit && old(forward.guard.digest) == cfg.hash(old(disk)[k].data);
              Sent(s'.log) == Sent(s.log) +
                if io.read && !known && io.deliver.Confirms? then multiset{k} else multiset{}
    {
      progressed := ForwardHead(k, io);
    }

    method AdvanceHead(k: Key, io: ForwardIo) returns (progressed: bool)
      requires Valid() && model.fw.Idle? && (cfg.removeWorks ==> io.remove) && IsHead(model.files, k)
      modifies this`disk, this`depth, this`model, this`trail, forward, forward.guard
      ensures Valid()
      ensures k in Visible(old(model.files)) && Advanced(cfg, old(model), model, k, progressed, io)
      ensures k in old(disk)
      ensures TurnsOut(cfg, k, io, progressed, old(disk), disk, old(depth), depth,
                       old(forward.guard.digest), forward.guard.digest, old(forward.failures), forward.failures)
      ensures var known := cfg.audit && old(forward.guard.digest) == cfg.hash(old(disk)[k].data);
              Sent(model.log) == old(Sent(model.log)) +
                if io.read && !known && io.deliver.Confirms? then multiset{k} else multiset{}
      ensures trail == old(trail) + HeadSteps(cfg.audit, k, Skips(cfg, old(model), old(model.files)[k].data), io)
    {
      ghost var s := HeadFrom(cfg, model, k, io);
      ghost var skip := Skips(cfg, model, model.files[k].data);
      progressed := Follow(k, io, model, s);
      Take(HeadSteps(cfg.audit, k, skip, io), s);
    }

    // The two selects of Run; true when the context is done. On an empty queue:
    // the wake token, or two seconds.
    method AwaitWork(e: Wakeup) returns (stop: bool)
      requires Valid() && model.fw.Parked? && (e.Token? ==> wake)
      modifies this`wake, this`model, this`trail
      ensures Valid() && stop == e.Done?
      ensures stop ==> unchanged(this)
      ensures !stop ==>
                && wake == (old(wake) && e.Timer?) && model == old(model).(fw := Idle, wake := wake)
                && trail == old(trail) + [Forward(if e.Token? then Woken else TimerFires)]
    {
      if e.Done? {
        return true;
      }
      ghost var f := if e.Token? then Woken else TimerFires;
      ghost var s := One(cfg, model, Forward(f));
      if e.Token? {
        wake := false;
      }
      Take([Forward(f)], s);
      return false;
    }

    // After a retryable failure: the backoff.
    method AwaitBackoff(done: bool) returns (stop: bool)
      requires Valid() && model.fw.BackingOff?
      modifies this`model, this`trail
      ensures Valid() && stop == done
      ensures if stop then model == old(model) && trail == old(trail)
              else model == old(model).(fw := Idle) && trail == old(trail) + [Forward(TimerFires)]
    {
      if done {
        return true;
      }
      ghost var s := One(cfg, model, Forward(TimerFires));
      Take([Forward(TimerFires)], s);
      return false;
    }

    // ------------------------------------------------- what the runs promise of it

    // Every accepted signal is in the queue or in dead/, whole, or was removed
    // after a confirmed delivery of bytes with its digest.
    lemma Accountable(k: Key)
      requires Valid() && cfg.Durable() && k in model.acked
      ensures k in model.files
      ensures || (k in disk && (disk[k].loc == Queue || disk[k].loc == Dead) && disk[k].data == model.files[k].want)
              || (k in RemovedKeys(model.log) && cfg.hash(model.files[k].want) in Deliveries(model.log))
    {
      Ledger.NoAcceptedSignalLost(cfg, trail, k);
    }

    // The counter bounds the queue, up to what the process started with.
    lemma Bounded()
      requires Valid() && cfg.removeWorks
      ensures |Waiting(disk)| <= depth && |Waiting(disk)| <= Depth.Max(cfg.maxDepth, model.base)
    {
      Depth.NoLeak(cfg, Init(), trail);
      Depth.DepthConservation(cfg, trail);
      WaitingVisible(model.files);
    }
  }

  // New: no spool when its directory cannot be made or listed.
  method New(c: Config, found: map<Key, Node>, now: nat, made: bool, listed: bool,
             ghost past: State, ghost before: seq<Action>, ghost files: map<Key, File>, ghost restart: Action)
    returns (sp: Spool?)
    requires c.clearOnDead && forall p :: c.hash(p) != ""
    requires Leads(c, Init(), before, past) && Enabled(c, past, restart)
    requires restart == (if files == past.files then Crash(now) else PowerLoss(now, files))
    requires found == Visible(files) && InRange(files)
    ensures sp != null <==> made && listed
    ensures sp != null ==>
              && fresh(sp) && sp.Valid() && sp.cfg == c
              && sp.trail == before + [restart] && sp.model == Reboot(past, files, now)
              && sp.disk == found && sp.depth == |Waiting(found)| && OldestIs(sp.oldestPendingAt, found)
              && sp.seqNo == 0 && !sp.wake && sp.dirFsyncFailures == 0
              && sp.forward.guard.digest == "" && sp.forward.failures == 0 && sp.model.base == |Waiting(found)|
  {
    if !made || !listed {
      return null;
    }
    sp := new Spool(c, found, now, past, before, files, restart);
  }
}
