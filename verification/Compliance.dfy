// The spool and its audit log together: what the audit file holds on stable
// storage for a signal that has left the queue. Record's outcome is no longer a
// free result: it is what the day-file writer makes of the system calls.
module Compliance {
  import opened Options
  import opened SpoolNames
  import opened History
  import opened Protocol
  import DayFile
  import Ledger
  import Safety
  import Listing
  import SpoolQueue

  datatype System = System(spool: State, log: DayFile.State)

  datatype Move =
    | Other(a: Action)                    // a step that is neither Record nor a restart
    | Record(today: string, io: DayFile.Io)
    | CrashBoth(now: nat)
    | PowerLossBoth(now: nat, found: map<Key, File>, kept: map<string, nat>)

  // The record of a delivery carries its digest; nothing else of it matters here.
  type Printer = Digest -> string

  ghost predicate Prints(line: Printer) {
    forall d :: DayFile.OneLine(line(d))
  }

  predicate Plain(a: Action) {
    a.Call? || (a.Forward? && !a.f.AuditOk? && !a.f.AuditFails?)
  }

  // The line the forwarder is about to have recorded.
  function Due(cfg: Config, line: Printer, s: State): string
    requires s.fw.Confirmed?
  {
    line(cfg.hash(s.fw.data))
  }

  // How Record ends, as the forwarder learns it.
  function Ending(s: DayFile.State, today: string, l: string, io: DayFile.Io): ForwardAction
    requires DayFile.HandleFits(s)
  {
    if DayFile.Appended(s, today, l, io).1 then AuditOk
    else AuditFails(DayFile.Prepared(s, today, io).1 && io.writeOk)
  }

  ghost predicate Allowed(cfg: Config, s: System, m: Move) {
    match m
    case Other(a) => Plain(a) && Enabled(cfg, s.spool, a)
    case Record(_, _) => s.spool.fw.Confirmed? && DayFile.HandleFits(s.log)
    case CrashBoth(now) => Enabled(cfg, s.spool, Crash(now))
    case PowerLossBoth(now, found, kept) =>
      Enabled(cfg, s.spool, PowerLoss(now, found)) && DayFile.Survives(s.log, kept)
  }

  ghost function Next(cfg: Config, line: Printer, s: System, m: Move): System
    requires Allowed(cfg, s, m)
  {
    match m
    case Other(a) => s.(spool := Step(cfg, s.spool, a))
    case Record(today, io) =>
      var l := Due(cfg, line, s.spool);
      System(ForwardStep(cfg, s.spool, Ending(s.log, today, l, io)), DayFile.Appended(s.log, today, l, io).0)
    case CrashBoth(now) => System(Step(cfg, s.spool, Crash(now)), DayFile.Step(s.log, DayFile.Crash))
    case PowerLossBoth(now, found, kept) =>
      System(Step(cfg, s.spool, PowerLoss(now, found)), DayFile.Step(s.log, DayFile.PowerLoss(kept)))
  }

  ghost predicate CanMove(cfg: Config, line: Printer, s: System, moves: seq<Move>)
    decreases |moves|
  {
    moves == [] || (Allowed(cfg, s, moves[0]) && CanMove(cfg, line, Next(cfg, line, s, moves[0]), moves[1..]))
  }

  ghost function End(cfg: Config, line: Printer, s: System, moves: seq<Move>): System
    requires CanMove(cfg, line, s, moves)
    decreases |moves|
  {
    if moves == [] then s else End(cfg, line, Next(cfg, line, s, moves[0]), moves[1..])
  }

  ghost function Blank(): System {
    System(Init(), DayFile.INIT)
  }

  // ------------------------------------------------------------------ invariants

  // The line is acknowledged in some day's file.
  ghost predicate OnFile(f: DayFile.State, l: string) {
    exists day, i :: HoldsAt(f, day, i, l)
  }

  predicate HoldsAt(f: DayFile.State, day: string, i: nat, l: string) {
    day in f.disk && i in f.disk[day].acked && i < |f.disk[day].written| && f.disk[day].written[i] == l
  }

  // ... or went with the name of its file.
  ghost predicate Recorded(f: DayFile.State, l: string) {
    OnFile(f, l) || exists day :: (day, l) in f.lost
  }

  ghost predicate Backed(line: Printer, s: System) {
    forall d | d in Audits(s.spool.log) :: Recorded(s.log, line(d))
  }

  // No name has been left undurable.
  ghost predicate AllLinked(f: DayFile.State) {
    f.lost == {} && forall day | day in f.disk :: f.disk[day].linked
  }

  ghost predicate Sound(cfg: Config, line: Printer, s: System) {
    && Safety.Sound(cfg, s.spool) && Ledger.Balanced(cfg, s.spool)
    && DayFile.Valid(s.log)
    && Backed(line, s)
  }

  lemma GrowthKeeps(f: DayFile.State, f': DayFile.State, l: string)
    requires DayFile.Grows(f, f') && f'.lost == f.lost && Recorded(f, l)
    ensures Recorded(f', l)
  {
    if OnFile(f, l) {
      var day, i :| HoldsAt(f, day, i, l);
      assert HoldsAt(f', day, i, l);
    }
  }

  lemma PowerLossKeeps(f: DayFile.State, kept: map<string, nat>, l: string)
    requires DayFile.Valid(f) && DayFile.Survives(f, kept) && Recorded(f, l)
    ensures Recorded(DayFile.Step(f, DayFile.PowerLoss(kept)), l)
  {
    var f' := DayFile.Step(f, DayFile.PowerLoss(kept));
    if OnFile(f, l) {
      var day, i :| HoldsAt(f, day, i, l);
      if day in kept {
        DayFile.PowerLossFile(f.disk[day], kept[day]);
        assert HoldsAt(f', day, i, l);
      } else {
        assert (day, l) in DayFile.AckedLines(f.disk, f.disk.Keys - kept.Keys);
        assert (day, l) in f'.lost;
      }
    } else {
      var day :| (day, l) in f.lost;
      assert (day, l) in f'.lost;
    }
  }

  lemma ForwardAuditsSame(cfg: Config, s: State, f: ForwardAction)
    requires ForwardEnabled(cfg, s, f) && !f.AuditOk?
    ensures Audits(NextLog(cfg, s, f)) == Audits(s.log)
  {
  }

  // A step that is not AuditOk audits nothing.
  lemma AuditsSame(cfg: Config, s: State, a: Action)
    requires Enabled(cfg, s, a) && a != Forward(AuditOk)
    ensures Audits(Step(cfg, s, a).log) == Audits(s.log)
  {
    match a
    case Call(c) => CallFrame(cfg, s, c);
    case Forward(f) => ForwardAuditsSame(cfg, s, f);
    case _ =>
  }

  lemma AppendedOnFile(f: DayFile.State, today: string, l: string, io: DayFile.Io)
    requires DayFile.Valid(f) && DayFile.OneLine(l) && DayFile.Appended(f, today, l, io).1
    ensures OnFile(DayFile.Appended(f, today, l, io).0, l)
  {
    var g := DayFile.Appended(f, today, l, io).0;
    DayFile.AppendDurable(f, today, l, io);
    assert HoldsAt(g, today, |g.disk[today].written| - 1, l);
  }

  lemma AuditOkAudits(cfg: Config, s: State)
    requires s.fw.Confirmed?
    ensures Audits(NextLog(cfg, s, AuditOk)) == Audits(s.log) + multiset{cfg.hash(s.fw.data)}
  {
    assert Audits(Then(s.log, AuditLine(cfg.hash(s.fw.data)))) == Audits(s.log);
  }

  // What Record audits is on file when it returns.
  lemma RecordAudits(cfg: Config, line: Printer, s: System, today: string, io: DayFile.Io)
    requires Prints(line) && DayFile.Valid(s.log) && Allowed(cfg, s, Record(today, io))
    ensures var s' := Next(cfg, line, s, Record(today, io));
            var d := cfg.hash(s.spool.fw.data);
            forall e | e in Audits(s'.spool.log) :: e in Audits(s.spool.log) || (e == d && OnFile(s'.log, line(d)))
  {
    var l := Due(cfg, line, s.spool);
    if DayFile.Appended(s.log, today, l, io).1 {
      AppendedOnFile(s.log, today, l, io);
      AuditOkAudits(cfg, s.spool);
    } else {
      AuditsSame(cfg, s.spool, Forward(Ending(s.log, today, l, io)));
    }
  }

  lemma RecordBacked(cfg: Config, line: Printer, s: System, today: string, io: DayFile.Io)
    requires Prints(line) && DayFile.Valid(s.log) && Backed(line, s) && Allowed(cfg, s, Record(today, io))
    ensures Backed(line, Next(cfg, line, s, Record(today, io)))
  {
    var s' := Next(cfg, line, s, Record(today, io));
    RecordAudits(cfg, line, s, today, io);
    DayFile.AppendedGrows(s.log, today, Due(cfg, line, s.spool), io);
    forall e | e in Audits(s'.spool.log) ensures Recorded(s'.log, line(e)) {
      if e in Audits(s.spool.log) {
        GrowthKeeps(s.log, s'.log, line(e));
      }
    }
  }

  lemma NextSound(cfg: Config, line: Printer, s: System, m: Move)
    requires Prints(line) && Sound(cfg, line, s) && Allowed(cfg, s, m)
    ensures Sound(cfg, line, Next(cfg, line, s, m))
  {
    match m
    case Other(a) =>
      Safety.StepSound(cfg, s.spool, a);
      Ledger.StepBalanced(cfg, s.spool, a);
      AuditsSame(cfg, s.spool, a);
    case Record(today, io) =>
      var l := Due(cfg, line, s.spool);
      var a := Forward(Ending(s.log, today, l, io));
      Safety.StepSound(cfg, s.spool, a);
      Ledger.StepBalanced(cfg, s.spool, a);
      DayFile.AppendedValid(s.log, today, l, io);
      RecordBacked(cfg, line, s, today, io);
    case CrashBoth(now) =>
      Safety.StepSound(cfg, s.spool, Crash(now));
      Ledger.StepBalanced(cfg, s.spool, Crash(now));
      CrashBacked(line, s, Next(cfg, line, s, m));
    case PowerLossBoth(now, found, kept) =>
      Safety.StepSound(cfg, s.spool, PowerLoss(now, found));
      Ledger.StepBalanced(cfg, s.spool, PowerLoss(now, found));
      DayFile.StepValid(s.log, DayFile.PowerLoss(kept));
      forall d | d in Audits(s.spool.log) ensures Recorded(Next(cfg, line, s, m).log, line(d)) {
        PowerLossKeeps(s.log, kept, line(d));
      }
  }

  lemma CrashBacked(line: Printer, s: System, s': System)
    requires Backed(line, s) && Audits(s'.spool.log) == Audits(s.spool.log)
    requires s'.log.disk == s.log.disk && s'.log.lost == s.log.lost
    ensures Backed(line, s')
  {
    forall d | d in Audits(s.spool.log) ensures Recorded(s'.log, line(d)) {
      GrowthKeeps(s.log, s'.log, line(d));
    }
  }

  lemma {:induction false} EndSound(cfg: Config, line: Printer, s: System, moves: seq<Move>)
    requires Prints(line) && Sound(cfg, line, s) && CanMove(cfg, line, s, moves)
    ensures Sound(cfg, line, End(cfg, line, s, moves))
    decreases |moves|
  {
    if moves != [] {
      NextSound(cfg, line, s, moves[0]);
      EndSound(cfg, line, Next(cfg, line, s, moves[0]), moves[1..]);
    }
  }

  // --------------------------------------------------- directory fsyncs that work

  predicate DirSyncs(m: Move) {
    m.Record? ==> m.io.dirSyncOk
  }

  lemma NextLinked(cfg: Config, line: Printer, s: System, m: Move)
    requires AllLinked(s.log) && DirSyncs(m) && Allowed(cfg, s, m)
    ensures AllLinked(Next(cfg, line, s, m).log)
  {
  }

  lemma {:induction false} EndLinked(cfg: Config, line: Printer, s: System, moves: seq<Move>)
    requires AllLinked(s.log) && CanMove(cfg, line, s, moves) && forall m | m in moves :: DirSyncs(m)
    ensures AllLinked(End(cfg, line, s, moves).log)
    decreases |moves|
  {
    if moves != [] {
      assert moves[0] in moves;
      NextLinked(cfg, line, s, moves[0]);
      EndLinked(cfg, line, Next(cfg, line, s, moves[0]), moves[1..]);
    }
  }

  // ----------------------------------------------------------------- main results

  // The line is in the file of some day, where a reader finds it, and everything
  // up to and including it is on stable storage.
  ghost predicate Durable(f: DayFile.State, day: string, i: nat, l: string) {
    && day in f.disk
    && var g := f.disk[day];
       i < |DayFile.Split(g.data)| && DayFile.Split(g.data)[i] == l
       && |DayFile.Render(DayFile.Split(g.data)[..i + 1])| <= g.synced
  }

  // With auditing on, a signal that left the queue as delivered has its audit line
  // on stable storage, whatever crashed or lost power since, unless a power loss
  // took a file whose directory fsync had failed.
  lemma RemovedIsAudited(cfg: Config, line: Printer, moves: seq<Move>, d: Digest) returns (day: string, i: nat)
    requires cfg.audit && Prints(line) && CanMove(cfg, line, Blank(), moves)
    requires d in Removals(End(cfg, line, Blank(), moves).spool.log)
    ensures var f := End(cfg, line, Blank(), moves).log;
            Durable(f, day, i, line(d)) || (day, line(d)) in f.lost
    ensures (forall m | m in moves :: DirSyncs(m)) ==>
              var f := End(cfg, line, Blank(), moves).log;
              Durable(f, day, i, line(d)) && f.disk[day].linked
  {
    var s := End(cfg, line, Blank(), moves);
    EndSound(cfg, line, Blank(), moves);
    RemovalsCovered(cfg.audit, s.spool.log);
    assert Recorded(s.log, line(d));
    if forall m | m in moves :: DirSyncs(m) {
      EndLinked(cfg, line, Blank(), moves);
    }
    i := 0;
    if OnFile(s.log, line(d)) {
      day, i :| HoldsAt(s.log, day, i, line(d));
      DayFile.SplitRender(s.log.disk[day].written);
    } else {
      day :| (day, line(d)) in s.log.lost;
    }
  }

  // ---------------------------------------------------------- the one exception

  ghost predicate Moves(cfg: Config, line: Printer, moves: seq<Move>, s: System) {
    CanMove(cfg, line, Blank(), moves) && End(cfg, line, Blank(), moves) == s
  }

  lemma {:induction false} EndAppend(cfg: Config, line: Printer, s: System, xs: seq<Move>, m: Move)
    requires CanMove(cfg, line, s, xs) && Allowed(cfg, End(cfg, line, s, xs), m)
    ensures CanMove(cfg, line, s, xs + [m])
    ensures End(cfg, line, s, xs + [m]) == Next(cfg, line, End(cfg, line, s, xs), m)
    decreases |xs|
  {
    if xs == [] {
      assert CanMove(cfg, line, Next(cfg, line, s, m), []);
      assert [m][1..] == [] && xs + [m] == [m];
    } else {
      assert (xs + [m])[1..] == xs[1..] + [m];
      EndAppend(cfg, line, Next(cfg, line, s, xs[0]), xs[1..], m);
    }
  }

  lemma TakeMove(cfg: Config, line: Printer, moves: seq<Move>, s: System, m: Move)
    returns (moves': seq<Move>, s': System)
    requires Moves(cfg, line, moves, s) && Allowed(cfg, s, m)
    ensures moves' == moves + [m] && s' == Next(cfg, line, s, m) && Moves(cfg, line, moves', s')
  {
    EndAppend(cfg, line, Blank(), moves, m);
    moves', s' := moves + [m], Next(cfg, line, s, m);
  }

  // A run of Enqueue calls alone, in the system.
  lemma {:induction false} Lifted(cfg: Config, line: Printer, s: System, acts: seq<Action>) returns (moves: seq<Move>)
    requires CanRun(cfg, s.spool, acts) && forall a | a in acts :: a.Call?
    ensures CanMove(cfg, line, s, moves) && End(cfg, line, s, moves) == s.(spool := Run(cfg, s.spool, acts))
    decreases |acts|
  {
    moves := [];
    if acts != [] {
      assert acts[0] in acts;
      var rest := Lifted(cfg, line, s.(spool := Step(cfg, s.spool, acts[0])), acts[1..]);
      moves := [Other(acts[0])] + rest;
      assert moves[1..] == rest;
    }
  }

  const UNSYNCED := DayFile.ALL_OK.(dirSyncOk := false)

  // The forwarder reads the head and has it delivered, or finds that it was.
  lemma Confirm(cfg: Config, line: Printer, moves: seq<Move>, s: System, k: Key)
    returns (moves': seq<Move>, s': System)
    requires cfg.audit && Moves(cfg, line, moves, s) && s.spool.fw.Idle? && IsHead(s.spool.files, k)
    ensures var data := s.spool.files[k].data;
            && Moves(cfg, line, moves', s') && s'.log == s.log
            && s'.spool == s.spool.(fw := Confirmed(k, data), guard := Some(cfg.hash(data)),
                                    guarded := s'.spool.guarded, log := s'.spool.log)
            && Removals(s'.spool.log) == Removals(s.spool.log)
  {
    moves', s' := TakeMove(cfg, line, moves, s, Other(Forward(ListHead(k))));
    moves', s' := TakeMove(cfg, line, moves', s', Other(Forward(ReadOk)));
    var known := s.spool.guard == Some(cfg.hash(s.spool.files[k].data));
    moves', s' := TakeMove(cfg, line, moves', s', Other(Forward(if known then DeliverSkipped else DeliverOk)));
  }

  // Its record fails on the directory fsync.
  lemma FailRecord(cfg: Config, line: Printer, moves: seq<Move>, s: System, today: string)
    returns (moves': seq<Move>, s': System)
    requires Moves(cfg, line, moves, s) && s.log == DayFile.INIT && s.spool.fw.Confirmed?
    ensures Moves(cfg, line, moves', s') && s'.spool == s.spool.(fw := Idle)
    ensures s'.log == DayFile.Appended(DayFile.INIT, today, Due(cfg, line, s.spool), UNSYNCED).0
  {
    moves', s' := TakeMove(cfg, line, moves, s, Record(today, UNSYNCED));
    moves', s' := TakeMove(cfg, line, moves', s', Other(Forward(TimerFires)));
  }

  // The retried record succeeds, and the file is removed.
  lemma RecordAndRemove(cfg: Config, line: Printer, moves: seq<Move>, s: System, today: string)
    returns (moves': seq<Move>, s': System)
    requires Moves(cfg, line, moves, s) && s.spool.fw.Confirmed? && s.spool.fw.key in s.spool.files
    requires s.spool.fw.data == s.spool.files[s.spool.fw.key].data
    requires s.log == DayFile.Appended(DayFile.INIT, today, Due(cfg, line, s.spool), UNSYNCED).0
    ensures var k := s.spool.fw.key;
            && Moves(cfg, line, moves', s') && cfg.hash(s.spool.fw.data) in Removals(s'.spool.log)
            && s'.spool.clock == s.spool.clock
            && s'.spool.files == s.spool.files[k := Moved(s.spool.files[k], Absent)]
            && s'.log == DayFile.Appended(s.log, today, Due(cfg, line, s.spool), DayFile.ALL_OK).0
  {
    moves', s' := TakeMove(cfg, line, moves, s, Record(today, DayFile.ALL_OK));
    moves', s' := TakeMove(cfg, line, moves', s', Other(Forward(Delete(true))));
  }

  const ALL_OK := SpoolQueue.EnqueueIo(true, true, [], true, true, true, true, true)

  // One Enqueue call that returns nil.
  lemma AcceptRun(cfg: Config, p: Payload) returns (acts: seq<Action>, s: State)
    requires cfg.maxDepth > 0
    ensures Leads(cfg, Init(), acts, s) && forall a | a in acts :: a.Call?
    ensures var k := Key(1, 1);
            && s.files.Keys == {k} && s.files[k].data == p && s.files[k].loc == Queue
            && s.fw.Idle? && s.guard.None? && s.clock == 1
  {
    var k := Key(1, 1);
    acts := SpoolQueue.EnqueueSteps(cfg.fsync, k, p, ALL_OK);
    s := SpoolQueue.EnqueueRun(cfg, Init(), k, p, ALL_OK);
    assert k in Listing.Visible(s.files);
  }

  lemma AcceptFirst(cfg: Config, line: Printer, p: Payload) returns (moves: seq<Move>, s: System)
    requires cfg.maxDepth > 0
    ensures Moves(cfg, line, moves, s) && s.log == DayFile.INIT
    ensures var k := Key(1, 1);
            && s.spool.files.Keys == {k} && s.spool.files[k].data == p && IsHead(s.spool.files, k)
            && s.spool.fw.Idle? && s.spool.guard.None? && s.spool.clock == 1
  {
    var acts, spool := AcceptRun(cfg, p);
    moves := Lifted(cfg, line, Blank(), acts);
    s := Blank().(spool := spool);
    PrecedesTotal(Key(1, 1), Key(1, 1));
  }

  // A signal leaves the queue as delivered and audited, and a power loss takes the
  // only line that says so: the directory fsync had failed once, and the retry did
  // not repeat it.
  lemma RemovedUnaudited(cfg: Config, line: Printer, today: string, p: Payload) returns (moves: seq<Move>)
    requires cfg.audit && cfg.powerLoss && cfg.maxDepth > 0 && Prints(line)
    ensures CanMove(cfg, line, Blank(), moves)
    ensures var s := End(cfg, line, Blank(), moves);
            cfg.hash(p) in Removals(s.spool.log) && Queued(s.spool.files) == {} && s.log.disk == map[]
  {
    var k, s := Key(1, 1), Blank();
    moves, s := AcceptFirst(cfg, line, p);
    moves, s := Confirm(cfg, line, moves, s, k);
    moves, s := FailRecord(cfg, line, moves, s, today);
    moves, s := Confirm(cfg, line, moves, s, k);
    moves, s := RecordAndRemove(cfg, line, moves, s, today);
    moves := LosePower(cfg, line, moves, s, k, today, cfg.hash(p));
  }

  // A name that no directory fsync covered may be gone, and its lines with it.
  lemma UnsyncedLost(today: string, l: string)
    ensures var s1 := DayFile.Appended(DayFile.INIT, today, l, UNSYNCED).0;
            var s2 := DayFile.Appended(s1, today, l, DayFile.ALL_OK).0;
            DayFile.Survives(s2, map[]) && DayFile.Step(s2, DayFile.PowerLoss(map[])).disk == map[]
  {
    var s1 := DayFile.Appended(DayFile.INIT, today, l, UNSYNCED).0;
    var s2 := DayFile.Appended(s1, today, l, DayFile.ALL_OK).0;
    assert s2.disk.Keys == {today} && !s2.disk[today].linked;
  }

  lemma PowerOff(cfg: Config, s: State, k: Key) returns (found: map<Key, File>)
    requires cfg.powerLoss && s.clock + 1 < INT64_LIMIT && s.files.Keys == {k} && Absent in s.files[k].may
    ensures var a := PowerLoss(s.clock + 1, found);
            && Enabled(cfg, s, a) && Queued(Step(cfg, s, a).files) == {}
            && Removals(Step(cfg, s, a).log) == Removals(s.log)
  {
    found := map[k := s.files[k].(loc := Absent, may := {Absent}, flushed := true)];
  }

  lemma LosePower(cfg: Config, line: Printer, moves: seq<Move>, s: System, k: Key, today: string, d: Digest)
    returns (moves': seq<Move>)
    requires cfg.powerLoss && Moves(cfg, line, moves, s) && d in Removals(s.spool.log)
    requires s.spool.clock + 1 < INT64_LIMIT && s.spool.files.Keys == {k} && Absent in s.spool.files[k].may
    requires var s1 := DayFile.Appended(DayFile.INIT, today, line(d), UNSYNCED).0;
             s.log == DayFile.Appended(s1, today, line(d), DayFile.ALL_OK).0
    ensures CanMove(cfg, line, Blank(), moves')
    ensures var s' := End(cfg, line, Blank(), moves');
            d in Removals(s'.spool.log) && Queued(s'.spool.files) == {} && s'.log.disk == map[]
  {
    var found := PowerOff(cfg, s.spool, k);
    UnsyncedLost(today, line(d));
    var s';
    moves', s' := TakeMove(cfg, line, moves, s, PowerLossBoth(s.spool.clock + 1, found, map[]));
  }
}
