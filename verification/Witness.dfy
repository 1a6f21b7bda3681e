// Runs that show what the hypotheses of the other modules are for: each lemma
// builds a list of actions of the protocol and the state it ends in.
module Witness {
  import opened Options
  import opened SpoolNames
  import opened History
  import opened Protocol

  ghost predicate Reached(cfg: Config, acts: seq<Action>, s: State) {
    Leads(cfg, Init(), acts, s)
  }

  // b with key k at another point of its Enqueue call.
  function With(b: State, k: Key, f: File, pc: Pc): State {
    b.(files := b.files[k := f], threads := b.threads[k := pc])
  }

  lemma Advance(cfg: Config, acts: seq<Action>, b: State, f: File, c: CallAction)
    returns (acts': seq<Action>, f': File, s': State)
    requires !c.Reserve? && !c.Nudge? && !c.SyncDir? && !c.Unwind?
    requires Reached(cfg, acts, With(b, c.key, f, From(c)))
    requires CallEnabled(cfg, With(b, c.key, f, From(c)), c)
    ensures f' == NextFile(cfg, c, f) && s' == With(b, c.key, f', NextPc(cfg, c)) && Reached(cfg, acts', s')
  {
    f' := NextFile(cfg, c, f);
    acts', s' := Extend(cfg, Init(), acts, With(b, c.key, f, From(c)), Call(c));
    assert s'.files == b.files[c.key := f'];
    assert s'.threads == b.threads[c.key := NextPc(cfg, c)];
  }

  // An Enqueue call up to, but not including, its rename.
  lemma Prepare(cfg: Config, acts: seq<Action>, s: State, now: nat, p: Payload)
    returns (acts': seq<Action>, b: State, f: File, s': State)
    requires Reached(cfg, acts, s) && s.depth < cfg.maxDepth && ClockAllows(cfg, s, now, false)
    requires Key(now, s.seqNo + 1) !in s.files
    ensures b == s.(depth := s.depth + 1, seqNo := s.seqNo + 1, clock := now)
    ensures f == File(p, s.returned, p, cfg.fsync, Temp, {Absent, Temp})
    ensures s' == With(b, Key(now, s.seqNo + 1), f, Closed) && Reached(cfg, acts', s')
  {
    var k := Key(now, s.seqNo + 1);
    b := s.(depth := s.depth + 1, seqNo := s.seqNo + 1, clock := now);
    f := File(p, s.returned, [], false, Absent, {Absent});
    acts', s' := Extend(cfg, Init(), acts, s, Call(Reserve(now, p)));
    acts', f, s' := Advance(cfg, acts', b, f, OpenTemp(k, true));
    acts', f, s' := Advance(cfg, acts', b, f, WriteTemp(k, true, p));
    acts', f, s' := Advance(cfg, acts', b, f, FlushTemp(k, true));
    acts', f, s' := Advance(cfg, acts', b, f, CloseTemp(k, true));
  }

  // Every file of s, and the forwarder's half of s, as it was.
  ghost predicate Extends(s: State, s': State, k: Key) {
    && (forall j | j in s.files && j != k :: j in s'.files && s'.files[j].loc == s.files[j].loc
          && s'.files[j].data == s.files[j].data && s'.files[j].want == s.files[j].want)
    && (forall j | j in s'.files :: j == k || j in s.files)
    && (forall j | j in s.threads && j != k :: j in s'.threads && s'.threads[j] == s.threads[j])
    && s'.fw == s.fw && s'.guard == s.guard && s'.guarded == s.guarded && s'.log == s.log
  }

  // The other half of an Enqueue call, from the rename on.
  lemma Finish(cfg: Config, acts: seq<Action>, s: State, k: Key) returns (acts': seq<Action>, s': State)
    requires Reached(cfg, acts, s) && AtPc(s, k, Closed) && (cfg.headStable ==> KeepsHeads(s, k))
    ensures Reached(cfg, acts', s') && Extends(s, s', k)
    ensures k in s'.acked && k in s'.files
    ensures s'.files[k].want == s.files[k].want && s'.files[k].data == s.files[k].data
    ensures s'.files[k].loc == Queue && (!cfg.fsync ==> s.files[k].may <= s'.files[k].may)
    ensures s'.depth == s.depth && s'.seqNo == s.seqNo && s'.clock == s.clock
  {
    acts', s' := Extend(cfg, Init(), acts, s, Call(Commit(k, true)));
    acts', s' := Extend(cfg, Init(), acts', s', Call(Nudge(k)));
    if cfg.fsync {
      acts', s' := Extend(cfg, Init(), acts', s', Call(SyncDir(k, true)));
    }
  }

  // A whole Enqueue call that returns nil.
  lemma Accept(cfg: Config, acts: seq<Action>, s: State, now: nat, p: Payload)
    returns (acts': seq<Action>, s': State)
    requires Reached(cfg, acts, s) && s.depth < cfg.maxDepth && ClockAllows(cfg, s, now, false)
    requires cfg.headStable ==> forall h :: !Watched(s, h)
    requires Key(now, s.seqNo + 1) !in s.files
    ensures Reached(cfg, acts', s') && Extends(s, s', Key(now, s.seqNo + 1))
    ensures var k := Key(now, s.seqNo + 1);
            && k in s'.acked && k in s'.files
            && s'.files[k].want == p && s'.files[k].data == p && s'.files[k].loc == Queue
            && (!cfg.fsync ==> Absent in s'.files[k].may)
    ensures s'.depth == s.depth + 1 && s'.seqNo == s.seqNo + 1 && s'.clock == now
  {
    var k := Key(now, s.seqNo + 1);
    var b, f;
    acts', b, f, s' := Prepare(cfg, acts, s, now, p);
    assert Extends(s, s', k);
    assert forall h :: Watched(s', h) ==> Watched(s, h);
    var t := s';
    acts', s' := Finish(cfg, acts', t, k);
  }

  // --------------------------------------------------------- fsync switched off

  // With SPOOL_FSYNC=false an accepted signal can vanish in a power loss.
  lemma FsyncOffLosesAccepted(cfg: Config, p: Payload) returns (acts: seq<Action>, k: Key)
    requires !cfg.fsync && cfg.powerLoss && cfg.maxDepth > 0
    ensures CanRun(cfg, Init(), acts)
    ensures var s := Run(cfg, Init(), acts);
            && k in s.acked && k in s.files
            && s.files[k].loc == Absent && k !in RemovedKeys(s.log) && Deliveries(s.log) == multiset{}
  {
    var s := Init();
    k := Key(1, 1);
    acts, s := Accept(cfg, [], s, 1, p);
    assert s.files.Keys == {k};
    var found := map[k := s.files[k].(loc := Absent, may := {Absent}, flushed := true)];
    acts, s := Extend(cfg, Init(), acts, s, PowerLoss(2, found));
  }

  // ---------------------------------------------------------- a head that changes

  // The forwarder lists the queue and reads its head k.
  lemma LoadHead(cfg: Config, acts: seq<Action>, s: State, k: Key)
    returns (acts': seq<Action>, s': State)
    requires Reached(cfg, acts, s) && s.fw.Idle? && IsHead(s.files, k)
    ensures Reached(cfg, acts', s') && s' == s.(fw := Loaded(k, s.files[k].data))
  {
    acts', s' := Extend(cfg, Init(), acts, s, Forward(ListHead(k)));
    acts', s' := Extend(cfg, Init(), acts', s', Forward(ReadOk));
  }

  // It delivers the head and fails to audit it.
  lemma DeliverUnaudited(cfg: Config, acts: seq<Action>, s: State, k: Key)
    returns (acts': seq<Action>, s': State)
    requires cfg.audit && Reached(cfg, acts, s) && s.fw.Idle? && s.guard.None? && IsHead(s.files, k)
    ensures Reached(cfg, acts', s')
    ensures s' == s.(fw := Idle, guard := Some(cfg.hash(s.files[k].data)), guarded := Some(k),
                     log := Then(s.log, Delivered(k, cfg.hash(s.files[k].data))))
  {
    acts', s' := LoadHead(cfg, acts, s, k);
    acts', s' := Extend(cfg, Init(), acts', s', Forward(DeliverOk));
    acts', s' := Extend(cfg, Init(), acts', s', Forward(AuditFails(false)));
    acts', s' := Extend(cfg, Init(), acts', s', Forward(TimerFires));
  }

  // It trusts the guard for the head k, audits it and removes it.
  lemma TrustGuard(cfg: Config, acts: seq<Action>, s: State, k: Key)
    returns (acts': seq<Action>, s': State)
    requires cfg.audit && Reached(cfg, acts, s) && s.fw.Idle? && IsHead(s.files, k)
    requires s.guard == Some(cfg.hash(s.files[k].data)) && s.files[k].want == s.files[k].data
    ensures Reached(cfg, acts', s')
    ensures s'.log == Trusted(s.log, k, cfg.hash(s.files[k].data))
    ensures s'.guard.None? && s'.fw.Idle?
    ensures s'.files == s.files[k := Moved(s.files[k], Absent)]
  {
    acts', s' := LoadHead(cfg, acts, s, k);
    acts', s' := Extend(cfg, Init(), acts', s', Forward(DeliverSkipped));
    acts', s' := Extend(cfg, Init(), acts', s', Forward(AuditOk));
    acts', s' := Extend(cfg, Init(), acts', s', Forward(Delete(true)));
    acts', s' := Extend(cfg, Init(), acts', s', Forward(CountDeleted));
  }

  function Trusted(log: Log, k: Key, d: Digest): Log {
    Then(Then(Then(log, AuditLine(d)), Audited(d)), Removed(k, d))
  }

  lemma TrustedUndelivered(log: Log, k: Key, d: Digest)
    requires k !in ThisLife(log)
    ensures !RemovedAfterOwnDelivery(Trusted(log, k, d))
    ensures ThisLife(Trusted(log, k, d)) == ThisLife(log)
  {
    var line := Then(log, AuditLine(d));
    assert ThisLife(line) == ThisLife(log);
    assert ThisLife(Then(line, Audited(d))) == ThisLife(log);
  }

  // Two signals with one payload, a named before b, where a is at loc.
  ghost predicate Twins(s: State, a: Key, b: Key, p: Payload, loc: Loc) {
    && a != b && Precedes(a, b) && !Precedes(b, a) && !Precedes(a, a) && !Precedes(b, b)
    && s.files.Keys == {a, b}
    && s.files[a].want == p && s.files[a].data == p && s.files[a].loc == loc
    && s.files[b].want == p && s.files[b].data == p && s.files[b].loc == Queue
    && s.fw.Idle?
  }

  // Twins, once their names and contents are known.
  lemma AreTwins(s: State, a: Key, b: Key, p: Payload, loc: Loc)
    requires a.nanos < b.nanos < INT64_LIMIT && s.files.Keys == {a, b} && s.fw.Idle?
    requires s.files[a].want == p && s.files[a].data == p && s.files[a].loc == loc
    requires s.files[b].want == p && s.files[b].data == p && s.files[b].loc == Queue
    ensures Twins(s, a, b, p, loc)
  {
    InOrder(a, b);
  }

  lemma InOrder(a: Key, b: Key)
    requires a.nanos < b.nanos < INT64_LIMIT
    ensures a != b && Precedes(a, b) && !Precedes(b, a) && !Precedes(a, a) && !Precedes(b, b)
  {
    NameOrderSmallSeq(a, b);
    PrecedesTotal(a, b);
    PrecedesTotal(b, b);
  }

  lemma TwinsOverlap(cfg: Config, s: nat, t: nat, p: Payload) returns (acts: seq<Action>, z: State)
    requires 0 < s < t < INT64_LIMIT && !cfg.headStable && cfg.maxDepth >= 2
    ensures Reached(cfg, acts, z) && Twins(z, Key(s, 1), Key(t, 2), p, Temp)
    ensures z.guard.None? && z.log == Start && AtPc(z, Key(s, 1), Closed)
  {
    var k, b, y := Key(s, 1), Init(), Init();
    var f;
    acts, b, f, y := Prepare(cfg, [], Init(), s, p);
    assert y.files == map[k := f];
    acts, z := Accept(cfg, acts, y, t, p);
    AreTwins(z, k, Key(t, 2), p, z.files[k].loc);
  }

  // Producers that overlap may be overtaken: the forwarder has b in hand while a,
  // whose Enqueue started earlier and whose name is smaller, is queued behind it.
  lemma OverlapOvertakes(cfg: Config, s: nat, t: nat, p: Payload) returns (acts: seq<Action>)
    requires 0 < s < t < INT64_LIMIT && !cfg.headStable && cfg.maxDepth >= 2
    ensures CanRun(cfg, Init(), acts)
    ensures var z, a, b := Run(cfg, Init(), acts), Key(s, 1), Key(t, 2);
            z.fw.Holds(b) && a in Queued(z.files) && b in Queued(z.files) && Precedes(a, b)
  {
    var a, b := Key(s, 1), Key(t, 2);
    var z;
    acts, z := TwinsOverlap(cfg, s, t, p);
    assert Queued(z.files) == {b};
    acts, z := LoadHead(cfg, acts, z, b);
    acts, z := Finish(cfg, acts, z, a);
  }

  // Two overlapping Enqueue calls with equal payloads, the smaller name committed
  // late: the late one is audited and removed on the strength of the other's
  // delivery, and the other is then delivered twice by one process. It happens
  // with the OnDead hook in place and a working os.Remove.
  lemma LateCommitBreaksTheGuard(cfg: Config, s: nat, t: nat, p: Payload) returns (acts: seq<Action>)
    requires cfg.audit && !cfg.headStable && cfg.maxDepth >= 2
    requires 0 < s < t < INT64_LIMIT
    ensures CanRun(cfg, Init(), acts)
    ensures var log := Run(cfg, Init(), acts).log;
            !RemovedAfterOwnDelivery(log) && !OncePerLife(log)
  {
    var a, b := Key(s, 1), Key(t, 2);
    var z;
    acts, z := TwinsOverlap(cfg, s, t, p);
    assert Queued(z.files) == {b};
    acts, z := DeliverUnaudited(cfg, acts, z, b);
    acts, z := Finish(cfg, acts, z, a);
    assert Twins(z, a, b, p, Queue);
    acts := LateCommitTrusted(cfg, acts, z, a, b, p);
  }

  lemma LateCommitTrusted(cfg: Config, acts: seq<Action>, z: State, a: Key, b: Key, p: Payload)
    returns (acts': seq<Action>)
    requires cfg.audit && Reached(cfg, acts, z) && Twins(z, a, b, p, Queue)
    requires z.guard == Some(cfg.hash(p)) && z.log == Then(Start, Delivered(b, cfg.hash(p)))
    ensures CanRun(cfg, Init(), acts')
    ensures var log := Run(cfg, Init(), acts').log;
            !RemovedAfterOwnDelivery(log) && !OncePerLife(log)
  {
    var z';
    assert Queued(z.files) == {a, b};
    acts', z' := TrustGuard(cfg, acts, z, a);
    assert ThisLife(z.log) == {b};
    TrustedUndelivered(z.log, a, cfg.hash(p));
    assert Queued(z'.files) == {b};
    acts', z' := DeliverUnaudited(cfg, acts', z', b);
  }

  // ------------------------------------------------------ the OnDead hook dropped

  // The forwarder cannot read the head and moves it into dead/.
  lemma BuryUnread(cfg: Config, acts: seq<Action>, s: State, k: Key) returns (acts': seq<Action>, s': State)
    requires !cfg.clearOnDead && Reached(cfg, acts, s) && s.fw.Idle? && IsHead(s.files, k)
    ensures Reached(cfg, acts', s')
    ensures s'.fw.Idle? && s'.guard == s.guard && s'.log == Then(s.log, DeadLettered(k))
    ensures s'.files == s.files[k := Moved(s.files[k], Dead)]
  {
    acts', s' := Extend(cfg, Init(), acts, s, Forward(ListHead(k)));
    acts', s' := Extend(cfg, Init(), acts', s', Forward(ReadFails));
    acts', s' := Extend(cfg, Init(), acts', s', Forward(Bury(true)));
    acts', s' := Extend(cfg, Init(), acts', s', Forward(CountBuried));
    acts', s' := Extend(cfg, Init(), acts', s', Forward(OnDead));
  }

  lemma TwinsQueued(cfg: Config, s: nat, t: nat, p: Payload) returns (acts: seq<Action>, z: State)
    requires 0 < s < t < INT64_LIMIT && cfg.maxDepth >= 2
    ensures Reached(cfg, acts, z) && Twins(z, Key(s, 1), Key(t, 2), p, Queue)
    ensures z.guard.None? && z.log == Start
  {
    var k, y := Key(s, 1), Init();
    acts, y := Accept(cfg, [], Init(), s, p);
    assert y.files.Keys == {k};
    acts, z := Accept(cfg, acts, y, t, p);
    AreTwins(z, k, Key(t, 2), p, z.files[k].loc);
  }

  // Without the clear, even a stable head does not help: a delivered item is
  // dead-lettered unread, and an equal payload behind it is audited and removed
  // although it was never delivered.
  lemma HookIsNeeded(cfg: Config, s: nat, t: nat, p: Payload) returns (acts: seq<Action>)
    requires cfg.audit && !cfg.clearOnDead && cfg.maxDepth >= 2
    requires 0 < s < t < INT64_LIMIT
    ensures CanRun(cfg, Init(), acts)
    ensures !RemovedAfterOwnDelivery(Run(cfg, Init(), acts).log)
  {
    var a, b := Key(s, 1), Key(t, 2);
    var z;
    acts, z := TwinsQueued(cfg, s, t, p);
    assert Queued(z.files) == {a, b};
    acts, z := DeliverUnaudited(cfg, acts, z, a);
    acts, z := BuryUnread(cfg, acts, z, a);
    assert Twins(z, a, b, p, Dead);
    acts := BuriedTrusted(cfg, acts, z, a, b, p);
  }

  lemma BuriedTrusted(cfg: Config, acts: seq<Action>, z: State, a: Key, b: Key, p: Payload)
    returns (acts': seq<Action>)
    requires cfg.audit && Reached(cfg, acts, z) && Twins(z, a, b, p, Dead) && z.guard == Some(cfg.hash(p))
    requires z.log == Then(Then(Start, Delivered(a, cfg.hash(p))), DeadLettered(a))
    ensures CanRun(cfg, Init(), acts') && !RemovedAfterOwnDelivery(Run(cfg, Init(), acts').log)
  {
    var z';
    assert Queued(z.files) == {b};
    var first := Then(Start, Delivered(a, cfg.hash(p)));
    assert ThisLife(first) == {a};
    assert ThisLife(Then(first, DeadLettered(a))) == ThisLife(first);
    TrustedUndelivered(z.log, b, cfg.hash(p));
    acts', z' := TrustGuard(cfg, acts, z, b);
  }

  // ------------------------------------------------------- os.Remove that fails

  lemma AuditDelivered(cfg: Config, acts: seq<Action>, s: State) returns (acts': seq<Action>, s': State)
    requires Reached(cfg, acts, s) && s.fw.Confirmed?
    ensures Reached(cfg, acts', s') && s' == s.(fw := Deleting(s.fw.key), guard := None, log := s'.log)
    ensures ThisLife(s'.log) == ThisLife(s.log) && OncePerLife(s'.log) == OncePerLife(s.log)
  {
    var line := Then(s.log, AuditLine(cfg.hash(s.fw.data)));
    assert ThisLife(line) == ThisLife(s.log) && OncePerLife(line) == OncePerLife(s.log);
    acts', s' := Extend(cfg, Init(), acts, s, Forward(AuditOk));
  }

  // The forwarder delivers the head k, audits it if it should, and fails to
  // remove it.
  lemma FailToRemove(cfg: Config, acts: seq<Action>, s: State, k: Key) returns (acts': seq<Action>, s': State)
    requires !cfg.removeWorks && Reached(cfg, acts, s) && s.fw.Idle? && s.guard.None? && IsHead(s.files, k)
    ensures Reached(cfg, acts', s')
    ensures s' == s.(fw := Deleted, guarded := s'.guarded, log := s'.log)
    ensures ThisLife(s'.log) == ThisLife(s.log) + {k} && (k in ThisLife(s.log) ==> !OncePerLife(s'.log))
  {
    acts', s' := LoadHead(cfg, acts, s, k);
    acts', s' := Extend(cfg, Init(), acts', s', Forward(DeliverOk));
    if cfg.audit {
      acts', s' := AuditDelivered(cfg, acts', s');
    }
    acts', s' := Extend(cfg, Init(), acts', s', Forward(Delete(false)));
  }

  // One failed os.Remove leaves a queued file that depth no longer counts; the
  // same process then delivers it again, and the next removal meets the underflow
  // guard of decDepth. With auditing and without.
  lemma FailedRemoveUndercounts(cfg: Config, t: nat, p: Payload) returns (acts: seq<Action>)
    requires !cfg.removeWorks && cfg.maxDepth > 0 && 0 < t < INT64_LIMIT
    ensures CanRun(cfg, Init(), acts)
    ensures var s := Run(cfg, Init(), acts);
            s.fw.Deleted? && s.depth == 0 && Key(t, 1) in Queued(s.files) && !OncePerLife(s.log)
  {
    var s;
    var k := Key(t, 1);
    PrecedesTotal(k, k);
    acts, s := Accept(cfg, [], Init(), t, p);
    assert Queued(s.files) == {k};
    acts, s := FailToRemove(cfg, acts, s, k);
    acts, s := Extend(cfg, Init(), acts, s, Forward(CountDeleted));
    acts, s := FailToRemove(cfg, acts, s, k);
  }
}
