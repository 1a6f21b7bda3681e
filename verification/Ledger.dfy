// Deliveries, audit records and removals, counted by digest. The in-memory guard
// always agrees with the guard replayed from the log, so nothing here assumes
// that the head of the queue stays the same between two attempts.
module Ledger {
  import opened Options
  import opened SpoolNames
  import opened History
  import opened Protocol
  import Safety

  ghost predicate GuardReplayed(cfg: Config, s: State) {
    && s.guard == (if cfg.audit then Pending(s.log) else None)
    && (s.fw.Confirmed? ==> cfg.audit && s.guard == Some(cfg.hash(s.fw.data)))
    && AuditsPending(s.log)
    && LinesBacked(s.log)
  }

  // The file about to be removed as delivered is licensed, whatever it holds.
  ghost predicate HandLicensed(cfg: Config, s: State) {
    s.fw.Deleting? ==>
      s.fw.key in s.files && Licence(cfg.audit, s.log, s.fw.key, cfg.hash(s.files[s.fw.key].data))
  }

  // A removed file held the payload of its Enqueue call.
  ghost predicate RemovedWhole(cfg: Config, s: State) {
    forall k | k in RemovedKeys(s.log) :: k in s.files && cfg.hash(s.files[k].want) in Removals(s.log)
  }

  ghost predicate Balanced(cfg: Config, s: State) {
    && GuardReplayed(cfg, s)
    && RemovalsLicensed(cfg.audit, s.log)
    && HandLicensed(cfg, s)
    && (cfg.Durable() ==> RemovedWhole(cfg, s))
  }

  lemma {:induction false} PendingWasDelivered(log: Log)
    ensures Bag(Pending(log)) <= Deliveries(log)
  {
    match log
    case Start =>
    case Then(past, _) => PendingWasDelivered(past);
  }

  // ------------------------------------------------------------------ every step

  lemma CallBalanced(cfg: Config, s: State, c: CallAction)
    requires Safety.Sound(cfg, s) && Balanced(cfg, s) && CallEnabled(cfg, s, c)
    ensures Balanced(cfg, CallStep(cfg, s, c))
  {
    CallFrame(cfg, s, c);
    if s.fw.Deleting? {
      assert s.fw.Holds(s.fw.key);
      Safety.CallLeavesCommitted(cfg, s, c, s.fw.key);
    }
  }

  lemma GuardForward(cfg: Config, s: State, f: ForwardAction)
    requires GuardReplayed(cfg, s) && ForwardEnabled(cfg, s, f)
    ensures GuardReplayed(cfg, ForwardStep(cfg, s, f))
  {
    if f.AuditOk? || f.AuditFails? {
      LineForward(cfg, s, f);
    }
  }

  // A line is written for the digest the guard holds, so for a delivered one.
  lemma LineForward(cfg: Config, s: State, f: ForwardAction)
    requires GuardReplayed(cfg, s) && ForwardEnabled(cfg, s, f) && (f.AuditOk? || f.AuditFails?)
    ensures GuardReplayed(cfg, ForwardStep(cfg, s, f))
  {
    PendingWasDelivered(s.log);
    var d := cfg.hash(s.fw.data);
    var line := Then(s.log, AuditLine(d));
    assert Pending(line) == Pending(s.log) == Some(d);
    assert AuditsPending(line) && LinesBacked(line);
  }

  lemma LicensedForward(cfg: Config, s: State, f: ForwardAction)
    requires HandLicensed(cfg, s) && RemovalsLicensed(cfg.audit, s.log) && ForwardEnabled(cfg, s, f)
    ensures RemovalsLicensed(cfg.audit, NextLog(cfg, s, f))
  {
    if f.AuditOk? {
      assert RemovalsLicensed(cfg.audit, Then(s.log, AuditLine(cfg.hash(s.fw.data))));
    }
  }

  lemma HandForward(cfg: Config, s: State, f: ForwardAction)
    requires Safety.HeadOk(s) && GuardReplayed(cfg, s) && ForwardEnabled(cfg, s, f)
    ensures HandLicensed(cfg, ForwardStep(cfg, s, f))
  {
  }

  lemma WholeForward(cfg: Config, s: State, f: ForwardAction)
    requires cfg.Durable() && Safety.Sound(cfg, s) && RemovedWhole(cfg, s) && ForwardEnabled(cfg, s, f)
    ensures RemovedWhole(cfg, ForwardStep(cfg, s, f))
  {
    Safety.ForwardRemoves(cfg, s, f);
    ForwardFrame(cfg, s, f);
    RemovalsForward(cfg, s, f);
    if f.Delete? {
      assert s.fw.Holds(s.fw.key);
      assert Safety.FileOk(cfg, s.files[s.fw.key], Safety.ViewOf(s, s.fw.key));
    }
  }

  lemma RemovalsForward(cfg: Config, s: State, f: ForwardAction)
    requires ForwardEnabled(cfg, s, f)
    ensures Removals(NextLog(cfg, s, f)) ==
            Removals(s.log) +
            if f.Delete? && f.ok then multiset{cfg.hash(s.files[s.fw.key].data)} else multiset{}
  {
    if f.AuditOk? {
      assert Removals(Then(s.log, AuditLine(cfg.hash(s.fw.data)))) == Removals(s.log);
    }
  }

  lemma CrashBalanced(cfg: Config, s: State, files: map<Key, File>, now: nat)
    requires Balanced(cfg, s)
    requires files.Keys == s.files.Keys && forall k | k in files :: files[k].want == s.files[k].want
    ensures Balanced(cfg, Reboot(s, files, now))
  {
  }

  lemma StepBalanced(cfg: Config, s: State, a: Action)
    requires Safety.Sound(cfg, s) && Balanced(cfg, s) && Enabled(cfg, s, a)
    ensures Balanced(cfg, Step(cfg, s, a))
  {
    match a
    case Call(c) => CallBalanced(cfg, s, c);
    case Forward(f) =>
      GuardForward(cfg, s, f);
      LicensedForward(cfg, s, f);
      HandForward(cfg, s, f);
      if cfg.Durable() {
        WholeForward(cfg, s, f);
      }
    case Crash(now) => CrashBalanced(cfg, s, s.files, now);
    case PowerLoss(now, found) => CrashBalanced(cfg, s, found, now);
  }

  lemma {:induction false} RunBalanced(cfg: Config, s: State, acts: seq<Action>)
    requires Safety.Sound(cfg, s) && Balanced(cfg, s) && CanRun(cfg, s, acts)
    ensures Safety.Sound(cfg, Run(cfg, s, acts)) && Balanced(cfg, Run(cfg, s, acts))
    decreases |acts|
  {
    if acts != [] {
      Safety.StepSound(cfg, s, acts[0]);
      StepBalanced(cfg, s, acts[0]);
      RunBalanced(cfg, Step(cfg, s, acts[0]), acts[1..]);
    }
  }

  // --------------------------------------------------------------- over whole runs

  // No accepted signal is lost, over any interleaving of Enqueue calls, forwarder
  // steps, crashes and (with fsync on) power losses.
  lemma NoAcceptedSignalLost(cfg: Config, acts: seq<Action>, k: Key)
    requires cfg.Durable() && CanRun(cfg, Init(), acts)
    requires k in Run(cfg, Init(), acts).acked
    ensures var s := Run(cfg, Init(), acts);
            && k in s.files
            && (s.files[k].loc == Queue || s.files[k].loc == Dead ==> s.files[k].data == s.files[k].want)
            && (s.files[k].loc == Queue || s.files[k].loc == Dead
                || (k in RemovedKeys(s.log) && cfg.hash(s.files[k].want) in Deliveries(s.log)))
  {
    var s := Run(cfg, Init(), acts);
    RunBalanced(cfg, Init(), acts);
    assert Safety.FileOk(cfg, s.files[k], Safety.ViewOf(s, k));
    RemovalsCovered(cfg.audit, s.log);
    Conservation(s.log);
  }

  // A file under its final name always holds one whole payload.
  lemma QueueHoldsWholePayloads(cfg: Config, acts: seq<Action>, k: Key)
    requires cfg.Durable() && CanRun(cfg, Init(), acts)
    requires k in Queued(Run(cfg, Init(), acts).files)
    ensures var f := Run(cfg, Init(), acts).files[k]; f.data == f.want
  {
    var s := Run(cfg, Init(), acts);
    RunBalanced(cfg, Init(), acts);
    assert Safety.FileOk(cfg, s.files[k], Safety.ViewOf(s, k));
  }

  // A file is removed as delivered right after Record returned nil for the bytes
  // it held (without auditing: right after they were delivered), even for what a
  // power loss made of it.
  lemma RemovedAfterRecord(cfg: Config, acts: seq<Action>, i: nat)
    requires CanRun(cfg, Init(), acts)
    requires i < Size(Run(cfg, Init(), acts).log) && At(Run(cfg, Init(), acts).log, i).Removed?
    ensures i > 0
    ensures var log := Run(cfg, Init(), acts).log;
            var e := At(log, i);
            At(log, i - 1) == if cfg.audit then Audited(e.digest) else Delivered(e.key, e.digest)
  {
    RunBalanced(cfg, Init(), acts);
    LicenceBefore(cfg.audit, Run(cfg, Init(), acts).log, i);
  }

  // Digest by digest, removals never outnumber audit records (without auditing:
  // deliveries), nor those the deliveries.
  lemma RemovalsNeverExceed(cfg: Config, acts: seq<Action>)
    requires CanRun(cfg, Init(), acts)
    ensures var log := Run(cfg, Init(), acts).log;
            Removals(log) <= Licences(cfg.audit, log) <= Deliveries(log)
  {
    var log := Run(cfg, Init(), acts).log;
    RunBalanced(cfg, Init(), acts);
    RemovalsCovered(cfg.audit, log);
    Conservation(log);
  }

  // Every confirmed delivery is audited, lost, or still held by the guard.
  lemma DeliveryConservation(cfg: Config, acts: seq<Action>)
    requires cfg.audit && CanRun(cfg, Init(), acts)
    ensures var s := Run(cfg, Init(), acts);
            Deliveries(s.log) == Audits(s.log) + Lost(s.log) + Bag(s.guard)
  {
    RunBalanced(cfg, Init(), acts);
    Conservation(Run(cfg, Init(), acts).log);
  }

  // Every audit line is preceded by a confirmed delivery of bytes with its digest.
  lemma AuditSoundness(cfg: Config, acts: seq<Action>, i: nat) returns (j: nat)
    requires CanRun(cfg, Init(), acts)
    requires i < Size(Run(cfg, Init(), acts).log) && At(Run(cfg, Init(), acts).log, i).AuditLine?
    ensures var log := Run(cfg, Init(), acts).log;
            j < i && At(log, j).Delivered? && At(log, j).digest == At(log, i).digest
  {
    RunBalanced(cfg, Init(), acts);
    j := LineHasEarlierDelivery(Run(cfg, Init(), acts).log, i);
  }
}
