// The redelivery guard, item by item: whose delivery it remembers, and when
// skipping a delivery on its word is right.
module Items {
  import opened Options
  import opened SpoolNames
  import opened History
  import opened Protocol
  import Depth
  import Ledger
  import Safety

  // Between the dead-letter rename and the OnDead hook the guard may be stale.
  predicate GuardSettled(s: State) {
    s.guard.Some? && !s.fw.Buried? && !s.fw.Mourning?
  }

  // The guard remembers a delivery of this process, of a file still queued.
  ghost predicate GuardOwned(cfg: Config, s: State) {
    && (GuardSettled(s) ==>
          && s.guarded.Some?
          && var h := s.guarded.value;
             && h in Queued(s.files) && h in ThisLife(s.log)
             && s.guard == Some(cfg.hash(s.files[h].data)))
    && (s.fw.Deleting? ==> s.guard.None?)
  }

  // The head being worked on is never named after the guarded file.
  ghost predicate HeadNotPast(s: State) {
    forall k | s.fw.Holds(k) && s.guard.Some? :: s.guarded.Some? && !Precedes(s.guarded.value, k)
  }

  ghost predicate Vouched(cfg: Config, s: State) {
    GuardOwned(cfg, s) && HeadNotPast(s)
  }

  // The files and log of the current process, as far as the guard is concerned.
  lemma CallKeepsQueued(cfg: Config, s: State, c: CallAction, k: Key)
    requires Safety.Sound(cfg, s) && CallEnabled(cfg, s, c) && k in Queued(s.files)
    ensures k in Queued(CallStep(cfg, s, c).files)
  {
    Safety.CallLeavesCommitted(cfg, s, c, k);
  }

  lemma CallVouched(cfg: Config, s: State, c: CallAction)
    requires Safety.Sound(cfg, s) && Vouched(cfg, s) && CallEnabled(cfg, s, c)
    ensures Vouched(cfg, CallStep(cfg, s, c))
  {
    CallFrame(cfg, s, c);
    if GuardSettled(s) {
      CallKeepsQueued(cfg, s, c, s.guarded.value);
    }
  }

  lemma ForwardLife(cfg: Config, s: State, f: ForwardAction)
    requires ForwardEnabled(cfg, s, f)
    ensures ThisLife(ForwardStep(cfg, s, f).log) ==
            if f.DeliverOk? then ThisLife(s.log) + {s.fw.key} else ThisLife(s.log)
  {
    if f.AuditOk? {
      assert ThisLife(Then(s.log, AuditLine(cfg.hash(s.fw.data)))) == ThisLife(s.log);
    }
  }

  lemma ForwardOwned(cfg: Config, s: State, f: ForwardAction)
    requires cfg.clearOnDead
    requires Safety.Sound(cfg, s) && Ledger.GuardReplayed(cfg, s) && GuardOwned(cfg, s) && ForwardEnabled(cfg, s, f)
    ensures GuardOwned(cfg, ForwardStep(cfg, s, f))
  {
    ForwardLife(cfg, s, f);
    if f.DeliverOk? {
      assert s.fw.Holds(s.fw.key);
    } else {
      KeepsOwned(cfg, s, f);
    }
  }

  lemma KeepsOwned(cfg: Config, s: State, f: ForwardAction)
    requires cfg.clearOnDead && !f.DeliverOk?
    requires Ledger.GuardReplayed(cfg, s) && GuardOwned(cfg, s) && ForwardEnabled(cfg, s, f)
    requires ThisLife(ForwardStep(cfg, s, f).log) == ThisLife(s.log)
    ensures GuardOwned(cfg, ForwardStep(cfg, s, f))
  {
  }

  lemma ForwardHolding(cfg: Config, s: State, f: ForwardAction, k: Key)
    requires ForwardEnabled(cfg, s, f) && NextFw(cfg, s, f).Holds(k)
    ensures if f.ListHead? then k == f.key else s.fw.Holds(k) && s.fw.key == k
  {
  }

  lemma ForwardVouched(cfg: Config, s: State, f: ForwardAction)
    requires cfg.clearOnDead
    requires Safety.Sound(cfg, s) && Ledger.GuardReplayed(cfg, s) && Vouched(cfg, s) && ForwardEnabled(cfg, s, f)
    ensures Vouched(cfg, ForwardStep(cfg, s, f))
  {
    var s' := ForwardStep(cfg, s, f);
    ForwardOwned(cfg, s, f);
    forall k | s'.fw.Holds(k) && s'.guard.Some?
      ensures s'.guarded.Some? && !Precedes(s'.guarded.value, k)
    {
      ForwardHolding(cfg, s, f, k);
      PrecedesTotal(k, k);
    }
  }

  // Skipping is right exactly when the head is not a name that was committed
  // late, before the delivered one. Nothing is assumed about the head here.
  lemma SkippedItem(cfg: Config, s: State)
    requires Vouched(cfg, s) && s.fw.Loaded? && GuardMatches(cfg, s, s.fw.data)
    ensures s.guarded.Some? && s.guarded.value in ThisLife(s.log)
    ensures s.guarded == Some(s.fw.key) <==> !Precedes(s.fw.key, s.guarded.value)
  {
    assert s.fw.Holds(s.fw.key);
    PrecedesTotal(s.fw.key, s.guarded.value);
  }

  // ------------------------------------------------------- with a stable head

  // The guarded file and the file being worked on are the head of the queue.
  ghost predicate Leading(s: State) {
    && (GuardSettled(s) ==> s.guarded.Some? && IsHead(s.files, s.guarded.value))
    && (forall k | s.fw.Holds(k) :: IsHead(s.files, k))
  }

  // A queued file this process has delivered is the guarded one, or is just
  // being removed.
  ghost predicate DeliveredOnce(s: State) {
    && (forall k | k in ThisLife(s.log) && k in Queued(s.files) ::
          (GuardSettled(s) && s.guarded == Some(k)) || (s.fw.Deleting? && s.fw.key == k))
    && (forall k | k in ThisLife(s.log) :: k in s.files && (k in s.threads ==> Safety.Committed(s.threads[k])))
    && (s.fw.Deleting? ==> s.fw.key in ThisLife(s.log))
    && OncePerLife(s.log)
    && RemovedAfterOwnDelivery(s.log)
  }

  lemma OneHead(files: map<Key, File>, h: Key, k: Key)
    requires IsHead(files, h) && IsHead(files, k)
    ensures h == k
  {
    PrecedesTotal(h, k);
  }

  lemma CallHeads(cfg: Config, s: State, c: CallAction, h: Key)
    requires cfg.headStable && Safety.Sound(cfg, s) && CallEnabled(cfg, s, c)
    requires IsHead(s.files, h) && Watched(s, h)
    ensures IsHead(CallStep(cfg, s, c).files, h)
  {
    CallKeepsQueued(cfg, s, c, h);
    Depth.CallQueued(cfg, s, c);
  }

  lemma CallLeading(cfg: Config, s: State, c: CallAction)
    requires cfg.headStable && Safety.Sound(cfg, s) && Leading(s) && CallEnabled(cfg, s, c)
    ensures Leading(CallStep(cfg, s, c))
  {
    CallFrame(cfg, s, c);
    if GuardSettled(s) {
      CallHeads(cfg, s, c, s.guarded.value);
    }
    forall k | s.fw.Holds(k) ensures IsHead(CallStep(cfg, s, c).files, k) {
      CallHeads(cfg, s, c, k);
    }
  }

  // A file this process delivered stays committed, and no step of Enqueue can
  // bring one back into the queue.
  lemma CallKeepsCommitted(cfg: Config, s: State, c: CallAction, k: Key)
    requires DeliveredOnce(s) && CallEnabled(cfg, s, c) && k in ThisLife(s.log)
    ensures var s' := CallStep(cfg, s, c);
            k in s'.files && (k in s'.threads ==> Safety.Committed(s'.threads[k]))
    ensures c.Commit? ==> c.key != k
  {
    if c.Reserve? || c.key != k {
      CallOther(cfg, s, c, k);
    }
  }

  lemma CallDeliveredOnce(cfg: Config, s: State, c: CallAction)
    requires Safety.Sound(cfg, s) && DeliveredOnce(s) && CallEnabled(cfg, s, c)
    ensures DeliveredOnce(CallStep(cfg, s, c))
  {
    CallFrame(cfg, s, c);
    Depth.CallQueued(cfg, s, c);
    forall k | k in ThisLife(s.log)
      ensures var s' := CallStep(cfg, s, c);
              k in s'.files && (k in s'.threads ==> Safety.Committed(s'.threads[k]))
      ensures k in Queued(CallStep(cfg, s, c).files) ==> k in Queued(s.files)
    {
      CallKeepsCommitted(cfg, s, c, k);
    }
  }

  // The head stays the head until it leaves.
  lemma ForwardHead(cfg: Config, s: State, f: ForwardAction, h: Key)
    requires Safety.Sound(cfg, s) && ForwardEnabled(cfg, s, f) && IsHead(s.files, h)
    requires (f.Delete? || f.Bury?) && f.ok ==> s.fw.key != h
    ensures IsHead(ForwardStep(cfg, s, f).files, h)
  {
    Depth.ForwardQueued(cfg, s, f);
  }

  lemma ForwardLeading(cfg: Config, s: State, f: ForwardAction)
    requires cfg.removeWorks && cfg.clearOnDead
    requires Safety.Sound(cfg, s) && Ledger.GuardReplayed(cfg, s) && Vouched(cfg, s) && Leading(s)
    requires ForwardEnabled(cfg, s, f)
    ensures Leading(ForwardStep(cfg, s, f))
  {
    var s' := ForwardStep(cfg, s, f);
    forall k | s'.fw.Holds(k) ensures IsHead(s'.files, k) {
      ForwardHolding(cfg, s, f, k);
      ForwardHead(cfg, s, f, k);
    }
    if GuardSettled(s') {
      ForwardSettled(cfg, s, f);
      ForwardHead(cfg, s, f, s'.guarded.value);
    }
  }

  lemma ForwardSettled(cfg: Config, s: State, f: ForwardAction)
    requires cfg.removeWorks && cfg.clearOnDead
    requires Ledger.GuardReplayed(cfg, s) && Vouched(cfg, s) && Leading(s)
    requires ForwardEnabled(cfg, s, f) && GuardSettled(ForwardStep(cfg, s, f))
    ensures var h := ForwardStep(cfg, s, f).guarded;
            h.Some? && IsHead(s.files, h.value) && !((f.Delete? || f.Bury?) && f.ok)
  {
    assert f.DeliverOk? ==> s.fw.Holds(s.fw.key);
  }

  // A delivery is of a file this process has not delivered yet.
  lemma DeliveryIsNew(cfg: Config, s: State)
    requires Safety.Sound(cfg, s) && Ledger.GuardReplayed(cfg, s) && Vouched(cfg, s) && Leading(s) && DeliveredOnce(s)
    requires ForwardEnabled(cfg, s, DeliverOk)
    ensures s.fw.key !in ThisLife(s.log)
    ensures forall k | k in ThisLife(s.log) :: k !in Queued(s.files)
  {
    var k := s.fw.key;
    assert s.fw.Holds(k);
    forall j | j in ThisLife(s.log) && j in Queued(s.files) ensures false {
      OneHead(s.files, j, k);
    }
  }

  lemma DeliverOnce(cfg: Config, s: State)
    requires Safety.Sound(cfg, s) && Ledger.GuardReplayed(cfg, s) && Vouched(cfg, s) && Leading(s) && DeliveredOnce(s)
    requires ForwardEnabled(cfg, s, DeliverOk)
    ensures DeliveredOnce(ForwardStep(cfg, s, DeliverOk))
  {
    DeliveryIsNew(cfg, s);
    assert s.fw.Holds(s.fw.key);
    assert Safety.FileOk(cfg, s.files[s.fw.key], Safety.ViewOf(s, s.fw.key));
  }

  lemma AuditOnce(cfg: Config, s: State)
    requires Ledger.GuardReplayed(cfg, s) && Vouched(cfg, s) && Leading(s) && DeliveredOnce(s)
    requires ForwardEnabled(cfg, s, AuditOk)
    ensures DeliveredOnce(ForwardStep(cfg, s, AuditOk))
  {
    assert s.fw.Holds(s.fw.key);
    OneHead(s.files, s.guarded.value, s.fw.key);
    ForwardClaims(cfg, s, AuditOk);
  }

  // The head leaves the queue, and with it the only delivered file in it.
  lemma LeftOnce(s: State, s': State, k: Key)
    requires DeliveredOnce(s)
    requires forall j | j in ThisLife(s.log) && j in Queued(s.files) :: j == k
    requires Queued(s'.files) == Queued(s.files) - {k}
    requires s'.files.Keys == s.files.Keys && s'.threads == s.threads && !s'.fw.Deleting?
    requires ThisLife(s'.log) == ThisLife(s.log) && OncePerLife(s'.log) && RemovedAfterOwnDelivery(s'.log)
    ensures DeliveredOnce(s')
  {
  }

  // What the log claims survives every step that delivers nothing.
  lemma ForwardClaims(cfg: Config, s: State, f: ForwardAction)
    requires ForwardEnabled(cfg, s, f) && !f.DeliverOk?
    requires OncePerLife(s.log) && RemovedAfterOwnDelivery(s.log)
    requires f.Delete? ==> s.fw.key in ThisLife(s.log)
    ensures var log := NextLog(cfg, s, f);
            OncePerLife(log) && RemovedAfterOwnDelivery(log) && ThisLife(log) == ThisLife(s.log)
  {
    if f.AuditOk? {
      var line := Then(s.log, AuditLine(cfg.hash(s.fw.data)));
      assert OncePerLife(line) && RemovedAfterOwnDelivery(line) && ThisLife(line) == ThisLife(s.log);
    }
  }

  lemma LeaveOnce(cfg: Config, s: State, f: ForwardAction)
    requires cfg.removeWorks && Safety.Sound(cfg, s) && Vouched(cfg, s) && Leading(s) && DeliveredOnce(s)
    requires ForwardEnabled(cfg, s, f) && (f.Delete? || f.Bury?) && f.ok
    ensures DeliveredOnce(ForwardStep(cfg, s, f))
  {
    var k, s' := s.fw.key, ForwardStep(cfg, s, f);
    Depth.ForwardQueued(cfg, s, f);
    ForwardFrame(cfg, s, f);
    ForwardClaims(cfg, s, f);
    assert s.fw.Holds(k);
    if GuardSettled(s) {
      OneHead(s.files, s.guarded.value, k);
    }
    assert forall j | j in ThisLife(s.log) && j in Queued(s.files) :: j == k;
    LeftOnce(s, s', k);
  }

  // Steps that move no file and deliver nothing.
  lemma QuietOnce(s: State, s': State)
    requires DeliveredOnce(s)
    requires s'.files == s.files && s'.threads == s.threads && s'.guarded == s.guarded
    requires ThisLife(s'.log) == ThisLife(s.log) && OncePerLife(s'.log) && RemovedAfterOwnDelivery(s'.log)
    requires GuardSettled(s) ==> GuardSettled(s')
    requires !s.fw.Deleting? && !s'.fw.Deleting?
    ensures DeliveredOnce(s')
  {
  }

  lemma QuietForward(cfg: Config, s: State, f: ForwardAction)
    requires cfg.removeWorks && DeliveredOnce(s) && ForwardEnabled(cfg, s, f)
    requires !f.DeliverOk? && !f.AuditOk? && !((f.Delete? || f.Bury?) && f.ok)
    requires s.fw.Mourning? ==> cfg.clearOnDead
    ensures DeliveredOnce(ForwardStep(cfg, s, f))
  {
    ForwardClaims(cfg, s, f);
    QuietOnce(s, ForwardStep(cfg, s, f));
  }

  lemma ForwardDeliveredOnce(cfg: Config, s: State, f: ForwardAction)
    requires cfg.removeWorks && cfg.clearOnDead
    requires Safety.Sound(cfg, s) && Ledger.GuardReplayed(cfg, s) && Vouched(cfg, s) && Leading(s) && DeliveredOnce(s)
    requires ForwardEnabled(cfg, s, f)
    ensures DeliveredOnce(ForwardStep(cfg, s, f))
  {
    if f.DeliverOk? {
      DeliverOnce(cfg, s);
    } else if f.AuditOk? {
      AuditOnce(cfg, s);
    } else if (f.Delete? || f.Bury?) && f.ok {
      LeaveOnce(cfg, s, f);
    } else {
      QuietForward(cfg, s, f);
    }
  }

  // ---------------------------------------------------------------------- runs

  ghost predicate Guarded(cfg: Config, s: State) {
    Safety.Sound(cfg, s) && Ledger.Balanced(cfg, s) && Vouched(cfg, s)
  }

  lemma StepGuarded(cfg: Config, s: State, a: Action)
    requires cfg.clearOnDead && Guarded(cfg, s) && Enabled(cfg, s, a)
    ensures Guarded(cfg, Step(cfg, s, a))
  {
    Safety.StepSound(cfg, s, a);
    Ledger.StepBalanced(cfg, s, a);
    match a
    case Call(c) => CallVouched(cfg, s, c);
    case Forward(f) => ForwardVouched(cfg, s, f);
    case _ =>
  }

  lemma {:induction false} RunGuarded(cfg: Config, s: State, acts: seq<Action>)
    requires cfg.clearOnDead && Guarded(cfg, s) && CanRun(cfg, s, acts)
    ensures Guarded(cfg, Run(cfg, s, acts))
    decreases |acts|
  {
    if acts != [] {
      StepGuarded(cfg, s, acts[0]);
      RunGuarded(cfg, Step(cfg, s, acts[0]), acts[1..]);
    }
  }

  lemma StepOnce(cfg: Config, s: State, a: Action)
    requires cfg.removeWorks && cfg.headStable && cfg.clearOnDead
    requires Guarded(cfg, s) && Leading(s) && DeliveredOnce(s) && Enabled(cfg, s, a)
    ensures Leading(Step(cfg, s, a)) && DeliveredOnce(Step(cfg, s, a))
  {
    match a
    case Call(c) =>
      CallLeading(cfg, s, c);
      CallDeliveredOnce(cfg, s, c);
    case Forward(f) =>
      ForwardLeading(cfg, s, f);
      ForwardDeliveredOnce(cfg, s, f);
    case _ =>
  }

  lemma {:induction false} RunOnce(cfg: Config, s: State, acts: seq<Action>)
    requires cfg.removeWorks && cfg.headStable && cfg.clearOnDead
    requires Guarded(cfg, s) && Leading(s) && DeliveredOnce(s) && CanRun(cfg, s, acts)
    ensures var s' := Run(cfg, s, acts); Guarded(cfg, s') && Leading(s') && DeliveredOnce(s')
    decreases |acts|
  {
    if acts != [] {
      StepGuarded(cfg, s, acts[0]);
      StepOnce(cfg, s, acts[0]);
      RunOnce(cfg, Step(cfg, s, acts[0]), acts[1..]);
    }
  }

  // With a stable head and a working os.Remove: a guard that is set holds the
  // digest of the head of the queue, which this process delivered; no signal is
  // delivered twice by one process; none is removed without its own delivery.
  lemma ItemSoundness(cfg: Config, acts: seq<Action>)
    requires cfg.removeWorks && cfg.headStable && cfg.clearOnDead
    requires CanRun(cfg, Init(), acts)
    ensures var s := Run(cfg, Init(), acts);
            && OncePerLife(s.log) && RemovedAfterOwnDelivery(s.log)
            && (GuardSettled(s) ==>
                  && s.guarded.Some? && IsHead(s.files, s.guarded.value)
                  && s.guarded.value in ThisLife(s.log)
                  && s.guard == Some(cfg.hash(s.files[s.guarded.value].data)))
  {
    RunOnce(cfg, Init(), acts);
  }

  // Whatever happens to the head: a delivery is skipped for the item that was
  // itself delivered exactly when that item is not a name committed late, before
  // the delivered one. The guarded item was always delivered by this process.
  lemma SkipExact(cfg: Config, acts: seq<Action>)
    requires cfg.clearOnDead && CanRun(cfg, Init(), acts)
    ensures var s := Run(cfg, Init(), acts);
            s.fw.Loaded? && GuardMatches(cfg, s, s.fw.data) ==>
              && s.guarded.Some? && s.guarded.value in ThisLife(s.log)
              && (s.guarded == Some(s.fw.key) <==> !Precedes(s.fw.key, s.guarded.value))
  {
    var s := Run(cfg, Init(), acts);
    RunGuarded(cfg, Init(), acts);
    if s.fw.Loaded? && GuardMatches(cfg, s, s.fw.data) {
      SkippedItem(cfg, s);
    }
  }
}
