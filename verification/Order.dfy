// First in, first out for producers that do not overlap, and no lost wake-up.
module Order {
  import opened SpoolNames
  import opened Protocol
  import Depth
  import Safety

  // ------------------------------------------------------------ the steady clock

  // No name is later than the clock.
  ghost predicate NamesPast(s: State) {
    forall k | k in s.files :: k.nanos <= s.clock < INT64_LIMIT
  }

  // A call starts no earlier than those that returned before it.
  ghost predicate AfterEarlier(s: State) {
    forall b | b in s.files :: forall a | a in s.files[b].after :: a in s.files && a.nanos <= b.nanos
  }

  // While the forwarder works on b, nothing named before b that had returned
  // before Enqueue(b) started is still queued.
  ghost predicate NothingOvertaken(s: State) {
    forall a, b | s.fw.Holds(b) && b in s.files && a in s.files[b].after && a in s.files ::
      Precedes(a, b) ==> s.files[a].loc != Queue
  }

  // `after` lists calls that are over.
  ghost predicate AfterReturned(s: State) {
    forall b | b in s.files :: s.files[b].after <= s.returned
  }

  ghost predicate Ordered(s: State) {
    NamesPast(s) && AfterEarlier(s) && AfterReturned(s) && NothingOvertaken(s)
  }

  lemma CallNames(cfg: Config, s: State, c: CallAction)
    requires cfg.steadyClock && NamesPast(s) && CallEnabled(cfg, s, c)
    ensures NamesPast(CallStep(cfg, s, c))
  {
  }

  lemma CallAfter(cfg: Config, s: State, c: CallAction)
    requires cfg.steadyClock && Safety.KeysKnown(s) && CallEnabled(cfg, s, c)
    requires NamesPast(s) && AfterEarlier(s) && AfterReturned(s)
    ensures AfterEarlier(CallStep(cfg, s, c)) && AfterReturned(CallStep(cfg, s, c))
  {
    CallFrame(cfg, s, c);
  }

  lemma CallOvertakesNothing(cfg: Config, s: State, c: CallAction, a: Key, b: Key)
    requires Safety.Sound(cfg, s) && Ordered(s) && CallEnabled(cfg, s, c)
    requires s.fw.Holds(b) && b in s.files && a in s.files[b].after && a in s.files && Precedes(a, b)
    ensures CallStep(cfg, s, c).files[a].loc != Queue
  {
    assert Safety.FileOk(cfg, s.files[a], Safety.ViewOf(s, a));
    if c.Reserve? || c.key != a {
      CallOther(cfg, s, c, a);
    } else {
      assert false;  // a has returned
    }
  }

  lemma CallOrdered(cfg: Config, s: State, c: CallAction)
    requires cfg.steadyClock && Safety.Sound(cfg, s) && Ordered(s) && CallEnabled(cfg, s, c)
    ensures Ordered(CallStep(cfg, s, c))
  {
    var s' := CallStep(cfg, s, c);
    CallFrame(cfg, s, c);
    CallNames(cfg, s, c);
    CallAfter(cfg, s, c);
    forall a, b | s'.fw.Holds(b) && b in s'.files && a in s'.files[b].after && a in s'.files && Precedes(a, b)
      ensures s'.files[a].loc != Queue
    {
      assert s.fw.Holds(b) && b in s.files;
      CallOvertakesNothing(cfg, s, c, a, b);
    }
  }

  lemma ForwardOrdered(cfg: Config, s: State, f: ForwardAction)
    requires Safety.Sound(cfg, s) && Ordered(s) && ForwardEnabled(cfg, s, f)
    ensures Ordered(ForwardStep(cfg, s, f))
  {
    var s' := ForwardStep(cfg, s, f);
    ForwardFrame(cfg, s, f);
    forall a, b | s'.fw.Holds(b) && b in s'.files && a in s'.files[b].after && a in s'.files && Precedes(a, b)
      ensures s'.files[a].loc != Queue
    {
      ForwardTakesNothingBack(cfg, s, f, a);
      ForwardHolds(cfg, s, f, b);
    }
  }

  lemma ForwardHolds(cfg: Config, s: State, f: ForwardAction, b: Key)
    requires ForwardEnabled(cfg, s, f) && NextFw(cfg, s, f).Holds(b)
    ensures if f.ListHead? then b == f.key else s.fw.Holds(b)
  {
  }

  lemma ForwardTakesNothingBack(cfg: Config, s: State, f: ForwardAction, a: Key)
    requires ForwardEnabled(cfg, s, f) && a in s.files
    ensures a in ForwardStep(cfg, s, f).files
    ensures ForwardStep(cfg, s, f).files[a].loc == Queue ==> s.files[a].loc == Queue
  {
  }

  lemma CrashOrdered(cfg: Config, s: State, files: map<Key, File>, now: nat)
    requires cfg.steadyClock && Ordered(s) && ClockAllows(cfg, s, now, true)
    requires files.Keys == s.files.Keys && Remembers(s.files, files)
    ensures Ordered(Reboot(s, files, now))
  {
  }

  lemma StepOrdered(cfg: Config, s: State, a: Action)
    requires cfg.steadyClock && Safety.Sound(cfg, s) && Ordered(s) && Enabled(cfg, s, a)
    ensures Ordered(Step(cfg, s, a))
  {
    match a
    case Call(c) => CallOrdered(cfg, s, c);
    case Forward(f) => ForwardOrdered(cfg, s, f);
    case Crash(now) => CrashOrdered(cfg, s, s.files, now);
    case PowerLoss(now, found) => CrashOrdered(cfg, s, found, now);
  }

  lemma {:induction false} RunOrdered(cfg: Config, s: State, acts: seq<Action>)
    requires cfg.steadyClock && Safety.Sound(cfg, s) && Ordered(s) && CanRun(cfg, s, acts)
    ensures Safety.Sound(cfg, Run(cfg, s, acts)) && Ordered(Run(cfg, s, acts))
    decreases |acts|
  {
    if acts != [] {
      Safety.StepSound(cfg, s, acts[0]);
      StepOrdered(cfg, s, acts[0]);
      RunOrdered(cfg, Step(cfg, s, acts[0]), acts[1..]);
    }
  }

  // FIFO: when Enqueue(a) had committed and returned before Enqueue(b) started,
  // the forwarder never works on b while a is queued. On a clock tie this needs
  // the sequence numbers to compare as their printed digits do.
  lemma NonOverlappingFifo(cfg: Config, acts: seq<Action>, a: Key, b: Key)
    requires cfg.steadyClock && CanRun(cfg, Init(), acts)
    requires b in Run(cfg, Init(), acts).files && a in Run(cfg, Init(), acts).files[b].after
    requires a.nanos == b.nanos ==> SeqPrecedes(a.seqNo, b.seqNo)
    ensures var s := Run(cfg, Init(), acts);
            s.fw.Holds(b) ==> a in s.files && s.files[a].loc != Queue
  {
    var s := Run(cfg, Init(), acts);
    RunOrdered(cfg, Init(), acts);
    assert a.nanos <= b.nanos;
    NameOrder(a, b);
  }

  // The same from the outside: whatever ran before and after, a signal whose Enqueue
  // had returned (with nil or with the directory fsync's error) when the next one
  // reserved its name is never queued while that one is being forwarded.
  lemma Fifo(cfg: Config, xs: seq<Action>, s0: State, now: nat, p: Payload, ys: seq<Action>, s: State, a: Key)
    requires cfg.steadyClock && Leads(cfg, Init(), xs, s0) && a in s0.returned
    requires CallEnabled(cfg, s0, Reserve(now, p)) && Leads(cfg, CallStep(cfg, s0, Reserve(now, p)), ys, s)
    requires a.nanos == now ==> a.seqNo < 1_000_000 && s0.seqNo + 1 < 1_000_000 && a.seqNo < s0.seqNo + 1
    ensures s.fw.Holds(Key(now, s0.seqNo + 1)) ==> a in s.files && s.files[a].loc != Queue
  {
    var b := Key(now, s0.seqNo + 1);
    var acts, s1 := Extend(cfg, Init(), xs, s0, Call(Reserve(now, p)));
    assert s1.files[b].after == s0.returned;
    RunRemembers(cfg, s1, ys);
    Chain(cfg, Init(), acts, s1, ys, s);
    if a.nanos == now {
      InSequence(a, b);
    }
    NonOverlappingFifo(cfg, acts + ys, a, b);
  }

  lemma InSequence(a: Key, b: Key)
    requires a.nanos == b.nanos && a.seqNo < b.seqNo < 1_000_000
    ensures SeqPrecedes(a.seqNo, b.seqNo)
  {
    assert Pow10(6) == 1_000_000;
    WidthBound(a.seqNo, 6);
    WidthBound(b.seqNo, 6);
  }

  // --------------------------------------------------------------- fresh names

  // Every name was reserved before the next one Enqueue will choose.
  ghost predicate NamesBefore(s: State) {
    forall k | k in s.files :: Earlier(k, Key(s.clock, s.seqNo + 1))
  }

  // Reserved earlier: the order of (nanos, seq).
  predicate Earlier(a: Key, b: Key) {
    a.nanos < b.nanos || (a.nanos == b.nanos && a.seqNo < b.seqNo)
  }

  lemma {:induction false} RunNames(cfg: Config, s: State, acts: seq<Action>)
    requires cfg.steadyClock && cfg.laterRestarts && NamesBefore(s) && CanRun(cfg, s, acts)
    ensures NamesBefore(Run(cfg, s, acts))
    decreases |acts|
  {
    if acts != [] {
      if acts[0].Forward? {
        ForwardFrame(cfg, s, acts[0].f);
      }
      RunNames(cfg, Step(cfg, s, acts[0]), acts[1..]);
    }
  }

  // Name freshness need not be assumed: with a clock that reads later in each new
  // process, the next name is new in every run, and later than all before it.
  lemma ReservedNameIsFresh(cfg: Config, acts: seq<Action>, now: nat)
    requires cfg.steadyClock && cfg.laterRestarts && CanRun(cfg, Init(), acts)
    requires ClockAllows(cfg, Run(cfg, Init(), acts), now, false)
    ensures var s := Run(cfg, Init(), acts);
            var k := Key(now, s.seqNo + 1);
            k !in s.files && forall a | a in s.files :: Earlier(a, k)
  {
    RunNames(cfg, Init(), acts);
  }

  // ------------------------------------------------------------------- wake-ups

  // A forwarder parked on an empty queue that is no longer empty has a token
  // waiting, or an Enqueue call about to send one.
  ghost predicate WakeComing(s: State) {
    s.fw.Parked? && Queued(s.files) != {} ==> s.wake || exists k :: AtPc(s, k, Renamed)
  }

  lemma CallWakes(cfg: Config, s: State, c: CallAction)
    requires Safety.Sound(cfg, s) && WakeComing(s) && CallEnabled(cfg, s, c)
    ensures WakeComing(CallStep(cfg, s, c))
  {
    var s' := CallStep(cfg, s, c);
    CallFrame(cfg, s, c);
    if s'.fw.Parked? && Queued(s'.files) != {} && !s'.wake {
      if c.Commit? && c.ok {
        assert AtPc(s', c.key, Renamed);
      } else {
        Depth.CallQueued(cfg, s, c);
        var k :| AtPc(s, k, Renamed);
        CallOther(cfg, s, c, k);
        assert AtPc(s', k, Renamed);
      }
    }
  }

  lemma ForwardWakes(cfg: Config, s: State, f: ForwardAction)
    requires WakeComing(s) && ForwardEnabled(cfg, s, f)
    ensures WakeComing(ForwardStep(cfg, s, f))
  {
    assert ForwardStep(cfg, s, f).fw.Parked? ==> f.ListEmpty?;
  }

  lemma {:induction false} RunWakes(cfg: Config, s: State, acts: seq<Action>)
    requires Safety.Sound(cfg, s) && WakeComing(s) && CanRun(cfg, s, acts)
    ensures WakeComing(Run(cfg, s, acts))
    decreases |acts|
  {
    if acts != [] {
      Safety.StepSound(cfg, s, acts[0]);
      match acts[0] {
        case Call(c) => CallWakes(cfg, s, c);
        case Forward(f) => ForwardWakes(cfg, s, f);
        case _ =>
      }
      RunWakes(cfg, Step(cfg, s, acts[0]), acts[1..]);
    }
  }

  // No lost wake-up, in any run and without any hypothesis.
  lemma NoLostWakeUp(cfg: Config, acts: seq<Action>)
    requires CanRun(cfg, Init(), acts)
    ensures WakeComing(Run(cfg, Init(), acts))
  {
    RunWakes(cfg, Init(), acts);
  }
}
