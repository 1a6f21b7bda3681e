// The depth counter: what it counts at every instant, and the bound it gives.
module Depth {
  import opened SpoolNames
  import opened Protocol
  import Safety

  // The call still counts in depth for a file that is not in the queue.
  predicate HoldsPlace(pc: Pc) {
    !Safety.Committed(pc) && !pc.Failed?
  }

  function Reserving(threads: map<Key, Pc>): set<Key> {
    set k | k in threads && HoldsPlace(threads[k])
  }

  // A file has left the queue and decDepth has not run yet.
  function Leaving(fw: Forwarder): nat {
    if fw.Deleted? || fw.Buried? then 1 else 0
  }

  function Max(a: nat, b: nat): nat {
    if a < b then b else a
  }

  ghost predicate Exact(s: State) {
    s.depth == |Queued(s.files)| + |Reserving(s.threads)| + Leaving(s.fw)
  }

  ghost predicate Counted(cfg: Config, s: State) {
    && Exact(s)
    && s.depth <= Max(cfg.maxDepth, s.base)
  }

  lemma ReservingGoto(threads: map<Key, Pc>, k: Key, pc: Pc)
    ensures Reserving(threads[k := pc]) ==
            if HoldsPlace(pc) then Reserving(threads) + {k} else Reserving(threads) - {k}
  {
  }

  lemma QueuedPut(files: map<Key, File>, k: Key, f: File)
    ensures Queued(files[k := f]) ==
            if f.loc == Queue then Queued(files) + {k} else Queued(files) - {k}
  {
  }

  lemma QueuedSynced(files: map<Key, File>)
    ensures Queued(Synced(files)) == Queued(files)
  {
    assert forall k | k in files :: Synced(files)[k].loc == files[k].loc;
  }

  // The sets behind the counter, after a step of Enqueue.
  lemma CallQueuedOwn(cfg: Config, s: State, c: CallAction)
    requires Safety.Sound(cfg, s) && CallEnabled(cfg, s, c) && !c.Reserve?
    ensures (NextFile(cfg, c, s.files[c.key]).loc == Queue) ==
            (s.files[c.key].loc == Queue || (c.Commit? && c.ok))
    ensures c.Commit? ==> s.files[c.key].loc != Queue
  {
    assert Safety.FileOk(cfg, s.files[c.key], Safety.ViewOf(s, c.key));
  }

  lemma CallQueued(cfg: Config, s: State, c: CallAction)
    requires Safety.Sound(cfg, s) && CallEnabled(cfg, s, c)
    ensures Queued(CallStep(cfg, s, c).files) ==
            if c.Commit? && c.ok then Queued(s.files) + {c.key} else Queued(s.files)
    ensures c.Commit? ==> c.key !in Queued(s.files)
  {
    if c.Reserve? {
      QueuedPut(s.files, Key(c.now, s.seqNo + 1), File(c.payload, s.returned, [], false, Absent, {Absent}));
    } else {
      var f := NextFile(cfg, c, s.files[c.key]);
      CallQueuedOwn(cfg, s, c);
      QueuedPut(s.files, c.key, f);
      QueuedSynced(s.files[c.key := f]);
    }
  }

  lemma CallReserving(cfg: Config, s: State, c: CallAction)
    requires Safety.KeysKnown(s) && CallEnabled(cfg, s, c)
    ensures Reserving(CallStep(cfg, s, c).threads) ==
            if c.Reserve? then Reserving(s.threads) + {Key(c.now, s.seqNo + 1)}
            else if (c.Commit? && c.ok) || c.Unwind? then Reserving(s.threads) - {c.key}
            else Reserving(s.threads)
    ensures if c.Reserve? then Key(c.now, s.seqNo + 1) !in Reserving(s.threads)
            else (c.Commit? && c.ok) || c.Unwind? ==> c.key in Reserving(s.threads)
  {
    if c.Reserve? {
      ReservingGoto(s.threads, Key(c.now, s.seqNo + 1), Reserved);
    } else {
      var pc := NextPc(cfg, c);
      ReservingGoto(s.threads, c.key, pc);
      assert HoldsPlace(pc) ==> HoldsPlace(From(c));
      assert HoldsPlace(From(c)) && !HoldsPlace(pc) ==> (c.Commit? && c.ok) || c.Unwind?;
    }
  }

  lemma Grown<T>(xs: set<T>, x: T)
    requires x !in xs
    ensures |xs + {x}| == |xs| + 1
  {
  }

  lemma Shrunk<T>(xs: set<T>, x: T)
    requires x in xs
    ensures |xs - {x}| == |xs| - 1 && |xs| > 0
  {
  }

  lemma CallCounted(cfg: Config, s: State, c: CallAction)
    requires Safety.Sound(cfg, s) && Counted(cfg, s) && CallEnabled(cfg, s, c)
    ensures Counted(cfg, CallStep(cfg, s, c))
    ensures c.Unwind? ==> s.depth > 0
  {
    CallFrame(cfg, s, c);
    CallQueued(cfg, s, c);
    CallReserving(cfg, s, c);
    if c.Reserve? {
      Grown(Reserving(s.threads), Key(c.now, s.seqNo + 1));
    } else if c.Commit? && c.ok {
      Grown(Queued(s.files), c.key);
      Shrunk(Reserving(s.threads), c.key);
    } else if c.Unwind? {
      Shrunk(Reserving(s.threads), c.key);
    }
  }

  lemma ForwardQueued(cfg: Config, s: State, f: ForwardAction)
    requires Safety.Sound(cfg, s) && ForwardEnabled(cfg, s, f)
    ensures Queued(ForwardStep(cfg, s, f).files) ==
            if (f.Delete? || f.Bury?) && f.ok then Queued(s.files) - {s.fw.key} else Queued(s.files)
    ensures f.Delete? || f.Bury? ==> s.fw.key in Queued(s.files)
  {
    if f.Delete? || f.Bury? {
      assert s.fw.Holds(s.fw.key);
      QueuedPut(s.files, s.fw.key, Moved(s.files[s.fw.key], if f.Delete? then Absent else Dead));
    }
  }

  // os.Remove of a queue file fails. The code goes on as if it had not.
  const LEAK: ForwardAction := Delete(false)

  // The forwarder's own share of the count.
  lemma ForwardLeaving(cfg: Config, s: State, f: ForwardAction)
    requires f != LEAK && ForwardEnabled(cfg, s, f)
    ensures Leaving(NextFw(cfg, s, f)) ==
            if (f.Delete? || f.Bury?) && f.ok then 1
            else if f.CountDeleted? || f.CountBuried? then 0
            else Leaving(s.fw)
    ensures f.CountDeleted? || f.CountBuried? ==> Leaving(s.fw) == 1
    ensures f.Delete? || f.Bury? ==> Leaving(s.fw) == 0
  {
  }

  lemma ForwardCounted(cfg: Config, s: State, f: ForwardAction)
    requires f != LEAK
    requires Safety.Sound(cfg, s) && Counted(cfg, s) && ForwardEnabled(cfg, s, f)
    ensures Counted(cfg, ForwardStep(cfg, s, f))
    ensures f.CountDeleted? || f.CountBuried? ==> s.depth > 0
  {
    ForwardFrame(cfg, s, f);
    ForwardQueued(cfg, s, f);
    ForwardLeaving(cfg, s, f);
    if (f.Delete? || f.Bury?) && f.ok {
      Shrunk(Queued(s.files), s.fw.key);
    }
    assert ForwardStep(cfg, s, f).fw == NextFw(cfg, s, f);
  }

  lemma StepCounted(cfg: Config, s: State, a: Action)
    requires a != Forward(LEAK)
    requires Safety.Sound(cfg, s) && Counted(cfg, s) && Enabled(cfg, s, a)
    ensures Counted(cfg, Step(cfg, s, a))
  {
    match a
    case Call(c) => CallCounted(cfg, s, c);
    case Forward(f) => ForwardCounted(cfg, s, f);
    case _ =>
  }

  // The file stays, and the forwarder believes that it is on its way out.
  lemma LeakMiscounts(cfg: Config, s: State)
    requires Safety.Sound(cfg, s) && Exact(s) && Enabled(cfg, s, Forward(LEAK))
    ensures !Exact(Step(cfg, s, Forward(LEAK)))
  {
    ForwardFrame(cfg, s, LEAK);
    ForwardQueued(cfg, s, LEAK);
  }

  // Every state of the run satisfies the equation.
  ghost predicate ExactThroughout(cfg: Config, s: State, acts: seq<Action>)
    requires CanRun(cfg, s, acts)
    decreases |acts|
  {
    Exact(s) && (acts == [] || ExactThroughout(cfg, Step(cfg, s, acts[0]), acts[1..]))
  }

  lemma {:induction false} RunCounted(cfg: Config, s: State, acts: seq<Action>)
    requires Safety.Sound(cfg, s) && Counted(cfg, s) && CanRun(cfg, s, acts)
    ensures ExactThroughout(cfg, s, acts) <==> Forward(LEAK) !in acts
    ensures Forward(LEAK) !in acts ==> Safety.Sound(cfg, Run(cfg, s, acts)) && Counted(cfg, Run(cfg, s, acts))
    decreases |acts|
  {
    if acts != [] {
      assert acts == [acts[0]] + acts[1..];
      var s' := Step(cfg, s, acts[0]);
      Safety.StepSound(cfg, s, acts[0]);
      if acts[0] == Forward(LEAK) {
        LeakMiscounts(cfg, s);
        assert !ExactThroughout(cfg, s', acts[1..]);
      } else {
        StepCounted(cfg, s, acts[0]);
        RunCounted(cfg, s', acts[1..]);
      }
    }
  }

  // The counter is right in every state of a run exactly when no removal of a
  // queue file fails in it.
  lemma DepthExact(cfg: Config, acts: seq<Action>)
    requires CanRun(cfg, Init(), acts)
    ensures ExactThroughout(cfg, Init(), acts) <==> Forward(LEAK) !in acts
  {
    RunCounted(cfg, Init(), acts);
  }

  // In every run without one, depth counts the queued files, the reservations not
  // yet committed or given back, and the file on its way out; the queue never
  // outgrows its limit (or what New found), and decDepth never sees a zero.
  lemma DepthConservation(cfg: Config, acts: seq<Action>)
    requires CanRun(cfg, Init(), acts) && Forward(LEAK) !in acts
    ensures var s := Run(cfg, Init(), acts);
            && s.depth == |Queued(s.files)| + |Reserving(s.threads)| + Leaving(s.fw)
            && |Queued(s.files)| <= Max(cfg.maxDepth, s.base)
            && (s.fw.Deleted? || s.fw.Buried? || (exists k :: AtPc(s, k, Unwinding)) ==> s.depth > 0)
  {
    var s := Run(cfg, Init(), acts);
    RunCounted(cfg, Init(), acts);
    if k :| AtPc(s, k, Unwinding) {
      assert k in Reserving(s.threads);
    }
  }

  // A working os.Remove rules it out.
  lemma {:induction false} NoLeak(cfg: Config, s: State, acts: seq<Action>)
    requires cfg.removeWorks && CanRun(cfg, s, acts)
    ensures Forward(LEAK) !in acts
    decreases |acts|
  {
    if acts != [] {
      assert acts == [acts[0]] + acts[1..];
      NoLeak(cfg, Step(cfg, s, acts[0]), acts[1..]);
    }
  }
}
