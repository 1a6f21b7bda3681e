// No accepted signal is lost. The invariants are stated key by key: what may be
// true of one file, given where its Enqueue call stands and what the caller and
// the log know of it.
module Safety {
  import opened Options
  import opened SpoolNames
  import opened History
  import opened Protocol

  // What the rest of the state says about one key.
  datatype View = View(pc: Option<Pc>, acked: bool, returned: bool, removed: bool)

  function ViewOf(s: State, k: Key): View {
    View(if k in s.threads then Some(s.threads[k]) else None,
         k in s.acked, k in s.returned, k in RemovedKeys(s.log))
  }

  // Where a file is while its Enqueue call stands at pc.
  predicate PcFits(pc: Pc, loc: Loc) {
    match pc
    case Reserved => loc == Absent
    case Opened => loc == Temp
    case Written => loc == Temp
    case Flushed => loc == Temp
    case Closed => loc == Temp
    case Undoing => loc == Temp || loc == Absent
    case Unwinding => loc == Temp || loc == Absent
    case Failed => loc == Temp || loc == Absent
    case _ => loc != Temp
  }

  predicate Committed(pc: Pc) {
    pc.Renamed? || pc.Nudged? || pc.Acked? || pc.Unacked?
  }

  predicate MayBeRead(f: File) {
    f.loc == Queue || f.loc == Dead || Queue in f.may || Dead in f.may
  }

  predicate Complete(cfg: Config, f: File) {
    f.data == f.want && (cfg.fsync ==> f.flushed)
  }

  // An accepted file is queued, dead-lettered, or removed as delivered, and the
  // power failing does not change that.
  predicate Kept(cfg: Config, f: File, removed: bool) {
    && f.loc != Temp && (f.loc == Absent ==> removed)
    && (cfg.powerLoss ==> Temp !in f.may && (Absent in f.may ==> removed))
  }

  predicate FileOk(cfg: Config, f: File, v: View) {
    && f.loc in f.may
    && (v.pc.Some? ==> PcFits(v.pc.value, f.loc))
    && (v.pc.Some? && Committed(v.pc.value) && f.loc == Absent ==> v.removed)
    && (v.pc.Some? && v.returned ==> v.pc.value.Acked? || v.pc.value.Unacked?)
    && (v.acked ==> v.returned)
    && (cfg.Durable() && MayBeRead(f) ==> Complete(cfg, f))
    && (v.pc.Some? && (v.pc.value.Reserved? || v.pc.value.Opened? || v.pc.value.Written?) ==> !MayBeRead(f))
    && (v.pc.Some? && v.pc.value.Written? ==> f.data == f.want)
    && (v.pc.Some? && (v.pc.value.Flushed? || v.pc.value.Closed?) ==> Complete(cfg, f))
    && (cfg.Durable() && v.acked ==> Kept(cfg, f, v.removed))
  }

  ghost predicate FilesOk(cfg: Config, s: State) {
    forall k | k in s.files :: FileOk(cfg, s.files[k], ViewOf(s, k))
  }

  ghost predicate KeysKnown(s: State) {
    && s.threads.Keys <= s.files.Keys
    && s.acked <= s.returned <= s.files.Keys
  }

  // The forwarder is the only one to move a committed file, and it works on what
  // the file holds.
  ghost predicate HeadOk(s: State) {
    && (forall k :: s.fw.Holds(k) ==> k in s.files && s.files[k].loc == Queue)
    && (s.fw.Buried? ==> s.fw.key in s.files && s.files[s.fw.key].loc == Dead)
    && (s.fw.Loaded? || s.fw.Confirmed? ==> s.fw.key in s.files && s.fw.data == s.files[s.fw.key].data)
  }

  ghost predicate Sound(cfg: Config, s: State) {
    FilesOk(cfg, s) && KeysKnown(s) && HeadOk(s)
  }

  // ----------------------------------------------------------- steps of one file

  lemma NextFileOk(cfg: Config, c: CallAction, f: File, v: View)
    requires !c.Reserve? && !(c.SyncDir? && c.ok)
    requires FileOk(cfg, f, v) && v.pc == Some(From(c)) && ResultFits(cfg, c, f)
    ensures var pc := NextPc(cfg, c);
            FileOk(cfg, NextFile(cfg, c, f),
                   View(Some(pc), v.acked || pc.Acked?, v.returned || pc.Acked? || pc.Unacked?, v.removed))
  {
  }

  lemma SyncedOk(cfg: Config, f: File, v: View)
    requires FileOk(cfg, f, v)
    ensures FileOk(cfg, SyncedFile(f), v)
  {
  }

  lemma AckedOk(cfg: Config, f: File, v: View)
    requires FileOk(cfg, f, v) && v.pc == Some(Nudged)
    ensures FileOk(cfg, SyncedFile(f), View(Some(Acked), true, true, v.removed))
  {
  }

  lemma CrashedOk(cfg: Config, f: File, v: View, g: File)
    requires FileOk(cfg, f, v)
    requires g == f || (cfg.powerLoss && Survives(f, g))
    ensures FileOk(cfg, g, v.(pc := None))
  {
  }

  lemma LeavesOk(cfg: Config, f: File, v: View)
    requires FileOk(cfg, f, v) && f.loc == Queue
    ensures FileOk(cfg, Moved(f, Absent), v.(removed := true))
    ensures FileOk(cfg, Moved(f, Dead), v)
  {
  }

  // ----------------------------------------------------------------- every step

  lemma CallSound(cfg: Config, s: State, c: CallAction)
    requires Sound(cfg, s) && CallEnabled(cfg, s, c)
    ensures Sound(cfg, CallStep(cfg, s, c))
  {
    var s' := CallStep(cfg, s, c);
    forall k | k in s'.files ensures FileOk(cfg, s'.files[k], ViewOf(s', k)) {
      if c.Reserve? {
        if k in s.files {
          assert FileOk(cfg, s.files[k], ViewOf(s, k));
          assert ViewOf(s', k) == ViewOf(s, k);
        }
      } else {
        var f, v := s.files[k], ViewOf(s, k);
        assert FileOk(cfg, f, v);
        if k == c.key {
          if c.SyncDir? && c.ok {
            AckedOk(cfg, f, v);
          } else {
            NextFileOk(cfg, c, f, v);
          }
        } else {
          assert ViewOf(s', k) == v;
          SyncedOk(cfg, f, v);
        }
      }
    }
    CallKeepsHead(cfg, s, c);
  }

  // Enqueue never touches a committed file.
  lemma CallLeavesCommitted(cfg: Config, s: State, c: CallAction, k: Key)
    requires Sound(cfg, s) && CallEnabled(cfg, s, c)
    requires k in s.files && (s.files[k].loc == Queue || s.files[k].loc == Dead)
    ensures var s' := CallStep(cfg, s, c);
            k in s'.files && s'.files[k].loc == s.files[k].loc && s'.files[k].data == s.files[k].data
  {
    assert FileOk(cfg, s.files[k], ViewOf(s, k));
  }

  lemma CallKeepsHead(cfg: Config, s: State, c: CallAction)
    requires Sound(cfg, s) && CallEnabled(cfg, s, c)
    ensures HeadOk(CallStep(cfg, s, c)) && KeysKnown(CallStep(cfg, s, c))
  {
    CallFrame(cfg, s, c);
    forall k | k in s.files && (s.files[k].loc == Queue || s.files[k].loc == Dead)
      ensures k in CallStep(cfg, s, c).files && CallStep(cfg, s, c).files[k].loc == s.files[k].loc
    {
      CallLeavesCommitted(cfg, s, c, k);
    }
  }

  // What a step of the forwarder adds to the removed keys: at most its own head.
  lemma ForwardRemoves(cfg: Config, s: State, f: ForwardAction)
    requires ForwardEnabled(cfg, s, f)
    ensures RemovedKeys(ForwardStep(cfg, s, f).log) ==
            if f.Delete? && f.ok then RemovedKeys(s.log) + {s.fw.key} else RemovedKeys(s.log)
  {
    if f.AuditOk? {
      var d := cfg.hash(s.fw.data);
      assert RemovedKeys(Then(s.log, AuditLine(d))) == RemovedKeys(s.log);
    }
  }

  lemma ForwardFile(cfg: Config, s: State, f: ForwardAction, k: Key)
    requires Sound(cfg, s) && ForwardEnabled(cfg, s, f) && k in s.files
    ensures k in ForwardStep(cfg, s, f).files
    ensures FileOk(cfg, ForwardStep(cfg, s, f).files[k], ViewOf(ForwardStep(cfg, s, f), k))
  {
    ForwardRemoves(cfg, s, f);
    assert FileOk(cfg, s.files[k], ViewOf(s, k));
    if (f.Delete? || f.Bury?) && f.ok && s.fw.key == k {
      assert s.fw.Holds(k);
      LeavesOk(cfg, s.files[k], ViewOf(s, k));
    } else {
      assert ForwardStep(cfg, s, f).files[k] == s.files[k];
      assert ViewOf(ForwardStep(cfg, s, f), k) == ViewOf(s, k);
    }
  }

  lemma ForwardSound(cfg: Config, s: State, f: ForwardAction)
    requires Sound(cfg, s) && ForwardEnabled(cfg, s, f)
    ensures Sound(cfg, ForwardStep(cfg, s, f))
  {
    var s' := ForwardStep(cfg, s, f);
    assert s'.files.Keys == s.files.Keys;
    forall k | k in s'.files ensures FileOk(cfg, s'.files[k], ViewOf(s', k)) {
      ForwardFile(cfg, s, f, k);
    }
    ForwardKeepsHead(cfg, s, f);
  }

  lemma ForwardMovesOnlyHead(cfg: Config, s: State, f: ForwardAction, k: Key)
    requires ForwardEnabled(cfg, s, f) && NextFw(cfg, s, f).Holds(k)
    ensures NextFiles(cfg, s, f) == s.files
    ensures k in Queued(s.files) || s.fw.Holds(k)
  {
  }

  lemma ForwardKeepsHead(cfg: Config, s: State, f: ForwardAction)
    requires Sound(cfg, s) && ForwardEnabled(cfg, s, f)
    ensures HeadOk(ForwardStep(cfg, s, f)) && KeysKnown(ForwardStep(cfg, s, f))
  {
    ForwardFrame(cfg, s, f);
    forall k | NextFw(cfg, s, f).Holds(k) ensures k in Queued(NextFiles(cfg, s, f)) {
      ForwardMovesOnlyHead(cfg, s, f, k);
    }
    if s.fw.Listed? {
      assert s.fw.Holds(s.fw.key);
      assert FileOk(cfg, s.files[s.fw.key], ViewOf(s, s.fw.key));
    }
  }

  lemma CrashSound(cfg: Config, s: State, files: map<Key, File>, now: nat)
    requires Sound(cfg, s)
    requires files.Keys == s.files.Keys
    requires forall k | k in files :: files[k] == s.files[k] || (cfg.powerLoss && Survives(s.files[k], files[k]))
    ensures Sound(cfg, Reboot(s, files, now))
  {
    var s' := Reboot(s, files, now);
    forall k | k in s'.files ensures FileOk(cfg, s'.files[k], ViewOf(s', k)) {
      CrashedOk(cfg, s.files[k], ViewOf(s, k), files[k]);
      assert ViewOf(s', k) == ViewOf(s, k).(pc := None);
    }
  }

  lemma StepSound(cfg: Config, s: State, a: Action)
    requires Sound(cfg, s) && Enabled(cfg, s, a)
    ensures Sound(cfg, Step(cfg, s, a))
  {
    match a
    case Call(c) => CallSound(cfg, s, c);
    case Forward(f) => ForwardSound(cfg, s, f);
    case Crash(now) => CrashSound(cfg, s, s.files, now);
    case PowerLoss(now, found) => CrashSound(cfg, s, found, now);
  }

  lemma {:induction false} RunSound(cfg: Config, s: State, acts: seq<Action>)
    requires Sound(cfg, s) && CanRun(cfg, s, acts)
    ensures Sound(cfg, Run(cfg, s, acts))
    decreases |acts|
  {
    if acts != [] {
      StepSound(cfg, s, acts[0]);
      RunSound(cfg, Step(cfg, s, acts[0]), acts[1..]);
    }
  }
}
