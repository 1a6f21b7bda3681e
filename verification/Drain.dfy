// Spool.Run while nothing is added to the queue: the loop empties it in the order
// of the names, and the backoff waits add up to a closed form.
module Drain {
  import opened Options
  import opened Powers
  import opened SpoolNames
  import opened History
  import opened Protocol
  import opened Listing
  import opened AuditForward
  import opened SpoolQueue

  // A retryable failure of one turn: the directory could not be listed, the
  // delivery was not confirmed, or it was and its audit record failed, with or
  // without its line. With auditing off there is no record to fail.
  datatype Fault = Unlisted | Refused | Unaudited(line: bool)

  // What the forwarder will meet at one queued signal: its failures, and after
  // them that the destination accepts or rejects it, or that its file cannot be
  // read.
  datatype Fate = Fate(faults: seq<Fault>, ending: Ending)
  datatype Ending = Accepted | Rejected | Unreadable

  const MAX_BACKOFF: nat := 30

  function Min(a: nat, b: nat): nat {
    if a < b then a else b
  }

  // The backoff variable after k failures since the last progress.
  function BackoffAfter(k: nat): nat {
    Min(Pow2(k), MAX_BACKOFF)
  }

  // The closed form of one head's total wait.
  function Wait(m: nat): nat {
    if m <= 5 then Pow2(m) - 1 else 31 + 30 * (m - 5)
  }

  lemma WaitStep(m: nat)
    ensures Wait(m + 1) == Wait(m) + BackoffAfter(m)
  {
    assert Pow2(5) == 32;
    if m >= 5 {
      Pow2Monotone(5, m);
    } else {
      Pow2Monotone(m, 4);
    }
  }

  // ------------------------------------------------------- the turns of the loop

  datatype Turns =
    | Begin(queue: set<Key>)
    | Left(past: Turns, key: Key)               // delivered or moved into dead/
    | Waited(past: Turns, key: Key, wait: nat)  // a retryable failure, and the wait after it, in seconds

  function Initially(turns: Turns): set<Key> {
    match turns
    case Begin(queue) => queue
    case Left(past, _) => Initially(past)
    case Waited(past, _, _) => Initially(past)
  }

  function Remaining(turns: Turns): set<Key> {
    match turns
    case Begin(queue) => queue
    case Left(past, k) => Remaining(past) - {k}
    case Waited(past, _, _) => Remaining(past)
  }

  // Failures since the last progress.
  function Failures(turns: Turns): nat {
    match turns
    case Waited(past, _, _) => Failures(past) + 1
    case _ => 0
  }

  // A head that failed is tried again.
  predicate Tries(turns: Turns, k: Key) {
    turns.Waited? ==> turns.key == k
  }

  // Each wait is the backoff, and each signal had just the failures planned.
  predicate Paced(turns: Turns, plan: Key -> Fate) {
    match turns
    case Begin(_) => true
    case Left(past, k) => Tries(past, k) && Failures(past) == |plan(k).faults| && Paced(past, plan)
    case Waited(past, k, w) =>
      && Tries(past, k) && Failures(past) < |plan(k).faults| && Paced(past, plan)
      && w == if Failures(past) < 5 then Pow2(Failures(past)) else 30
  }

  // The first to be forwarded.
  ghost predicate Oldest(queue: set<Key>, k: Key) {
    k in queue && forall j | j in queue :: !Precedes(j, k)
  }

  // Each signal is tried while it is the oldest of those that remain.
  ghost predicate InOrder(turns: Turns) {
    match turns
    case Begin(_) => true
    case Left(past, k) => Oldest(Remaining(past), k) && InOrder(past)
    case Waited(past, k, _) => Oldest(Remaining(past), k) && InOrder(past)
  }

  function TotalWait(turns: Turns): nat {
    match turns
    case Begin(_) => 0
    case Left(past, _) => TotalWait(past)
    case Waited(past, _, w) => TotalWait(past) + w
  }

  // The closed forms of the signals that left, added up.
  function Planned(turns: Turns, plan: Key -> Fate): nat {
    match turns
    case Begin(_) => 0
    case Left(past, k) =>
      var m := |plan(k).faults|;
      Planned(past, plan) + if m <= 5 then Pow2(m) - 1 else 31 + 30 * (m - 5)
    case Waited(past, _, _) => Planned(past, plan)
  }

  lemma BackoffClosed(k: nat)
    ensures BackoffAfter(k) == if k < 5 then Pow2(k) else 30
  {
    assert Pow2(5) == 32;
    if k >= 5 {
      Pow2Monotone(5, k);
    } else {
      Pow2Monotone(k, 4);
    }
  }

  lemma {:induction false} TotalWaitExact(turns: Turns, plan: Key -> Fate)
    requires Paced(turns, plan)
    ensures TotalWait(turns) == Planned(turns, plan) + Wait(Failures(turns))
  {
    match turns
    case Begin(_) =>
    case Left(past, _) => TotalWaitExact(past, plan);
    case Waited(past, _, _) =>
      TotalWaitExact(past, plan);
      BackoffClosed(Failures(past));
      WaitStep(Failures(past));
  }

  lemma BackoffDoubles(k: nat)
    ensures BackoffAfter(k + 1) == Min(2 * BackoffAfter(k), MAX_BACKOFF)
  {
    assert Pow2(k + 1) == 2 * Pow2(k);
  }

  // -------------------------------------------------------------- what turns do

  // The attempt after so many failures. What fails when the delivery is already
  // behind it is the audit record. After the last failure nothing else goes wrong.
  function AttemptAt(audit: bool, fate: Fate, failed: nat): ForwardIo {
    if failed < |fate.faults| then
      match fate.faults[failed]
      case Unlisted => ForwardIo(false, true, RetryLater, NoLine, true, true)
      case Refused => ForwardIo(true, true, RetryLater, NoLine, true, true)
      case Unaudited(line) =>
        ForwardIo(true, true, if audit then Confirms else RetryLater, if line then LineOnly else NoLine, true, true)
    else
      var delivery := if fate.ending.Rejected? then Rejects else Confirms;
      ForwardIo(true, !fate.ending.Unreadable?, delivery, Complete, true, true)
  }

  lemma AttemptVerdict(audit: bool, skip: bool, fate: Fate, failed: nat)
    requires skip ==> audit
    ensures var io := AttemptAt(audit, fate, failed);
            && io.list == (failed >= |fate.faults| || !fate.faults[failed].Unlisted?)
            && (io.list ==> HeadVerdict(audit, skip, io) ==
                            if failed < |fate.faults| then Retryable
                            else if fate.ending.Unreadable? || (fate.ending.Rejected? && !skip) then Permanent
                            else Success)
  {
  }

  // One turn on k.
  function TurnScene(cfg: Config, c: Scene, k: Key, io: ForwardIo): Scene {
    if io.list && k in c.disk then HeadScene(cfg, c, k, io) else c
  }

  // All of them, from the scene c.
  function After(cfg: Config, turns: Turns, plan: Key -> Fate, c: Scene): Scene {
    match turns
    case Begin(_) => c
    case Left(past, k) => TurnScene(cfg, After(cfg, past, plan, c), k, AttemptAt(cfg.audit, plan(k), Failures(past)))
    case Waited(past, k, _) =>
      TurnScene(cfg, After(cfg, past, plan, c), k, AttemptAt(cfg.audit, plan(k), Failures(past)))
  }

  // --------------------------------------------------------- the fate of a signal

  // A delivery was confirmed in the first n failures.
  predicate Confirmed(fate: Fate, n: nat) {
    exists i | 0 <= i < n && i < |fate.faults| :: fate.faults[i].Unaudited?
  }

  // What the guard held when the current head became the head.
  function Base(turns: Turns, guard: Option<Digest>): Option<Digest> {
    match turns
    case Begin(_) => guard
    case Left(_, _) => None
    case Waited(past, _, _) => Base(past, guard)
  }

  // ... and when k, which has left, did.
  function BaseOf(turns: Turns, guard: Option<Digest>, k: Key): Option<Digest> {
    match turns
    case Begin(_) => guard
    case Left(past, j) => if j == k then Base(past, guard) else BaseOf(past, guard, k)
    case Waited(past, _, _) => BaseOf(past, guard, k)
  }

  // The guard while the head k, holding the digest d, has failed n times.
  function Guarding(audit: bool, base: Option<Digest>, fate: Fate, n: nat, d: Digest): Option<Digest> {
    if audit && Confirmed(fate, n) then Some(d) else base
  }

  // What becomes of one head, turn by turn.
  lemma HeadFails(cfg: Config, c: Scene, k: Key, fate: Fate, n: nat, base: Option<Digest>)
    requires k in c.disk && n < |fate.faults| && (cfg.audit || base.None?)
    requires c.guard == Guarding(cfg.audit, base, fate, n, cfg.hash(c.disk[k].data))
    ensures var d := cfg.hash(c.disk[k].data);
            var c' := TurnScene(cfg, c, k, AttemptAt(cfg.audit, fate, n));
            && c'.disk == c.disk
            && c'.guard == Guarding(cfg.audit, base, fate, n + 1, d)
            && c'.sent == c.sent +
                 if cfg.audit && base != Some(d) && Confirmed(fate, n + 1) && !Confirmed(fate, n)
                 then multiset{k} else multiset{}
  {
    var d := cfg.hash(c.disk[k].data);
    AttemptVerdict(cfg.audit, cfg.audit && c.guard == Some(d), fate, n);
    if fate.faults[n].Unaudited? {
      assert Confirmed(fate, n + 1);
    } else {
      assert Confirmed(fate, n + 1) ==> Confirmed(fate, n);
    }
  }

  // A signal that is known to be delivered is not offered again, so not rejected;
  // a file that cannot be read is dead-lettered even then.
  predicate Buried(fate: Fate, known: bool) {
    fate.ending.Unreadable? || (fate.ending.Rejected? && !known)
  }

  lemma HeadLeaves(cfg: Config, c: Scene, k: Key, fate: Fate, base: Option<Digest>)
    requires k in c.disk && (cfg.audit || base.None?)
    requires c.guard == Guarding(cfg.audit, base, fate, |fate.faults|, cfg.hash(c.disk[k].data))
    ensures var known := c.guard == Some(cfg.hash(c.disk[k].data));
            var c' := TurnScene(cfg, c, k, AttemptAt(cfg.audit, fate, |fate.faults|));
            && c'.guard.None?
            && c'.disk == (if Buried(fate, known) then c.disk[k := Node(Dead, c.disk[k].data)] else c.disk - {k})
            && c'.sent == c.sent + if fate.ending.Accepted? && !known then multiset{k} else multiset{}
  {
    AttemptVerdict(cfg.audit, cfg.audit && c.guard == Some(cfg.hash(c.disk[k].data)), fate, |fate.faults|);
  }

  ghost predicate Drains(cfg: Config, turns: Turns, plan: Key -> Fate, c: Scene) {
    (cfg.audit || c.guard.None?) && Paced(turns, plan) && InOrder(turns) && Initially(turns) == Waiting(c.disk)
  }

  // What is still queued is as it was, and the guard is told by the failures of
  // the head.
  lemma {:induction false} Tracked(cfg: Config, turns: Turns, plan: Key -> Fate, c: Scene)
    requires Drains(cfg, turns, plan, c)
    ensures var s := After(cfg, turns, plan, c);
            && (cfg.audit || Base(turns, c.guard).None?)
            && Remaining(turns) <= Initially(turns)
            && (forall k | k in Remaining(turns) :: k in s.disk && k in c.disk && s.disk[k] == c.disk[k])
            && forall k | k in Remaining(turns) && Tries(turns, k) ::
                 s.guard == Guarding(cfg.audit, Base(turns, c.guard), plan(k), Failures(turns),
                                     cfg.hash(c.disk[k].data))
  {
    match turns
    case Begin(_) =>
    case Left(past, k) =>
      Tracked(cfg, past, plan, c);
      HeadLeaves(cfg, After(cfg, past, plan, c), k, plan(k), Base(past, c.guard));
    case Waited(past, k, _) =>
      Tracked(cfg, past, plan, c);
      HeadFails(cfg, After(cfg, past, plan, c), k, plan(k), Failures(past), Base(past, c.guard));
  }

  // Its audit record alone was owed from the start.
  predicate Owed(cfg: Config, turns: Turns, c: Scene, k: Key) {
    cfg.audit && k in c.disk && BaseOf(turns, c.guard, k) == Some(cfg.hash(c.disk[k].data))
  }

  // How often k was sent since c: a queued one only while its audit fails.
  function SentOf(cfg: Config, turns: Turns, plan: Key -> Fate, c: Scene, k: Key): nat {
    if k in Remaining(turns) then
      if turns.Waited? && turns.key == k && cfg.audit && k in c.disk && Confirmed(plan(k), Failures(turns))
         && Base(turns, c.guard) != Some(cfg.hash(c.disk[k].data)) then 1 else 0
    else if k !in Initially(turns) || Owed(cfg, turns, c, k) then 0
    else if plan(k).ending.Accepted? || (cfg.audit && Confirmed(plan(k), |plan(k).faults|)) then 1
    else 0
  }

  // k was delivered, before c or by the failures since, when the last attempt came.
  predicate Known(cfg: Config, turns: Turns, plan: Key -> Fate, c: Scene, k: Key) {
    Owed(cfg, turns, c, k) || (cfg.audit && Confirmed(plan(k), |plan(k).faults|))
  }

  // Where k is.
  predicate Settled(cfg: Config, turns: Turns, plan: Key -> Fate, c: Scene, disk: map<Key, Node>, k: Key) {
    if k in Remaining(turns) || k !in Initially(turns) then
      (k in disk <==> k in c.disk) && (k in c.disk ==> disk[k] == c.disk[k])
    else if Buried(plan(k), Known(cfg, turns, plan, c, k)) then
      k in c.disk && k in disk && disk[k] == Node(Dead, c.disk[k].data)
    else k !in disk
  }

  // A turn leaves every signal but its own alone.
  lemma OtherScene(cfg: Config, c: Scene, j: Key, io: ForwardIo, k: Key)
    requires j != k
    ensures var c' := TurnScene(cfg, c, j, io);
            (k in c'.disk <==> k in c.disk) && (k in c.disk ==> c'.disk[k] == c.disk[k]) && c'.sent[k] == c.sent[k]
  {
  }

  lemma OtherFated(cfg: Config, past: Turns, plan: Key -> Fate, c: Scene, j: Key, k: Key)
    requires j in Remaining(past) && Tries(past, j) && j != k
    ensures SentOf(cfg, Left(past, j), plan, c, k) == SentOf(cfg, past, plan, c, k)
    ensures forall w :: SentOf(cfg, Waited(past, j, w), plan, c, k) == SentOf(cfg, past, plan, c, k)
  {
  }

  lemma LeaverFated(cfg: Config, past: Turns, plan: Key -> Fate, c: Scene, k: Key)
    requires Drains(cfg, Left(past, k), plan, c)
    requires var s := After(cfg, past, plan, c);
             s.sent[k] == c.sent[k] + SentOf(cfg, past, plan, c, k)
    ensures var turns := Left(past, k);
            var s := After(cfg, turns, plan, c);
            s.sent[k] == c.sent[k] + SentOf(cfg, turns, plan, c, k) && Settled(cfg, turns, plan, c, s.disk, k)
  {
    Tracked(cfg, past, plan, c);
    HeadLeaves(cfg, After(cfg, past, plan, c), k, plan(k), Base(past, c.guard));
    assert k in Initially(past);
    assert BaseOf(Left(past, k), c.guard, k) == Base(past, c.guard);
  }

  lemma WaiterFated(cfg: Config, past: Turns, wait: nat, plan: Key -> Fate, c: Scene, k: Key)
    requires Drains(cfg, Waited(past, k, wait), plan, c)
    requires var s := After(cfg, past, plan, c);
             s.sent[k] == c.sent[k] + SentOf(cfg, past, plan, c, k) && Settled(cfg, past, plan, c, s.disk, k)
    ensures var turns := Waited(past, k, wait);
            var s := After(cfg, turns, plan, c);
            s.sent[k] == c.sent[k] + SentOf(cfg, turns, plan, c, k) && Settled(cfg, turns, plan, c, s.disk, k)
  {
    Tracked(cfg, past, plan, c);
    HeadFails(cfg, After(cfg, past, plan, c), k, plan(k), Failures(past), Base(past, c.guard));
  }

  lemma {:induction false} Fated(cfg: Config, turns: Turns, plan: Key -> Fate, c: Scene, k: Key)
    requires Drains(cfg, turns, plan, c)
    ensures var s := After(cfg, turns, plan, c);
            s.sent[k] == c.sent[k] + SentOf(cfg, turns, plan, c, k) && Settled(cfg, turns, plan, c, s.disk, k)
  {
    match turns
    case Begin(_) =>
    case Left(past, j) =>
      Fated(cfg, past, plan, c, k);
      if j == k {
        LeaverFated(cfg, past, plan, c, k);
      } else {
        OtherScene(cfg, After(cfg, past, plan, c), j, AttemptAt(cfg.audit, plan(j), Failures(past)), k);
        OtherFated(cfg, past, plan, c, j, k);
      }
    case Waited(past, j, _) =>
      Fated(cfg, past, plan, c, k);
      if j == k {
        WaiterFated(cfg, past, turns.wait, plan, c, k);
      } else {
        OtherScene(cfg, After(cfg, past, plan, c), j, AttemptAt(cfg.audit, plan(j), Failures(past)), k);
        OtherFated(cfg, past, plan, c, j, k);
      }
  }

  // ---------------------------------------------------------------------- the loop

  lemma OneOldest(queue: set<Key>, j: Key, k: Key)
    requires Oldest(queue, j) && Oldest(queue, k)
    ensures j == k
  {
    PrecedesTotal(j, k);
  }

  // One turn of the loop while k is the head, up to the wait after a failure.
  method Attempt(sp: Spool, k: Key, fate: Fate, failed: nat) returns (progressed: bool)
    requires sp.Valid() && sp.model.fw.Idle? && Oldest(Waiting(sp.disk), k)
    modifies sp, sp.forward, sp.forward.guard
    ensures sp.Valid() && progressed == (failed >= |fate.faults|)
    ensures sp.model.fw == if progressed then Idle else BackingOff
    ensures SceneOf(sp.model) ==
            TurnScene(sp.cfg, old(SceneOf(sp.model)), k, AttemptAt(sp.cfg.audit, fate, failed))
  {
    WaitingVisible(sp.model.files);
    AttemptVerdict(sp.cfg.audit, Skips(sp.cfg, sp.model, sp.model.files[k].data), fate, failed);
    var failing;
    ghost var head;
    ghost var queue := Waiting(sp.disk);
    progressed, failing, head := sp.ForwardOldest(AttemptAt(sp.cfg.audit, fate, failed));
    if head.Some? {
      OneOldest(queue, head.value, k);
    }
  }

  method Turn(sp: Spool, k: Key, fate: Fate, failed: nat) returns (progressed: bool)
    requires sp.Valid() && sp.model.fw.Idle? && Oldest(Waiting(sp.disk), k)
    modifies sp, sp.forward, sp.forward.guard
    ensures sp.Valid() && sp.model.fw.Idle?
    ensures progressed == (failed >= |fate.faults|)
    ensures SceneOf(sp.model) ==
            TurnScene(sp.cfg, old(SceneOf(sp.model)), k, AttemptAt(sp.cfg.audit, fate, failed))
  {
    progressed := Attempt(sp, k, fate, failed);
    if !progressed {
      var stop := sp.AwaitBackoff(false);
    }
  }

  ghost predicate Heads(sp: Spool, head: Option<Key>)
    reads sp, sp.forward, sp.forward.guard
  {
    && sp.Valid() && sp.model.fw.Idle?
    && if head.Some? then Oldest(Waiting(sp.disk), head.value) else Waiting(sp.disk) == {}
  }

  // What the environment goes by: the signal the next turn will be about.
  method NextHead(sp: Spool) returns (head: Option<Key>)
    requires sp.Valid() && sp.model.fw.Idle?
    ensures Heads(sp, head)
  {
    WaitingVisible(sp.model.files);
    var oldest;
    head, oldest := HeadOf(sp.disk, sp.model.files);
  }

  lemma TurnWaiting(cfg: Config, c: Scene, k: Key, fate: Fate, failed: nat)
    requires k in Waiting(c.disk)
    ensures Waiting(TurnScene(cfg, c, k, AttemptAt(cfg.audit, fate, failed)).disk) ==
            if failed < |fate.faults| then Waiting(c.disk) else Waiting(c.disk) - {k}
  {
    AttemptVerdict(cfg.audit, cfg.audit && c.guard == Some(cfg.hash(c.disk[k].data)), fate, failed);
  }

  // Between two turns: the history leads from the first scene to the present one,
  // and the backoff fits the failures of the head.
  ghost predicate Draining(cfg: Config, turns: Turns, plan: Key -> Fate, first: Scene, now: Scene, backoff: nat) {
    && Drains(cfg, turns, plan, first)
    && After(cfg, turns, plan, first) == now && Remaining(turns) == Waiting(now.disk)
    && backoff == BackoffAfter(Failures(turns))
  }

  function NextBackoff(backoff: nat, progressed: bool): nat {
    if progressed then 1 else Min(2 * backoff, MAX_BACKOFF)
  }

  lemma WaitedDrains(cfg: Config, turns: Turns, plan: Key -> Fate, first: Scene, k: Key)
    requires Drains(cfg, turns, plan, first) && Oldest(Remaining(turns), k) && Tries(turns, k)
    requires Failures(turns) < |plan(k).faults|
    ensures Drains(cfg, Waited(turns, k, BackoffAfter(Failures(turns))), plan, first)
  {
    BackoffClosed(Failures(turns));
  }

  lemma WaitedScene(cfg: Config, turns: Turns, plan: Key -> Fate, first: Scene, k: Key, w: nat)
    requires Failures(turns) < |plan(k).faults| && k in Waiting(After(cfg, turns, plan, first).disk)
    ensures var now := After(cfg, turns, plan, first);
            var now' := TurnScene(cfg, now, k, AttemptAt(cfg.audit, plan(k), Failures(turns)));
            After(cfg, Waited(turns, k, w), plan, first) == now' && Waiting(now'.disk) == Waiting(now.disk)
  {
    TurnWaiting(cfg, After(cfg, turns, plan, first), k, plan(k), Failures(turns));
  }

  lemma LeftKept(cfg: Config, turns: Turns, plan: Key -> Fate, first: Scene, now: Scene, backoff: nat, k: Key)
    requires Draining(cfg, turns, plan, first, now, backoff) && Oldest(Waiting(now.disk), k) && Tries(turns, k)
    requires Failures(turns) == |plan(k).faults|
    ensures var now' := TurnScene(cfg, now, k, AttemptAt(cfg.audit, plan(k), Failures(turns)));
            Draining(cfg, Left(turns, k), plan, first, now', 1) && Waiting(now'.disk) == Waiting(now.disk) - {k}
  {
    TurnWaiting(cfg, now, k, plan(k), Failures(turns));
  }

  lemma WaitedKept(cfg: Config, turns: Turns, plan: Key -> Fate, first: Scene, now: Scene, backoff: nat, k: Key)
    requires Draining(cfg, turns, plan, first, now, backoff) && Oldest(Waiting(now.disk), k) && Tries(turns, k)
    requires Failures(turns) < |plan(k).faults|
    ensures var now' := TurnScene(cfg, now, k, AttemptAt(cfg.audit, plan(k), Failures(turns)));
            && Draining(cfg, Waited(turns, k, backoff), plan, first, now', NextBackoff(backoff, false))
            && Waiting(now'.disk) == Waiting(now.disk)
  {
    WaitedScene(cfg, turns, plan, first, k, backoff);
    WaitedDrains(cfg, turns, plan, first, k);
    BackoffDoubles(Failures(turns));
  }

  lemma TurnKept(cfg: Config, turns: Turns, plan: Key -> Fate, first: Scene, now: Scene, backoff: nat,
                 k: Key, progressed: bool, now': Scene) returns (turns': Turns)
    requires Draining(cfg, turns, plan, first, now, backoff) && Oldest(Waiting(now.disk), k) && Tries(turns, k)
    requires Failures(turns) <= |plan(k).faults| && progressed == (Failures(turns) == |plan(k).faults|)
    requires now' == TurnScene(cfg, now, k, AttemptAt(cfg.audit, plan(k), Failures(turns)))
    ensures Draining(cfg, turns', plan, first, now', NextBackoff(backoff, progressed))
    ensures Failures(turns') == if progressed then 0 else Failures(turns) + 1
    ensures if progressed then !turns'.Waited? else Tries(turns', k)
    ensures Waiting(now'.disk) == if progressed then Waiting(now.disk) - {k} else Waiting(now.disk)
  {
    if progressed {
      turns' := Left(turns, k);
      LeftKept(cfg, turns, plan, first, now, backoff, k);
    } else {
      turns' := Waited(turns, k, backoff);
      WaitedKept(cfg, turns, plan, first, now, backoff, k);
    }
  }

  // What Run does with its backoff variable.
  method Adjust(progressed: bool, backoff: nat) returns (next: nat)
    ensures next == NextBackoff(backoff, progressed)
  {
    if progressed {
      return 1;
    }
    next := backoff * 2;
    if next > MAX_BACKOFF {
      next := MAX_BACKOFF;
    }
  }

  // The head has failed as often as it can be told.
  ghost predicate OnHead(turns: Turns, plan: Key -> Fate, head: Option<Key>, failed: nat) {
    && failed == Failures(turns)
    && if head.Some? then Tries(turns, head.value) && failed <= |plan(head.value).faults| else failed == 0
  }

  // One turn, with its bookkeeping: the loop's body.
  method Round(sp: Spool, ghost turns: Turns, plan: Key -> Fate, ghost first: Scene, k: Key, failed: nat, backoff: nat)
    returns (ghost turns': Turns, head: Option<Key>, failed': nat, backoff': nat)
    requires Heads(sp, Some(k)) && Draining(sp.cfg, turns, plan, first, SceneOf(sp.model), backoff)
    requires OnHead(turns, plan, Some(k), failed)
    modifies sp, sp.forward, sp.forward.guard
    ensures Heads(sp, head) && Draining(sp.cfg, turns', plan, first, SceneOf(sp.model), backoff')
    ensures OnHead(turns', plan, head, failed')
    ensures if failed' == 0 then |Waiting(sp.disk)| < |Waiting(old(sp.disk))|
            else Waiting(sp.disk) == Waiting(old(sp.disk)) && head == Some(k) && failed < failed'
  {
    ghost var now := SceneOf(sp.model);
    var progressed := Turn(sp, k, plan(k), failed);
    turns' := TurnKept(sp.cfg, turns, plan, first, now, backoff, k, progressed, SceneOf(sp.model));
    failed' := if progressed then 0 else failed + 1;
    backoff' := Adjust(progressed, backoff);
    head := NextHead(sp);
    if !progressed {
      OneOldest(Waiting(now.disk), head.value, k);
    }
  }

  // Run, until the queue is empty. `plan` says what each signal will meet.
  method Run(sp: Spool, plan: Key -> Fate) returns (ghost turns: Turns)
    requires sp.Valid() && sp.model.fw.Idle?
    modifies sp, sp.forward, sp.forward.guard
    ensures sp.Valid() && sp.model.fw.Parked? && Waiting(sp.disk) == {}
    // Every signal leaves, once and in the order of the names, after its own
    // failures, each followed by the backoff.
    ensures Remaining(turns) == {} && Drains(sp.cfg, turns, plan, old(SceneOf(sp.model)))
    // All the waits add up to the closed forms.
    ensures TotalWait(turns) == Planned(turns, plan)
    // Directory, guard and deliveries are what the turns make of them.
    ensures SceneOf(sp.model) == After(sp.cfg, turns, plan, old(SceneOf(sp.model)))
  {
    ghost var first := SceneOf(sp.model);
    turns := Begin(Waiting(sp.disk));
    var backoff: nat, failed: nat := 1, 0;
    var head := NextHead(sp);
    while head.Some?
      invariant Heads(sp, head) && Draining(sp.cfg, turns, plan, first, SceneOf(sp.model), backoff)
      invariant OnHead(turns, plan, head, failed)
      decreases |Waiting(sp.disk)|, if head.Some? then |plan(head.value).faults| - failed else 0
    {
      turns, head, failed, backoff := Round(sp, turns, plan, first, head.value, failed, backoff);
    }
    Park(sp);
    TotalWaitExact(turns, plan);
  }

  // The turn that finds nothing.
  method Park(sp: Spool)
    requires Heads(sp, None)
    modifies sp, sp.forward, sp.forward.guard
    ensures sp.Valid() && sp.model.fw.Parked? && SceneOf(sp.model) == old(SceneOf(sp.model))
  {
    var progressed, failed;
    ghost var head;
    progressed, failed, head := sp.ForwardOldest(ForwardIo(true, true, RetryLater, NoLine, true, true));
  }

  // Each signal of a drained queue has left it. It was delivered exactly once if
  // the destination accepted it, at any of its attempts, and not at all if its
  // audit record alone was owed from the start; none was delivered twice. It is in
  // dead/ if it was rejected or its file could not be read, but once delivered it
  // is never rejected; else it is gone.
  lemma EachOnce(cfg: Config, turns: Turns, plan: Key -> Fate, c: Scene, k: Key)
    requires Drains(cfg, turns, plan, c) && Remaining(turns) == {} && k in Waiting(c.disk)
    ensures var s := After(cfg, turns, plan, c);
            var fate, owed := plan(k), Owed(cfg, turns, c, k);
            var confirmed := cfg.audit && Confirmed(fate, |fate.faults|);
            && s.sent[k] == c.sent[k] + (if !owed && (fate.ending.Accepted? || confirmed) then 1 else 0)
            && (if fate.ending.Unreadable? || (fate.ending.Rejected? && !owed && !confirmed)
                then k in s.disk && s.disk[k] == Node(Dead, c.disk[k].data) else k !in s.disk)
  {
    Fated(cfg, turns, plan, c, k);
  }
}
