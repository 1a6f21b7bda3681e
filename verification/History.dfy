// What the outside world has seen of the gateway, in order: confirmed
// deliveries, audit lines, signals taken out of the queue, and process starts.
// The log outlives every crash; it is the reference against which the in-memory
// redelivery guard is judged.
module History {
  import opened Options
  import opened SpoolNames

  // Hex SHA-256 of a payload.
  type Digest = string

  datatype Event =
    | Delivered(key: Key, digest: Digest)  // the destination confirmed these bytes
    | AuditLine(digest: Digest)            // a line reached the audit file, synced or not
    | Audited(digest: Digest)              // Logger.Record returned nil
    | Removed(key: Key, digest: Digest)    // the spool file left the queue as delivered
    | DeadLettered(key: Key)               // the spool file moved to dead/
    | GuardCleared                         // the OnDead hook cleared the guard
    | Restarted                            // a new process, with an empty guard

  datatype Log = Start | Then(past: Log, last: Event)

  // --------------------------------------------- the guard, replayed from a log

  // The digest that was delivered but not yet audited.
  function Pending(log: Log): Option<Digest> {
    match log
    case Start => None
    case Then(past, Delivered(_, d)) => Some(d)
    case Then(past, Audited(_)) => None
    case Then(past, GuardCleared) => None
    case Then(past, Restarted) => None
    case Then(past, _) => Pending(past)
  }

  function Bag(d: Option<Digest>): multiset<Digest> {
    match d
    case None => multiset{}
    case Some(x) => multiset{x}
  }

  function Deliveries(log: Log): multiset<Digest> {
    match log
    case Start => multiset{}
    case Then(past, Delivered(_, d)) => Deliveries(past) + multiset{d}
    case Then(past, _) => Deliveries(past)
  }

  // The same, signal by signal.
  function Sent(log: Log): multiset<Key> {
    match log
    case Start => multiset{}
    case Then(past, Delivered(k, _)) => Sent(past) + multiset{k}
    case Then(past, _) => Sent(past)
  }

  function Audits(log: Log): multiset<Digest> {
    match log
    case Start => multiset{}
    case Then(past, Audited(d)) => Audits(past) + multiset{d}
    case Then(past, _) => Audits(past)
  }

  function Removals(log: Log): multiset<Digest> {
    match log
    case Start => multiset{}
    case Then(past, Removed(_, d)) => Removals(past) + multiset{d}
    case Then(past, _) => Removals(past)
  }

  // Confirmations forgotten before they were audited: overwritten by the next
  // delivery, cleared by a dead-letter event, or wiped by a restart.
  function Lost(log: Log): multiset<Digest> {
    match log
    case Start => multiset{}
    case Then(past, Delivered(_, _)) => Lost(past) + Bag(Pending(past))
    case Then(past, GuardCleared) => Lost(past) + Bag(Pending(past))
    case Then(past, Restarted) => Lost(past) + Bag(Pending(past))
    case Then(past, _) => Lost(past)
  }

  // Record is only ever called for the digest the guard holds.
  predicate AuditsPending(log: Log) {
    match log
    case Start => true
    case Then(past, Audited(d)) => Pending(past) == Some(d) && AuditsPending(past)
    case Then(past, _) => AuditsPending(past)
  }

  // Every confirmed delivery is audited exactly once, or lost, or still pending.
  lemma {:induction false} Conservation(log: Log)
    requires AuditsPending(log)
    ensures Deliveries(log) == Audits(log) + Lost(log) + Bag(Pending(log))
  {
    match log
    case Start =>
    case Then(past, e) => Conservation(past);
  }

  // ------------------------------------------------------- claims about a log

  // Each line of the audit file comes after a confirmed delivery with its digest.
  predicate LinesBacked(log: Log) {
    match log
    case Start => true
    case Then(past, AuditLine(d)) => d in Deliveries(past) && LinesBacked(past)
    case Then(past, _) => LinesBacked(past)
  }

  // Keys confirmed delivered since the last process start.
  function ThisLife(log: Log): set<Key> {
    match log
    case Start => {}
    case Then(past, Delivered(k, _)) => ThisLife(past) + {k}
    case Then(past, Restarted) => {}
    case Then(past, _) => ThisLife(past)
  }

  function RemovedKeys(log: Log): set<Key> {
    match log
    case Start => {}
    case Then(past, Removed(k, _)) => RemovedKeys(past) + {k}
    case Then(past, _) => RemovedKeys(past)
  }

  // No signal is delivered twice by one process.
  predicate OncePerLife(log: Log) {
    match log
    case Start => true
    case Then(past, Delivered(k, _)) => k !in ThisLife(past) && OncePerLife(past)
    case Then(past, _) => OncePerLife(past)
  }

  // No signal leaves the queue as delivered unless this process delivered it.
  predicate RemovedAfterOwnDelivery(log: Log) {
    match log
    case Start => true
    case Then(past, Removed(k, _)) => k in ThisLife(past) && RemovedAfterOwnDelivery(past)
    case Then(past, _) => RemovedAfterOwnDelivery(past)
  }

  // What licenses the removal of a file with this digest: that Record has just
  // returned nil for it or, without auditing, that it was just delivered.
  predicate Licence(audit: bool, log: Log, k: Key, d: Digest) {
    log.Then? && log.last == if audit then Audited(d) else Delivered(k, d)
  }

  // Every removal follows its licence at once.
  predicate RemovalsLicensed(audit: bool, log: Log) {
    match log
    case Start => true
    case Then(past, Removed(k, d)) => Licence(audit, past, k, d) && RemovalsLicensed(audit, past)
    case Then(past, _) => RemovalsLicensed(audit, past)
  }

  function Licences(audit: bool, log: Log): multiset<Digest> {
    if audit then Audits(log) else Deliveries(log)
  }

  // The licence the last event gave.
  function Unused(audit: bool, log: Log): multiset<Digest> {
    match log
    case Then(_, Audited(d)) => if audit then multiset{d} else multiset{}
    case Then(_, Delivered(_, d)) => if audit then multiset{} else multiset{d}
    case _ => multiset{}
  }

  // So no licence serves two removals.
  lemma {:induction false} RemovalsCovered(audit: bool, log: Log)
    requires RemovalsLicensed(audit, log)
    ensures Removals(log) + Unused(audit, log) <= Licences(audit, log)
  {
    match log
    case Start =>
    case Then(past, _) => RemovalsCovered(audit, past);
  }

  // ------------------------------------------------ the same claims, by position

  function Size(log: Log): nat {
    match log
    case Start => 0
    case Then(past, _) => Size(past) + 1
  }

  function At(log: Log, i: nat): Event
    requires i < Size(log)
  {
    if i == Size(log) - 1 then log.last else At(log.past, i)
  }

  lemma {:induction false} DeliveredAt(log: Log, d: Digest) returns (j: nat)
    requires d in Deliveries(log)
    ensures j < Size(log) && At(log, j).Delivered? && At(log, j).digest == d
  {
    if log.last.Delivered? && log.last.digest == d {
      j := Size(log) - 1;
    } else {
      j := DeliveredAt(log.past, d);
    }
  }

  lemma {:induction false} LineHasEarlierDelivery(log: Log, i: nat) returns (j: nat)
    requires LinesBacked(log) && i < Size(log) && At(log, i).AuditLine?
    ensures j < i && At(log, j).Delivered? && At(log, j).digest == At(log, i).digest
  {
    if i == Size(log) - 1 {
      j := DeliveredAt(log.past, log.last.digest);
    } else {
      j := LineHasEarlierDelivery(log.past, i);
    }
  }

  lemma {:induction false} LicenceBefore(audit: bool, log: Log, i: nat)
    requires RemovalsLicensed(audit, log) && i < Size(log) && At(log, i).Removed?
    ensures i > 0
    ensures var e := At(log, i);
            At(log, i - 1) == if audit then Audited(e.digest) else Delivered(e.key, e.digest)
  {
    if i < Size(log) - 1 {
      LicenceBefore(audit, log.past, i);
    }
  }

  lemma {:induction false} InThisLife(log: Log, i: nat)
    requires i < Size(log) && At(log, i).Delivered?
    requires forall m | i < m < Size(log) :: !At(log, m).Restarted?
    ensures At(log, i).key in ThisLife(log)
  {
    if i < Size(log) - 1 {
      assert At(log, Size(log) - 1) == log.last;
      forall m | i < m < Size(log.past) ensures !At(log.past, m).Restarted? {
        assert At(log, m) == At(log.past, m);
      }
      InThisLife(log.past, i);
    }
  }

  // Between two deliveries of one signal the process was restarted.
  lemma {:induction false} RestartBetween(log: Log, i: nat, j: nat) returns (m: nat)
    requires OncePerLife(log) && i < j < Size(log)
    requires At(log, i).Delivered? && At(log, j).Delivered? && At(log, i).key == At(log, j).key
    ensures i < m < j && At(log, m).Restarted?
  {
    if j < Size(log) - 1 {
      m := RestartBetween(log.past, i, j);
    } else if exists m' | i < m' < j :: At(log, m').Restarted? {
      m :| i < m < j && At(log, m).Restarted?;
    } else {
      forall m' | i < m' < Size(log.past) ensures !At(log.past, m').Restarted? {
        assert At(log, m') == At(log.past, m');
      }
      InThisLife(log.past, i);
      assert false;
    }
  }
}
