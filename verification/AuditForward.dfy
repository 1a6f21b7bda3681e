// auditingForward and auditingSyncForward: deliver, then write the audit record.
// The ghost log notes what the outside world saw; the class invariants say that
// the guard is exactly what a replay of that log gives, and that no line is
// written before its delivery was confirmed.
module AuditForward {
  import opened Options
  import opened SpoolNames
  import opened History
  import opened Protocol
  import Ledger

  // One delivery attempt, as the destination and the HTTP client report it.
  datatype Delivery = Confirms | RetryLater | Rejects

  // One call of Logger.Record.
  datatype Recording =
    | NoLine    // failed before the line was written
    | LineOnly  // the line was written, its fsync failed
    | Complete  // returned nil

  datatype Verdict = Success | Retryable | Permanent

  // ------------------------------------------------------------- redeliveryGuard

  class RedeliveryGuard {
    var digest: Digest  // "" is nothing pending

    constructor ()
      ensures digest == ""
    {
      digest := "";
    }

    predicate Matches(d: Digest)
      reads this
    {
      digest != "" && digest == d
    }

    method MarkDelivered(d: Digest)
      modifies this
      ensures digest == d
    {
      digest := d;
    }

    method Clear()
      modifies this
      ensures digest == ""
    {
      digest := "";
    }
  }

  // The guard as the protocol sees it.
  function Held(d: Digest): Option<Digest> {
    if d == "" then None else Some(d)
  }

  // ------------------------------------------------------------ events of one call

  function Confirming(log: Log, k: Key, d: Digest): Log {
    Then(log, Delivered(k, d))
  }

  function Recorded(log: Log, d: Digest, io: Recording): Log {
    match io
    case NoLine => log
    case LineOnly => Then(log, AuditLine(d))
    case Complete => Then(Then(log, AuditLine(d)), Audited(d))
  }

  lemma RecordedKeeps(log: Log, d: Digest, io: Recording)
    requires LinesBacked(log) && AuditsPending(log) && Pending(log) == Some(d)
    ensures var log' := Recorded(log, d, io);
            && LinesBacked(log') && AuditsPending(log')
            && Pending(log') == (if io.Complete? then None else Some(d))
            && Deliveries(log') == Deliveries(log) && Lost(log') == Lost(log)
            && Audits(log') == Audits(log) + if io.Complete? then multiset{d} else multiset{}
  {
    Ledger.PendingWasDelivered(log);
    var line := Then(log, AuditLine(d));
    assert Pending(line) == Pending(log) && AuditsPending(line) && LinesBacked(line);
    assert Deliveries(line) == Deliveries(log) && Lost(line) == Lost(log) && Audits(line) == Audits(log);
  }

  // -------------------------------------------------------------- the two wrappers

  class AuditingForward {
    const hash: Payload -> Digest
    const guard: RedeliveryGuard
    var failures: nat  // auditHealth
    ghost var log: Log

    ghost predicate Valid()
      reads this, guard
    {
      && (forall p :: hash(p) != "")
      && Held(guard.digest) == Pending(log)
      && AuditsPending(log)
      && LinesBacked(log)
    }

    // A new process, after the events of the ones before it.
    constructor (h: Payload -> Digest, ghost past: Log)
      requires forall p :: h(p) != ""
      requires AuditsPending(past) && LinesBacked(past)
      ensures Valid() && fresh(guard) && hash == h && failures == 0 && guard.digest == ""
      ensures log == Then(past, Restarted)
    {
      hash, failures := h, 0;
      guard := new RedeliveryGuard();
      log := Then(past, Restarted);
    }

    // The closure auditingForward returns.
    method Forward(payload: Payload, delivery: Delivery, recording: Recording, ghost k: Key) returns (r: Verdict)
      requires Valid()
      modifies this, guard
      ensures Valid()
      ensures var d := hash(payload);
              var skip := old(guard.digest) == d;
              var delivered := skip || delivery.Confirms?;
              var done := delivered && recording.Complete?;
              && (r.Success? <==> done)
              && (r.Permanent? <==> !delivered && delivery.Rejects?)
              && guard.digest == (if done then "" else if delivered then d else old(guard.digest))
              && failures == (if done then 0 else if delivered then old(failures) + 1 else old(failures))
              && Deliveries(log) == Deliveries(old(log)) + (if delivered && !skip then multiset{d} else multiset{})
              && Audits(log) == Audits(old(log)) + (if done then multiset{d} else multiset{})
              && log == (if !delivered then old(log)
                         else Recorded(if skip then old(log) else Confirming(old(log), k, d), d, recording))
    {
      var d := hash(payload);
      if !guard.Matches(d) {
        match delivery {
          case RetryLater => return Retryable;
          case Rejects => return Permanent;
          case Confirms =>
        }
        log := Confirming(log, k, d);
        guard.MarkDelivered(d);
      }
      RecordedKeeps(log, d, recording);
      log := Recorded(log, d, recording);
      if !recording.Complete? {
        failures := failures + 1;
        return Retryable;
      }
      guard.Clear();
      failures := 0;
      return Success;
    }

    // The spool's OnDead hook.
    method OnDead()
      requires Valid()
      modifies this`log, guard
      ensures Valid() && guard.digest == "" && log == Then(old(log), GuardCleared)
    {
      guard.Clear();
      log := Then(log, GuardCleared);
    }

    // A signal leaves the queue, seen by the spool only.
    ghost method NoteLeft(e: Event)
      requires Valid() && (e.Removed? || e.DeadLettered?)
      modifies this`log
      ensures Valid() && log == Then(old(log), e)
    {
      log := Then(log, e);
    }

    // Every confirmation is audited, lost, or held: the ledger at this moment.
    lemma Ledgered()
      requires Valid()
      ensures Deliveries(log) == Audits(log) + Lost(log) + Bag(Held(guard.digest))
    {
      Conservation(log);
    }
  }

  // Without a spool there is no guard: each call is a signal of its own.
  class AuditingSyncForward {
    const hash: Payload -> Digest
    var failures: nat
    ghost var log: Log

    ghost predicate Valid()
      reads this
    {
      LinesBacked(log) && AuditsPending(log)
    }

    constructor (h: Payload -> Digest)
      ensures Valid() && hash == h && failures == 0 && log == Start
    {
      hash, failures, log := h, 0, Start;
    }

    method Forward(payload: Payload, delivery: Delivery, recording: Recording, ghost k: Key) returns (r: Verdict)
      requires Valid()
      modifies this
      ensures Valid()
      ensures r.Success? <==> delivery.Confirms? && recording.Complete?
      ensures r.Permanent? <==> delivery.Rejects?
      ensures failures == if !delivery.Confirms? then old(failures)
              else if recording.Complete? then 0 else old(failures) + 1
      ensures var d := hash(payload);
              log == if delivery.Confirms? then Recorded(Confirming(old(log), k, d), d, recording) else old(log)
    {
      match delivery {
        case RetryLater => return Retryable;
        case Rejects => return Permanent;
        case Confirms =>
      }
      var d := hash(payload);
      log := Confirming(log, k, d);
      RecordedKeeps(log, d, recording);
      log := Recorded(log, d, recording);
      if !recording.Complete? {
        failures := failures + 1;
        return Retryable;
      }
      failures := 0;
      return Success;
    }
  }
}
