// auditingSyncForward, called by any number of request handlers at once: each
// call delivers, then writes its audit record, and their steps interleave freely.
// All they share is the audit file and the failure count.
module SyncCalls {
  import opened SpoolNames
  import opened History
  import opened AuditForward

  type Call = nat

  datatype Pc =
    | Sending(digest: Digest)
    | Owing(digest: Digest)               // delivered, record due
    | Returned(digest: Digest, ok: bool)

  datatype State = State(calls: map<Call, Pc>, failures: nat, log: Log)

  datatype Action =
    | Begin(id: Call, digest: Digest)
    | Deliver(id: Call, delivery: Delivery)
    | Record(id: Call, recording: Recording)

  const INIT := State(map[], 0, Start)

  predicate Enabled(s: State, a: Action) {
    match a
    case Begin(id, _) => id !in s.calls
    case Deliver(id, _) => id in s.calls && s.calls[id].Sending?
    case Record(id, _) => id in s.calls && s.calls[id].Owing?
  }

  // The key of a delivery is the number of its call.
  function Step(s: State, a: Action): State
    requires Enabled(s, a)
  {
    match a
    case Begin(id, d) => s.(calls := s.calls[id := Sending(d)])
    case Deliver(id, delivery) =>
      var d := s.calls[id].digest;
      if delivery.Confirms? then s.(calls := s.calls[id := Owing(d)], log := Confirming(s.log, Key(0, id), d))
      else s.(calls := s.calls[id := Returned(d, false)])
    case Record(id, recording) =>
      var d := s.calls[id].digest;
      s.(calls := s.calls[id := Returned(d, recording.Complete?)],
      failures := if recording.Complete? then 0 else s.failures + 1,
      log := Recorded(s.log, d, recording))
  }

  ghost predicate CanRun(s: State, acts: seq<Action>)
    decreases |acts|
  {
    acts == [] || (Enabled(s, acts[0]) && CanRun(Step(s, acts[0]), acts[1..]))
  }

  ghost function Run(s: State, acts: seq<Action>): State
    requires CanRun(s, acts)
    decreases |acts|
  {
    if acts == [] then s else Run(Step(s, acts[0]), acts[1..])
  }

  // A call that owes a record was delivered, only one that was both delivered and
  // audited has returned nil, and none is delivered twice.
  predicate CallOk(calls: map<Call, Pc>, log: Log, id: Call) {
    && Sent(log)[Key(0, id)] <= (if id in calls && !calls[id].Sending? then 1 else 0)
    && (id in calls && calls[id].Owing? ==> calls[id].digest in Deliveries(log))
    && (id in calls && calls[id].Returned? && calls[id].ok ==>
          calls[id].digest in Deliveries(log) && calls[id].digest in Audits(log))
  }

  ghost predicate Sound(s: State) {
    LinesBacked(s.log) && forall id: Call :: CallOk(s.calls, s.log, id)
  }

  lemma RecordedAdds(log: Log, d: Digest, recording: Recording)
    requires LinesBacked(log) && d in Deliveries(log)
    ensures var log' := Recorded(log, d, recording);
            && LinesBacked(log') && Deliveries(log') == Deliveries(log) && Sent(log') == Sent(log)
            && Audits(log') == Audits(log) + if recording.Complete? then multiset{d} else multiset{}
  {
    var line := Then(log, AuditLine(d));
    assert LinesBacked(line) && Deliveries(line) == Deliveries(log) && Audits(line) == Audits(log);
    assert Sent(line) == Sent(log);
  }

  lemma StepSound(s: State, a: Action)
    requires Sound(s) && Enabled(s, a)
    ensures Sound(Step(s, a))
  {
    var s' := Step(s, a);
    assert CallOk(s.calls, s.log, a.id);
    if a.Record? {
      RecordedAdds(s.log, s.calls[a.id].digest, a.recording);
    }
    forall id: Call ensures CallOk(s'.calls, s'.log, id) {
      assert CallOk(s.calls, s.log, id);
      if id == a.id {
        OwnOk(s, a);
      } else {
        OtherOk(s, a, id);
      }
    }
  }

  lemma OwnOk(s: State, a: Action)
    requires Enabled(s, a) && LinesBacked(s.log) && CallOk(s.calls, s.log, a.id)
    ensures CallOk(Step(s, a).calls, Step(s, a).log, a.id)
  {
    if a.Record? {
      RecordedAdds(s.log, s.calls[a.id].digest, a.recording);
    }
  }

  lemma OtherOk(s: State, a: Action, id: Call)
    requires Enabled(s, a) && LinesBacked(s.log) && CallOk(s.calls, s.log, a.id) && CallOk(s.calls, s.log, id)
    requires id != a.id
    ensures CallOk(Step(s, a).calls, Step(s, a).log, id)
  {
    if a.Record? {
      RecordedAdds(s.log, s.calls[a.id].digest, a.recording);
    }
    assert Key(0, id) != Key(0, a.id);
  }

  lemma {:induction false} RunSound(s: State, acts: seq<Action>)
    requires Sound(s) && CanRun(s, acts)
    ensures Sound(Run(s, acts))
    decreases |acts|
  {
    if acts != [] {
      StepSound(s, acts[0]);
      RunSound(Step(s, acts[0]), acts[1..]);
    }
  }

  // However the calls interleave, each line of the audit file comes after a
  // confirmed delivery of bytes with its digest, ...
  lemma ConcurrentAuditSoundness(acts: seq<Action>, i: nat) returns (j: nat)
    requires CanRun(INIT, acts)
    requires i < Size(Run(INIT, acts).log) && At(Run(INIT, acts).log, i).AuditLine?
    ensures var log := Run(INIT, acts).log;
            j < i && At(log, j).Delivered? && At(log, j).digest == At(log, i).digest
  {
    RunSound(INIT, acts);
    j := LineHasEarlierDelivery(Run(INIT, acts).log, i);
  }

  // A call returns nil exactly when its record has completed.
  lemma {:induction false} ReturnsNil(s: State, acts: seq<Action>, id: Call)
    requires CanRun(s, acts)
    ensures var s' := Run(s, acts);
            (id in s'.calls && s'.calls[id].Returned? && s'.calls[id].ok) <==>
            (id in s.calls && s.calls[id].Returned? && s.calls[id].ok) || Record(id, Complete) in acts
    decreases |acts|
  {
    if acts != [] {
      assert acts == [acts[0]] + acts[1..];
      ReturnsNil(Step(s, acts[0]), acts[1..], id);
    }
  }

  // ... and one that returned nil was delivered, once, and audited.
  lemma ReturnedNil(acts: seq<Action>, id: Call)
    requires CanRun(INIT, acts)
    ensures var s := Run(INIT, acts);
            var nil := id in s.calls && s.calls[id].Returned? && s.calls[id].ok;
            && (nil <==> Record(id, Complete) in acts)
            && (nil ==> s.calls[id].digest in Deliveries(s.log) && s.calls[id].digest in Audits(s.log))
            && Sent(s.log)[Key(0, id)] <= 1
  {
    RunSound(INIT, acts);
    ReturnsNil(INIT, acts, id);
    assert CallOk(Run(INIT, acts).calls, Run(INIT, acts).log, id);
  }
}
