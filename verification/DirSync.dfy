// OpenAppendFile under any interleaving of writers that share a directory: who
// is told to have created the file, and whose directory fsync makes its name
// durable. The comparison is with the stat-then-open sequence it replaced.
module DirSync {

  type Writer = nat

  datatype Pc =
    | Start
    | Raced                    // the exclusive create met an existing file
    | Statted(absent: bool)    // stat-then-open only: what the stat said
    | Open(created: bool)      // open for appending, told whether it created the file
    | Settled(created: bool)   // past its directory fsync, if it owed one
    | Gone(created: bool)      // crashed, or its directory fsync failed

  // One file: whether its name exists, whether that name is durable, what has been
  // appended, and every writer.
  datatype State = State(exists_: bool, durable: bool, data: seq<nat>, writers: map<Writer, Pc>)

  datatype Action =
    | CreateExclusive(w: Writer)   // O_CREATE|O_EXCL|O_APPEND
    | OpenExisting(w: Writer)      // O_APPEND, after EEXIST
    | Stat(w: Writer)
    | OpenOrCreate(w: Writer)      // O_CREATE|O_APPEND, after a stat
    | OpenTruncating(w: Writer)    // O_CREATE|O_TRUNC: what the code does not do
    | Append(w: Writer, x: nat)
    | Fsync(w: Writer)             // the creator's directory fsync succeeds
    | Lost(w: Writer)              // a crash, or a directory fsync that fails

  // The protocols differ in how a file is opened.
  datatype Protocol = Exclusive | StatThenOpen | Truncating

  predicate At(s: State, w: Writer, pc: Pc) {
    w in s.writers && s.writers[w] == pc
  }

  predicate Enabled(p: Protocol, s: State, a: Action) {
    match a
    case CreateExclusive(w) => p.Exclusive? && At(s, w, Start)
    case OpenExisting(w) => p.Exclusive? && At(s, w, Raced) && s.exists_
    case Stat(w) => p.StatThenOpen? && At(s, w, Start)
    case OpenOrCreate(w) => p.StatThenOpen? && w in s.writers && s.writers[w].Statted?
    case OpenTruncating(w) => p.Truncating? && At(s, w, Start)
    case Append(w, _) => w in s.writers && (s.writers[w].Open? || s.writers[w].Settled?)
    case Fsync(w) => w in s.writers && s.writers[w].Open?
    case Lost(w) => w in s.writers && s.writers[w].Open?
  }

  function Goto(s: State, w: Writer, pc: Pc): State {
    s.(writers := s.writers[w := pc])
  }

  function Step(s: State, a: Action): State {
    match a
    case CreateExclusive(w) =>
      if s.exists_ then Goto(s, w, Raced) else Goto(s, w, Open(true)).(exists_ := true)
    case OpenExisting(w) => Goto(s, w, Open(false))
    case Stat(w) => Goto(s, w, Statted(!s.exists_))
    case OpenOrCreate(w) =>
      if w in s.writers && s.writers[w].Statted?
      then Goto(s, w, Open(s.writers[w].absent)).(exists_ := true)
      else s
    case OpenTruncating(w) => Goto(s, w, Open(!s.exists_)).(exists_ := true, data := [])
    case Append(w, x) => s.(data := s.data + [x])
    case Fsync(w) =>
      if w in s.writers && s.writers[w].Open?
      then Goto(s, w, Settled(s.writers[w].created)).(durable := s.durable || s.writers[w].created)
      else s
    case Lost(w) =>
      if w in s.writers && s.writers[w].Open? then Goto(s, w, Gone(s.writers[w].created)) else s
  }

  ghost predicate CanRun(p: Protocol, s: State, acts: seq<Action>)
    decreases |acts|
  {
    acts == [] || (Enabled(p, s, acts[0]) && CanRun(p, Step(s, acts[0]), acts[1..]))
  }

  function Run(s: State, acts: seq<Action>): State
    decreases |acts|
  {
    if acts == [] then s else Run(Step(s, acts[0]), acts[1..])
  }

  // Any writers, none of which has done anything yet.
  ghost predicate Fresh(s: State) {
    s.durable == s.exists_ && forall w | w in s.writers :: s.writers[w].Start?
  }

  // The writer was told that it created the file.
  predicate Told(pc: Pc) {
    (pc.Open? || pc.Settled? || pc.Gone?) && pc.created
  }

  function Creators(s: State): set<Writer> {
    set w | w in s.writers && Told(s.writers[w])
  }

  // Somebody still owes, and will perform, the directory fsync.
  ghost predicate Owed(s: State) {
    exists w :: At(s, w, Open(true))
  }

  // -------------------------------------------------------- exclusive creation

  // The one creator, once there is one, and what has become of its fsync.
  ghost predicate OneCreator(s0: State, s: State, c: Writer) {
    && !s0.exists_ && s.exists_
    && c in s.writers && Told(s.writers[c])
    && (forall w | w in s.writers && Told(s.writers[w]) :: w == c)
    && (s.durable <==> s.writers[c].Settled?)
  }

  ghost predicate Invariant(s0: State, s: State) {
    && s0.data <= s.data
    && if s.exists_ == s0.exists_ then Creators(s) == {} && s.durable == s0.durable
       else exists c :: OneCreator(s0, s, c)
  }

  lemma StepInvariant(s0: State, s: State, a: Action)
    requires Invariant(s0, s) && Enabled(Exclusive, s, a) && s0.durable == s0.exists_
    requires forall w | w in s.writers :: !s.writers[w].Statted?
    ensures Invariant(s0, Step(s, a))
    ensures forall w | w in Step(s, a).writers :: !Step(s, a).writers[w].Statted?
  {
    var s' := Step(s, a);
    if s.exists_ != s0.exists_ {
      var c :| OneCreator(s0, s, c);
      assert OneCreator(s0, s', c);
    } else if a.CreateExclusive? && !s.exists_ {
      assert forall w | w in s.writers && Told(s.writers[w]) :: w in Creators(s);
      assert OneCreator(s0, s', a.w);
    } else {
      assert forall w | w in s.writers && Told(s.writers[w]) :: w in Creators(s);
    }
  }

  lemma {:induction false} RunInvariant(s0: State, s: State, acts: seq<Action>)
    requires Invariant(s0, s) && CanRun(Exclusive, s, acts) && s0.durable == s0.exists_
    requires forall w | w in s.writers :: !s.writers[w].Statted?
    ensures Invariant(s0, Run(s, acts))
    decreases |acts|
  {
    if acts != [] {
      StepInvariant(s0, s, acts[0]);
      RunInvariant(s0, Step(s, acts[0]), acts[1..]);
    }
  }

  lemma Singleton<T>(xs: set<T>, x: T)
    requires x in xs && forall y | y in xs :: y == x
    ensures |xs| == 1
  {
    assert xs == {x};
  }

  // However the writers interleave, exactly one of them is told that it created
  // the file if it comes to exist, none if it was there before; no open loses
  // data; and the name stays undurable with nobody left to fsync it exactly when
  // that one creator crashed or failed before its directory fsync.
  lemma UniqueCreator(s0: State, acts: seq<Action>)
    requires Fresh(s0) && CanRun(Exclusive, s0, acts)
    ensures var s := Run(s0, acts);
            && s0.data <= s.data
            && |Creators(s)| == (if s.exists_ && !s0.exists_ then 1 else 0)
            && (s.exists_ && !s.durable && !Owed(s) <==> exists c :: At(s, c, Gone(true)))
  {
    var s := Run(s0, acts);
    assert forall w | w in Creators(s0) :: s0.writers[w].Start? && Told(s0.writers[w]);
    RunInvariant(s0, s0, acts);
    if s.exists_ == s0.exists_ {
      assert forall w | w in s.writers && Told(s.writers[w]) :: w in Creators(s);
    } else {
      var c :| OneCreator(s0, s, c);
      forall w | w in Creators(s) ensures w == c {
        assert Told(s.writers[w]);
      }
      Singleton(Creators(s), c);
      assert At(s, c, s.writers[c]);
    }
  }

  // ------------------------------------------- both protocols, creator crashing

  const TWO_WRITERS := State(false, false, [], map[0 := Start, 1 := Start])

  // The schedule the exclusive create is documented to rule out happens with it
  // as well: the creator dies before its fsync, and the other writer, told that
  // it did not create the file, never fsyncs the directory.
  lemma ExclusiveOrphan() returns (acts: seq<Action>)
    ensures CanRun(Exclusive, TWO_WRITERS, acts)
    ensures var s := Run(TWO_WRITERS, acts);
            s.exists_ && !s.durable && !Owed(s) && At(s, 1, Open(false))
  {
    acts := [CreateExclusive(0), CreateExclusive(1), OpenExisting(1), Lost(0)];
    Unfold4(Exclusive, TWO_WRITERS, acts);
  }

  lemma StatThenOpenOrphan() returns (acts: seq<Action>)
    ensures CanRun(StatThenOpen, TWO_WRITERS, acts)
    ensures var s := Run(TWO_WRITERS, acts);
            s.exists_ && !s.durable && !Owed(s) && At(s, 1, Open(false))
  {
    acts := [Stat(0), OpenOrCreate(0), Stat(1), OpenOrCreate(1), Lost(0)];
    var s1 := Step(TWO_WRITERS, acts[0]);
    Unfold4(StatThenOpen, s1, acts[1..]);
  }

  // What exclusive creation does rule out: two writers that both believe they
  // created the file.
  lemma StatThenOpenTwoCreators() returns (acts: seq<Action>)
    ensures CanRun(StatThenOpen, TWO_WRITERS, acts)
    ensures Creators(Run(TWO_WRITERS, acts)) == {0, 1}
  {
    acts := [Stat(0), Stat(1), OpenOrCreate(0), OpenOrCreate(1)];
    Unfold4(StatThenOpen, TWO_WRITERS, acts);
  }

  // And what opening for appending does: a truncating open has as many creators,
  // and loses data.
  lemma TruncatingOpenLosesData(x: nat) returns (acts: seq<Action>)
    ensures CanRun(Truncating, TWO_WRITERS, acts) && Append(0, x) in acts
    ensures Creators(Run(TWO_WRITERS, acts)) == {0} && Run(TWO_WRITERS, acts).data == []
  {
    acts := [OpenTruncating(0), Append(0, x), Fsync(0), OpenTruncating(1)];
    Unfold4(Truncating, TWO_WRITERS, acts);
  }

  lemma Unfold4(p: Protocol, s: State, acts: seq<Action>)
    requires |acts| == 4
    requires Enabled(p, s, acts[0])
    requires var s1 := Step(s, acts[0]); Enabled(p, s1, acts[1])
    requires var s2 := Step(Step(s, acts[0]), acts[1]); Enabled(p, s2, acts[2])
    requires var s3 := Step(Step(Step(s, acts[0]), acts[1]), acts[2]); Enabled(p, s3, acts[3])
    ensures CanRun(p, s, acts)
    ensures Run(s, acts) == Step(Step(Step(Step(s, acts[0]), acts[1]), acts[2]), acts[3])
  {
    var s1 := Step(s, acts[0]);
    var s2 := Step(s1, acts[1]);
    var s3 := Step(s2, acts[2]);
    var s4 := Step(s3, acts[3]);
    assert CanRun(p, s4, []) && Run(s4, []) == s4;
    assert acts[3..][1..] == [] && CanRun(p, s3, acts[3..]) && Run(s3, acts[3..]) == s4;
    assert acts[2..][1..] == acts[3..] && CanRun(p, s2, acts[2..]) && Run(s2, acts[2..]) == s4;
    assert acts[1..][1..] == acts[2..] && CanRun(p, s1, acts[1..]) && Run(s1, acts[1..]) == s4;
  }
}
