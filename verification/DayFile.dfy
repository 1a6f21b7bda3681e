// Per-UTC-day, newline-delimited files, fsynced on every append: the state machine
// shared by the egress audit log (Logger.Record) and the standalone destination
// (localSink.Forward). The two differ in the file name prefix, the bytes of a
// line and who supplies the time, none of which matters here.
module DayFile {
  import opened Options
  import opened SpoolNames

  // ---------------------------------------------------------------------- lines

  const NEWLINE: char := '\n'

  predicate OneLine(s: string) {
    NEWLINE !in s
  }

  function Render(lines: seq<string>): string {
    if lines == [] then "" else lines[0] + [NEWLINE] + Render(lines[1..])
  }

  // A reader of the file: the complete lines, in order.
  function Split(data: string): seq<string>
    decreases |data|
  {
    var i := IndexOf(data, NEWLINE);
    if i == -1 then [] else [data[..i]] + Split(data[i + 1..])
  }

  predicate AllLines(lines: seq<string>) {
    forall l | l in lines :: OneLine(l)
  }

  lemma SplitFirst(line: string, rest: string)
    requires OneLine(line)
    ensures Split(line + [NEWLINE] + rest) == [line] + Split(rest)
  {
    var data := line + [NEWLINE] + rest;
    assert data == line + ([NEWLINE] + rest);
    FirstIndex(line, [NEWLINE] + rest, NEWLINE);
    assert data[..|line|] == line && data[|line| + 1..] == rest;
  }

  // What was written is what a reader gets back.
  lemma {:induction false} SplitRender(lines: seq<string>)
    requires AllLines(lines)
    ensures Split(Render(lines)) == lines
  {
    if lines != [] {
      SplitRender(lines[1..]);
      SplitFirst(lines[0], Render(lines[1..]));
    }
  }

  lemma {:induction false} RenderAppend(lines: seq<string>, line: string)
    ensures Render(lines + [line]) == Render(lines) + line + [NEWLINE]
  {
    if lines == [] {
      assert [line][1..] == [];
      assert Render([line]) == line + [NEWLINE] + "";
    } else {
      var first := lines[0] + [NEWLINE];
      RenderAppend(lines[1..], line);
      assert (lines + [line])[1..] == lines[1..] + [line];
      assert first + (Render(lines[1..]) + line + [NEWLINE]) == (first + Render(lines[1..])) + line + [NEWLINE];
    }
  }

  lemma {:induction false} RenderGrows(lines: seq<string>, m: nat, n: nat)
    requires m < n <= |lines|
    ensures |Render(lines[..m])| < |Render(lines[..n])|
  {
    assert lines[..n] == lines[..n - 1] + [lines[n - 1]];
    RenderAppend(lines[..n - 1], lines[n - 1]);
    if m < n - 1 {
      RenderGrows(lines, m, n - 1);
    }
  }

  // ----------------------------------------------------------------- files on disk

  // One day's file. `data` is what a reader sees and its first `synced` bytes are
  // on stable storage; `linked` says whether the name is. `written` and `acked`
  // are the lines written and the indices of those whose append returned nil;
  // `born` numbers the creations in the directory.
  datatype File = File(data: string, synced: nat, linked: bool, written: seq<string>, acked: set<nat>, born: nat)

  // `day` and `f` are the writer's fields, f naming the file its handle is open
  // on. `created` counts creations, `swept` is its value at the last successful
  // directory fsync. `lost` holds acknowledged lines whose file has vanished.
  datatype State = State(disk: map<string, File>, day: string, f: Option<string>,
                         created: nat, swept: nat, lost: set<(string, string)>)

  const INIT := State(map[], "", None, 0, 0, {})

  // The results of the system calls of one append.
  datatype Io = Io(openOk: bool, dirSyncOk: bool, writeOk: bool, syncOk: bool)

  function Linked(disk: map<string, File>): map<string, File> {
    map d | d in disk :: disk[d].(linked := true)
  }

  // dirsync.OpenAppendFile: creates the file if, and only if, it does not exist.
  function Opened(s: State, today: string): State {
    if today in s.disk then s.(day := today, f := Some(today))
    else
      var blank := File("", 0, false, [], {}, s.created + 1);
      s.(disk := s.disk[today := blank], day := today, f := Some(today), created := s.created + 1)
  }

  function Swept(s: State): State {
    s.(disk := Linked(s.disk), swept := s.created)
  }

  // The part of an append before the write: the day's file is open, or not.
  function Prepared(s: State, today: string, io: Io): (State, bool) {
    if s.f.Some? && s.day == today then (s, true)
    else if !io.openOk then (s.(f := None), false)
    else if today in s.disk then (Opened(s, today), true)
    else if io.dirSyncOk then (Swept(Opened(s, today)), true)
    else (Opened(s, today), false)
  }

  // The write and the fsync of the data.
  function Written(s: State, line: string, io: Io): (State, bool)
    requires s.f.Some? && s.f.value in s.disk
  {
    if !io.writeOk then (s, false)
    else
      var g := s.disk[s.f.value];
      var data := g.data + line + [NEWLINE];
      var g' := g.(data := data, written := g.written + [line]);
      if !io.syncOk then (s.(disk := s.disk[s.f.value := g']), false)
      else (s.(disk := s.disk[s.f.value := g'.(synced := |data|, acked := g.acked + {|g.written|})]), true)
  }

  function Appended(s: State, today: string, line: string, io: Io): (State, bool)
    requires HandleFits(s)
  {
    var (s', ready) := Prepared(s, today, io);
    if ready then Written(s', line, io) else (s', false)
  }

  // An open handle always belongs to the recorded day.
  predicate HandleFits(s: State) {
    s.f.Some? ==> s.f.value == s.day && s.day in s.disk
  }

  predicate FileOk(g: File) {
    && AllLines(g.written) && g.data == Render(g.written)
    && g.synced <= |g.data|
    && forall i | i in g.acked :: i < |g.written| && |Render(g.written[..i + 1])| <= g.synced
  }

  ghost predicate Valid(s: State) {
    && HandleFits(s)
    && s.swept <= s.created
    && forall d | d in s.disk ::
         FileOk(s.disk[d]) && s.disk[d].born <= s.created && (s.disk[d].linked <==> s.disk[d].born <= s.swept)
  }

  // --------------------------------------------------------------------- one append

  lemma FileAppend(g: File, line: string)
    requires FileOk(g) && OneLine(line)
    ensures var data := g.data + line + [NEWLINE];
            && FileOk(g.(data := data, written := g.written + [line]))
            && FileOk(g.(data := data, written := g.written + [line],
                         synced := |data|, acked := g.acked + {|g.written|}))
  {
    var lines := g.written + [line];
    RenderAppend(g.written, line);
    assert lines[..|g.written|] == g.written;
    assert lines[..|g.written| + 1] == lines;
    forall i | i in g.acked ensures lines[..i + 1] == g.written[..i + 1] {
    }
  }

  lemma PreparedValid(s: State, today: string, io: Io)
    requires Valid(s)
    ensures Valid(Prepared(s, today, io).0)
    ensures Prepared(s, today, io).1 ==>
              Prepared(s, today, io).0.f == Some(today)
  {
    assert FileOk(File("", 0, false, [], {}, s.created + 1));
  }

  lemma AppendedValid(s: State, today: string, line: string, io: Io)
    requires Valid(s) && OneLine(line)
    ensures Valid(Appended(s, today, line, io).0)
  {
    var (s', ready) := Prepared(s, today, io);
    PreparedValid(s, today, io);
    if ready {
      FileAppend(s'.disk[today], line);
    }
  }

  // Contents only ever grow.
  ghost predicate Grows(s: State, s': State) {
    forall d | d in s.disk :: d in s'.disk && s.disk[d].data <= s'.disk[d].data
      && s.disk[d].written <= s'.disk[d].written && s.disk[d].acked <= s'.disk[d].acked
  }

  lemma PreparedGrows(s: State, today: string, io: Io)
    requires HandleFits(s)
    ensures Grows(s, Prepared(s, today, io).0) && Prepared(s, today, io).0.lost == s.lost
    ensures Prepared(s, today, io).1 ==> HandleFits(Prepared(s, today, io).0) && Prepared(s, today, io).0.f.Some?
  {
  }

  lemma WrittenGrows(s: State, line: string, io: Io)
    requires s.f.Some? && s.f.value in s.disk
    ensures Grows(s, Written(s, line, io).0) && Written(s, line, io).0.lost == s.lost
  {
  }

  lemma AppendedGrows(s: State, today: string, line: string, io: Io)
    requires HandleFits(s)
    ensures Grows(s, Appended(s, today, line, io).0) && Appended(s, today, line, io).0.lost == s.lost
  {
    PreparedGrows(s, today, io);
    if Prepared(s, today, io).1 {
      WrittenGrows(Prepared(s, today, io).0, line, io);
    }
  }

  // Record durability: when an append returns nil, its line is the last one of the
  // day's file and all of that file is on stable storage; the name is too exactly
  // when it already was or this very call created the file.
  lemma AppendDurable(s: State, today: string, line: string, io: Io)
    requires Valid(s) && OneLine(line) && Appended(s, today, line, io).1
    ensures var s' := Appended(s, today, line, io).0;
            && today in s'.disk && s'.f == Some(today)
            && var g := s'.disk[today];
               && g.synced == |g.data| && |g.written| > 0 && |g.written| - 1 in g.acked
               && Split(g.data) == g.written && g.written[|g.written| - 1] == line
               && (g.linked <==> today !in s.disk || s.disk[today].linked)
  {
    PreparedValid(s, today, io);
    AppendedValid(s, today, line, io);
    SplitRender(Appended(s, today, line, io).0.disk[today].written);
  }

  // The handle is on the day's file already.
  predicate Held(s: State, today: string) {
    s.f.Some? && s.day == today
  }

  // The call gets as far as its write: the handle was open on the day's file, or
  // the file could be opened and, if that created it, its name be made durable.
  predicate Reaches(s: State, today: string, io: Io) {
    (s.f.Some? && s.day == today) || (io.openOk && (today in s.disk || io.dirSyncOk))
  }

  // What an append does, in every case. A line is added exactly when the write is
  // reached and succeeds, and bytes become durable exactly when the call succeeds.
  predicate Outcome(s: State, s': State, today: string, line: string, io: Io, ok: bool) {
    var wrote := Reaches(s, today, io) && io.writeOk;
    var creates := !Held(s, today) && io.openOk && today !in s.disk;
    var before := if today in s.disk then s.disk[today] else File("", 0, false, [], {}, s.created + 1);
    && (ok <==> wrote && io.syncOk)
    && s'.disk.Keys == s.disk.Keys + (if creates then {today} else {})
    && (today in s'.disk ==>
          var g := s'.disk[today];
          && g.data == before.data + (if wrote then line + [NEWLINE] else "")
          && g.written == before.written + (if wrote then [line] else [])
          && g.synced == (if ok then |g.data| else before.synced)
          && g.acked == before.acked + if ok then {|before.written|} else {})
    && (forall d | d in s.disk && d != today ::
          && s'.disk[d].data == s.disk[d].data && s'.disk[d].written == s.disk[d].written
          && s'.disk[d].synced == s.disk[d].synced && s'.disk[d].acked == s.disk[d].acked)
    && (forall d | d in s'.disk ::
          s'.disk[d].linked <==> (creates && io.dirSyncOk) || (d in s.disk && s.disk[d].linked))
    && s'.f == (if Held(s, today) || io.openOk then Some(today) else None)
    && s'.day == (if io.openOk && !Held(s, today) then today else s.day)
  }

  lemma WrittenOutcome(s: State, line: string, io: Io)
    requires s.f.Some? && s.f.value in s.disk
    ensures var (s', ok) := Written(s, line, io);
            var g, g' := s.disk[s.f.value], s'.disk[s.f.value];
            && (ok <==> io.writeOk && io.syncOk)
            && s' == s.(disk := s.disk[s.f.value := g'])
            && g'.data == g.data + (if io.writeOk then line + [NEWLINE] else "")
            && g'.written == g.written + (if io.writeOk then [line] else [])
            && g'.synced == (if ok then |g'.data| else g.synced)
            && g'.acked == g.acked + (if ok then {|g.written|} else {})
            && g'.linked == g.linked
  {
    var g := s.disk[s.f.value];
    assert g.data + line + [NEWLINE] == g.data + (line + [NEWLINE]);
    assert !io.writeOk ==> s.disk == s.disk[s.f.value := g];
  }

  lemma AppendOutcome(s: State, today: string, line: string, io: Io)
    requires HandleFits(s)
    ensures Outcome(s, Appended(s, today, line, io).0, today, line, io, Appended(s, today, line, io).1)
  {
    var (p, ready) := Prepared(s, today, io);
    assert ready <==> Reaches(s, today, io);
    if ready {
      WrittenOutcome(p, line, io);
    }
  }

  // -------------------------------------------------------------------- whole runs

  datatype Action =
    | Append(today: string, line: string, io: Io)
    | Close
    | Crash
    | PowerLoss(kept: map<string, nat>)  // how many lines of each surviving file

  // Every durable name survives, every surviving file keeps its synced bytes, and
  // writes are all or nothing.
  predicate Survives(s: State, kept: map<string, nat>) {
    && kept.Keys <= s.disk.Keys
    && (forall d | d in s.disk && s.disk[d].linked :: d in kept)
    && forall d | d in kept ::
         kept[d] <= |s.disk[d].written| && s.disk[d].synced <= |Render(s.disk[d].written[..kept[d]])|
  }

  predicate Enabled(s: State, a: Action) {
    match a
    case Append(_, line, _) => OneLine(line) && HandleFits(s)
    case PowerLoss(kept) => Survives(s, kept)
    case _ => true
  }

  function AckedLines(disk: map<string, File>, days: set<string>): set<(string, string)> {
    set d, i | d in days && d in disk && i in disk[d].acked && i < |disk[d].written| :: (d, disk[d].written[i])
  }

  function AfterPowerLoss(g: File, n: nat): File
    requires n <= |g.written|
  {
    var data := Render(g.written[..n]);
    g.(data := data, synced := |data|, linked := true, written := g.written[..n])
  }

  function Step(s: State, a: Action): State
    requires Enabled(s, a)
  {
    match a
    case Append(today, line, io) => Appended(s, today, line, io).0
    case Close => s.(f := None)
    case Crash => s.(f := None, day := "")
    case PowerLoss(kept) =>
      s.(disk := map d | d in kept :: AfterPowerLoss(s.disk[d], kept[d]),
      f := None, day := "", swept := s.created,
      lost := s.lost + AckedLines(s.disk, s.disk.Keys - kept.Keys))
  }

  ghost predicate CanRun(s: State, acts: seq<Action>)
    decreases |acts|
  {
    acts == [] || (Enabled(s, acts[0]) && CanRun(Step(s, acts[0]), acts[1..]))
  }

  ghost function Run(s: State, acts: seq<Action>): State
    requires CanRun(s, acts)
    decreases |acts|
  {
    if acts == [] then s else Run(Step(s, acts[0]), acts[1..])
  }

  lemma PowerLossFile(g: File, n: nat)
    requires FileOk(g) && n <= |g.written| && g.synced <= |Render(g.written[..n])|
    ensures FileOk(AfterPowerLoss(g, n))
    ensures forall i | i in g.acked :: i < n
  {
    forall i | i in g.acked ensures i < n && g.written[..n][..i + 1] == g.written[..i + 1] {
      if n <= i {
        RenderGrows(g.written, n, i + 1);
      }
    }
    forall i | i in g.acked ensures |Render(g.written[..i + 1])| <= |Render(g.written[..n])| {
      if i + 1 < n {
        RenderGrows(g.written, i + 1, n);
      }
    }
  }

  lemma StepValid(s: State, a: Action)
    requires Valid(s) && Enabled(s, a)
    ensures Valid(Step(s, a))
  {
    match a
    case Append(today, line, io) => AppendedValid(s, today, line, io);
    case PowerLoss(kept) =>
      forall d | d in kept ensures FileOk(AfterPowerLoss(s.disk[d], kept[d])) {
        PowerLossFile(s.disk[d], kept[d]);
      }
    case _ =>
  }

  lemma {:induction false} RunValid(s: State, acts: seq<Action>)
    requires Valid(s) && CanRun(s, acts)
    ensures Valid(Run(s, acts))
    decreases |acts|
  {
    if acts != [] {
      StepValid(s, acts[0]);
      RunValid(Step(s, acts[0]), acts[1..]);
    }
  }

  // Over any run: an open handle is on the recorded day's file; a reader of any
  // file gets back exactly the lines written to it, in order, every acknowledged
  // one among them and inside the durable bytes; and a name is durable exactly
  // when a directory fsync has succeeded since the file was created.
  lemma DayFilesReadable(acts: seq<Action>, d: string)
    requires CanRun(INIT, acts) && d in Run(INIT, acts).disk
    ensures var s := Run(INIT, acts);
            var g := s.disk[d];
            && HandleFits(s)
            && Split(g.data) == g.written
            && (forall i | i in g.acked :: i < |Split(g.data)| && |Render(g.written[..i + 1])| <= g.synced <= |g.data|)
            && (g.linked <==> g.born <= s.swept)
  {
    RunValid(INIT, acts);
    SplitRender(Run(INIT, acts).disk[d].written);
  }

  ghost predicate NoPowerLoss(acts: seq<Action>) {
    forall a | a in acts :: !a.PowerLoss?
  }

  // Append-only: without a power loss every file of the start is still there and
  // begins with what it held.
  lemma {:induction false} RunGrows(s: State, acts: seq<Action>)
    requires CanRun(s, acts) && NoPowerLoss(acts)
    ensures Grows(s, Run(s, acts)) && Run(s, acts).lost == s.lost
    decreases |acts|
  {
    if acts != [] {
      assert acts[0] in acts;
      if acts[0].Append? {
        AppendedGrows(s, acts[0].today, acts[0].line, acts[0].io);
      }
      RunGrows(Step(s, acts[0]), acts[1..]);
    }
  }

  // A power loss loses acknowledged lines only of files whose name was not yet
  // durable; in every other file each acknowledged line stays where it was.
  lemma PowerLossKeeps(s: State, kept: map<string, nat>, d: string, i: nat)
    requires Valid(s) && Survives(s, kept) && d in s.disk && i in s.disk[d].acked && s.disk[d].linked
    ensures var s' := Step(s, PowerLoss(kept));
            && d in s'.disk && i in s'.disk[d].acked
            && i < |s'.disk[d].written| && s'.disk[d].written[i] == s.disk[d].written[i]
  {
    PowerLossFile(s.disk[d], kept[d]);
  }

  // ------------------------------------------------------------- the missing fsync

  const ALL_OK := Io(true, true, true, true)

  // A failed directory fsync leaves the handle installed, so the retry skips it:
  // the retry is acknowledged, and a power loss takes the whole file with it.
  lemma FailedDirSyncIsNeverRepeated(today: string, line: string) returns (acts: seq<Action>)
    requires OneLine(line)
    ensures |acts| == 3 && acts[0] == Append(today, line, ALL_OK.(dirSyncOk := false))
    ensures acts[1] == Append(today, line, ALL_OK) && acts[2] == PowerLoss(map[])
    ensures CanRun(INIT, acts)
    ensures !Appended(INIT, today, line, acts[0].io).1
    ensures var s1 := Appended(INIT, today, line, acts[0].io).0;
            Appended(s1, today, line, ALL_OK).1
    ensures (today, line) in Run(INIT, acts).lost
  {
    acts := [Append(today, line, ALL_OK.(dirSyncOk := false)), Append(today, line, ALL_OK), PowerLoss(map[])];
    var s1 := Step(INIT, acts[0]);
    var s2 := Step(s1, acts[1]);
    assert !s2.disk[today].linked && s2.disk.Keys == {today};
    assert s2.disk[today].written == [line] && s2.disk[today].acked == {0};
    assert (today, s2.disk[today].written[0]) in AckedLines(s2.disk, {today});
    var s3 := Step(s2, acts[2]);
    assert s2.disk.Keys - acts[2].kept.Keys == {today};
    assert (today, line) in s3.lost;
    assert CanRun(s3, []) && Run(s3, []) == s3;
    assert acts[2..][1..] == [] && CanRun(s2, acts[2..]) && Run(s2, acts[2..]) == s3;
    assert acts[1..][1..] == acts[2..] && CanRun(s1, acts[1..]) && Run(s1, acts[1..]) == s3;
  }

  // ---------------------------------------------------------------------- the code

  // Logger and localSink, with the directory they write in.
  class Writer {
    var disk: map<string, File>
    var day: string
    var f: Option<string>
    var created: nat
    var swept: nat
    ghost var lost: set<(string, string)>

    ghost function Abs(): State
      reads this
    {
      State(disk, day, f, created, swept, lost)
    }

    constructor ()
      ensures Abs() == INIT
    {
      disk, day, f := map[], "", None;
      created, swept, lost := 0, 0, {};
    }

    // dirsync.OpenAppendFile: an exclusive create first, and a plain open for
    // appending only when the file already exists.
    method OpenAppendFile(path: string, ok: bool) returns (usable: bool, creating: bool)
      modifies this`disk, this`created
      ensures usable == ok && (creating <==> ok && path !in old(disk))
      ensures disk == if creating then old(disk)[path := File("", 0, false, [], {}, old(created) + 1)] else old(disk)
      ensures created == old(created) + if creating then 1 else 0
    {
      if !ok {
        return false, false;
      }
      if path !in disk {
        disk, created := disk[path := File("", 0, false, [], {}, created + 1)], created + 1;
        return true, true;
      }
      return true, false;
    }

    // dirsync.Sync on the directory.
    method SyncDir(ok: bool) returns (synced: bool)
      modifies this`disk, this`swept
      ensures synced == ok
      ensures disk == (if ok then Linked(old(disk)) else old(disk)) && swept == if ok then created else old(swept)
    {
      if ok {
        disk, swept := map d | d in disk :: disk[d].(linked := true), created;
      }
      return ok;
    }

    // The first half of Record / Forward: the day's file is open, or not.
    method Prepare(today: string, io: Io) returns (ready: bool)
      modifies this
      ensures (Abs(), ready) == Prepared(old(Abs()), today, io)
    {
      if f.None? || day != today {
        var usable, creating := OpenAppendFile(today, io.openOk);
        if !usable {
          f := None;
          return false;
        }
        f, day := Some(today), today;
        if creating {
          var synced := SyncDir(io.dirSyncOk);
          if !synced {
            return false;
          }
        }
      }
      return true;
    }

    // The second half: the write and the fsync of the data.
    method WriteLine(line: string, io: Io) returns (ok: bool)
      requires f.Some? && f.value in disk
      modifies this`disk
      ensures (Abs(), ok) == Written(old(Abs()), line, io)
    {
      if !io.writeOk {
        return false;
      }
      var g := disk[f.value];
      ghost var before := disk;
      g := File(g.data + line + [NEWLINE], g.synced, g.linked, g.written + [line], g.acked, g.born);
      disk := disk[f.value := g];
      if !io.syncOk {
        return false;
      }
      g := g.(synced := |g.data|, acked := g.acked + {|g.written| - 1});
      disk := disk[f.value := g];
      assert disk == before[f.value := g];
      return true;
    }

    // Record / Forward.
    method Append(today: string, line: string, io: Io) returns (ok: bool)
      requires HandleFits(Abs())
      modifies this
      ensures HandleFits(Abs())
      ensures ok <==> ((old(f).Some? && old(day) == today) || (io.openOk && (today in old(disk) || io.dirSyncOk)))
                      && io.writeOk && io.syncOk
      ensures Outcome(old(Abs()), Abs(), today, line, io, ok)
      ensures (Abs(), ok) == Appended(old(Abs()), today, line, io)
    {
      ghost var s := Abs();
      AppendOutcome(s, today, line, io);
      PreparedGrows(s, today, io);
      ok := Prepare(today, io);
      if ok {
        ok := WriteLine(line, io);
      }
    }

    method Close()
      modifies this`f
      ensures f == None
      ensures Abs() == Step(old(Abs()), Action.Close)
    {
      if f.Some? {
        f := None;
      }
    }
  }
}
