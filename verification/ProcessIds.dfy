/** The temporary ids of the `p` command: their parsers, the listing that shows them and the
    command that uses them. */
module ProcessIds {
  import opened Text
  import opened Sorting
  import opened ProcessManager

  /** `Threw` is the uncaught `std::out_of_range` of a number that does not fit. */
  datatype Parsed<+T> = Rejected | Accepted(value: T) | Threw

  datatype Pair = Pair(left: nat, right: nat)

  function ParseProgramId(token: string): Parsed<nat> {
    if token == "" || !All(token, IsDigit) then Rejected else
      match Stoul(token)
      case None => Parsed.Threw
      case Some(n) => Accepted(n)
  }

  /** Two numbers around the first occurrence of a separator. */
  function ParsePair(token: string, separator: char): Parsed<Pair> {
    var at := Find(token, separator);
    if at == |token| || at == 0 || at == |token| - 1 then Rejected else
      var left, right := token[..at], token[at + 1..];
      if !All(left, IsDigit) || !All(right, IsDigit) then Rejected else
        match (Stoul(left), Stoul(right))
        case (Some(i), Some(j)) => Accepted(Pair(i, j))
        case _ => Parsed.Threw
  }

  function ParseProcessId(token: string): Parsed<Pair> {
    ParsePair(token, 'p')
  }

  function ParseListingRange(token: string): Parsed<Pair> {
    match ParsePair(token, ':')
    case Accepted(range) => if range.left > range.right then Rejected else Accepted(range)
    case other => other
  }

  // ---------- The program ----------

  method OnlyDigits(token: string) returns (ok: bool)
    ensures ok == All(token, IsDigit)
  {
    for i := 0 to |token|
      invariant All(token[..i], IsDigit)
    {
      if !IsDigit(token[i]) {
        return false;
      }
    }
    assert token[..|token|] == token;
    return true;
  }

  method ReadProgramId(token: string) returns (r: Parsed<nat>)
    ensures r == ParseProgramId(token)
  {
    hide Stoul;
    if token == "" {
      return Rejected;
    }
    var digits := OnlyDigits(token);
    if !digits {
      return Rejected;
    }
    var n := Stoul(token);
    return if n == None then Parsed.Threw else Accepted(n.value);
  }

  method ReadPair(token: string, separator: char) returns (r: Parsed<Pair>)
    ensures r == ParsePair(token, separator)
  {
    hide Stoul, Find;
    var at := Find(token, separator);
    if at == |token| || at == 0 || at == |token| - 1 {
      return Rejected;
    }
    var left, right := token[..at], token[at + 1..];
    var digits := OnlyDigits(left);
    if !digits {
      return Rejected;
    }
    digits := OnlyDigits(right);
    if !digits {
      return Rejected;
    }
    var i := Stoul(left);
    if i == None {
      return Parsed.Threw;
    }
    var j := Stoul(right);
    if j == None {
      return Parsed.Threw;
    }
    return Accepted(Pair(i.value, j.value));
  }

  /** What `p -k` terminates, given the programs it has collected. */
  datatype Target =
    | Process(pid: int)
    | Program(pids: seq<int>)
    | NotFound
    | InvalidId
    | Aborted

  function Pids(processes: seq<ProcessSample>): seq<int> {
    if processes == [] then [] else [processes[0].pid] + Pids(processes[1..])
  }

  function KillTarget(token: string, programs: seq<ProgramGroup>): Target {
    match ParseProcessId(token)
    case Threw => Aborted
    case Accepted(id) =>
      if id.left >= |programs| || id.right >= |programs[id.left].processes| then NotFound
      else Process(programs[id.left].processes[id.right].pid)
    case Rejected =>
      match ParseProgramId(token)
      case Threw => Aborted
      case Accepted(i) => if i >= |programs| then NotFound else Program(Pids(programs[i].processes))
      case Rejected => InvalidId
  }

  method RunProcessKill(token: string, programs: seq<ProgramGroup>) returns (target: Target)
    ensures target == KillTarget(token, programs)
  {
    hide ParsePair, ParseProgramId;
    var processId := ReadPair(token, 'p');
    match processId {
      case Threw => return Aborted;
      case Accepted(id) =>
        if id.left >= |programs| || id.right >= |programs[id.left].processes| {
          return NotFound;
        }
        return Process(programs[id.left].processes[id.right].pid);
      case Rejected =>
    }
    var programId := ReadProgramId(token);
    match programId {
      case Threw => return Aborted;
      case Accepted(i) =>
        if i >= |programs| {
          return NotFound;
        }
        var pids := SignalAll(programs[i].processes);
        return Program(pids);
      case Rejected => return InvalidId;
    }
  }

  /** `kill_program`: every process is signalled, in order. */
  method SignalAll(processes: seq<ProcessSample>) returns (pids: seq<int>)
    ensures pids == Pids(processes)
  {
    pids := [];
    for i := 0 to |processes|
      invariant Pids(processes) == pids + Pids(processes[i..])
    {
      assert processes[i..][1..] == processes[i + 1..];
      pids := pids + [processes[i].pid];
    }
  }

  /** The two texts in front of a printed program. */
  datatype Label = Label(id: string, caption: string)

  datatype Row = Row(text: Label, program: ProgramGroup)

  function LabelOf(programs: seq<ProgramGroup>, i: nat): Label
    requires i < |programs|
  {
    Label("[" + Decimal(i) + "]", programs[i].name + " (" + Decimal(|programs[i].processes|) + ")")
  }

  /** The labels of the displayed programs from program `i` on. */
  function Labels(programs: seq<ProgramGroup>, i: nat, start: nat, end: nat): seq<Label>
    decreases |programs| - i
  {
    if i >= |programs| then [] else
      (if start <= i <= end then [LabelOf(programs, i)] else []) + Labels(programs, i + 1, start, end)
  }

  /** The displayed programs from program `i` on, each with its own label. */
  function Rows(programs: seq<ProgramGroup>, i: nat, start: nat, end: nat): seq<Row>
    decreases |programs| - i
  {
    if i >= |programs| then [] else
      (if start <= i <= end then [Row(LabelOf(programs, i), programs[i])] else [])
      + Rows(programs, i + 1, start, end)
  }

  /** The first pass collects the labels of the displayed programs. */
  method CollectLabels(programs: seq<ProgramGroup>, start: nat, end: nat) returns (labels: seq<Label>)
    ensures labels == Labels(programs, 0, start, end)
  {
    hide LabelOf, Labels, Rows;
    labels := [];
    for i := 0 to |programs|
      invariant Labels(programs, 0, start, end) == labels + Labels(programs, i, start, end)
    {
      LabelsAndRows(programs, i, start, end);
      if !(i < start || i > end) {
        labels := labels + [LabelOf(programs, i)];
      }
    }
    LabelsAndRows(programs, |programs|, start, end);
  }

  /** The row shows program `k`: its number in brackets, its name and how many processes it has. */
  ghost predicate ShowsRow(row: Row, programs: seq<ProgramGroup>, k: nat)
    requires k < |programs|
  {
    && row.program == programs[k] && row.text.id == "[" + Decimal(k) + "]"
    && row.text.caption == programs[k].name + " (" + Decimal(|programs[k].processes|) + ")"
  }

  /** The rows show the programs from `first` on that are before `limit`, in order. */
  ghost predicate ShowsPart(rows: seq<Row>, programs: seq<ProgramGroup>, first: nat, limit: nat)
    requires limit <= |programs|
  {
    && |rows| == (if first < limit then limit - first else 0)
    && forall k :: 0 <= k < |rows| ==> ShowsRow(rows[k], programs, first + k)
  }

  function Least(a: nat, b: nat): nat {
    if a < b then a else b
  }

  lemma {:induction false} RowsShowPart(programs: seq<ProgramGroup>, i: nat, start: nat, end: nat)
    requires i <= |programs|
    ensures var first := if i < start then start else i;
            ShowsPart(Rows(programs, i, start, end), programs, first, Least(end + 1, |programs|))
    decreases |programs| - i
  {
    hide Rows, LabelOf, ShowsRow;
    LabelsAndRows(programs, i, start, end);
    if i < |programs| {
      RowsShowPart(programs, i + 1, start, end);
      if start <= i <= end {
        RowShows(programs, i);
        PrependRow(Row(LabelOf(programs, i), programs[i]), Rows(programs, i + 1, start, end), programs, i,
                   Least(end + 1, |programs|));
      }
    }
  }

  lemma RowShows(programs: seq<ProgramGroup>, i: nat)
    requires i < |programs|
    ensures ShowsRow(Row(LabelOf(programs, i), programs[i]), programs, i)
  {
  }

  lemma PrependRow(row: Row, rest: seq<Row>, programs: seq<ProgramGroup>, i: nat, limit: nat)
    requires i < limit <= |programs| && ShowsRow(row, programs, i) && ShowsPart(rest, programs, i + 1, limit)
    ensures ShowsPart([row] + rest, programs, i, limit)
  {
    hide ShowsRow;
    assert forall k :: 0 < k <= |rest| ==> ([row] + rest)[k] == rest[k - 1];
  }

  /** The second pass prints each displayed program with the next label: without a range all of
      them, with one those from its left to its right end. */
  method PrintListing(programs: seq<ProgramGroup>, range: Option<Pair>) returns (rows: seq<Row>)
    ensures var (start, end) := Bounds(programs, range); rows == Rows(programs, 0, start, end)
    ensures range == None ==> ShowsPart(rows, programs, 0, |programs|)
    ensures range.Some? ==>
      ShowsPart(rows, programs, range.value.left, Least(range.value.right + 1, |programs|))
  {
    BoundsShow(programs, range);
    hide LabelOf, Bounds, Labels, Rows, ShowsPart;
    var (start, end) := Bounds(programs, range);
    var labels := CollectLabels(programs, start, end);
    rows := [];
    var labelIndex := 0;
    for i := 0 to |programs|
      invariant labelIndex <= |labels| && labels[labelIndex..] == Labels(programs, i, start, end)
      invariant Rows(programs, 0, start, end) == rows + Rows(programs, i, start, end)
    {
      LabelsAndRows(programs, i, start, end);
      if !(i < start || i > end) {
        assert labels[labelIndex] == LabelOf(programs, i);
        assert labels[labelIndex + 1..] == labels[labelIndex..][1..];
        rows := rows + [Row(labels[labelIndex], programs[i])];
        labelIndex := labelIndex + 1;
      }
    }
    LabelsAndRows(programs, |programs|, start, end);
  }

  /** What is displayed from program `i` on. */
  lemma LabelsAndRows(programs: seq<ProgramGroup>, i: nat, start: nat, end: nat)
    requires i <= |programs|
    ensures i == |programs| ==> Labels(programs, i, start, end) == [] && Rows(programs, i, start, end) == []
    ensures i < |programs| ==>
      var text := LabelOf(programs, i); var shown := start <= i <= end;
      && Labels(programs, i, start, end) == (if shown then [text] else []) + Labels(programs, i + 1, start, end)
      && Rows(programs, i, start, end)
           == (if shown then [Row(text, programs[i])] else []) + Rows(programs, i + 1, start, end)
  {
  }

  function Bounds(programs: seq<ProgramGroup>, range: Option<Pair>): (nat, nat) {
    match range
    case Some(r) => (r.left, r.right)
    case None => (0, if programs == [] then 0 else |programs| - 1)
  }

  lemma BoundsShow(programs: seq<ProgramGroup>, range: Option<Pair>)
    ensures var (start, end) := Bounds(programs, range); var rows := Rows(programs, 0, start, end);
      match range
      case None => ShowsPart(rows, programs, 0, |programs|)
      case Some(r) => ShowsPart(rows, programs, r.left, Least(r.right + 1, |programs|))
  {
    hide Rows, ShowsRow;
    var (start, end) := Bounds(programs, range);
    RowsShowPart(programs, 0, start, end);
  }

  // ---------- The id language ----------

  ghost predicate IsNumeral(s: string, n: nat) {
    s != "" && All(s, IsDigit) && Value(s) == n && n < 18446744073709551616
  }

  /** A program id is exactly a numeral that fits. */
  lemma ProgramIdLanguage(token: string, i: nat)
    ensures ParseProgramId(token) == Accepted(i) <==> IsNumeral(token, i)
  {
    hide Stoul;
    if token != "" && All(token, IsDigit) {
      StoulOfDigits(token);
    }
  }

  /** A pair is exactly two numerals that fit, with the separator between them. */
  lemma PairLanguage(token: string, separator: char, p: Pair)
    requires !IsDigit(separator)
    ensures ParsePair(token, separator) == Accepted(p)
       <==> exists a, b :: token == a + [separator] + b && IsNumeral(a, p.left) && IsNumeral(b, p.right)
  {
    hide Stoul, Find;
    if ParsePair(token, separator) == Accepted(p) {
      PairIsSplit(token, separator, p);
    }
    if a, b :| token == a + [separator] + b && IsNumeral(a, p.left) && IsNumeral(b, p.right) {
      SplitIsPair(a, separator, b, p);
    }
  }

  lemma PairIsSplit(token: string, separator: char, p: Pair)
    requires ParsePair(token, separator) == Accepted(p)
    ensures exists a, b :: token == a + [separator] + b && IsNumeral(a, p.left) && IsNumeral(b, p.right)
  {
    hide Stoul, Find;
    FindIsSound(token, separator);
    var at := Find(token, separator);
    var a, b := token[..at], token[at + 1..];
    StoulOfDigits(a);
    StoulOfDigits(b);
    assert IsNumeral(a, p.left) && IsNumeral(b, p.right);
    assert token == a + [separator] + b;
  }

  lemma SplitIsPair(a: string, separator: char, b: string, p: Pair)
    requires !IsDigit(separator) && IsNumeral(a, p.left) && IsNumeral(b, p.right)
    ensures ParsePair(a + [separator] + b, separator) == Accepted(p)
  {
    hide Stoul, Find;
    var token := a + [separator] + b;
    assert token == a + ([separator] + b);
    FindAfter(a, b, separator);
    assert token[..|a|] == a && token[|a| + 1..] == b;
    StoulOfDigits(a);
    StoulOfDigits(b);
  }

  ghost predicate Digits(s: string) {
    s != "" && All(s, IsDigit)
  }

  /** Two strings of digits around the separator. */
  ghost predicate PairOfDigits(token: string, separator: char, a: string, b: string) {
    token == a + [separator] + b && Digits(a) && Digits(b)
  }

  predicate Fits(s: string) {
    Value(s) < 18446744073709551616
  }

  lemma PairOfDigitsParses(token: string, separator: char, a: string, b: string)
    requires !IsDigit(separator) && PairOfDigits(token, separator, a, b)
    ensures ParsePair(token, separator)
         == if Fits(a) && Fits(b) then Accepted(Pair(Value(a), Value(b))) else Parsed.Threw
  {
    hide Stoul, Find, Value;
    assert token == a + ([separator] + b);
    FindAfter(a, b, separator);
    assert token[..|a|] == a && token[|a| + 1..] == b;
    StoulOfDigits(a);
    StoulOfDigits(b);
  }

  lemma PairIsDigits(token: string, separator: char)
    requires ParsePair(token, separator) != Rejected
    ensures exists a, b :: PairOfDigits(token, separator, a, b)
  {
    hide Stoul, Find;
    FindIsSound(token, separator);
    var at := Find(token, separator);
    assert PairOfDigits(token, separator, token[..at], token[at + 1..]);
  }

  ghost predicate Overflows(token: string) {
    || (Digits(token) && !Fits(token))
    || exists a, b :: PairOfDigits(token, 'p', a, b) && (!Fits(a) || !Fits(b))
  }

  /** An id is invalid exactly when it is neither a string of digits nor two of them around a `p`;
      of those, numbers of 2^64 and more abort the command. */
  lemma OtherIdsAreRefused(token: string, programs: seq<ProgramGroup>)
    ensures KillTarget(token, programs) == InvalidId
       <==> !Digits(token) && forall a, b :: !PairOfDigits(token, 'p', a, b)
    ensures KillTarget(token, programs) == Aborted
      <==> Overflows(token)
  {
    hide ParsePair, Stoul, Value, Pids, PairOfDigits;
    IdsAreDisjoint(token);
    if ParseProcessId(token) != Rejected {
      PairIsDigits(token, 'p');
    }
    forall a, b | PairOfDigits(token, 'p', a, b)
      ensures ParseProcessId(token)
           == if Fits(a) && Fits(b) then Accepted(Pair(Value(a), Value(b))) else Parsed.Threw
    {
      PairOfDigitsParses(token, 'p', a, b);
    }
    if Digits(token) {
      StoulOfDigits(token);
    }
  }

  /** Printed ids are read back: `NpM` as a process, `N` as a program, `a:b` as a range. */
  lemma PrintedIdsAreRead(i: nat, j: nat)
    requires i < UINT64_LIMIT && j < UINT64_LIMIT
    ensures ParseProgramId(Decimal(i)) == Accepted(i)
    ensures ParseProcessId(Decimal(i) + "p" + Decimal(j)) == Accepted(Pair(i, j))
    ensures ParseListingRange(Decimal(i) + ":" + Decimal(j)) == if i <= j then Accepted(Pair(i, j)) else Rejected
  {
    hide ParseProgramId, ParsePair;
    ProgramIdLanguage(Decimal(i), i);
    SplitIsPair(Decimal(i), 'p', Decimal(j), Pair(i, j));
    SplitIsPair(Decimal(i), ':', Decimal(j), Pair(i, j));
  }

  /** No token is taken by both parsers, whether they accept it or throw. */
  lemma IdsAreDisjoint(token: string)
    ensures ParseProcessId(token) == Rejected || ParseProgramId(token) == Rejected
  {
    hide Stoul;
    FindIsSound(token, 'p');
    var at := Find(token, 'p');
    if at < |token| {
      assert token[at] == 'p' && !IsDigit(token[at]);
    }
    hide Find;
  }

  /** Of one collection's programs, `NpM` selects exactly process M of program N and `N` all processes
      of program N; ids beyond the listing are not found. */
  lemma IdSelectsEntry(programs: seq<ProgramGroup>, i: nat, j: nat)
    requires i < UINT64_LIMIT && j < UINT64_LIMIT
    ensures KillTarget(Decimal(i) + "p" + Decimal(j), programs)
         == if i < |programs| && j < |programs[i].processes| then Process(programs[i].processes[j].pid) else NotFound
    ensures KillTarget(Decimal(i), programs)
         == if i < |programs| then Program(Pids(programs[i].processes)) else NotFound
  {
    hide ParseProgramId, ParsePair, Pids;
    PrintedIdsAreRead(i, j);
    IdsAreDisjoint(Decimal(i));
  }

  // ---------- Ids across two collections ----------

  /** A row of the listing is a displayed program with its own number. */
  lemma {:induction false} RowIndex(programs: seq<ProgramGroup>, i: nat, start: nat, end: nat, row: Row)
      returns (k: nat)
    requires row in Rows(programs, i, start, end)
    ensures k < |programs| && start <= k <= end && row == Row(LabelOf(programs, k), programs[k])
    decreases |programs| - i
  {
    hide LabelOf;
    if start <= i <= end && row == Row(LabelOf(programs, i), programs[i]) {
      k := i;
    } else {
      k := RowIndex(programs, i + 1, start, end, row);
    }
  }

  /** The id a row shows, without its brackets. */
  function ShownId(row: Row): string {
    if |row.text.id| >= 2 then row.text.id[1..|row.text.id| - 1] else ""
  }

  /** The target is the program of that name: all its processes, at least one, and no others. */
  ghost predicate IsProgram(m: Sampling, target: Target, name: string) {
    target.Program? && target.pids != [] && forall p :: p in target.pids <==> p in Named(m, name)
  }

  lemma {:induction false} PidsAre(processes: seq<ProcessSample>)
    ensures |Pids(processes)| == |processes|
    ensures forall i :: 0 <= i < |processes| ==> Pids(processes)[i] == processes[i].pid
  {
    if processes != [] {
      PidsAre(processes[1..]);
    }
  }

  lemma GroupIsProgram(m: Sampling, g: ProgramGroup)
    requires m.Timed() && Complete(m, g)
    ensures IsProgram(m, Program(Pids(g.processes)), g.name)
  {
    hide Percent, Pids;
    PidsAre(g.processes);
    var members := m.Members(Counted(m), g.name);
    assert forall x :: x in g.processes <==> x in multiset(g.processes);
    forall p <- Pids(g.processes) ensures p in Named(m, g.name) {
      var i :| 0 <= i < |g.processes| && Pids(g.processes)[i] == p;
      assert g.processes[i] in g.processes && g.processes[i] in members;
    }
    forall p <- Named(m, g.name) ensures p in Pids(g.processes) {
      assert m.Sample(p) in members && m.Sample(p) in g.processes;
      var i :| 0 <= i < |g.processes| && g.processes[i] == m.Sample(p);
      assert Pids(g.processes)[i] == p;
    }
  }

  lemma ProgramHasOneName(m: Sampling, target: Target, a: string, b: string)
    requires IsProgram(m, target, a) && IsProgram(m, target, b)
    ensures a == b
  {
    var p := target.pids[0];
    assert p in target.pids;
    assert p in Named(m, a) && p in Named(m, b);
  }

  /** An id kills the program that the collection has in its place. */
  lemma IdKillsProgram(m: Sampling, now: seq<ProgramGroup>, i: nat, name: string)
    requires m.Timed() && Grouped(m, now) && i < UINT64_LIMIT
    ensures IsProgram(m, KillTarget(Decimal(i), now), name) <==> i < |now| && now[i].name == name
  {
    hide KillTarget, Pids, IsProgram, Complete, DistinctPrograms, Named;
    IdSelectsEntry(now, i, 0);
    if i < |now| {
      GroupIsProgram(m, now[i]);
      var target := Program(Pids(now[i].processes));
      if IsProgram(m, target, name) {
        ProgramHasOneName(m, target, now[i].name, name);
      }
    } else {
      NothingIsNoProgram(m, name);
    }
  }

  /** `p -k` collects again before it resolves an id. The id shown in a row kills the program shown
      there exactly when the second listing has a program of that name in the same place. */
  lemma RowSelectsItsProgram(shown: seq<ProgramGroup>, start: nat, end: nat, row: Row,
                             m: Sampling, now: seq<ProgramGroup>) returns (i: nat)
    requires |shown| < UINT64_LIMIT && row in Rows(shown, 0, start, end)
    requires m.Timed() && Grouped(m, now)
    ensures i < |shown| && row.program == shown[i]
    ensures IsProgram(m, KillTarget(ShownId(row), now), row.program.name)
       <==> i < |now| && now[i].name == row.program.name
  {
    hide KillTarget, Rows, IsProgram, Grouped;
    i := RowIndex(shown, 0, start, end, row);
    var id := "[" + Decimal(i) + "]";
    assert id[1..|id| - 1] == Decimal(i);
    IdKillsProgram(m, now, i, row.program.name);
  }

  lemma NothingIsNoProgram(m: Sampling, name: string)
    ensures !IsProgram(m, NotFound, name)
  {
  }

  /** Likewise `NpM` kills the process shown there exactly when the second listing has it in the
      same place. */
  lemma RowSelectsItsProcess(shown: seq<ProgramGroup>, now: seq<ProgramGroup>, i: nat, j: nat)
    requires i < |shown| < UINT64_LIMIT && j < |shown[i].processes| < UINT64_LIMIT
    ensures KillTarget(Decimal(i) + "p" + Decimal(j), now) == Process(shown[i].processes[j].pid)
       <==> i < |now| && j < |now[i].processes| && now[i].processes[j].pid == shown[i].processes[j].pid
  {
    hide KillTarget;
    IdSelectsEntry(now, i, j);
  }

  /** The busiest of the counted processes, if it is alone in its program and so is the other,
      comes first. */
  lemma BusierIsFirst(m: Sampling, programs: seq<ProgramGroup>, p: int, q: int)
    requires m.Timed() && Grouped(m, programs) && Counted(m) == {p, q}
    requires m.second[p].name != m.second[q].name && m.Delta(p) > m.Delta(q)
    ensures programs != [] && programs[0].name == m.second[p].name && Pids(programs[0].processes) == [p]
  {
    hide SumSeq, SumSet, Percent, GroupOk, Sampling.Members, Pids;
    PercentGrows(m.Delta(q), m.Delta(p), m.ticksPerSecond, m.intervalMs);
    var g :| g in programs && g.name == m.second[p].name;
    var h :| h in programs && h.name == m.second[q].name;
    LoneProcess(m, g, p);
    LoneProcess(m, h, q);
    HasMember(m, programs[0]);
    var i :| 0 <= i < |programs| && programs[i] == g;
    assert Total(programs[0]) >= Total(programs[i]);
  }

  lemma HasMember(m: Sampling, g: ProgramGroup)
    requires m.Timed() && Complete(m, g)
    ensures exists p <- Counted(m) :: m.second[p].name == g.name
  {
    hide Percent;
    assert g.processes[0] in g.processes && g.processes[0] in multiset(g.processes);
    assert g.processes[0] in m.Members(Counted(m), g.name);
  }

  lemma PercentGrows(a: real, b: real, ticksPerSecond: nat, intervalMs: nat)
    requires ticksPerSecond > 0 && intervalMs > 0 && a < b
    ensures Percent(a, ticksPerSecond, intervalMs) < Percent(b, ticksPerSecond, intervalMs)
  {
    var t, e := ticksPerSecond as real, intervalMs as real / 1000.0;
    assert a / t < b / t;
    assert a / t / e < b / t / e;
  }

  /** A program with one counted process. */
  lemma LoneProcess(m: Sampling, g: ProgramGroup, p: int)
    requires m.Timed() && Complete(m, g) && p in Counted(m) && g.name == m.second[p].name
    requires forall q <- Counted(m) :: m.second[q].name == m.second[p].name ==> q == p
    ensures Pids(g.processes) == [p] && g.total == Percent(m.Delta(p), m.ticksPerSecond, m.intervalMs)
  {
    hide Percent;
    var sample := m.Sample(p);
    assert m.Members(Counted(m), g.name) == {sample};
    assert multiset(g.processes) == multiset{sample};
    assert |g.processes| == |multiset(g.processes)| == 1;
    assert g.processes[0] in multiset(g.processes);
    assert g.processes == [sample];
    assert SumSeq([sample], Cpu) == sample.cpu;
  }

  // ---------- Which ids are certain ----------

  /** The names the collection has programs for. */
  ghost function Names(m: Sampling): set<string> {
    set p <- Counted(m) :: m.second[p].name
  }

  ghost function Busier(m: Sampling, name: string): set<string> {
    set other <- Names(m) | Ticks(m, other) > Ticks(m, name)
  }

  /** Exactly `i` programs have more ticks than this one, and no other has as many. */
  ghost predicate RanksAt(m: Sampling, name: string, i: nat) {
    && name in Names(m) && |Busier(m, name)| == i
    && forall other <- Names(m) :: Ticks(m, other) == Ticks(m, name) ==> other == name
  }

  /** Whatever listing a collection sorts its programs into, the id kills the program. */
  ghost predicate AlwaysKills(m: Sampling, i: nat, name: string)
    requires m.Timed()
  {
    forall programs: seq<ProgramGroup> :: Grouped(m, programs) ==> IsProgram(m, KillTarget(Decimal(i), programs), name)
  }

  /** Programs, each name of the collection once, by descending ticks. */
  ghost predicate ByTicks(m: Sampling, programs: seq<ProgramGroup>) {
    && (forall i :: 0 <= i < |programs| ==> programs[i].name in Names(m))
    && (forall i, j :: 0 <= i < j < |programs| ==>
          programs[i].name != programs[j].name && Ticks(m, programs[i].name) >= Ticks(m, programs[j].name))
    && (forall name <- Names(m) :: exists i :: 0 <= i < |programs| && programs[i].name == name)
  }

  lemma OnlyOnce<T>(s: seq<T>, i: nat, j: nat)
    requires i < j < |s| && s[i] == s[j]
    ensures multiset(s)[s[i]] >= 2
  {
    assert s == s[..j] + s[j..];
    assert s[i] in s[..j] && s[i] in s[j..];
  }

  lemma GroupedIsByTicks(m: Sampling, programs: seq<ProgramGroup>)
    requires m.Timed() && Grouped(m, programs)
    ensures ByTicks(m, programs)
  {
    hide Complete, Percent, SumSeq, SumSet, Ticks;
    forall i | 0 <= i < |programs| ensures programs[i].name in Names(m) {
      HasMember(m, programs[i]);
    }
    forall i, j | 0 <= i < j < |programs|
      ensures programs[i].name != programs[j].name && Ticks(m, programs[i].name) >= Ticks(m, programs[j].name)
    {
      if programs[i].name == programs[j].name {
        OnlyOnce(programs, i, j);
      }
      LessTotalLessTicks(m, programs[i], programs[j]);
      assert Total(programs[i]) >= Total(programs[j]);
    }
    forall name <- Names(m) ensures exists i :: 0 <= i < |programs| && programs[i].name == name {
      var p :| p in Counted(m) && m.second[p].name == name;
      var g :| g in programs && g.name == name;
      var i :| 0 <= i < |programs| && programs[i] == g;
    }
  }

  lemma LessTotalLessTicks(m: Sampling, g: ProgramGroup, h: ProgramGroup)
    requires m.Timed() && Complete(m, g) && Complete(m, h)
    ensures g.total < h.total <==> Ticks(m, g.name) < Ticks(m, h.name)
  {
    hide Percent, Ticks, Complete;
    TotalIsTicks(m, g);
    TotalIsTicks(m, h);
    var a, b := Ticks(m, g.name), Ticks(m, h.name);
    if a < b {
      PercentGrows(a, b, m.ticksPerSecond, m.intervalMs);
    } else if b < a {
      PercentGrows(b, a, m.ticksPerSecond, m.intervalMs);
    }
  }

  /** The names of the first `i` programs. */
  ghost function NamesBefore(programs: seq<ProgramGroup>, i: nat): set<string>
    requires i <= |programs|
  {
    if i == 0 then {} else NamesBefore(programs, i - 1) + {programs[i - 1].name}
  }

  lemma {:induction false} OneNameEach(programs: seq<ProgramGroup>, i: nat)
    requires i <= |programs|
    requires forall j, k :: 0 <= j < k < |programs| ==> programs[j].name != programs[k].name
    ensures |NamesBefore(programs, i)| == i
    ensures forall j :: 0 <= j < |programs| ==> (programs[j].name in NamesBefore(programs, i) <==> j < i)
  {
    if i > 0 {
      OneNameEach(programs, i - 1);
    }
  }

  lemma {:induction false} NameHasPlace(programs: seq<ProgramGroup>, i: nat, name: string) returns (j: nat)
    requires i <= |programs| && name in NamesBefore(programs, i)
    ensures j < i && programs[j].name == name
  {
    if programs[i - 1].name == name {
      j := i - 1;
    } else {
      j := NameHasPlace(programs, i - 1, name);
    }
  }

  /** A program without a tie is listed at its rank. */
  lemma ListedAtRank(m: Sampling, programs: seq<ProgramGroup>, i: nat)
    requires ByTicks(m, programs) && i < |programs|
    requires forall other <- Names(m) :: Ticks(m, other) == Ticks(m, programs[i].name) ==> other == programs[i].name
    ensures RanksAt(m, programs[i].name, i)
  {
    hide Names, Ticks, NamesBefore;
    OneNameEach(programs, i);
    assert Busier(m, programs[i].name) == NamesBefore(programs, i) by {
      forall name <- Busier(m, programs[i].name) ensures name in NamesBefore(programs, i) {
        var j :| 0 <= j < |programs| && programs[j].name == name;
        assert j < i;
      }
      forall name <- NamesBefore(programs, i) ensures name in Busier(m, programs[i].name) {
        var j := NameHasPlace(programs, i, name);
        assert Ticks(m, programs[j].name) >= Ticks(m, programs[i].name);
      }
    }
  }

  /** Two programs with the same ticks may as well be listed the other way round. */
  lemma TiesMaySwap(m: Sampling, programs: seq<ProgramGroup>, i: nat, j: nat)
    requires m.Timed() && Grouped(m, programs) && i < |programs| && j < |programs|
    requires Ticks(m, programs[i].name) == Ticks(m, programs[j].name)
    ensures Grouped(m, programs[i := programs[j]][j := programs[i]])
  {
    hide Complete, Percent, SumSeq, SumSet, Ticks, DistinctPrograms, Sampling.Counts;
    LessTotalLessTicks(m, programs[i], programs[j]);
    LessTotalLessTicks(m, programs[j], programs[i]);
    var swapped := programs[i := programs[j]][j := programs[i]];
    assert forall k :: 0 <= k < |programs| ==> Total(swapped[k]) == Total(programs[k]);
    SortedIsGrouped(m, programs, swapped);
  }

  /** Of the samples a collection took, whatever it makes of ties: the id is sure to kill a program
      exactly when that many programs have more ticks and no other has as many. */
  lemma IdIsCertainExactly(m: Sampling, now: seq<ProgramGroup>, i: nat, name: string)
    requires m.Timed() && Grouped(m, now) && i < UINT64_LIMIT
    ensures AlwaysKills(m, i, name) <==> RanksAt(m, name, i)
  {
    hide KillTarget, IsProgram, Grouped, Ticks, Names, Busier;
    if RanksAt(m, name, i) {
      forall programs: seq<ProgramGroup> | Grouped(m, programs)
        ensures IsProgram(m, KillTarget(Decimal(i), programs), name)
      {
        GroupedIsByTicks(m, programs);
        var j :| 0 <= j < |programs| && programs[j].name == name;
        ListedAtRank(m, programs, j);
        IdKillsProgram(m, programs, i, name);
      }
    }
    if AlwaysKills(m, i, name) {
      IdKillsProgram(m, now, i, name);
      GroupedIsByTicks(m, now);
      forall other <- Names(m) | Ticks(m, other) == Ticks(m, name) ensures other == name {
        var j :| 0 <= j < |now| && now[j].name == other;
        TiesMaySwap(m, now, i, j);
        IdKillsProgram(m, now[i := now[j]][j := now[i]], i, name);
      }
      ListedAtRank(m, now, i);
    }
  }

  // ---------- An id that kills another program ----------

  /** Two programs that take turns: `a` is busy, and then `b`. */
  function BusyA(): Sampling {
    Sampling([1, 2], map[1 := ProcessTimes("a", 0), 2 := ProcessTimes("b", 0)],
             map[1 := ProcessTimes("a", 10), 2 := ProcessTimes("b", 0)], 100, 1000)
  }

  function ThenBusyB(): Sampling {
    Sampling([1, 2], map[1 := ProcessTimes("a", 10), 2 := ProcessTimes("b", 0)],
             map[1 := ProcessTimes("a", 20), 2 := ProcessTimes("b", 20)], 100, 1000)
  }

  /** The second collection sees the same processes, with no fewer ticks than the first one left
      them with. */
  ghost predicate Continues(before: Sampling, after: Sampling) {
    && after.pids == before.pids && after.first.Keys == before.second.Keys
    && forall p <- after.first ::
         after.first[p].name == before.second[p].name && after.first[p].ticks >= before.second[p].ticks
  }

  /** The id shown for `a` kills `b` when `b` is the busier one in the second collection. */
  lemma ShownIdKillsAnother(shown: seq<ProgramGroup>, now: seq<ProgramGroup>)
    requires Grouped(BusyA(), shown) && Grouped(ThenBusyB(), now)
    ensures Continues(BusyA(), ThenBusyB())
    ensures shown != [] && shown[0].name == "a" && LabelOf(shown, 0).id == "[" + Decimal(0) + "]"
    ensures KillTarget(Decimal(0), now) == Program([2]) && ThenBusyB().second[2].name == "b"
  {
    hide KillTarget, Grouped, Pids;
    assert Counted(BusyA()) == {1, 2} && Counted(ThenBusyB()) == {1, 2};
    BusierIsFirst(BusyA(), shown, 1, 2);
    BusierIsFirst(ThenBusyB(), now, 2, 1);
    IdSelectsEntry(now, 0, 0);
  }
}
