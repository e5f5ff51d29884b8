/** The process listing's data: the `/proc/[pid]/stat` parser and the grouping of sampled
    processes into programs. */
module ProcessManager {
  import opened Text
  import opened Stream
  import opened Sorting

  const UTIME_INDEX: nat := 11
  const STIME_INDEX: nat := 12

  /** `Threw` is an uncaught exception of `substr` or `std::stoull`. */
  datatype StatResult = Invalid | Valid(name: string, ticks: nat) | Threw

  // ---------- The stat line ----------

  /** `std::string::find`; the length of the string stands for `npos`. */
  function Find(s: string, c: char): (n: nat)
    ensures n <= |s|
  {
    if s == "" || s[0] == c then 0 else 1 + Find(s[1..], c)
  }

  /** `std::string::rfind`; -1 stands for `npos`. */
  function FindLast(s: string, c: char): (r: int)
    ensures -1 <= r < |s|
  {
    if s == "" then -1 else if s[|s| - 1] == c then |s| - 1 else FindLast(s[..|s| - 1], c)
  }

  /** 64-bit unsigned addition. */
  function AddTicks(a: nat, b: nat): nat {
    if a + b < UINT64_LIMIT then a + b else a + b - UINT64_LIMIT
  }

  /** The sum of the words at the two indices; `None` when one of them is no number. A line that
      ends early leaves the missing values at zero. */
  function ScanTicks(c: Cursor, index: nat, utime: nat): Option<nat>
    decreases if c.Good? then |c.rest| else 0
  {
    var (word, c') := ReadWord(c);
    if word == "" then Some(utime)
    else if index == UTIME_INDEX then
      match Stoul(word)
      case None => None
      case Some(v) => ScanTicks(c', index + 1, v)
    else if index == STIME_INDEX then
      match Stoul(word)
      case None => None
      case Some(v) => Some(AddTicks(utime, v))
    else ScanTicks(c', index + 1, utime)
  }

  function ParseStat(line: string): StatResult {
    var nameStart, nameEnd := Find(line, '('), FindLast(line, ')');
    if nameStart == |line| || nameEnd == -1 || nameEnd <= nameStart then Invalid
    else if nameEnd + 2 > |line| then Threw
    else
      match ScanTicks(Good(line[nameEnd + 2..]), 0, 0)
      case None => Threw
      case Some(ticks) => Valid(line[nameStart + 1..nameEnd], ticks)
  }

  /** `std::getline`: all before the first newline. */
  function FirstLine(content: string): string {
    content[..Find(content, '\n')]
  }

  method ReadProcessTimes(content: string) returns (times: StatResult)
    ensures times == ParseStat(FirstLine(content))
  {
    hide ReadWord, Stoul, Find, FindLast;
    var line := FirstLine(content);
    var nameStart, nameEnd := Find(line, '('), FindLast(line, ')');
    if nameStart == |line| || nameEnd == -1 || nameEnd <= nameStart {
      return Invalid;
    }
    if nameEnd + 2 > |line| {
      return Threw;
    }
    var name := line[nameStart + 1..nameEnd];
    var remainder := new InStream(line[nameEnd + 2..]);
    ghost var whole := remainder.View();
    var index, utime, stime := 0, 0, 0;
    ghost var here := remainder.View();
    var token := remainder.TakeWord();
    while token != ""
      invariant remainder.Valid() && fresh(remainder)
      invariant (token, remainder.View()) == ReadWord(here)
      invariant ScanTicks(whole, 0, 0) == ScanTicks(here, index, utime)
      invariant index <= STIME_INDEX && stime == 0
      decreases if here.Good? then |here.rest| else 0, token != ""
    {
      if index == UTIME_INDEX {
        var value := Stoul(token);
        if value == None {
          return Threw;
        }
        utime := value.value;
      } else if index == STIME_INDEX {
        var value := Stoul(token);
        if value == None {
          return Threw;
        }
        stime := value.value;
        return Valid(name, AddTicks(utime, stime));
      }
      index := index + 1;
      here := remainder.View();
      token := remainder.TakeWord();
    }
    times := Valid(name, utime);
  }

  /** The words after the command name, each after a space. */
  function TailText(tail: seq<string>): string {
    if tail == [] then "" else " " + (tail[0] + TailText(tail[1..]))
  }

  /** The line of `/proc/[pid]/stat`: pid, command name in parentheses, and the other fields. */
  function StatLine(pid: nat, comm: string, tail: seq<string>): string {
    Decimal(pid) + (" (" + (comm + (")" + TailText(tail))))
  }

  predicate StatWord(word: string) {
    IsWord(word) && ')' !in word
  }

  lemma {:induction false} FindAfter(a: string, b: string, c: char)
    requires c !in a
    ensures Find(a + ([c] + b), c) == |a|
  {
    if a == "" {
      assert a + ([c] + b) == [c] + b;
    } else {
      assert (a + ([c] + b))[1..] == a[1..] + ([c] + b);
      FindAfter(a[1..], b, c);
    }
  }

  lemma {:induction false} FindIsSound(s: string, c: char)
    ensures Find(s, c) <= |s| && c !in s[..Find(s, c)]
    ensures Find(s, c) < |s| ==> s[Find(s, c)] == c
    decreases s
  {
    if s != "" && s[0] != c {
      FindIsSound(s[1..], c);
      assert s[..Find(s, c)] == [s[0]] + s[1..][..Find(s[1..], c)];
    }
  }

  lemma {:induction false} FindLastBefore(a: string, b: string, c: char)
    requires c !in b
    ensures FindLast(a + ([c] + b), c) == |a|
    decreases b
  {
    var s := a + ([c] + b);
    if b == "" {
      assert s[|s| - 1] == c;
    } else {
      assert s[|s| - 1] == b[|b| - 1] && s[..|s| - 1] == a + ([c] + b[..|b| - 1]);
      FindLastBefore(a, b[..|b| - 1], c);
    }
  }

  lemma {:induction false} NoCloseInTail(tail: seq<string>)
    requires forall word <- tail :: StatWord(word)
    ensures ')' !in TailText(tail)
    ensures tail != [] ==> TailText(tail) != "" && TailText(tail)[0] == ' '
  {
    if tail != [] {
      assert StatWord(tail[0]);
      NoCloseInTail(tail[1..]);
    }
  }

  /** Scanning from word `index` on finds the two numbers. */
  lemma {:induction false} ScanFinds(lead: string, tail: seq<string>, index: nat, u: nat, s: nat)
    requires lead == "" || lead == " "
    requires index <= UTIME_INDEX && |tail| + index > STIME_INDEX
    requires forall word <- tail :: StatWord(word)
    requires tail[UTIME_INDEX - index] == Decimal(u) && tail[STIME_INDEX - index] == Decimal(s)
    requires u < UINT64_LIMIT && s < UINT64_LIMIT
    ensures ScanTicks(Good(lead + (tail[0] + TailText(tail[1..]))), index, 0) == Some(AddTicks(u, s))
    decreases tail
  {
    hide ReadWord, Stoul, StatWord;
    var rest := tail[1..];
    assert StatWord(tail[0]) && StatWord(rest[0]);
    StatWordIsWord(tail[0]);
    StatWordIsWord(rest[0]);
    NoCloseInTail(rest);
    ReadWordAt(lead, tail[0], TailText(rest));
    assert TailText(rest) == " " + (rest[0] + TailText(rest[1..]));
    if index < UTIME_INDEX {
      ScanFinds(" ", rest, index + 1, u, s);
    } else {
      StoulOfDigits(Decimal(u));
      StoulOfDigits(Decimal(s));
      NoCloseInTail(rest[1..]);
      ReadWordAt(" ", rest[0], TailText(rest[1..]));
    }
  }

  lemma StatWordIsWord(word: string)
    requires StatWord(word)
    ensures IsWord(word)
  {
  }

  /** For every command name without a newline, with spaces and parentheses of any nesting, the
      parser returns the name and the sum of fields 14 and 15, the twelfth and thirteenth after the
      name, modulo 2^64; with a newline it never does. */
  lemma ParseInvertsStatLine(pid: nat, comm: string, tail: seq<string>, u: nat, s: nat)
    requires |tail| >= 13 && forall word <- tail :: StatWord(word)
    requires tail[11] == Decimal(u) && tail[12] == Decimal(s)
    requires u < 18446744073709551616 && s < 18446744073709551616
    ensures var sum := if u + s < 18446744073709551616 then u + s else u + s - 18446744073709551616;
      ParseStat(FirstLine(StatLine(pid, comm, tail) + "\n")) == Valid(comm, sum) <==> '\n' !in comm
  {
    hide ParseStat, StatLine, StatWord;
    var content := StatLine(pid, comm, tail) + "\n";
    if '\n' in comm {
      if ParseStat(FirstLine(content)) == Valid(comm, AddTicks(u, s)) {
        NameIsOnLine(content, comm, AddTicks(u, s));
      }
    } else {
      OneLine(pid, comm, tail);
      LineIsParsed(pid, comm, tail, u, s);
    }
  }

  lemma {:induction false} FirstFound(s: string, c: char)
    ensures forall i :: 0 <= i < Find(s, c) ==> s[i] != c
    ensures Find(s, c) < |s| ==> s[Find(s, c)] == c
    decreases s
  {
    if s != "" && s[0] != c {
      FirstFound(s[1..], c);
      assert forall i :: 0 < i < |s| ==> s[i] == s[1..][i - 1];
    }
  }

  lemma {:induction false} LastFound(s: string, c: char)
    ensures forall i :: FindLast(s, c) < i < |s| ==> s[i] != c
    ensures FindLast(s, c) >= 0 ==> s[FindLast(s, c)] == c
    decreases s
  {
    if s != "" && s[|s| - 1] != c {
      LastFound(s[..|s| - 1], c);
    }
  }

  /** A line is rejected exactly when no parenthesis opens before one that closes. */
  lemma InvalidExactly(line: string)
    ensures ParseStat(line) == Invalid <==> forall i, j :: 0 <= i < j < |line| ==> line[i] != '(' || line[j] != ')'
  {
    hide Find, FindLast, ScanTicks;
    FirstFound(line, '(');
    LastFound(line, ')');
  }

  /** A line that ends in its last closing parenthesis makes `substr` throw. */
  lemma ClosedAtEndThrows(a: string, b: string)
    requires '(' !in a
    ensures ParseStat(a + ("(" + (b + ")"))) == Threw
  {
    hide Find, FindLast, ScanTicks;
    FindAfter(a, b + ")", '(');
    FindLastBefore(a + "(" + b, "", ')');
    assert a + ("(" + (b + ")")) == a + (['('] + (b + ")")) == a + "(" + b + ([')'] + "");
  }

  /** A line that ends before field 14 counts no ticks, and one that ends with it those of that
      field alone. */
  lemma ShortLineIsParsed(pid: nat, comm: string, tail: seq<string>)
    requires 0 < |tail| <= 12 && forall word <- tail :: StatWord(word)
    ensures |tail| <= 11 ==> ParseStat(StatLine(pid, comm, tail)) == Valid(comm, 0)
    ensures forall u :: |tail| == 12 && tail[11] == Decimal(u) && u < 18446744073709551616 ==>
      ParseStat(StatLine(pid, comm, tail)) == Valid(comm, u)
  {
    hide ScanTicks, Find, FindLast, StatWord, TailText, Decimal;
    var after := TailText(tail);
    NameIsFound(pid, comm, after);
    NoCloseInTail(tail);
    CloseIsFound(pid, comm, after);
    var text := tail[0] + TailText(tail[1..]);
    TailStarts(tail);
    assert after[1..] == text == "" + text;
    if |tail| <= 11 {
      ScanEnds("", tail, 0, 0);
    }
    forall u | |tail| == 12 && tail[11] == Decimal(u) && u < 18446744073709551616
      ensures ScanTicks(Good(text), 0, 0) == Some(u)
    {
      ScanEnds("", tail, 0, u);
    }
  }

  lemma {:induction false} ScanEnds(lead: string, tail: seq<string>, index: nat, u: nat)
    requires lead == "" || lead == " "
    requires tail != [] && |tail| + index <= 12 && forall word <- tail :: StatWord(word)
    requires |tail| + index == 12 ==> tail[|tail| - 1] == Decimal(u) && u < 18446744073709551616
    ensures ScanTicks(Good(lead + (tail[0] + TailText(tail[1..]))), index, 0)
         == Some(if |tail| + index == 12 then u else 0)
    decreases tail
  {
    hide ReadWord, Stoul, StatWord;
    var rest := tail[1..];
    assert StatWord(tail[0]);
    StatWordIsWord(tail[0]);
    NoCloseInTail(rest);
    ReadWordAt(lead, tail[0], TailText(rest));
    if rest == [] {
      ReadWordAtEnd("");
      if index == 11 {
        StoulOfDigits(Decimal(u));
      }
    } else {
      assert TailText(rest) == " " + (rest[0] + TailText(rest[1..]));
      ScanEnds(" ", rest, index + 1, u);
    }
  }

  lemma LineIsParsed(pid: nat, comm: string, tail: seq<string>, u: nat, s: nat)
    requires |tail| > STIME_INDEX && forall word <- tail :: StatWord(word)
    requires tail[UTIME_INDEX] == Decimal(u) && tail[STIME_INDEX] == Decimal(s)
    requires u < UINT64_LIMIT && s < UINT64_LIMIT
    ensures ParseStat(StatLine(pid, comm, tail)) == Valid(comm, AddTicks(u, s))
  {
    hide ScanTicks, Find, FindLast, StatWord, TailText;
    var after := TailText(tail);
    NameIsFound(pid, comm, after);
    NoCloseInTail(tail);
    CloseIsFound(pid, comm, after);
    var text := tail[0] + TailText(tail[1..]);
    TailStarts(tail);
    assert after[1..] == text == "" + text;
    ScanFinds("", tail, 0, u, s);
  }

  /** Whatever is found as the name is part of the first line. */
  lemma NameIsOnLine(content: string, name: string, ticks: nat)
    requires ParseStat(FirstLine(content)) == Valid(name, ticks)
    ensures '\n' !in name
  {
    hide ScanTicks, Find, FindLast;
    FindIsSound(content, '\n');
  }

  lemma OneLine(pid: nat, comm: string, tail: seq<string>)
    requires '\n' !in comm && forall word <- tail :: StatWord(word)
    ensures FirstLine(StatLine(pid, comm, tail) + "\n") == StatLine(pid, comm, tail)
  {
    hide Find, StatWord, TailText, Decimal;
    var line := StatLine(pid, comm, tail);
    NoNewlineInTail(tail);
    assert forall i :: 0 <= i < |Decimal(pid)| ==> IsDigit(Decimal(pid)[i]);
    FindAfter(line, "", '\n');
    assert line + (['\n'] + "") == line + "\n";
  }

  lemma {:induction false} NoNewlineInTail(tail: seq<string>)
    requires forall word <- tail :: StatWord(word)
    ensures '\n' !in TailText(tail)
  {
    if tail != [] {
      assert StatWord(tail[0]);
      NoNewlineInTail(tail[1..]);
    }
  }

  lemma TailStarts(tail: seq<string>)
    requires tail != []
    ensures TailText(tail) == " " + (tail[0] + TailText(tail[1..]))
  {
  }

  lemma NameIsFound(pid: nat, comm: string, after: string)
    ensures Find(Decimal(pid) + (" (" + (comm + (")" + after))), '(') == |Decimal(pid)| + 1
  {
    var before := Decimal(pid) + " ";
    assert forall i :: 0 <= i < |Decimal(pid)| ==> IsDigit(Decimal(pid)[i]);
    FindAfter(before, comm + (")" + after), '(');
    assert Decimal(pid) + (" (" + (comm + (")" + after))) == before + (['('] + (comm + (")" + after)));
  }

  lemma CloseIsFound(pid: nat, comm: string, after: string)
    requires ')' !in after
    ensures var line := Decimal(pid) + (" (" + (comm + (")" + after))); var end := |Decimal(pid)| + 2 + |comm|;
      FindLast(line, ')') == end
      && line[|Decimal(pid)| + 2..end] == comm
      && line[end + 1..] == after && (after != "" ==> line[end + 2..] == after[1..])
  {
    var front := Decimal(pid) + " (" + comm;
    FindLastBefore(front, after, ')');
    assert Decimal(pid) + (" (" + (comm + (")" + after))) == front + ([')'] + after);
  }

  // ---------- Grouping ----------

  datatype ProcessTimes = ProcessTimes(name: string, ticks: nat)
  datatype ProcessSample = ProcessSample(pid: int, name: string, cpu: real)
  datatype ProgramGroup = ProgramGroup(name: string, total: real, processes: seq<ProcessSample>)

  function Cpu(p: ProcessSample): real {
    p.cpu
  }

  function Total(g: ProgramGroup): real {
    g.total
  }

  /** The share of one processor that a number of ticks is of the sampling interval. */
  function Percent(ticks: real, ticksPerSecond: nat, intervalMs: nat): real
    requires ticksPerSecond > 0 && intervalMs > 0
  {
    ticks / ticksPerSecond as real / (intervalMs as real / 1000.0) * 100.0
  }

  lemma PercentAdds(a: real, b: real, ticksPerSecond: nat, intervalMs: nat)
    requires ticksPerSecond > 0 && intervalMs > 0
    ensures Percent(a + b, ticksPerSecond, intervalMs)
         == Percent(a, ticksPerSecond, intervalMs) + Percent(b, ticksPerSecond, intervalMs)
    ensures Percent(0.0, ticksPerSecond, intervalMs) == 0.0
  {
    var t, e := ticksPerSecond as real, intervalMs as real / 1000.0;
    assert (a + b) / t == a / t + b / t;
    assert (a / t + b / t) / e == a / t / e + b / t / e;
  }

  /** The two samples of every process, and the clock. A process whose stat line is missing or
      invalid has no entry. */
  datatype Sampling = Sampling(
    pids: seq<int>, first: map<int, ProcessTimes>, second: map<int, ProcessTimes>,
    ticksPerSecond: nat, intervalMs: nat)
  {
    ghost predicate Timed() {
      ticksPerSecond > 0 && intervalMs > 0
    }

    predicate Counts(p: int) {
      p in pids && p in first && p in second && first[p].ticks <= second[p].ticks
    }

    function Delta(p: int): real {
      if Counts(p) then (second[p].ticks - first[p].ticks) as real else 0.0
    }

    function Sample(p: int): ProcessSample
      requires Timed() && Counts(p)
    {
      ProcessSample(p, second[p].name, Percent(Delta(p), ticksPerSecond, intervalMs))
    }

    /** The counted processes among `done` whose second sample has the given name. */
    ghost function Members(done: set<int>, name: string): set<ProcessSample>
      requires Timed()
    {
      set p <- done | Counts(p) && second[p].name == name :: Sample(p)
    }

    ghost function DeltaOf(): int -> real {
      p => Delta(p)
    }
  }

  ghost function TotalOf(groups: map<string, ProgramGroup>): string -> real {
    name => if name in groups then groups[name].total else 0.0
  }

  /** The group of a name holds that name's processes, each once, and their sum. */
  ghost predicate GroupOk(m: Sampling, g: ProgramGroup, name: string, done: set<int>)
    requires m.Timed()
  {
    && g.name == name && g.processes != []
    && multiset(g.processes) == multiset(m.Members(done, name))
    && g.total == SumSeq(g.processes, Cpu)
  }

  ghost predicate GroupsOk(m: Sampling, groups: map<string, ProgramGroup>, done: set<int>)
    requires m.Timed()
  {
    && (forall name <- groups :: GroupOk(m, groups[name], name, done))
    && (forall p <- done :: m.Counts(p) ==> m.second[p].name in groups)
    && SumSet(groups.Keys, TotalOf(groups)) == Percent(SumSet(done, m.DeltaOf()), m.ticksPerSecond, m.intervalMs)
  }

  /** Adds one process to its program. */
  method AddSample(m: Sampling, groups: map<string, ProgramGroup>, p: int, ghost done: set<int>)
      returns (added: map<string, ProgramGroup>)
    requires m.Timed() && GroupsOk(m, groups, done) && p !in done
    requires p in m.first && p in m.pids
    ensures GroupsOk(m, added, done + {p})
  {
    hide SumSet, Percent, GroupOk, Sampling.Members;
    ghost var more := done + {p};
    SumSetRemove(more, m.DeltaOf(), p);
    assert more - {p} == done;
    if p !in m.second || m.second[p].ticks < m.first[p].ticks {
      SkipKeepsGroups(m, groups, p, done);
      return groups;
    }
    var name := m.second[p].name;
    var sample := m.Sample(p);
    var group := if name in groups then groups[name] else ProgramGroup("", 0.0, []);
    group := ProgramGroup(name, group.total + sample.cpu, group.processes + [sample]);
    added := groups[name := group];
    NewMember(m, groups, p, done);
    OtherMembers(m, p, done);
    TotalsAfterAdding(groups, name, group);
    PercentAdds(m.Delta(p), SumSet(done, m.DeltaOf()), m.ticksPerSecond, m.intervalMs);
    hide Sampling.Counts;
    forall other <- added ensures GroupOk(m, added[other], other, more) {
      if other != name {
        OtherGroup(m, groups[other], p, other, done);
      }
    }
  }

  lemma SkipKeepsGroups(m: Sampling, groups: map<string, ProgramGroup>, p: int, done: set<int>)
    requires m.Timed() && GroupsOk(m, groups, done) && p !in done && !m.Counts(p)
    requires SumSet(done + {p}, m.DeltaOf()) == m.Delta(p) + SumSet(done, m.DeltaOf())
    ensures GroupsOk(m, groups, done + {p})
  {
    hide SumSet, Percent;
    forall name <- groups ensures GroupOk(m, groups[name], name, done + {p}) {
      assert m.Members(done + {p}, name) == m.Members(done, name);
    }
  }

  lemma NewMember(m: Sampling, groups: map<string, ProgramGroup>, p: int, done: set<int>)
    requires m.Timed() && GroupsOk(m, groups, done) && p !in done && m.Counts(p)
    ensures var name := m.second[p].name; var sample := m.Sample(p);
            var was := if name in groups then groups[name] else ProgramGroup("", 0.0, []);
            GroupOk(m, ProgramGroup(name, was.total + sample.cpu, was.processes + [sample]), name, done + {p})
  {
    var name, sample := m.second[p].name, m.Sample(p);
    var was := if name in groups then groups[name] else ProgramGroup("", 0.0, []);
    MembersGrow(m, p, done);
    if name !in groups {
      NoMembers(m, groups, name, done);
    }
    hide Percent, SumSet, SumSeq, Sampling.Members, Sampling.Counts;
    assert name in groups ==> GroupOk(m, groups[name], name, done);
    assert multiset(was.processes) == multiset(m.Members(done, name)) && was.total == SumSeq(was.processes, Cpu) by {
      EmptySum();
    }
    AppendOne(was.processes, m.Members(done, name), sample);
  }

  lemma EmptySum()
    ensures SumSeq([], Cpu) == 0.0
  {
  }

  lemma AppendOne(processes: seq<ProcessSample>, members: set<ProcessSample>, sample: ProcessSample)
    requires multiset(processes) == multiset(members) && sample !in members
    ensures multiset(processes + [sample]) == multiset(members + {sample})
    ensures SumSeq(processes + [sample], Cpu) == SumSeq(processes, Cpu) + sample.cpu
  {
    SumSeqConcat(processes, [sample], Cpu);
    assert SumSeq([sample], Cpu) == sample.cpu;
  }

  lemma MembersGrow(m: Sampling, p: int, done: set<int>)
    requires m.Timed() && p !in done && m.Counts(p)
    ensures var name := m.second[p].name;
      && m.Sample(p) !in m.Members(done, name)
      && m.Members(done + {p}, name) == m.Members(done, name) + {m.Sample(p)}
  {
    hide Percent;
  }

  lemma NoMembers(m: Sampling, groups: map<string, ProgramGroup>, name: string, done: set<int>)
    requires m.Timed() && GroupsOk(m, groups, done) && name !in groups
    ensures m.Members(done, name) == {}
  {
    hide Percent, SumSet, GroupOk;
  }

  lemma OtherMembers(m: Sampling, p: int, done: set<int>)
    requires m.Timed() && m.Counts(p)
    ensures forall q <- done + {p} :: m.Counts(q) && q !in done ==> q == p
  {
  }

  lemma OtherGroup(m: Sampling, g: ProgramGroup, p: int, other: string, done: set<int>)
    requires m.Timed() && m.Counts(p) && other != m.second[p].name && GroupOk(m, g, other, done)
    ensures GroupOk(m, g, other, done + {p})
  {
    assert m.Members(done + {p}, other) == m.Members(done, other);
  }

  lemma TotalsAfterAdding(groups: map<string, ProgramGroup>, name: string, group: ProgramGroup)
    ensures var added := groups[name := group];
      SumSet(added.Keys, TotalOf(added)) ==
        SumSet(groups.Keys, TotalOf(groups)) + group.total - (if name in groups then groups[name].total else 0.0)
  {
    var added := groups[name := group];
    var others := groups.Keys - {name};
    assert added.Keys - {name} == others;
    SumSetRemove(added.Keys, TotalOf(added), name);
    SumSetSame(others, TotalOf(added), TotalOf(groups));
    if name in groups {
      SumSetRemove(groups.Keys, TotalOf(groups), name);
    } else {
      assert groups.Keys == others;
    }
  }

  /** The processes that were sampled twice, without their ticks going down. */
  ghost function Counted(m: Sampling): set<int> {
    set p <- m.pids | m.Counts(p)
  }

  /** Every program occurs once and no two have the same name. */
  ghost predicate DistinctPrograms(programs: seq<ProgramGroup>) {
    && (forall g <- programs :: multiset(programs)[g] == 1)
    && (forall g <- programs, h <- programs :: g.name == h.name ==> g == h)
  }

  /** A program holds all counted processes of its name, each once and in descending order, and
      their sum. */
  ghost predicate Complete(m: Sampling, g: ProgramGroup)
    requires m.Timed()
  {
    GroupOk(m, g, g.name, Counted(m)) && Descending(g.processes, Cpu)
  }

  /** Every process counted is in exactly one program, under its second name; programs are in
      descending order; and the totals add up to the ticks of all processes, scaled once. */
  ghost predicate Grouped(m: Sampling, programs: seq<ProgramGroup>)
    requires m.Timed()
  {
    && (forall g <- programs :: Complete(m, g))
    && DistinctPrograms(programs)
    && (forall p <- Counted(m) :: exists g <- programs :: g.name == m.second[p].name)
    && Descending(programs, Total)
    && SumSeq(programs, Total) == Percent(SumSet(Counted(m), m.DeltaOf()), m.ticksPerSecond, m.intervalMs)
  }

  method FirstSamples(m: Sampling) returns (samples: map<int, ProcessTimes>)
    ensures samples.Keys == set p <- m.pids | p in m.first
    ensures forall p <- samples :: samples[p] == m.first[p]
  {
    samples := map[];
    for i := 0 to |m.pids|
      invariant samples.Keys == set p <- m.pids[..i] | p in m.first
      invariant forall p <- samples :: samples[p] == m.first[p]
    {
      var p := m.pids[i];
      assert m.pids[..i + 1] == m.pids[..i] + [p];
      if p in m.first {
        samples := samples[p := m.first[p]];
      }
    }
    assert m.pids[..|m.pids|] == m.pids;
  }

  /** The next entry of an unordered map: any one not yet visited. */
  method NextKey<T(==)>(keys: set<T>, done: set<T>) returns (key: T)
    requires done < keys
    ensures key in keys && key !in done
  {
    key :| key in keys && key !in done;
  }

  /** The loop over the first samples, in any order. */
  method GroupSamples(m: Sampling, samples: map<int, ProcessTimes>) returns (groups: map<string, ProgramGroup>)
    requires m.Timed() && forall p <- samples :: p in m.pids && p in m.first
    ensures GroupsOk(m, groups, samples.Keys)
  {
    NothingGrouped(m);
    hide GroupsOk, SumSet, Percent, Sampling.Counts;
    groups := map[];
    var done: set<int> := {};
    while done != samples.Keys
      invariant done <= samples.Keys && GroupsOk(m, groups, done)
      decreases samples.Keys - done
    {
      var p := NextKey(samples.Keys, done);
      groups := AddSample(m, groups, p, done);
      assert p in samples.Keys - done && p !in samples.Keys - (done + {p});
      done := done + {p};
    }
  }

  lemma NothingGrouped(m: Sampling)
    requires m.Timed()
    ensures GroupsOk(m, map[], {})
  {
    var none: map<string, ProgramGroup> := map[];
    assert none.Keys == {};
    PercentAdds(0.0, 0.0, m.ticksPerSecond, m.intervalMs);
    hide Percent;
  }

  /** The programs are the groups, each once. */
  ghost predicate Taken(groups: map<string, ProgramGroup>, programs: seq<ProgramGroup>, names: set<string>) {
    && names <= groups.Keys
    && (forall i :: 0 <= i < |programs| ==>
          programs[i].name in names && programs[i] == groups[programs[i].name])
    && (forall i, j :: 0 <= i < j < |programs| ==> programs[i].name != programs[j].name)
    && (forall name <- names :: exists i :: 0 <= i < |programs| && programs[i].name == name)
    && SumSeq(programs, Total) == SumSet(names, TotalOf(groups))
  }

  method TakeGroups(groups: map<string, ProgramGroup>) returns (programs: seq<ProgramGroup>)
    requires forall name <- groups :: groups[name].name == name
    ensures Taken(groups, programs, groups.Keys)
  {
    programs := [];
    var done: set<string> := {};
    assert Taken(groups, [], {});
    hide Taken;
    while done != groups.Keys
      invariant done <= groups.Keys && Taken(groups, programs, done)
      decreases groups.Keys - done
    {
      var name := NextKey(groups.Keys, done);
      TakeOne(groups, programs, done, name);
      assert name in groups.Keys - done && name !in groups.Keys - (done + {name});
      programs := programs + [groups[name]];
      done := done + {name};
    }
  }

  lemma TakeOne(groups: map<string, ProgramGroup>, programs: seq<ProgramGroup>, names: set<string>, name: string)
    requires Taken(groups, programs, names) && name in groups && name !in names && groups[name].name == name
    requires names <= groups.Keys
    ensures Taken(groups, programs + [groups[name]], names + {name})
  {
    var more := programs + [groups[name]];
    forall n <- names + {name} ensures exists i :: 0 <= i < |more| && more[i].name == n {
      if n == name {
        assert more[|programs|].name == n;
      } else {
        var i :| 0 <= i < |programs| && programs[i].name == n;
        assert more[i].name == n;
      }
    }
    SumSetRemove(names + {name}, TotalOf(groups), name);
    assert names + {name} - {name} == names;
    SumSeqConcat(programs, [groups[name]], Total);
    assert SumSeq([groups[name]], Total) == groups[name].total;
    hide SumSeq, SumSet;
  }

  /** The same program with its processes in descending order. */
  ghost predicate Resorted(a: ProgramGroup, b: ProgramGroup) {
    && b.name == a.name && b.total == a.total
    && multiset(b.processes) == multiset(a.processes) && Descending(b.processes, Cpu)
  }

  method SortProcesses(programs: seq<ProgramGroup>) returns (sorted: seq<ProgramGroup>)
    ensures |sorted| == |programs|
    ensures forall i :: 0 <= i < |programs| ==> Resorted(programs[i], sorted[i])
  {
    hide Descending;
    sorted := [];
    for i := 0 to |programs|
      invariant |sorted| == i && forall j :: 0 <= j < i ==> Resorted(programs[j], sorted[j])
    {
      var processes := SortDescending(programs[i].processes, Cpu);
      sorted := sorted + [programs[i].(processes := processes)];
    }
  }

  lemma {:induction false} OnceEach(programs: seq<ProgramGroup>)
    requires forall i, j :: 0 <= i < j < |programs| ==> programs[i].name != programs[j].name
    ensures DistinctPrograms(programs)
  {
    if programs != [] {
      OnceEach(programs[1..]);
      assert programs == [programs[0]] + programs[1..];
      assert programs[0] !in programs[1..];
    }
  }

  lemma ResortedIsComplete(m: Sampling, a: ProgramGroup, b: ProgramGroup, done: set<int>)
    requires m.Timed() && GroupOk(m, a, a.name, done) && Resorted(a, b)
    requires Counted(m) <= done
    ensures Complete(m, b)
  {
    assert m.Members(done, a.name) == m.Members(Counted(m), a.name) by {
      hide Percent;
    }
    SumSeqOfContents(a.processes, b.processes, Cpu);
    assert |a.processes| == |multiset(a.processes)| == |b.processes|;
    hide Sampling.Members, SumSeq, Descending;
  }

  /** The groups of all samples, taken and resorted, are what the listing promises but for the
      order of the programs. */
  lemma ResortedIsGrouped(m: Sampling, groups: map<string, ProgramGroup>, done: set<int>,
                          taken: seq<ProgramGroup>, programs: seq<ProgramGroup>)
    requires m.Timed() && GroupsOk(m, groups, done) && Taken(groups, taken, groups.Keys)
    requires Counted(m) <= done && done <= set p <- m.pids
    requires |programs| == |taken| && forall i :: 0 <= i < |taken| ==> Resorted(taken[i], programs[i])
    ensures forall g <- programs :: Complete(m, g)
    ensures DistinctPrograms(programs)
    ensures forall p <- Counted(m) :: exists g <- programs :: g.name == m.second[p].name
    ensures SumSeq(programs, Total) == Percent(SumSet(Counted(m), m.DeltaOf()), m.ticksPerSecond, m.intervalMs)
  {
    hide SumSeq, SumSet, Percent, GroupOk, Complete, DistinctPrograms, Descending;
    forall i | 0 <= i < |programs| ensures Complete(m, programs[i]) {
      assert GroupOk(m, taken[i], taken[i].name, done);
      ResortedIsComplete(m, taken[i], programs[i], done);
    }
    OnceEach(programs);
    forall p <- Counted(m) ensures exists g <- programs :: g.name == m.second[p].name {
      var i :| 0 <= i < |taken| && taken[i].name == m.second[p].name;
      assert programs[i] in programs;
    }
    SumSeqSame(taken, programs, Total);
    SumSetZeros(done, Counted(m), m.DeltaOf());
  }

  // ---------- What a listing shows ----------

  /** The processes a collection counted under a name. */
  ghost function Named(m: Sampling, name: string): set<int> {
    set p <- Counted(m) | m.second[p].name == name
  }

  /** The ticks of all processes of a name. */
  ghost function Ticks(m: Sampling, name: string): real {
    SumSet(Named(m, name), m.DeltaOf())
  }

  ghost function SamplesOf(m: Sampling, pids: set<int>): set<ProcessSample>
    requires m.Timed() && forall p <- pids :: m.Counts(p)
  {
    set p <- pids :: m.Sample(p)
  }

  lemma SamplesOfRest(m: Sampling, pids: set<int>, p: int)
    requires m.Timed() && (forall q <- pids :: m.Counts(q)) && p in pids
    ensures m.Sample(p) !in SamplesOf(m, pids - {p})
    ensures SamplesOf(m, pids) == SamplesOf(m, pids - {p}) + {m.Sample(p)}
  {
    hide Percent, Sampling.Counts, Sampling.Delta;
  }

  /** The CPU shares of processes add up to the share of their ticks. */
  lemma {:induction false} SharesOfTicks(m: Sampling, pids: set<int>, s: seq<ProcessSample>)
    requires m.Timed() && forall p <- pids :: m.Counts(p)
    requires multiset(s) == multiset(SamplesOf(m, pids))
    ensures SumSeq(s, Cpu) == Percent(SumSet(pids, m.DeltaOf()), m.ticksPerSecond, m.intervalMs)
    decreases pids
  {
    hide Percent, Sampling.Counts, SamplesOf;
    if pids == {} {
      NoSamples(m, s);
      PercentAdds(0.0, 0.0, m.ticksPerSecond, m.intervalMs);
    } else {
      var p := OneOf(pids);
      var rest := pids - {p};
      SamplesOfRest(m, pids, p);
      var t := SomeOrder(SamplesOf(m, rest));
      SharesOfTicks(m, rest, t);
      SumSetRemove(pids, m.DeltaOf(), p);
      PercentAdds(m.Delta(p), SumSet(rest, m.DeltaOf()), m.ticksPerSecond, m.intervalMs);
      SumSeqOfContents(s, [m.Sample(p)] + t, Cpu);
      assert ([m.Sample(p)] + t)[1..] == t;
    }
  }

  lemma NoSamples(m: Sampling, s: seq<ProcessSample>)
    requires m.Timed() && multiset(s) == multiset(SamplesOf(m, {}))
    ensures s == []
  {
    assert SamplesOf(m, {}) == {};
    assert |s| == |multiset(s)| == 0;
  }

  lemma OneOf<T>(s: set<T>) returns (x: T)
    requires s != {}
    ensures x in s
  {
    x :| x in s;
  }

  lemma SomeOrder<T>(s: set<T>) returns (r: seq<T>)
    ensures multiset(r) == multiset(s)
    decreases s
  {
    if s == {} {
      r := [];
    } else {
      var x :| x in s;
      var rest := SomeOrder(s - {x});
      r := [x] + rest;
      assert s == s - {x} + {x};
    }
  }

  lemma TotalIsTicks(m: Sampling, g: ProgramGroup)
    requires m.Timed() && Complete(m, g)
    ensures g.total == Percent(Ticks(m, g.name), m.ticksPerSecond, m.intervalMs)
  {
    hide Percent, SumSeq, SumSet, Descending;
    assert m.Members(Counted(m), g.name) == SamplesOf(m, Named(m, g.name));
    SharesOfTicks(m, Named(m, g.name), g.processes);
  }

  /** The processes with two valid samples whose ticks did not go down. */
  ghost function SampledTwice(m: Sampling): set<int> {
    set p <- m.pids | p in m.first && p in m.second && m.first[p].ticks <= m.second[p].ticks
  }

  /** Those of them with the given second name. */
  ghost function SampledAs(m: Sampling, name: string): set<int> {
    set p <- SampledTwice(m) | m.second[p].name == name
  }

  /** The ticks each process used between its samples. */
  ghost function Used(m: Sampling): int -> real {
    p => if p in m.first && p in m.second then (m.second[p].ticks - m.first[p].ticks) as real else 0.0
  }

  /** The number is that many ticks as a percentage of one processor over the interval. */
  ghost predicate IsShare(m: Sampling, percent: real, ticks: real) {
    percent * (m.ticksPerSecond * m.intervalMs) as real == 100000.0 * ticks
  }

  /** Processes are shown under their second names with the share they used, each program with
      that of all processes of its name, and all programs together with that of all processes;
      and every process sampled twice is shown. */
  ghost predicate ShowsShares(m: Sampling, programs: seq<ProgramGroup>) {
    && (forall g <- programs, s <- g.processes :: ShowsProcess(m, g, s))
    && (forall g <- programs :: IsShare(m, g.total, SumSet(SampledAs(m, g.name), Used(m))))
    && IsShare(m, SumSeq(programs, Total), SumSet(SampledTwice(m), Used(m)))
    && (forall p <- SampledTwice(m) :: exists g <- programs, s <- g.processes :: s.pid == p)
  }

  ghost predicate ShowsProcess(m: Sampling, g: ProgramGroup, s: ProcessSample) {
    && s.pid in SampledTwice(m) && s.name == g.name == m.second[s.pid].name
    && IsShare(m, s.cpu, (m.second[s.pid].ticks - m.first[s.pid].ticks) as real)
  }

  lemma PercentIsShare(m: Sampling, ticks: real)
    requires m.Timed()
    ensures IsShare(m, Percent(ticks, m.ticksPerSecond, m.intervalMs), ticks)
  {
    var t, i := m.ticksPerSecond as real, m.intervalMs as real;
    var a := ticks / t;
    var b := a / (i / 1000.0);
    assert a * t == ticks;
    assert b * (i / 1000.0) == a;
    assert b * i == 1000.0 * a;
    assert (m.ticksPerSecond * m.intervalMs) as real == t * i;
    assert b * 100.0 * (t * i) == 100.0 * t * (b * i);
  }

  lemma SampledTwiceIsCounted(m: Sampling)
    ensures SampledTwice(m) == Counted(m)
    ensures forall name :: SampledAs(m, name) == Named(m, name)
  {
  }

  lemma SumUsed(m: Sampling, pids: set<int>)
    requires pids <= Counted(m)
    ensures SumSet(pids, Used(m)) == SumSet(pids, m.DeltaOf())
  {
    SumSetSame(pids, Used(m), m.DeltaOf());
  }

  lemma ProcessIsShown(m: Sampling, g: ProgramGroup, s: ProcessSample)
    requires m.Timed() && Complete(m, g) && s in g.processes
    ensures ShowsProcess(m, g, s)
  {
    hide Percent;
    assert s in multiset(g.processes) && s in m.Members(Counted(m), g.name);
    SampledTwiceIsCounted(m);
    PercentIsShare(m, m.Delta(s.pid));
  }

  lemma ProcessHasPlace(m: Sampling, programs: seq<ProgramGroup>, p: int)
    requires m.Timed() && Grouped(m, programs) && p in Counted(m)
    ensures exists g <- programs, s <- g.processes :: s.pid == p
  {
    hide Percent, SumSeq, SumSet, Descending, DistinctPrograms;
    var g :| g in programs && g.name == m.second[p].name;
    assert m.Sample(p) in m.Members(Counted(m), g.name);
    assert m.Sample(p) in multiset(g.processes) && m.Sample(p) in g.processes;
  }

  /** Every listing a collection may make of its samples shows these numbers. */
  lemma GroupedShowsShares(m: Sampling, programs: seq<ProgramGroup>)
    requires m.Timed() && Grouped(m, programs)
    ensures ShowsShares(m, programs)
  {
    hide Percent, SumSeq, SumSet, Complete, ShowsProcess, Counted, Named, SampledTwice, SampledAs, Used,
      DistinctPrograms, IsShare, Sampling.DeltaOf;
    SampledTwiceIsCounted(m);
    forall g <- programs, s <- g.processes ensures ShowsProcess(m, g, s) {
      ProcessIsShown(m, g, s);
    }
    forall g <- programs ensures IsShare(m, g.total, SumSet(SampledAs(m, g.name), Used(m))) {
      TotalIsTicks(m, g);
      PercentIsShare(m, Ticks(m, g.name));
      NamedIsCounted(m, g.name);
      SumUsed(m, Named(m, g.name));
    }
    PercentIsShare(m, SumSet(Counted(m), m.DeltaOf()));
    SumUsed(m, Counted(m));
    forall p <- SampledTwice(m) ensures exists g <- programs, s <- g.processes :: s.pid == p {
      ProcessHasPlace(m, programs, p);
    }
  }

  lemma NamedIsCounted(m: Sampling, name: string)
    ensures Named(m, name) <= Counted(m)
  {
  }

  method CollectPrograms(m: Sampling) returns (programs: seq<ProgramGroup>)
    requires m.Timed()
    ensures Grouped(m, programs) && ShowsShares(m, programs)
  {
    hide GroupsOk, Complete, SumSet, SumSeq, Percent, Descending, Taken, Resorted, DistinctPrograms, ShowsShares;
    var samples := FirstSamples(m);
    var groups := GroupSamples(m, samples);
    NamesOfGroups(m, groups, samples.Keys);
    var taken := TakeGroups(groups);
    var resorted := SortProcesses(taken);
    ResortedIsGrouped(m, groups, samples.Keys, taken, resorted);
    programs := SortDescending(resorted, Total);
    SortedIsGrouped(m, resorted, programs);
    GroupedShowsShares(m, programs);
  }

  lemma NamesOfGroups(m: Sampling, groups: map<string, ProgramGroup>, done: set<int>)
    requires m.Timed() && GroupsOk(m, groups, done)
    ensures forall name <- groups :: groups[name].name == name
  {
    hide SumSet, Percent;
  }

  lemma SortedIsGrouped(m: Sampling, resorted: seq<ProgramGroup>, programs: seq<ProgramGroup>)
    requires m.Timed() && multiset(programs) == multiset(resorted) && Descending(programs, Total)
    requires forall g <- resorted :: Complete(m, g)
    requires DistinctPrograms(resorted)
    requires forall p <- Counted(m) :: exists g <- resorted :: g.name == m.second[p].name
    requires SumSeq(resorted, Total) == Percent(SumSet(Counted(m), m.DeltaOf()), m.ticksPerSecond, m.intervalMs)
    ensures Grouped(m, programs)
  {
    hide Complete, SumSeq, SumSet, Percent, Descending;
    SumSeqOfContents(resorted, programs, Total);
    SameElements(resorted, programs);
    forall p <- Counted(m) ensures exists g <- programs :: g.name == m.second[p].name {
      var g :| g in resorted && g.name == m.second[p].name;
      assert g in programs;
    }
  }

  lemma SameElements(a: seq<ProgramGroup>, b: seq<ProgramGroup>)
    requires multiset(a) == multiset(b)
    ensures forall g :: g in a <==> g in b
  {
    assert forall g :: g in a <==> g in multiset(a);
    assert forall g :: g in b <==> g in multiset(b);
  }
}
