/** The snapshot file: `StateBackup::save` prints a snapshot as whitespace-separated words and
    `StateBackup::load` reads it back. */
module StateBackup {
  import opened Text
  import opened Stream

  datatype CpuFreqState = CpuFreqState(
    cpuId: int, governor: string, minFreq: nat, maxFreq: nat, epp: Option<int>)

  /** A device name and the name of its scheduler. */
  datatype IoScheduler = IoScheduler(device: string, scheduler: string)

  datatype SystemStateBackup = SystemStateBackup(
    swappiness: int, vfsCachePressure: int, dirtyRatio: int, dirtyBackgroundRatio: int,
    cpus: seq<CpuFreqState>, ios: seq<IoScheduler>)

  /** `Threw` is the uncaught exception of `std::stoi` on an EPP word that is not a number. */
  datatype LoadResult = NoFile | Loaded(state: SystemStateBackup) | Threw

  // ---------- The printed form ----------
  // Every piece is printed in front of the text that follows it.

  function EppText(epp: Option<int>): string {
    match epp
    case None => "none"
    case Some(v) => IntText(v)
  }

  function CpuLine(cpu: CpuFreqState, tail: string): string {
    IntText(cpu.cpuId) + (" " + (cpu.governor + (" " + (Decimal(cpu.minFreq) + (" " +
      (Decimal(cpu.maxFreq) + (" " + (EppText(cpu.epp) + ("\n" + tail)))))))))
  }

  function CpuText(cpus: seq<CpuFreqState>, tail: string): string {
    if cpus == [] then tail else CpuLine(cpus[0], CpuText(cpus[1..], tail))
  }

  function IoLine(io: IoScheduler, tail: string): string {
    io.device + (" " + (io.scheduler + ("\n" + tail)))
  }

  function IoText(ios: seq<IoScheduler>): string {
    if ios == [] then "" else IoLine(ios[0], IoText(ios[1..]))
  }

  function IoSection(ios: seq<IoScheduler>): string {
    Decimal(|ios|) + ("\n" + IoText(ios))
  }

  function SaveText(state: SystemStateBackup): string {
    IntText(state.swappiness) + ("\n" + (IntText(state.vfsCachePressure) + ("\n" +
      (IntText(state.dirtyRatio) + ("\n" + (IntText(state.dirtyBackgroundRatio) + ("\n" +
        (Decimal(|state.cpus|) + ("\n" + CpuText(state.cpus, IoSection(state.ios)))))))))))
  }

  /** How a core looks in the file: its id, governor, minimum, maximum and EPP, with spaces. */
  lemma CpuForm(governor: string)
    ensures EppText(None) == "none"
    ensures CpuLine(CpuFreqState(0, governor, 8, 34, Some(128)), "") == "0 " + governor + " 8 34 128\n"
  {
    SmallNumerals();
    hide Decimal;
    var t := "8" + (" " + ("34" + (" " + ("128" + ("\n" + "")))));
    assert t == "8 34 128\n";
    assert "0" + (" " + (governor + (" " + t))) == "0 " + governor + (" " + t);
    assert " " + t == " 8 34 128\n";
  }

  /** How devices look, and the sysctls in front of everything. */
  lemma IoForm()
    ensures IoSection([IoScheduler("sda", "none"), IoScheduler("sdb", "bfq")]) == "2\nsda none\nsdb bfq\n"
  {
    SmallNumerals();
    hide Decimal;
    var a, b := IoScheduler("sda", "none"), IoScheduler("sdb", "bfq");
    assert [a, b][1..] == [b] && [b][1..] == [];
    assert IoText([b]) == IoLine(b, "") == "sdb bfq\n";
    assert IoText([a, b]) == IoLine(a, "sdb bfq\n") == "sda none\nsdb bfq\n";
  }

  lemma SysctlForm()
    ensures SaveText(SystemStateBackup(60, 100, 20, 10, [], [])) == "60\n100\n20\n10\n0\n0\n"
  {
    SmallNumerals();
    hide Decimal;
    assert IoSection([]) == "0\n";
    var t4 := "10" + ("\n" + ("0" + ("\n" + "0\n")));
    assert t4 == "10\n0\n0\n";
    var t3 := "20" + ("\n" + t4);
    assert t3 == "20\n10\n0\n0\n";
    var t2 := "100" + ("\n" + t3);
    assert t2 == "100\n20\n10\n0\n0\n";
  }

  lemma SmallNumerals()
    ensures Decimal(0) == "0" && Decimal(2) == "2" && Decimal(8) == "8" && Decimal(10) == "10" && Decimal(20) == "20"
    ensures Decimal(34) == "34" && Decimal(60) == "60" && Decimal(100) == "100" && Decimal(128) == "128"
  {
    assert Decimal(1) == "1" && Decimal(3) == "3" && Decimal(6) == "6" && Decimal(12) == "12";
  }

  // ---------- The reader ----------

  /** One record of the CPU section, before its EPP word is converted. */
  function ReadCpuWords(c: Cursor): (CpuFreqState, string, Cursor) {
    var (cpuId, c1) := ReadInt(c);
    var (governor, c2) := ReadWord(c1);
    var (minFreq, c3) := ReadUnsigned(c2);
    var (maxFreq, c4) := ReadUnsigned(c3);
    var (epp, c5) := ReadWord(c4);
    (CpuFreqState(cpuId, governor, minFreq, maxFreq, None), epp, c5)
  }

  /** One record of the CPU section; `None` when converting its EPP word throws. */
  function LoadCpu(c: Cursor): Option<(CpuFreqState, Cursor)> {
    var (cpu, epp, c') := ReadCpuWords(c);
    if epp == "none" then Some((cpu, c')) else
      match Stoi(epp)
      case None => None
      case Some(v) => Some((cpu.(epp := Some(v)), c'))
  }

  function LoadCpus(count: nat, c: Cursor): Option<(seq<CpuFreqState>, Cursor)> {
    if count == 0 then Some(([], c)) else
      match LoadCpu(c)
      case None => None
      case Some((cpu, c1)) =>
        Prepend([cpu], LoadCpus(count - 1, c1))
  }

  function Prepend(cpus: seq<CpuFreqState>, r: Option<(seq<CpuFreqState>, Cursor)>)
    : Option<(seq<CpuFreqState>, Cursor)>
  {
    match r
    case None => None
    case Some((rest, c)) => Some((cpus + rest, c))
  }

  function LoadIo(c: Cursor): (IoScheduler, Cursor) {
    var (device, c1) := ReadWord(c);
    var (scheduler, c2) := ReadWord(c1);
    (IoScheduler(device, scheduler), c2)
  }

  function LoadIos(count: nat, c: Cursor): seq<IoScheduler> {
    if count == 0 then [] else
      var (io, c1) := LoadIo(c);
      [io] + LoadIos(count - 1, c1)
  }

  function LoadIoSection(c: Cursor): seq<IoScheduler> {
    var (count, c1) := ReadUnsigned(c);
    LoadIos(count, Ignore(c1))
  }

  function LoadText(text: string): LoadResult {
    var (swappiness, c1) := ReadInt(Good(text));
    var (vfsCachePressure, c2) := ReadInt(c1);
    var (dirtyRatio, c3) := ReadInt(c2);
    var (dirtyBackgroundRatio, c4) := ReadInt(c3);
    var (count, c5) := ReadUnsigned(c4);
    match LoadCpus(count, c5)
    case None => Threw
    case Some((cpus, c6)) =>
      Loaded(SystemStateBackup(swappiness, vfsCachePressure, dirtyRatio, dirtyBackgroundRatio,
                               cpus, LoadIoSection(c6)))
  }

  // ---------- The program ----------

  /** An output stream; `tail` is what its writer has still to print after the piece. */
  class OutStream {
    var text: string

    constructor ()
      ensures text == ""
    {
      text := "";
    }

    method Put(piece: string, ghost tail: string)
      modifies this
      ensures text == old(text) + piece
      ensures old(text) + (piece + tail) == text + tail
    {
      text := text + piece;
    }
  }

  /** The four sysctls and the number of cores. */
  method PutHeader(out: OutStream, state: SystemStateBackup, ghost cpus: string)
    requires cpus == CpuText(state.cpus, IoSection(state.ios))
    modifies out
    ensures out.text + cpus == old(out.text) + SaveText(state)
  {
    ghost var t5 := Decimal(|state.cpus|) + ("\n" + cpus);
    ghost var t4 := IntText(state.dirtyBackgroundRatio) + ("\n" + t5);
    ghost var t3 := IntText(state.dirtyRatio) + ("\n" + t4);
    ghost var t2 := IntText(state.vfsCachePressure) + ("\n" + t3);
    out.Put(IntText(state.swappiness), "\n" + t2);
    out.Put("\n", t2);
    out.Put(IntText(state.vfsCachePressure), "\n" + t3);
    out.Put("\n", t3);
    out.Put(IntText(state.dirtyRatio), "\n" + t4);
    out.Put("\n", t4);
    out.Put(IntText(state.dirtyBackgroundRatio), "\n" + t5);
    out.Put("\n", t5);
    out.Put(Decimal(|state.cpus|), "\n" + cpus);
    out.Put("\n", cpus);
  }

  method PutCpus(out: OutStream, cpus: seq<CpuFreqState>, ghost tail: string)
    modifies out
    ensures out.text + tail == old(out.text) + CpuText(cpus, tail)
  {
    hide CpuLine;
    for i := 0 to |cpus|
      invariant out.text + CpuText(cpus[i..], tail) == old(out.text) + CpuText(cpus, tail)
    {
      PutCpu(out, cpus[i], CpuText(cpus[i + 1..], tail));
      assert cpus[i..][1..] == cpus[i + 1..];
    }
  }

  method PutIos(out: OutStream, ios: seq<IoScheduler>)
    modifies out
    ensures out.text == old(out.text) + IoText(ios)
  {
    hide IoLine;
    for i := 0 to |ios|
      invariant out.text + IoText(ios[i..]) == old(out.text) + IoText(ios)
    {
      PutIo(out, ios[i], IoText(ios[i + 1..]));
      assert ios[i..][1..] == ios[i + 1..];
    }
    assert out.text + "" == out.text;
  }

  method PutCpu(out: OutStream, cpu: CpuFreqState, ghost tail: string)
    modifies out
    ensures out.text + tail == old(out.text) + CpuLine(cpu, tail)
  {
    ghost var t4 := EppText(cpu.epp) + ("\n" + tail);
    ghost var t3 := Decimal(cpu.maxFreq) + (" " + t4);
    ghost var t2 := Decimal(cpu.minFreq) + (" " + t3);
    ghost var t1 := cpu.governor + (" " + t2);
    out.Put(IntText(cpu.cpuId), " " + t1);
    out.Put(" ", t1);
    out.Put(cpu.governor, " " + t2);
    out.Put(" ", t2);
    out.Put(Decimal(cpu.minFreq), " " + t3);
    out.Put(" ", t3);
    out.Put(Decimal(cpu.maxFreq), " " + t4);
    out.Put(" ", t4);
    out.Put(EppText(cpu.epp), "\n" + tail);
    out.Put("\n", tail);
  }

  method PutIo(out: OutStream, io: IoScheduler, ghost tail: string)
    modifies out
    ensures out.text + tail == old(out.text) + IoLine(io, tail)
  {
    ghost var t1 := io.scheduler + ("\n" + tail);
    out.Put(io.device, " " + t1);
    out.Put(" ", t1);
    out.Put(io.scheduler, "\n" + tail);
    out.Put("\n", tail);
  }

  /** One turn of the first loop of `load`. */
  method TakeCpu(stream: InStream) returns (r: Option<CpuFreqState>)
    requires stream.Valid()
    modifies stream
    ensures stream.Valid()
    ensures LoadCpu(old(stream.View())) ==
      match r { case None => None case Some(cpu) => Some((cpu, stream.View())) }
  {
    hide ReadInt, ReadWord, ReadUnsigned;
    var cpuId := stream.TakeInt();
    var governor := stream.TakeWord();
    var minFreq := stream.TakeUnsigned();
    var maxFreq := stream.TakeUnsigned();
    var eppWord := stream.TakeWord();
    var epp := None;
    if eppWord != "none" {
      epp := Stoi(eppWord);
      if epp == None {
        return None;
      }
    }
    r := Some(CpuFreqState(cpuId, governor, minFreq, maxFreq, epp));
  }

  method TakeCpus(stream: InStream, count: nat) returns (r: Option<seq<CpuFreqState>>)
    requires stream.Valid()
    modifies stream
    ensures stream.Valid()
    ensures LoadCpus(count, old(stream.View())) ==
      match r { case None => None case Some(cpus) => Some((cpus, stream.View())) }
  {
    hide LoadCpu;
    ghost var start := stream.View();
    PrependNone(LoadCpus(count, start));
    var cpus := [];
    for i := 0 to count
      invariant stream.Valid()
      invariant LoadCpus(count, start) == Prepend(cpus, LoadCpus(count - i, stream.View()))
    {
      ghost var here := stream.View();
      var cpu := TakeCpu(stream);
      if cpu == None {
        return None;
      }
      PrependOne(cpus, cpu.value, LoadCpus(count - i - 1, stream.View()));
      cpus := cpus + [cpu.value];
    }
    r := Some(cpus);
    assert cpus + [] == cpus;
  }

  lemma PrependNone(r: Option<(seq<CpuFreqState>, Cursor)>)
    ensures Prepend([], r) == r
  {
    if r.Some? {
      assert [] + r.value.0 == r.value.0;
    }
  }

  lemma PrependOne(cpus: seq<CpuFreqState>, cpu: CpuFreqState, r: Option<(seq<CpuFreqState>, Cursor)>)
    ensures Prepend(cpus, Prepend([cpu], r)) == Prepend(cpus + [cpu], r)
  {
    if r.Some? {
      assert cpus + ([cpu] + r.value.0) == cpus + [cpu] + r.value.0;
    }
  }

  method TakeIos(stream: InStream, count: nat) returns (ios: seq<IoScheduler>)
    requires stream.Valid()
    modifies stream
    ensures stream.Valid()
    ensures ios == LoadIos(count, old(stream.View()))
  {
    hide ReadWord;
    ghost var start := stream.View();
    ios := [];
    for i := 0 to count
      invariant stream.Valid()
      invariant LoadIos(count, start) == ios + LoadIos(count - i, stream.View())
    {
      var device := stream.TakeWord();
      var scheduler := stream.TakeWord();
      ios := ios + [IoScheduler(device, scheduler)];
    }
  }

  /** The backup file: its content, if it exists. */
  class StateBackup {
    var file: Option<string>

    constructor ()
      ensures file == None
    {
      file := None;
    }

    /** `canOpen` and `room` are what the file system does: whether the file opens and how many
        characters of it are stored before writing fails. */
    method Save(state: SystemStateBackup, canOpen: bool, room: nat) returns (ok: bool)
      modifies this
      ensures ok == (canOpen && |SaveText(state)| <= room)
      ensures !canOpen ==> file == old(file)
      ensures ok ==> file == Some(SaveText(state))
      ensures canOpen && !ok ==> file == Some(SaveText(state)[..room])
    {
      if !canOpen {
        return false;
      }
      var out := new OutStream();
      ghost var ios := IoSection(state.ios);
      ghost var cpus := CpuText(state.cpus, ios);
      PutHeader(out, state, cpus);
      PutCpus(out, state.cpus, ios);
      out.Put(Decimal(|state.ios|), "\n" + IoText(state.ios));
      out.Put("\n", IoText(state.ios));
      PutIos(out, state.ios);
      assert "" + SaveText(state) == SaveText(state);
      ok := |out.text| <= room;
      file := Some(if ok then out.text else out.text[..room]);
    }

    method Load() returns (r: LoadResult)
      ensures r == match file { case None => NoFile case Some(text) => LoadText(text) }
    {
      if file == None {
        return NoFile;
      }
      hide LoadCpu, LoadIo;
      var stream := new InStream(file.value);
      var swappiness := stream.TakeInt();
      var vfsCachePressure := stream.TakeInt();
      var dirtyRatio := stream.TakeInt();
      var dirtyBackgroundRatio := stream.TakeInt();
      var count := stream.TakeUnsigned();
      var cpus := TakeCpus(stream, count);
      if cpus == None {
        return Threw;
      }
      var ioCount := stream.TakeUnsigned();
      stream.TakeIgnored();
      var ios := TakeIos(stream, ioCount);
      r := Loaded(SystemStateBackup(swappiness, vfsCachePressure, dirtyRatio,
                                    dirtyBackgroundRatio, cpus.value, ios));
    }

    method Remove() returns (ok: bool)
      modifies this
      ensures file == None && ok == old(file).Some?
    {
      ok := file.Some?;
      file := None;
    }
  }

  // ---------- What a snapshot of a real machine looks like ----------

  ghost predicate CpuInRange(cpu: CpuFreqState) {
    && IsInt32(cpu.cpuId) && cpu.minFreq < UINT64_LIMIT && cpu.maxFreq < UINT64_LIMIT
    && (cpu.epp.Some? ==> IsInt32(cpu.epp.value))
    && All(cpu.governor, IsGraph)
  }

  ghost predicate IoInRange(io: IoScheduler) {
    IsWord(io.device) && All(io.scheduler, IsGraph)
  }

  /** Numbers fit their C++ types, no string holds whitespace and devices have names. */
  ghost predicate InRange(state: SystemStateBackup) {
    && IsInt32(state.swappiness) && IsInt32(state.vfsCachePressure)
    && IsInt32(state.dirtyRatio) && IsInt32(state.dirtyBackgroundRatio)
    && |state.cpus| < UINT64_LIMIT && |state.ios| < UINT64_LIMIT
    && (forall cpu <- state.cpus :: CpuInRange(cpu))
    && (forall io <- state.ios :: IoInRange(io))
  }

  ghost predicate GovernorsNamed(cpus: seq<CpuFreqState>) {
    forall i :: 0 <= i < |cpus| ==> cpus[i].governor != ""
  }

  /** The last scheduler may be empty: nothing follows it that could be read in its place. */
  ghost predicate SchedulersNamed(ios: seq<IoScheduler>) {
    forall i :: 0 <= i < |ios| - 1 ==> ios[i].scheduler != ""
  }

  // ---------- Reading one record back ----------

  /** The record that is read when a printed line is read from the line before it. */
  lemma LoadCpuAt(cpu: CpuFreqState, tail: string)
    requires CpuInRange(cpu) && cpu.governor != ""
    ensures LoadCpu(Good("\n" + CpuLine(cpu, tail))) == Some((cpu, Good("\n" + tail)))
  {
    var t4 := EppText(cpu.epp) + ("\n" + tail);
    var t3 := Decimal(cpu.maxFreq) + (" " + t4);
    var t2 := Decimal(cpu.minFreq) + (" " + t3);
    ReadIntAt("\n", cpu.cpuId, " " + (cpu.governor + (" " + t2)));
    ReadWordAt(" ", cpu.governor, " " + t2);
    ReadUnsignedAt(" ", cpu.minFreq, " " + t3);
    ReadUnsignedAt(" ", cpu.maxFreq, " " + t4);
    EppWord(cpu.epp);
    ReadWordAt(" ", EppText(cpu.epp), "\n" + tail);
  }

  lemma EppWord(epp: Option<int>)
    requires epp.Some? ==> IsInt32(epp.value)
    ensures IsWord(EppText(epp))
    ensures epp.Some? ==> EppText(epp) != "none" && Stoi(EppText(epp)) == epp
  {
    if epp.Some? {
      DecimalIsWord(epp.value);
      StoiInvertsIntText(epp.value);
      FirstOfNumeral(epp.value);
      assert "none"[0] == 'n';
    }
    hide Stoi, IntText;
  }

  lemma FirstOfNumeral(n: int)
    ensures IntText(n) != "" && (IntText(n)[0] == '-' || IsDigit(IntText(n)[0]))
  {
    hide Decimal;
  }

  /** Without a governor word the minimum frequency is read in its place. */
  lemma LoadCpuWithoutGovernor(cpu: CpuFreqState, tail: string)
    requires CpuInRange(cpu) && cpu.governor == ""
    ensures var r := LoadCpu(Good("\n" + CpuLine(cpu, tail)));
            r == None || r.value.0.governor == Decimal(cpu.minFreq)
  {
    hide ReadNumeral, SkipSpaces, Span, Stoi, ReadUnsigned, Decimal;
    var t3 := Decimal(cpu.maxFreq) + (" " + (EppText(cpu.epp) + ("\n" + tail)));
    var t2 := Decimal(cpu.minFreq) + (" " + t3);
    ReadIntAt("\n", cpu.cpuId, " " + (cpu.governor + (" " + t2)));
    assert " " + (cpu.governor + (" " + t2)) == "  " + t2;
    DecimalIsWord(cpu.minFreq);
    ReadWordAt("  ", Decimal(cpu.minFreq), " " + t3);
  }

  lemma {:induction false} LoadCpusExact(cpus: seq<CpuFreqState>, tail: string)
    requires forall cpu <- cpus :: CpuInRange(cpu)
    ensures var r := LoadCpus(|cpus|, Good("\n" + CpuText(cpus, tail)));
            if GovernorsNamed(cpus) then r == Some((cpus, Good("\n" + tail)))
            else r == None || r.value.0 != cpus
  {
    hide LoadCpu, CpuLine;
    if cpus != [] {
      var rest := cpus[1..];
      var after := CpuText(rest, tail);
      assert CpuText(cpus, tail) == CpuLine(cpus[0], after);
      LoadCpusExact(rest, tail);
      assert cpus == [cpus[0]] + rest;
      if cpus[0].governor == "" {
        LoadCpuWithoutGovernor(cpus[0], after);
      } else {
        LoadCpuAt(cpus[0], after);
        assert GovernorsNamed(cpus) <==> GovernorsNamed(rest);
      }
    }
  }

  // ---------- The device section as words ----------

  /** The words of the device section: each device name, then its scheduler if it has one. */
  function Words(ios: seq<IoScheduler>): seq<string> {
    if ios == [] then [] else
      [ios[0].device] + (if ios[0].scheduler == "" then [] else [ios[0].scheduler]) + Words(ios[1..])
  }

  function WordAt(words: seq<string>, i: nat): string {
    if i < |words| then words[i] else ""
  }

  function Drop(words: seq<string>): seq<string> {
    if words == [] then [] else words[1..]
  }

  /** The first `count` pairs of consecutive words; missing words are empty. */
  function PairUp(words: seq<string>, count: nat): (ios: seq<IoScheduler>)
    ensures |ios| == count
  {
    if count == 0 then [] else
      [IoScheduler(WordAt(words, 0), WordAt(words, 1))] + PairUp(Drop(Drop(words)), count - 1)
  }

  lemma {:induction false} PairUpAt(words: seq<string>, count: nat, k: nat)
    requires k < count
    ensures PairUp(words, count)[k] == IoScheduler(WordAt(words, 2 * k), WordAt(words, 2 * k + 1))
    decreases count
  {
    if k > 0 {
      PairUpAt(Drop(Drop(words)), count - 1, k - 1);
    }
  }

  /** The stream yields exactly these words and then nothing. */
  ghost predicate Yields(c: Cursor, words: seq<string>)
    decreases words
  {
    if words == [] then ReadWord(c) == ("", Failed)
    else words[0] != "" && ReadWord(c).0 == words[0] && Yields(ReadWord(c).1, words[1..])
  }

  lemma {:induction false} IoTextYields(lead: string, ios: seq<IoScheduler>)
    requires All(lead, IsSpace)
    requires forall io <- ios :: IoInRange(io)
    ensures Yields(Good(lead + IoText(ios)), Words(ios))
    decreases ios
  {
    hide ReadWord;
    if ios == [] {
      assert lead + "" == lead;
      ReadWordAtEnd(lead);
    } else {
      var io, rest := ios[0], ios[1..];
      assert IoInRange(io);
      var after := "\n" + IoText(rest);
      ReadWordAt(lead, io.device, " " + (io.scheduler + after));
      if io.scheduler == "" {
        assert " " + (io.scheduler + after) == " \n" + IoText(rest);
        IoTextYields(" \n", rest);
        YieldsOne(Good(lead + IoText(ios)), io.device, Words(rest));
      } else {
        ReadWordAt(" ", io.scheduler, after);
        IoTextYields("\n", rest);
        YieldsOne(Good(" " + (io.scheduler + after)), io.scheduler, Words(rest));
        YieldsOne(Good(lead + IoText(ios)), io.device, [io.scheduler] + Words(rest));
      }
    }
  }

  lemma YieldsOne(c: Cursor, word: string, words: seq<string>)
    requires word != "" && ReadWord(c).0 == word && Yields(ReadWord(c).1, words)
    ensures Yields(c, [word] + words)
  {
    hide ReadWord;
    assert ([word] + words)[1..] == words;
  }

  lemma NextWord(c: Cursor, words: seq<string>)
    requires Yields(c, words)
    ensures ReadWord(c).0 == WordAt(words, 0)
    ensures Yields(ReadWord(c).1, Drop(words))
  {
    if words == [] {
      assert ReadWord(Failed) == ("", Failed);
    }
  }

  lemma {:induction false} LoadIosPairsUp(c: Cursor, words: seq<string>, count: nat)
    requires Yields(c, words)
    ensures LoadIos(count, c) == PairUp(words, count)
    decreases count
  {
    hide ReadWord, Yields;
    if count > 0 {
      var c1 := ReadWord(c).1;
      NextWord(c, words);
      NextWord(c1, Drop(words));
      LoadIosPairsUp(ReadWord(c1).1, Drop(Drop(words)), count - 1);
      assert WordAt(Drop(words), 0) == WordAt(words, 1);
    }
  }

  /** The device section is read back as the pairs of its consecutive words. */
  lemma LoadIoSectionPairsUp(ios: seq<IoScheduler>)
    requires |ios| < UINT64_LIMIT
    requires forall io <- ios :: IoInRange(io)
    ensures LoadIoSection(Good("\n" + IoSection(ios))) == PairUp(Words(ios), |ios|)
  {
    hide LoadIos, Words, PairUp, IoText, Yields, IoInRange, ReadUnsigned, Decimal;
    var text := IoText(ios);
    ReadUnsignedAt("\n", |ios|, "\n" + text);
    assert Ignore(Good("\n" + text)) == Good(text);
    assert "" + text == text;
    IoTextYields("", ios);
    LoadIosPairsUp(Good(text), Words(ios), |ios|);
  }

  /** Pairing the words up gives the section back exactly when all schedulers but the last are
      named: a missing one is filled with the next device name. */
  lemma {:induction false} PairUpExact(ios: seq<IoScheduler>)
    requires forall io <- ios :: io.device != ""
    ensures PairUp(Words(ios), |ios|) == ios <==> SchedulersNamed(ios)
    decreases ios
  {
    hide PairUp, Words, SchedulersNamed;
    if ios == [] || ios[0].scheduler == "" {
      NamelessHead(ios);
    } else {
      NamedHead(ios);
      PairUpExact(ios[1..]);
      assert ios == [ios[0]] + ios[1..];
    }
  }

  lemma NamedHead(ios: seq<IoScheduler>)
    requires ios != [] && ios[0].scheduler != ""
    ensures PairUp(Words(ios), |ios|) == [ios[0]] + PairUp(Words(ios[1..]), |ios[1..]|)
    ensures SchedulersNamed(ios) <==> SchedulersNamed(ios[1..])
  {
    assert Drop(Drop(Words(ios))) == Words(ios[1..]);
    hide Words;
  }

  lemma NamelessHead(ios: seq<IoScheduler>)
    requires ios != [] ==> ios[0].scheduler == ""
    requires forall io <- ios :: io.device != ""
    ensures PairUp(Words(ios), |ios|) == ios <==> |ios| <= 1
    ensures SchedulersNamed(ios) <==> |ios| <= 1
  {
    if |ios| > 1 {
      assert ios[1] in ios && ios[1..][0] == ios[1];
      assert WordAt(Words(ios), 1) == ios[1].device;
      PairUpAt(Words(ios), |ios|, 0);
    }
    hide Words;
  }

  /** The sysctls and the core count are always read back; the rest depends on the records. */
  lemma LoadCpusSection(state: SystemStateBackup)
    requires InRange(state)
    ensures LoadText(SaveText(state)) ==
      match LoadCpus(|state.cpus|, Good("\n" + CpuText(state.cpus, IoSection(state.ios))))
      case None => Threw
      case Some((cpus, c)) => Loaded(state.(cpus := cpus, ios := LoadIoSection(c)))
  {
    hide LoadCpus, LoadIoSection, ReadInt, ReadUnsigned, CpuText, IoSection;
    var body := CpuText(state.cpus, IoSection(state.ios));
    var t5 := Decimal(|state.cpus|) + ("\n" + body);
    var t4 := IntText(state.dirtyBackgroundRatio) + ("\n" + t5);
    var t3 := IntText(state.dirtyRatio) + ("\n" + t4);
    var t2 := IntText(state.vfsCachePressure) + ("\n" + t3);
    assert SaveText(state) == "" + (IntText(state.swappiness) + ("\n" + t2));
    ReadIntAt("", state.swappiness, "\n" + t2);
    ReadIntAt("\n", state.vfsCachePressure, "\n" + t3);
    ReadIntAt("\n", state.dirtyRatio, "\n" + t4);
    ReadIntAt("\n", state.dirtyBackgroundRatio, "\n" + t5);
    ReadUnsignedAt("\n", |state.cpus|, "\n" + body);
  }

  /** Once every governor has a name all but the devices is read back, whatever they are. */
  lemma LoadWithGovernors(state: SystemStateBackup)
    requires InRange(state) && GovernorsNamed(state.cpus)
    ensures LoadText(SaveText(state)) == Loaded(state.(ios := PairUp(Words(state.ios), |state.ios|)))
  {
    hide LoadText, SaveText, LoadCpus, LoadIoSection, CpuText, IoSection, PairUp, Words, CpuInRange, IoInRange;
    LoadCpusSection(state);
    LoadCpusExact(state.cpus, IoSection(state.ios));
    LoadIoSectionPairsUp(state.ios);
  }

  /** The file is read back as the snapshot it was printed from exactly when every governor and
      every scheduler but the last has a name. */
  lemma RoundTrip(state: SystemStateBackup)
    requires InRange(state)
    ensures LoadText(SaveText(state)) == Loaded(state)
       <==> GovernorsNamed(state.cpus) && SchedulersNamed(state.ios)
  {
    hide LoadText, SaveText, LoadCpus, LoadIoSection, CpuText, IoSection, PairUp, Words, CpuInRange;
    LoadCpusSection(state);
    LoadCpusExact(state.cpus, IoSection(state.ios));
    if GovernorsNamed(state.cpus) {
      LoadWithGovernors(state);
      PairUpExact(state.ios);
    }
  }

  // ---------- Loads that throw ----------

  /** Without a governor and without an EPP the word `none` is read as a frequency; the record
      after it is lost and converting its EPP throws. */
  lemma NamelessCpuThrows(cpu: CpuFreqState, tail: string)
    requires CpuInRange(cpu) && cpu.governor == "" && cpu.epp == None
    ensures LoadCpu(Good("\n" + CpuLine(cpu, tail))) == None
  {
    hide ReadNumeral, SkipSpaces, Span, Decimal;
    var t3 := Decimal(cpu.maxFreq) + (" " + ("none" + ("\n" + tail)));
    var t2 := Decimal(cpu.minFreq) + (" " + t3);
    assert CpuLine(cpu, tail) == IntText(cpu.cpuId) + (" " + (cpu.governor + (" " + t2)));
    ReadIntAt("\n", cpu.cpuId, " " + (cpu.governor + (" " + t2)));
    assert " " + (cpu.governor + (" " + t2)) == "  " + t2;
    DecimalIsWord(cpu.minFreq);
    ReadWordAt("  ", Decimal(cpu.minFreq), " " + t3);
    ReadUnsignedAt(" ", cpu.maxFreq, " " + ("none" + ("\n" + tail)));
    NoneIsNoNumber(" " + ("none" + ("\n" + tail)), "none" + ("\n" + tail));
    EmptyIsNoNumber();
    hide ReadInt, CpuLine, Stoi;
  }

  lemma EmptyIsNoNumber()
    ensures Stoi("") == None
    ensures ReadWord(Failed) == ("", Failed)
  {
    assert SkipSpaces("") == "";
  }

  lemma NoneIsNoNumber(s: string, word: string)
    requires s == " " + word && "none" <= word
    ensures ReadUnsigned(Good(s)) == (0, Failed)
  {
    hide ReadUnsigned;
    assert word[0] == "none"[0];
    NoNumberIsRead(" ", word);
  }

  /** The first core without a governor is one without an EPP. */
  ghost predicate FirstNamelessThrows(cpus: seq<CpuFreqState>) {
    exists i :: 0 <= i < |cpus| && cpus[i].governor == "" && cpus[i].epp == None
      && forall j :: 0 <= j < i ==> cpus[j].governor != ""
  }

  lemma {:induction false} NamelessCpusThrow(cpus: seq<CpuFreqState>, tail: string)
    requires forall cpu <- cpus :: CpuInRange(cpu)
    requires FirstNamelessThrows(cpus)
    ensures LoadCpus(|cpus|, Good("\n" + CpuText(cpus, tail))) == None
    decreases cpus
  {
    hide LoadCpu, CpuLine;
    var i :| 0 <= i < |cpus| && cpus[i].governor == "" && cpus[i].epp == None
      && forall j :: 0 <= j < i ==> cpus[j].governor != "";
    var rest := cpus[1..];
    if i == 0 {
      NamelessCpuThrows(cpus[0], CpuText(rest, tail));
    } else {
      assert rest[i - 1] == cpus[i] && forall j :: 0 <= j < i - 1 ==> rest[j] == cpus[j + 1];
      LoadCpuAt(cpus[0], CpuText(rest, tail));
      NamelessCpusThrow(rest, tail);
    }
  }

  /** No core has an EPP without having a governor. */
  ghost predicate EppNeedsGovernor(cpus: seq<CpuFreqState>) {
    forall i :: 0 <= i < |cpus| && cpus[i].governor == "" ==> cpus[i].epp == None
  }

  lemma {:induction false} FirstNameless(cpus: seq<CpuFreqState>, k: nat)
    requires EppNeedsGovernor(cpus) && k < |cpus| && cpus[k].governor == ""
    ensures FirstNamelessThrows(cpus)
    decreases k
  {
    if j: nat :| j < k && cpus[j].governor == "" {
      FirstNameless(cpus, j);
    }
  }

  /** On a machine where EPP files come with governors, loading throws exactly when some core has
      no governor. */
  lemma ThrowsExactly(state: SystemStateBackup)
    requires InRange(state) && EppNeedsGovernor(state.cpus)
    ensures LoadText(SaveText(state)) == Threw <==> !GovernorsNamed(state.cpus)
    ensures LoadText(SaveText(state)) != NoFile
  {
    hide LoadText, SaveText, LoadCpus, CpuText, IoSection, PairUp, Words, CpuInRange, IoInRange, FirstNamelessThrows;
    if GovernorsNamed(state.cpus) {
      LoadWithGovernors(state);
    } else {
      var k :| 0 <= k < |state.cpus| && state.cpus[k].governor == "";
      FirstNameless(state.cpus, k);
      LoadCpusSection(state);
      NamelessCpusThrow(state.cpus, IoSection(state.ios));
    }
  }

  /** The same, for the file that `Save` writes and `Load` reads. */
  method SaveThenLoad(state: SystemStateBackup) returns (r: LoadResult)
    requires InRange(state)
    ensures r == Loaded(state) <==> GovernorsNamed(state.cpus) && SchedulersNamed(state.ios)
  {
    hide SaveText, LoadText;
    var backup := new StateBackup();
    var saved := backup.Save(state, true, |SaveText(state)|);
    r := backup.Load();
    RoundTrip(state);
  }
}
