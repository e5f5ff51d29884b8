/** The kernel settings the program reaches, one knob per file under `/sys` and `/proc/sys`.
    A knob that is not a key of its map is a file that does not exist. Knobs are independent of
    one another and nothing else writes them; a write that is reported as done took effect.
    Governor and EPP texts stand without the newline that ends their files: every reader skips
    it, and the kernel appends it whatever is written. */
module Kernel {
  import opened Text
  import opened Stream

  datatype Sysctl = Swappiness | VfsCachePressure | DirtyRatio | DirtyBackgroundRatio

  /** A `queue/scheduler` file: the schedulers a device offers and the one in use. */
  datatype Scheduler = Scheduler(choices: seq<string>, active: string)

  datatype Knobs = Knobs(
    governor: map<int, string>,
    minFreq: map<int, nat>,
    maxFreq: map<int, nat>,
    epp: map<int, string>,
    scheduler: map<string, Scheduler>,
    latency: map<string, (nat, nat)>,
    vm: map<Sysctl, int>)

  datatype Write =
    | SetGovernor(cpu: int, governor: string)
    | SetMinFreq(cpu: int, minFreq: nat)
    | SetMaxFreq(cpu: int, maxFreq: nat)
    | SetEpp(cpu: int, epp: int)
    | SetScheduler(device: string, scheduler: string)
    | SetLatency(device: string, read: nat, write: nat)
    | SetVm(sysctl: Sysctl, value: int)

  /** Whether the written file exists; a device takes only a scheduler that it offers. */
  predicate Accepts(k: Knobs, w: Write) {
    match w
    case SetGovernor(cpu, _) => cpu in k.governor
    case SetMinFreq(cpu, _) => cpu in k.minFreq
    case SetMaxFreq(cpu, _) => cpu in k.maxFreq
    case SetEpp(cpu, _) => cpu in k.epp
    case SetScheduler(device, name) => device in k.scheduler && name in k.scheduler[device].choices
    case SetLatency(device, _, _) => device in k.latency
    case SetVm(sysctl, _) => sysctl in k.vm
  }

  function Store(k: Knobs, w: Write): Knobs
    requires Accepts(k, w)
  {
    match w
    case SetGovernor(cpu, name) => k.(governor := k.governor[cpu := name])
    case SetMinFreq(cpu, freq) => k.(minFreq := k.minFreq[cpu := freq])
    case SetMaxFreq(cpu, freq) => k.(maxFreq := k.maxFreq[cpu := freq])
    case SetEpp(cpu, value) => k.(epp := k.epp[cpu := IntText(value)])
    case SetScheduler(device, name) =>
      k.(scheduler := k.scheduler[device := k.scheduler[device].(active := name)])
    case SetLatency(device, read, write) => k.(latency := k.latency[device := (read, write)])
    case SetVm(sysctl, value) => k.(vm := k.vm[sysctl := value])
  }

  /** The knob that `w` writes exists and already shows the value that `w` would store. */
  predicate Shows(k: Knobs, w: Write) {
    Accepts(k, w) &&
    match w
    case SetGovernor(cpu, name) => k.governor[cpu] == name
    case SetMinFreq(cpu, freq) => k.minFreq[cpu] == freq
    case SetMaxFreq(cpu, freq) => k.maxFreq[cpu] == freq
    case SetEpp(cpu, value) => k.epp[cpu] == IntText(value)
    case SetScheduler(device, name) => k.scheduler[device].active == name
    case SetLatency(device, read, write) => k.latency[device] == (read, write)
    case SetVm(sysctl, value) => k.vm[sysctl] == value
  }

  /** A write succeeds when its file exists and the environment does not refuse it. */
  predicate Succeeds(k: Knobs, w: Write, refused: set<Write>) {
    w !in refused && Accepts(k, w)
  }

  function Do(k: Knobs, w: Write, refused: set<Write>): Knobs {
    if Succeeds(k, w, refused) then Store(k, w) else k
  }

  /** Several writes, each of which may be refused. */
  function DoAll(k: Knobs, ws: seq<Write>, refused: set<Write>): Knobs
    decreases ws
  {
    if ws == [] then k else DoAll(Do(k, ws[0], refused), ws[1..], refused)
  }

  lemma {:induction false} DoAllConcat(k: Knobs, a: seq<Write>, b: seq<Write>, refused: set<Write>)
    ensures DoAll(k, a + b, refused) == DoAll(DoAll(k, a, refused), b, refused)
    decreases a
  {
    hide Do;
    if a == [] {
      assert a + b == b;
    } else {
      assert (a + b)[1..] == a[1..] + b;
      DoAllConcat(Do(k, a[0], refused), a[1..], b, refused);
    }
  }

  // ---------- Reading ----------

  function Get<K, V>(m: map<K, V>, key: K, default: V): V {
    if key in m then m[key] else default
  }

  /** `Governor::current_governor`. */
  function CurrentGovernor(k: Knobs, cpu: int): string {
    ReadWord(Good(Get(k.governor, cpu, ""))).0
  }

  /** `Governor::current_epp`: a value that is no number reads as absent. */
  function CurrentEpp(k: Knobs, cpu: int): Option<int> {
    if cpu in k.epp then Stoi(ReadWord(Good(k.epp[cpu])).0) else None
  }

  /** A governor file is read as its first word, and a missing one as no word. */
  lemma GovernorIsFirstWord(k: Knobs, cpu: int, lead: string, word: string, rest: string)
    requires All(lead, IsSpace) && IsWord(word) && (rest == "" || IsSpace(rest[0]))
    ensures cpu in k.governor && k.governor[cpu] == lead + (word + rest) ==> CurrentGovernor(k, cpu) == word
    ensures cpu !in k.governor ==> CurrentGovernor(k, cpu) == ""
  {
    hide ReadWord;
    ReadWordAt(lead, word, rest);
    ReadWordAtEnd("");
  }

  /** An EPP file is read as the number its first word starts with, if it starts with one that
      fits, and otherwise as absent. */
  lemma EppIsFirstNumber(k: Knobs, cpu: int, lead: string, word: string, rest: string)
    requires All(lead, IsSpace) && IsWord(word) && (rest == "" || IsSpace(rest[0]))
    requires cpu in k.epp && k.epp[cpu] == lead + (word + rest)
    ensures forall sign, digits, tail :: NumeralText(word, sign, digits, tail) ==>
      var v := Signed(sign, digits);
      CurrentEpp(k, cpu) == if -2147483648 <= v <= 2147483647 then Some(v) else None
    ensures NoNumeralText(word) ==> CurrentEpp(k, cpu) == None
  {
    hide ReadWord, Stoi;
    ReadWordAt(lead, word, rest);
    assert "" + word == word;
    forall sign, digits, tail | NumeralText(word, sign, digits, tail)
      ensures var v := Signed(sign, digits);
        Stoi(word) == if -2147483648 <= v <= 2147483647 then Some(v) else None
    {
      NumeralsConvert("", word, sign, digits, tail);
    }
    if NoNumeralText(word) {
      OthersThrow("", word);
    }
  }

  /** The content of a `queue/scheduler` file: the choices, the active one in brackets. */
  function ChoicesText(choices: seq<string>, active: string): string {
    if choices == [] then "\n" else
      var word := if choices[0] == active then "[" + active + "]" else choices[0];
      word + (" " + ChoicesText(choices[1..], active))
  }

  /** `IoStorage::current_scheduler`: the first word that starts with a bracket, without its ends. */
  function FirstBracketed(c: Cursor): string
    decreases if c.Good? then |c.rest| else 0
  {
    var (word, c') := ReadWord(c);
    if word == "" then ""
    else if word[0] == '[' then (if |word| < 2 then "" else word[1..|word| - 1])
    else FirstBracketed(c')
  }

  method ScanForBracket(text: string) returns (name: string)
    ensures name == FirstBracketed(Good(text))
  {
    hide ReadWord;
    var stream := new InStream(text);
    var word := stream.TakeWord();
    while word != ""
      invariant stream.Valid() && fresh(stream)
      invariant FirstBracketed(Good(text)) == if word == "" then "" else
        if word[0] == '[' then (if |word| < 2 then "" else word[1..|word| - 1])
        else FirstBracketed(stream.View())
      invariant word != "" ==> stream.View().Good?
      decreases word != "", if stream.View().Good? then |stream.View().rest| else 0
    {
      if word[0] == '[' {
        return if |word| < 2 then "" else word[1..|word| - 1];
      }
      word := stream.TakeWord();
    }
    return "";
  }

  function CurrentScheduler(k: Knobs, device: string): string {
    if device in k.scheduler then
      FirstBracketed(Good(ChoicesText(k.scheduler[device].choices, k.scheduler[device].active)))
    else ""
  }

  /** Scheduler names are words that do not start with a bracket. */
  predicate PlainName(name: string) {
    IsWord(name) && name[0] != '['
  }

  lemma {:induction false} FindsActive(lead: string, choices: seq<string>, active: string)
    requires lead == "" || lead == " "
    requires forall name <- choices :: PlainName(name)
    ensures FirstBracketed(Good(lead + ChoicesText(choices, active)))
         == if active in choices then active else ""
    decreases choices
  {
    hide ReadWord;
    var text := ChoicesText(choices, active);
    if choices == [] {
      ReadWordAtEnd(lead + text);
    } else {
      assert PlainName(choices[0]);
      var tail := ChoicesText(choices[1..], active);
      if choices[0] == active {
        ReadWordAt(lead, "[" + active + "]", " " + tail);
        assert ("[" + active + "]")[1..|active| + 1] == active;
      } else {
        ReadWordAt(lead, choices[0], " " + tail);
        FindsActive(" ", choices[1..], active);
      }
    }
  }

  /** Reading a device's scheduler yields the active one, and nothing when none is active. */
  lemma CurrentSchedulerIsActive(k: Knobs, device: string)
    requires device in k.scheduler
    requires forall name <- k.scheduler[device].choices :: PlainName(name)
    ensures CurrentScheduler(k, device)
         == if k.scheduler[device].active in k.scheduler[device].choices
            then k.scheduler[device].active else ""
  {
    hide FirstBracketed, ChoicesText;
    var s := k.scheduler[device];
    FindsActive("", s.choices, s.active);
    assert "" + ChoicesText(s.choices, s.active) == ChoicesText(s.choices, s.active);
  }

  /** Storing what a knob already shows changes nothing. */
  lemma ShownIsUnchanged(k: Knobs, w: Write, refused: set<Write>)
    requires Shows(k, w)
    ensures Do(k, w, refused) == k
  {
    if Succeeds(k, w, refused) {
      match w
      case SetGovernor(cpu, name) => assert k.governor[cpu := name] == k.governor;
      case SetMinFreq(cpu, freq) => assert k.minFreq[cpu := freq] == k.minFreq;
      case SetMaxFreq(cpu, freq) => assert k.maxFreq[cpu := freq] == k.maxFreq;
      case SetEpp(cpu, value) => assert k.epp[cpu := IntText(value)] == k.epp;
      case SetScheduler(device, name) =>
        assert k.scheduler[device := k.scheduler[device].(active := name)] == k.scheduler;
      case SetLatency(device, read, write) => assert k.latency[device := (read, write)] == k.latency;
      case SetVm(sysctl, value) => assert k.vm[sysctl := value] == k.vm;
    }
  }

  /** Writing back the scheduler that was read leaves the device as it was. */
  lemma WritingBackScheduler(k: Knobs, device: string, refused: set<Write>)
    requires device in k.scheduler
    requires forall name <- k.scheduler[device].choices :: PlainName(name)
    ensures Do(k, SetScheduler(device, CurrentScheduler(k, device)), refused) == k
  {
    hide CurrentScheduler;
    CurrentSchedulerIsActive(k, device);
    var w := SetScheduler(device, CurrentScheduler(k, device));
    if Accepts(k, w) {
      assert PlainName(CurrentScheduler(k, device));
      ShownIsUnchanged(k, w, refused);
    }
  }

  // ---------- Comparing knob tables ----------

  /** The same files exist and every device offers the same schedulers. */
  ghost predicate SameFiles(a: Knobs, b: Knobs) {
    && a.governor.Keys == b.governor.Keys && a.minFreq.Keys == b.minFreq.Keys
    && a.maxFreq.Keys == b.maxFreq.Keys && a.epp.Keys == b.epp.Keys
    && a.latency.Keys == b.latency.Keys && a.vm.Keys == b.vm.Keys
    && a.scheduler.Keys == b.scheduler.Keys
    && forall d <- a.scheduler :: a.scheduler[d].choices == b.scheduler[d].choices
  }

  lemma DoKeepsFiles(k: Knobs, w: Write, refused: set<Write>)
    ensures SameFiles(k, Do(k, w, refused))
  {
    hide IntText;
    if Succeeds(k, w, refused) {
      match w
      case SetScheduler(device, name) => assert SameFiles(k, Store(k, w));
      case _ => assert Store(k, w).scheduler == k.scheduler;
    }
  }

  lemma SameFilesTransitive(a: Knobs, b: Knobs, c: Knobs)
    requires SameFiles(a, b) && SameFiles(b, c)
    ensures SameFiles(a, c)
  {
  }

  lemma SameFilesAccept(a: Knobs, b: Knobs, w: Write)
    requires SameFiles(a, b)
    ensures Accepts(a, w) == Accepts(b, w)
  {
  }

  lemma {:induction false} DoAllKeepsFiles(k: Knobs, ws: seq<Write>, refused: set<Write>)
    ensures SameFiles(k, DoAll(k, ws, refused))
    decreases ws
  {
    if ws != [] {
      hide SameFiles, Do;
      var k1 := Do(k, ws[0], refused);
      DoKeepsFiles(k, ws[0], refused);
      DoAllKeepsFiles(k1, ws[1..], refused);
      SameFilesTransitive(k, k1, DoAll(k1, ws[1..], refused));
    }
  }

  /** The kernel as an object: the knob table that all parts of the program write. */
  class Kernel {
    var knobs: Knobs

    constructor (knobs: Knobs)
      ensures this.knobs == knobs
    {
      this.knobs := knobs;
    }

    method Write(w: Write, refused: set<Write>) returns (done: bool)
      modifies this
      ensures done == Succeeds(old(knobs), w, refused)
      ensures knobs == Do(old(knobs), w, refused)
    {
      done := Succeeds(knobs, w, refused);
      if done {
        knobs := Store(knobs, w);
      }
    }
  }
}
