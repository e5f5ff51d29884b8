/** Taking the snapshot and writing it back: `capture_current_state`, `Governor::snapshot`,
    `Governor::restore` and the restoring part of `run_start_command`. */
module Restore {
  import opened Text
  import opened Stream
  import opened Kernel
  import opened StateBackup
  import opened PolicyEngine

  /** `Governor::snapshot`. */
  function SnapshotOf(k: Knobs, cpu: int): CpuFreqState {
    CpuFreqState(cpu, CurrentGovernor(k, cpu), Get(k.minFreq, cpu, 0), Get(k.maxFreq, cpu, 0), CurrentEpp(k, cpu))
  }

  /** A sysctl, or the value the program assumes when its file is missing. */
  function ReadSysctl(k: Knobs, sysctl: Sysctl): int {
    Get(k.vm, sysctl, match sysctl case Swappiness => 60 case VfsCachePressure => 100 case _ => 0)
  }

  function CaptureCpus(k: Knobs, cores: seq<Core>): seq<CpuFreqState> {
    if cores == [] then [] else
      (if cores[0].online then [SnapshotOf(k, cores[0].cpuId)] else []) + CaptureCpus(k, cores[1..])
  }

  function CaptureIos(k: Knobs, devices: seq<string>): seq<IoScheduler> {
    if devices == [] then [] else
      [IoScheduler(devices[0], CurrentScheduler(k, devices[0]))] + CaptureIos(k, devices[1..])
  }

  function Capture(k: Knobs, cores: seq<Core>, devices: seq<string>): SystemStateBackup {
    SystemStateBackup(
      ReadSysctl(k, Swappiness), ReadSysctl(k, VfsCachePressure),
      ReadSysctl(k, DirtyRatio), ReadSysctl(k, DirtyBackgroundRatio),
      CaptureCpus(k, cores), CaptureIos(k, devices))
  }

  function CpuWrites(cpu: CpuFreqState): seq<Write> {
    [SetGovernor(cpu.cpuId, cpu.governor), SetMinFreq(cpu.cpuId, cpu.minFreq), SetMaxFreq(cpu.cpuId, cpu.maxFreq)]
    + (if cpu.epp.Some? then [SetEpp(cpu.cpuId, cpu.epp.value)] else [])
  }

  function AllCpuWrites(cpus: seq<CpuFreqState>): seq<Write> {
    if cpus == [] then [] else CpuWrites(cpus[0]) + AllCpuWrites(cpus[1..])
  }

  function VmWrites(state: SystemStateBackup): seq<Write> {
    [SetVm(Swappiness, state.swappiness), SetVm(VfsCachePressure, state.vfsCachePressure),
     SetVm(DirtyRatio, state.dirtyRatio), SetVm(DirtyBackgroundRatio, state.dirtyBackgroundRatio)]
  }

  function IoWrites(ios: seq<IoScheduler>): seq<Write> {
    if ios == [] then [] else [SetScheduler(ios[0].device, ios[0].scheduler)] + IoWrites(ios[1..])
  }

  /** The writes of cores and sysctls, which come first in every restore. */
  function CoreWrites(state: SystemStateBackup): seq<Write> {
    AllCpuWrites(state.cpus) + VmWrites(state)
  }

  /** The writes of a restore, in the order the program makes them. */
  function RestoreWrites(state: SystemStateBackup): seq<Write> {
    CoreWrites(state) + IoWrites(state.ios)
  }

  /** What is captured of files that are missing, and of numbers that are there. */
  lemma CapturedNumbers(k: Knobs, cores: seq<Core>, devices: seq<string>, cpu: int)
    ensures var state := Capture(k, cores, devices);
      && state.swappiness == (if Swappiness in k.vm then k.vm[Swappiness] else 60)
      && state.vfsCachePressure == (if VfsCachePressure in k.vm then k.vm[VfsCachePressure] else 100)
      && state.dirtyRatio == (if DirtyRatio in k.vm then k.vm[DirtyRatio] else 0)
      && state.dirtyBackgroundRatio == (if DirtyBackgroundRatio in k.vm then k.vm[DirtyBackgroundRatio] else 0)
    ensures var s := SnapshotOf(k, cpu);
      && s.cpuId == cpu
      && s.minFreq == (if cpu in k.minFreq then k.minFreq[cpu] else 0)
      && s.maxFreq == (if cpu in k.maxFreq then k.maxFreq[cpu] else 0)
      && (cpu !in k.governor ==> s.governor == "") && (cpu !in k.epp ==> s.epp == None)
  {
    ReadWordAtEnd("");
    hide CaptureCpus, CaptureIos, ReadWord, Stoi;
  }

  // ---------- The program ----------

  method CaptureCurrentState(kernel: Kernel, cores: seq<Core>, devices: seq<string>) returns (state: SystemStateBackup)
    ensures state == Capture(kernel.knobs, cores, devices)
  {
    hide SnapshotOf, CurrentScheduler;
    var cpus := [];
    for i := 0 to |cores|
      invariant CaptureCpus(kernel.knobs, cores) == cpus + CaptureCpus(kernel.knobs, cores[i..])
    {
      assert cores[i..][1..] == cores[i + 1..];
      if cores[i].online {
        cpus := cpus + [SnapshotOf(kernel.knobs, cores[i].cpuId)];
      }
    }
    var ios := [];
    for i := 0 to |devices|
      invariant CaptureIos(kernel.knobs, devices) == ios + CaptureIos(kernel.knobs, devices[i..])
    {
      assert devices[i..][1..] == devices[i + 1..];
      ios := ios + [IoScheduler(devices[i], CurrentScheduler(kernel.knobs, devices[i]))];
    }
    state := SystemStateBackup(
      ReadSysctl(kernel.knobs, Swappiness), ReadSysctl(kernel.knobs, VfsCachePressure),
      ReadSysctl(kernel.knobs, DirtyRatio), ReadSysctl(kernel.knobs, DirtyBackgroundRatio), cpus, ios);
  }

  /** `Governor::restore`: all writes are tried; the result says whether all succeeded. */
  method RestoreCpu(kernel: Kernel, cpu: CpuFreqState, refused: set<Write>) returns (success: bool)
    modifies kernel
    ensures kernel.knobs == DoAll(old(kernel.knobs), CpuWrites(cpu), refused)
    ensures success == forall w <- CpuWrites(cpu) :: Succeeds(old(kernel.knobs), w, refused)
  {
    hide Do;
    ghost var k := kernel.knobs;
    ghost var ws := CpuWrites(cpu);
    assert ws[..1] == [ws[0]] && ws[..2] == [ws[0], ws[1]] && ws[..3] == [ws[0], ws[1], ws[2]];
    var done := kernel.Write(SetGovernor(cpu.cpuId, cpu.governor), refused);
    success := done;
    StepOfAll(k, ws, 1, refused);
    done := kernel.Write(SetMinFreq(cpu.cpuId, cpu.minFreq), refused);
    success := success && done;
    StepOfAll(k, ws, 2, refused);
    done := kernel.Write(SetMaxFreq(cpu.cpuId, cpu.maxFreq), refused);
    success := success && done;
    StepOfAll(k, ws, 3, refused);
    if cpu.epp.Some? {
      done := kernel.Write(SetEpp(cpu.cpuId, cpu.epp.value), refused);
      success := success && done;
      StepOfAll(k, ws, 4, refused);
    }
    assert ws[..|ws|] == ws;
  }

  /** The first `n` of several writes: one more write, and it succeeds as it would have at first. */
  lemma StepOfAll(k: Knobs, ws: seq<Write>, n: nat, refused: set<Write>)
    requires 0 < n <= |ws|
    ensures var before := DoAll(k, ws[..n - 1], refused);
      && DoAll(k, ws[..n], refused) == Do(before, ws[n - 1], refused)
      && Succeeds(before, ws[n - 1], refused) == Succeeds(k, ws[n - 1], refused)
  {
    hide Do;
    var before := DoAll(k, ws[..n - 1], refused);
    assert ws[..n] == ws[..n - 1] + [ws[n - 1]];
    DoAllConcat(k, ws[..n - 1], [ws[n - 1]], refused);
    DoAllKeepsFiles(k, ws[..n - 1], refused);
    SameFilesAccept(k, before, ws[n - 1]);
  }

  method RestoreState(kernel: Kernel, state: SystemStateBackup, refused: set<Write>)
    modifies kernel
    ensures kernel.knobs == DoAll(old(kernel.knobs), RestoreWrites(state), refused)
  {
    hide Do, CpuWrites;
    ghost var k := kernel.knobs;
    ghost var vm, ios := VmWrites(state), IoWrites(state.ios);
    for i := 0 to |state.cpus|
      invariant DoAll(k, AllCpuWrites(state.cpus), refused)
             == DoAll(kernel.knobs, AllCpuWrites(state.cpus[i..]), refused)
    {
      assert state.cpus[i..][1..] == state.cpus[i + 1..];
      DoAllConcat(kernel.knobs, CpuWrites(state.cpus[i]), AllCpuWrites(state.cpus[i + 1..]), refused);
      var success := RestoreCpu(kernel, state.cpus[i], refused);
    }
    DoAllConcat(k, AllCpuWrites(state.cpus), vm, refused);
    DoAllConcat(k, AllCpuWrites(state.cpus) + vm, ios, refused);
    RestoreVm(kernel, state, refused);
    for i := 0 to |state.ios|
      invariant DoAll(k, RestoreWrites(state), refused) == DoAll(kernel.knobs, IoWrites(state.ios[i..]), refused)
    {
      assert state.ios[i..][1..] == state.ios[i + 1..];
      var done := kernel.Write(SetScheduler(state.ios[i].device, state.ios[i].scheduler), refused);
    }
  }

  method RestoreVm(kernel: Kernel, state: SystemStateBackup, refused: set<Write>)
    modifies kernel
    ensures kernel.knobs == DoAll(old(kernel.knobs), VmWrites(state), refused)
  {
    hide Do;
    ghost var k := kernel.knobs;
    ghost var ws := VmWrites(state);
    assert ws[..1] == [ws[0]] && ws[..2] == [ws[0], ws[1]] && ws[..3] == [ws[0], ws[1], ws[2]] && ws[..4] == ws;
    var done := kernel.Write(SetVm(Swappiness, state.swappiness), refused);
    StepOfAll(k, ws, 1, refused);
    done := kernel.Write(SetVm(VfsCachePressure, state.vfsCachePressure), refused);
    StepOfAll(k, ws, 2, refused);
    done := kernel.Write(SetVm(DirtyRatio, state.dirtyRatio), refused);
    StepOfAll(k, ws, 3, refused);
    done := kernel.Write(SetVm(DirtyBackgroundRatio, state.dirtyBackgroundRatio), refused);
    StepOfAll(k, ws, 4, refused);
  }

  // ---------- The writes of a restore ----------

  /** `w` writes back what was read from `k0`. */
  ghost predicate Captured(k0: Knobs, w: Write) {
    match w
    case SetGovernor(cpu, name) => name == CurrentGovernor(k0, cpu)
    case SetMinFreq(cpu, freq) => freq == Get(k0.minFreq, cpu, 0)
    case SetMaxFreq(cpu, freq) => freq == Get(k0.maxFreq, cpu, 0)
    case SetEpp(cpu, value) => CurrentEpp(k0, cpu) == Some(value)
    case SetScheduler(device, name) => name == CurrentScheduler(k0, device)
    case SetLatency(_, _, _) => false
    case SetVm(sysctl, value) => value == ReadSysctl(k0, sysctl)
  }

  predicate SameKnob(a: Write, b: Write) {
    match a
    case SetGovernor(cpu, _) => b.SetGovernor? && b.cpu == cpu
    case SetMinFreq(cpu, _) => b.SetMinFreq? && b.cpu == cpu
    case SetMaxFreq(cpu, _) => b.SetMaxFreq? && b.cpu == cpu
    case SetEpp(cpu, _) => b.SetEpp? && b.cpu == cpu
    case SetScheduler(device, _) => b.SetScheduler? && b.device == device
    case SetLatency(device, _, _) => b.SetLatency? && b.device == device
    case SetVm(sysctl, _) => b.SetVm? && b.sysctl == sysctl
  }

  lemma CapturedOnce(k0: Knobs, a: Write, b: Write)
    requires Captured(k0, a) && Captured(k0, b) && SameKnob(a, b)
    ensures a == b
  {
    hide CurrentGovernor, CurrentEpp, CurrentScheduler;
  }

  /** A write leaves every other knob showing what it showed. */
  lemma OtherKnobShows(k: Knobs, w: Write, v: Write, refused: set<Write>)
    requires Shows(k, w) && (SameKnob(w, v) ==> w == v)
    ensures Shows(Do(k, v, refused), w)
  {
    hide IntText;
  }

  lemma {:induction false} StillShows(k: Knobs, w: Write, ws: seq<Write>, refused: set<Write>)
    requires Shows(k, w)
    requires forall v <- ws :: SameKnob(w, v) ==> w == v
    ensures Shows(DoAll(k, ws, refused), w)
    decreases ws
  {
    hide Shows, Do, SameKnob;
    if ws != [] {
      assert SameKnob(w, ws[0]) ==> w == ws[0];
      OtherKnobShows(k, w, ws[0], refused);
      StillShows(Do(k, ws[0], refused), w, ws[1..], refused);
    }
  }

  lemma WrittenIsShown(k: Knobs, w: Write, refused: set<Write>)
    requires Succeeds(k, w, refused)
    ensures Shows(Do(k, w, refused), w)
  {
    hide IntText;
  }

  /** A write that succeeds still shows after all writes if no other one is for its knob. */
  lemma {:induction false} OnlyWriteShows(k: Knobs, ws: seq<Write>, w: Write, refused: set<Write>)
    requires w in ws && Succeeds(k, w, refused)
    requires forall v <- ws :: SameKnob(w, v) ==> w == v
    ensures Shows(DoAll(k, ws, refused), w)
    decreases ws
  {
    hide Shows, Do, SameKnob, Accepts;
    var k1 := Do(k, ws[0], refused);
    if w == ws[0] {
      WrittenIsShown(k, w, refused);
      StillShows(k1, w, ws[1..], refused);
    } else {
      DoKeepsFiles(k, ws[0], refused);
      SameFilesAccept(k, k1, w);
      OnlyWriteShows(k1, ws[1..], w, refused);
    }
  }

  /** After the writes of a restore every knob whose write succeeds shows the captured value. */
  lemma RestoredShows(k0: Knobs, k: Knobs, ws: seq<Write>, refused: set<Write>)
    requires forall w <- ws :: Captured(k0, w)
    ensures forall w <- ws :: Succeeds(k, w, refused) ==> Shows(DoAll(k, ws, refused), w)
  {
    hide Captured, Shows, Do, SameKnob, Accepts;
    forall w <- ws | Succeeds(k, w, refused) ensures Shows(DoAll(k, ws, refused), w) {
      forall v <- ws ensures SameKnob(w, v) ==> w == v {
        if SameKnob(w, v) {
          CapturedOnce(k0, w, v);
        }
      }
      OnlyWriteShows(k, ws, w, refused);
    }
  }

  /** A device keeps its scheduler when every write of it is for a scheduler it does not offer. */
  lemma {:induction false} SchedulerLeftAlone(k: Knobs, ws: seq<Write>, device: string, refused: set<Write>)
    requires device in k.scheduler
    requires forall w <- ws :: w.SetScheduler? && w.device == device ==> !Accepts(k, w)
    ensures var k' := DoAll(k, ws, refused); device in k'.scheduler && k'.scheduler[device] == k.scheduler[device]
    decreases ws
  {
    hide Accepts;
    if ws != [] {
      var k1 := Do(k, ws[0], refused);
      DoKeepsFiles(k, ws[0], refused);
      RejectedLeavesScheduler(k, ws[0], device, refused);
      hide Do, SameFiles;
      forall w <- ws[1..] ensures w.SetScheduler? && w.device == device ==> !Accepts(k1, w) {
        SameFilesAccept(k, k1, w);
      }
      SchedulerLeftAlone(k1, ws[1..], device, refused);
    }
  }

  lemma RejectedLeavesScheduler(k: Knobs, w: Write, device: string, refused: set<Write>)
    requires device in k.scheduler && (w.SetScheduler? && w.device == device ==> !Accepts(k, w))
    ensures var k' := Do(k, w, refused); device in k'.scheduler && k'.scheduler[device] == k.scheduler[device]
  {
    hide IntText;
  }

  lemma {:induction false} CpuWritesCaptured(k0: Knobs, cores: seq<Core>)
    ensures forall w <- AllCpuWrites(CaptureCpus(k0, cores)) ::
      && Captured(k0, w)
      && !w.SetScheduler? && !w.SetVm? && !w.SetLatency?
    ensures forall core <- cores :: core.online ==>
      forall w <- CpuWrites(SnapshotOf(k0, core.cpuId)) :: w in AllCpuWrites(CaptureCpus(k0, cores))
  {
    if cores != [] {
      var rest := cores[1..];
      CpuWritesCaptured(k0, rest);
      if cores[0].online {
        var cpu := SnapshotOf(k0, cores[0].cpuId);
        CpuWritesOfSnapshot(k0, cores[0].cpuId);
        assert CaptureCpus(k0, cores) == [cpu] + CaptureCpus(k0, rest);
        assert AllCpuWrites(CaptureCpus(k0, cores)) == CpuWrites(cpu) + AllCpuWrites(CaptureCpus(k0, rest));
      } else {
        assert CaptureCpus(k0, cores) == CaptureCpus(k0, rest);
      }
      hide CpuWrites, SnapshotOf, Captured;
    }
  }

  lemma CpuWritesOfSnapshot(k0: Knobs, cpu: int)
    ensures forall w <- CpuWrites(SnapshotOf(k0, cpu)) ::
      Captured(k0, w) && !w.SetScheduler? && !w.SetVm? && !w.SetLatency?
  {
    hide CurrentGovernor, CurrentEpp;
  }

  lemma {:induction false} IoWritesCaptured(k0: Knobs, devices: seq<string>)
    ensures forall w <- IoWrites(CaptureIos(k0, devices)) :: w.SetScheduler? && Captured(k0, w)
    ensures forall d <- devices :: SetScheduler(d, CurrentScheduler(k0, d)) in IoWrites(CaptureIos(k0, devices))
  {
    hide CurrentScheduler;
    if devices != [] {
      IoWritesCaptured(k0, devices[1..]);
      assert CaptureIos(k0, devices)[1..] == CaptureIos(k0, devices[1..]);
    }
  }

  lemma {:induction false} IosCaptured(k0: Knobs, devices: seq<string>)
    ensures var ios := CaptureIos(k0, devices);
      |ios| == |devices| &&
      forall i :: 0 <= i < |ios| ==> ios[i] == IoScheduler(devices[i], CurrentScheduler(k0, devices[i]))
  {
    hide CurrentScheduler;
    if devices != [] {
      IosCaptured(k0, devices[1..]);
      assert CaptureIos(k0, devices)
          == [IoScheduler(devices[0], CurrentScheduler(k0, devices[0]))] + CaptureIos(k0, devices[1..]);
    }
  }

  lemma CoreWritesCaptured(k0: Knobs, cores: seq<Core>, devices: seq<string>)
    ensures var ws := CoreWrites(Capture(k0, cores, devices));
      && (forall w <- ws :: Captured(k0, w) && !w.SetScheduler?)
      && (forall core <- cores :: core.online ==> forall w <- CpuWrites(SnapshotOf(k0, core.cpuId)) :: w in ws)
      && (forall s: Sysctl :: SetVm(s, ReadSysctl(k0, s)) in ws)
  {
    var state := Capture(k0, cores, devices);
    CpuWritesCaptured(k0, cores);
    assert forall s: Sysctl :: SetVm(s, ReadSysctl(k0, s)) in VmWrites(state);
    assert forall w <- VmWrites(state) :: Captured(k0, w);
    hide CpuWrites, SnapshotOf, Captured, VmWrites, ReadSysctl;
  }

  lemma {:induction false} IoWritesNamed(ios: seq<IoScheduler>)
    ensures forall w <- IoWrites(ios) :: w.SetScheduler? && IoScheduler(w.device, w.scheduler) in ios
    ensures forall io <- ios :: SetScheduler(io.device, io.scheduler) in IoWrites(ios)
  {
    if ios != [] {
      IoWritesNamed(ios[1..]);
      assert ios == [ios[0]] + ios[1..];
    }
  }

  /** The restore of a captured state writes back, for every captured core and device and every
      sysctl, what was read, and nothing else. */
  lemma RestoreWritesCaptured(k0: Knobs, cores: seq<Core>, devices: seq<string>)
    ensures var ws := RestoreWrites(Capture(k0, cores, devices));
      && (forall w <- ws :: Captured(k0, w))
      && (forall core <- cores :: core.online ==> forall w <- CpuWrites(SnapshotOf(k0, core.cpuId)) :: w in ws)
      && (forall d <- devices :: SetScheduler(d, CurrentScheduler(k0, d)) in ws)
      && (forall s: Sysctl :: SetVm(s, ReadSysctl(k0, s)) in ws)
  {
    hide CpuWrites, SnapshotOf, Captured, CurrentScheduler, ReadSysctl, CoreWrites;
    CoreWritesCaptured(k0, cores, devices);
    IoWritesCaptured(k0, devices);
  }
}
