/** `run_start_command`: capture, save, tune until stopped, load, restore; and the theorem that
    a stopped run leaves the settings it found. */
module Lifecycle {
  import opened Text
  import opened Stream
  import opened Kernel
  import opened StateBackup
  import opened Alignment
  import opened PolicyEngine
  import opened PolicyInvariants
  import opened PlainPolicy
  import PolicyTheorems
  import opened Restore

  /** How a launched process ends. `Terminated` is the uncaught exception of `load`. */
  datatype Outcome = Exited(code: nat) | Terminated

  /** The pid file and the processes that exist. */
  class DaemonControl {
    var file: Option<int>
    var alive: set<int>

    constructor (alive: set<int>)
      ensures file == None && this.alive == alive
    {
      file := None;
      this.alive := alive;
    }

    predicate IsRunning()
      reads this
    {
      file.Some? && file.value > 0 && file.value in alive
    }

    method WritePidFile(pid: int, canOpen: bool) returns (ok: bool)
      modifies `file
      ensures ok == canOpen && file == if ok then Some(pid) else old(file)
    {
      ok := canOpen;
      if ok {
        file := Some(pid);
      }
    }

    method RemovePidFile() returns (ok: bool)
      modifies `file
      ensures file == None && ok == old(file).Some?
    {
      ok := file.Some?;
      file := None;
    }

    /** The process that `stop` signals. */
    method SendStopSignal() returns (target: Option<int>)
      ensures target == if file.Some? && file.value > 0 && file.value in alive then file else None
    {
      target := if IsRunning() then file else None;
    }
  }

  /** The knobs after a run has been stopped and the loaded snapshot written back. */
  function FinalKnobs(k0: Knobs, cores: seq<Core>, devices: seq<string>, engineCores: seq<Core>,
                      start: StartInput, ts: seq<TickInput>, refused: set<Write>): Knobs
  {
    var k := Run(k0, engineCores, start, ts).knobs;
    match LoadText(SaveText(Capture(k0, cores, devices)))
    case Loaded(state) => DoAll(k, RestoreWrites(state), refused)
    case _ => k
  }

  /** The engine discovers its cores again, so they need not be the captured ones. `opens` and
      `room` decide whether the snapshot is saved, `writesPid` whether the pid file is written,
      and `refused` are the writes that fail during the restore. Only a start in the foreground
      gives up when the pid file cannot be written. */
  method RunStart(kernel: Kernel, backup: StateBackup, control: DaemonControl, pid: int, foreground: bool,
                  cores: seq<Core>, devices: seq<string>, engineCores: seq<Core>,
                  opens: bool, room: nat, writesPid: bool,
                  start: StartInput, ts: seq<TickInput>, refused: set<Write>)
      returns (outcome: Outcome)
    modifies kernel, backup, control
    ensures var text := SaveText(Capture(old(kernel.knobs), cores, devices));
      var running := old(control.file.Some? && control.file.value > 0 && control.file.value in control.alive);
      if running || !opens || room < |text| || (foreground && !writesPid) then
        outcome == Exited(1) && kernel.knobs == old(kernel.knobs) && control.file == old(control.file)
      else
        && kernel.knobs == FinalKnobs(old(kernel.knobs), cores, devices, engineCores, start, ts, refused)
        && backup.file == Some(text)
        && outcome == (if LoadText(text) == Threw then Terminated else Exited(0))
        && control.file == (if outcome == Exited(0) then None else if writesPid then Some(pid) else old(control.file))
  {
    hide SaveText, LoadText, RestoreWrites, Capture, Ticks, ApplyInitialState;
    if control.IsRunning() {
      return Exited(1);
    }
    var state := CaptureCurrentState(kernel, cores, devices);
    var saved := backup.Save(state, opens, room);
    if !saved {
      return Exited(1);
    }
    var written := control.WritePidFile(pid, writesPid);
    if foreground && !written {
      return Exited(1);
    }
    var engine := new PolicyEngine(kernel, engineCores);
    engine.RunUntilStopped(start, ts);
    var loaded := backup.Load();
    match loaded {
      case Threw =>
        return Terminated;
      case NoFile =>
      case Loaded(restored) =>
        RestoreState(kernel, restored, refused);
    }
    var removed := control.RemovePidFile();
    outcome := Exited(0);
  }

  // ---------- What is loaded ----------

  /** Every online core has a governor, whose file holds one word. */
  ghost predicate Governed(k0: Knobs, cores: seq<Core>) {
    forall core <- cores :: core.online ==> core.cpuId in k0.governor && IsWord(k0.governor[core.cpuId])
  }

  lemma GovernorIsRead(k0: Knobs, cpu: int)
    requires cpu in k0.governor && IsWord(k0.governor[cpu])
    ensures CurrentGovernor(k0, cpu) == k0.governor[cpu]
  {
    var name := k0.governor[cpu];
    ReadWordAt("", name, "");
    assert "" + (name + "") == name;
  }

  lemma EppInRange(k0: Knobs, cpu: int)
    ensures var epp := CurrentEpp(k0, cpu); epp.Some? ==> IsInt32(epp.value)
  {
    hide ReadWord, ReadNumeral, SkipSpaces;
  }

  lemma {:induction false} GovernedIsNamed(k0: Knobs, cores: seq<Core>)
    requires Governed(k0, cores)
    ensures GovernorsNamed(CaptureCpus(k0, cores))
  {
    hide CurrentGovernor, CurrentEpp, IsWord;
    if cores != [] {
      assert cores[0] in cores;
      GovernedIsNamed(k0, cores[1..]);
      if cores[0].online {
        GovernorIsRead(k0, cores[0].cpuId);
        WordIsNotEmpty(k0.governor[cores[0].cpuId]);
      }
    }
  }

  lemma WordIsNotEmpty(s: string)
    requires IsWord(s)
    ensures s != ""
  {
  }

  /** The captured state with its devices as the reader pairs up their words. */
  function LoadedState(k0: Knobs, cores: seq<Core>, devices: seq<string>): SystemStateBackup {
    Capture(k0, cores, devices).(ios := ReadIos(CaptureIos(k0, devices)))
  }

  /** With a governor on every online core the snapshot is loaded, whatever the devices are; it is
      the captured one exactly when every device but the last has an active scheduler. */
  lemma CapturedIsLoaded(k0: Knobs, cores: seq<Core>, devices: seq<string>)
    requires InRange(Capture(k0, cores, devices)) && Governed(k0, cores)
    ensures LoadText(SaveText(Capture(k0, cores, devices))) == Loaded(LoadedState(k0, cores, devices))
    ensures LoadedState(k0, cores, devices) == Capture(k0, cores, devices)
       <==> forall i :: 0 <= i < |devices| - 1 ==> CurrentScheduler(k0, devices[i]) != ""
  {
    hide LoadText, SaveText, CaptureCpus, CaptureIos, CpuInRange, Governed, ReadSysctl, PairUp, Words, CurrentScheduler;
    var state := Capture(k0, cores, devices);
    GovernedIsNamed(k0, cores);
    LoadWithGovernors(state);
    IosCaptured(k0, devices);
    assert forall io <- state.ios :: IoInRange(io);
    PairUpExact(state.ios);
  }

  lemma FinalKnobsAre(k0: Knobs, cores: seq<Core>, devices: seq<string>, engineCores: seq<Core>,
                      start: StartInput, ts: seq<TickInput>, refused: set<Write>)
    requires InRange(Capture(k0, cores, devices)) && Governed(k0, cores)
    ensures FinalKnobs(k0, cores, devices, engineCores, start, ts, refused)
         == DoAll(Run(k0, engineCores, start, ts).knobs, RestoreWrites(LoadedState(k0, cores, devices)), refused)
  {
    hide LoadText, SaveText, LoadedState, RestoreWrites, Run, InRange, Governed;
    CapturedIsLoaded(k0, cores, devices);
  }

  // ---------- Cores and sysctls ----------

  /** Governor, minimum, maximum and any EPP that reads as a number, each unless its own restoring
      write is refused. */
  ghost predicate CpuRestored(k0: Knobs, k: Knobs, cpu: int, refused: set<Write>) {
    var epp := CurrentEpp(k0, cpu);
    && cpu in k.governor && cpu in k0.governor
    && (SetGovernor(cpu, k0.governor[cpu]) !in refused ==> k.governor[cpu] == k0.governor[cpu])
    && (SetMinFreq(cpu, Get(k0.minFreq, cpu, 0)) !in refused ==> Get(k.minFreq, cpu, 0) == Get(k0.minFreq, cpu, 0))
    && (SetMaxFreq(cpu, Get(k0.maxFreq, cpu, 0)) !in refused ==> Get(k.maxFreq, cpu, 0) == Get(k0.maxFreq, cpu, 0))
    && (epp.Some? && SetEpp(cpu, epp.value) !in refused ==> CurrentEpp(k, cpu) == epp)
  }

  /** Every online core and every sysctl, each knob unless its own restoring write is refused. */
  ghost predicate CoresRestored(k0: Knobs, k: Knobs, cores: seq<Core>, refused: set<Write>) {
    && SameFiles(k0, k)
    && (forall core <- cores :: core.online ==> CpuRestored(k0, k, core.cpuId, refused))
    && (forall s <- k0.vm :: SetVm(s, k0.vm[s]) !in refused ==> k.vm[s] == k0.vm[s])
  }

  lemma EppShown(k: Knobs, cpu: int, value: int)
    requires Shows(k, SetEpp(cpu, value)) && IsInt32(value)
    ensures CurrentEpp(k, cpu) == Some(value)
  {
    DecimalIsWord(value);
    ReadWordAt("", IntText(value), "");
    assert "" + (IntText(value) + "") == IntText(value);
    StoiInvertsIntText(value);
  }

  lemma EppKnobExists(k0: Knobs, cpu: int)
    requires CurrentEpp(k0, cpu).Some?
    ensures cpu in k0.epp
  {
    hide Stoi, ReadWord;
  }

  /** A core is back as far as its successful writes show. */
  lemma CpuShows(k0: Knobs, k: Knobs, cpu: int, refused: set<Write>)
    requires SameFiles(k0, k) && cpu in k0.governor && IsWord(k0.governor[cpu])
    requires forall w <- CpuWrites(SnapshotOf(k0, cpu)) :: Succeeds(k0, w, refused) ==> Shows(k, w)
    ensures CpuRestored(k0, k, cpu, refused)
  {
    hide CurrentGovernor, CurrentEpp, IsWord, IsInt32, IntText;
    GovernorIsRead(k0, cpu);
    var s := SnapshotOf(k0, cpu);
    var ws := CpuWrites(s);
    assert ws[0] == SetGovernor(cpu, s.governor) && ws[0] in ws && Accepts(k0, ws[0]);
    assert ws[1] == SetMinFreq(cpu, s.minFreq) && ws[1] in ws;
    assert ws[2] == SetMaxFreq(cpu, s.maxFreq) && ws[2] in ws;
    if s.epp.Some? && SetEpp(cpu, s.epp.value) !in refused {
      assert ws[3] == SetEpp(cpu, s.epp.value) && ws[3] in ws;
      EppKnobExists(k0, cpu);
      EppInRange(k0, cpu);
      EppShown(k, cpu, s.epp.value);
    }
  }

  /** The successful writes of cores and sysctls show after the whole restore: no device write is
      for one of their knobs. */
  lemma CoreWritesShow(k0: Knobs, k: Knobs, cores: seq<Core>, devices: seq<string>, ios: seq<IoScheduler>,
                       refused: set<Write>)
    requires SameFiles(k0, k)
    ensures var state := Capture(k0, cores, devices);
      forall w <- CoreWrites(state) ::
        Succeeds(k0, w, refused) ==> Shows(DoAll(k, CoreWrites(state) + IoWrites(ios), refused), w)
  {
    hide Accepts, Shows, Captured, CpuWrites, SnapshotOf, Capture, CoreWrites, ReadSysctl, IoWrites, Do, SameFiles;
    var core, io := CoreWrites(Capture(k0, cores, devices)), IoWrites(ios);
    CoreWritesCaptured(k0, cores, devices);
    IoWritesNamed(ios);
    RestoredShows(k0, k, core, refused);
    DoAllConcat(k, core, io, refused);
    var k1 := DoAll(k, core, refused);
    forall w <- core | Succeeds(k0, w, refused) ensures Shows(DoAll(k1, io, refused), w) {
      SameFilesAccept(k0, k, w);
      StillShows(k1, w, io, refused);
    }
  }

  /** Knobs that show every successful core and sysctl write are restored so far. */
  lemma ShownIsRestored(k0: Knobs, k: Knobs, cores: seq<Core>, devices: seq<string>, refused: set<Write>)
    requires Governed(k0, cores) && SameFiles(k0, k)
    requires forall w <- CoreWrites(Capture(k0, cores, devices)) :: Succeeds(k0, w, refused) ==> Shows(k, w)
    ensures CoresRestored(k0, k, cores, refused)
  {
    CoreWritesCaptured(k0, cores, devices);
    hide CoreWrites, Captured, CpuWrites, SnapshotOf, CpuRestored, Capture;
    forall core <- cores | core.online ensures CpuRestored(k0, k, core.cpuId, refused) {
      CpuShows(k0, k, core.cpuId, refused);
    }
    forall s <- k0.vm | SetVm(s, k0.vm[s]) !in refused ensures k.vm[s] == k0.vm[s] {
      assert Accepts(k0, SetVm(s, ReadSysctl(k0, s)));
    }
  }

  /** Whatever the run read, whichever of its writes failed and whatever devices were listed, a
      stopped run has every knob of the captured cores and every sysctl back as it found it, each
      unless its own restoring write is refused. */
  lemma StoppedRunRestores(k0: Knobs, cores: seq<Core>, devices: seq<string>, engineCores: seq<Core>,
                           start: StartInput, ts: seq<TickInput>, refused: set<Write>)
    requires InRange(Capture(k0, cores, devices)) && Governed(k0, cores)
    ensures CoresRestored(k0, FinalKnobs(k0, cores, devices, engineCores, start, ts, refused), cores, refused)
  {
    hide InRange, Governed, ReadIos, Capture, CoreWrites, IoWrites, Run, CoresRestored, FinalKnobs, Accepts, Shows;
    var run, loaded := Run(k0, engineCores, start, ts).knobs, LoadedState(k0, cores, devices);
    FinalKnobsAre(k0, cores, devices, engineCores, start, ts, refused);
    PolicyTheorems.RunKeepsFiles(k0, engineCores, start, ts);
    CachedRunIsPlainRun(k0, engineCores, start, ts);
    SameCoreWrites(Capture(k0, cores, devices), loaded.ios);
    CoreWritesShow(k0, run, cores, devices, loaded.ios, refused);
    DoAllKeepsFiles(run, RestoreWrites(loaded), refused);
    SameFilesTransitive(k0, run, DoAll(run, RestoreWrites(loaded), refused));
    ShownIsRestored(k0, DoAll(run, RestoreWrites(loaded), refused), cores, devices, refused);
  }

  lemma SameCoreWrites(state: SystemStateBackup, ios: seq<IoScheduler>)
    ensures RestoreWrites(state.(ios := ios)) == CoreWrites(state) + IoWrites(ios)
  {
  }

  // ---------- Schedulers ----------

  /** Devices are listed once, scheduler names are plain words, and no listed device has the name
      of a scheduler that some device offers. */
  ghost predicate ProperNames(k0: Knobs, devices: seq<string>) {
    && (forall i, j :: 0 <= i < j < |devices| ==> devices[i] != devices[j])
    && (forall d <- k0.scheduler, name <- k0.scheduler[d].choices :: PlainName(name) && name !in devices)
  }

  /** The device has an active scheduler, and an even number of devices listed before it has
      none. */
  ghost predicate ReadBack(k0: Knobs, devices: seq<string>, i: nat)
    requires i < |devices|
  {
    CurrentScheduler(k0, devices[i]) != "" && NamelessBefore(k0, devices, i) % 2 == 0
  }

  /** How many of the first `i` listed devices have no active scheduler. */
  function NamelessBefore(k0: Knobs, devices: seq<string>, i: nat): nat
    requires i <= |devices|
  {
    if i == 0 then 0 else
      NamelessBefore(k0, devices, i - 1) + if CurrentScheduler(k0, devices[i - 1]) == "" then 1 else 0
  }

  lemma {:induction false} NamelessBeforeIs(k0: Knobs, devices: seq<string>, i: nat)
    requires i <= |devices|
    ensures |CaptureIos(k0, devices)| == |devices|
    ensures NamelessBefore(k0, devices, i) == Nameless(CaptureIos(k0, devices), i)
  {
    hide CurrentScheduler, CaptureIos;
    IosCaptured(k0, devices);
    if i > 0 {
      NamelessBeforeIs(k0, devices, i - 1);
    }
  }

  /** What is read as a scheduler is empty or the active one of those the device offers. */
  lemma SchedulerIsOffered(k0: Knobs, devices: seq<string>, device: string)
    requires ProperNames(k0, devices)
    ensures var name := CurrentScheduler(k0, device);
            name != "" ==>
              && device in k0.scheduler && k0.scheduler[device].active == name
              && name in k0.scheduler[device].choices && name !in devices
  {
    if device in k0.scheduler {
      CurrentSchedulerIsActive(k0, device);
    }
    hide CurrentScheduler, PlainName;
  }

  lemma CapturedDistinct(k0: Knobs, devices: seq<string>)
    requires ProperNames(k0, devices) && forall d <- devices :: d != ""
    ensures Distinct(CaptureIos(k0, devices))
  {
    hide CurrentScheduler, CaptureIos;
    IosCaptured(k0, devices);
    forall j | 0 <= j < |devices| ensures CurrentScheduler(k0, devices[j]) !in devices {
      SchedulerIsOffered(k0, devices, devices[j]);
    }
    assert forall i :: 0 <= i < |devices| ==> devices[i] in devices;
  }

  lemma DeviceNotOffered(k0: Knobs, devices: seq<string>, device: string, name: string)
    requires ProperNames(k0, devices) && (name == "" || name in devices)
    ensures !Accepts(k0, SetScheduler(device, name))
  {
    assert !PlainName("");
  }

  /** A write of the loaded snapshot for a listed device is for its captured scheduler, which is
      active, or for one that no device offers. */
  lemma WriteForDevice(k0: Knobs, cores: seq<Core>, devices: seq<string>, i: nat, w: Write)
    requires InRange(Capture(k0, cores, devices)) && ProperNames(k0, devices) && i < |devices|
    requires w in RestoreWrites(LoadedState(k0, cores, devices)) && w.SetScheduler? && w.device == devices[i]
    ensures Accepts(k0, w) ==>
      ReadBack(k0, devices, i) && w == SetScheduler(devices[i], CurrentScheduler(k0, devices[i]))
    ensures CurrentScheduler(k0, devices[i]) != "" ==> w == SetScheduler(devices[i], CurrentScheduler(k0, devices[i]))
  {
    hide CurrentScheduler, CaptureCpus, CaptureIos, ReadIos, CpuInRange, ReadSysctl, IoWrites, Accepts, Nameless,
      CoreWrites;
    var ios := CaptureIos(k0, devices);
    IosCaptured(k0, devices);
    DevicesHaveNames(k0, cores, devices);
    CapturedDistinct(k0, devices);
    SameCoreWrites(Capture(k0, cores, devices), ReadIos(ios));
    CoreWritesCaptured(k0, cores, devices);
    IoWritesNamed(ReadIos(ios));
    hide RestoreWrites, LoadedState, Captured, CpuWrites, SnapshotOf, Capture, ProperNames, Distinct;
    RecordsOf(ios, i, IoScheduler(w.device, w.scheduler));
    if ios[i].scheduler == "" || IoScheduler(w.device, w.scheduler) != ios[i] {
      DeviceNotOffered(k0, devices, w.device, w.scheduler);
    } else {
      ReadBackExactly(ios, i);
      NamelessBeforeIs(k0, devices, i);
    }
  }

  lemma DevicesHaveNames(k0: Knobs, cores: seq<Core>, devices: seq<string>)
    requires InRange(Capture(k0, cores, devices))
    ensures forall d <- devices :: d != ""
  {
    hide CurrentScheduler, CaptureCpus, CpuInRange, ReadSysctl;
    IosCaptured(k0, devices);
    forall d <- devices ensures d != "" {
      var i :| 0 <= i < |devices| && devices[i] == d;
      assert IoInRange(CaptureIos(k0, devices)[i]);
    }
    hide CaptureIos;
  }

  /** A device that is read back is written its captured scheduler. */
  lemma ReadBackIsWritten(k0: Knobs, cores: seq<Core>, devices: seq<string>, i: nat)
    requires i < |devices| && ReadBack(k0, devices, i)
    ensures SetScheduler(devices[i], CurrentScheduler(k0, devices[i])) in RestoreWrites(LoadedState(k0, cores, devices))
  {
    hide CurrentScheduler, CaptureCpus, CaptureIos, ReadIos, ReadSysctl, IoWrites, Nameless, NamelessBefore, CoreWrites;
    var ios := CaptureIos(k0, devices);
    IosCaptured(k0, devices);
    NamelessBeforeIs(k0, devices, i);
    EvenIsRead(ios, i);
    IoWritesNamed(ReadIos(ios));
    assert ios[i] == IoScheduler(devices[i], CurrentScheduler(k0, devices[i]));
    SameCoreWrites(Capture(k0, cores, devices), ReadIos(ios));
  }

  /** After a stopped run a listed device has its captured scheduler if it has been read back and
      its write succeeds, and otherwise the one the run left it with. */
  lemma SchedulersAfterStop(k0: Knobs, cores: seq<Core>, devices: seq<string>, engineCores: seq<Core>,
                            start: StartInput, ts: seq<TickInput>, refused: set<Write>, i: nat)
    requires InRange(Capture(k0, cores, devices)) && Governed(k0, cores) && ProperNames(k0, devices)
    requires i < |devices| && devices[i] in k0.scheduler
    ensures var d := devices[i]; var run := Run(k0, engineCores, start, ts).knobs;
            var k := FinalKnobs(k0, cores, devices, engineCores, start, ts, refused);
      && d in k.scheduler && d in run.scheduler
      && k.scheduler[d] ==
           if ReadBack(k0, devices, i) && SetScheduler(d, k0.scheduler[d].active) !in refused
           then k0.scheduler[d] else run.scheduler[d]
  {
    hide InRange, Governed, LoadedState, RestoreWrites, Run, FinalKnobs, CurrentScheduler, Capture, NamelessBefore,
      ProperNames;
    FinalKnobsAre(k0, cores, devices, engineCores, start, ts, refused);
    PolicyTheorems.RunKeepsFiles(k0, engineCores, start, ts);
    CachedRunIsPlainRun(k0, engineCores, start, ts);
    SchedulerIsOffered(k0, devices, devices[i]);
    if ReadBack(k0, devices, i) {
      ReadBackIsWritten(k0, cores, devices, i);
    }
    forall w <- RestoreWrites(LoadedState(k0, cores, devices)) | w.SetScheduler? && w.device == devices[i]
      ensures Accepts(k0, w) ==> ReadBack(k0, devices, i) && w.scheduler == CurrentScheduler(k0, devices[i])
    {
      WriteForDevice(k0, cores, devices, i, w);
    }
    forall w <- RestoreWrites(LoadedState(k0, cores, devices)) | w.SetScheduler? && w.device == devices[i]
      ensures CurrentScheduler(k0, devices[i]) != "" ==> w.scheduler == CurrentScheduler(k0, devices[i])
    {
      WriteForDevice(k0, cores, devices, i, w);
    }
    OneSchedulerWrite(k0, Run(k0, engineCores, start, ts).knobs, RestoreWrites(LoadedState(k0, cores, devices)),
                      devices[i], ReadBack(k0, devices, i), refused);
  }

  /** Every device that is read back has its captured scheduler, unless that write is refused. */
  ghost predicate SchedulersRestored(k0: Knobs, k: Knobs, devices: seq<string>, refused: set<Write>) {
    forall i :: 0 <= i < |devices| && ReadBack(k0, devices, i) ==>
      var d := devices[i];
      && d in k.scheduler && d in k0.scheduler
      && (SetScheduler(d, k0.scheduler[d].active) !in refused ==> k.scheduler[d] == k0.scheduler[d])
  }

  lemma AllSchedulersAfterStop(k0: Knobs, cores: seq<Core>, devices: seq<string>, engineCores: seq<Core>,
                               start: StartInput, ts: seq<TickInput>, refused: set<Write>)
    requires InRange(Capture(k0, cores, devices)) && Governed(k0, cores) && ProperNames(k0, devices)
    ensures SchedulersRestored(k0, FinalKnobs(k0, cores, devices, engineCores, start, ts, refused), devices, refused)
  {
    hide InRange, Governed, ProperNames, Capture, FinalKnobs, Run, CurrentScheduler, NamelessBefore;
    var k := FinalKnobs(k0, cores, devices, engineCores, start, ts, refused);
    forall i | 0 <= i < |devices| && ReadBack(k0, devices, i)
      ensures var d := devices[i];
        && d in k.scheduler && d in k0.scheduler
        && (SetScheduler(d, k0.scheduler[d].active) !in refused ==> k.scheduler[d] == k0.scheduler[d])
    {
      SchedulerIsOffered(k0, devices, devices[i]);
      SchedulersAfterStop(k0, cores, devices, engineCores, start, ts, refused, i);
    }
  }

  /** A device all of whose accepted writes are for its first scheduler. */
  lemma OneSchedulerWrite(k0: Knobs, k: Knobs, ws: seq<Write>, d: string, written: bool, refused: set<Write>)
    requires SameFiles(k0, k) && d in k0.scheduler
    requires written ==>
      && k0.scheduler[d].active in k0.scheduler[d].choices
      && SetScheduler(d, k0.scheduler[d].active) in ws
      && forall w <- ws :: w.SetScheduler? && w.device == d ==> w.scheduler == k0.scheduler[d].active
    requires !written ==> forall w <- ws :: w.SetScheduler? && w.device == d ==> !Accepts(k0, w)
    ensures d in DoAll(k, ws, refused).scheduler
    ensures DoAll(k, ws, refused).scheduler[d] ==
      if written && SetScheduler(d, k0.scheduler[d].active) !in refused then k0.scheduler[d] else k.scheduler[d]
  {
    var w := SetScheduler(d, k0.scheduler[d].active);
    if written && w !in refused {
      OnlyWriteShows(k, ws, w, refused);
      DoAllKeepsFiles(k, ws, refused);
    } else if written {
      RefusedLeavesScheduler(k, ws, w, refused);
    } else {
      SchedulerLeftAlone(k, ws, d, refused);
    }
  }

  lemma {:induction false} RefusedLeavesScheduler(k: Knobs, ws: seq<Write>, w: Write, refused: set<Write>)
    requires w.SetScheduler? && w in refused && w.device in k.scheduler
    requires forall v <- ws :: v.SetScheduler? && v.device == w.device ==> v == w
    ensures var k' := DoAll(k, ws, refused);
            w.device in k'.scheduler && k'.scheduler[w.device] == k.scheduler[w.device]
    decreases ws
  {
    hide Do;
    if ws != [] {
      assert ws[0].SetScheduler? && ws[0].device == w.device ==> ws[0] == w;
      RefusedStep(k, ws[0], w, refused);
      RefusedLeavesScheduler(Do(k, ws[0], refused), ws[1..], w, refused);
    }
  }

  lemma RefusedStep(k: Knobs, v: Write, w: Write, refused: set<Write>)
    requires w.SetScheduler? && w in refused && w.device in k.scheduler
    requires v.SetScheduler? && v.device == w.device ==> v == w
    ensures var k' := Do(k, v, refused);
            w.device in k'.scheduler && k'.scheduler[w.device] == k.scheduler[w.device]
  {
    hide IntText;
  }

  // ---------- The whole program ----------

  /** Started with no daemon running and stopped after any readings, the program has put back
      every knob of the captured cores, every sysctl and the scheduler of every device that is read
      back, each unless its own restoring write is refused. */
  method StartAndStop(k0: Knobs, cores: seq<Core>, devices: seq<string>, engineCores: seq<Core>, pid: int,
                      start: StartInput, ts: seq<TickInput>, refused: set<Write>) returns (k: Knobs)
    requires InRange(Capture(k0, cores, devices)) && Governed(k0, cores) && ProperNames(k0, devices)
    ensures CoresRestored(k0, k, cores, refused) && SchedulersRestored(k0, k, devices, refused)
  {
    hide InRange, Governed, ProperNames, Capture, SaveText, LoadText, CoresRestored, FinalKnobs;
    var kernel := new Kernel(k0);
    var backup := new StateBackup();
    var control := new DaemonControl({});
    var room := |SaveText(Capture(k0, cores, devices))|;
    var outcome := RunStart(kernel, backup, control, pid, true, cores, devices, engineCores,
                            true, room, true, start, ts, refused);
    k := kernel.knobs;
    StoppedRunRestores(k0, cores, devices, engineCores, start, ts, refused);
    AllSchedulersAfterStop(k0, cores, devices, engineCores, start, ts, refused);
  }
}
