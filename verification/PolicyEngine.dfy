/** The control loop. The functions say what each policy does to the engine's maps and the knobs;
    the class runs them as the program does. */
module PolicyEngine {
  import opened Text
  import opened Kernel
  import opened MemGuard

  const THERMAL_PASSIVE: int := 85000
  const THERMAL_RECOVERY: int := 78000
  const NVME_READ_LATENCY: nat := 2000000
  const NVME_WRITE_LATENCY: nat := 10000000
  const IDLE_LOAD: real := 0.05
  const LIGHT_LOAD: real := 0.2
  const HEAVY_LOAD: real := 0.8
  const EPP_PERFORMANCE: int := 0
  const EPP_BALANCED: int := 128
  const EPP_POWER_SAVE: int := 200

  datatype Core = Core(cpuId: int, online: bool)

  datatype DiskKind = Nvme | SsdSata | Hdd | Unknown

  /** A listed block device: its name, its `queue/rotational` file and its requests in flight. */
  datatype Disk = Disk(name: string, rotational: Option<int>, inProgress: nat)

  datatype Level = Healthy | Rising | Critical
  datatype Activity = Idle | Light | Moderate | Heavy

  /** What one tick reads. Pressure, temperatures, load and the number of online cores are read
      twice, once in `tick` and once in the policy that uses them. `refused` holds the writes
      that fail during the tick, `processes` the processes found when memory is critical. */
  datatype TickInput = TickInput(
    pressure: real, zones: seq<int>, load: real, online: nat,
    policyZones: seq<int>, policyLoad: real, policyOnline: nat, policyPressure: real,
    disks: seq<Disk>, processes: seq<ProcessMemoryUsage>, refused: set<Write>)

  datatype Engine = Engine(
    original: map<int, nat>,
    current: map<int, nat>,
    governors: map<int, string>,
    epp: map<int, int>,
    schedulers: map<string, string>,
    knobs: Knobs)

  function NewEngine(knobs: Knobs): Engine {
    Engine(map[], map[], map[], map[], map[], knobs)
  }

  // ---------- Decisions ----------

  predicate IsNvme(name: string) {
    "nvme" <= name
  }

  /** `IoStorage::detect_kind`. */
  function DetectKind(disk: Disk): DiskKind {
    if IsNvme(disk.name) then Nvme
    else match disk.rotational
      case None => Unknown
      case Some(flag) => if flag == 1 then Hdd else SsdSata
  }

  /** `MemGuard::classify`. */
  function Classify(pressure: real): Level {
    if pressure > 20.0 then Critical else if pressure >= 5.0 then Rising else Healthy
  }

  predicate Exceeds(zones: seq<int>, limit: int) {
    exists i :: 0 <= i < |zones| && zones[i] > limit
  }

  function NormalizedLoad(load: real, online: nat): real {
    if online > 0 then load / online as real else 0.0
  }

  function ClassifyActivity(load: real, level: Level, thermalEvent: bool): Activity {
    if thermalEvent || level == Critical then Heavy
    else if level == Rising || load > HEAVY_LOAD then Moderate
    else if load > IDLE_LOAD then Light
    else Idle
  }

  function SleepInterval(activity: Activity): nat {
    match activity
    case Heavy => 200
    case Moderate => 1000
    case Light => 3000
    case Idle => 8000
  }

  function ActivityOf(t: TickInput): Activity {
    ClassifyActivity(NormalizedLoad(t.load, t.online), Classify(t.pressure), Exceeds(t.zones, THERMAL_PASSIVE))
  }

  function TargetEpp(activity: Activity, load: real): int {
    if activity == Idle then EPP_POWER_SAVE
    else if load > HEAVY_LOAD then EPP_PERFORMANCE
    else if load < LIGHT_LOAD then EPP_POWER_SAVE
    else EPP_BALANCED
  }

  /** The cap a thermal step asks for. */
  function TargetCap(original: nat, applied: nat, zones: seq<int>): nat {
    if Exceeds(zones, THERMAL_PASSIVE) then
      var reduced: nat := applied - applied / 20;
      if reduced < original / 2 then original / 2 else reduced
    else if !Exceeds(zones, THERMAL_RECOVERY) && applied < original then original
    else applied
  }

  function NextDirtyRatio(ratio: int): int {
    if ratio > 5 then ratio - 5 else 5
  }

  // ---------- Cached writes ----------

  function SetGovernorIfChanged(e: Engine, cpu: int, name: string, refused: set<Write>): Engine {
    var w := SetGovernor(cpu, name);
    if (cpu in e.governors && e.governors[cpu] == name) || !Succeeds(e.knobs, w, refused) then e
    else e.(governors := e.governors[cpu := name], knobs := Store(e.knobs, w))
  }

  function SetEppIfChanged(e: Engine, cpu: int, value: int, refused: set<Write>): Engine {
    var w := SetEpp(cpu, value);
    if (cpu in e.epp && e.epp[cpu] == value) || !Succeeds(e.knobs, w, refused) then e
    else e.(epp := e.epp[cpu := value], knobs := Store(e.knobs, w))
  }

  function SetSchedulerIfChanged(e: Engine, device: string, name: string, refused: set<Write>): Engine {
    var w := SetScheduler(device, name);
    if (device in e.schedulers && e.schedulers[device] == name) || !Succeeds(e.knobs, w, refused) then e
    else e.(schedulers := e.schedulers[device := name], knobs := Store(e.knobs, w))
  }

  // ---------- Policies ----------

  function InitCore(e: Engine, core: Core, refused: set<Write>): Engine {
    if !core.online then e else
      var e' := SetGovernorIfChanged(e, core.cpuId, "schedutil", refused);
      var cap := Get(e'.knobs.maxFreq, core.cpuId, 0);
      e'.(original := e'.original[core.cpuId := cap], current := e'.current[core.cpuId := cap])
  }

  function InitCores(e: Engine, cores: seq<Core>, refused: set<Write>): Engine
    decreases cores
  {
    if cores == [] then e else InitCores(InitCore(e, cores[0], refused), cores[1..], refused)
  }

  function InitDisk(e: Engine, disk: Disk, refused: set<Write>): Engine {
    match DetectKind(disk)
    case Nvme => SetSchedulerIfChanged(e, disk.name, "none", refused)
    case Hdd => SetSchedulerIfChanged(e, disk.name, "mq-deadline", refused)
    case _ => e
  }

  function InitDisks(e: Engine, disks: seq<Disk>, refused: set<Write>): Engine
    decreases disks
  {
    if disks == [] then e else InitDisks(InitDisk(e, disks[0], refused), disks[1..], refused)
  }

  function ApplyInitialState(e: Engine, cores: seq<Core>, disks: seq<Disk>, refused: set<Write>): Engine {
    InitDisks(InitCores(e, cores, refused), disks, refused)
  }

  /** One core of the thermal policy. Looking up a missing current cap inserts zero. */
  function ThermalCore(e: Engine, core: Core, zones: seq<int>, refused: set<Write>): Engine {
    if !core.online || core.cpuId !in e.original then e else
      var applied := Get(e.current, core.cpuId, 0);
      var target := TargetCap(e.original[core.cpuId], applied, zones);
      var w := SetMaxFreq(core.cpuId, target);
      if target != applied && Succeeds(e.knobs, w, refused) then
        e.(current := e.current[core.cpuId := target], knobs := Store(e.knobs, w))
      else e.(current := e.current[core.cpuId := applied])
  }

  function Thermal(e: Engine, cores: seq<Core>, zones: seq<int>, refused: set<Write>): Engine
    decreases cores
  {
    if cores == [] then e
    else Thermal(ThermalCore(e, cores[0], zones, refused), cores[1..], zones, refused)
  }

  function LoadCores(e: Engine, cores: seq<Core>, target: int, refused: set<Write>): Engine
    decreases cores
  {
    if cores == [] then e else
      var e' := if cores[0].online then SetEppIfChanged(e, cores[0].cpuId, target, refused) else e;
      LoadCores(e', cores[1..], target, refused)
  }

  function Load(e: Engine, cores: seq<Core>, activity: Activity, load: real, online: nat, refused: set<Write>): Engine {
    if online == 0 then e
    else LoadCores(e, cores, TargetEpp(activity, load / online as real), refused)
  }

  /** Reads of the sysctls, with the value the program assumes when the file is missing. */
  function ReadVfs(k: Knobs): int {
    Get(k.vm, VfsCachePressure, 100)
  }

  function ReadDirty(k: Knobs): int {
    Get(k.vm, DirtyRatio, 0)
  }

  function Memory(e: Engine, pressure: real, refused: set<Write>): Engine {
    if Classify(pressure) != Rising then e else
      var k := Do(e.knobs, SetVm(VfsCachePressure, ReadVfs(e.knobs) + 20), refused);
      e.(knobs := Do(k, SetVm(DirtyRatio, NextDirtyRatio(ReadDirty(k))), refused))
  }

  function IoDisk(e: Engine, disk: Disk, refused: set<Write>): Engine {
    if !IsNvme(disk.name) then e
    else if disk.inProgress > 4 then SetSchedulerIfChanged(e, disk.name, "mq-deadline", refused)
    else
      var e' := SetSchedulerIfChanged(e, disk.name, "none", refused);
      e'.(knobs := Do(e'.knobs, SetLatency(disk.name, NVME_READ_LATENCY, NVME_WRITE_LATENCY), refused))
  }

  function IoDisks(e: Engine, disks: seq<Disk>, refused: set<Write>): Engine
    decreases disks
  {
    if disks == [] then e else IoDisks(IoDisk(e, disks[0], refused), disks[1..], refused)
  }

  function Io(e: Engine, activity: Activity, disks: seq<Disk>, refused: set<Write>): Engine {
    if activity == Idle then e else IoDisks(e, disks, refused)
  }

  function Tick(e: Engine, cores: seq<Core>, t: TickInput): Engine {
    var e1 := Thermal(e, cores, t.policyZones, t.refused);
    var e2 := Load(e1, cores, ActivityOf(t), t.policyLoad, t.policyOnline, t.refused);
    var e3 := Memory(e2, t.policyPressure, t.refused);
    Io(e3, ActivityOf(t), t.disks, t.refused)
  }

  function Ticks(e: Engine, cores: seq<Core>, ts: seq<TickInput>): Engine
    decreases |ts|
  {
    if ts == [] then e else Tick(Ticks(e, cores, ts[..|ts| - 1]), cores, ts[|ts| - 1])
  }

  /** The devices and failures that `apply_initial_state` meets. */
  datatype StartInput = StartInput(disks: seq<Disk>, refused: set<Write>)

  /** The engine after the initial state and the given ticks, started on the given knobs. */
  function Run(k0: Knobs, cores: seq<Core>, start: StartInput, ts: seq<TickInput>): Engine {
    Ticks(ApplyInitialState(NewEngine(k0), cores, start.disks, start.refused), cores, ts)
  }

  // ---------- The program ----------

  method AnyExceeds(zones: seq<int>, limit: int) returns (found: bool)
    ensures found == Exceeds(zones, limit)
  {
    found := false;
    for i := 0 to |zones|
      invariant !Exceeds(zones[..i], limit)
    {
      if zones[i] > limit {
        return true;
      }
    }
    assert zones[..|zones|] == zones;
  }

  // ---------- Decisions by the numbers ----------

  ghost predicate AnyAbove(zones: seq<int>, limit: int) {
    exists zone <- zones :: zone > limit
  }

  /** The load is above this share of the online cores; without an online core it counts as none. */
  ghost predicate LoadAbove(load: real, share: real, online: nat) {
    online > 0 && load > share * online as real
  }

  ghost predicate LoadWithin(load: real, low: real, high: real, online: nat) {
    LoadAbove(load, low, online) && !LoadAbove(load, high, online)
  }

  /** What makes a tick idle. */
  ghost predicate SeesIdle(t: TickInput) {
    !AnyAbove(t.zones, 85000) && t.pressure < 5.0 && !LoadAbove(t.load, 0.05, t.online)
  }

  /** Which readings make a tick sleep how long. */
  ghost predicate SleepsBy(sleep: nat, t: TickInput) {
    var hot := AnyAbove(t.zones, 85000);
    && (sleep == 200 <==> hot || t.pressure > 20.0)
    && (sleep == 1000 <==> !hot && t.pressure <= 20.0 && (t.pressure >= 5.0 || LoadAbove(t.load, 0.8, t.online)))
    && (sleep == 3000 <==> !hot && t.pressure < 5.0 && LoadWithin(t.load, 0.05, 0.8, t.online))
    && (sleep == 8000 <==> SeesIdle(t))
  }

  lemma ExceedsIs(zones: seq<int>, limit: int)
    ensures Exceeds(zones, limit) <==> AnyAbove(zones, limit)
  {
    if Exceeds(zones, limit) {
      var i :| 0 <= i < |zones| && zones[i] > limit;
      assert zones[i] in zones;
    }
    if zone :| zone in zones && zone > limit {
      var i :| 0 <= i < |zones| && zones[i] == zone;
    }
  }

  lemma Normalized(load: real, share: real, online: nat)
    requires share >= 0.0
    ensures NormalizedLoad(load, online) > share <==> LoadAbove(load, share, online)
  {
    if online > 0 {
      Shares(load, share, online);
    }
  }

  /** Dividing by the cores or comparing with a share of them is the same. */
  lemma Shares(load: real, share: real, online: nat)
    requires online > 0
    ensures load / online as real > share <==> load > share * online as real
    ensures load / online as real < share <==> load < share * online as real
  {
    var n := online as real;
    var q := load / n;
    assert q * n == load;
    if q > share {
      assert (q - share) * n > 0.0;
    } else if q < share {
      assert (share - q) * n > 0.0;
    }
  }

  /** The sleep of a tick tells exactly what it read. */
  lemma SleepExactly(t: TickInput)
    ensures SleepsBy(SleepInterval(ActivityOf(t)), t)
    ensures ActivityOf(t) == Idle <==> SeesIdle(t)
  {
    ExceedsIs(t.zones, THERMAL_PASSIVE);
    Normalized(t.load, 0.05, t.online);
    Normalized(t.load, 0.8, t.online);
    hide Exceeds, AnyAbove, NormalizedLoad, LoadAbove;
  }

  /** Only pressure above 20 has a victim, which is a process of the largest size. */
  ghost predicate IsVictim(victim: Option<int>, pressure: real, processes: seq<ProcessMemoryUsage>) {
    if pressure <= 20.0 || processes == [] then victim == None
    else exists u <- processes :: victim == Some(u.pid) && forall v <- processes :: v.rssKb <= u.rssKb
  }

  method LargestConsumer(processes: seq<ProcessMemoryUsage>) returns (pid: Option<int>)
    ensures if processes == [] then pid == None
      else exists u <- processes :: pid == Some(u.pid) && forall v <- processes :: v.rssKb <= u.rssKb
  {
    var top := TopMemoryConsumers(processes, 1);
    if top == [] {
      return None;
    }
    var u := top[0];
    assert top == [u];
    assert u in multiset(processes);
    forall v <- processes ensures v.rssKb <= u.rssKb {
      assert v in multiset(processes);
      assert v == u || v in multiset(processes) - multiset(top);
    }
    pid := Some(u.pid);
  }

  class PolicyEngine {
    const cores: seq<Core>
    const kernel: Kernel
    var originalMaxFreq: map<int, nat>
    var currentMaxFreq: map<int, nat>
    var appliedGovernors: map<int, string>
    var appliedEpp: map<int, int>
    var appliedSchedulers: map<string, string>
    var stopRequested: bool

    ghost function View(): Engine
      reads this, kernel
    {
      Engine(originalMaxFreq, currentMaxFreq, appliedGovernors, appliedEpp, appliedSchedulers, kernel.knobs)
    }

    constructor (kernel: Kernel, cores: seq<Core>)
      ensures this.kernel == kernel && this.cores == cores
      ensures View() == NewEngine(kernel.knobs) && !stopRequested
    {
      this.kernel := kernel;
      this.cores := cores;
      originalMaxFreq, currentMaxFreq := map[], map[];
      appliedGovernors, appliedEpp, appliedSchedulers := map[], map[], map[];
      stopRequested := false;
    }

    method RequestStop()
      modifies `stopRequested
      ensures stopRequested
    {
      stopRequested := true;
    }

    method SetGovernorCached(cpu: int, name: string, refused: set<Write>)
      modifies `appliedGovernors, kernel
      ensures View() == SetGovernorIfChanged(old(View()), cpu, name, refused)
    {
      if cpu in appliedGovernors && appliedGovernors[cpu] == name {
        return;
      }
      var done := kernel.Write(SetGovernor(cpu, name), refused);
      if done {
        appliedGovernors := appliedGovernors[cpu := name];
      }
    }

    method SetEppCached(cpu: int, value: int, refused: set<Write>)
      modifies `appliedEpp, kernel
      ensures View() == SetEppIfChanged(old(View()), cpu, value, refused)
    {
      if cpu in appliedEpp && appliedEpp[cpu] == value {
        return;
      }
      var done := kernel.Write(SetEpp(cpu, value), refused);
      if done {
        appliedEpp := appliedEpp[cpu := value];
      }
    }

    method SetSchedulerCached(device: string, name: string, refused: set<Write>)
      modifies `appliedSchedulers, kernel
      ensures View() == SetSchedulerIfChanged(old(View()), device, name, refused)
    {
      if device in appliedSchedulers && appliedSchedulers[device] == name {
        return;
      }
      var done := kernel.Write(SetScheduler(device, name), refused);
      if done {
        appliedSchedulers := appliedSchedulers[device := name];
      }
    }

    method StartWithInitialState(start: StartInput)
      modifies this`originalMaxFreq, this`currentMaxFreq, this`appliedGovernors,
               this`appliedSchedulers, kernel
      ensures View() == ApplyInitialState(old(View()), cores, start.disks, start.refused)
    {
      hide SetGovernorIfChanged, SetSchedulerIfChanged;
      for i := 0 to |cores|
        invariant InitCores(View(), cores[i..], start.refused) == InitCores(old(View()), cores, start.refused)
      {
        assert cores[i..][1..] == cores[i + 1..];
        if cores[i].online {
          var cpu := cores[i].cpuId;
          SetGovernorCached(cpu, "schedutil", start.refused);
          var cap := Get(kernel.knobs.maxFreq, cpu, 0);
          originalMaxFreq := originalMaxFreq[cpu := cap];
          currentMaxFreq := currentMaxFreq[cpu := cap];
        }
      }
      ghost var e := View();
      for i := 0 to |start.disks|
        invariant InitDisks(View(), start.disks[i..], start.refused) == InitDisks(e, start.disks, start.refused)
      {
        assert start.disks[i..][1..] == start.disks[i + 1..];
        var disk := start.disks[i];
        var kind := DetectKind(disk);
        if kind == Nvme {
          SetSchedulerCached(disk.name, "none", start.refused);
        } else if kind == Hdd {
          SetSchedulerCached(disk.name, "mq-deadline", start.refused);
        }
      }
    }

    method EvaluateThermalPolicy(zones: seq<int>, refused: set<Write>)
      modifies `currentMaxFreq, kernel
      ensures View() == Thermal(old(View()), cores, zones, refused)
    {
      hide Exceeds, Store, Succeeds, Do;
      var over := AnyExceeds(zones, THERMAL_PASSIVE);
      for i := 0 to |cores|
        invariant Thermal(View(), cores[i..], zones, refused) == Thermal(old(View()), cores, zones, refused)
      {
        assert cores[i..][1..] == cores[i + 1..];
        ThermalStep(cores[i], over, zones, refused);
      }
    }

    method ThermalStep(core: Core, over: bool, zones: seq<int>, refused: set<Write>)
      requires over == Exceeds(zones, THERMAL_PASSIVE)
      modifies `currentMaxFreq, kernel
      ensures View() == ThermalCore(old(View()), core, zones, refused)
    {
      hide Exceeds, Store;
      if !core.online || core.cpuId !in originalMaxFreq {
        return;
      }
      var original := originalMaxFreq[core.cpuId];
      var applied := Get(currentMaxFreq, core.cpuId, 0);
      currentMaxFreq := currentMaxFreq[core.cpuId := applied];
      var target := applied;
      if over {
        var reduced := applied - applied / 20;
        target := if reduced < original / 2 then original / 2 else reduced;
      } else {
        var warm := AnyExceeds(zones, THERMAL_RECOVERY);
        if !warm && applied < original {
          target := original;
        }
      }
      if target != applied {
        var done := kernel.Write(SetMaxFreq(core.cpuId, target), refused);
        if done {
          assert currentMaxFreq[core.cpuId := target] == old(currentMaxFreq)[core.cpuId := target];
          currentMaxFreq := currentMaxFreq[core.cpuId := target];
        }
      }
    }

    method EvaluateLoadPolicy(activity: Activity, load: real, online: nat, refused: set<Write>)
      modifies `appliedEpp, kernel
      ensures View() == Load(old(View()), cores, activity, load, online, refused)
    {
      hide SetEppIfChanged;
      if online == 0 {
        return;
      }
      var normalized := load / online as real;
      var target := EPP_BALANCED;
      if activity == Idle {
        target := EPP_POWER_SAVE;
      } else if normalized > HEAVY_LOAD {
        target := EPP_PERFORMANCE;
      } else if normalized < LIGHT_LOAD {
        target := EPP_POWER_SAVE;
      }
      for i := 0 to |cores|
        invariant LoadCores(View(), cores[i..], target, refused) == LoadCores(old(View()), cores, target, refused)
      {
        assert cores[i..][1..] == cores[i + 1..];
        if cores[i].online {
          SetEppCached(cores[i].cpuId, target, refused);
        }
      }
    }

    /** Returns the process to be sent SIGTERM, if any. */
    method EvaluateMemoryPolicy(pressure: real, processes: seq<ProcessMemoryUsage>, refused: set<Write>)
        returns (victim: Option<int>)
      modifies kernel
      ensures View() == Memory(old(View()), pressure, refused)
      ensures IsVictim(victim, pressure, processes)
    {
      var level := Classify(pressure);
      if level == Healthy {
        return None;
      }
      if level == Rising {
        var vfs := ReadVfs(kernel.knobs);
        var done := kernel.Write(SetVm(VfsCachePressure, vfs + 20), refused);
        var ratio := ReadDirty(kernel.knobs);
        done := kernel.Write(SetVm(DirtyRatio, if ratio > 5 then ratio - 5 else 5), refused);
        return None;
      }
      victim := LargestConsumer(processes);
    }

    method EvaluateIoPolicy(activity: Activity, disks: seq<Disk>, refused: set<Write>)
      modifies `appliedSchedulers, kernel
      ensures View() == Io(old(View()), activity, disks, refused)
    {
      hide SetSchedulerIfChanged, Do;
      if activity == Idle {
        return;
      }
      for i := 0 to |disks|
        invariant IoDisks(View(), disks[i..], refused) == IoDisks(old(View()), disks, refused)
      {
        assert disks[i..][1..] == disks[i + 1..];
        var disk := disks[i];
        if DetectKind(disk) != Nvme {
          continue;
        }
        if disk.inProgress > 4 {
          SetSchedulerCached(disk.name, "mq-deadline", refused);
        } else {
          SetSchedulerCached(disk.name, "none", refused);
          var done := kernel.Write(SetLatency(disk.name, NVME_READ_LATENCY, NVME_WRITE_LATENCY), refused);
        }
      }
    }

    /** One turn of the loop; it returns how long it sleeps and whom it asks to terminate. */
    method RunTick(t: TickInput) returns (sleep: nat, victim: Option<int>)
      modifies `currentMaxFreq, `appliedEpp, `appliedSchedulers, kernel
      ensures View() == Tick(old(View()), cores, t)
      ensures SleepsBy(sleep, t)
      ensures IsVictim(victim, t.policyPressure, t.processes)
    {
      hide Thermal, Load, Memory, Io, Exceeds, SleepsBy;
      SleepExactly(t);
      var level := Classify(t.pressure);
      var thermalEvent := AnyExceeds(t.zones, THERMAL_PASSIVE);
      var activity := ClassifyActivity(NormalizedLoad(t.load, t.online), level, thermalEvent);
      EvaluateThermalPolicy(t.policyZones, t.refused);
      EvaluateLoadPolicy(activity, t.policyLoad, t.policyOnline, t.refused);
      victim := EvaluateMemoryPolicy(t.policyPressure, t.processes, t.refused);
      EvaluateIoPolicy(activity, t.disks, t.refused);
      sleep := SleepInterval(activity);
    }

    /** The loop until the stop request, which arrives during the last of the given ticks, or
        before the first one if there is none. */
    method RunUntilStopped(start: StartInput, ts: seq<TickInput>)
      requires !stopRequested
      modifies this, kernel
      ensures View() == Ticks(ApplyInitialState(old(View()), cores, start.disks, start.refused), cores, ts)
      ensures stopRequested
    {
      hide ApplyInitialState, Tick;
      StartWithInitialState(start);
      ghost var e := View();
      var i := 0;
      if |ts| == 0 {
        RequestStop();
      }
      while !stopRequested
        invariant 0 <= i <= |ts| && stopRequested == (i == |ts|)
        invariant View() == Ticks(e, cores, ts[..i])
        decreases |ts| - i
      {
        assert ts[..i + 1][..i] == ts[..i];
        var sleep, victim := RunTick(ts[i]);
        i := i + 1;
        if i == |ts| {
          RequestStop();
        }
      }
      assert ts[..i] == ts;
    }
  }
}
