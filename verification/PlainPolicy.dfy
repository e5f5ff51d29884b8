/** The control loop without its memory: every decision is taken from the knobs themselves and
    every request is written. The engine with its five maps writes the same knobs. */
module PlainPolicy {
  import opened Text
  import opened Kernel
  import opened PolicyEngine
  import opened PolicyInvariants

  function MaxFreqOf(k: Knobs, cpu: int): nat {
    Get(k.maxFreq, cpu, 0)
  }

  function PlainInitCores(k: Knobs, cores: seq<Core>, refused: set<Write>): Knobs
    decreases cores
  {
    if cores == [] then k else
      var k' := if cores[0].online then Do(k, SetGovernor(cores[0].cpuId, "schedutil"), refused) else k;
      PlainInitCores(k', cores[1..], refused)
  }

  function PlainInitDisk(k: Knobs, disk: Disk, refused: set<Write>): Knobs {
    match DetectKind(disk)
    case Nvme => Do(k, SetScheduler(disk.name, "none"), refused)
    case Hdd => Do(k, SetScheduler(disk.name, "mq-deadline"), refused)
    case _ => k
  }

  function PlainInitDisks(k: Knobs, disks: seq<Disk>, refused: set<Write>): Knobs
    decreases disks
  {
    if disks == [] then k else PlainInitDisks(PlainInitDisk(k, disks[0], refused), disks[1..], refused)
  }

  function PlainStart(k0: Knobs, cores: seq<Core>, start: StartInput): Knobs {
    PlainInitDisks(PlainInitCores(k0, cores, start.refused), start.disks, start.refused)
  }

  /** The original cap is the maximum of the knobs `k0` that the run started on. */
  function PlainThermalCore(k0: Knobs, k: Knobs, core: Core, zones: seq<int>, refused: set<Write>): Knobs {
    if !core.online then k else
      var target := TargetCap(MaxFreqOf(k0, core.cpuId), MaxFreqOf(k, core.cpuId), zones);
      Do(k, SetMaxFreq(core.cpuId, target), refused)
  }

  function PlainThermal(k0: Knobs, k: Knobs, cores: seq<Core>, zones: seq<int>, refused: set<Write>): Knobs
    decreases cores
  {
    if cores == [] then k
    else PlainThermal(k0, PlainThermalCore(k0, k, cores[0], zones, refused), cores[1..], zones, refused)
  }

  function PlainLoadCores(k: Knobs, cores: seq<Core>, target: int, refused: set<Write>): Knobs
    decreases cores
  {
    if cores == [] then k else
      var k' := if cores[0].online then Do(k, SetEpp(cores[0].cpuId, target), refused) else k;
      PlainLoadCores(k', cores[1..], target, refused)
  }

  function PlainLoad(k: Knobs, cores: seq<Core>, t: TickInput): Knobs {
    if t.policyOnline == 0 then k
    else PlainLoadCores(k, cores, TargetEpp(ActivityOf(t), t.policyLoad / t.policyOnline as real), t.refused)
  }

  function PlainMemory(k: Knobs, pressure: real, refused: set<Write>): Knobs {
    if Classify(pressure) != Rising then k else
      var k' := Do(k, SetVm(VfsCachePressure, ReadVfs(k) + 20), refused);
      Do(k', SetVm(DirtyRatio, NextDirtyRatio(ReadDirty(k'))), refused)
  }

  function PlainIoDisk(k: Knobs, disk: Disk, refused: set<Write>): Knobs {
    if !IsNvme(disk.name) then k
    else if disk.inProgress > 4 then Do(k, SetScheduler(disk.name, "mq-deadline"), refused)
    else Do(Do(k, SetScheduler(disk.name, "none"), refused),
            SetLatency(disk.name, NVME_READ_LATENCY, NVME_WRITE_LATENCY), refused)
  }

  function PlainIoDisks(k: Knobs, disks: seq<Disk>, refused: set<Write>): Knobs
    decreases disks
  {
    if disks == [] then k else PlainIoDisks(PlainIoDisk(k, disks[0], refused), disks[1..], refused)
  }

  function PlainIo(k: Knobs, t: TickInput): Knobs {
    if ActivityOf(t) == Idle then k else PlainIoDisks(k, t.disks, t.refused)
  }

  function BeforeIo(k0: Knobs, k: Knobs, cores: seq<Core>, t: TickInput): Knobs {
    var k1 := PlainThermal(k0, k, cores, t.policyZones, t.refused);
    PlainMemory(PlainLoad(k1, cores, t), t.policyPressure, t.refused)
  }

  function PlainTick(k0: Knobs, k: Knobs, cores: seq<Core>, t: TickInput): Knobs {
    PlainIo(BeforeIo(k0, k, cores, t), t)
  }

  function PlainTicks(k0: Knobs, k: Knobs, cores: seq<Core>, ts: seq<TickInput>): Knobs
    decreases |ts|
  {
    if ts == [] then k else
      PlainTick(k0, PlainTicks(k0, k, cores, ts[..|ts| - 1]), cores, ts[|ts| - 1])
  }

  function PlainRun(k0: Knobs, cores: seq<Core>, start: StartInput, ts: seq<TickInput>): Knobs {
    PlainTicks(k0, PlainStart(k0, cores, start), cores, ts)
  }

  // ---------- One request ----------

  datatype Request = GovernorRequest(cpu: int, name: string)
                   | EppRequest(cpu: int, value: int)
                   | SchedulerRequest(device: string, name: string)

  function WriteOf(r: Request): Write {
    match r
    case GovernorRequest(cpu, name) => SetGovernor(cpu, name)
    case EppRequest(cpu, value) => SetEpp(cpu, value)
    case SchedulerRequest(device, name) => SetScheduler(device, name)
  }

  function Cached(e: Engine, r: Request, refused: set<Write>): Engine {
    match r
    case GovernorRequest(cpu, name) => SetGovernorIfChanged(e, cpu, name, refused)
    case EppRequest(cpu, value) => SetEppIfChanged(e, cpu, value, refused)
    case SchedulerRequest(device, name) => SetSchedulerIfChanged(e, device, name, refused)
  }

  lemma CachedIsWritten(e: Engine, r: Request, refused: set<Write>)
    requires Coherent(e)
    ensures Cached(e, r, refused).knobs == Do(e.knobs, WriteOf(r), refused)
  {
    hide IntText;
    if Shows(e.knobs, WriteOf(r)) {
      ShownIsUnchanged(e.knobs, WriteOf(r), refused);
    }
  }

  lemma CachedKeepsCoherent(e: Engine, r: Request, refused: set<Write>)
    requires Coherent(e)
    ensures Coherent(Cached(e, r, refused))
  {
    hide IntText;
  }

  function CachedAll(e: Engine, rs: seq<Request>, refused: seq<set<Write>>): Engine
    requires |rs| == |refused|
    decreases rs
  {
    if rs == [] then e else CachedAll(Cached(e, rs[0], refused[0]), rs[1..], refused[1..])
  }

  function WrittenAll(k: Knobs, rs: seq<Request>, refused: seq<set<Write>>): Knobs
    requires |rs| == |refused|
    decreases rs
  {
    if rs == [] then k else WrittenAll(Do(k, WriteOf(rs[0]), refused[0]), rs[1..], refused[1..])
  }

  /** Any sequence of requests, with any pattern of failures, leaves the same knobs whether the
      requests go through the caches or are all written. */
  lemma {:induction false} CachedWritesRefinePlainWrites(e: Engine, rs: seq<Request>, refused: seq<set<Write>>)
    requires Coherent(e) && |rs| == |refused|
    ensures CachedAll(e, rs, refused).knobs == WrittenAll(e.knobs, rs, refused)
    ensures Coherent(CachedAll(e, rs, refused))
    decreases rs
  {
    hide Cached, Do, Coherent;
    if rs != [] {
      CachedIsWritten(e, rs[0], refused[0]);
      CachedKeepsCoherent(e, rs[0], refused[0]);
      CachedWritesRefinePlainWrites(Cached(e, rs[0], refused[0]), rs[1..], refused[1..]);
    }
  }

  // ---------- Whole runs ----------

  lemma {:induction false} InitCoresIsPlain(e: Engine, cores: seq<Core>, refused: set<Write>,
                                            k0: Knobs, cpus: set<int>, devices: set<string>)
    requires Starting(e, k0, cpus, devices) && OnlineIds(cores) <= cpus
    ensures InitCores(e, cores, refused).knobs == PlainInitCores(e.knobs, cores, refused)
    ensures InitCores(e, cores, refused).original.Keys == e.original.Keys + OnlineIds(cores)
    decreases cores
  {
    if cores == [] {
      assert OnlineIds(cores) == {};
    } else {
      var rest := cores[1..];
      assert cores == [cores[0]] + rest;
      var cpu := cores[0].cpuId;
      assert OnlineIds(cores) == OnlineIds(rest) + if cores[0].online then {cpu} else {};
      assert Coherent(e);
      CachedIsWritten(e, GovernorRequest(cpu, "schedutil"), refused);
      InitCoreKeepsStarting(e, cores[0], refused, k0, cpus, devices);
      InitCoreShape(e, cores[0], refused);
      hide Starting, OnlineIds, SetGovernorIfChanged, Do, InitCore;
      InitCoresIsPlain(InitCore(e, cores[0], refused), rest, refused, k0, cpus, devices);
    }
  }

  lemma InitCoreShape(e: Engine, core: Core, refused: set<Write>)
    ensures var e' := InitCore(e, core, refused);
      if core.online then
        && e'.knobs == SetGovernorIfChanged(e, core.cpuId, "schedutil", refused).knobs
        && e'.original.Keys == e.original.Keys + {core.cpuId}
      else e' == e
  {
  }

  lemma {:induction false} InitDisksIsPlain(e: Engine, disks: seq<Disk>, refused: set<Write>)
    requires Coherent(e)
    ensures var e' := InitDisks(e, disks, refused);
            e'.knobs == PlainInitDisks(e.knobs, disks, refused) && e'.original == e.original
    decreases disks
  {
    if disks != [] {
      assert InitDisk(e, disks[0], refused).original == e.original;
      hide Coherent, Do, SetSchedulerIfChanged;
      CachedIsWritten(e, SchedulerRequest(disks[0].name, "none"), refused);
      CachedIsWritten(e, SchedulerRequest(disks[0].name, "mq-deadline"), refused);
      CachedKeepsCoherent(e, SchedulerRequest(disks[0].name, "none"), refused);
      CachedKeepsCoherent(e, SchedulerRequest(disks[0].name, "mq-deadline"), refused);
      InitDisksIsPlain(InitDisk(e, disks[0], refused), disks[1..], refused);
    }
  }

  lemma ThermalCoreIsPlain(e: Engine, core: Core, zones: seq<int>, refused: set<Write>, k0: Knobs)
    requires Coherent(e) && Capped(e, k0)
    requires core.online ==> core.cpuId in e.original
    ensures ThermalCore(e, core, zones, refused).knobs == PlainThermalCore(k0, e.knobs, core, zones, refused)
    ensures ThermalCore(e, core, zones, refused).original == e.original
  {
    hide TargetCap, IntText;
    if core.online {
      var applied := e.current[core.cpuId];
      var w := SetMaxFreq(core.cpuId, TargetCap(e.original[core.cpuId], applied, zones));
      if w.maxFreq == applied && Accepts(e.knobs, w) {
        ShownIsUnchanged(e.knobs, w, refused);
      }
    }
  }

  lemma {:induction false} ThermalIsPlain(e: Engine, cores: seq<Core>, zones: seq<int>, refused: set<Write>,
                                          k0: Knobs, cpus: set<int>, devices: set<string>)
    requires Inv(e, k0, cpus, devices) && OnlineIds(cores) <= cpus && OnlineIds(cores) <= e.original.Keys
    ensures var e' := Thermal(e, cores, zones, refused);
            e'.knobs == PlainThermal(k0, e.knobs, cores, zones, refused) && e'.original == e.original
    decreases cores
  {
    if cores != [] {
      assert cores[0].online ==> cores[0].cpuId in OnlineIds(cores);
      assert Coherent(e) && Capped(e, k0);
      hide Inv, Coherent, Capped, ThermalCore, PlainThermalCore;
      ThermalCoreIsPlain(e, cores[0], zones, refused, k0);
      ThermalCoreKeepsInv(e, cores[0], zones, refused, k0, cpus, devices);
      ThermalIsPlain(ThermalCore(e, cores[0], zones, refused), cores[1..], zones, refused, k0, cpus, devices);
    }
  }

  lemma {:induction false} LoadCoresIsPlain(e: Engine, cores: seq<Core>, target: int, refused: set<Write>)
    requires Coherent(e)
    ensures var e' := LoadCores(e, cores, target, refused);
            e'.knobs == PlainLoadCores(e.knobs, cores, target, refused) && e'.original == e.original
    decreases cores
  {
    if cores != [] {
      var cpu := cores[0].cpuId;
      assert SetEppIfChanged(e, cpu, target, refused).original == e.original;
      hide Coherent, Do, SetEppIfChanged;
      CachedIsWritten(e, EppRequest(cpu, target), refused);
      CachedKeepsCoherent(e, EppRequest(cpu, target), refused);
      LoadCoresIsPlain(if cores[0].online then SetEppIfChanged(e, cpu, target, refused) else e,
                       cores[1..], target, refused);
    }
  }

  lemma LatencyKeepsCoherent(e: Engine, device: string, refused: set<Write>)
    requires Coherent(e)
    ensures var w := SetLatency(device, NVME_READ_LATENCY, NVME_WRITE_LATENCY);
            Coherent(e.(knobs := Do(e.knobs, w, refused)))
  {
    hide IntText;
  }

  lemma IoDiskIsPlain(e: Engine, disk: Disk, refused: set<Write>)
    requires Coherent(e)
    ensures var e' := IoDisk(e, disk, refused);
            e'.knobs == PlainIoDisk(e.knobs, disk, refused) && e'.original == e.original && Coherent(e')
  {
    hide Coherent, Do;
    CachedIsWritten(e, SchedulerRequest(disk.name, "none"), refused);
    CachedIsWritten(e, SchedulerRequest(disk.name, "mq-deadline"), refused);
    CachedKeepsCoherent(e, SchedulerRequest(disk.name, "none"), refused);
    CachedKeepsCoherent(e, SchedulerRequest(disk.name, "mq-deadline"), refused);
    LatencyKeepsCoherent(SetSchedulerIfChanged(e, disk.name, "none", refused), disk.name, refused);
  }

  lemma {:induction false} IoDisksIsPlain(e: Engine, disks: seq<Disk>, refused: set<Write>)
    requires Coherent(e)
    ensures var e' := IoDisks(e, disks, refused);
            e'.knobs == PlainIoDisks(e.knobs, disks, refused) && e'.original == e.original
    decreases disks
  {
    hide Coherent, IoDisk, PlainIoDisk;
    if disks != [] {
      IoDiskIsPlain(e, disks[0], refused);
      IoDisksIsPlain(IoDisk(e, disks[0], refused), disks[1..], refused);
    }
  }

  lemma TickIsPlain(e: Engine, cores: seq<Core>, t: TickInput, k0: Knobs, cpus: set<int>, devices: set<string>)
    requires Inv(e, k0, cpus, devices) && OnlineIds(cores) <= cpus && OnlineIds(cores) <= e.original.Keys
    ensures var e' := Tick(e, cores, t);
            e'.knobs == PlainTick(k0, e.knobs, cores, t) && e'.original == e.original
  {
    hide Coherent, Capped, Framed, OnlineIds, Thermal, LoadCores, IoDisks, PlainThermal, PlainLoadCores,
      PlainIoDisks, ActivityOf, TargetEpp, Classify, Do;
    var e1 := Thermal(e, cores, t.policyZones, t.refused);
    ThermalIsPlain(e, cores, t.policyZones, t.refused, k0, cpus, devices);
    ThermalKeepsInv(e, cores, t.policyZones, t.refused, k0, cpus, devices);
    var e2 := Load(e1, cores, ActivityOf(t), t.policyLoad, t.policyOnline, t.refused);
    if t.policyOnline != 0 {
      var target := TargetEpp(ActivityOf(t), t.policyLoad / t.policyOnline as real);
      LoadCoresIsPlain(e1, cores, target, t.refused);
      LoadCoresKeepInv(e1, cores, target, t.refused, k0, cpus, devices);
    }
    MemoryKeepsInv(e2, t.policyPressure, t.refused, k0, cpus, devices);
    IoDisksIsPlain(Memory(e2, t.policyPressure, t.refused), t.disks, t.refused);
  }

  lemma {:induction false} TicksArePlain(e: Engine, cores: seq<Core>, ts: seq<TickInput>,
                                         k0: Knobs, cpus: set<int>, devices: set<string>)
    requires Inv(e, k0, cpus, devices) && OnlineIds(cores) <= cpus && OnlineIds(cores) <= e.original.Keys
    requires DisksWithin(ts, devices)
    ensures var e' := Ticks(e, cores, ts);
            e'.knobs == PlainTicks(k0, e.knobs, cores, ts) && e'.original == e.original
    decreases |ts|
  {
    hide Inv, Tick, PlainTick, OnlineIds;
    if ts != [] {
      var n := |ts| - 1;
      TicksArePlain(e, cores, ts[..n], k0, cpus, devices);
      TicksKeepInv(e, cores, ts[..n], k0, cpus, devices);
      TickIsPlain(Ticks(e, cores, ts[..n]), cores, ts[n], k0, cpus, devices);
    }
  }

  lemma StartIsPlain(k0: Knobs, cores: seq<Core>, start: StartInput)
    ensures var e := ApplyInitialState(NewEngine(k0), cores, start.disks, start.refused);
            e.knobs == PlainStart(k0, cores, start) && e.original.Keys == OnlineIds(cores)
  {
    var cpus, devices := OnlineIds(cores), DiskNames(start.disks);
    assert Starting(NewEngine(k0), k0, cpus, devices);
    InitCoresKeepStarting(NewEngine(k0), cores, start.refused, k0, cpus, devices);
    InitCoresIsPlain(NewEngine(k0), cores, start.refused, k0, cpus, devices);
    var e := InitCores(NewEngine(k0), cores, start.refused);
    assert Coherent(e);
    InitDisksIsPlain(e, start.disks, start.refused);
  }

  /** The run with its caches and recorded caps writes exactly what the run without any memory
      writes, and the recorded originals are those of the online cores throughout. */
  lemma CachedRunIsPlainRun(k0: Knobs, cores: seq<Core>, start: StartInput, ts: seq<TickInput>)
    ensures var e := Run(k0, cores, start, ts);
            && e.knobs == PlainRun(k0, cores, start, ts)
            && e.original.Keys == OnlineIds(cores)
            && forall c <- e.current :: e.current[c] == MaxFreqOf(e.knobs, c)
  {
    var cpus, devices := OnlineIds(cores), AllDisks(start, ts);
    forall t <- ts ensures DiskNames(t.disks) <= devices {
    }
    EveryRunKeepsInv(k0, cores, start, ts, cpus, devices);
    StartEstablishesInv(k0, cores, start, cpus, devices);
    assert forall c <- Run(k0, cores, start, ts).current ::
      Run(k0, cores, start, ts).current[c] == MaxFreqOf(Run(k0, cores, start, ts).knobs, c);
    hide Inv, ApplyInitialState, OnlineIds, AllDisks, PlainStart, MaxFreqOf;
    StartIsPlain(k0, cores, start);
    TicksArePlain(ApplyInitialState(NewEngine(k0), cores, start.disks, start.refused), cores, ts, k0, cpus, devices);
  }
}
