/** What every reachable state of the control loop satisfies: the caches agree with the kernel,
    the frequency caps stay between half the original and the original, and nothing outside the
    listed cores and devices is written. */
module PolicyInvariants {
  import opened Text
  import opened Kernel
  import opened PolicyEngine

  /** Every cache entry, the tracked maximum included, is what the kernel's knob shows. */
  ghost predicate Coherent(e: Engine) {
    && (forall c <- e.governors :: Shows(e.knobs, SetGovernor(c, e.governors[c])))
    && (forall c <- e.epp :: Shows(e.knobs, SetEpp(c, e.epp[c])))
    && (forall d <- e.schedulers :: Shows(e.knobs, SetScheduler(d, e.schedulers[d])))
    && (forall c <- e.current :: e.current[c] == Get(e.knobs.maxFreq, c, 0))
  }

  /** The originals are the maxima the run started from, and bound the current caps. */
  ghost predicate Capped(e: Engine, k0: Knobs) {
    && e.original.Keys == e.current.Keys
    && forall c <- e.original ::
         e.original[c] == Get(k0.maxFreq, c, 0) && e.original[c] / 2 <= e.current[c] <= e.original[c]
  }

  /** Only governor, maximum and EPP of the given cores, scheduler and NVMe latency of the given
      devices, cache pressure and dirty ratio may differ. */
  ghost predicate Framed(k0: Knobs, k: Knobs, cpus: set<int>, devices: set<string>) {
    && SameFiles(k0, k)
    && k.minFreq == k0.minFreq
    && (forall c <- k0.governor :: c !in cpus ==> k.governor[c] == k0.governor[c])
    && (forall c <- k0.maxFreq :: c !in cpus ==> k.maxFreq[c] == k0.maxFreq[c])
    && (forall c <- k0.epp :: c !in cpus ==> k.epp[c] == k0.epp[c])
    && (forall d <- k0.scheduler :: d !in devices ==> k.scheduler[d] == k0.scheduler[d])
    && (forall d <- k0.latency :: d !in devices || !IsNvme(d) ==> k.latency[d] == k0.latency[d])
    && (forall s <- k0.vm :: s == Swappiness || s == DirtyBackgroundRatio ==> k.vm[s] == k0.vm[s])
  }

  /** The invariant of a run that started on `k0`. A core that is not capped yet still has its
      original maximum. */
  ghost predicate Inv(e: Engine, k0: Knobs, cpus: set<int>, devices: set<string>) {
    && Coherent(e)
    && Capped(e, k0)
    && Framed(k0, e.knobs, cpus, devices)
    && (forall c <- k0.maxFreq :: c !in e.current ==> e.knobs.maxFreq[c] == k0.maxFreq[c])
  }

  function OnlineIds(cores: seq<Core>): set<int> {
    set core <- cores | core.online :: core.cpuId
  }

  function DiskNames(disks: seq<Disk>): set<string> {
    set disk <- disks :: disk.name
  }

  // ---------- Single writes ----------

  /** The writes of a run over the given cores and devices. */
  ghost predicate Allowed(w: Write, cpus: set<int>, devices: set<string>) {
    match w
    case SetGovernor(c, _) => c in cpus
    case SetMinFreq(_, _) => false
    case SetMaxFreq(c, _) => c in cpus
    case SetEpp(c, _) => c in cpus
    case SetScheduler(d, _) => d in devices
    case SetLatency(d, _, _) => d in devices && IsNvme(d)
    case SetVm(s, _) => s == VfsCachePressure || s == DirtyRatio
  }

  lemma DoKeepsFramed(k0: Knobs, k: Knobs, w: Write, refused: set<Write>, cpus: set<int>, devices: set<string>)
    requires Framed(k0, k, cpus, devices) && Allowed(w, cpus, devices)
    ensures Framed(k0, Do(k, w, refused), cpus, devices)
  {
    hide IntText, IsNvme;
  }

  lemma GovernorKeepsInv(e: Engine, cpu: int, name: string, refused: set<Write>,
                         k0: Knobs, cpus: set<int>, devices: set<string>)
    requires Inv(e, k0, cpus, devices) && cpu in cpus
    ensures Inv(SetGovernorIfChanged(e, cpu, name, refused), k0, cpus, devices)
  {
    hide Framed, IntText;
    DoKeepsFramed(k0, e.knobs, SetGovernor(cpu, name), refused, cpus, devices);
  }

  lemma EppKeepsInv(e: Engine, cpu: int, value: int, refused: set<Write>,
                    k0: Knobs, cpus: set<int>, devices: set<string>)
    requires Inv(e, k0, cpus, devices) && cpu in cpus
    ensures Inv(SetEppIfChanged(e, cpu, value, refused), k0, cpus, devices)
  {
    hide Framed, IntText;
    DoKeepsFramed(k0, e.knobs, SetEpp(cpu, value), refused, cpus, devices);
  }

  lemma SchedulerKeepsInv(e: Engine, device: string, name: string, refused: set<Write>,
                          k0: Knobs, cpus: set<int>, devices: set<string>)
    requires Inv(e, k0, cpus, devices) && device in devices
    ensures Inv(SetSchedulerIfChanged(e, device, name, refused), k0, cpus, devices)
  {
    hide Framed, IntText;
    DoKeepsFramed(k0, e.knobs, SetScheduler(device, name), refused, cpus, devices);
  }

  lemma LatencyKeepsInv(e: Engine, device: string, refused: set<Write>,
                        k0: Knobs, cpus: set<int>, devices: set<string>)
    requires Inv(e, k0, cpus, devices) && device in devices && IsNvme(device)
    ensures var w := SetLatency(device, NVME_READ_LATENCY, NVME_WRITE_LATENCY);
            Inv(e.(knobs := Do(e.knobs, w, refused)), k0, cpus, devices)
  {
    hide Framed, IntText;
    DoKeepsFramed(k0, e.knobs, SetLatency(device, NVME_READ_LATENCY, NVME_WRITE_LATENCY), refused, cpus, devices);
  }

  lemma SysctlKeepsInv(e: Engine, sysctl: Sysctl, value: int, refused: set<Write>,
                       k0: Knobs, cpus: set<int>, devices: set<string>)
    requires Inv(e, k0, cpus, devices) && (sysctl == VfsCachePressure || sysctl == DirtyRatio)
    ensures Inv(e.(knobs := Do(e.knobs, SetVm(sysctl, value), refused)), k0, cpus, devices)
  {
    hide Framed, IntText;
    DoKeepsFramed(k0, e.knobs, SetVm(sysctl, value), refused, cpus, devices);
  }

  /** A target cap stays between half the original and the original. */
  lemma TargetCapBounds(original: nat, applied: nat, zones: seq<int>)
    requires original / 2 <= applied <= original
    ensures original / 2 <= TargetCap(original, applied, zones) <= original
  {
    hide Exceeds;
  }

  lemma CapKeepsInv(e: Engine, cpu: int, cap: nat, refused: set<Write>,
                    k0: Knobs, cpus: set<int>, devices: set<string>)
    requires Inv(e, k0, cpus, devices) && cpu in cpus && cpu in e.original
    requires e.original[cpu] / 2 <= cap <= e.original[cpu]
    requires Succeeds(e.knobs, SetMaxFreq(cpu, cap), refused)
    ensures Inv(e.(current := e.current[cpu := cap], knobs := Store(e.knobs, SetMaxFreq(cpu, cap))),
                k0, cpus, devices)
  {
    hide Framed, IntText;
    DoKeepsFramed(k0, e.knobs, SetMaxFreq(cpu, cap), refused, cpus, devices);
  }

  lemma ThermalCoreKeepsInv(e: Engine, core: Core, zones: seq<int>, refused: set<Write>,
                            k0: Knobs, cpus: set<int>, devices: set<string>)
    requires Inv(e, k0, cpus, devices) && (core.online ==> core.cpuId in cpus)
    ensures Inv(ThermalCore(e, core, zones, refused), k0, cpus, devices)
  {
    hide TargetCap, Framed, Coherent, Store, Succeeds;
    var cpu := core.cpuId;
    if core.online && cpu in e.original {
      var applied := e.current[cpu];
      var target := TargetCap(e.original[cpu], applied, zones);
      TargetCapBounds(e.original[cpu], applied, zones);
      if target != applied && Succeeds(e.knobs, SetMaxFreq(cpu, target), refused) {
        CapKeepsInv(e, cpu, target, refused, k0, cpus, devices);
      } else {
        assert e.current[cpu := applied] == e.current;
      }
    }
  }

  lemma MemoryKeepsInv(e: Engine, pressure: real, refused: set<Write>,
                       k0: Knobs, cpus: set<int>, devices: set<string>)
    requires Inv(e, k0, cpus, devices)
    ensures Inv(Memory(e, pressure, refused), k0, cpus, devices)
  {
    hide Classify, Inv, Do, ReadVfs, ReadDirty, NextDirtyRatio;
    if Classify(pressure) == Rising {
      var vfs := ReadVfs(e.knobs) + 20;
      var e' := e.(knobs := Do(e.knobs, SetVm(VfsCachePressure, vfs), refused));
      SysctlKeepsInv(e, VfsCachePressure, vfs, refused, k0, cpus, devices);
      SysctlKeepsInv(e', DirtyRatio, NextDirtyRatio(ReadDirty(e'.knobs)), refused, k0, cpus, devices);
    }
  }

  // ---------- Loops ----------

  /** While the initial state is applied no maximum has been written. */
  ghost predicate Starting(e: Engine, k0: Knobs, cpus: set<int>, devices: set<string>) {
    Inv(e, k0, cpus, devices) && e.current == e.original && e.knobs.maxFreq == k0.maxFreq
  }

  lemma InitCoreKeepsStarting(e: Engine, core: Core, refused: set<Write>,
                              k0: Knobs, cpus: set<int>, devices: set<string>)
    requires Starting(e, k0, cpus, devices) && (core.online ==> core.cpuId in cpus)
    ensures Starting(InitCore(e, core, refused), k0, cpus, devices)
  {
    hide Framed, Coherent, SetGovernorIfChanged;
    if core.online {
      var e' := SetGovernorIfChanged(e, core.cpuId, "schedutil", refused);
      GovernorKeepsInv(e, core.cpuId, "schedutil", refused, k0, cpus, devices);
      GovernorKeepsCaps(e, core.cpuId, "schedutil", refused);
      TrackingKeepsCoherent(e', core.cpuId);
    }
  }

  lemma GovernorKeepsCaps(e: Engine, cpu: int, name: string, refused: set<Write>)
    ensures var e' := SetGovernorIfChanged(e, cpu, name, refused);
            e'.current == e.current && e'.original == e.original && e'.knobs.maxFreq == e.knobs.maxFreq
  {
  }

  lemma TrackingKeepsCoherent(e: Engine, cpu: int)
    requires Coherent(e)
    ensures var cap := Get(e.knobs.maxFreq, cpu, 0);
            Coherent(e.(original := e.original[cpu := cap], current := e.current[cpu := cap]))
  {
    hide IntText;
  }

  lemma {:induction false} InitCoresKeepStarting(e: Engine, cores: seq<Core>, refused: set<Write>,
                                                 k0: Knobs, cpus: set<int>, devices: set<string>)
    requires Starting(e, k0, cpus, devices) && OnlineIds(cores) <= cpus
    ensures Starting(InitCores(e, cores, refused), k0, cpus, devices)
    decreases cores
  {
    hide Starting, InitCore;
    if cores != [] {
      assert cores[0].online ==> cores[0].cpuId in OnlineIds(cores);
      InitCoreKeepsStarting(e, cores[0], refused, k0, cpus, devices);
      InitCoresKeepStarting(InitCore(e, cores[0], refused), cores[1..], refused, k0, cpus, devices);
    }
  }

  lemma {:induction false} InitDisksKeepInv(e: Engine, disks: seq<Disk>, refused: set<Write>,
                                            k0: Knobs, cpus: set<int>, devices: set<string>)
    requires Inv(e, k0, cpus, devices) && DiskNames(disks) <= devices
    ensures Inv(InitDisks(e, disks, refused), k0, cpus, devices)
    decreases disks
  {
    hide Inv, SetSchedulerIfChanged;
    if disks != [] {
      var name := disks[0].name;
      assert name in DiskNames(disks);
      SchedulerKeepsInv(e, name, "none", refused, k0, cpus, devices);
      SchedulerKeepsInv(e, name, "mq-deadline", refused, k0, cpus, devices);
      InitDisksKeepInv(InitDisk(e, disks[0], refused), disks[1..], refused, k0, cpus, devices);
    }
  }

  lemma {:induction false} ThermalKeepsInv(e: Engine, cores: seq<Core>, zones: seq<int>, refused: set<Write>,
                                           k0: Knobs, cpus: set<int>, devices: set<string>)
    requires Inv(e, k0, cpus, devices) && OnlineIds(cores) <= cpus
    ensures Inv(Thermal(e, cores, zones, refused), k0, cpus, devices)
    decreases cores
  {
    hide Inv, ThermalCore;
    if cores != [] {
      assert cores[0].online ==> cores[0].cpuId in OnlineIds(cores);
      ThermalCoreKeepsInv(e, cores[0], zones, refused, k0, cpus, devices);
      ThermalKeepsInv(ThermalCore(e, cores[0], zones, refused), cores[1..], zones, refused, k0, cpus, devices);
    }
  }

  lemma {:induction false} LoadCoresKeepInv(e: Engine, cores: seq<Core>, target: int, refused: set<Write>,
                                            k0: Knobs, cpus: set<int>, devices: set<string>)
    requires Inv(e, k0, cpus, devices) && OnlineIds(cores) <= cpus
    ensures Inv(LoadCores(e, cores, target, refused), k0, cpus, devices)
    decreases cores
  {
    hide Inv, SetEppIfChanged;
    if cores != [] {
      var e' := e;
      if cores[0].online {
        assert cores[0].cpuId in OnlineIds(cores);
        EppKeepsInv(e, cores[0].cpuId, target, refused, k0, cpus, devices);
        e' := SetEppIfChanged(e, cores[0].cpuId, target, refused);
      }
      LoadCoresKeepInv(e', cores[1..], target, refused, k0, cpus, devices);
    }
  }

  lemma IoDiskKeepsInv(e: Engine, disk: Disk, refused: set<Write>,
                       k0: Knobs, cpus: set<int>, devices: set<string>)
    requires Inv(e, k0, cpus, devices) && disk.name in devices
    ensures Inv(IoDisk(e, disk, refused), k0, cpus, devices)
  {
    hide Inv, SetSchedulerIfChanged, Do;
    SchedulerKeepsInv(e, disk.name, "mq-deadline", refused, k0, cpus, devices);
    SchedulerKeepsInv(e, disk.name, "none", refused, k0, cpus, devices);
    if IsNvme(disk.name) {
      var e' := SetSchedulerIfChanged(e, disk.name, "none", refused);
      LatencyKeepsInv(e', disk.name, refused, k0, cpus, devices);
    }
  }

  lemma {:induction false} IoDisksKeepInv(e: Engine, disks: seq<Disk>, refused: set<Write>,
                                          k0: Knobs, cpus: set<int>, devices: set<string>)
    requires Inv(e, k0, cpus, devices) && DiskNames(disks) <= devices
    ensures Inv(IoDisks(e, disks, refused), k0, cpus, devices)
    decreases disks
  {
    hide Inv, IoDisk;
    if disks != [] {
      assert disks[0].name in DiskNames(disks);
      IoDiskKeepsInv(e, disks[0], refused, k0, cpus, devices);
      IoDisksKeepInv(IoDisk(e, disks[0], refused), disks[1..], refused, k0, cpus, devices);
    }
  }

  // ---------- Ticks and runs ----------

  lemma TickKeepsInv(e: Engine, cores: seq<Core>, t: TickInput, k0: Knobs, cpus: set<int>, devices: set<string>)
    requires Inv(e, k0, cpus, devices) && OnlineIds(cores) <= cpus && DiskNames(t.disks) <= devices
    ensures Inv(Tick(e, cores, t), k0, cpus, devices)
  {
    hide Inv, Thermal, LoadCores, Memory, IoDisks, ActivityOf, TargetEpp, OnlineIds;
    var e1 := Thermal(e, cores, t.policyZones, t.refused);
    ThermalKeepsInv(e, cores, t.policyZones, t.refused, k0, cpus, devices);
    var e2 := Load(e1, cores, ActivityOf(t), t.policyLoad, t.policyOnline, t.refused);
    if t.policyOnline != 0 {
      LoadCoresKeepInv(e1, cores, TargetEpp(ActivityOf(t), t.policyLoad / t.policyOnline as real),
                       t.refused, k0, cpus, devices);
    }
    MemoryKeepsInv(e2, t.policyPressure, t.refused, k0, cpus, devices);
    IoDisksKeepInv(Memory(e2, t.policyPressure, t.refused), t.disks, t.refused, k0, cpus, devices);
  }

  ghost predicate DisksWithin(ts: seq<TickInput>, devices: set<string>) {
    forall t <- ts :: DiskNames(t.disks) <= devices
  }

  lemma {:induction false} TicksKeepInv(e: Engine, cores: seq<Core>, ts: seq<TickInput>,
                                        k0: Knobs, cpus: set<int>, devices: set<string>)
    requires Inv(e, k0, cpus, devices) && OnlineIds(cores) <= cpus && DisksWithin(ts, devices)
    ensures Inv(Ticks(e, cores, ts), k0, cpus, devices)
    decreases |ts|
  {
    hide Inv, Tick, OnlineIds;
    if ts != [] {
      var n := |ts| - 1;
      TicksKeepInv(e, cores, ts[..n], k0, cpus, devices);
      TickKeepsInv(Ticks(e, cores, ts[..n]), cores, ts[n], k0, cpus, devices);
    }
  }

  lemma StartEstablishesInv(k0: Knobs, cores: seq<Core>, start: StartInput, cpus: set<int>, devices: set<string>)
    requires OnlineIds(cores) <= cpus && DiskNames(start.disks) <= devices
    ensures Inv(ApplyInitialState(NewEngine(k0), cores, start.disks, start.refused), k0, cpus, devices)
  {
    assert Starting(NewEngine(k0), k0, cpus, devices);
    InitCoresKeepStarting(NewEngine(k0), cores, start.refused, k0, cpus, devices);
    var e := InitCores(NewEngine(k0), cores, start.refused);
    assert Inv(e, k0, cpus, devices);
    hide Inv;
    InitDisksKeepInv(e, start.disks, start.refused, k0, cpus, devices);
  }

  /** In every reachable state of every run, under every pattern of failing writes, the caches
      are coherent, the caps are bounded and only listed knobs differ from the start. */
  lemma EveryRunKeepsInv(k0: Knobs, cores: seq<Core>, start: StartInput, ts: seq<TickInput>,
                         cpus: set<int>, devices: set<string>)
    requires OnlineIds(cores) <= cpus && DiskNames(start.disks) <= devices && DisksWithin(ts, devices)
    ensures Inv(Run(k0, cores, start, ts), k0, cpus, devices)
  {
    hide Inv, ApplyInitialState;
    StartEstablishesInv(k0, cores, start, cpus, devices);
    TicksKeepInv(ApplyInitialState(NewEngine(k0), cores, start.disks, start.refused), cores, ts, k0, cpus, devices);
  }

  /** Every device any tick lists. */
  function AllDisks(start: StartInput, ts: seq<TickInput>): set<string> {
    DiskNames(start.disks) + set t <- ts, d <- DiskNames(t.disks) :: d
  }
}
