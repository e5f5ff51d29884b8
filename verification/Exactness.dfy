/** How far the promise to leave the system unmodified holds: exactly when every run restores the
    whole knob table, and what becomes of snapshots that are not read back as they were. */
module Exactness {
  import opened Text
  import opened Stream
  import opened Kernel
  import opened StateBackup
  import opened Alignment
  import opened PolicyEngine
  import opened PolicyInvariants
  import opened PlainPolicy
  import PolicyTheorems
  import opened Restore
  import opened Lifecycle

  /** What the kernel's own files guarantee: numbers fit, a governor file holds one word and comes
      with any EPP file of its core, names are proper, and the cache pressure can be set. */
  ghost predicate Machine(k0: Knobs, cores: seq<Core>, devices: seq<string>) {
    && InRange(Capture(k0, cores, devices))
    && (forall c <- k0.governor :: IsWord(k0.governor[c]))
    && (forall c <- k0.epp :: c in k0.governor)
    && ProperNames(k0, devices)
    && VfsCachePressure in k0.vm
  }

  /** The EPP file of the core holds a plain numeral, as `std::to_string` would print it. */
  ghost predicate PlainEpp(k0: Knobs, cpu: int) {
    cpu in k0.epp ==> exists v :: IsInt32(v) && k0.epp[cpu] == IntText(v)
  }

  /** The run already finds the latency targets it would set. */
  ghost predicate DefaultLatency(k0: Knobs, device: string) {
    "nvme" <= device && device in k0.latency ==> k0.latency[device] == (2000000, 10000000)
  }

  /** A device as this machine lists it: its `queue/rotational` file, if it has one, tells its kind;
      its requests in flight vary. */
  function Listed(rotational: map<string, int>, device: string, inProgress: nat): Disk {
    Disk(device, if device in rotational then Some(rotational[device]) else None, inProgress)
  }

  /** The schedulers a run may ask a device of this machine for. */
  predicate AskedFor(rotational: map<string, int>, device: string, name: string) {
    || (name == "mq-deadline" && ("nvme" <= device || (device in rotational && rotational[device] == 1)))
    || (name == "none" && "nvme" <= device)
  }

  /** The device offers no scheduler a run may ask for, other than its active one. */
  ghost predicate Settled(k0: Knobs, rotational: map<string, int>, device: string) {
    device in k0.scheduler ==>
      forall name <- k0.scheduler[device].choices ::
        AskedFor(rotational, device, name) ==> name == k0.scheduler[device].active
  }

  /** Every online core has a governor and a plain EPP, if any; every listed device has the default
      latency targets and is read back or settled. */
  ghost predicate FullyRestorable(k0: Knobs, cores: seq<Core>, devices: seq<string>, rotational: map<string, int>) {
    && (forall core <- cores :: core.online ==> core.cpuId in k0.governor && PlainEpp(k0, core.cpuId))
    && (forall i :: 0 <= i < |devices| ==>
          DefaultLatency(k0, devices[i]) && (ReadBack(k0, devices, i) || Settled(k0, rotational, devices[i])))
  }

  /** The listing names captured devices only, each with this machine's kind. */
  ghost predicate Genuine(disks: seq<Disk>, devices: seq<string>, rotational: map<string, int>) {
    forall disk <- disks :: disk.name in devices && disk == Listed(rotational, disk.name, disk.inProgress)
  }

  ghost predicate Closed(devices: seq<string>, rotational: map<string, int>, start: StartInput, ts: seq<TickInput>) {
    Genuine(start.disks, devices, rotational) && forall t <- ts :: Genuine(t.disks, devices, rotational)
  }

  function Final(k0: Knobs, cores: seq<Core>, devices: seq<string>, start: StartInput,
                 ts: seq<TickInput>): Knobs
  {
    FinalKnobs(k0, cores, devices, cores, start, ts, {})
  }

  ghost predicate EveryRunRestores(k0: Knobs, cores: seq<Core>, devices: seq<string>, rotational: map<string, int>) {
    forall start: StartInput, ts: seq<TickInput> ::
      Closed(devices, rotational, start, ts) ==> Final(k0, cores, devices, start, ts) == k0
  }

  // ---------- With and without governors ----------

  lemma FinalIs(k0: Knobs, cores: seq<Core>, devices: seq<string>, start: StartInput, ts: seq<TickInput>)
    requires InRange(Capture(k0, cores, devices)) && Governed(k0, cores)
    ensures Final(k0, cores, devices, start, ts)
         == DoAll(Run(k0, cores, start, ts).knobs, RestoreWrites(LoadedState(k0, cores, devices)), {})
  {
    hide InRange, Governed, FinalKnobs, RestoreWrites, LoadedState, Run;
    FinalKnobsAre(k0, cores, devices, cores, start, ts, {});
  }

  /** The first core without a governor word has no EPP either: loading throws and the stopped run
      restores nothing at all. */
  lemma NoGovernorNoRestore(k0: Knobs, cores: seq<Core>, devices: seq<string>, engineCores: seq<Core>,
                            start: StartInput, ts: seq<TickInput>, refused: set<Write>)
    requires InRange(Capture(k0, cores, devices)) && FirstNamelessThrows(CaptureCpus(k0, cores))
    ensures LoadText(SaveText(Capture(k0, cores, devices))) == Threw
    ensures FinalKnobs(k0, cores, devices, engineCores, start, ts, refused) == Run(k0, engineCores, start, ts).knobs
  {
    hide CaptureCpus, CaptureIos, ReadSysctl, CpuInRange, IoInRange, FirstNamelessThrows, Run, CpuText, LoadText,
      SaveText;
    var state := Capture(k0, cores, devices);
    LoadCpusSection(state);
    NamelessCpusThrow(state.cpus, IoSection(state.ios));
  }

  /** The governors read and the governors there are. */
  lemma {:induction false} NamedIsGoverned(k0: Knobs, cores: seq<Core>)
    requires forall c <- k0.governor :: IsWord(k0.governor[c])
    requires forall c <- k0.epp :: c in k0.governor
    ensures EppNeedsGovernor(CaptureCpus(k0, cores))
    ensures GovernorsNamed(CaptureCpus(k0, cores)) <==> Governed(k0, cores)
  {
    hide CurrentGovernor, CurrentEpp, IsWord, SnapshotOf;
    if cores != [] {
      var rest, c := cores[1..], cores[0].cpuId;
      NamedIsGoverned(k0, rest);
      GovernedSplits(k0, cores);
      var cpus := CaptureCpus(k0, rest);
      if cores[0].online {
        var cpu := SnapshotOf(k0, c);
        assert CaptureCpus(k0, cores) == [cpu] + cpus;
        GovernorOrNothing(k0, c);
        NamedSplits(cpu, cpus);
      } else {
        assert CaptureCpus(k0, cores) == cpus;
      }
    }
  }

  lemma GovernedSplits(k0: Knobs, cores: seq<Core>)
    requires cores != []
    requires forall c <- k0.governor :: IsWord(k0.governor[c])
    ensures Governed(k0, cores) <==>
      (cores[0].online ==> cores[0].cpuId in k0.governor) && Governed(k0, cores[1..])
  {
    hide IsWord;
    assert cores == [cores[0]] + cores[1..];
  }

  lemma NamedSplits(cpu: CpuFreqState, cpus: seq<CpuFreqState>)
    ensures GovernorsNamed([cpu] + cpus) <==> cpu.governor != "" && GovernorsNamed(cpus)
    ensures EppNeedsGovernor([cpu] + cpus) <==> (cpu.governor == "" ==> cpu.epp == None) && EppNeedsGovernor(cpus)
  {
    assert ([cpu] + cpus)[0] == cpu && forall i :: 0 <= i < |cpus| ==> ([cpu] + cpus)[i + 1] == cpus[i];
  }

  lemma GovernorOrNothing(k0: Knobs, c: int)
    requires forall c <- k0.governor :: IsWord(k0.governor[c])
    requires forall c <- k0.epp :: c in k0.governor
    ensures SnapshotOf(k0, c).governor == "" <==> c !in k0.governor
    ensures c !in k0.governor ==> SnapshotOf(k0, c).epp == None
  {
    if c in k0.governor {
      GovernorIsRead(k0, c);
      WordIsNotEmpty(k0.governor[c]);
    } else {
      NothingToRead();
    }
    hide CurrentEpp;
  }

  lemma NothingToRead()
    ensures ReadWord(Good("")).0 == ""
  {
    ReadWordAtEnd("");
  }

  /** On such a machine loading throws exactly when an online core has no governor, and then the
      stopped run restores nothing. */
  lemma LoadThrowsExactly(k0: Knobs, cores: seq<Core>, devices: seq<string>)
    requires Machine(k0, cores, devices)
    ensures LoadText(SaveText(Capture(k0, cores, devices))) == Threw <==> !Governed(k0, cores)
  {
    hide LoadText, SaveText, CaptureCpus, CaptureIos, CpuInRange, IoInRange, ReadSysctl, Governed, ProperNames;
    NamedIsGoverned(k0, cores);
    ThrowsExactly(Capture(k0, cores, devices));
  }

  lemma FinalIsRun(k0: Knobs, cores: seq<Core>, devices: seq<string>, start: StartInput, ts: seq<TickInput>)
    requires Machine(k0, cores, devices) && !Governed(k0, cores)
    ensures Final(k0, cores, devices, start, ts) == Run(k0, cores, start, ts).knobs
  {
    hide Machine, Governed, LoadText, SaveText, Capture, Run;
    LoadThrowsExactly(k0, cores, devices);
  }

  // ---------- If ----------

  /** No write of a restore touches a core or device that was not captured, or an NVMe latency. */
  ghost predicate Within(w: Write, cpus: set<int>, devices: set<string>) {
    match w
    case SetGovernor(c, _) => c in cpus
    case SetMinFreq(c, _) => c in cpus
    case SetMaxFreq(c, _) => c in cpus
    case SetEpp(c, _) => c in cpus
    case SetScheduler(d, _) => d in devices
    case SetLatency(_, _, _) => false
    case SetVm(_, _) => true
  }

  lemma {:induction false} RestoreStaysWithin(k0: Knobs, cores: seq<Core>, devices: seq<string>)
    requires ProperNames(k0, devices)
    ensures forall w <- RestoreWrites(LoadedState(k0, cores, devices)) ::
      Within(w, OnlineIds(cores), set d <- devices) || !Accepts(k0, w)
  {
    hide CurrentScheduler, CaptureCpus, CaptureIos, ReadIos, ReadSysctl, Accepts, OnlineIds;
    var ios := CaptureIos(k0, devices);
    CpuWritesWithin(k0, cores, OnlineIds(cores), set d <- devices);
    SameCoreWrites(Capture(k0, cores, devices), ReadIos(ios));
    IoWritesNamed(ReadIos(ios));
    IosCaptured(k0, devices);
    ReadLength(ios);
    hide ProperNames;
    forall r <- ReadIos(ios) ensures r.device in devices || !Accepts(k0, SetScheduler(r.device, r.scheduler)) {
      var k :| 0 <= k < |ios| && ReadIos(ios)[k] == r;
      RecordIsOwnOrShifted(ios, k);
      if r.device !in devices {
        DeviceNotOffered(k0, devices, r.device, r.scheduler);
      }
    }
    hide IoWrites, AllCpuWrites;
  }

  lemma {:induction false} CpuWritesWithin(k0: Knobs, cores: seq<Core>, cpus: set<int>, devices: set<string>)
    requires OnlineIds(cores) <= cpus
    ensures forall w <- AllCpuWrites(CaptureCpus(k0, cores)) :: Within(w, cpus, devices)
    decreases cores
  {
    hide CurrentGovernor, CurrentEpp;
    if cores != [] {
      var rest := cores[1..];
      assert cores == [cores[0]] + rest;
      CpuWritesWithin(k0, rest, cpus, devices);
      if cores[0].online {
        assert cores[0].cpuId in OnlineIds(cores);
        assert CaptureCpus(k0, cores)[1..] == CaptureCpus(k0, rest);
      } else {
        assert CaptureCpus(k0, cores) == CaptureCpus(k0, rest);
      }
    }
  }

  /** What neither the run nor the restore may touch is as it was. */
  ghost predicate OthersKept(k0: Knobs, k: Knobs, cpus: set<int>, devices: set<string>) {
    && SameFiles(k0, k)
    && (forall c <- k0.governor :: c !in cpus ==> k.governor[c] == k0.governor[c])
    && (forall c <- k0.minFreq :: c !in cpus ==> k.minFreq[c] == k0.minFreq[c])
    && (forall c <- k0.maxFreq :: c !in cpus ==> k.maxFreq[c] == k0.maxFreq[c])
    && (forall c <- k0.epp :: c !in cpus ==> k.epp[c] == k0.epp[c])
    && (forall d <- k0.scheduler :: d !in devices ==> k.scheduler[d] == k0.scheduler[d])
  }

  lemma {:induction false} RestoreKeepsOthers(k0: Knobs, k: Knobs, ws: seq<Write>, cpus: set<int>, devices: set<string>)
    requires OthersKept(k0, k, cpus, devices)
    requires forall w <- ws :: Within(w, cpus, devices) || !Accepts(k0, w)
    ensures var k' := DoAll(k, ws, {}); OthersKept(k0, k', cpus, devices) && k'.latency == k.latency
    decreases ws
  {
    hide OthersKept, Within, Do, Accepts;
    if ws != [] {
      assert Within(ws[0], cpus, devices) || !Accepts(k0, ws[0]);
      OneKeepsOthers(k0, k, ws[0], cpus, devices);
      RestoreKeepsOthers(k0, Do(k, ws[0], {}), ws[1..], cpus, devices);
    }
  }

  lemma OneKeepsOthers(k0: Knobs, k: Knobs, w: Write, cpus: set<int>, devices: set<string>)
    requires OthersKept(k0, k, cpus, devices) && (Within(w, cpus, devices) || !Accepts(k0, w))
    ensures OthersKept(k0, Do(k, w, {}), cpus, devices) && Do(k, w, {}).latency == k.latency
  {
    hide IntText;
    SameFilesAccept(k0, k, w);
  }

  // ---------- The latency targets of a run ----------

  /** A run leaves a latency target alone or sets it to the default. */
  lemma {:induction false} IoLatency(k: Knobs, disks: seq<Disk>, refused: set<Write>, d: string)
    requires d in k.latency
    ensures var k' := PlainIoDisks(k, disks, refused);
      && d in k'.latency
      && (k'.latency[d] == k.latency[d] || k'.latency[d] == (NVME_READ_LATENCY, NVME_WRITE_LATENCY))
    decreases disks
  {
    hide IsNvme;
    if disks != [] {
      IoDiskLatency(k, disks[0], refused, d);
      hide PlainIoDisk;
      IoLatency(PlainIoDisk(k, disks[0], refused), disks[1..], refused, d);
    }
  }

  lemma IoDiskLatency(k: Knobs, disk: Disk, refused: set<Write>, d: string)
    requires d in k.latency
    ensures var k' := PlainIoDisk(k, disk, refused);
      && d in k'.latency
      && (k'.latency[d] == k.latency[d] || k'.latency[d] == (NVME_READ_LATENCY, NVME_WRITE_LATENCY))
  {
    hide IsNvme, Do;
    var w := SetScheduler(disk.name, "none");
    PolicyTheorems.SchedulerWrites(k, disk.name, "mq-deadline", refused);
    PolicyTheorems.SchedulerWrites(k, disk.name, "none", refused);
    PolicyTheorems.LatencyWrites(Do(k, w, refused), disk.name, refused);
  }

  lemma {:induction false} TicksLatency(k0: Knobs, k: Knobs, cores: seq<Core>, ts: seq<TickInput>, d: string)
    requires d in k.latency && k.latency[d] == (NVME_READ_LATENCY, NVME_WRITE_LATENCY)
    ensures var k' := PlainTicks(k0, k, cores, ts); d in k'.latency && k'.latency[d] == k.latency[d]
    decreases |ts|
  {
    hide BeforeIo, PlainIoDisks, ActivityOf;
    if ts != [] {
      var n := |ts| - 1;
      TicksLatency(k0, k, cores, ts[..n], d);
      var k1 := PlainTicks(k0, k, cores, ts[..n]);
      PolicyTheorems.BeforeIoKeepsLatency(k0, k1, cores, ts[n]);
      IoLatency(BeforeIo(k0, k1, cores, ts[n]), ts[n].disks, ts[n].refused, d);
    }
  }

  lemma DefaultLatencyKept(k0: Knobs, cores: seq<Core>, start: StartInput, ts: seq<TickInput>, d: string)
    requires d in k0.latency && k0.latency[d] == (NVME_READ_LATENCY, NVME_WRITE_LATENCY)
    ensures var k := Run(k0, cores, start, ts).knobs; d in k.latency && k.latency[d] == k0.latency[d]
  {
    CachedRunIsPlainRun(k0, cores, start, ts);
    hide Run, OnlineIds, PlainInitCores, PlainInitDisks;
    PolicyTheorems.InitCoresWrite(k0, cores, start.refused);
    PolicyTheorems.InitDisksWrite(PlainInitCores(k0, cores, start.refused), start.disks, start.refused);
    TicksLatency(k0, PlainStart(k0, cores, start), cores, ts, d);
  }

  /** Every run over captured devices keeps what the restore does not cover. */
  lemma RunKeepsOthers(k0: Knobs, cores: seq<Core>, devices: seq<string>, rotational: map<string, int>,
                       start: StartInput, ts: seq<TickInput>)
    requires Closed(devices, rotational, start, ts)
    requires forall i :: 0 <= i < |devices| ==> DefaultLatency(k0, devices[i])
    ensures var k := Run(k0, cores, start, ts).knobs;
            OthersKept(k0, k, OnlineIds(cores), set d <- devices) && k.latency == k0.latency
  {
    var names := set d <- devices;
    GenuineNames(start.disks, devices, rotational);
    forall t <- ts ensures DiskNames(t.disks) <= names {
      GenuineNames(t.disks, devices, rotational);
    }
    EveryRunKeepsInv(k0, cores, start, ts, OnlineIds(cores), names);
    var k := Run(k0, cores, start, ts).knobs;
    assert Framed(k0, k, OnlineIds(cores), names);
    hide Run, OnlineIds, Inv, Closed;
    forall d <- k0.latency ensures k.latency[d] == k0.latency[d] {
      if d in names && IsNvme(d) {
        DefaultLatencyKept(k0, cores, start, ts, d);
      }
    }
  }

  lemma GenuineNames(disks: seq<Disk>, devices: seq<string>, rotational: map<string, int>)
    requires Genuine(disks, devices, rotational)
    ensures DiskNames(disks) <= (set d <- devices)
  {
  }

  // ---------- The scheduler of a settled device ----------

  lemma SettledStep(k0: Knobs, k: Knobs, rotational: map<string, int>, w: Write, refused: set<Write>, d: string)
    requires d in k0.scheduler && Settled(k0, rotational, d) && d in k.scheduler && k.scheduler[d] == k0.scheduler[d]
    requires w.SetScheduler? && (w.device == d ==> AskedFor(rotational, d, w.scheduler))
    ensures var k' := Do(k, w, refused); d in k'.scheduler && k'.scheduler[d] == k0.scheduler[d]
  {
    hide Do, AskedFor;
    PolicyTheorems.SchedulerAfter(k, w.device, w.scheduler, refused, d);
  }

  lemma {:induction false} SettledAtStart(k0: Knobs, k: Knobs, devices: seq<string>, rotational: map<string, int>,
                                          disks: seq<Disk>, refused: set<Write>, d: string)
    requires d in k0.scheduler && Settled(k0, rotational, d) && d in k.scheduler && k.scheduler[d] == k0.scheduler[d]
    requires Genuine(disks, devices, rotational)
    ensures var k' := PlainInitDisks(k, disks, refused); d in k'.scheduler && k'.scheduler[d] == k0.scheduler[d]
    decreases disks
  {
    hide Do, Settled, IsNvme;
    if disks != [] {
      SettledInitDisk(k0, k, rotational, disks[0], refused, d);
      hide PlainInitDisk;
      SettledAtStart(k0, PlainInitDisk(k, disks[0], refused), devices, rotational, disks[1..], refused, d);
    }
  }

  lemma SettledInitDisk(k0: Knobs, k: Knobs, rotational: map<string, int>, disk: Disk, refused: set<Write>, d: string)
    requires d in k0.scheduler && Settled(k0, rotational, d) && d in k.scheduler && k.scheduler[d] == k0.scheduler[d]
    requires disk == Listed(rotational, disk.name, disk.inProgress)
    ensures var k' := PlainInitDisk(k, disk, refused); d in k'.scheduler && k'.scheduler[d] == k0.scheduler[d]
  {
    hide Do, Settled;
    match DetectKind(disk)
    case Nvme => SettledStep(k0, k, rotational, SetScheduler(disk.name, "none"), refused, d);
    case Hdd => SettledStep(k0, k, rotational, SetScheduler(disk.name, "mq-deadline"), refused, d);
    case _ =>
  }

  lemma SettledIoDisk(k0: Knobs, k: Knobs, rotational: map<string, int>, disk: Disk, refused: set<Write>, d: string)
    requires d in k0.scheduler && Settled(k0, rotational, d) && d in k.scheduler && k.scheduler[d] == k0.scheduler[d]
    ensures var k' := PlainIoDisk(k, disk, refused); d in k'.scheduler && k'.scheduler[d] == k0.scheduler[d]
  {
    hide Do, Settled;
    if IsNvme(disk.name) {
      SettledStep(k0, k, rotational, SetScheduler(disk.name, "mq-deadline"), refused, d);
      SettledStep(k0, k, rotational, SetScheduler(disk.name, "none"), refused, d);
      PolicyTheorems.LatencyWrites(Do(k, SetScheduler(disk.name, "none"), refused), disk.name, refused);
    }
  }

  lemma {:induction false} SettledInIo(k0: Knobs, k: Knobs, rotational: map<string, int>, disks: seq<Disk>,
                                       refused: set<Write>, d: string)
    requires d in k0.scheduler && Settled(k0, rotational, d) && d in k.scheduler && k.scheduler[d] == k0.scheduler[d]
    ensures var k' := PlainIoDisks(k, disks, refused); d in k'.scheduler && k'.scheduler[d] == k0.scheduler[d]
    decreases disks
  {
    hide Settled, PlainIoDisk;
    if disks != [] {
      SettledIoDisk(k0, k, rotational, disks[0], refused, d);
      SettledInIo(k0, PlainIoDisk(k, disks[0], refused), rotational, disks[1..], refused, d);
    }
  }

  lemma {:induction false} SettledInTicks(k0: Knobs, k: Knobs, rotational: map<string, int>, cores: seq<Core>,
                                          ts: seq<TickInput>, d: string)
    requires d in k0.scheduler && Settled(k0, rotational, d) && d in k.scheduler && k.scheduler[d] == k0.scheduler[d]
    ensures var k' := PlainTicks(k0, k, cores, ts); d in k'.scheduler && k'.scheduler[d] == k0.scheduler[d]
    decreases |ts|
  {
    hide Settled, BeforeIo, PlainIoDisks, ActivityOf;
    if ts != [] {
      var n := |ts| - 1;
      SettledInTicks(k0, k, rotational, cores, ts[..n], d);
      var k1 := PlainTicks(k0, k, cores, ts[..n]);
      PolicyTheorems.TickByPolicy(k0, k1, cores, ts[n]);
      SettledInIo(k0, BeforeIo(k0, k1, cores, ts[n]), rotational, ts[n].disks, ts[n].refused, d);
    }
  }

  /** No run over genuine listings changes the scheduler of a settled device. */
  lemma SettledIsKept(k0: Knobs, cores: seq<Core>, devices: seq<string>, rotational: map<string, int>,
                      start: StartInput, ts: seq<TickInput>, d: string)
    requires d in k0.scheduler && Settled(k0, rotational, d) && Genuine(start.disks, devices, rotational)
    ensures var k := Run(k0, cores, start, ts).knobs; d in k.scheduler && k.scheduler[d] == k0.scheduler[d]
  {
    hide Run, OnlineIds, PlainInitCores, PlainInitDisks, Settled, Genuine;
    CachedRunIsPlainRun(k0, cores, start, ts);
    PolicyTheorems.InitCoresWrite(k0, cores, start.refused);
    var k := PlainInitCores(k0, cores, start.refused);
    SettledAtStart(k0, k, devices, rotational, start.disks, start.refused, d);
    SettledInTicks(k0, PlainStart(k0, cores, start), rotational, cores, ts, d);
  }

  // ---------- The EPP of a core ----------

  /** A numeric EPP is written back as its plain numeral. */
  lemma EppRestoredAs(k0: Knobs, cores: seq<Core>, devices: seq<string>, start: StartInput, ts: seq<TickInput>,
                      cpu: int, v: int)
    requires InRange(Capture(k0, cores, devices)) && Governed(k0, cores)
    requires cpu in OnlineIds(cores) && CurrentEpp(k0, cpu) == Some(v)
    ensures Shows(Final(k0, cores, devices, start, ts), SetEpp(cpu, v))
  {
    hide InRange, Governed, RestoreWrites, Capture, Captured, CpuWrites, Run, CurrentEpp, OnlineIds, SnapshotOf,
      ReadIos, CoreWrites, IoWrites, Final, SameFiles;
    var state, run := Capture(k0, cores, devices), Run(k0, cores, start, ts).knobs;
    FinalIs(k0, cores, devices, start, ts);
    SameCoreWrites(state, LoadedState(k0, cores, devices).ios);
    EppIsListed(k0, cores, devices, cpu, v);
    EppKnobExists(k0, cpu);
    PolicyTheorems.RunKeepsFiles(k0, cores, start, ts);
    CachedRunIsPlainRun(k0, cores, start, ts);
    CoreWritesShow(k0, run, cores, devices, LoadedState(k0, cores, devices).ios, {});
  }

  lemma EppIsListed(k0: Knobs, cores: seq<Core>, devices: seq<string>, cpu: int, v: int)
    requires cpu in OnlineIds(cores) && CurrentEpp(k0, cpu) == Some(v)
    ensures SetEpp(cpu, v) in CoreWrites(Capture(k0, cores, devices))
  {
    hide CoreWrites, Capture, CpuWrites, SnapshotOf, Captured, CurrentEpp, ReadSysctl;
    CoreWritesCaptured(k0, cores, devices);
    var core :| core in cores && core.online && core.cpuId == cpu;
    EppWriteListed(k0, cpu, v);
  }

  lemma EppWriteListed(k0: Knobs, cpu: int, v: int)
    requires CurrentEpp(k0, cpu) == Some(v)
    ensures SetEpp(cpu, v) in CpuWrites(SnapshotOf(k0, cpu))
  {
    hide CurrentEpp, CurrentGovernor;
    assert CpuWrites(SnapshotOf(k0, cpu))[3] == SetEpp(cpu, v);
  }

  /** A plain numeral is restored to the letter. */
  lemma PlainEppRestored(k0: Knobs, cores: seq<Core>, devices: seq<string>, start: StartInput, ts: seq<TickInput>,
                         cpu: int)
    requires InRange(Capture(k0, cores, devices)) && Governed(k0, cores)
    requires cpu in OnlineIds(cores) && cpu in k0.epp && PlainEpp(k0, cpu)
    ensures var k := Final(k0, cores, devices, start, ts); cpu in k.epp && k.epp[cpu] == k0.epp[cpu]
  {
    hide InRange, Governed, Capture, OnlineIds, Final, CurrentEpp, IntText;
    var v :| IsInt32(v) && k0.epp[cpu] == IntText(v);
    EppShown(k0, cpu, v);
    EppRestoredAs(k0, cores, devices, start, ts, cpu, v);
  }

  // ---------- The whole table ----------

  lemma RestorableIsGoverned(k0: Knobs, cores: seq<Core>, devices: seq<string>, rotational: map<string, int>)
    requires Machine(k0, cores, devices) && FullyRestorable(k0, cores, devices, rotational)
    ensures Governed(k0, cores)
  {
    hide Capture, InRange, ProperNames, ReadBack, IsWord;
  }

  /** Every run over genuine listings of a fully restorable machine leaves the table as it was. */
  lemma RestorableIsRestored(k0: Knobs, cores: seq<Core>, devices: seq<string>, rotational: map<string, int>,
                             start: StartInput, ts: seq<TickInput>)
    requires Machine(k0, cores, devices) && FullyRestorable(k0, cores, devices, rotational)
    requires Closed(devices, rotational, start, ts)
    ensures Final(k0, cores, devices, start, ts) == k0
  {
    RestorableIsGoverned(k0, cores, devices, rotational);
    CoresAreBack(k0, cores, devices, start, ts);
    SchedulersAreBack(k0, cores, devices, rotational, start, ts);
    OthersAreBack(k0, cores, devices, rotational, start, ts);
    hide Machine, Closed, Final, OnlineIds, ReadBack, Settled, CoresRestored, OthersKept, Governed, PlainEpp,
      DefaultLatency;
    assert InRange(Capture(k0, cores, devices)) by { MachineInRange(k0, cores, devices); }
    var k := Final(k0, cores, devices, start, ts);
    forall c | c in OnlineIds(cores) && c in k0.epp ensures c in k.epp && k.epp[c] == k0.epp[c] {
      OnlineCore(cores, c);
      PlainEppRestored(k0, cores, devices, start, ts, c);
    }
    SameKnobs(k0, k, cores, devices);
  }

  lemma MachineInRange(k0: Knobs, cores: seq<Core>, devices: seq<string>)
    requires Machine(k0, cores, devices)
    ensures InRange(Capture(k0, cores, devices)) && ProperNames(k0, devices)
  {
    hide InRange, Capture, ProperNames;
  }

  lemma OnlineCore(cores: seq<Core>, c: int)
    requires c in OnlineIds(cores)
    ensures exists core <- cores :: core.online && core.cpuId == c
  {
  }

  lemma CoresAreBack(k0: Knobs, cores: seq<Core>, devices: seq<string>, start: StartInput, ts: seq<TickInput>)
    requires Machine(k0, cores, devices) && Governed(k0, cores)
    ensures CoresRestored(k0, Final(k0, cores, devices, start, ts), cores, {})
  {
    hide Machine, Governed, Capture, FinalKnobs, CoreWrites, CoresRestored;
    MachineInRange(k0, cores, devices);
    StoppedRunRestores(k0, cores, devices, cores, start, ts, {});
  }

  lemma SchedulersAreBack(k0: Knobs, cores: seq<Core>, devices: seq<string>, rotational: map<string, int>,
                          start: StartInput, ts: seq<TickInput>)
    requires Machine(k0, cores, devices) && Governed(k0, cores) && Closed(devices, rotational, start, ts)
    requires forall i :: 0 <= i < |devices| ==> ReadBack(k0, devices, i) || Settled(k0, rotational, devices[i])
    ensures forall d <- devices :: d in k0.scheduler ==>
      var k := Final(k0, cores, devices, start, ts); d in k.scheduler && k.scheduler[d] == k0.scheduler[d]
  {
    hide Machine, Governed, Capture, FinalKnobs, Run, ReadBack, Settled, Genuine;
    MachineInRange(k0, cores, devices);
    forall d <- devices | d in k0.scheduler
      ensures var k := Final(k0, cores, devices, start, ts); d in k.scheduler && k.scheduler[d] == k0.scheduler[d]
    {
      var i :| 0 <= i < |devices| && devices[i] == d;
      SchedulersAfterStop(k0, cores, devices, cores, start, ts, {}, i);
      if !ReadBack(k0, devices, i) {
        SettledIsKept(k0, cores, devices, rotational, start, ts, d);
      }
    }
  }

  lemma OthersAreBack(k0: Knobs, cores: seq<Core>, devices: seq<string>, rotational: map<string, int>,
                      start: StartInput, ts: seq<TickInput>)
    requires Machine(k0, cores, devices) && Governed(k0, cores) && Closed(devices, rotational, start, ts)
    requires forall i :: 0 <= i < |devices| ==> DefaultLatency(k0, devices[i])
    ensures var k := Final(k0, cores, devices, start, ts);
            OthersKept(k0, k, OnlineIds(cores), set d <- devices) && k.latency == k0.latency
  {
    hide Machine, Governed, Capture, Final, RestoreWrites, LoadedState, Run, OthersKept, Within, Closed, OnlineIds,
      DefaultLatency, Accepts, ProperNames;
    MachineInRange(k0, cores, devices);
    RunKeepsOthers(k0, cores, devices, rotational, start, ts);
    FinalIs(k0, cores, devices, start, ts);
    RestoreStaysWithin(k0, cores, devices);
    RestoreKeepsOthers(k0, Run(k0, cores, start, ts).knobs, RestoreWrites(LoadedState(k0, cores, devices)),
                       OnlineIds(cores), set d <- devices);
  }

  /** Restored on the captured cores and devices and kept elsewhere is the same table. */
  lemma SameKnobs(k0: Knobs, k: Knobs, cores: seq<Core>, devices: seq<string>)
    requires CoresRestored(k0, k, cores, {}) && OthersKept(k0, k, OnlineIds(cores), set d <- devices)
    requires k.latency == k0.latency
    requires forall d <- devices :: d in k0.scheduler ==> k.scheduler[d] == k0.scheduler[d]
    requires forall c | c in OnlineIds(cores) && c in k0.epp :: k.epp[c] == k0.epp[c]
    ensures k == k0
  {
    forall c | c in OnlineIds(cores) ensures CpuRestored(k0, k, c, {}) {
      var core :| core in cores && core.online && core.cpuId == c;
    }
    hide OnlineIds, CurrentEpp;
    forall c <- k0.governor ensures k.governor[c] == k0.governor[c] {
      assert c in OnlineIds(cores) ==> CpuRestored(k0, k, c, {});
    }
    forall c <- k0.minFreq ensures k.minFreq[c] == k0.minFreq[c] {
      assert c in OnlineIds(cores) ==> CpuRestored(k0, k, c, {});
    }
    forall c <- k0.maxFreq ensures k.maxFreq[c] == k0.maxFreq[c] {
      assert c in OnlineIds(cores) ==> CpuRestored(k0, k, c, {});
    }
    assert k.governor == k0.governor && k.minFreq == k0.minFreq && k.maxFreq == k0.maxFreq;
    forall c <- k0.epp ensures k.epp[c] == k0.epp[c] {
      assert c in OnlineIds(cores) ==> c in OnlineIds(cores) && c in k0.epp;
    }
    assert k.epp == k0.epp;
    assert k.scheduler == k0.scheduler;
  }

  // ---------- Only if ----------

  /** The machine's whole listing, with the same number of requests in flight at every device. */
  function Listing(devices: seq<string>, rotational: map<string, int>, inProgress: nat): seq<Disk> {
    seq(|devices|, i requires 0 <= i < |devices| => Listed(rotational, devices[i], inProgress))
  }

  function ListedStart(devices: seq<string>, rotational: map<string, int>): StartInput {
    StartInput(Listing(devices, rotational, 0), {})
  }

  /** A tick that reads a load of one on every online core and rising memory pressure, and whose
      writes all succeed. */
  function LoudTick(cores: seq<Core>, devices: seq<string>, rotational: map<string, int>, inProgress: nat): TickInput {
    var online := |OnlineIds(cores)|;
    TickInput(10.0, [], online as real, online, [], online as real, online, 10.0,
              Listing(devices, rotational, inProgress), [], {})
  }

  /** The knobs after a run of one such tick, and after its restore. */
  function ProbeRun(k0: Knobs, cores: seq<Core>, devices: seq<string>, rotational: map<string, int>, n: nat): Knobs {
    Run(k0, cores, ListedStart(devices, rotational), [LoudTick(cores, devices, rotational, n)]).knobs
  }

  function Probe(k0: Knobs, cores: seq<Core>, devices: seq<string>, rotational: map<string, int>, n: nat): Knobs {
    Final(k0, cores, devices, ListedStart(devices, rotational), [LoudTick(cores, devices, rotational, n)])
  }

  lemma ListingIsGenuine(devices: seq<string>, rotational: map<string, int>, n: nat)
    ensures Genuine(Listing(devices, rotational, n), devices, rotational)
    ensures forall d <- devices :: Listed(rotational, d, n) in Listing(devices, rotational, n)
    ensures forall disk <- Listing(devices, rotational, n) :: disk.inProgress == n
  {
    forall d <- devices ensures Listed(rotational, d, n) in Listing(devices, rotational, n) {
      var i :| 0 <= i < |devices| && devices[i] == d;
      assert Listing(devices, rotational, n)[i] == Listed(rotational, d, n);
    }
  }

  lemma ProbeIsClosed(cores: seq<Core>, devices: seq<string>, rotational: map<string, int>, n: nat)
    ensures Closed(devices, rotational, ListedStart(devices, rotational), [LoudTick(cores, devices, rotational, n)])
  {
    ListingIsGenuine(devices, rotational, 0);
    ListingIsGenuine(devices, rotational, n);
    hide Genuine, OnlineIds;
  }

  lemma LoudIsBusy(cores: seq<Core>, devices: seq<string>, rotational: map<string, int>, n: nat)
    ensures ActivityOf(LoudTick(cores, devices, rotational, n)) == Moderate
  {
    hide NormalizedLoad, OnlineIds;
  }

  lemma ProbeIs(k0: Knobs, cores: seq<Core>, devices: seq<string>, rotational: map<string, int>, n: nat)
    requires InRange(Capture(k0, cores, devices)) && Governed(k0, cores)
    ensures Probe(k0, cores, devices, rotational, n)
         == DoAll(ProbeRun(k0, cores, devices, rotational, n), RestoreWrites(LoadedState(k0, cores, devices)), {})
  {
    hide InRange, Capture, Governed, Final, Run, RestoreWrites, LoadedState, LoudTick;
    FinalIs(k0, cores, devices, ListedStart(devices, rotational), [LoudTick(cores, devices, rotational, n)]);
  }

  lemma ProbeIsRun(k0: Knobs, cores: seq<Core>, devices: seq<string>, rotational: map<string, int>, n: nat)
    requires Machine(k0, cores, devices) && !Governed(k0, cores)
    ensures Probe(k0, cores, devices, rotational, n) == ProbeRun(k0, cores, devices, rotational, n)
  {
    hide Machine, Governed, Final, Run, LoudTick;
    FinalIsRun(k0, cores, devices, ListedStart(devices, rotational), [LoudTick(cores, devices, rotational, n)]);
  }

  /** The one tick of a probe is a tick of the plain loop on the knobs the start leaves. */
  lemma ProbeRunIs(k0: Knobs, cores: seq<Core>, devices: seq<string>, rotational: map<string, int>, n: nat)
    ensures ProbeRun(k0, cores, devices, rotational, n)
         == PlainTick(k0, PlainStart(k0, cores, ListedStart(devices, rotational)), cores,
                      LoudTick(cores, devices, rotational, n))
  {
    hide Run, PlainStart, PlainTick, OnlineIds, LoudTick;
    var start, t := ListedStart(devices, rotational), LoudTick(cores, devices, rotational, n);
    CachedRunIsPlainRun(k0, cores, start, [t]);
    var k := PlainStart(k0, cores, start);
    assert [t][..0] == [] && [t][0] == t;
    assert PlainTicks(k0, k, cores, []) == k;
    assert PlainTicks(k0, k, cores, [t]) == PlainTick(k0, PlainTicks(k0, k, cores, [t][..0]), cores, t);
  }

  /** After a probe every online core with an EPP file is set to performance. */
  lemma ProbeSetsEpp(k0: Knobs, cores: seq<Core>, devices: seq<string>, rotational: map<string, int>, n: nat, cpu: int)
    requires cpu in OnlineIds(cores) && cpu in k0.epp
    ensures Shows(ProbeRun(k0, cores, devices, rotational, n), SetEpp(cpu, EPP_PERFORMANCE))
  {
    var start, t := ListedStart(devices, rotational), LoudTick(cores, devices, rotational, n);
    assert [t][..0] == [] && [t][..1] == [t] && [t][0] == t;
    assert PolicyTheorems.AskedEpp(t) == 0 && t.policyOnline > 0;
    hide OnlineIds, Run, IntText, Listing, SeesIdle;
    PolicyTheorems.EppAfterTick(k0, cores, start, [t], 0, cpu);
  }

  lemma NoEppCaptured(k0: Knobs, w: Write)
    requires w.SetEpp? && CurrentEpp(k0, w.cpu) == None
    ensures forall v :: SameKnob(w, v) ==> !Captured(k0, v)
  {
    hide CurrentEpp;
  }

  /** A knob no captured write is for keeps what it shows through any restore of a load. */
  lemma UncapturedStays(k0: Knobs, k: Knobs, cores: seq<Core>, devices: seq<string>, w: Write)
    requires Shows(k, w) && !w.SetScheduler?
    requires forall v :: SameKnob(w, v) ==> !Captured(k0, v)
    ensures Shows(DoAll(k, RestoreWrites(LoadedState(k0, cores, devices)), {}), w)
  {
    hide Captured, Shows, CpuWrites, SnapshotOf, CoreWrites, IoWrites, ReadSysctl, ReadIos, Capture;
    var state := Capture(k0, cores, devices);
    var ios := LoadedState(k0, cores, devices).ios;
    SameCoreWrites(state, ios);
    CoreWritesCaptured(k0, cores, devices);
    IoWritesNamed(ios);
    hide RestoreWrites;
    StillShows(k, w, CoreWrites(state) + IoWrites(ios), {});
  }

  /** An EPP that does not read as a number is lost: the run overwrites it and no restore writes
      it. A number that is not printed plainly is written back differently. */
  lemma OtherEppIsNotRestored(k0: Knobs, cores: seq<Core>, devices: seq<string>, rotational: map<string, int>,
                              n: nat, cpu: int)
    requires Machine(k0, cores, devices) && cpu in OnlineIds(cores) && !PlainEpp(k0, cpu)
    ensures Probe(k0, cores, devices, rotational, n) != k0
  {
    hide Machine, Governed, Final, Run, IntText, CurrentEpp, OnlineIds, LoudTick, Listing;
    MachineInRange(k0, cores, devices);
    ProbeSetsEpp(k0, cores, devices, rotational, n, cpu);
    if !Governed(k0, cores) {
      ProbeIsRun(k0, cores, devices, rotational, n);
    } else {
      match CurrentEpp(k0, cpu)
      case Some(v) =>
        EppInRange(k0, cpu);
        EppRestoredAs(k0, cores, devices, ListedStart(devices, rotational), [LoudTick(cores, devices, rotational, n)],
                      cpu, v);
      case None =>
        ProbeIs(k0, cores, devices, rotational, n);
        NoEppCaptured(k0, SetEpp(cpu, EPP_PERFORMANCE));
        hide Captured, SameKnob, Probe, ProbeRun;
        UncapturedStays(k0, ProbeRun(k0, cores, devices, rotational, n), cores, devices, SetEpp(cpu, EPP_PERFORMANCE));
    }
  }

  /** A latency target other than the default is lost as well. */
  lemma OtherLatencyIsNotRestored(k0: Knobs, cores: seq<Core>, devices: seq<string>, rotational: map<string, int>,
                                  d: string)
    requires Machine(k0, cores, devices) && d in devices && !DefaultLatency(k0, d)
    ensures Probe(k0, cores, devices, rotational, 0) != k0
  {
    hide Machine, Governed, Probe, ProbeRun;
    MachineInRange(k0, cores, devices);
    ProbeSetsLatency(k0, cores, devices, rotational, d);
    if !Governed(k0, cores) {
      ProbeIsRun(k0, cores, devices, rotational, 0);
    } else {
      ProbeIs(k0, cores, devices, rotational, 0);
      UncapturedStays(k0, ProbeRun(k0, cores, devices, rotational, 0), cores, devices,
                      SetLatency(d, NVME_READ_LATENCY, NVME_WRITE_LATENCY));
    }
  }

  lemma ProbeSetsLatency(k0: Knobs, cores: seq<Core>, devices: seq<string>, rotational: map<string, int>, d: string)
    requires IsNvme(d) && d in devices && d in k0.latency
    ensures Shows(ProbeRun(k0, cores, devices, rotational, 0), SetLatency(d, NVME_READ_LATENCY, NVME_WRITE_LATENCY))
  {
    hide ProbeRun, PlainStart, BeforeIo, IsNvme, OnlineIds, ActivityOf, PlainIoDisks;
    var start, t := ListedStart(devices, rotational), LoudTick(cores, devices, rotational, 0);
    ProbeRunIs(k0, cores, devices, rotational, 0);
    LoudIsBusy(cores, devices, rotational, 0);
    ListingIsGenuine(devices, rotational, 0);
    var k1 := PlainStart(k0, cores, start);
    StartKeepsLatency(k0, cores, start);
    PolicyTheorems.BeforeIoKeepsLatency(k0, k1, cores, t);
    PolicyTheorems.TickByPolicy(k0, k1, cores, t);
    assert Listed(rotational, d, 0).name == d;
    IoSetsLatency(BeforeIo(k0, k1, cores, t), t.disks, d);
  }

  lemma StartKeepsLatency(k0: Knobs, cores: seq<Core>, start: StartInput)
    ensures PlainStart(k0, cores, start).latency == k0.latency
  {
    hide PlainInitCores, PlainInitDisks;
    PolicyTheorems.InitCoresWrite(k0, cores, start.refused);
    PolicyTheorems.InitDisksWrite(PlainInitCores(k0, cores, start.refused), start.disks, start.refused);
  }

  lemma {:induction false} IoSetsLatency(k: Knobs, disks: seq<Disk>, d: string)
    requires IsNvme(d) && d in k.latency && forall disk <- disks :: disk.inProgress == 0
    requires (exists disk <- disks :: disk.name == d) || k.latency[d] == (NVME_READ_LATENCY, NVME_WRITE_LATENCY)
    ensures var k' := PlainIoDisks(k, disks, {});
            d in k'.latency && k'.latency[d] == (NVME_READ_LATENCY, NVME_WRITE_LATENCY)
    decreases disks
  {
    hide IsNvme, PlainIoDisk;
    if disks != [] {
      assert disks == [disks[0]] + disks[1..];
      IoDiskLatency(k, disks[0], {}, d);
      IoDiskSetsLatency(k, disks[0], d);
      IoSetsLatency(PlainIoDisk(k, disks[0], {}), disks[1..], d);
    }
  }

  lemma IoDiskSetsLatency(k: Knobs, disk: Disk, d: string)
    requires IsNvme(d) && d in k.latency && disk.inProgress == 0
    ensures var k' := PlainIoDisk(k, disk, {});
      disk.name == d ==> d in k'.latency && k'.latency[d] == (NVME_READ_LATENCY, NVME_WRITE_LATENCY)
  {
    hide IsNvme;
  }

  /** On a machine with an online core without a governor, a rise of the cache pressure is never
      taken back. */
  lemma UngovernedIsNotRestored(k0: Knobs, cores: seq<Core>, devices: seq<string>, rotational: map<string, int>, n: nat)
    requires Machine(k0, cores, devices) && !Governed(k0, cores)
    ensures Probe(k0, cores, devices, rotational, n) != k0
  {
    ProbeIsRun(k0, cores, devices, rotational, n);
    ProbeRaisesPressure(k0, cores, devices, rotational, n);
  }

  lemma ProbeRaisesPressure(k0: Knobs, cores: seq<Core>, devices: seq<string>, rotational: map<string, int>, n: nat)
    requires VfsCachePressure in k0.vm
    ensures var k := ProbeRun(k0, cores, devices, rotational, n);
            VfsCachePressure in k.vm && k.vm[VfsCachePressure] == k0.vm[VfsCachePressure] + 20
  {
    hide ProbeRun, PlainStart, PlainTick, Do, Listing, OnlineIds, Succeeds;
    var start, t := ListedStart(devices, rotational), LoudTick(cores, devices, rotational, n);
    ProbeRunIs(k0, cores, devices, rotational, n);
    PolicyTheorems.StartKeepsVm(k0, cores, start);
    var k := PlainStart(k0, cores, start);
    PolicyTheorems.TickByPolicy(k0, k, cores, t);
    var vfs := SetVm(VfsCachePressure, ReadVfs(k) + 20);
    PolicyTheorems.SysctlAfter(k, vfs.sysctl, vfs.value, {});
    var k' := Do(k, vfs, {});
    PolicyTheorems.SysctlAfter(k', DirtyRatio, NextDirtyRatio(ReadDirty(k')), {});
    assert Succeeds(k, vfs, {}) by {
      VmWritable(k, vfs);
    }
  }

  lemma VmWritable(k: Knobs, w: Write)
    requires w.SetVm? && w.sysctl in k.vm
    ensures Succeeds(k, w, {})
  {
  }

  /** How many requests in flight make the loop ask an NVMe device for this scheduler. */
  function InFlightFor(name: string): nat {
    if name == "mq-deadline" then 5 else 0
  }

  lemma ProbeSetsScheduler(k0: Knobs, cores: seq<Core>, devices: seq<string>, rotational: map<string, int>, d: string,
                           name: string)
    requires ProperNames(k0, devices) && d in devices
    requires d in k0.scheduler && name in k0.scheduler[d].choices && AskedFor(rotational, d, name)
    ensures var k := ProbeRun(k0, cores, devices, rotational, InFlightFor(name));
            d in k.scheduler && k.scheduler[d].active == name
  {
    hide Run, OnlineIds, ActivityOf, ProperNames, Genuine;
    var n := InFlightFor(name);
    var start, t := ListedStart(devices, rotational), LoudTick(cores, devices, rotational, n);
    ListingIsGenuine(devices, rotational, 0);
    ListingIsGenuine(devices, rotational, n);
    if IsNvme(d) {
      assert !SeesIdle(t);
      ListingIsDistinct(k0, devices, rotational, n);
      PolicyTheorems.NvmeScheduler(k0, cores, start, [t], Listed(rotational, d, n));
    } else {
      var disk := Listed(rotational, d, 0);
      assert disk.name == d && disk.rotational == Some(1) && disk in start.disks;
      PolicyTheorems.OtherSchedulers(k0, cores, start, [t], d);
    }
  }

  lemma ListingIsDistinct(k0: Knobs, devices: seq<string>, rotational: map<string, int>, n: nat)
    requires ProperNames(k0, devices)
    ensures PolicyTheorems.DistinctDisks(Listing(devices, rotational, n))
  {
    hide PlainName;
  }

  /** A device that is neither read back nor settled keeps the scheduler of a probe that sets one. */
  lemma UnsettledIsNotRestored(k0: Knobs, cores: seq<Core>, devices: seq<string>, rotational: map<string, int>,
                               i: nat, name: string)
    requires Machine(k0, cores, devices) && i < |devices| && !ReadBack(k0, devices, i)
    requires var d := devices[i];
      && d in k0.scheduler && name in k0.scheduler[d].choices
      && AskedFor(rotational, d, name) && name != k0.scheduler[d].active
    ensures Probe(k0, cores, devices, rotational, InFlightFor(name)) != k0
  {
    hide Machine, Governed, Run, FinalKnobs, ReadBack, LoudTick, Listing, AskedFor;
    var d, n := devices[i], InFlightFor(name);
    MachineInRange(k0, cores, devices);
    ProbeSetsScheduler(k0, cores, devices, rotational, d, name);
    if !Governed(k0, cores) {
      ProbeIsRun(k0, cores, devices, rotational, n);
    } else {
      SchedulersAfterStop(k0, cores, devices, cores, ListedStart(devices, rotational),
                          [LoudTick(cores, devices, rotational, n)], {}, i);
    }
  }

  /** On every machine: all runs that list its devices, with all restoring writes succeeding, leave
      the whole knob table as they found it exactly when every online core has a governor and a
      plain EPP, if any, and every listed device has the default latency targets and is read back
      or settled. Two runs of one tick, with idle and with busy devices, suffice to tell. */
  lemma EverythingRestoredExactly(k0: Knobs, cores: seq<Core>, devices: seq<string>, rotational: map<string, int>)
    requires Machine(k0, cores, devices)
    ensures EveryRunRestores(k0, cores, devices, rotational) <==> FullyRestorable(k0, cores, devices, rotational)
    ensures FullyRestorable(k0, cores, devices, rotational)
       <==> Probe(k0, cores, devices, rotational, 0) == k0 && Probe(k0, cores, devices, rotational, 5) == k0
  {
    hide Final, Machine, FullyRestorable, Closed, LoudTick, ListedStart;
    if FullyRestorable(k0, cores, devices, rotational) {
      forall start: StartInput, ts: seq<TickInput> | Closed(devices, rotational, start, ts)
        ensures Final(k0, cores, devices, start, ts) == k0
      {
        RestorableIsRestored(k0, cores, devices, rotational, start, ts);
      }
    } else {
      var n := NotRestorable(k0, cores, devices, rotational);
    }
    ProbeIsClosed(cores, devices, rotational, 0);
    ProbeIsClosed(cores, devices, rotational, 5);
  }

  lemma NotRestorable(k0: Knobs, cores: seq<Core>, devices: seq<string>, rotational: map<string, int>) returns (n: nat)
    requires Machine(k0, cores, devices) && !FullyRestorable(k0, cores, devices, rotational)
    ensures (n == 0 || n == 5) && Probe(k0, cores, devices, rotational, n) != k0
  {
    hide Probe, Machine, Governed, PlainEpp, DefaultLatency, ReadBack, Settled, OnlineIds, AskedFor;
    if core :| core in cores && core.online && core.cpuId !in k0.governor {
      n := 0;
      MissingGovernor(k0, cores, core);
      UngovernedIsNotRestored(k0, cores, devices, rotational, n);
    } else if core :| core in cores && core.online && !PlainEpp(k0, core.cpuId) {
      n := 0;
      OnlineIsListed(cores, core);
      OtherEppIsNotRestored(k0, cores, devices, rotational, n, core.cpuId);
    } else if i :| 0 <= i < |devices| && !DefaultLatency(k0, devices[i]) {
      n := 0;
      OtherLatencyIsNotRestored(k0, cores, devices, rotational, devices[i]);
    } else {
      var i :| 0 <= i < |devices| && !ReadBack(k0, devices, i) && !Settled(k0, rotational, devices[i]);
      var name := UnsettledName(k0, rotational, devices[i]);
      n := InFlightFor(name);
      UnsettledIsNotRestored(k0, cores, devices, rotational, i, name);
    }
  }

  lemma MissingGovernor(k0: Knobs, cores: seq<Core>, core: Core)
    requires core in cores && core.online && core.cpuId !in k0.governor
    ensures !Governed(k0, cores)
  {
  }

  lemma OnlineIsListed(cores: seq<Core>, core: Core)
    requires core in cores && core.online
    ensures core.cpuId in OnlineIds(cores)
  {
  }

  lemma UnsettledName(k0: Knobs, rotational: map<string, int>, d: string) returns (name: string)
    requires !Settled(k0, rotational, d)
    ensures d in k0.scheduler && name in k0.scheduler[d].choices
    ensures AskedFor(rotational, d, name) && name != k0.scheduler[d].active
  {
    name :| name in k0.scheduler[d].choices && AskedFor(rotational, d, name) && name != k0.scheduler[d].active;
  }

  // ---------- Two devices ----------

  /** Of two devices the first of which has no scheduler, the second one's name is read as the
      first one's scheduler and the second one's scheduler as a device. */
  lemma TwoDevicesShift(a: IoScheduler, b: IoScheduler)
    requires IoInRange(a) && IoInRange(b) && a.scheduler == "" && b.scheduler != ""
    ensures LoadIoSection(Good("\n" + IoSection([a, b])))
         == [IoScheduler(a.device, b.device), IoScheduler(b.scheduler, "")]
  {
    hide LoadIoSection, IoSection, PairUp;
    LoadIoSectionPairsUp([a, b]);
    assert [a, b][1..] == [b] && [b][1..] == [];
    assert Words([b]) == [b.device, b.scheduler] + Words([]);
    var words := [a.device, b.device, b.scheduler];
    assert Words([a, b]) == words;
    PairUpAt(words, 2, 0);
    PairUpAt(words, 2, 1);
  }

  /** So the second device keeps whatever scheduler the run left it with. */
  lemma SecondDeviceIsNotRestored(k0: Knobs, cores: seq<Core>, a: string, b: string, engineCores: seq<Core>,
                                  start: StartInput, ts: seq<TickInput>, refused: set<Write>)
    requires InRange(Capture(k0, cores, [a, b])) && Governed(k0, cores) && ProperNames(k0, [a, b])
    requires CurrentScheduler(k0, a) == "" && b in k0.scheduler
    ensures var k := FinalKnobs(k0, cores, [a, b], engineCores, start, ts, refused);
            var run := Run(k0, engineCores, start, ts).knobs;
            b in k.scheduler && b in run.scheduler && k.scheduler[b] == run.scheduler[b]
  {
    hide FinalKnobs, Run, Capture, CurrentScheduler, ProperNames;
    assert NamelessBefore(k0, [a, b], 1) == NamelessBefore(k0, [a, b], 0) + 1;
    SchedulersAfterStop(k0, cores, [a, b], engineCores, start, ts, refused, 1);
  }

  /** A second device without a scheduler puts the third one right again. */
  lemma ThirdDeviceIsRestored(k0: Knobs, cores: seq<Core>, a: string, b: string, c: string, engineCores: seq<Core>,
                              start: StartInput, ts: seq<TickInput>)
    requires InRange(Capture(k0, cores, [a, b, c])) && Governed(k0, cores) && ProperNames(k0, [a, b, c])
    requires CurrentScheduler(k0, a) == CurrentScheduler(k0, b) == "" && CurrentScheduler(k0, c) != ""
    ensures var k := FinalKnobs(k0, cores, [a, b, c], engineCores, start, ts, {});
            c in k.scheduler && c in k0.scheduler && k.scheduler[c] == k0.scheduler[c]
  {
    hide FinalKnobs, Run, Capture, CurrentScheduler, ProperNames;
    var devices := [a, b, c];
    assert NamelessBefore(k0, devices, 1) == NamelessBefore(k0, devices, 0) + 1;
    assert NamelessBefore(k0, devices, 2) == NamelessBefore(k0, devices, 1) + 1;
    SchedulerIsOffered(k0, devices, c);
    SchedulersAfterStop(k0, cores, devices, engineCores, start, ts, {}, 2);
  }
}
