/** Properties of whole runs of the control loop: hysteresis and convergence of the thermal cap,
    the memory knobs, the I/O schedulers, and monotone decisions. */
module PolicyTheorems {
  import opened Text
  import opened Kernel
  import opened PolicyEngine
  import opened PolicyInvariants
  import opened PlainPolicy

  // ---------- Which knobs each policy writes ----------

  lemma {:induction false} InitCoresWrite(k: Knobs, cores: seq<Core>, refused: set<Write>)
    ensures var k' := PlainInitCores(k, cores, refused); k' == k.(governor := k'.governor)
    decreases cores
  {
    if cores != [] {
      InitCoresWrite(if cores[0].online then Do(k, SetGovernor(cores[0].cpuId, "schedutil"), refused) else k,
                     cores[1..], refused);
    }
  }

  lemma InitDiskWrites(k: Knobs, disk: Disk, refused: set<Write>)
    ensures var k' := PlainInitDisk(k, disk, refused); k' == k.(scheduler := k'.scheduler)
  {
    hide IsNvme, Do;
    SchedulerWrites(k, disk.name, "mq-deadline", refused);
    SchedulerWrites(k, disk.name, "none", refused);
  }

  lemma {:induction false} InitDisksWrite(k: Knobs, disks: seq<Disk>, refused: set<Write>)
    ensures var k' := PlainInitDisks(k, disks, refused); k' == k.(scheduler := k'.scheduler)
    decreases disks
  {
    hide PlainInitDisk;
    if disks != [] {
      InitDiskWrites(k, disks[0], refused);
      InitDisksWrite(PlainInitDisk(k, disks[0], refused), disks[1..], refused);
    }
  }

  lemma {:induction false} ThermalWrites(k0: Knobs, k: Knobs, cores: seq<Core>, zones: seq<int>, refused: set<Write>)
    ensures var k' := PlainThermal(k0, k, cores, zones, refused); k' == k.(maxFreq := k'.maxFreq)
    decreases cores
  {
    hide TargetCap;
    if cores != [] {
      ThermalWrites(k0, PlainThermalCore(k0, k, cores[0], zones, refused), cores[1..], zones, refused);
    }
  }

  lemma {:induction false} LoadWrites(k: Knobs, cores: seq<Core>, target: int, refused: set<Write>)
    ensures var k' := PlainLoadCores(k, cores, target, refused); k' == k.(epp := k'.epp)
    decreases cores
  {
    hide IntText;
    if cores != [] {
      LoadWrites(if cores[0].online then Do(k, SetEpp(cores[0].cpuId, target), refused) else k,
                 cores[1..], target, refused);
    }
  }

  lemma {:induction false} IoWrites(k: Knobs, disks: seq<Disk>, refused: set<Write>)
    ensures var k' := PlainIoDisks(k, disks, refused);
            k' == k.(scheduler := k'.scheduler, latency := k'.latency)
    decreases disks
  {
    hide PlainIoDisk;
    if disks != [] {
      IoDiskWrites(k, disks[0], refused);
      IoWrites(PlainIoDisk(k, disks[0], refused), disks[1..], refused);
    }
  }

  lemma IoDiskWrites(k: Knobs, disk: Disk, refused: set<Write>)
    ensures var k' := PlainIoDisk(k, disk, refused);
            k' == k.(scheduler := k'.scheduler, latency := k'.latency)
  {
    hide IsNvme, Do;
    var w := SetScheduler(disk.name, "none");
    SchedulerWrites(k, disk.name, "mq-deadline", refused);
    SchedulerWrites(k, disk.name, "none", refused);
    LatencyWrites(Do(k, w, refused), disk.name, refused);
  }

  lemma SchedulerWrites(k: Knobs, device: string, name: string, refused: set<Write>)
    ensures var k' := Do(k, SetScheduler(device, name), refused); k' == k.(scheduler := k'.scheduler)
  {
  }

  lemma LatencyWrites(k: Knobs, device: string, refused: set<Write>)
    ensures var k' := Do(k, SetLatency(device, NVME_READ_LATENCY, NVME_WRITE_LATENCY), refused);
      && k' == k.(latency := k'.latency)
      && k'.latency.Keys == k.latency.Keys
      && forall d <- k.latency ::
           k'.latency[d] == k.latency[d] || k'.latency[d] == (NVME_READ_LATENCY, NVME_WRITE_LATENCY)
  {
  }

  /** Each knob a tick changes is changed by one policy, which sees the knobs before the tick. */
  lemma TickByPolicy(k0: Knobs, k: Knobs, cores: seq<Core>, t: TickInput)
    ensures var k' := PlainTick(k0, k, cores, t);
      && k'.maxFreq == PlainThermal(k0, k, cores, t.policyZones, t.refused).maxFreq
      && k'.vm == PlainMemory(k, t.policyPressure, t.refused).vm
      && k'.governor == k.governor && k'.minFreq == k.minFreq
      && (exists k1: Knobs :: k1.epp == k.epp && k'.epp == PlainLoad(k1, cores, t).epp)
      && BeforeIo(k0, k, cores, t).scheduler == k.scheduler
  {
    hide TargetEpp, ActivityOf, PlainThermal, PlainLoadCores, PlainIoDisks, PlainMemory;
    var k1 := PlainThermal(k0, k, cores, t.policyZones, t.refused);
    ThermalWrites(k0, k, cores, t.policyZones, t.refused);
    var k2 := PlainLoad(k1, cores, t);
    if t.policyOnline != 0 {
      LoadWrites(k1, cores, TargetEpp(ActivityOf(t), t.policyLoad / t.policyOnline as real), t.refused);
    }
    MemoryWrites(k, k2, t.policyPressure, t.refused);
    IoWrites(PlainMemory(k2, t.policyPressure, t.refused), t.disks, t.refused);
    assert k1.epp == k.epp && PlainTick(k0, k, cores, t).epp == PlainLoad(k1, cores, t).epp;
  }

  lemma MemoryWrites(k: Knobs, k2: Knobs, pressure: real, refused: set<Write>)
    requires k2.vm == k.vm
    ensures var k' := PlainMemory(k2, pressure, refused);
            k' == k2.(vm := k'.vm) && k'.vm == PlainMemory(k, pressure, refused).vm
  {
    hide Classify, NextDirtyRatio, Do;
    var first := SetVm(VfsCachePressure, ReadVfs(k) + 20);
    SysctlWrites(k, k2, first.sysctl, first.value, refused);
    var j, j2 := Do(k, first, refused), Do(k2, first, refused);
    SysctlWrites(j, j2, DirtyRatio, NextDirtyRatio(ReadDirty(j)), refused);
  }

  lemma SysctlWrites(k: Knobs, k2: Knobs, sysctl: Sysctl, value: int, refused: set<Write>)
    requires k2.vm == k.vm
    ensures var w := SetVm(sysctl, value);
            Do(k2, w, refused) == k2.(vm := Do(k, w, refused).vm)
  {
  }

  // ---------- The thermal cap of one core ----------

  ghost predicate DistinctIds(cores: seq<Core>) {
    forall i, j :: 0 <= i < j < |cores| ==> cores[i].cpuId != cores[j].cpuId
  }

  function NextCap(k0: Knobs, k: Knobs, c: int, zones: seq<int>, refused: set<Write>): nat {
    var target := TargetCap(MaxFreqOf(k0, c), MaxFreqOf(k, c), zones);
    if Succeeds(k, SetMaxFreq(c, target), refused) then target else MaxFreqOf(k, c)
  }

  lemma {:induction false} ThermalAt(k0: Knobs, k: Knobs, cores: seq<Core>, zones: seq<int>, refused: set<Write>,
                                     c: int)
    requires DistinctIds(cores)
    ensures MaxFreqOf(PlainThermal(k0, k, cores, zones, refused), c)
         == if c in OnlineIds(cores) then NextCap(k0, k, c, zones, refused) else MaxFreqOf(k, c)
    decreases cores
  {
    hide NextCap, PlainThermalCore, OnlineIds;
    if cores != [] {
      var k' := PlainThermalCore(k0, k, cores[0], zones, refused);
      ThermalAt(k0, k', cores[1..], zones, refused, c);
      ThermalCoreAt(k0, k, cores[0], zones, refused, c);
      OnlineSplits(cores);
    } else {
      assert OnlineIds(cores) == {} by {
        NoneOnline();
      }
    }
  }

  lemma NoneOnline()
    ensures OnlineIds([]) == {}
  {
  }

  lemma OnlineSplits(cores: seq<Core>)
    requires DistinctIds(cores) && cores != []
    ensures DistinctIds(cores[1..]) && cores[0].cpuId !in OnlineIds(cores[1..])
    ensures OnlineIds(cores) == OnlineIds(cores[1..]) + if cores[0].online then {cores[0].cpuId} else {}
  {
    assert cores == [cores[0]] + cores[1..];
  }

  lemma ThermalCoreAt(k0: Knobs, k: Knobs, core: Core, zones: seq<int>, refused: set<Write>, c: int)
    ensures var k' := PlainThermalCore(k0, k, core, zones, refused);
      && MaxFreqOf(k', c) ==
           (if core.online && core.cpuId == c then NextCap(k0, k, c, zones, refused) else MaxFreqOf(k, c))
      && (core.cpuId != c ==> NextCap(k0, k', c, zones, refused) == NextCap(k0, k, c, zones, refused))
  {
    hide TargetCap;
  }

  /** The frequency cap the engine tracks for core `c` after the first `i` ticks. */
  function CapAfter(k0: Knobs, cores: seq<Core>, start: StartInput, ts: seq<TickInput>, i: nat, c: int): nat
    requires i <= |ts|
  {
    Get(Run(k0, cores, start, ts[..i]).current, c, 0)
  }

  /** Writes of the cap of core `c` cannot fail during the tick. */
  ghost predicate CapWritable(k0: Knobs, t: TickInput, c: int) {
    c in k0.maxFreq && forall v :: SetMaxFreq(c, v) !in t.refused
  }

  lemma CapIsMaxFreq(k0: Knobs, cores: seq<Core>, start: StartInput, ts: seq<TickInput>, c: int)
    requires c in OnlineIds(cores)
    ensures var e := Run(k0, cores, start, ts); var o := MaxFreqOf(k0, c);
      && c in e.original && c in e.current && e.original[c] == o
      && e.current[c] == MaxFreqOf(e.knobs, c) == MaxFreqOf(PlainRun(k0, cores, start, ts), c)
      && o / 2 <= e.current[c] <= o
      && (c in PlainRun(k0, cores, start, ts).maxFreq <==> c in k0.maxFreq)
  {
    var cpus, devices := OnlineIds(cores), AllDisks(start, ts);
    forall t <- ts ensures DiskNames(t.disks) <= devices {
    }
    EveryRunKeepsInv(k0, cores, start, ts, cpus, devices);
    hide Run, PlainRun, AllDisks, OnlineIds, Coherent;
    CachedRunIsPlainRun(k0, cores, start, ts);
  }

  lemma RunStep(k0: Knobs, cores: seq<Core>, start: StartInput, ts: seq<TickInput>, i: nat)
    requires i < |ts|
    ensures PlainRun(k0, cores, start, ts[..i + 1])
         == PlainTick(k0, PlainRun(k0, cores, start, ts[..i]), cores, ts[i])
  {
    assert ts[..i + 1][..i] == ts[..i];
  }

  /** The cap a thermal step asks for, by the numbers. */
  function AskedCap(original: nat, before: nat, hot: bool, warm: bool): nat {
    if hot then Max(original / 2, before - before / 20) else if warm then before else original
  }

  lemma TargetIsAskedCap(original: nat, applied: nat, zones: seq<int>)
    requires applied <= original
    ensures TargetCap(original, applied, zones)
         == AskedCap(original, applied, AnyAbove(zones, 85000), AnyAbove(zones, 78000))
  {
    ExceedsIs(zones, 85000);
    ExceedsIs(zones, 78000);
    hide Exceeds, AnyAbove;
  }

  /** One tick of any run: the cap of an online core becomes what is asked for, unless that write
      fails. */
  lemma CapStep(k0: Knobs, cores: seq<Core>, start: StartInput, ts: seq<TickInput>, i: nat, c: int)
    requires DistinctIds(cores) && c in OnlineIds(cores) && i < |ts|
    ensures var o := MaxFreqOf(k0, c); var zones := ts[i].policyZones;
            var before := CapAfter(k0, cores, start, ts, i, c);
            var asked := AskedCap(o, before, AnyAbove(zones, 85000), AnyAbove(zones, 78000));
      && o / 2 <= before <= o
      && CapAfter(k0, cores, start, ts, i + 1, c)
           == if c in k0.maxFreq && SetMaxFreq(c, asked) !in ts[i].refused then asked else before
  {
    var k := PlainRun(k0, cores, start, ts[..i]);
    var zones := ts[i].policyZones;
    CapIsMaxFreq(k0, cores, start, ts[..i], c);
    CapIsMaxFreq(k0, cores, start, ts[..i + 1], c);
    RunStep(k0, cores, start, ts, i);
    TargetIsAskedCap(MaxFreqOf(k0, c), MaxFreqOf(k, c), zones);
    hide Run, PlainRun, PlainTick, PlainThermal, OnlineIds, DistinctIds, Exceeds, AnyAbove, PlainIo, TargetCap,
      AskedCap;
    TickByPolicy(k0, k, cores, ts[i]);
    ThermalAt(k0, k, cores, zones, ts[i].refused, c);
    assert CapAfter(k0, cores, start, ts, i, c) == MaxFreqOf(k, c);
    assert CapAfter(k0, cores, start, ts, i + 1, c) == NextCap(k0, k, c, zones, ts[i].refused);
  }

  /** So with `o` the maximum the run started from, the cap is cut when a zone is over the passive
      limit, returns to `o` when all zones have recovered, and otherwise stays. */
  lemma HysteresisStep(k0: Knobs, cores: seq<Core>, start: StartInput, ts: seq<TickInput>, i: nat, c: int)
    requires DistinctIds(cores) && c in OnlineIds(cores) && i < |ts|
    ensures var o := MaxFreqOf(k0, c); var zones := ts[i].policyZones;
            var before := CapAfter(k0, cores, start, ts, i, c);
            var after := CapAfter(k0, cores, start, ts, i + 1, c);
      && o / 2 <= before <= o && o / 2 <= after <= o
      && (after < before ==> AnyAbove(zones, 85000))
      && (after > before ==> !AnyAbove(zones, 78000) && after == o)
      && (CapWritable(k0, ts[i], c) && AnyAbove(zones, 85000) ==> after == Max(o / 2, before - before / 20))
      && (CapWritable(k0, ts[i], c) && !AnyAbove(zones, 78000) ==> after == o)
  {
    hide CapAfter, OnlineIds, DistinctIds;
    CapStep(k0, cores, start, ts, i, c);
    RecoveryBelowPassive(ts[i].policyZones);
  }

  function Max(a: nat, b: nat): nat {
    if a < b then b else a
  }

  lemma RecoveryBelowPassive(zones: seq<int>)
    ensures AnyAbove(zones, 85000) ==> AnyAbove(zones, 78000)
  {
  }

  /** In every state of every run exactly the online cores are tracked, their recorded originals
      are the maxima the run started from, and no cap leaves the range from half to the whole. */
  lemma ThermalSafety(k0: Knobs, cores: seq<Core>, start: StartInput, ts: seq<TickInput>)
    ensures var e := Run(k0, cores, start, ts);
      && e.original.Keys == e.current.Keys == OnlineIds(cores)
      && forall c <- OnlineIds(cores) ::
           && e.original[c] == MaxFreqOf(k0, c)
           && e.original[c] / 2 <= e.current[c] <= e.original[c]
           && e.current[c] == MaxFreqOf(e.knobs, c)
  {
    CachedRunIsPlainRun(k0, cores, start, ts);
    hide Run, PlainRun, OnlineIds;
    var e := Run(k0, cores, start, ts);
    forall c <- OnlineIds(cores)
      ensures c in e.current && e.original[c] == MaxFreqOf(k0, c)
      ensures e.original[c] / 2 <= e.current[c] <= e.original[c]
    {
      CapIsMaxFreq(k0, cores, start, ts, c);
    }
    KeysAgree(k0, cores, start, ts);
  }

  lemma KeysAgree(k0: Knobs, cores: seq<Core>, start: StartInput, ts: seq<TickInput>)
    ensures var e := Run(k0, cores, start, ts); e.original.Keys == e.current.Keys
  {
    var devices := AllDisks(start, ts);
    forall t <- ts ensures DiskNames(t.disks) <= devices {
    }
    EveryRunKeepsInv(k0, cores, start, ts, OnlineIds(cores), devices);
    hide Run, OnlineIds, Coherent, Framed;
  }

  ghost predicate Drops(k0: Knobs, cores: seq<Core>, start: StartInput, ts: seq<TickInput>, i: nat, c: int)
    requires i < |ts|
  {
    CapAfter(k0, cores, start, ts, i + 1, c) < CapAfter(k0, cores, start, ts, i, c)
  }

  ghost predicate Rises(k0: Knobs, cores: seq<Core>, start: StartInput, ts: seq<TickInput>, i: nat, c: int)
    requires i < |ts|
  {
    CapAfter(k0, cores, start, ts, i + 1, c) > CapAfter(k0, cores, start, ts, i, c)
  }

  lemma {:induction false} NoDropNoFall(k0: Knobs, cores: seq<Core>, start: StartInput, ts: seq<TickInput>,
                                        i: nat, j: nat, c: int)
    requires i <= j <= |ts|
    requires forall m: nat :: i <= m < j ==> !Drops(k0, cores, start, ts, m, c)
    ensures CapAfter(k0, cores, start, ts, i, c) <= CapAfter(k0, cores, start, ts, j, c)
    decreases j - i
  {
    hide CapAfter;
    if i < j {
      assert !Drops(k0, cores, start, ts, j - 1, c);
      NoDropNoFall(k0, cores, start, ts, i, j - 1, c);
    }
  }

  /** Between any two rises of a core's cap there is a drop, and every rise is a full restore. */
  lemma DropBetweenRises(k0: Knobs, cores: seq<Core>, start: StartInput, ts: seq<TickInput>, i: nat, j: nat, c: int)
    requires DistinctIds(cores) && c in OnlineIds(cores) && i < j < |ts|
    requires Rises(k0, cores, start, ts, i, c) && Rises(k0, cores, start, ts, j, c)
    ensures CapAfter(k0, cores, start, ts, i + 1, c) == MaxFreqOf(k0, c)
    ensures exists m: nat :: i < m < j && Drops(k0, cores, start, ts, m, c)
  {
    HysteresisStep(k0, cores, start, ts, i, c);
    HysteresisStep(k0, cores, start, ts, j, c);
    hide CapAfter, OnlineIds, DistinctIds, Exceeds;
    if forall m: nat :: i + 1 <= m < j ==> !Drops(k0, cores, start, ts, m, c) {
      NoDropNoFall(k0, cores, start, ts, i + 1, j, c);
    }
  }

  // ---------- Convergence under heat ----------

  /** What repeated cuts of a twentieth make of `o`, without the floor. */
  function Decay(o: nat, k: nat): nat {
    if k == 0 then o else var a := Decay(o, k - 1); a - a / 20
  }

  function Pow(b: nat, k: nat): nat {
    if k == 0 then 1 else b * Pow(b, k - 1)
  }

  lemma {:induction false} DecayBounds(o: nat, k: nat)
    ensures Pow(19, k) * o <= Pow(20, k) * Decay(o, k)
    ensures Pow(20, k) * Decay(o, k) + 19 * Pow(19, k) <= Pow(19, k) * o + 19 * Pow(20, k)
  {
    if k > 0 {
      DecayBounds(o, k - 1);
      var p, q, a := Pow(19, k - 1), Pow(20, k - 1), Decay(o, k - 1);
      DecayStep(p, q, a, a - a / 20, o);
    }
  }

  lemma DecayStep(p: nat, q: nat, a: nat, b: nat, o: nat)
    requires b == a - a / 20
    requires p * o <= q * a && q * a + 19 * p <= p * o + 19 * q
    ensures 19 * p * o <= 20 * q * b
    ensures 20 * q * b + 19 * (19 * p) <= 19 * p * o + 19 * (20 * q)
  {
    var r, qa, po := 20 * b - 19 * a, q * a, p * o;
    assert 0 <= r <= 19;
    Distributes(q, a, b, r);
    NotAbove(q, r);
    assert 19 * p * o == 19 * po by {
      Associates(19, p, o);
    }
    assert 20 * q * b == 19 * qa + q * r;
  }

  lemma Associates(x: int, y: int, z: int)
    ensures x * y * z == x * (y * z)
  {
  }

  lemma NotAbove(q: nat, r: int)
    requires 0 <= r <= 19
    ensures 0 <= q * r <= 19 * q
  {
  }

  lemma Distributes(q: nat, a: nat, b: nat, r: int)
    requires 20 * b == 19 * a + r
    ensures 20 * q * b == 19 * (q * a) + q * r
  {
    assert 20 * q * b == q * (20 * b) == q * (19 * a + r);
  }

  /** A hot streak from an uncapped core: the cap after `|ts|` ticks is the floor or the decay. */
  lemma {:induction false} HotStreak(k0: Knobs, k: Knobs, cores: seq<Core>, ts: seq<TickInput>, c: int)
    requires DistinctIds(cores) && c in OnlineIds(cores)
    requires c in k.maxFreq && c in k0.maxFreq && k.maxFreq[c] == k0.maxFreq[c]
    requires forall t <- ts :: AnyAbove(t.policyZones, 85000) && CapWritable(k0, t, c)
    ensures var k' := PlainTicks(k0, k, cores, ts);
            c in k'.maxFreq && k'.maxFreq[c] == Max(k0.maxFreq[c] / 2, Decay(k0.maxFreq[c], |ts|))
    decreases |ts|
  {
    hide PlainTick, PlainThermal, PlainMemory, PlainLoad, PlainIo, OnlineIds, DistinctIds, Exceeds, AnyAbove;
    if ts != [] {
      var n := |ts| - 1;
      HotStreak(k0, k, cores, ts[..n], c);
      var k1 := PlainTicks(k0, k, cores, ts[..n]);
      var t := ts[n];
      assert AnyAbove(t.policyZones, 85000) && CapWritable(k0, t, c);
      ExceedsIs(t.policyZones, 85000);
      TickByPolicy(k0, k1, cores, t);
      ThermalAt(k0, k1, cores, t.policyZones, t.refused, c);
      ThermalKeepsFiles(k0, k1, cores, t.policyZones, t.refused);
    } else {
      assert PlainTicks(k0, k, cores, ts) == k;
    }
  }

  lemma {:induction false} ThermalKeepsFiles(k0: Knobs, k: Knobs, cores: seq<Core>, zones: seq<int>,
                                             refused: set<Write>)
    ensures PlainThermal(k0, k, cores, zones, refused).maxFreq.Keys == k.maxFreq.Keys
    decreases cores
  {
    hide TargetCap;
    if cores != [] {
      ThermalKeepsFiles(k0, PlainThermalCore(k0, k, cores[0], zones, refused), cores[1..], zones, refused);
    }
  }

  /** After a run whose cap for core `c` is the original one, `|hot|` further hot ticks with
      successful writes bring the cap to the floor or the decay, whichever is larger. */
  lemma HotTicks(k0: Knobs, cores: seq<Core>, start: StartInput, before: seq<TickInput>, hot: seq<TickInput>, c: int)
    requires DistinctIds(cores) && c in OnlineIds(cores) && c in k0.maxFreq
    requires CapAfter(k0, cores, start, before, |before|, c) == k0.maxFreq[c]
    requires forall t <- hot :: AnyAbove(t.policyZones, 85000) && CapWritable(k0, t, c)
    ensures Get(Run(k0, cores, start, before + hot).current, c, 0)
         == Max(k0.maxFreq[c] / 2, Decay(k0.maxFreq[c], |hot|))
  {
    assert before[..|before|] == before;
    CapIsMaxFreq(k0, cores, start, before, c);
    CapIsMaxFreq(k0, cores, start, before + hot, c);
    PlainTicksConcat(k0, PlainStart(k0, cores, start), cores, before, hot);
    var k := PlainRun(k0, cores, start, before);
    hide Run, OnlineIds, DistinctIds, AnyAbove, PlainStart;
    HotStreak(k0, k, cores, hot, c);
  }

  lemma {:induction false} PlainTicksConcat(k0: Knobs, k: Knobs, cores: seq<Core>, a: seq<TickInput>, b: seq<TickInput>)
    ensures PlainTicks(k0, k, cores, a + b) == PlainTicks(k0, PlainTicks(k0, k, cores, a), cores, b)
    decreases |b|
  {
    hide PlainTick;
    if b == [] {
      assert a + b == a;
    } else {
      var n := |b| - 1;
      assert (a + b)[..|a| + n] == a + b[..n];
      PlainTicksConcat(k0, k, cores, a, b[..n]);
    }
  }

  /** From any original of at least 1000 the floor is reached by the fourteenth cut and not
      before it. */
  lemma FourteenCuts(o: nat)
    requires o >= 1000
    ensures Decay(o, 14) <= o / 2 < Decay(o, 13)
  {
    Powers();
    DecayBounds(o, 13);
    DecayBounds(o, 14);
    var a, b := Decay(o, 13), Decay(o, 14);
    hide Decay, Pow;
    assert 42052983462257059 * o <= 81920000000000000 * a;
    assert 1638400000000000000 * b + 19 * 799006685782884121 <= 799006685782884121 * o + 19 * 1638400000000000000;
  }

  lemma Powers()
    ensures Pow(19, 13) == 42052983462257059 && Pow(20, 13) == 81920000000000000
    ensures Pow(19, 14) == 799006685782884121 && Pow(20, 14) == 1638400000000000000
  {
    assert Pow(19, 4) == 130321 && Pow(20, 4) == 160000;
    assert Pow(19, 8) == 130321 * 130321 && Pow(20, 8) == 160000 * 160000;
    assert Pow(19, 12) == 130321 * 130321 * 130321 && Pow(20, 12) == 160000 * 160000 * 160000;
  }

  lemma {:induction false} DecayTo19(o: nat, k: nat)
    ensures Decay(o, k) <= Max(19, o - (if k < o then k else o))
    ensures o <= 19 ==> Decay(o, k) == o
    ensures o >= 19 ==> Decay(o, k) >= 19
  {
    if k > 0 {
      DecayTo19(o, k - 1);
    }
  }

  /** Enough heat brings the cap to half the original exactly when the original is zero or at
      least 38; smaller caps get stuck above their floor. */
  lemma ReachesFloor(o: nat)
    ensures (exists k :: Max(o / 2, Decay(o, k)) == o / 2) <==> o == 0 || o >= 38
  {
    if o == 0 || o >= 38 {
      DecayTo19(o, o);
      assert Max(o / 2, Decay(o, o)) == o / 2;
    } else {
      forall k ensures Max(o / 2, Decay(o, k)) != o / 2 {
        DecayTo19(o, k);
      }
    }
  }

  /** Once at the floor the cap stays there while the heat lasts. */
  lemma {:induction false} StaysAtFloor(o: nat, k: nat, more: nat)
    requires Decay(o, k) <= o / 2
    ensures Decay(o, k + more) <= o / 2
  {
    if more > 0 {
      StaysAtFloor(o, k, more - 1);
    }
  }

  /** After any run that left a core of at least 1000 uncapped, its cap is down to the floor
      exactly from the fourteenth hot tick on. */
  lemma FloorFromFourteenOn(k0: Knobs, cores: seq<Core>, start: StartInput, before: seq<TickInput>,
                            hot: seq<TickInput>, c: int)
    requires DistinctIds(cores) && c in OnlineIds(cores) && c in k0.maxFreq && k0.maxFreq[c] >= 1000
    requires CapAfter(k0, cores, start, before, |before|, c) == k0.maxFreq[c]
    requires forall t <- hot :: AnyAbove(t.policyZones, 85000) && CapWritable(k0, t, c)
    ensures var cap := Get(Run(k0, cores, start, before + hot).current, c, 0);
            cap >= k0.maxFreq[c] / 2 && (cap == k0.maxFreq[c] / 2 <==> |hot| >= 14)
  {
    hide Run, OnlineIds, DistinctIds, AnyAbove, CapAfter, CapWritable, Decay;
    var o := k0.maxFreq[c];
    HotTicks(k0, cores, start, before, hot, c);
    FourteenCuts(o);
    if |hot| >= 14 {
      StaysAtFloor(o, 14, |hot| - 14);
    } else if Decay(o, |hot|) <= o / 2 {
      StaysAtFloor(o, |hot|, 13 - |hot|);
    }
  }

  // ---------- Memory knobs ----------

  /** How many of the ticks write `sysctl` successfully: those that see rising pressure and whose
      write is not refused. */
  function Steps(k0: Knobs, cores: seq<Core>, start: StartInput, ts: seq<TickInput>, sysctl: Sysctl): nat
    decreases |ts|
  {
    if ts == [] then 0 else
      var n := |ts| - 1;
      var k := Run(k0, cores, start, ts[..n]).knobs;
      var value := if sysctl == VfsCachePressure then ReadVfs(k) + 20 else NextDirtyRatio(ReadDirty(k));
      Steps(k0, cores, start, ts[..n], sysctl) +
        if 5.0 <= ts[n].policyPressure <= 20.0 && Succeeds(k, SetVm(sysctl, value), ts[n].refused)
        then 1 else 0
  }

  /** The dirty ratio after `n` reductions of `d`. */
  function DirtyAfter(d: int, n: nat): int {
    if n == 0 then d else if d > 5 * n then d - 5 * n else 5
  }

  lemma StartKeepsVm(k0: Knobs, cores: seq<Core>, start: StartInput)
    ensures PlainStart(k0, cores, start).vm == k0.vm
    ensures PlainStart(k0, cores, start).maxFreq == k0.maxFreq
  {
    hide PlainInitCores, PlainInitDisks;
    InitCoresWrite(k0, cores, start.refused);
    InitDisksWrite(PlainInitCores(k0, cores, start.refused), start.disks, start.refused);
  }

  /** In every run the cache pressure has grown by 20 and the dirty ratio has taken one step for
      each successful write. */
  lemma {:induction false} MemoryKnobs(k0: Knobs, cores: seq<Core>, start: StartInput, ts: seq<TickInput>)
    requires VfsCachePressure in k0.vm && DirtyRatio in k0.vm
    ensures var k := Run(k0, cores, start, ts).knobs;
      && VfsCachePressure in k.vm && DirtyRatio in k.vm
      && k.vm[VfsCachePressure] == k0.vm[VfsCachePressure] + 20 * Steps(k0, cores, start, ts, VfsCachePressure)
      && k.vm[DirtyRatio] == DirtyAfter(k0.vm[DirtyRatio], Steps(k0, cores, start, ts, DirtyRatio))
    decreases |ts|
  {
    hide Run, OnlineIds, PlainTick, PlainStart, PlainThermal, PlainIo, PlainMemory, Classify, NextDirtyRatio,
      DirtyAfter, Succeeds;
    CachedRunIsPlainRun(k0, cores, start, ts);
    if ts == [] {
      StartKeepsVm(k0, cores, start);
      DirtyAfterNone(k0.vm[DirtyRatio]);
    } else {
      var n := |ts| - 1;
      MemoryKnobs(k0, cores, start, ts[..n]);
      CachedRunIsPlainRun(k0, cores, start, ts[..n]);
      assert ts[..n + 1] == ts;
      RunStep(k0, cores, start, ts, n);
      var k := PlainRun(k0, cores, start, ts[..n]);
      TickByPolicy(k0, k, cores, ts[n]);
      MemoryStep(k, ts[n].policyPressure, ts[n].refused);
      DirtyAfterStep(k0.vm[DirtyRatio], Steps(k0, cores, start, ts[..n], DirtyRatio));
      hide PlainRun;
    }
  }

  lemma DirtyAfterNone(d: int)
    ensures DirtyAfter(d, 0) == d
  {
  }

  /** What one evaluation of the memory policy makes of the two sysctls. */
  lemma MemoryStep(k: Knobs, pressure: real, refused: set<Write>)
    requires VfsCachePressure in k.vm && DirtyRatio in k.vm
    ensures var vm := PlainMemory(k, pressure, refused).vm; var rising := 5.0 <= pressure <= 20.0;
            var vfs := ReadVfs(k) + 20; var ratio := NextDirtyRatio(ReadDirty(k));
      && VfsCachePressure in vm && DirtyRatio in vm
      && vm[VfsCachePressure] == (
           if rising && Succeeds(k, SetVm(VfsCachePressure, vfs), refused) then vfs else k.vm[VfsCachePressure])
      && vm[DirtyRatio] == (
           if rising && Succeeds(k, SetVm(DirtyRatio, ratio), refused) then ratio else k.vm[DirtyRatio])
  {
    hide NextDirtyRatio, Do, Succeeds;
    var first := SetVm(VfsCachePressure, ReadVfs(k) + 20);
    SysctlAfter(k, first.sysctl, first.value, refused);
    var k' := Do(k, first, refused);
    SysctlAfter(k', DirtyRatio, NextDirtyRatio(ReadDirty(k')), refused);
  }

  lemma SysctlAfter(k: Knobs, sysctl: Sysctl, value: int, refused: set<Write>)
    ensures var w := SetVm(sysctl, value); var k' := Do(k, w, refused);
      && k'.vm.Keys == k.vm.Keys
      && (forall s <- k.vm :: k'.vm[s] == if s == sysctl && Succeeds(k, w, refused) then value else k.vm[s])
      && (forall s, v :: Succeeds(k', SetVm(s, v), refused) == Succeeds(k, SetVm(s, v), refused))
  {
  }

  lemma DirtyAfterStep(d: int, n: nat)
    ensures DirtyAfter(d, n + 1) == NextDirtyRatio(DirtyAfter(d, n))
  {
  }

  ghost predicate SysctlWritable(ts: seq<TickInput>, sysctl: Sysctl) {
    forall t <- ts :: forall v :: SetVm(sysctl, v) !in t.refused
  }

  function RisingTicks(ts: seq<TickInput>): nat
    decreases |ts|
  {
    if ts == [] then 0 else
      RisingTicks(ts[..|ts| - 1]) + if 5.0 <= ts[|ts| - 1].policyPressure <= 20.0 then 1 else 0
  }

  /** When no write of the sysctl is refused every tick with rising pressure counts. */
  lemma {:induction false} EveryRisingTickSteps(k0: Knobs, cores: seq<Core>, start: StartInput,
                                                ts: seq<TickInput>, sysctl: Sysctl)
    requires VfsCachePressure in k0.vm && DirtyRatio in k0.vm
    requires sysctl == VfsCachePressure || sysctl == DirtyRatio
    requires SysctlWritable(ts, sysctl)
    ensures Steps(k0, cores, start, ts, sysctl) == RisingTicks(ts)
    decreases |ts|
  {
    hide Run, Classify;
    if ts != [] {
      var n := |ts| - 1;
      assert ts[n] in ts;
      EveryRisingTickSteps(k0, cores, start, ts[..n], sysctl);
      MemoryKnobs(k0, cores, start, ts[..n]);
    }
  }

  /** The dirty ratio stays positive and below its bound, and is 5 from the step that covers the
      original on, although the way there can pass below 5. */
  lemma DirtyRatioSettles(d: int, n: nat)
    requires d >= 1
    ensures 1 <= DirtyAfter(d, n) <= (if d < 5 then 5 else d)
    ensures n >= 1 && 5 * n >= d ==> DirtyAfter(d, n) == 5
    ensures DirtyAfter(7, 1) == 2 && DirtyAfter(7, 2) == 5
    ensures DirtyAfter(d, n + 1) == NextDirtyRatio(DirtyAfter(d, n))
  {
  }

  /** In every state of every run the dirty ratio is within its bounds, and it is 5 exactly when
      its successful writes cover the original or have left 5 of it. */
  lemma DirtyRatioOfRun(k0: Knobs, cores: seq<Core>, start: StartInput, ts: seq<TickInput>)
    requires VfsCachePressure in k0.vm && DirtyRatio in k0.vm && k0.vm[DirtyRatio] >= 1
    ensures var k := Run(k0, cores, start, ts).knobs; var d := k0.vm[DirtyRatio];
            var n := Steps(k0, cores, start, ts, DirtyRatio);
      && DirtyRatio in k.vm
      && 1 <= k.vm[DirtyRatio] <= (if d < 5 then 5 else d)
      && (k.vm[DirtyRatio] == 5 <==> d - 5 * n == 5 || (n >= 1 && d <= 5 * n))
  {
    hide Run, Steps;
    MemoryKnobs(k0, cores, start, ts);
    DirtyRatioSettles(k0.vm[DirtyRatio], Steps(k0, cores, start, ts, DirtyRatio));
  }

  // ---------- I/O schedulers ----------

  lemma {:induction false} IoOther(k: Knobs, disks: seq<Disk>, refused: set<Write>, name: string)
    requires name !in DiskNames(disks) || !IsNvme(name)
    requires name in k.scheduler
    ensures var k' := PlainIoDisks(k, disks, refused);
            name in k'.scheduler && k'.scheduler[name] == k.scheduler[name]
    decreases disks
  {
    hide IsNvme, PlainIoDisk;
    if disks != [] {
      assert disks[0].name in DiskNames(disks);
      assert forall d <- disks[1..] :: d in disks;
      IoDiskOther(k, disks[0], refused, name);
      IoOther(PlainIoDisk(k, disks[0], refused), disks[1..], refused, name);
    }
  }

  lemma IoDiskOther(k: Knobs, disk: Disk, refused: set<Write>, name: string)
    requires name in k.scheduler
    ensures var k' := PlainIoDisk(k, disk, refused);
      && name in k'.scheduler && k'.scheduler[name].choices == k.scheduler[name].choices
      && (disk.name != name || !IsNvme(name) ==> k'.scheduler[name] == k.scheduler[name])
  {
    hide IsNvme, Do;
    SchedulerAfter(k, disk.name, "mq-deadline", refused, name);
    SchedulerAfter(k, disk.name, "none", refused, name);
    LatencyWrites(Do(k, SetScheduler(disk.name, "none"), refused), disk.name, refused);
  }

  ghost predicate DistinctDisks(disks: seq<Disk>) {
    forall i, j :: 0 <= i < j < |disks| ==> disks[i].name != disks[j].name
  }

  /** The two tables hold the same for the device. */
  ghost predicate SameDevice(a: Knobs, b: Knobs, name: string) {
    && (name in a.scheduler <==> name in b.scheduler) && (name in a.latency <==> name in b.latency)
    && (name in a.scheduler ==> a.scheduler[name] == b.scheduler[name])
    && (name in a.latency ==> a.latency[name] == b.latency[name])
  }

  lemma IoDiskElsewhere(k: Knobs, disk: Disk, refused: set<Write>, name: string)
    requires disk.name != name
    ensures SameDevice(k, PlainIoDisk(k, disk, refused), name)
  {
    hide Do, IsNvme;
    var none := SetScheduler(disk.name, "none");
    DoElsewhere(k, SetScheduler(disk.name, "mq-deadline"), refused, name);
    DoElsewhere(k, none, refused, name);
    DoElsewhere(Do(k, none, refused), SetLatency(disk.name, NVME_READ_LATENCY, NVME_WRITE_LATENCY), refused, name);
  }

  lemma IoDiskSame(k: Knobs, k1: Knobs, disk: Disk, refused: set<Write>)
    requires SameDevice(k, k1, disk.name)
    ensures SameDevice(PlainIoDisk(k, disk, refused), PlainIoDisk(k1, disk, refused), disk.name)
  {
    hide Do, SameDevice, IsNvme;
    var d := disk.name;
    DoSame(k, k1, SetScheduler(d, "mq-deadline"), refused, d);
    DoSame(k, k1, SetScheduler(d, "none"), refused, d);
    var none := SetScheduler(d, "none");
    var latency := SetLatency(d, NVME_READ_LATENCY, NVME_WRITE_LATENCY);
    DoSame(Do(k, none, refused), Do(k1, none, refused), latency, refused, d);
  }

  lemma DoSame(k: Knobs, k1: Knobs, w: Write, refused: set<Write>, d: string)
    requires SameDevice(k, k1, d) && (w.SetScheduler? || w.SetLatency?) && w.device == d
    ensures SameDevice(Do(k, w, refused), Do(k1, w, refused), d)
  {
    hide IntText;
    if w.SetScheduler? {
      SchedulerWrites(k, d, w.scheduler, refused);
      SchedulerWrites(k1, d, w.scheduler, refused);
    } else {
      assert Do(k, w, refused).scheduler == k.scheduler && Do(k1, w, refused).scheduler == k1.scheduler;
    }
  }

  lemma DoElsewhere(k: Knobs, w: Write, refused: set<Write>, name: string)
    requires (w.SetScheduler? || w.SetLatency?) && w.device != name
    ensures SameDevice(k, Do(k, w, refused), name)
  {
    hide IntText;
  }

  lemma {:induction false} IoElsewhere(k: Knobs, disks: seq<Disk>, refused: set<Write>, name: string)
    requires forall disk <- disks :: disk.name != name
    ensures SameDevice(k, PlainIoDisks(k, disks, refused), name)
    decreases disks
  {
    hide PlainIoDisk;
    if disks != [] {
      IoDiskElsewhere(k, disks[0], refused, name);
      IoElsewhere(PlainIoDisk(k, disks[0], refused), disks[1..], refused, name);
    }
  }

  /** The I/O policy treats each device by itself. */
  lemma {:induction false} IoAt(k: Knobs, disks: seq<Disk>, refused: set<Write>, disk: Disk)
    requires DistinctDisks(disks) && disk in disks
    ensures SameDevice(PlainIoDisk(k, disk, refused), PlainIoDisks(k, disks, refused), disk.name)
    decreases disks
  {
    hide PlainIoDisk;
    var k1 := PlainIoDisk(k, disks[0], refused);
    if disks[0] == disk {
      IoElsewhere(k1, disks[1..], refused, disk.name);
    } else {
      assert disk in disks[1..] && disks[0].name != disk.name;
      IoDiskElsewhere(k, disks[0], refused, disk.name);
      IoDiskSame(k, k1, disk, refused);
      IoAt(k1, disks[1..], refused, disk);
    }
  }

  /** The scheduler a tick asks an NVMe device for. */
  function AskedOfNvme(disk: Disk): string {
    if disk.inProgress > 4 then "mq-deadline" else "none"
  }

  lemma BeforeIoKeepsLatency(k0: Knobs, k: Knobs, cores: seq<Core>, t: TickInput)
    ensures BeforeIo(k0, k, cores, t).latency == k.latency
  {
    hide PlainThermal, PlainLoadCores, PlainMemory, ActivityOf, TargetEpp;
    var k1 := PlainThermal(k0, k, cores, t.policyZones, t.refused);
    ThermalWrites(k0, k, cores, t.policyZones, t.refused);
    var k2 := PlainLoad(k1, cores, t);
    if t.policyOnline != 0 {
      LoadWrites(k1, cores, TargetEpp(ActivityOf(t), t.policyLoad / t.policyOnline as real), t.refused);
    }
    MemoryWrites(k2, k2, t.policyPressure, t.refused);
  }

  /** One tick of any run, for a listed NVMe device. An idle tick leaves it alone. Any other sets
      the scheduler that its requests in flight ask for, and with at most four of them the latency
      targets of 2 and 10 milliseconds, unless these writes fail. */
  lemma NvmeAfterTick(k0: Knobs, cores: seq<Core>, start: StartInput, ts: seq<TickInput>, i: nat, disk: Disk)
    requires i < |ts| && DistinctDisks(ts[i].disks) && disk in ts[i].disks && "nvme" <= disk.name
    ensures var t := ts[i]; var d := disk.name; var asked := AskedOfNvme(disk);
            var before := Run(k0, cores, start, ts[..i]).knobs; var after := Run(k0, cores, start, ts[..i + 1]).knobs;
      if SeesIdle(t) then SameDevice(before, after, d) else
        && (d in before.scheduler ==>
              d in after.scheduler && after.scheduler[d] ==
                if asked in before.scheduler[d].choices && SetScheduler(d, asked) !in t.refused
                then before.scheduler[d].(active := asked) else before.scheduler[d])
        && (d in before.latency ==>
              d in after.latency && after.latency[d] ==
                if disk.inProgress <= 4 && SetLatency(d, 2000000, 10000000) !in t.refused
                then (2000000, 10000000) else before.latency[d])
  {
    hide Run, PlainTick, PlainStart, PlainIoDisk, PlainIoDisks, BeforeIo, OnlineIds, SeesIdle, ActivityOf,
      DistinctDisks, IsNvme;
    var t := ts[i];
    CachedRunIsPlainRun(k0, cores, start, ts[..i]);
    CachedRunIsPlainRun(k0, cores, start, ts[..i + 1]);
    RunStep(k0, cores, start, ts, i);
    var k := PlainRun(k0, cores, start, ts[..i]);
    hide PlainRun;
    SleepExactly(t);
    TickByPolicy(k0, k, cores, t);
    BeforeIoKeepsLatency(k0, k, cores, t);
    TickIo(k0, k, cores, t);
    var k3 := BeforeIo(k0, k, cores, t);
    if !SeesIdle(t) {
      IoAt(k3, t.disks, t.refused, disk);
      NvmeDisk(k3, disk, t.refused);
    }
  }

  lemma TickIo(k0: Knobs, k: Knobs, cores: seq<Core>, t: TickInput)
    ensures PlainTick(k0, k, cores, t) ==
      if ActivityOf(t) == Idle then BeforeIo(k0, k, cores, t)
      else PlainIoDisks(BeforeIo(k0, k, cores, t), t.disks, t.refused)
  {
    hide BeforeIo, PlainIoDisks, ActivityOf;
  }

  lemma NvmeDisk(k: Knobs, disk: Disk, refused: set<Write>)
    requires "nvme" <= disk.name
    ensures var d := disk.name; var asked := AskedOfNvme(disk); var k' := PlainIoDisk(k, disk, refused);
      && (d in k.scheduler ==>
            d in k'.scheduler && k'.scheduler[d] ==
              if asked in k.scheduler[d].choices && SetScheduler(d, asked) !in refused
              then k.scheduler[d].(active := asked) else k.scheduler[d])
      && (d in k.latency ==>
            d in k'.latency && k'.latency[d] ==
              if disk.inProgress <= 4 && SetLatency(d, 2000000, 10000000) !in refused
              then (2000000, 10000000) else k.latency[d])
  {
    hide Do;
    var d := disk.name;
    if d in k.scheduler {
      SchedulerAfter(k, d, AskedOfNvme(disk), refused, d);
    }
    var k1 := Do(k, SetScheduler(d, AskedOfNvme(disk)), refused);
    LatencyAfter(k, SetScheduler(d, AskedOfNvme(disk)), refused, d);
    LatencyAfter(k1, SetLatency(d, NVME_READ_LATENCY, NVME_WRITE_LATENCY), refused, d);
    LatencyWrites(k1, d, refused);
  }

  lemma LatencyAfter(k: Knobs, w: Write, refused: set<Write>, d: string)
    requires w.SetScheduler? || (w.SetLatency? && w.device == d)
    ensures var k' := Do(k, w, refused);
      && (d in k.latency <==> d in k'.latency)
      && (d in k.latency ==>
            k'.latency[d] == if w.SetLatency? && w !in refused then (w.read, w.write) else k.latency[d])
  {
  }

  /** So after every tick that is not idle, a listed NVMe device holds `mq-deadline` if more than
      four requests were in flight and `none` otherwise, if it offers that one and the write is
      not refused. */
  lemma NvmeScheduler(k0: Knobs, cores: seq<Core>, start: StartInput, ts: seq<TickInput>, disk: Disk)
    requires ts != [] && !SeesIdle(ts[|ts| - 1])
    requires DistinctDisks(ts[|ts| - 1].disks) && disk in ts[|ts| - 1].disks && "nvme" <= disk.name
    requires Succeeds(k0, SetScheduler(disk.name, AskedOfNvme(disk)), ts[|ts| - 1].refused)
    ensures var k := Run(k0, cores, start, ts).knobs;
            disk.name in k.scheduler &&
            k.scheduler[disk.name].active == if disk.inProgress > 4 then "mq-deadline" else "none"
  {
    hide Run, SeesIdle, DistinctDisks, OnlineIds;
    var n := |ts| - 1;
    assert ts[..n + 1] == ts;
    NvmeAfterTick(k0, cores, start, ts, n, disk);
    RunKeepsFiles(k0, cores, start, ts[..n]);
    CachedRunIsPlainRun(k0, cores, start, ts[..n]);
  }

  lemma RunKeepsFiles(k0: Knobs, cores: seq<Core>, start: StartInput, ts: seq<TickInput>)
    ensures SameFiles(k0, PlainRun(k0, cores, start, ts))
  {
    var devices := AllDisks(start, ts);
    forall t <- ts ensures DiskNames(t.disks) <= devices {
    }
    EveryRunKeepsInv(k0, cores, start, ts, OnlineIds(cores), devices);
    CachedRunIsPlainRun(k0, cores, start, ts);
    hide Run, PlainRun, Coherent, Capped, SameFiles, OnlineIds, AllDisks;
  }

  /** What the start makes of a device without an NVMe name. */
  function StartedAs(k: Knobs, name: string, hdd: bool, refused: set<Write>): Scheduler
    requires name in k.scheduler
  {
    if hdd && Succeeds(k, SetScheduler(name, "mq-deadline"), refused)
    then k.scheduler[name].(active := "mq-deadline") else k.scheduler[name]
  }

  lemma InitDiskAt(k: Knobs, disk: Disk, refused: set<Write>, name: string)
    requires !IsNvme(name) && name in k.scheduler
    ensures var k' := PlainInitDisk(k, disk, refused);
      && name in k'.scheduler
      && k'.scheduler[name] == StartedAs(k, name, disk.name == name && disk.rotational == Some(1), refused)
  {
    hide IsNvme, Do;
    SchedulerAfter(k, disk.name, "mq-deadline", refused, name);
    SchedulerAfter(k, disk.name, "none", refused, name);
  }

  lemma SchedulerAfter(k: Knobs, device: string, s: string, refused: set<Write>, name: string)
    requires name in k.scheduler
    ensures var w := SetScheduler(device, s); var k' := Do(k, w, refused);
            name in k'.scheduler && k'.scheduler[name] ==
              if device == name && Succeeds(k, w, refused) then k.scheduler[name].(active := s) else k.scheduler[name]
  {
  }

  ghost predicate HasHdd(disks: seq<Disk>, name: string) {
    exists disk <- disks :: disk.name == name && disk.rotational == Some(1)
  }

  lemma {:induction false} InitDisksAt(k: Knobs, disks: seq<Disk>, refused: set<Write>, name: string)
    requires !IsNvme(name) && name in k.scheduler
    ensures var k' := PlainInitDisks(k, disks, refused);
            name in k'.scheduler && k'.scheduler[name] == StartedAs(k, name, HasHdd(disks, name), refused)
    decreases disks
  {
    hide PlainInitDisk;
    if disks != [] {
      InitDiskAt(k, disks[0], refused, name);
      InitDisksAt(PlainInitDisk(k, disks[0], refused), disks[1..], refused, name);
      assert disks == [disks[0]] + disks[1..];
    }
  }

  lemma {:induction false} TicksLeaveOthers(k0: Knobs, k: Knobs, cores: seq<Core>, ts: seq<TickInput>, name: string)
    requires !IsNvme(name) && name in k.scheduler
    ensures var k' := PlainTicks(k0, k, cores, ts);
            name in k'.scheduler && k'.scheduler[name] == k.scheduler[name]
    decreases |ts|
  {
    hide IsNvme;
    if ts != [] {
      var n := |ts| - 1;
      TicksLeaveOthers(k0, k, cores, ts[..n], name);
      var k1 := PlainTicks(k0, k, cores, ts[..n]);
      TickByPolicy(k0, k1, cores, ts[n]);
      var k3 := BeforeIo(k0, k1, cores, ts[n]);
      hide BeforeIo, PlainIoDisks, ActivityOf;
      IoOther(k3, ts[n].disks, ts[n].refused, name);
    }
  }

  /** A device whose name does not start with `nvme` is written once, at start, if its
      `queue/rotational` file holds 1: it holds `mq-deadline` for the whole run if that write
      succeeds, and otherwise what it held before. */
  lemma OtherSchedulers(k0: Knobs, cores: seq<Core>, start: StartInput, ts: seq<TickInput>, name: string)
    requires !("nvme" <= name) && name in k0.scheduler
    ensures var k := Run(k0, cores, start, ts).knobs;
            var listed := exists disk <- start.disks :: disk.name == name && disk.rotational == Some(1);
            var written := listed && Succeeds(k0, SetScheduler(name, "mq-deadline"), start.refused);
      && name in k.scheduler
      && k.scheduler[name] == (if written then k0.scheduler[name].(active := "mq-deadline") else k0.scheduler[name])
      && (k.scheduler[name].active == "mq-deadline" <==> written || k0.scheduler[name].active == "mq-deadline")
  {
    CachedRunIsPlainRun(k0, cores, start, ts);
    hide Run, OnlineIds, DetectKind;
    var k1 := PlainInitCores(k0, cores, start.refused);
    InitCoresWrite(k0, cores, start.refused);
    InitDisksAt(k1, start.disks, start.refused, name);
    TicksLeaveOthers(k0, PlainStart(k0, cores, start), cores, ts, name);
  }

  lemma NvmeInitDiskAt(k: Knobs, disk: Disk, refused: set<Write>, name: string)
    requires "nvme" <= name && name in k.scheduler
    ensures var k' := PlainInitDisk(k, disk, refused);
            name in k'.scheduler && k'.scheduler[name] ==
              if disk.name == name && Succeeds(k, SetScheduler(name, "none"), refused)
              then k.scheduler[name].(active := "none") else k.scheduler[name]
  {
    hide Do;
    SchedulerAfter(k, disk.name, "mq-deadline", refused, name);
    SchedulerAfter(k, disk.name, "none", refused, name);
  }

  lemma {:induction false} NvmeInitDisksAt(k: Knobs, disks: seq<Disk>, refused: set<Write>, name: string)
    requires "nvme" <= name && name in k.scheduler
    ensures var k' := PlainInitDisks(k, disks, refused);
            name in k'.scheduler && k'.scheduler[name] ==
              if name in DiskNames(disks) && Succeeds(k, SetScheduler(name, "none"), refused)
              then k.scheduler[name].(active := "none") else k.scheduler[name]
    decreases disks
  {
    hide PlainInitDisk;
    if disks != [] {
      NvmeInitDiskAt(k, disks[0], refused, name);
      NvmeInitDisksAt(PlainInitDisk(k, disks[0], refused), disks[1..], refused, name);
      assert disks == [disks[0]] + disks[1..];
    }
  }

  /** At start a listed device whose name starts with `nvme` is set to `none`, unless that write
      fails. */
  lemma NvmeAtStart(k0: Knobs, cores: seq<Core>, start: StartInput, name: string)
    requires "nvme" <= name && name in k0.scheduler
    ensures var k := Run(k0, cores, start, []).knobs;
            name in k.scheduler && k.scheduler[name] ==
              if name in DiskNames(start.disks) && Succeeds(k0, SetScheduler(name, "none"), start.refused)
              then k0.scheduler[name].(active := "none") else k0.scheduler[name]
  {
    CachedRunIsPlainRun(k0, cores, start, []);
    hide Run, OnlineIds, PlainInitCores, PlainInitDisks, DiskNames;
    InitCoresWrite(k0, cores, start.refused);
    NvmeInitDisksAt(PlainInitCores(k0, cores, start.refused), start.disks, start.refused, name);
  }

  /** A SATA SSD: its `queue/rotational` file holds 0. */
  ghost predicate ListedAsSsd(disks: seq<Disk>, name: string) {
    forall disk <- disks :: disk.name == name ==> disk.rotational == Some(0)
  }

  /** No run sets the scheduler of a SATA SSD, so one that comes with `none` never gets
      `mq-deadline`. */
  lemma SataSsdKeepsNone(k0: Knobs, cores: seq<Core>, start: StartInput, ts: seq<TickInput>)
    requires k0.scheduler == map["sda" := Scheduler(["none", "mq-deadline"], "none")]
    requires ListedAsSsd(start.disks, "sda")
    ensures Run(k0, cores, start, ts).knobs.scheduler == k0.scheduler
  {
    hide Run, Succeeds;
    OtherSchedulers(k0, cores, start, ts, "sda");
    RunKeepsFiles(k0, cores, start, ts);
    CachedRunIsPlainRun(k0, cores, start, ts);
  }

  // ---------- Governors and EPP ----------

  lemma {:induction false} InitGovernorAt(k: Knobs, cores: seq<Core>, refused: set<Write>, c: int)
    requires c in k.governor
    ensures var k' := PlainInitCores(k, cores, refused);
            c in k'.governor && k'.governor[c] ==
              if c in OnlineIds(cores) && SetGovernor(c, "schedutil") !in refused then "schedutil" else k.governor[c]
    decreases cores
  {
    if cores != [] {
      assert cores == [cores[0]] + cores[1..];
      assert OnlineIds(cores) == OnlineIds(cores[1..]) + if cores[0].online then {cores[0].cpuId} else {};
      hide OnlineIds;
      InitGovernorAt(if cores[0].online then Do(k, SetGovernor(cores[0].cpuId, "schedutil"), refused) else k,
                     cores[1..], refused, c);
    }
  }

  /** An online core whose governor is set at start runs under `schedutil` until the restore, and
      every other core under its own. */
  lemma {:induction false} GovernorDuringRun(k0: Knobs, cores: seq<Core>, start: StartInput, ts: seq<TickInput>, c: int)
    requires c in k0.governor
    ensures var k := Run(k0, cores, start, ts).knobs;
            c in k.governor && k.governor[c] ==
              if c in OnlineIds(cores) && SetGovernor(c, "schedutil") !in start.refused
              then "schedutil" else k0.governor[c]
    decreases |ts|
  {
    hide Run, OnlineIds, PlainTick, PlainInitCores, PlainInitDisks;
    CachedRunIsPlainRun(k0, cores, start, ts);
    if ts == [] {
      InitGovernorAt(k0, cores, start.refused, c);
      InitDisksWrite(PlainInitCores(k0, cores, start.refused), start.disks, start.refused);
    } else {
      var n := |ts| - 1;
      assert ts[..n + 1] == ts;
      GovernorDuringRun(k0, cores, start, ts[..n], c);
      CachedRunIsPlainRun(k0, cores, start, ts[..n]);
      RunStep(k0, cores, start, ts, n);
      TickByPolicy(k0, PlainRun(k0, cores, start, ts[..n]), cores, ts[n]);
      hide PlainRun, PlainThermal, PlainMemory, PlainLoad, BeforeIo;
    }
  }

  lemma {:induction false} LoadAt(k: Knobs, cores: seq<Core>, target: int, refused: set<Write>, c: int)
    requires c in k.epp
    ensures var k' := PlainLoadCores(k, cores, target, refused);
            c in k'.epp && k'.epp[c] ==
              if c in OnlineIds(cores) && SetEpp(c, target) !in refused then IntText(target) else k.epp[c]
    decreases cores
  {
    hide IntText;
    if cores != [] {
      assert cores == [cores[0]] + cores[1..];
      assert OnlineIds(cores) == OnlineIds(cores[1..]) + if cores[0].online then {cores[0].cpuId} else {};
      hide OnlineIds;
      LoadAt(if cores[0].online then Do(k, SetEpp(cores[0].cpuId, target), refused) else k,
             cores[1..], target, refused, c);
    }
  }

  /** The EPP a tick asks for: 0 to perform, 128 to balance, 200 to save power. */
  ghost function AskedEpp(t: TickInput): int {
    if SeesIdle(t) then 200
    else if t.policyLoad > 0.8 * t.policyOnline as real then 0
    else if t.policyLoad < 0.2 * t.policyOnline as real then 200
    else 128
  }

  /** The loop asks for what the numbers say; if both readings of the load agree, the load alone
      decides. */
  lemma TargetIsAsked(t: TickInput)
    requires t.policyOnline > 0
    ensures TargetEpp(ActivityOf(t), t.policyLoad / t.policyOnline as real) == AskedEpp(t)
    ensures t.load == t.policyLoad && t.online == t.policyOnline ==>
      AskedEpp(t) == (if t.load > 0.8 * t.online as real then 0
                      else if t.load < 0.2 * t.online as real then 200 else 128)
  {
    SleepExactly(t);
    Shares(t.policyLoad, 0.8, t.policyOnline);
    Shares(t.policyLoad, 0.2, t.policyOnline);
    hide ActivityOf, AnyAbove;
    if SeesIdle(t) && t.online > 0 {
      IdleLoads(t.load, t.online);
    }
  }

  lemma IdleLoads(load: real, online: nat)
    requires online > 0 && load <= 0.05 * online as real
    ensures load < 0.2 * online as real && load < 0.8 * online as real
  {
  }

  /** A tick that sees an online core sets the EPP of each online core to what it asks for, unless
      that write fails; a tick that sees none leaves the EPPs alone. */
  lemma EppAfterTick(k0: Knobs, cores: seq<Core>, start: StartInput, ts: seq<TickInput>, i: nat, c: int)
    requires i < |ts| && c in k0.epp
    ensures var t := ts[i]; var asked := AskedEpp(t);
            var before := Run(k0, cores, start, ts[..i]).knobs; var after := Run(k0, cores, start, ts[..i + 1]).knobs;
      && c in before.epp && c in after.epp
      && after.epp[c] ==
           if t.policyOnline > 0 && c in OnlineIds(cores) && SetEpp(c, asked) !in t.refused
           then IntText(asked) else before.epp[c]
  {
    hide Run, PlainTick, PlainThermal, PlainMemory, PlainStart, BeforeIo, OnlineIds, TargetEpp, ActivityOf, IntText,
      AskedEpp;
    var t := ts[i];
    CachedRunIsPlainRun(k0, cores, start, ts[..i]);
    CachedRunIsPlainRun(k0, cores, start, ts[..i + 1]);
    RunStep(k0, cores, start, ts, i);
    var k := PlainRun(k0, cores, start, ts[..i]);
    RunKeepsFiles(k0, cores, start, ts[..i]);
    TickByPolicy(k0, k, cores, t);
    hide PlainRun, PlainLoadCores;
    var k1: Knobs :| k1.epp == k.epp && PlainTick(k0, k, cores, t).epp == PlainLoad(k1, cores, t).epp;
    if t.policyOnline > 0 {
      TargetIsAsked(t);
      LoadAt(k1, cores, AskedEpp(t), t.refused, c);
    }
  }

  // ---------- Decisions ----------

  /** Pointwise: every zone of `b` is at least as hot as the same zone of `a`. */
  ghost predicate Hotter(a: seq<int>, b: seq<int>) {
    |a| == |b| && forall i :: 0 <= i < |a| ==> a[i] <= b[i]
  }

  /** More load, pressure or heat never raises the EPP and never lengthens the sleep. */
  lemma DecisionsAreMonotone(a: TickInput, b: TickInput)
    requires a.online == b.online
    requires a.load <= b.load && a.pressure <= b.pressure && Hotter(a.zones, b.zones)
    ensures SleepInterval(ActivityOf(b)) <= SleepInterval(ActivityOf(a))
    ensures TargetEpp(ActivityOf(b), NormalizedLoad(b.load, b.online))
         <= TargetEpp(ActivityOf(a), NormalizedLoad(a.load, a.online))
  {
    if Exceeds(a.zones, THERMAL_PASSIVE) {
      var i :| 0 <= i < |a.zones| && a.zones[i] > THERMAL_PASSIVE;
      assert b.zones[i] > THERMAL_PASSIVE;
    }
    NormalizedLoadMonotone(a.load, b.load, a.online);
    hide Exceeds, NormalizedLoad;
  }

  lemma NormalizedLoadMonotone(a: real, b: real, online: nat)
    requires a <= b
    ensures NormalizedLoad(a, online) <= NormalizedLoad(b, online)
  {
    if online > 0 {
      var n := online as real;
      assert (b - a) / n >= 0.0;
    }
  }
}
