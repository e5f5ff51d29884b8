/** The pid file protocol: daemons, `start`, `stop`, `clean` and signals, interleaved in any
    order. Launching (check, capture, save, write the pid file) and `clean` are one step each, and
    a launch that cannot write one of its files is no launch; process ids are not used again. */
module Protocol {
  import opened Text
  import opened Kernel
  import opened StateBackup
  import opened PolicyEngine
  import opened PolicyInvariants
  import opened PlainPolicy
  import PolicyTheorems
  import opened Restore
  import opened Lifecycle
  import opened Exactness

  /** Where a daemon is in `run_start_command`. `Launched` has no signal handler yet. A tuning
      daemon holds its engine; its readings stay known while it restores. */
  datatype Phase =
    | Launched
    | Armed
    | Tuning(engine: Engine, start: StartInput, readings: seq<TickInput>)
    | Restoring(todo: seq<Write>, start: StartInput, readings: seq<TickInput>)
    | Finished
    | Dead

  /** `launch` are the knobs it captured; `allWritten` tells whether every restoring write so far
      succeeded. */
  datatype Daemon = Daemon(
    phase: Phase, stopRequested: bool, cores: seq<Core>, devices: seq<string>, engineCores: seq<Core>,
    launch: Knobs, allWritten: bool)

  datatype System = System(knobs: Knobs, backup: Option<string>, pidFile: Option<int>, daemons: map<int, Daemon>)

  datatype Step =
    | Start(pid: int, cores: seq<Core>, devices: seq<string>, engineCores: seq<Core>)
    | InstallHandler(pid: int)
    | BeginTuning(pid: int, start: StartInput)
    | OneTick(pid: int, reading: TickInput)
    | LoadBackup(pid: int)
    | RestoreOne(pid: int, refused: bool)
    | RemovePidFile(pid: int)
    | Signal(pid: int)
    | Stop
    | Clean

  predicate Live(d: Daemon) {
    !d.phase.Finished? && !d.phase.Dead?
  }

  /** `DaemonControl::is_running`. */
  predicate Running(s: System) {
    && s.pidFile.Some? && s.pidFile.value > 0
    && s.pidFile.value in s.daemons && Live(s.daemons[s.pidFile.value])
  }

  /** The default action of a termination signal is to die; the handler requests a stop. */
  function Signalled(d: Daemon): Daemon {
    match d.phase
    case Launched => d.(phase := Dead)
    case Finished => d
    case Dead => d
    case _ => d.(stopRequested := true)
  }

  function SnapshotText(d: Daemon): string {
    SaveText(Capture(d.launch, d.cores, d.devices))
  }

  /** The restoring writes of what `load` returns. */
  function WritesOf(loaded: LoadResult): seq<Write> {
    match loaded
    case Loaded(state) => RestoreWrites(state)
    case _ => []
  }

  /** The steps a daemon takes itself, on the knobs and the backup file it finds. */
  function OwnStep(d: Daemon, knobs: Knobs, backup: Option<string>, step: Step): (Daemon, Knobs) {
    match step
    case InstallHandler(_) =>
      if d.phase.Launched? then (d.(phase := Armed), knobs) else (d, knobs)
    case BeginTuning(_, start) =>
      if !d.phase.Armed? then (d, knobs) else
        var e := ApplyInitialState(NewEngine(knobs), d.engineCores, start.disks, start.refused);
        (d.(phase := Tuning(e, start, [])), e.knobs)
    case OneTick(_, t) =>
      if !d.phase.Tuning? || d.stopRequested then (d, knobs) else
        var e := Tick(d.phase.engine.(knobs := knobs), d.engineCores, t);
        (d.(phase := Tuning(e, d.phase.start, d.phase.readings + [t])), e.knobs)
    case LoadBackup(_) =>
      if !d.phase.Tuning? || !d.stopRequested then (d, knobs) else
        var loaded := match backup case None => NoFile case Some(text) => LoadText(text);
        if loaded == Threw then (d.(phase := Dead), knobs) else
          (d.(phase := Restoring(WritesOf(loaded), d.phase.start, d.phase.readings)), knobs)
    case RestoreOne(_, refuse) =>
      if !d.phase.Restoring? || d.phase.todo == [] then (d, knobs) else
        var w := d.phase.todo[0];
        var refused := if refuse then {w} else {};
        (d.(phase := d.phase.(todo := d.phase.todo[1..]), allWritten := d.allWritten && !refuse), Do(knobs, w, refused))
    case RemovePidFile(_) =>
      if d.phase.Restoring? && d.phase.todo == [] then (d.(phase := Finished), knobs) else (d, knobs)
    case _ => (d, knobs)
  }

  predicate IsOwnStep(step: Step) {
    !step.Start? && !step.Signal? && !step.Stop? && !step.Clean?
  }

  function Next(s: System, step: Step): System {
    match step
    case Start(pid, cores, devices, engineCores) =>
      if pid <= 0 || pid in s.daemons || Running(s) then s else
        var d := Daemon(Launched, false, cores, devices, engineCores, s.knobs, true);
        System(s.knobs, Some(SnapshotText(d)), Some(pid), s.daemons[pid := d])
    case Signal(pid) =>
      if pid in s.daemons then s.(daemons := s.daemons[pid := Signalled(s.daemons[pid])]) else s
    case Stop =>
      if !Running(s) then s else
        s.(daemons := s.daemons[s.pidFile.value := Signalled(s.daemons[s.pidFile.value])])
    case Clean =>
      if Running(s) then s else s.(backup := None, pidFile := None)
    case _ =>
      if step.pid !in s.daemons then s else
        var (d, knobs) := OwnStep(s.daemons[step.pid], s.knobs, s.backup, step);
        s.(knobs := knobs, daemons := s.daemons[step.pid := d],
           pidFile := if d.phase.Finished? && !s.daemons[step.pid].phase.Finished? then None else s.pidFile)
  }

  ghost predicate NoneLive(s: System) {
    forall p <- s.daemons :: !Live(s.daemons[p])
  }

  /** A stretch of states, each reached from the one before by a step. */
  ghost predicate Segment(states: seq<System>, steps: seq<Step>) {
    && |states| == |steps| + 1
    && forall i {:trigger steps[i]} :: 0 <= i < |steps| ==> states[i + 1] == Next(states[i], steps[i])
  }

  function Initial(knobs: Knobs): System {
    System(knobs, None, None, map[])
  }

  /** A whole history: steps in any order, from a system without daemons. */
  ghost predicate Trace(states: seq<System>, steps: seq<Step>) {
    Segment(states, steps) && states[0] == Initial(states[0].knobs)
  }

  // ---------- The invariant ----------

  /** Reading the daemon's snapshot back ends in the uncaught exception. */
  predicate Throws(d: Daemon) {
    LoadText(SnapshotText(d)) == Threw
  }

  /** What the daemon writes after reading its snapshot back. */
  function LoadedWrites(d: Daemon): seq<Write> {
    WritesOf(LoadText(SnapshotText(d)))
  }

  /** What is left of the restore is its end, and everything before it has been written on top of
      the run. */
  ghost predicate PartlyRestored(d: Daemon, knobs: Knobs)
    requires d.phase.Restoring?
  {
    var ws, n := LoadedWrites(d), |d.phase.todo|;
    && !Throws(d) && n <= |ws| && d.phase.todo == ws[|ws| - n..]
    && (d.allWritten ==>
          knobs == DoAll(Run(d.launch, d.engineCores, d.phase.start, d.phase.readings).knobs, ws[..|ws| - n], {}))
  }

  /** What holds of a live daemon: before it tunes it has changed nothing, a tuning daemon's
      engine is a reachable state of the control loop started on its launch knobs, and a
      restoring one has put back what it has written so far. */
  ghost predicate DaemonOk(d: Daemon, knobs: Knobs) {
    && SameFiles(d.launch, knobs)
    && match d.phase
       case Launched => knobs == d.launch && d.allWritten
       case Armed => knobs == d.launch && d.allWritten
       case Tuning(e, start, readings) =>
         d.allWritten && e == Run(d.launch, d.engineCores, start, readings) && e.knobs == knobs
       case Restoring(_, _, _) => PartlyRestored(d, knobs)
       case _ => true
  }

  ghost predicate Ok(s: System) {
    forall p <- s.daemons :: Live(s.daemons[p]) ==>
      && p > 0 && s.pidFile == Some(p)
      && s.backup == Some(SnapshotText(s.daemons[p]))
      && DaemonOk(s.daemons[p], s.knobs)
  }

  // ---------- Own steps keep it ----------

  lemma BeginIsOk(d: Daemon, knobs: Knobs, start: StartInput)
    requires d.phase.Armed? && DaemonOk(d, knobs)
    ensures var (d', knobs') := OwnStep(d, knobs, None, BeginTuning(0, start)); DaemonOk(d', knobs')
  {
    var e := ApplyInitialState(NewEngine(knobs), d.engineCores, start.disks, start.refused);
    assert Run(d.launch, d.engineCores, start, []) == e;
    PolicyTheorems.RunKeepsFiles(d.launch, d.engineCores, start, []);
    CachedRunIsPlainRun(d.launch, d.engineCores, start, []);
    hide ApplyInitialState, Run, PlainRun, SameFiles, OnlineIds;
  }

  lemma TickIsOk(d: Daemon, knobs: Knobs, t: TickInput)
    requires d.phase.Tuning? && DaemonOk(d, knobs)
    ensures var (d', knobs') := OwnStep(d, knobs, None, OneTick(0, t)); DaemonOk(d', knobs')
  {
    var Tuning(e, start, readings) := d.phase;
    var more := readings + [t];
    assert more[..|readings|] == readings;
    assert Run(d.launch, d.engineCores, start, more) == Tick(e, d.engineCores, t);
    PolicyTheorems.RunKeepsFiles(d.launch, d.engineCores, start, more);
    CachedRunIsPlainRun(d.launch, d.engineCores, start, more);
    hide Tick, Run, PlainRun, SameFiles, OnlineIds;
  }

  lemma LoadIsOk(d: Daemon, knobs: Knobs)
    requires d.phase.Tuning? && DaemonOk(d, knobs)
    ensures var (d', knobs') := OwnStep(d, knobs, Some(SnapshotText(d)), LoadBackup(0));
            Live(d') ==> DaemonOk(d', knobs')
  {
    hide Run, SameFiles, LoadText, SaveText, WritesOf, Capture;
    var ws := LoadedWrites(d);
    assert ws[..0] == [] && ws[0..] == ws;
  }

  lemma RestoreIsOk(d: Daemon, knobs: Knobs, refuse: bool)
    requires d.phase.Restoring? && DaemonOk(d, knobs)
    ensures var (d', knobs') := OwnStep(d, knobs, None, RestoreOne(0, refuse)); DaemonOk(d', knobs')
  {
    hide LoadText, SaveText, WritesOf, Capture, Run, Do, SameFiles;
    var todo, ws := d.phase.todo, LoadedWrites(d);
    if todo != [] {
      var w, n := todo[0], |ws| - |todo|;
      var refused := if refuse then {w} else {};
      DoKeepsFiles(knobs, w, refused);
      SameFilesTransitive(d.launch, knobs, Do(knobs, w, refused));
      assert ws[n] == w && ws[n..][1..] == ws[n + 1..];
      StepOfAll(Run(d.launch, d.engineCores, d.phase.start, d.phase.readings).knobs, ws, n + 1, {});
    }
  }

  lemma OwnStepIsOk(d: Daemon, knobs: Knobs, step: Step)
    requires Live(d) && DaemonOk(d, knobs) && IsOwnStep(step)
    ensures var (d', knobs') := OwnStep(d, knobs, Some(SnapshotText(d)), step);
            && (Live(d') ==> DaemonOk(d', knobs'))
            && SnapshotText(d') == SnapshotText(d)
            && (d'.phase.Finished? ==> d.phase.Restoring? && d.phase.todo == [])
  {
    hide SaveText, LoadText, Capture, WritesOf, Run, ApplyInitialState, Tick, SameFiles, PartlyRestored, Do;
    match step
    case BeginTuning(_, start) => if d.phase.Armed? { BeginIsOk(d, knobs, start); }
    case OneTick(_, t) => if d.phase.Tuning? { TickIsOk(d, knobs, t); }
    case LoadBackup(_) => if d.phase.Tuning? { LoadIsOk(d, knobs); }
    case RestoreOne(_, refuse) => if d.phase.Restoring? { RestoreIsOk(d, knobs, refuse); }
    case _ =>
  }

  // ---------- Every step keeps it ----------

  lemma DeadStaysDead(d: Daemon, knobs: Knobs, backup: Option<string>, step: Step)
    requires !Live(d)
    ensures OwnStep(d, knobs, backup, step) == (d, knobs)
  {
  }

  lemma StepKeepsOk(s: System, step: Step)
    requires Ok(s)
    ensures Ok(Next(s, step))
  {
    hide OwnStep, DaemonOk, SnapshotText;
    if IsOwnStep(step) {
      if step.pid in s.daemons {
        if Live(s.daemons[step.pid]) {
          OwnStepIsOk(s.daemons[step.pid], s.knobs, step);
        } else {
          DeadStaysDead(s.daemons[step.pid], s.knobs, s.backup, step);
          assert s.daemons[step.pid := s.daemons[step.pid]] == s.daemons;
        }
      }
    } else if step.Start? {
      StartKeepsOk(s, step);
    } else if step.Signal? {
      if step.pid in s.daemons {
        SignalKeepsOk(s, step.pid);
      }
    } else if step.Stop? {
      if Running(s) {
        SignalKeepsOk(s, s.pidFile.value);
      }
    }
  }

  lemma StartKeepsOk(s: System, step: Step)
    requires Ok(s) && step.Start?
    ensures Ok(Next(s, step))
  {
    hide SaveText, Capture, Run, PartlyRestored;
  }

  lemma SignalKeepsOk(s: System, pid: int)
    requires Ok(s) && pid in s.daemons
    ensures Ok(s.(daemons := s.daemons[pid := Signalled(s.daemons[pid])]))
  {
    var d := s.daemons[pid];
    SignalledIsOk(d, s.knobs);
    hide DaemonOk, SnapshotText;
  }

  lemma SignalledIsOk(d: Daemon, knobs: Knobs)
    ensures Live(Signalled(d)) ==> Live(d)
    ensures Live(Signalled(d)) && DaemonOk(d, knobs) ==> DaemonOk(Signalled(d), knobs)
    ensures SnapshotText(Signalled(d)) == SnapshotText(d)
  {
    hide SaveText, LoadText, Capture, WritesOf, Run, SameFiles;
  }

  lemma {:induction false} SegmentKeepsOk(states: seq<System>, steps: seq<Step>, i: nat, j: nat)
    requires Segment(states, steps) && i <= j < |states| && Ok(states[i])
    ensures Ok(states[j])
    decreases j
  {
    hide Next, Ok;
    if i < j {
      SegmentKeepsOk(states, steps, i, j - 1);
      var step := steps[j - 1];
      StepKeepsOk(states[j - 1], step);
    }
  }

  /** Every state of every interleaving satisfies the invariant. */
  lemma EveryStateIsOk(states: seq<System>, steps: seq<Step>, i: nat)
    requires Trace(states, steps) && i < |states|
    ensures Ok(states[i])
  {
    assert Ok(states[0]);
    hide Next, Ok;
    SegmentKeepsOk(states, steps, 0, i);
  }

  // ---------- Theorems ----------

  /** At most one daemon is live; while one is, the pid file names it and the backup file holds
      its launch snapshot; until it tunes no knob has changed since its launch, and while it
      tunes the knobs are those of a run of the control loop from its launch. */
  lemma OneDaemonWithItsBackup(states: seq<System>, steps: seq<Step>, i: nat, p: int, q: int)
    requires Trace(states, steps) && i < |states|
    requires p in states[i].daemons && Live(states[i].daemons[p])
    requires q in states[i].daemons && Live(states[i].daemons[q])
    ensures p == q
    ensures states[i].pidFile == Some(p)
    ensures states[i].backup == Some(SnapshotText(states[i].daemons[p]))
    ensures var s := states[i]; var d := s.daemons[p];
      match d.phase
      case Launched => s.knobs == d.launch
      case Armed => s.knobs == d.launch
      case Tuning(e, start, readings) => s.knobs == e.knobs && e == Run(d.launch, d.engineCores, start, readings)
      case _ => SameFiles(d.launch, s.knobs)
  {
    hide Segment, SnapshotText, Run, SameFiles, PartlyRestored;
    EveryStateIsOk(states, steps, i);
  }

  /** A daemon about to remove its pid file leaves, if its restoring writes succeeded, the knobs
      of a stopped run from its launch, whatever happened in between; so all cores, all sysctls
      and every scheduler that is read back are restored. */
  lemma FinishingDaemonHasRestored(states: seq<System>, steps: seq<Step>, i: nat, p: int)
    requires Trace(states, steps) && i < |states| && p in states[i].daemons
    requires var d := states[i].daemons[p]; d.phase.Restoring? && d.phase.todo == [] && d.allWritten
    ensures var d := states[i].daemons[p]; var Restoring(_, start, readings) := d.phase;
      && states[i].knobs == FinalKnobs(d.launch, d.cores, d.devices, d.engineCores, start, readings, {})
      && (InRange(Capture(d.launch, d.cores, d.devices)) && Governed(d.launch, d.cores) ==>
            && CoresRestored(d.launch, states[i].knobs, d.cores, {})
            && (ProperNames(d.launch, d.devices) ==> SchedulersRestored(d.launch, states[i].knobs, d.devices, {})))
  {
    hide Trace, Run, SameFiles, InRange, Governed, CoresRestored, ProperNames, FinalKnobs, SchedulersRestored;
    hide SnapshotText, Capture, PartlyRestored, CoreWrites;
    var d := states[i].daemons[p];
    EveryStateIsOk(states, steps, i);
    RestoredIsFinal(d, states[i].knobs);
    hide Ok, DaemonOk;
    if InRange(Capture(d.launch, d.cores, d.devices)) && Governed(d.launch, d.cores) {
      StoppedRunRestores(d.launch, d.cores, d.devices, d.engineCores, d.phase.start, d.phase.readings, {});
      if ProperNames(d.launch, d.devices) {
        AllSchedulersAfterStop(d.launch, d.cores, d.devices, d.engineCores, d.phase.start, d.phase.readings, {});
      }
    }
  }

  lemma RestoredIsFinal(d: Daemon, knobs: Knobs)
    requires d.phase.Restoring? && d.phase.todo == [] && d.allWritten && PartlyRestored(d, knobs)
    ensures knobs == FinalKnobs(d.launch, d.cores, d.devices, d.engineCores, d.phase.start, d.phase.readings, {})
  {
    hide LoadText, SaveText, Capture, Run, RestoreWrites;
    var ws := LoadedWrites(d);
    assert ws[..|ws|] == ws;
  }

  // ---------- Signals ----------

  /** A signal before the handler is installed kills a daemon that has written no knob; after
      that it requests a stop. Nothing else changes, in that daemon or elsewhere. */
  lemma SignalIsSafe(states: seq<System>, steps: seq<Step>, i: nat, p: int)
    requires Trace(states, steps) && i < |states|
    requires p in states[i].daemons && Live(states[i].daemons[p])
    ensures var s := states[i]; var d := s.daemons[p];
      if d.phase.Launched? then s.knobs == d.launch && Next(s, Signal(p)) == WithDaemon(s, p, d.(phase := Dead))
      else Next(s, Signal(p)) == WithDaemon(s, p, d.(stopRequested := true))
  {
    hide Segment, SnapshotText, Run, SameFiles, PartlyRestored;
    EveryStateIsOk(states, steps, i);
  }

  /** The system with that daemon replaced and the knobs, both files and all others as they were. */
  function WithDaemon(s: System, p: int, d: Daemon): System {
    System(s.knobs, s.backup, s.pidFile, s.daemons[p := d])
  }

  // ---------- Commands ----------

  /** The running daemon is the live one. */
  lemma RunningIsLive(states: seq<System>, steps: seq<Step>, i: nat)
    requires Trace(states, steps) && i < |states|
    ensures Running(states[i]) <==> !NoneLive(states[i])
    ensures forall p <- states[i].daemons :: Live(states[i].daemons[p]) ==> states[i].pidFile == Some(p)
  {
    hide Segment, SnapshotText, DaemonOk;
    EveryStateIsOk(states, steps, i);
  }

  /** `stop` reaches the live daemon: one that has just been launched dies, any other is asked to
      stop. Without one it changes nothing. */
  lemma StopReachesDaemon(states: seq<System>, steps: seq<Step>, i: nat)
    requires Trace(states, steps) && i < |states|
    ensures var s := states[i];
      forall p <- s.daemons :: Live(s.daemons[p]) ==>
        Next(s, Stop) == WithDaemon(s, p, if s.daemons[p].phase.Launched? then s.daemons[p].(phase := Dead)
                                          else s.daemons[p].(stopRequested := true))
    ensures NoneLive(states[i]) ==> Next(states[i], Stop) == states[i]
  {
    hide Trace, SnapshotText;
    RunningIsLive(states, steps, i);
  }

  /** A tuning daemon that has not been asked to stop stays in its loop whatever happens: its own
      ticks are one more tick each, and other steps leave it alone or ask it to stop. */
  lemma TunesUntilStopped(states: seq<System>, steps: seq<Step>, i: nat, step: Step, p: int)
    requires Trace(states, steps) && i < |states| && p in states[i].daemons
    requires states[i].daemons[p].phase.Tuning? && !states[i].daemons[p].stopRequested
    ensures var s := states[i]; var d := s.daemons[p]; var s' := Next(s, step);
      && p in s'.daemons
      && s'.daemons[p] == (
           match step
           case OneTick(q, t) => if q != p then d else
             d.(phase := Tuning(Tick(d.phase.engine, d.engineCores, t), d.phase.start, d.phase.readings + [t]))
           case Signal(q) => if q == p then d.(stopRequested := true) else d
           case Stop => d.(stopRequested := true)
           case _ => d)
      && (step.OneTick? && step.pid == p ==> s'.knobs == Tick(d.phase.engine, d.engineCores, step.reading).knobs)
  {
    hide Trace, SnapshotText, Tick, ApplyInitialState, Run, LoadText, WritesOf, Do, SameFiles, PartlyRestored;
    EveryStateIsOk(states, steps, i);
    RunningIsLive(states, steps, i);
  }

  /** `clean` removes both files when no daemon is live, and otherwise nothing. */
  lemma CleanRemovesFiles(states: seq<System>, steps: seq<Step>, i: nat)
    requires Trace(states, steps) && i < |states|
    ensures Next(states[i], Clean) ==
      if NoneLive(states[i]) then System(states[i].knobs, None, None, states[i].daemons) else states[i]
  {
    hide Trace, SnapshotText;
    RunningIsLive(states, steps, i);
  }

  /** `start` with a new process id launches a daemon that holds the knobs it found and has stored
      them and its process id, unless one is live. */
  lemma StartLaunches(states: seq<System>, steps: seq<Step>, i: nat, pid: int, cores: seq<Core>, devices: seq<string>,
                      engineCores: seq<Core>)
    requires Trace(states, steps) && i < |states| && pid > 0 && pid !in states[i].daemons
    ensures var s := states[i];
      Next(s, Start(pid, cores, devices, engineCores)) ==
        if NoneLive(s) then
          System(s.knobs, Some(SaveText(Capture(s.knobs, cores, devices))), Some(pid),
                 s.daemons[pid := Daemon(Launched, false, cores, devices, engineCores, s.knobs, true)])
        else s
  {
    hide Trace, SaveText, Capture;
    RunningIsLive(states, steps, i);
  }

  /** The readings of the ticks a daemon has made. */
  function Readings(d: Daemon): seq<TickInput> {
    match d.phase
    case Tuning(_, _, readings) => readings
    case Restoring(_, _, readings) => readings
    case _ => []
  }

  /** How many own steps a stopped daemon still takes, at most one of them applying the initial
      state and none of them a tick. */
  function Remaining(d: Daemon): nat {
    match d.phase
    case Armed => if Throws(d) then 2 else |LoadedWrites(d)| + 3
    case Tuning(_, _, _) => if Throws(d) then 1 else |LoadedWrites(d)| + 2
    case Restoring(todo, _, _) => |todo| + 1
    case _ => 0
  }

  /** What steps may do to a stopped daemon. No tick begins, the request is not withdrawn, and
      the daemon ends by dying exactly when reading its snapshot back throws. */
  ghost predicate Towards(d: Daemon, d': Daemon) {
    && d'.launch == d.launch && d'.cores == d.cores && d'.devices == d.devices && d'.engineCores == d.engineCores
    && d'.stopRequested && !d'.phase.Launched?
    && (d'.phase.Armed? ==> d.phase.Armed?)
    && (d'.phase.Tuning? ==> d.phase.Armed? || d.phase.Tuning?)
    && (Live(d') ==> Readings(d') == Readings(d))
    && (Live(d) && !Live(d') ==> (d'.phase.Dead? <==> Throws(d)))
    && (!Live(d) ==> d' == d)
    && Remaining(d') <= Remaining(d)
  }

  /** A daemon with a handler that has been asked to stop. */
  predicate Stopping(s: System, p: int) {
    p in s.daemons && s.daemons[p].stopRequested && !s.daemons[p].phase.Launched?
  }

  lemma OtherStep(s: System, step: Step, p: int)
    requires Stopping(s, p) && !(IsOwnStep(step) && step.pid == p)
    ensures p in Next(s, step).daemons && Next(s, step).daemons[p] == s.daemons[p]
  {
    hide OwnStep, SnapshotText;
  }

  lemma StoppedOwnStep(d: Daemon, knobs: Knobs, step: Step)
    requires IsOwnStep(step) && d.stopRequested && !d.phase.Launched?
    requires Live(d) ==> DaemonOk(d, knobs)
    ensures var d' := OwnStep(d, knobs, Some(SnapshotText(d)), step).0;
            Towards(d, d') && (d' != d ==> Remaining(d') == Remaining(d) - 1)
  {
    hide SaveText, LoadText, WritesOf, Capture, Run, Tick, ApplyInitialState, Do, SameFiles;
  }

  lemma StoppedStep(s: System, step: Step, p: int)
    requires Ok(s) && Stopping(s, p)
    ensures p in Next(s, step).daemons && Towards(s.daemons[p], Next(s, step).daemons[p])
  {
    var d := s.daemons[p];
    hide SnapshotText, OwnStep, DaemonOk, Throws, LoadedWrites;
    if IsOwnStep(step) && step.pid == p {
      if Live(d) {
        StoppedOwnStep(d, s.knobs, step);
      } else {
        DeadStaysDead(d, s.knobs, s.backup, step);
      }
    } else {
      OtherStep(s, step, p);
    }
  }

  lemma TowardsIsTransitive(a: Daemon, b: Daemon, c: Daemon)
    requires Towards(a, b) && Towards(b, c)
    ensures Towards(a, c)
  {
    assert Throws(a) == Throws(b) by {
      assert SnapshotText(a) == SnapshotText(b);
    }
    hide Throws, LoadedWrites, SnapshotText;
  }

  /** From the stop request on, in every interleaving with the other commands and whatever the
      snapshot: no further tick, and the daemon only ever moves towards its end, which is death
      exactly when reading the snapshot back throws. */
  lemma {:induction false} NoTickAfterStop(states: seq<System>, steps: seq<Step>, i: nat, j: nat, p: int)
    requires Trace(states, steps) && i <= j < |states| && Stopping(states[i], p)
    ensures p in states[j].daemons && Towards(states[i].daemons[p], states[j].daemons[p])
    decreases j
  {
    hide Next, Throws, LoadedWrites, Ok;
    if i < j {
      NoTickAfterStop(states, steps, i, j - 1, p);
      EveryStateIsOk(states, steps, j - 1);
      var s, step := states[j - 1], steps[j - 1];
      StoppedStep(s, step, p);
      TowardsIsTransitive(states[i].daemons[p], s.daemons[p], states[j].daemons[p]);
    }
  }

  /** The own step a stopped daemon takes next. */
  function NextOwnStep(d: Daemon, p: int): Step {
    match d.phase
    case Armed => BeginTuning(p, StartInput([], {}))
    case Tuning(_, _, _) => LoadBackup(p)
    case Restoring(todo, _, _) => if todo == [] then RemovePidFile(p) else RestoreOne(p, false)
    case _ => Clean
  }

  lemma OwnStepMoves(d: Daemon, knobs: Knobs, p: int)
    requires d.stopRequested && Live(d) && !d.phase.Launched?
    ensures OwnStep(d, knobs, Some(SnapshotText(d)), NextOwnStep(d, p)).0 != d
  {
    hide SaveText, LoadText, WritesOf, Capture, Run, Tick, ApplyInitialState, Do;
    if d.phase.Restoring? && d.phase.todo != [] {
      assert |d.phase.todo[1..]| < |d.phase.todo|;
    }
  }

  lemma StoppedMakesProgress(s: System, p: int)
    requires Ok(s) && Stopping(s, p) && Live(s.daemons[p])
    ensures var s' := Next(s, NextOwnStep(s.daemons[p], p));
      p in s'.daemons && Remaining(s'.daemons[p]) == Remaining(s.daemons[p]) - 1
  {
    var d := s.daemons[p];
    hide SnapshotText, OwnStep, DaemonOk, Remaining, Towards;
    assert s.backup == Some(SnapshotText(d)) && DaemonOk(d, s.knobs);
    hide Ok;
    StoppedOwnStep(d, s.knobs, NextOwnStep(d, p));
    OwnStepMoves(d, s.knobs, p);
  }

  /** What a daemon read when it began to tune. */
  function StartOf(d: Daemon): StartInput {
    match d.phase
    case Tuning(_, start, _) => start
    case Restoring(_, start, _) => start
    case _ => StartInput([], {})
  }

  /** The knobs that the stop of a daemon is to leave. */
  function KnobsAfterStop(d: Daemon): Knobs {
    FinalKnobs(d.launch, d.cores, d.devices, d.engineCores, StartOf(d), Readings(d), {})
  }

  /** The daemon has tuned, and no restoring write of it has failed. */
  predicate Unfailing(d: Daemon) {
    (d.phase.Tuning? || d.phase.Restoring?) && d.allWritten
  }

  /** A step of a daemon on its way to its end. */
  predicate Winding(step: Step, p: int) {
    match step
    case BeginTuning(pid, start) => pid == p && start == StartInput([], {})
    case LoadBackup(pid) => pid == p
    case RestoreOne(pid, refused) => pid == p && !refused
    case RemovePidFile(pid) => pid == p
    case _ => false
  }

  lemma NextStepKeepsPlan(d: Daemon, knobs: Knobs, p: int)
    requires d.stopRequested && Live(d) && Unfailing(d) && DaemonOk(d, knobs)
    ensures var (d', knobs') := OwnStep(d, knobs, Some(SnapshotText(d)), NextOwnStep(d, p));
      if Live(d') then Unfailing(d') && KnobsAfterStop(d') == KnobsAfterStop(d)
      else knobs' == KnobsAfterStop(d)
  {
    hide SaveText, LoadText, WritesOf, Capture, Run, RestoreWrites, SameFiles;
    if d.phase.Restoring? && d.phase.todo == [] {
      RestoredIsFinal(d, knobs);
    }
  }

  /** And it always gets there: any history with a stopping daemon can be continued by that
      daemon's own next steps, as many as remain. Then no daemon is live; its restore is finished
      exactly when its snapshot does not throw, and otherwise it is dead; and the knobs are those
      of its run, restored. */
  lemma {:induction false} StoppedDaemonEnds(states: seq<System>, steps: seq<Step>, p: int)
      returns (states': seq<System>, steps': seq<Step>)
    requires Trace(states, steps) && Stopping(states[|steps|], p) && Live(states[|steps|].daemons[p])
    ensures Trace(states', steps') && states <= states' && steps <= steps'
    ensures |steps'| == |steps| + Remaining(states[|steps|].daemons[p])
    ensures forall k :: |steps| <= k < |steps'| ==> Winding(steps'[k], p)
    ensures p in states'[|steps'|].daemons && NoneLive(states'[|steps'|])
    ensures var d := states[|steps|].daemons[p]; var d' := states'[|steps'|].daemons[p];
      if Throws(d) then d'.phase.Dead? else d'.phase.Finished?
    ensures var d := states[|steps|].daemons[p]; Unfailing(d) ==> states'[|steps'|].knobs == KnobsAfterStop(d)
    ensures var d := states[|steps|].daemons[p]; var s' := states'[|steps'|];
      s'.backup == Some(SnapshotText(d)) && s'.pidFile == if Throws(d) then Some(p) else None
    decreases Remaining(states[|steps|].daemons[p])
  {
    hide LoadedWrites, OwnStep, SnapshotText, DaemonOk, Throws, KnobsAfterStop, Unfailing;
    var s := states[|steps|];
    var d := s.daemons[p];
    var step := NextOwnStep(d, p);
    var s1 := Next(s, step);
    EveryStateIsOk(states, steps, |steps|);
    StoppedMakesProgress(s, p);
    StoppedStep(s, step, p);
    TraceExtends(states, steps, step);
    SameThrows(d, s1.daemons[p]);
    if Unfailing(d) {
      NextStepKeepsPlan(d, s.knobs, p);
    }
    assert Winding(step, p);
    assert !Live(s1.daemons[p]) ==> NoneLive(s1);
    assert s1.backup == Some(SnapshotText(d)) && s1.pidFile == if s1.daemons[p].phase.Finished? then None else Some(p);
    hide Next, NextOwnStep, Trace, Ok, Winding;
    states', steps' := states + [s1], steps + [step];
    if Live(s1.daemons[p]) {
      states', steps' := StoppedDaemonEnds(states', steps', p);
      assert steps'[|steps|] == step;
    } else {
      EndedHasNothingLeft(s1.daemons[p]);
    }
  }

  lemma SameThrows(d: Daemon, d': Daemon)
    requires Towards(d, d')
    ensures Throws(d') == Throws(d) && SnapshotText(d') == SnapshotText(d)
  {
    assert SnapshotText(d') == SnapshotText(d);
  }

  lemma TraceExtends(states: seq<System>, steps: seq<Step>, step: Step)
    requires Trace(states, steps)
    ensures Trace(states + [Next(states[|steps|], step)], steps + [step])
  {
    hide Next;
  }

  lemma EndedHasNothingLeft(d: Daemon)
    requires !Live(d)
    ensures Remaining(d) == 0
  {
  }

  /** So after `stop` any live daemon past its launch can end, with no tick in between; and the
      knobs are then those of the run it had made, restored. */
  lemma StopRestores(states: seq<System>, steps: seq<Step>, p: int)
      returns (states': seq<System>, steps': seq<Step>)
    requires Trace(states, steps) && p in states[|steps|].daemons
    requires Live(states[|steps|].daemons[p]) && !states[|steps|].daemons[p].phase.Launched?
    ensures Trace(states', steps') && states <= states' && steps + [Stop] <= steps'
    ensures forall k :: |steps| < k < |steps'| ==> Winding(steps'[k], p)
    ensures NoneLive(states'[|steps'|]) && p in states'[|steps'|].daemons
    ensures var d := states[|steps|].daemons[p]; var d' := states'[|steps'|].daemons[p];
      if Throws(d) then d'.phase.Dead? else d'.phase.Finished?
    ensures var d := states[|steps|].daemons[p]; Unfailing(d) ==> states'[|steps'|].knobs == KnobsAfterStop(d)
  {
    hide LoadedWrites, OwnStep, SnapshotText, DaemonOk, Remaining, Winding, LoadText, FinalKnobs;
    var s := states[|steps|];
    StopReachesDaemon(states, steps, |steps|);
    TraceExtends(states, steps, Stop);
    var s1 := Next(s, Stop);
    StoppedIsSame(s.daemons[p]);
    hide Next, Trace, Throws, KnobsAfterStop;
    states', steps' := StoppedDaemonEnds(states + [s1], steps + [Stop], p);
  }

  lemma StoppedIsSame(d: Daemon)
    ensures var d' := d.(stopRequested := true);
      SnapshotText(d') == SnapshotText(d) && Throws(d') == Throws(d) && KnobsAfterStop(d') == KnobsAfterStop(d)
  {
    hide SaveText, LoadText, Capture, FinalKnobs;
  }

  /** So on every machine a stopped daemon that has ended finished its restore exactly when each
      of its cores had a governor. */
  lemma FinishedExactlyWhenGoverned(states: seq<System>, steps: seq<Step>, i: nat, j: nat, p: int)
    requires Trace(states, steps) && i <= j < |states| && Stopping(states[i], p) && Live(states[i].daemons[p])
    requires p in states[j].daemons && !Live(states[j].daemons[p])
    requires var d := states[i].daemons[p]; Machine(d.launch, d.cores, d.devices)
    ensures var d := states[i].daemons[p]; states[j].daemons[p].phase.Finished? <==> Governed(d.launch, d.cores)
  {
    hide Trace, Machine, Governed, LoadText, SaveText, Capture;
    NoTickAfterStop(states, steps, i, j, p);
    var d := states[i].daemons[p];
    LoadThrowsExactly(d.launch, d.cores, d.devices);
  }

  // ---------- Whole histories ----------

  /** The step happens on a machine of these cores and devices: a start captures and tunes them,
      listings are genuine, and no restoring write fails. Tuning writes may. */
  ghost predicate Steady(step: Step, cores: seq<Core>, devices: seq<string>, rotational: map<string, int>) {
    match step
    case Start(_, captured, listed, tuned) => captured == cores && listed == devices && tuned == cores
    case BeginTuning(_, start) => Genuine(start.disks, devices, rotational)
    case OneTick(_, t) => Genuine(t.disks, devices, rotational)
    case RestoreOne(_, refused) => !refused
    case _ => true
  }

  ghost predicate History(states: seq<System>, steps: seq<Step>, k0: Knobs, cores: seq<Core>, devices: seq<string>,
                          rotational: map<string, int>)
  {
    && Trace(states, steps) && states[0].knobs == k0
    && forall i :: 0 <= i < |steps| ==> Steady(steps[i], cores, devices, rotational)
  }

  /** A daemon of the machine, launched on its original knobs. */
  ghost predicate AtHome(d: Daemon, k0: Knobs, cores: seq<Core>, devices: seq<string>, rotational: map<string, int>) {
    && d.launch == k0 && d.cores == cores && d.devices == devices && d.engineCores == cores && d.allWritten
    && Closed(devices, rotational, StartOf(d), Readings(d))
  }

  /** Between daemons the knobs are the original ones. */
  ghost predicate Kept(s: System, k0: Knobs, cores: seq<Core>, devices: seq<string>, rotational: map<string, int>) {
    && (NoneLive(s) ==> s.knobs == k0)
    && forall p <- s.daemons :: Live(s.daemons[p]) ==> AtHome(s.daemons[p], k0, cores, devices, rotational)
  }

  lemma OwnStepKeeps(d: Daemon, knobs: Knobs, step: Step, k0: Knobs, cores: seq<Core>, devices: seq<string>,
                     rotational: map<string, int>)
    requires Machine(k0, cores, devices) && FullyRestorable(k0, cores, devices, rotational)
    requires Live(d) && DaemonOk(d, knobs) && AtHome(d, k0, cores, devices, rotational)
    requires IsOwnStep(step) && Steady(step, cores, devices, rotational)
    ensures var (d', knobs') := OwnStep(d, knobs, Some(SnapshotText(d)), step);
            if Live(d') then AtHome(d', k0, cores, devices, rotational) else knobs' == k0
  {
    hide Machine, FullyRestorable, SaveText, LoadText, Capture, WritesOf, Run, ApplyInitialState, Tick, Genuine, Do,
      SameFiles, FinalKnobs, PartlyRestored, Governed;
    RestorableIsGoverned(k0, cores, devices, rotational);
    LoadThrowsExactly(k0, cores, devices);
    if d.phase.Restoring? && d.phase.todo == [] {
      RestoredIsFinal(d, knobs);
      RestorableIsRestored(k0, cores, devices, rotational, StartOf(d), Readings(d));
    }
  }

  lemma StepKeeps(s: System, step: Step, k0: Knobs, cores: seq<Core>, devices: seq<string>,
                  rotational: map<string, int>)
    requires Machine(k0, cores, devices) && FullyRestorable(k0, cores, devices, rotational)
    requires Ok(s) && Kept(s, k0, cores, devices, rotational) && Steady(step, cores, devices, rotational)
    ensures Kept(Next(s, step), k0, cores, devices, rotational)
  {
    hide OwnStep, DaemonOk, SnapshotText, AtHome, Machine, FullyRestorable, Steady;
    if IsOwnStep(step) {
      if step.pid in s.daemons {
        if Live(s.daemons[step.pid]) {
          assert s.backup == Some(SnapshotText(s.daemons[step.pid]));
          assert step.pid in Next(s, step).daemons;
          OwnStepKeeps(s.daemons[step.pid], s.knobs, step, k0, cores, devices, rotational);
        } else {
          DeadStaysDead(s.daemons[step.pid], s.knobs, s.backup, step);
          assert s.daemons[step.pid := s.daemons[step.pid]] == s.daemons;
        }
      }
    } else if step.Start? {
      StartKeeps(s, step, k0, cores, devices, rotational);
    } else if step.Signal? {
      if step.pid in s.daemons {
        SignalKeeps(s, step.pid, k0, cores, devices, rotational);
      }
    } else if step.Stop? {
      if Running(s) {
        SignalKeeps(s, s.pidFile.value, k0, cores, devices, rotational);
      }
    }
  }

  lemma StartKeeps(s: System, step: Step, k0: Knobs, cores: seq<Core>, devices: seq<string>,
                   rotational: map<string, int>)
    requires step.Start? && Steady(step, cores, devices, rotational)
    requires Ok(s) && Kept(s, k0, cores, devices, rotational)
    ensures Kept(Next(s, step), k0, cores, devices, rotational)
  {
    hide SaveText, Capture, DaemonOk;
    if step.pid > 0 && step.pid !in s.daemons && !Running(s) {
      assert NoneLive(s);
      var d := Next(s, step).daemons[step.pid];
      assert Live(d) && AtHome(d, k0, cores, devices, rotational);
    }
  }

  lemma SignalKeeps(s: System, pid: int, k0: Knobs, cores: seq<Core>, devices: seq<string>,
                    rotational: map<string, int>)
    requires Ok(s) && Kept(s, k0, cores, devices, rotational) && pid in s.daemons
    ensures Kept(s.(daemons := s.daemons[pid := Signalled(s.daemons[pid])]), k0, cores, devices, rotational)
  {
    hide SnapshotText, DaemonOk, AtHome, Signalled;
    var d, s' := s.daemons[pid], s.(daemons := s.daemons[pid := Signalled(s.daemons[pid])]);
    assert Live(d) ==> DaemonOk(d, s.knobs) && AtHome(d, k0, cores, devices, rotational);
    hide Ok;
    SignalledIsHome(d, s.knobs, k0, cores, devices, rotational);
    assert s'.daemons[pid] == Signalled(d) && forall p <- s.daemons :: p != pid ==> s'.daemons[p] == s.daemons[p];
    if NoneLive(s') {
      assert !Live(Signalled(d)) && forall p <- s.daemons :: p != pid ==> !Live(s'.daemons[p]);
    }
  }

  lemma SignalledIsHome(d: Daemon, knobs: Knobs, k0: Knobs, cores: seq<Core>, devices: seq<string>,
                        rotational: map<string, int>)
    ensures Live(Signalled(d)) ==> Live(d)
    ensures AtHome(d, k0, cores, devices, rotational) ==> AtHome(Signalled(d), k0, cores, devices, rotational)
    ensures AtHome(d, k0, cores, devices, rotational) && Live(d) && DaemonOk(d, knobs) && !Live(Signalled(d)) ==>
      knobs == k0
  {
    hide Genuine, Run, PartlyRestored, SameFiles;
  }

  /** However often the program is started, stopped, killed before it tunes or cleaned up, and
      whatever it reads: on a fully restorable machine the knobs are the original ones whenever no
      daemon is live. */
  lemma {:induction false} MachineIsKept(states: seq<System>, steps: seq<Step>, i: nat, cores: seq<Core>,
                                         devices: seq<string>, rotational: map<string, int>)
    requires i < |states| && History(states, steps, states[0].knobs, cores, devices, rotational)
    requires Machine(states[0].knobs, cores, devices)
    requires FullyRestorable(states[0].knobs, cores, devices, rotational)
    ensures Kept(states[i], states[0].knobs, cores, devices, rotational)
    ensures NoneLive(states[i]) ==> states[i].knobs == states[0].knobs
    decreases i
  {
    hide Next, Machine, FullyRestorable, Steady, AtHome, Ok;
    if i > 0 {
      MachineIsKept(states, steps, i - 1, cores, devices, rotational);
      EveryStateIsOk(states, steps, i - 1);
      StepKeeps(states[i - 1], steps[i - 1], states[0].knobs, cores, devices, rotational);
    }
  }

  /** The history of a probe up to its stop request. */
  lemma ProbeHistory(k0: Knobs, cores: seq<Core>, devices: seq<string>, rotational: map<string, int>, n: nat)
      returns (states: seq<System>, steps: seq<Step>)
    ensures History(states, steps, k0, cores, devices, rotational)
    ensures Stopping(states[|steps|], 1)
    ensures var d := states[|steps|].daemons[1];
      && Unfailing(d) && KnobsAfterStop(d) == Probe(k0, cores, devices, rotational, n)
  {
    hide ApplyInitialState, Tick, LoudTick, Listing, FinalKnobs, SaveText, Capture, Genuine;
    var start, t := ListedStart(devices, rotational), LoudTick(cores, devices, rotational, n);
    ProbeIsClosed(cores, devices, rotational, n);
    var s0 := Initial(k0);
    var step1, step2, step3 := Start(1, cores, devices, cores), InstallHandler(1), BeginTuning(1, start);
    var step4, step5 := OneTick(1, t), Stop;
    var s1 := Next(s0, step1);
    var s2 := Next(s1, step2);
    var s3 := Next(s2, step3);
    var s4 := Next(s3, step4);
    var s5 := Next(s4, step5);
    states, steps := [s0, s1, s2, s3, s4, s5], [step1, step2, step3, step4, step5];
    assert s4.daemons[1].phase.Tuning? && s4.daemons[1].phase.readings == [] + [t] == [t];
    assert t in [t];
  }

  /** A step on the way to the end fits every machine. */
  lemma WindingIsSteady(step: Step, p: int, cores: seq<Core>, devices: seq<string>, rotational: map<string, int>)
    requires Winding(step, p)
    ensures Steady(step, cores, devices, rotational)
  {
  }

  lemma TraceLength(states: seq<System>, steps: seq<Step>)
    requires Trace(states, steps)
    ensures |states| == |steps| + 1
  {
  }

  /** A machine that is not fully restorable has a history that leaves other knobs. */
  lemma MachineIsNotKept(k0: Knobs, cores: seq<Core>, devices: seq<string>, rotational: map<string, int>)
      returns (states: seq<System>, steps: seq<Step>)
    requires Machine(k0, cores, devices) && !FullyRestorable(k0, cores, devices, rotational)
    ensures History(states, steps, k0, cores, devices, rotational)
    ensures NoneLive(states[|steps|]) && states[|steps|].knobs != k0
  {
    hide Machine, FullyRestorable, Trace, Next, KnobsAfterStop, Throws, Probe, Steady, Winding, NoneLive, Remaining;
    var n := NotRestorable(k0, cores, devices, rotational);
    var begun, first := ProbeHistory(k0, cores, devices, rotational, n);
    states, steps := StoppedDaemonEnds(begun, first, 1);
    TraceLength(begun, first);
    assert begun <= states && states[0] == begun[0];
    forall i | 0 <= i < |steps| ensures Steady(steps[i], cores, devices, rotational) {
      if i < |first| {
        assert steps[i] == first[i];
      } else {
        WindingIsSteady(steps[i], 1, cores, devices, rotational);
      }
    }
  }

  ghost predicate EveryHistoryKeeps(k0: Knobs, cores: seq<Core>, devices: seq<string>, rotational: map<string, int>) {
    forall states: seq<System>, steps: seq<Step> ::
      History(states, steps, k0, cores, devices, rotational) && NoneLive(states[|steps|]) ==>
        states[|steps|].knobs == k0
  }

  /** On every machine: all histories of any number of starts, stops, signals and clean-ups leave
      the original knobs whenever no daemon is live exactly when the machine is fully restorable. */
  lemma EveryHistoryKeepsExactly(k0: Knobs, cores: seq<Core>, devices: seq<string>, rotational: map<string, int>)
    requires Machine(k0, cores, devices)
    ensures EveryHistoryKeeps(k0, cores, devices, rotational) <==> FullyRestorable(k0, cores, devices, rotational)
  {
    hide Machine, FullyRestorable, NoneLive, Steady, Kept;
    if FullyRestorable(k0, cores, devices, rotational) {
      forall states: seq<System>, steps: seq<Step>
        | History(states, steps, k0, cores, devices, rotational) && NoneLive(states[|steps|])
        ensures states[|steps|].knobs == k0
      {
        MachineIsKept(states, steps, |steps|, cores, devices, rotational);
      }
    } else {
      var states, steps := MachineIsNotKept(k0, cores, devices, rotational);
    }
  }
}
