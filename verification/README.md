# bettercpu, modelled and proved in Dafny

bettercpu is a Linux tuning daemon. It snapshots kernel settings into a text file, runs a
control loop that writes knobs through per-knob caches, and on a stop signal reads the snapshot
back and restores it. This project models that program and proves what it promises, on every
input, every pattern of failing writes and every interleaving of its commands.

`dafny verify dfyconfig.toml` checks the whole project (Dafny 4.11).

## How the model is built

| file | what it holds |
|---|---|
| `Text.dfy`, `Stream.dfy` | printed numerals, `std::stoi`/`std::stoul`, and formatted input with its fail flag |
| `StateBackup.dfy`, `Alignment.dfy` | the snapshot file: printer, reader, their exact round trip, and which devices are read back |
| `Kernel.dfy` | the knobs under `/sys` and `/proc/sys` as a table that writes change |
| `PolicyEngine.dfy` | the control loop: the class with its five maps and stop flag, and the functions it computes |
| `PolicyInvariants.dfy` | cache coherence, cap bounds and the footprint of every run |
| `PlainPolicy.dfy` | the control loop without memory, which the engine refines |
| `PolicyTheorems.dfy` | hysteresis, convergence, memory knobs, schedulers, governors, EPP, monotone decisions |
| `Restore.dfy`, `Lifecycle.dfy` | capture, restore, `run_start_command`, and the restoration theorem |
| `Exactness.dfy` | exactly when the whole table is restored, with a run that loses a value whenever it is not |
| `Protocol.dfy` | the pid file protocol: daemons, signals, `start`, `stop`, `clean` in any order |
| `Sorting.dfy`, `MemGuard.dfy`, `ProcessManager.dfy`, `ProcessIds.dfy` | the process listing, its ids, and the largest memory consumer |

Classes and methods take the form of the program (`PolicyEngine`, `StateBackup`, the streams,
the kernel, the listing loops); each method is proved equal to a function on values, and the
theorems are about those functions over whole runs.

The environment is assumed to behave as follows. Nothing else writes the knobs, and knobs do not
influence one another. A write that is reported as done took effect: the program tests `good()`
before its stream is flushed (core/src/governor.cpp:24-26), so the code alone does not guarantee
it. A write to a missing file fails, a device takes only a scheduler that it offers, and any other
write may fail; the failing writes of a step are an input (`refused`). Governor and EPP texts in the
table stand without the newline that ends their files, so a plain EPP is a file holding a printed
number and a newline. In `Protocol.dfy` a daemon that launches has stored its snapshot and its pid
file: the program goes on in the background when writing the pid file fails
(cli/src/main.cpp:174), and then a second daemon could start beside it. Loads and pressures are
exact reals, and integers stay in the range of their C++ types. Pressure, temperatures and load
are read twice in a tick and the two readings may differ.

## Where the documentation and the code differ

- README.md:129-130 says every value is restored. That fails in four ways: a machine with an online
  core without a governor file has a snapshot on which `load` throws, so nothing is restored; an EPP
  that is not a plainly printed number is not put back; NVMe latency targets are not saved at all;
  and a device without an active scheduler shifts the words of the devices after it, which matters
  for those the loop writes: NVMe devices and hard disks, told apart by `queue/rotational`.
  `Exactness.EverythingRestoredExactly` gives the exact condition, over all machines whose numbers
  fit, whose EPP files come with governor files, whose device names are not scheduler names, and
  which have the cache pressure sysctl; `Protocol.EveryHistoryKeepsExactly` proves the same condition
  exact for whole histories of daemons. Cores and sysctls are restored whatever the devices are
  (`Lifecycle.StoppedRunRestores`); a device gets its scheduler back exactly when an even number of
  devices listed before it have none (`Lifecycle.SchedulersAfterStop`).
- cli/src/main.cpp:379 and 527 collect the programs separately for the listing and for `p -k`, so an
  id can name another program than the one it was shown for (`ProcessIds.ShownIdKillsAnother`).
- README.md:114 says hard disks and SATA SSDs get `mq-deadline`, at start and again under moderate
  load. The code writes hard disks once, at start, and no SSD: an SSD has `mq-deadline` after a run
  exactly when it had it before (`PolicyTheorems.OtherSchedulers`), and need not have had it
  (`PolicyTheorems.SataSsdKeepsNone`). NVMe devices are written from light load on.

## Model

| member | source | states |
|---|---|---|
| Lifecycle.StoppedRunRestores | cli/src/main.cpp:151-203 | whatever the sensors read, whichever tuning writes failed and whatever devices are listed, a stopped run on governed cores has every captured governor, minimum, maximum and numeric EPP and all four sysctls back, each unless its own restoring write is refused |
| Lifecycle.SchedulersAfterStop | cli/src/main.cpp:199-202 | for every list of devices: a device has its captured scheduler after the stop if it has one, an even number of devices before it have none and its write is not refused, and otherwise the one the run left it with |
| Lifecycle.StartAndStop | cli/src/main.cpp:113-208 | both for the methods of the whole program: started with no daemon running and then stopped, it has put back every knob of the cores, every sysctl and every scheduler that is read back, each unless its own restoring write is refused |
| Lifecycle.CapturedIsLoaded | cli/src/main.cpp:152-188 | with governed cores the snapshot is loaded whatever the devices are, and it is the captured one if and only if all devices but the last have an active scheduler |
| Exactness.EverythingRestoredExactly | README.md:129-130 | on every machine: all runs that list its devices with their kinds leave the entire knob table as found if and only if every online core has a governor and no EPP but a plain numeral, and every device has the default latency targets and is read back or offers no other scheduler a run asks a device of its kind for; and two runs of one tick over the whole listing suffice to tell |
| Exactness.LoadThrowsExactly | core/src/state_backup.cpp:60-71 | on every machine loading the saved snapshot throws if and only if some online core has no governor |
| Exactness.NoGovernorNoRestore | core/src/state_backup.cpp:60-71 | if the first core without a governor word has no EPP either, loading ends in an uncaught exception and a stopped run restores nothing |
| Exactness.UngovernedIsNotRestored | cli/src/main.cpp:187-205 | with such a core the rise of the cache pressure by one tick is never taken back |
| Exactness.OtherEppIsNotRestored | core/src/governor.cpp:63-78 | for each online core whose EPP is named or not printed plainly, a run of one tick loses it |
| Exactness.OtherLatencyIsNotRestored | core/src/policy_engine.cpp:236-239 | for each listed NVMe device with another latency target, a run of one tick with no request in flight loses it |
| Exactness.UnsettledIsNotRestored | core/src/iostorage.cpp:41-56 | for each device that is not read back and offers another scheduler a run asks a device of its kind for, a run of one tick over the machine's own listing leaves it with that one |
| Alignment.ReadBackExactly | core/src/state_backup.cpp:77-82 | in every device section with distinct names a device with a scheduler is read back with it if and only if an even number of devices before it have none; otherwise no record names it |
| Exactness.TwoDevicesShift | core/src/state_backup.cpp:77-82 | the smallest case: when the first of two devices has no scheduler word, the words after it are read one place early |
| Exactness.SecondDeviceIsNotRestored | core/src/state_backup.cpp:77-82 | in that case the second device keeps the scheduler the run gave it |
| Exactness.ThirdDeviceIsRestored | core/src/state_backup.cpp:77-82 | a second device without a scheduler puts the third one right again |
| Lifecycle.RunStart | cli/src/main.cpp:113-208 | the whole command: the three early exits change no knob, otherwise the final knobs, the backup file, the pid file and the way the process ends |
| StateBackup.RoundTrip | core/src/state_backup.cpp:16-85 | for snapshots in range, load of save is the identity if and only if every governor and every scheduler but the last has a name |
| StateBackup.SaveThenLoad | core/src/state_backup.cpp:16-85 | the same for the file as the class writes and reads it |
| StateBackup.CpuForm | core/src/state_backup.cpp:28-35 | the words and spaces of a core's line, and the word that stands for an absent EPP |
| StateBackup.LoadCpusExact | core/src/state_backup.cpp:60-71 | the core section is read back exactly when all governors are named, and otherwise throws or differs |
| StateBackup.ThrowsExactly | core/src/state_backup.cpp:60-71 | for snapshots without an EPP on nameless cores, loading throws if and only if some governor has no name |
| StateBackup.LoadIoSectionPairsUp | core/src/state_backup.cpp:77-82 | for every device list the section is read back as the pairs of its consecutive words, with empty words at its end |
| StateBackup.PairUpExact | core/src/state_backup.cpp:77-82 | these pairs are the section itself if and only if all schedulers but the last are named |
| StateBackup.StateBackup.Save | core/src/state_backup.cpp:16-45 | the file holds the printed snapshot, or its stored prefix when writing fails |
| StateBackup.StateBackup.Load | core/src/state_backup.cpp:47-85 | no file, the state the words denote, or the exception of `std::stoi` |
| Text.StoiInvertsIntText | core/src/state_backup.cpp:66-68 | a printed EPP value converts back to itself exactly from -2147483648 to 2147483647 |
| Text.NumeralsConvert | core/src/governor.cpp:63-78 | `std::stoi` and `std::stoul` skip whitespace and take the signed numeral in front, whatever follows it; both throw when it does not fit, and a negative number wraps around in the unsigned one |
| Stream.NumbersAreRead | core/src/state_backup.cpp:52-64 | the same for reading numbers from a stream, which on overflow fails and stores the nearest bound |
| Stream.ReadWordAt | core/src/state_backup.cpp:63-64 | reading a word skips leading whitespace, takes the whole word and stops at whitespace |
| Kernel.CurrentSchedulerIsActive | core/src/iostorage.cpp:58-73 | for every list of scheduler names the bracket parser returns the active one, or nothing when none is active |
| Kernel.GovernorIsFirstWord | core/src/governor.cpp:30-39 | a governor file is read as its first word, and a missing one as no word |
| Kernel.EppIsFirstNumber | core/src/governor.cpp:63-78 | an EPP file is read as the number its first word starts with if that fits an `int`, and otherwise as absent |
| Kernel.WritingBackScheduler | core/src/iostorage.cpp:75-85 | writing back the scheduler that was read changes nothing |
| Kernel.ScanForBracket | core/src/iostorage.cpp:65-72 | the word loop finds the first bracketed word |
| Restore.CaptureCurrentState | cli/src/main.cpp:88-111 | the captured state of the online cores, the devices and the sysctls |
| Restore.CapturedNumbers | core/src/governor.cpp:93-102 | what is captured of numbers that are there, and the values that stand for missing files |
| Restore.RestoreCpu | core/src/governor.cpp:104-116 | all writes of a core are tried in order, and the result says whether every one succeeded |
| Restore.RestoreWritesCaptured | cli/src/main.cpp:190-202 | the restore writes back what was read for every captured core and device and every sysctl, and nothing else |
| Restore.RestoredShows | cli/src/main.cpp:190-202 | after the restore every knob whose write succeeds shows the captured value, even when other writes fail |
| PolicyInvariants.EveryRunKeepsInv | core/src/policy_engine.cpp:33-276 | in every reachable state all cache entries equal the kernel's values, caps are bounded by half the original and the original, and only listed knobs differ from the start |
| PlainPolicy.CachedWritesRefinePlainWrites | core/src/policy_engine.cpp:56-90 | any sequence of governor, EPP and scheduler requests with any failures leaves the same knobs through the caches as when all are written |
| PlainPolicy.CachedRunIsPlainRun | core/src/policy_engine.cpp:33-276 | a whole run with caches and recorded caps leaves the same knobs as a run that decides from the knobs alone and writes always |
| PolicyTheorems.ThermalSafety | core/src/policy_engine.cpp:33-43 | both frequency maps have exactly the online cores as keys, the originals are the starting (and saved) maxima for ever, and every cap lies between half and all of its original |
| PolicyTheorems.CapStep | core/src/policy_engine.cpp:122-172 | in every tick of every run the cap of an online core becomes the larger of half the original and a cut of a twentieth if a zone is above 85000, stays if one is above 78000, and else is the original; it stays where it was if that write fails |
| PolicyTheorems.HysteresisStep | core/src/policy_engine.cpp:122-172 | so a cap falls only above 85000, and rises only at or below 78000 and then to the original |
| PolicyTheorems.DropBetweenRises | core/src/policy_engine.cpp:151-169 | between any two rises of a core's cap in a run there is a drop, and each rise is a full restore |
| PolicyTheorems.HotTicks | core/src/policy_engine.cpp:143-169 | after any run that left a core uncapped, k hot ticks with successful writes give the larger of half the original and k cuts of a twentieth |
| PolicyTheorems.FloorFromFourteenOn | core/src/policy_engine.cpp:143-169 | after any run that left a core of at least 1000 uncapped, k hot ticks with successful writes leave its cap at half the original if and only if k is at least 14, and above it otherwise |
| PolicyTheorems.HotStreak | core/src/policy_engine.cpp:143-169 | the same for the loop without memory, from any knobs at the original cap |
| PolicyTheorems.DecayBounds | core/src/policy_engine.cpp:148 | 19^k o <= 20^k a_k <= 19^k o + 19 (20^k - 19^k) for the k-th cut a_k of o |
| PolicyTheorems.FourteenCuts | core/src/policy_engine.cpp:147-150 | from 1000 on the floor is reached by the fourteenth cut and not by the thirteenth |
| PolicyTheorems.ReachesFloor | core/src/policy_engine.cpp:147-150 | some number of hot ticks reaches half the original if and only if it is 0 or at least 38 |
| PolicyTheorems.StaysAtFloor | core/src/policy_engine.cpp:147-150 | under further heat a cap at the floor stays there |
| PolicyTheorems.MemoryKnobs | core/src/policy_engine.cpp:201-214 | in every run cache pressure is the start plus 20 for each successful write of a tick that reads a pressure from 5 to 20, and the dirty ratio is a closed form of its successful writes |
| PolicyTheorems.EveryRisingTickSteps | core/src/policy_engine.cpp:209-214 | when no write is refused the number of steps is the number of ticks with rising pressure |
| PolicyTheorems.DirtyRatioOfRun | core/src/policy_engine.cpp:209-214 | in every state of every run the dirty ratio is between 1 and the larger of the start and 5, and it is 5 exactly when its successful writes cover the start or have left 5 of it |
| PolicyTheorems.NvmeAfterTick | core/src/policy_engine.cpp:222-241 | in every tick of every run a listed device named `nvme...` is left alone if the tick is idle by its readings, and otherwise gets the scheduler of its requests in flight, and the latency targets 2000000 and 10000000 if they are at most four, each unless its write fails |
| PolicyTheorems.NvmeAtStart | core/src/policy_engine.cpp:45-52 | at start a listed device named `nvme...` is set to `none`, unless that write fails, and one that is not listed keeps its scheduler |
| PolicyTheorems.NvmeScheduler | core/src/policy_engine.cpp:222-241 | so after each tick that is not idle it holds `mq-deadline` above four requests in flight and `none` otherwise |
| PolicyTheorems.OtherSchedulers | core/src/iostorage.cpp:41-56 | in every run a device whose name does not start with `nvme` ends with `mq-deadline` if it was listed at start with a `queue/rotational` of 1 and that one write succeeded, and otherwise exactly as it began |
| PolicyTheorems.SataSsdKeepsNone | README.md:114 | a SATA SSD that offers `mq-deadline` and comes with `none` keeps `none` in every run |
| PolicyTheorems.GovernorDuringRun | core/src/policy_engine.cpp:33-39 | an online core whose governor write succeeds runs under `schedutil` from the start to the restore, and every other core under its own governor |
| PolicyTheorems.EppAfterTick | core/src/policy_engine.cpp:174-199 | a tick that sees n > 0 online cores sets the EPP of each online core to 200 if it is idle by its readings, else to 0 above a load of 0.8 n, to 200 under 0.2 n and to 128 between, unless that write fails; otherwise the EPP stays |
| PolicyTheorems.TargetIsAsked | core/src/policy_engine.cpp:174-190 | if both readings of the load agree, idleness makes no difference to that value |
| PolicyTheorems.DecisionsAreMonotone | core/src/policy_engine.cpp:92-120 | more load, pressure or heat never raises the EPP and never lengthens the sleep |
| PolicyEngine.PolicyEngine.RunTick | core/src/policy_engine.cpp:243-268 | one tick: the new maps and knobs; it sleeps 200 if a zone is above 85000 or the pressure above 20, else 1000 from pressure 5 or above a load of 0.8 n on n online cores, else 3000 above 0.05 n, else 8000, each if and only if; and only a pressure above 20 asks a process of the largest size to terminate |
| PolicyEngine.SleepExactly | core/src/policy_engine.cpp:92-120 | the same over raw readings, and which readings make a tick idle |
| PolicyEngine.PolicyEngine.RunUntilStopped | core/src/policy_engine.cpp:270-276 | the initial state and then ticks until the stop request |
| PolicyEngine.PolicyEngine.EvaluateThermalPolicy | core/src/policy_engine.cpp:122-172 | the loop over the cores computes the thermal policy |
| PolicyEngine.PolicyEngine.EvaluateMemoryPolicy | core/src/policy_engine.cpp:201-220 | the sysctl writes, and under critical pressure a victim of the largest size |
| MemGuard.TopMemoryConsumers | core/src/memguard.cpp:177-185 | as many consumers as asked for, descending, taken from the input, and nothing left out exceeds anything kept |
| Protocol.OneDaemonWithItsBackup | cli/src/main.cpp:118-205 | in every interleaving at most one daemon is live, the pid file names it, the backup file holds its launch snapshot from launch to last restoring write, and its knobs are those of a run from its launch |
| Protocol.FinishingDaemonHasRestored | cli/src/main.cpp:187-205 | in every interleaving a daemon about to remove its pid file, its restoring writes done, leaves the final knobs of a stopped run from its launch; so governed cores, sysctls and every scheduler read back are restored |
| Protocol.EveryHistoryKeepsExactly | README.md:129-130 | on every machine: in all histories of any number of starts, stops, signals and clean-ups, with any readings and failing tuning writes, the knobs are the original ones whenever no daemon is live, if and only if the machine is fully restorable |
| Protocol.MachineIsKept | cli/src/main.cpp:113-269 | in every state of such a history on such a machine each live daemon was launched on the original knobs, and without one the knobs are the original ones |
| Protocol.SignalIsSafe | cli/src/main.cpp:39-43 | a signal kills only a daemon that has written no knob; after the handler is installed it requests a stop; it changes nothing else |
| Protocol.StopReachesDaemon | cli/src/main.cpp:210-232 | in every state `stop` kills a daemon that has just been launched and asks any other live one to stop, and changes nothing else; without a live daemon it changes nothing |
| Protocol.StopRestores | cli/src/main.cpp:210-232 | any history with a live daemon past its launch can be continued by `stop` and that daemon's remaining steps to a state without live daemons and with the knobs of its run restored |
| Protocol.TunesUntilStopped | core/src/policy_engine.cpp:270-276 | a tuning daemon not yet asked to stop stays in its loop through every step, and its ticks are those of the engine |
| Protocol.StartLaunches | cli/src/main.cpp:113-175 | `start` launches a daemon with the knobs it found, its snapshot and its pid stored, if and only if none is live |
| Protocol.CleanRemovesFiles | cli/src/main.cpp:252-278 | `clean` removes both files if no daemon is live and otherwise nothing |
| Protocol.NoTickAfterStop | core/src/policy_engine.cpp:270-276 | from a stop request on, in every interleaving and whatever the snapshot, no tick begins, the daemon only moves towards its end, and it ends dead rather than finished if and only if loading its snapshot throws |
| Protocol.StoppedDaemonEnds | cli/src/main.cpp:187-207 | its own next steps, as many as remain, end it: finished with the pid file removed if its snapshot does not throw, and otherwise dead with the pid file left; no daemon is live then, and the knobs are the final ones of its run |
| Protocol.FinishedExactlyWhenGoverned | cli/src/main.cpp:187-207 | on every machine a stopped daemon that has ended finished its restore if and only if each of its online cores had a governor |
| Protocol.EveryStateIsOk | cli/src/main.cpp:118-269 | every state of every interleaving from a system without daemons satisfies the protocol's invariant |
| Protocol.StepKeepsOk | core/src/daemon_control.cpp:32-66 | every step of a daemon, of `start`, `stop`, `clean` or a signal keeps the protocol's invariant |
| ProcessManager.ParseInvertsStatLine | core/src/process_manager.cpp:49-89 | reading the first line of the file gives the name and the sum of fields 14 and 15, modulo 2^64, for every command name, with spaces and parentheses, if and only if the name has no newline |
| ProcessManager.ShortLineIsParsed | core/src/process_manager.cpp:71-84 | a line that ends before field 14 counts no ticks, and one that ends with it those of that field |
| ProcessManager.InvalidExactly | core/src/process_manager.cpp:60-65 | a line is rejected if and only if no parenthesis opens before one that closes |
| ProcessManager.ClosedAtEndThrows | core/src/process_manager.cpp:68 | a line that ends in its closing parenthesis makes `substr` throw |
| ProcessManager.ReadProcessTimes | core/src/process_manager.cpp:58-88 | the word loop computes the parsed first line of the file, with its invalid and throwing cases |
| ProcessManager.CollectPrograms | core/src/process_manager.cpp:91-149 | every process sampled twice is in exactly one program under its second name, programs are distinct and not empty, all in descending order; and the numbers are those of the next row |
| ProcessManager.GroupedShowsShares | core/src/process_manager.cpp:108-129 | in every listing, percentage times ticks per second times milliseconds is 100000 times the ticks used, for each process, for each program with all processes of its name, and for all programs together |
| ProcessManager.ResortedIsGrouped | core/src/process_manager.cpp:132-142 | taking the groups out of the map and sorting their members keeps members, sums and distinctness |
| Sorting.SumSeqOfContents | core/src/process_manager.cpp:138-146 | a sum depends on the contents only, so sorting keeps it |
| ProcessIds.PairLanguage | cli/src/main.cpp:458-484 | a token is accepted as a pair if and only if it is two numerals that fit with the separator between them |
| ProcessIds.ProgramIdLanguage | cli/src/main.cpp:442-456 | a token is accepted as a program id if and only if it is a numeral that fits |
| ProcessIds.PrintedIdsAreRead | cli/src/main.cpp:442-519 | printed program ids, process ids and ranges are read back as the numbers they show |
| ProcessIds.IdsAreDisjoint | cli/src/main.cpp:531-561 | no token is taken by both id parsers |
| ProcessIds.OtherIdsAreRefused | cli/src/main.cpp:442-561 | an id is reported as invalid if and only if it is neither a string of digits nor two of them around a `p`, and the command aborts if and only if it is one of these with a number of 2^64 or more |
| ProcessIds.IdSelectsEntry | cli/src/main.cpp:531-561 | of the programs `p -k` has collected, `NpM` selects exactly process M of program N, `N` all processes of program N, and ids beyond the listing nothing |
| ProcessIds.PrintListing | cli/src/main.cpp:377-439 | the two passes show, in order, all programs without a range and those from its left to its right end with one, each with its number in brackets, its name and its number of processes |
| ProcessIds.RowSelectsItsProgram | cli/src/main.cpp:377-561 | the id shown in a row kills all processes of the shown program, and no others, if and only if the second collection has a program of that name in the same place |
| ProcessIds.IdIsCertainExactly | core/src/process_manager.cpp:132-146 | for all samples: whichever way a collection sorts ties, the id kills a given program if and only if that many programs have strictly more ticks and no other has as many |
| ProcessIds.ShownIdKillsAnother | cli/src/main.cpp:377-561 | two collections, the second continuing the first, are given for which the id shown for one program kills another |

## Left out

- File, directory and sysfs access: paths, permissions and directory walks are inputs of the model.
- `daemonize`, forks, descriptors and all systemd calls: foreign effects; only the pid file and liveness are modelled.
- The confirmation prompt, the root check, help texts, colours, column widths and percent formatting: user interface.
- Launches that interleave inside their check, capture and pid file write: launching and `clean` are one step each.
- Reuse of process ids, SIGKILL and crashes: a start after a crash captures the tuned state, so restoration is claimed for normal stops.
- Cores and devices that appear after the capture: restoration is claimed for what was captured.
- Devices that change their kind: `queue/rotational` is the same at every listing, though a device may be missing from some.
- Transient read failures: a read of an existing knob yields its value.
- `parse_avg10`, `read_diskstats`, `list_block_devices`, `Sensors` and `Topology`: thin readers whose results are inputs.
- Processes whose stat line makes the parser throw: `CollectPrograms` starts from the valid samples.
- Overflow of the cache pressure after about a hundred million rising ticks, floating point rounding and NaN: integers stay in range and reals are exact.
- The algorithm of `std::sort`: only its order and contents are promised to its callers.
- A failing pid file write of a background start in the protocol: assumed not to happen, as said above; `Lifecycle.RunStart` covers it for one daemon.
