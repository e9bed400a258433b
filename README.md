# Tarantool local supervisor, modelled in Dafny

The supervisor reads an ini file whose sections are `default`, `<app>` and
`<app>.<instance>`. It starts and stops Tarantool instances on the local
machine. Each instance's settings come from the cascade
`default < <app> < <app>.<instance>`. An instance runs as a forked child
that executes `tarantool init.lua` with its configuration passed in
`TARANTOOL_*` environment variables. The child's pid is found through a pid
file in the run directory.

There are two variants, and both are modelled:

- `tarantoolup.py` has no built-in settings. Its `get_dirs` creates a work
  directory and run, data and log directories under it when they are not
  configured. Before acting on a pid file it checks that the file is not
  stale: the process it names must be alive, must have started before the
  file was written, and must have "tarantool" in its name. `start_instance`
  does nothing when the instance is already running.
- `tarantoolcluster.py` has built-in defaults for the four directories
  (`./run`, `./data`, `./log`, `./app`). It creates only the instance's work
  directory. It trusts the pid file as it is, and `start_instance` never
  asks whether the instance already runs.

The model consists of these modules:

- `Text` models the pieces of Python's `str` the supervisor relies on:
  `partition`, `split`, `strip`, `upper`, `in` and `int()`.
- `ConfigTree` holds the parsed ini file and `instance_split`.
- `Cascade` holds `config_get_value`, `config_merge` and `config_to_env`,
  shared by both variants. The table of built-in defaults is a parameter.
- `Selection` holds `get_instances`, which is also the instance selection
  `start` repeats inline.
- `Etime` holds the arithmetic of `get_start_time`, which turns the
  `[[dd-]hh:]mm:ss` column of `ps` into seconds.
- `Os` models the operating system as the supervisor sees it, in two forms.
  A `View` is a snapshot: which paths exist and may be executed, the pid
  files' contents and times, the processes that answer `os.kill(pid, 0)`,
  what `ps` lists for each, the clock, the working directory and `PATH`. A
  `Host` class holds the same state. Its methods create directories,
  remove files, send signals and fork children, recording each change.
  `Os` also holds `which`, `os.path.join` and the outcome of a call:
  - `Done` for a normal return;
  - `Exit` for `sys.exit(1)`, with what the message names;
  - `Raised` for an uncaught Python exception.
- `Launching` holds the tail both `start_instance` functions share: finding
  the binary and `init.lua`, building the child's environment, and
  forking.
- `TarantoolUp` and `TarantoolCluster` hold the two variants. In each, a
  function computes what an operation does from a `View` (`StopPlan`,
  `StartPlan`). Lemmas state what that function promises. A method on a
  `Host` performs the operation on one instance step by step, and its
  `ensures` ties the new host state to that function. The commands
  `start` and `stop` act on several instances in turn, and their methods
  hand back the instances attempted and each result. Both variants'
  `start`, and the `stop` of `tarantoolup.py`, also hand back the host and
  the record of children or signals before the first attempt and after
  each one. `Os.InTurn` ties every attempt to the function, through a
  predicate describing one call (`StartedOne`, `StoppedOne`). The `stop`
  of `tarantoolcluster.py` changes nothing but the signals sent. Its
  attempts are stated through `StoppedEach`: each is the stop `StopPlan`
  decides on the host as it was when the command began.

## Model

| member | source | states |
|---|---|---|
| Text.Partition | tarantoolup.py:83-86 | the head holds no separator; when the separator occurs, head, separator and tail rebuild the text; otherwise the tail is empty |
| Text.PartitionFirst | tarantoolup.py:84 | the split happens at the first separator: a separator-free head is recovered exactly |
| Text.SplitOn | tarantoolup.py:76 | `split` yields at least one piece, and no piece holds the separator |
| Text.JoinSplit | tarantoolup.py:76 | joining the pieces of a split with the separator gives back the text |
| Text.SplitJoin | tarantoolup.py:76 | splitting separator-free pieces joined with the separator gives back the pieces |
| Text.Strip | tarantoolup.py:137 | the stripped text starts and ends with non-space characters; a text already like that is unchanged |
| Text.StripLeft | tarantoolup.py:137 | only leading white space is removed, all of it |
| Text.StripRight | tarantoolup.py:137 | only trailing white space is removed, all of it |
| Text.StripLine | tarantoolup.py:137 | a line of digits loses exactly its line break |
| Text.ParseInt | tarantoolup.py:137 | `int()` succeeds exactly on an optional sign followed by digits, and reads digits as their decimal value |
| Text.FormatNatValue | tarantoolup.py:137 | reading back the decimal digits of a number gives the number |
| Text.UpperInjective | tarantoolup.py:122 | on text without capitals, `upper()` loses no information |
| ConfigTree.InstanceSplit | tarantoolup.py:83-86 | the application part holds no `.`; with a `.`, app + "." + instance is the name; without one, the instance part is empty |
| ConfigTree.JoinThenSplit | tarantoolup.py:83-86 | splitting `app.instance` gives back both parts |
| Cascade.FindInFirst | tarantoolup.py:92-97 | the search finds a value exactly when some searched section defines the key, and it returns the first such section's value |
| Cascade.FoundOnPath | tarantoolup.py:89-97 | searching `app.instance`, `app`, `default` finds a value exactly when one of them defines the key |
| Cascade.LookupFallsBack | tarantoolup.py:89-100 | the lookup is empty exactly when neither a section nor the defaults table has the key; a section beats the defaults table |
| Cascade.LayerKeepsLastWriter | tarantoolup.py:110-113 | copying sections in order keeps, for each key, the last writer's value |
| Cascade.MergeAgreesWithLookup | tarantoolup.py:89-115 | a key is merged exactly when a section on the path defines it, with the value the lookup returns, whatever the defaults; other keys are left to the defaults |
| Cascade.ConfigMerge | tarantoolup.py:103-115 | the merged dict holds exactly the keys the instance's sections define, each with the most specific section's value |
| Cascade.LowerCaseKeysUnambiguous | tarantoolup.py:121-122 | keys without capitals never collide once upper-cased |
| Cascade.ConfigToEnv | tarantoolup.py:118-124 | every key has its variable; every variable comes from some key with that key's value; a key no other key collides with sets its own value; no more variables than keys |
| Selection.GetInstances | tarantoolup.py:353-372 | returns the named section alone when the filter names one, else the matching sections in file order |
| Selection.ChosenExactly | tarantoolup.py:361-370 | the scan keeps exactly the matching sections, in file order, each once |
| Selection.ChosenMembers | tarantoolup.py:361-370 | a name is chosen exactly when it is a section that matches the filter |
| Selection.ChosenInOrder | tarantoolup.py:361-370 | the chosen names keep the order of the sections |
| Selection.ChosenOnce | tarantoolup.py:361-370 | sections that appear once are chosen at most once |
| Selection.ChosenPrefix | tarantoolup.py:361-370 | scanning part of the sections yields a prefix of the full result |
| Selection.InstanceFilter | tarantoolup.py:358-370 | a full `app.instance` filter selects that section when it exists and nothing otherwise |
| Selection.ChosenNone | tarantoolup.py:361-370 | sections none of which match yield nothing |
| Selection.ApplicationFilter | tarantoolup.py:361-370 | an application filter selects every instance section of that application, in file order, each once |
| Selection.EveryInstance | tarantoolup.py:361-370 | an empty filter selects every instance section, in file order, each once |
| Etime.ParseAll | tarantoolup.py:66 | the fields are read exactly when every one of them is an integer, and then each keeps its place and its value; one bad field makes the whole reading fail |
| Etime.PaddedLength | tarantoolup.py:67 | zero padding lengthens a list to three fields and leaves a longer list as it is |
| Etime.ClockFails | tarantoolup.py:66-69 | the clock part fails to read exactly when a field is not an integer or there are more than three fields to unpack into hours, minutes and seconds |
| Etime.DayFieldFails | tarantoolup.py:62-64 | a day count before the `-` that is not an integer makes the whole `etime` fail to read |
| Etime.ClockWeights | tarantoolup.py:67-71 | missing leading clock fields count as 0: `ss`, `mm:ss` and `hh:mm:ss` are weighted 1, 60 and 3600 from the right |
| Etime.DayField | tarantoolup.py:62-64 | a `dd-` prefix is read as a day count ahead of the clock part |
| Etime.ElapsedWithDays | tarantoolup.py:59-71 | `dd-hh:mm:ss` is dd·86400 + hh·3600 + mm·60 + ss seconds |
| Etime.DaysThenClock | tarantoolup.py:59-71 | a day count adds 86400 seconds a day to whatever the clock part reads as |
| Etime.ElapsedWithoutDays | tarantoolup.py:59-71 | without a `-`, `hh:mm:ss`, `mm:ss` and `ss` count no days |
| Os.JoinShape | tarantoolup.py:77 | the joined path ends with the second part; it starts with the first part unless the second is absolute, in which case it is the second part |
| Os.JoinInjective | tarantoolup.py:249 | relative names under one directory give different paths |
| Os.DistinctPidFiles | tarantoolup.py:249 | two instances never share a pid file |
| Os.Propagate | tarantoolup.py:375-390 | a failure passes on unchanged: an exit stays an exit with its message, and an exception stays an exception with its error |
| Os.FirstRunnableNone | tarantoolup.py:76-80 | nothing is found exactly when no `PATH` entry holds a runnable file |
| Os.FirstRunnableFound | tarantoolup.py:76-80 | what is found exists and may be executed |
| Os.FirstRunnableAt | tarantoolup.py:76-80 | the first entry holding a runnable file is the one found, whatever later entries hold |
| Os.Host.Which | tarantoolup.py:75-80 | `which` raises when `PATH` is unset and otherwise returns the first runnable entry along `PATH` |
| Os.Host.Mkdir | tarantoolup.py:204 | the path exists afterwards, and nothing else changes |
| Os.Host.Remove | tarantoolup.py:254 | the file is gone afterwards, and nothing else changes |
| Os.Host.Kill | tarantoolup.py:263 | the signal is recorded, and nothing else changes |
| Os.Host.Fork | tarantoolup.py:324-331 | a fork that does not fail records the child; a failing fork reports its errno |
| Os.EnsureDir | tarantoolup.py:203-204 | the directory exists afterwards, and nothing else is created |
| Os.SettledStep | tarantoolup.py:375-395 | after calls that all returned, one more call either keeps the command going or ends it with that call's failure |
| Os.InTurnSnoc | tarantoolup.py:393-395 | one more call on the next name, from where the earlier calls left the host, extends the walk by one turn |
| Os.InTurnPrefix | tarantoolup.py:393-395 | a walk over a list is also a walk over any prefix of the list that covers every name acted on |
| Os.InTurnAt | tarantoolup.py:393-395 | the `i`-th turn of a walk is one call on the `i`-th name, from the host the turns before it left, to the host the next turn starts from |
| Launching.Overlay | tarantoolup.py:312-317 | assigning the supervisor's variables over the configuration's gives an environment where they win and every other variable still comes from the configuration |
| Launching.Spawn | tarantoolup.py:312-330 | a failed fork is fatal with its errno; otherwise the child with the merged configuration in its environment is recorded |
| Launching.BinaryChoice | tarantoolup.py:277-285 | the application's own `tarantool` is used whenever it exists; otherwise the first runnable one on `PATH`; none is found exactly when `PATH` has none; the lookup raises exactly when it needs an unset `PATH` |
| Launching.ProgramChoice | tarantoolup.py:277-294 | the program is the binary found plus the application's `init.lua`; no binary, or no `init.lua`, is fatal and says which |
| Launching.FindProgram | tarantoolup.py:277-294 | the binary and `init.lua` lookups end as the specification function says |
| TarantoolUp.GetValueMostSpecific | tarantoolup.py:89-100 | with no built-in defaults, a key has a value exactly when a section on the path defines it, and the most specific one wins |
| TarantoolUp.MergeMatchesGetValue | tarantoolup.py:89-115 | the merged dict holds a key exactly when `config_get_value` finds it, with the same value |
| TarantoolUp.GetPidOutcomes | tarantoolup.py:131-144 | `get_pid` never exits; a missing file gives no pid; a pid returned is alive; it raises only about an existing file |
| TarantoolUp.PidFileRoundTrip | tarantoolup.py:131-144 | a pid written as a line of digits is read back, when the process is alive |
| TarantoolUp.StartTimeFromEtime | tarantoolup.py:38-72 | the start time is the clock less the elapsed time; a pid `ps` does not list has none; an unreadable `etime` raises |
| TarantoolUp.StaleUnlessVouched | tarantoolup.py:151-172 | the file is not stale exactly when it names a live process that `ps` lists, that started before the file was written, and whose name contains "tarantool"; a missing file is stale |
| TarantoolUp.DeadProcessIsStale | tarantoolup.py:152-155 | a pid file naming a dead process is stale |
| TarantoolUp.ReusedPidIsStale | tarantoolup.py:157-165 | a pid file older than the process now holding its pid is stale |
| TarantoolUp.ForeignProcessIsStale | tarantoolup.py:167-170 | a pid held by a process not named tarantool makes the file stale |
| TarantoolUp.RunningTarantoolIsNotStale | tarantoolup.py:151-172 | the pid file of a running Tarantool, written after it started, is trusted |
| TarantoolUp.VanishedNameRaises | tarantoolup.py:167-169 | a process that `ps` lists with an elapsed time but not with a name makes the check raise |
| TarantoolUp.AppDirPreference | tarantoolup.py:175-188 | a configured `app_dir` wins regardless of the host; else the working directory when it is an application checkout; else `<cwd>/<app>` |
| TarantoolUp.CheckedOutcome | tarantoolup.py:221-242 | the checks fail exactly when one of the run, data, log and application directories is missing, and name a missing one; on success only the data directory changes, to the instance's own |
| TarantoolUp.DirsProvisioned | tarantoolup.py:191-242 | after a normal return every directory handed back exists; configured ones are used as they are and the others lie under the work directory; only the provisioned directories and the instance's data directory are created |
| TarantoolUp.DirsIdempotent | tarantoolup.py:191-242 | calling `get_dirs` again creates nothing new |
| TarantoolUp.DirsStable | tarantoolup.py:191-242 | calling `get_dirs` again hands back the same directories, unless the first call made the working directory look like an application checkout |
| TarantoolUp.DefaultDir | tarantoolup.py:206-219 | an unconfigured directory is `sub` under the work directory and is created |
| TarantoolUp.Provision | tarantoolup.py:197-219 | the work directory is created only when some directory is left to it, and each unconfigured directory is created under it |
| TarantoolUp.GetDirs | tarantoolup.py:191-242 | `get_dirs` ends and leaves the host as the specification functions say |
| TarantoolUp.PidFileStates | tarantoolup.py:252-260 | no pid file, a stale one, or a running process: told apart exactly by the staleness check, and only that check raises |
| TarantoolUp.ClearPidFile | tarantoolup.py:252-257 | only a stale pid file is removed |
| TarantoolUp.StopPlanDecides | tarantoolup.py:246-263 | a failing `get_dirs` ends the stop; a pid file is removed only when it is stale; the signal goes only to the live process a trusted pid file names; nothing happens only without a pid file |
| TarantoolUp.StopByPidFile | tarantoolup.py:252-263 | removes the stale file or sends signal 15 to the named process, and changes nothing else |
| TarantoolUp.StopInstance | tarantoolup.py:246-263 | `stop_instance` ends as planned; the directories `get_dirs` created stay; only a stale pid file is removed; one signal 15 is sent exactly when a process was signalled |
| TarantoolUp.StartFromDecides | tarantoolup.py:277-319 | a pid file that vouches for its process means the instance already runs and nothing is launched; otherwise the child is launched, a stale pid file being removed first |
| TarantoolUp.StartPlanDirsFatal | tarantoolup.py:268 | a failing `get_dirs` ends the start before anything is launched |
| TarantoolUp.StartByPidFile | tarantoolup.py:302-330 | removes a stale pid file, launches nothing for a running instance, and records the child otherwise |
| TarantoolUp.StartWithDirs | tarantoolup.py:272-330 | once `get_dirs` has returned, the start ends, removes and launches as planned |
| TarantoolUp.StartInstance | tarantoolup.py:267-332 | `start_instance` ends as planned unless the fork fails; it keeps the directories `get_dirs` created less a removed stale pid file; it records the child it forked, carrying the merged configuration and its own four variables |
| TarantoolUp.StartNext | tarantoolup.py:378-390 | one more `start_instance` on the next selected instance extends the walk by a turn that ends as `StartPlan` decides, leaves the host as `get_dirs` and the stale-file removal do, and records its child |
| TarantoolUp.StartEach | tarantoolup.py:375-390 | the instances are started in turn from the host as it was, each from where the one before left it, ending at the first that exits or raises and handing that failure on; otherwise every instance is tried |
| TarantoolUp.Start | tarantoolup.py:375-390 | the selected instances are started in order; each attempt ends as `StartPlan` decides on the host the attempts before it left; the command ends at the first start that exits or raises and hands its failure on; if none does, every selected instance was tried; the final host and children are those of the last attempt |
| TarantoolUp.StartTurn | tarantoolup.py:267-332 | in a walk of `start`, each instance ends as planned on the host before it; one found running gets no child; one reported launched gets exactly one new child carrying its plan and merged configuration; a failed one gets none |
| TarantoolUp.OneChildPerLaunch | tarantoolup.py:375-390 | over a whole `start`, exactly one child is forked per instance reported launched |
| TarantoolUp.StopNext | tarantoolup.py:393-395 | one more `stop_instance` on the next selected instance extends the walk by a turn that ends as `StopPlan` decides, leaves the host as `get_dirs` and the stale-file removal do, and adds only the signal it reports; the command goes on exactly when it returned |
| TarantoolUp.StopEach | tarantoolup.py:393-395 | the instances are stopped in turn, each on the host the one before left, ending at the first that exits or raises and handing that failure on; otherwise every instance is tried |
| TarantoolUp.Stop | tarantoolup.py:393-395 | the instances `get_instances` selects are stopped in order; each attempt ends as `StopPlan` decides on the host the attempts before it left; the command ends at the first failure; the signals sent are exactly those the stops report, in order |
| TarantoolUp.StopTurn | tarantoolup.py:246-263 | in a walk of `stop`, each instance ends as planned on the host before it; a signal is sent at that turn exactly when the stop reports one, and only to a live process whose pid file is trusted |
| TarantoolUp.AllSignalsSent | tarantoolup.py:393-395 | over a whole `stop`, the signals sent are the ones the stops report, in order, and no others |
| TarantoolCluster.DirectoriesAlwaysSet | tarantoolcluster.py:10-43 | the four directories always have a value: the configured one, else the built-in one; other keys have a value exactly when a section defines them |
| TarantoolCluster.MergeMatchesGetValue | tarantoolcluster.py:32-58 | the merged dict agrees with `config_get_value`, but the built-in defaults never reach it |
| TarantoolCluster.GetPidOutcomes | tarantoolcluster.py:74-82 | `get_pid` never exits; a pid returned is alive and comes from an existing, readable file; a missing file raises |
| TarantoolCluster.PidFileRoundTrip | tarantoolcluster.py:74-82 | a pid written as a line of digits is read back when its process is alive; otherwise the probe raises |
| TarantoolCluster.StopPlanDecides | tarantoolcluster.py:85-96 | the stop exits exactly when the run directory is missing, naming it; a signalled pid is the one the pid file names, and it is alive |
| TarantoolCluster.StopTrustsPidFile | tarantoolcluster.py:91-96 | whatever live process holds the pid the file names is signalled, with no staleness check |
| TarantoolCluster.StopInstance | tarantoolcluster.py:85-96 | `stop_instance` ends as planned and changes nothing but the signal sent |
| TarantoolCluster.StartPlanDecides | tarantoolcluster.py:100-161 | a missing work directory is fatal before anything is created; later fatal checks name a missing application, run or log directory; a launch has every directory in place and runs the binary found with `init.lua` in the instance's work directory, logging to `<log_dir>/<instance>.log` |
| TarantoolCluster.StartAgainLaunchesAgain | tarantoolcluster.py:100-174 | there is no already-running check: starting again after a launch launches an identical child |
| TarantoolCluster.StartIgnoresProcesses | tarantoolcluster.py:100-161 | pid files, processes and the clock play no part in a start |
| TarantoolCluster.PidFileVariableWins | tarantoolcluster.py:154-159 | the child's `TARANTOOL_PID_FILE` is the computed pid file even over a configured `pid_file`; every other lower-case key carries its value |
| TarantoolCluster.CheckAndFork | tarantoolcluster.py:120-174 | the application, run and log checks in order, then the program lookup and the fork, as the specification function says |
| TarantoolCluster.StartInstance | tarantoolcluster.py:100-177 | `start_instance` ends as planned unless the fork fails; it creates the instance's work directory once the work directory exists, even when a later check fails; it records the child it forked |
| TarantoolCluster.StartTurn | tarantoolcluster.py:100-177 | in a walk of `start`, each instance ends as planned on the host before it; it returned normally exactly when its plan succeeded and the fork did not fail, and then exactly one child carrying its plan and merged configuration was added; otherwise none |
| TarantoolCluster.OneChildPerStart | tarantoolcluster.py:226-241 | over a whole `start`, exactly one child is forked per instance whose start returned |
| TarantoolCluster.StartNext | tarantoolcluster.py:229-241 | one more `start_instance` on the next selected instance extends the walk by a turn that ends as `StartPlan` decides, creates the directories it plans, and records its child |
| TarantoolCluster.StartEach | tarantoolcluster.py:226-241 | the instances are started in turn, each from where the one before left the host, ending at the first that exits or raises and handing that failure on; otherwise every instance is tried |
| TarantoolCluster.Start | tarantoolcluster.py:226-241 | the selected instances are started in order; each attempt ends as `StartPlan` decides on the host the attempts before it left; the command ends at the first failure and hands it on; if none fails, every selected instance was tried; the final host and children are those of the last attempt |
| TarantoolCluster.StopNext | tarantoolcluster.py:244-246 | one more `stop_instance` ends as `StopPlan` decides on the unchanged host and adds only the signal to the pid it returns |
| TarantoolCluster.StopEach | tarantoolcluster.py:244-246 | the instances are stopped in turn, each as `StopPlan` decides on the host as it was, ending at the first failure; the signals sent are the pids the stops return, in order |
| TarantoolCluster.Stop | tarantoolcluster.py:244-246 | the instances `get_instances` selects are stopped in order, each as `StopPlan` decides on the host as it was (stopping only signals); the command ends at the first failure; nothing changes but the signals, which are exactly the pids the stops report, in order |
| TarantoolCluster.StoppedEachSnoc | tarantoolcluster.py:244-246 | one more stop, as planned on the same host, extends the walk |
| TarantoolCluster.StoppedEachPrefix | tarantoolcluster.py:244-246 | a walk over a list is a walk over the prefix of it that was attempted |
| TarantoolCluster.StoppedEachAt | tarantoolcluster.py:244-246 | the `i`-th stop of a walk is the one `StopPlan` decides for the `i`-th name |

## Left out

- `ps` is not modelled: the model does not spawn it or parse its output with the regular expression. A `View` holds, per pid, the `etime` and `comm` columns `ps` would list. `get_process_name` is therefore a lookup in that map.
- Python's `int()` is modelled on an optional sign and ASCII digits only. Underscores between digits and non-ASCII digits are not modelled. `strip()` and `upper()` are modelled on ASCII only.
- `os.path.realpath` is taken as the identity, and paths are compared as strings. Relative paths such as the cluster variant's `./run` are kept as given, so two spellings of one directory are different paths.
- Floating-point times are not modelled. The clock is kept in whole seconds rounded down, and modification times in whole seconds rounded up. These are the two values `is_pidfile_stale` compares after `math.floor` and `math.ceil`.
- `os.mkdir`, `os.remove` and `os.kill(pid, 15)` always succeed in the model. The everyday case this hides: in `tarantoolup.py`'s `get_dirs` (lines 203-219), a configured `work_dir` whose parent directory does not exist makes `os.mkdir` raise `FileNotFoundError`. The model creates such a directory as if its parent existed. Failures from permissions or races are not modelled either.
- The forked child is not modelled: `setsid`, the `dup2` redirections, `chdir` and `execve`. It is recorded only as the binary, arguments, environment, directory and output file it would run with.
- Concurrency with other supervisors or with the instances themselves is not modelled.
- Cascade.ConfigToEnv: when two configuration keys upper-case to the same variable, the value kept depends on dict order, and the model states only that it is one of the colliding keys' values. Keys produced by `configparser` are lower-case and never collide (Cascade.LowerCaseKeysUnambiguous).
- TarantoolUp.Start, TarantoolCluster.Start: both walk the list `get_instances` returns instead of repeating the scan inline. They are the same selection over a configuration that starting never changes (Selection.ChosenExactly states what that scan keeps).
- Reading the ini file (`read_config`), argument parsing (`main`), `attach`, `start_single_instance` and `find_config_file` are not part of this model, and neither is `setup.py`. The parsed file is the `Config` value. `configparser` lower-cases keys; the model assumes this only where a lemma says so (`NoCapitals`).
- The messages printed before `sys.exit(1)` are not modelled. They are kept only as the `Fatal` value naming what was missing.
