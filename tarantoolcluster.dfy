/**
 * The cluster supervisor (`tarantoolcluster`): every directory has a
 * built-in default relative to the working directory, nothing is created
 * except the instance's own work directory, the pid file is trusted as it
 * is, and `start_instance` never asks whether the instance already runs.
 */
module TarantoolCluster {
  import opened Text
  import opened ConfigTree
  import opened Cascade
  import opened Selection
  import opened Os
  import opened Launching

  /** `config_defaults`: the four directories, relative to the working
      directory. */
  const Defaults: map<string, string> :=
    map["run_dir" := "./run", "work_dir" := "./data", "log_dir" := "./log", "app_dir" := "./app"]

  /** `config_get_value`: the most specific section's value, else the
      built-in default, else nothing. */
  function GetValue(c: Config, name: string, key: string): Option<string> {
    Lookup(Defaults, c, name, key)
  }

  /** The four directories always have a value: the configured one when a
      section on the instance's path defines it, the built-in one
      otherwise. Any other key has a value exactly when a section defines
      it. */
  lemma DirectoriesAlwaysSet(c: Config, name: string, key: string)
    ensures key in Defaults ==> GetValue(c, name, key).Some?
    ensures key in Defaults && !DefinedFor(c, name, key) ==> GetValue(c, name, key) == Some(Defaults[key])
    ensures DefinedFor(c, name, key) ==> GetValue(c, name, key) == FindIn(c, LookupOrder(name), key)
    ensures key !in Defaults ==> (GetValue(c, name, key).Some? <==> DefinedFor(c, name, key))
  {
    LookupFallsBack(Defaults, c, name, key);
  }

  /** The merged section agrees with the lookup on every key it holds, and
      the built-in defaults never reach it: a directory no section sets is
      looked up as its default but is absent from the instance's
      environment. */
  lemma MergeMatchesGetValue(c: Config, name: string)
    ensures forall key :: key in Merged(c, name) ==> GetValue(c, name, key) == Some(Merged(c, name)[key])
    ensures forall key :: key in Defaults && !DefinedFor(c, name, key) ==>
              key !in Merged(c, name) && GetValue(c, name, key) == Some(Defaults[key])
  {
    MergeAgreesWithLookup(Defaults, c, name);
    forall key | key in Defaults && !DefinedFor(c, name, key)
      ensures GetValue(c, name, key) == Some(Defaults[key])
    {
      LookupFallsBack(Defaults, c, name, key);
    }
  }

  /** The value of one of the four directory settings. */
  function Setting(c: Config, name: string, key: string): string
    requires key in Defaults
  {
    LookupFallsBack(Defaults, c, name, key);
    GetValue(c, name, key).value
  }

  /** The directories `start_instance` works with: the work directory, the
      instance's own under it, the run directory, the application's
      directory under `app_dir`, and the log directory. */
  datatype Places = Places(work: string, appWork: string, run: string, app: string, log: string)

  function PlacesOf(c: Config, name: string): Places {
    var work := Setting(c, name, "work_dir");
    Places(work, Join(work, name), Setting(c, name, "run_dir"),
           Join(Setting(c, name, "app_dir"), InstanceSplit(name).0), Setting(c, name, "log_dir"))
  }

  /** `get_pid`: opening a missing or unreadable file, `int()` of its
      stripped contents, and the `os.kill(pid, 0)` probe all raise. */
  function GetPid(v: View, f: string): Outcome<int> {
    if f !in v.paths || f !in v.contents then Raised(CannotOpen(f))
    else
      var text := Strip(v.contents[f]);
      match ParseInt(text)
      case None => Raised(NotAnInteger(text))
      case Some(pid) => if pid in v.alive then Done(pid) else Raised(NoSuchProcess(pid))
  }

  /** `get_pid` never exits; a pid it hands back answers a probe and comes
      from an existing, readable file; a missing file raises. */
  lemma GetPidOutcomes(v: View, f: string)
    ensures !GetPid(v, f).Exit?
    ensures GetPid(v, f).Done? ==> f in v.paths && f in v.contents && GetPid(v, f).value in v.alive
    ensures f !in v.paths ==> GetPid(v, f) == Raised(CannotOpen(f))
  {
    if f in v.paths && f in v.contents {
      var pid := ParseInt(Strip(v.contents[f]));
      if pid.Some? && pid.value in v.alive {
        assert GetPid(v, f) == Done(pid.value);
      } else {
        assert GetPid(v, f).Raised?;
      }
    }
  }

  /** A pid written as a line of decimal digits is read back, and the probe
      decides between handing it back and raising. */
  lemma PidFileRoundTrip(v: View, f: string, pid: nat)
    requires f in v.paths && f in v.contents && v.contents[f] == FormatNat(pid) + "\n"
    ensures GetPid(v, f) == if pid in v.alive then Done(pid) else Raised(NoSuchProcess(pid))
  {
    StripLine(FormatNat(pid));
    FormatNatValue(pid);
  }

  /** `stop_instance`: a missing run directory is fatal; otherwise the pid
      the pid file names gets signal 15, once `get_pid` has read it. */
  function StopPlan(v: View, c: Config, name: string): Outcome<int> {
    var run := Setting(c, name, "run_dir");
    if run !in v.paths then Exit(MissingDir("run", run)) else GetPid(v, PidFile(run, name))
  }

  /** `stop_instance` exits exactly when the run directory is missing; a
      pid it signals is the one the instance's pid file names, and it
      answers a probe. */
  lemma StopPlanDecides(v: View, c: Config, name: string)
    ensures StopPlan(v, c, name).Exit? <==> Setting(c, name, "run_dir") !in v.paths
    ensures StopPlan(v, c, name).Exit? ==>
              StopPlan(v, c, name).fatal == MissingDir("run", Setting(c, name, "run_dir"))
    ensures StopPlan(v, c, name).Done? ==>
              && GetPid(v, PidFile(Setting(c, name, "run_dir"), name)) == Done(StopPlan(v, c, name).value)
              && StopPlan(v, c, name).value in v.alive
  {
    GetPidOutcomes(v, PidFile(Setting(c, name, "run_dir"), name));
  }

  /** No staleness check: whatever process now holds the pid the file
      names is signalled, even one whose name is not Tarantool's or that
      started after the file was written. */
  lemma StopTrustsPidFile(v: View, c: Config, name: string, pid: nat)
    requires Setting(c, name, "run_dir") in v.paths
    requires var f := PidFile(Setting(c, name, "run_dir"), name);
             f in v.paths && f in v.contents && v.contents[f] == FormatNat(pid) + "\n"
    requires pid in v.alive
    ensures StopPlan(v, c, name) == Done(pid)
  {
    PidFileRoundTrip(v, PidFile(Setting(c, name, "run_dir"), name), pid);
  }

  /** `stop_instance` on the host: it changes nothing but the signals
      sent. */
  method StopInstance(h: Host, c: Config, name: string) returns (r: Outcome<int>)
    modifies h`signals
    ensures r == StopPlan(old(h.Snapshot()), c, name)
    ensures h.signals == old(h.signals) + if r.Done? then [Signal(r.value, 15)] else []
  {
    var run := Setting(c, name, "run_dir");
    if run !in h.paths {
      return Exit(MissingDir("run", run));
    }
    var pid := GetPid(h.Snapshot(), PidFile(run, name));
    if !pid.Done? {
      return Propagate(pid);
    }
    h.Kill(pid.value, 15);
    return pid;
  }

  /** The paths that exist once the work directory check has passed: the
      instance's own work directory is created then, before the other
      directories are checked, and stays even when a later check fails. */
  function MadeBy(v: View, p: Places): set<string> {
    if p.work in v.paths then v.paths + {p.appWork} else v.paths
  }

  /** The application, run and log directories are checked in that
      order, the first missing one being fatal. */
  function DirChecks(made: set<string>, p: Places): Outcome<()> {
    if p.app !in made then Exit(MissingDir("app", p.app))
    else if p.run !in made then Exit(MissingDir("run", p.run))
    else if p.log !in made then Exit(MissingDir("log", p.log))
    else Done(())
  }

  /** The child `start_instance` forks for instance `name`: `[tarantool,
      init.lua]` in the instance's work directory, output appended to
      `<log_dir>/<instance>.log`, and the pid file in its environment. */
  function ClusterPlan(p: Places, program: (string, string), name: string): Plan {
    Plan(program.0, [program.0, program.1], p.appWork, Some(Join(p.log, name + ".log")),
         map["TARANTOOL_PID_FILE" := PidFile(p.run, name)])
  }

  /** `start_instance` up to the fork. */
  function StartPlan(v: View, c: Config, name: string): Outcome<Plan> {
    var p := PlacesOf(c, name);
    if p.work !in v.paths then Exit(MissingDir("work", p.work))
    else
      var w := v.(paths := MadeBy(v, p));
      var checks := DirChecks(w.paths, p);
      if !checks.Done? then Propagate(checks)
      else
        var program := ProgramFor(w, p.app, name);
        if !program.Done? then Propagate(program) else Done(ClusterPlan(p, program.value, name))
  }

  /** A missing work directory is fatal before anything is created; after
      it, a missing application, run or log directory is fatal and names a
      directory that does not exist; a launch has every directory in place,
      runs `init.lua` of the application directory in the instance's work
      directory with the binary found there or along `PATH`, and logs to
      the instance's log file. */
  lemma StartPlanDecides(v: View, c: Config, name: string)
    ensures var p := PlacesOf(c, name);
            p.work !in v.paths ==> StartPlan(v, c, name) == Exit(MissingDir("work", p.work)) && MadeBy(v, p) == v.paths
    ensures var p := PlacesOf(c, name);
            p.work in v.paths ==> MadeBy(v, p) == v.paths + {p.appWork}
    ensures var p, r := PlacesOf(c, name), StartPlan(v, c, name);
            r.Exit? && r.fatal.MissingDir? ==>
              r.fatal.path !in MadeBy(v, p) && r.fatal.path in {p.work, p.app, p.run, p.log}
    ensures var p, r := PlacesOf(c, name), StartPlan(v, c, name);
            r.Done? ==>
              && {p.work, p.appWork, p.app, p.run, p.log} <= MadeBy(v, p)
              && ProgramFor(v.(paths := MadeBy(v, p)), p.app, name).Done?
              && r.value == ClusterPlan(p, ProgramFor(v.(paths := MadeBy(v, p)), p.app, name).value, name)
              && r.value.args == [r.value.binary, Join(p.app, "init.lua")]
              && r.value.cwd == p.appWork
              && r.value.output == Some(Join(p.log, name + ".log"))
  {
    var p := PlacesOf(c, name);
    if p.work in v.paths {
      ProgramChoice(v.(paths := MadeBy(v, p)), p.app, name);
    }
  }

  /** No check for a running instance: once a start has launched a child,
      starting the same instance again launches an identical one. */
  lemma StartAgainLaunchesAgain(v: View, c: Config, name: string)
    requires StartPlan(v, c, name).Done?
    ensures var w := v.(paths := MadeBy(v, PlacesOf(c, name)));
            StartPlan(w, c, name) == StartPlan(v, c, name) && MadeBy(w, PlacesOf(c, name)) == w.paths
  {
    var p := PlacesOf(c, name);
    var w := v.(paths := MadeBy(v, p));
    assert p.work in v.paths;
    assert MadeBy(w, p) == w.paths;
    assert w.(paths := MadeBy(w, p)) == w;
  }

  /** The pid file, the processes and the clock play no part in a start:
      only which paths exist, which may be executed, and `PATH` do. */
  lemma StartIgnoresProcesses(v: View, w: View, c: Config, name: string)
    requires w.paths == v.paths && w.executable == v.executable && w.pathVar == v.pathVar
    ensures StartPlan(w, c, name) == StartPlan(v, c, name)
  {
    var p := PlacesOf(c, name);
    var v', w' := v.(paths := MadeBy(v, p)), w.(paths := MadeBy(w, p));
    assert BinaryFor(w', p.app) == BinaryFor(v', p.app) by {
      FirstRunnableAgrees(v', w', if v.pathVar.Some? then SplitOn(v.pathVar.value, ':') else [], "tarantool");
    }
  }

  /** Views that agree on which paths exist and may be executed find the
      same runnable file. */
  lemma {:induction false} FirstRunnableAgrees(v: View, w: View, dirs: seq<string>, name: string)
    requires w.paths == v.paths && w.executable == v.executable
    ensures FirstRunnable(w, dirs, name) == FirstRunnable(v, dirs, name)
  {
    if dirs != [] {
      FirstRunnableAgrees(v, w, dirs[1..], name);
    }
  }

  /** The child's environment holds the pid file `start_instance` computed,
      even over a `pid_file` key of the configuration; with the lower-case
      keys `configparser` produces, every other key carries its value. */
  lemma PidFileVariableWins(env: map<string, string>, merged: map<string, string>, pidFile: string)
    requires EnvFrom(env, merged, map["TARANTOOL_PID_FILE" := pidFile])
    requires forall key :: key in merged ==> NoCapitals(key)
    ensures "TARANTOOL_PID_FILE" in env && env["TARANTOOL_PID_FILE"] == pidFile
    ensures forall key :: key in merged && key != "pid_file" ==> EnvName(key) in env && env[EnvName(key)] == merged[key]
  {
    LowerCaseKeysUnambiguous(merged);
    forall key | key in merged && key != "pid_file"
      ensures EnvName(key) in env && env[EnvName(key)] == merged[key]
    {
      NotPidFileVariable(key);
    }
  }

  /** Only `pid_file` among lower-case keys becomes `TARANTOOL_PID_FILE`. */
  lemma NotPidFileVariable(key: string)
    requires NoCapitals(key) && key != "pid_file"
    ensures EnvName(key) != "TARANTOOL_PID_FILE"
  {
    if EnvName(key) == "TARANTOOL_PID_FILE" {
      assert Upper(key) == "PID_FILE" by {
        assert EnvName(key)[10..] == Upper(key);
      }
      PidFileUpper();
      UpperInjective(key, "pid_file");
    }
  }

  lemma PidFileUpper()
    ensures NoCapitals("pid_file") && Upper("pid_file") == "PID_FILE"
  {
    var s := "pid_file";
    UpperAt(s);
    assert NoCapitals(s);
    assert Upper(s) == "PID_FILE" by {
      assert |Upper(s)| == 8;
      assert Upper(s)[0] == 'P' && Upper(s)[1] == 'I' && Upper(s)[2] == 'D' && Upper(s)[3] == '_';
      assert Upper(s)[4] == 'F' && Upper(s)[5] == 'I' && Upper(s)[6] == 'L' && Upper(s)[7] == 'E';
    }
  }

  /** Upper-casing works character by character. */
  lemma {:induction false} UpperAt(s: string)
    ensures forall k :: 0 <= k < |s| ==> Upper(s)[k] == UpperChar(s[k])
  {
    if s != [] {
      UpperAt(s[1..]);
      assert forall k :: 1 <= k < |s| ==> Upper(s)[k] == Upper(s[1..])[k - 1];
    }
  }

  /** How `start_instance` ends once the fork has been tried. */
  function AfterFork(plan: Outcome<Plan>, forkError: Option<int>): Outcome<Plan> {
    if plan.Done? && forkError.Some? then Exit(ForkFailed(forkError.value)) else plan
  }

  /** The child a plan forks, if it reaches the fork. */
  function Child(plan: Outcome<Plan>): Plan {
    if plan.Done? then plan.value else Plan("", [], "", None, map[])
  }

  /** The checks and the fork that follow the creation of the instance's
      work directory. */
  method CheckAndFork(h: Host, c: Config, name: string, p: Places) returns (r: Outcome<Plan>)
    modifies h`launches
    ensures var plan := if DirChecks(old(h.paths), p).Done? then
                          var program := ProgramFor(old(h.Snapshot()), p.app, name);
                          if program.Done? then Done(ClusterPlan(p, program.value, name)) else Propagate(program)
                        else Propagate(DirChecks(old(h.paths), p));
            && r == AfterFork(plan, old(h.forkError))
            && Recorded(old(h.launches), h.launches, plan.Done? && old(h.forkError).None?, Child(plan), Merged(c, name))
  {
    if p.app !in h.paths {
      return Exit(MissingDir("app", p.app));
    }
    if p.run !in h.paths {
      return Exit(MissingDir("run", p.run));
    }
    if p.log !in h.paths {
      return Exit(MissingDir("log", p.log));
    }
    var program := FindProgram(h, p.app, name);
    if !program.Done? {
      return Propagate(program);
    }
    var plan := ClusterPlan(p, program.value, name);
    var spawned := Spawn(h, c, name, plan);
    if spawned.Exit? {
      return Exit(spawned.fatal);
    }
    return Done(plan);
  }

  /** `start_instance` on the host: it ends as planned unless the fork
      fails, creates the instance's work directory once the work directory
      exists, and records the child it forked. */
  method StartInstance(h: Host, c: Config, name: string) returns (r: Outcome<Plan>)
    modifies h`paths, h`launches
    ensures r == AfterFork(StartPlan(old(h.Snapshot()), c, name), old(h.forkError))
    ensures h.paths == MadeBy(old(h.Snapshot()), PlacesOf(c, name))
    ensures var plan := StartPlan(old(h.Snapshot()), c, name);
            Recorded(old(h.launches), h.launches, plan.Done? && old(h.forkError).None?, Child(plan), Merged(c, name))
  {
    var p := PlacesOf(c, name);
    if p.work !in h.paths {
      return Exit(MissingDir("work", p.work));
    }
    EnsureDir(h, p.appWork);
    r := CheckAndFork(h, c, name, p);
  }

  /** The host as `start_instance` leaves it. */
  function AfterStart(v: View, c: Config, name: string): View {
    v.(paths := MadeBy(v, PlacesOf(c, name)))
  }

  /** One `start_instance` of `name`: from the host `v` and the children
      `log`, it ends as `StartPlan` decides unless the fork fails with
      `forkError`, leaves the host `w` and the children `log'`. */
  predicate StartedOne(c: Config, forkError: Option<int>, name: string, v: View, log: seq<Launch>,
                       r: Outcome<Plan>, w: View, log': seq<Launch>) {
    var plan := StartPlan(v, c, name);
    && r == AfterFork(plan, forkError)
    && w == AfterStart(v, c, name)
    && Recorded(log, log', plan.Done? && forkError.None?, Child(plan), Merged(c, name))
  }

  /** `StartedOne` as the step of `start`'s walk over the instances. */
  function StartStep(c: Config, forkError: Option<int>): (string, View, seq<Launch>, Outcome<Plan>, View, seq<Launch>) -> bool {
    (name, v, log, r, w, log') => StartedOne(c, forkError, name, v, log, r, w, log')
  }

  /** The `i`-th turn of `start`: the instance ends as `StartPlan` decides
      on the host the turns before it left, and it returned normally
      exactly when it forked one child carrying its plan and its merged
      configuration; otherwise no child was recorded. */
  lemma StartTurn(c: Config, forkError: Option<int>, names: seq<string>, results: seq<Outcome<Plan>>,
                  views: seq<View>, logs: seq<seq<Launch>>, i: nat)
    requires InTurn(StartStep(c, forkError), names, results, views, logs) && i < |results|
    ensures results[i] == AfterFork(StartPlan(views[i], c, names[i]), forkError)
    ensures results[i].Done? <==> StartPlan(views[i], c, names[i]).Done? && forkError.None?
    ensures results[i].Done? ==>
              && |logs[i + 1]| == |logs[i]| + 1 && logs[i + 1][..|logs[i]|] == logs[i]
              && Carries(logs[i + 1][|logs[i]|], results[i].value, Merged(c, names[i]))
    ensures !results[i].Done? ==> logs[i + 1] == logs[i]
  {
    InTurnAt(StartStep(c, forkError), names, results, views, logs, i);
    assert StartedOne(c, forkError, names[i], views[i], logs[i], results[i], views[i + 1], logs[i + 1]);
  }

  /** How many of `results` returned normally. */
  function DoneCount<T>(results: seq<Outcome<T>>): nat {
    if results == [] then 0
    else DoneCount(results[..|results| - 1]) + if results[|results| - 1].Done? then 1 else 0
  }

  /** Over the whole walk, `start` forks one child per instance whose start
      returned normally and no other. */
  lemma {:induction false} OneChildPerStart(c: Config, forkError: Option<int>, names: seq<string>,
                                            results: seq<Outcome<Plan>>, views: seq<View>, logs: seq<seq<Launch>>)
    requires InTurn(StartStep(c, forkError), names, results, views, logs)
    ensures |logs[|results|]| == |logs[0]| + DoneCount(results)
  {
    if results != [] {
      var k := |results| - 1;
      OneChildPerStart(c, forkError, names, results[..k], views[..k + 1], logs[..k + 1]);
      StartTurn(c, forkError, names, results, views, logs, k);
    }
  }

  /** `start_instance` on the next instance `start` comes to. */
  method StartNext(h: Host, c: Config, instances: seq<string>, results: seq<Outcome<Plan>>,
                   ghost views: seq<View>, ghost logs: seq<seq<Launch>>)
      returns (one: Outcome<Plan>)
    requires InTurn(StartStep(c, h.forkError), instances, results, views, logs) && |results| < |instances|
    requires h.Snapshot() == views[|results|] && h.launches == logs[|results|]
    modifies h`paths, h`launches
    ensures InTurn(StartStep(c, h.forkError), instances, results + [one], views + [h.Snapshot()], logs + [h.launches])
  {
    ghost var v, log := h.Snapshot(), h.launches;
    one := StartInstance(h, c, instances[|results|]);
    assert StartedOne(c, h.forkError, instances[|results|], v, log, one, h.Snapshot(), h.launches);
    InTurnSnoc(StartStep(c, h.forkError), instances, results, views, logs, one, h.Snapshot(), h.launches);
  }

  /** The walk of `start` over `instances`: start each in turn, ending at
      the first whose start exits or raises. */
  method StartEach(h: Host, c: Config, instances: seq<string>)
      returns (r: Outcome<()>, results: seq<Outcome<Plan>>, ghost views: seq<View>, ghost logs: seq<seq<Launch>>)
    modifies h`paths, h`launches
    ensures |results| <= |instances| && (r.Done? ==> |results| == |instances|)
    ensures Settled(r, results)
    ensures InTurn(StartStep(c, old(h.forkError)), instances, results, views, logs)
    ensures views[0] == old(h.Snapshot()) && logs[0] == old(h.launches)
    ensures h.Snapshot() == views[|results|] && h.launches == logs[|results|]
  {
    results := [];
    views, logs := [h.Snapshot()], [h.launches];
    r := Done(());
    var i := 0;
    while i < |instances| && r.Done?
      invariant i <= |instances| && |results| == i
      invariant Settled(r, results)
      invariant InTurn(StartStep(c, h.forkError), instances, results, views, logs)
      invariant views[0] == old(h.Snapshot()) && logs[0] == old(h.launches)
      invariant h.Snapshot() == views[i] && h.launches == logs[i]
    {
      var one := StartNext(h, c, instances, results, views, logs);
      SettledStep(results, one);
      results, views, logs := results + [one], views + [h.Snapshot()], logs + [h.launches];
      if !one.Done? {
        r := Propagate(one);
      }
      i := i + 1;
    }
  }

  /** `start`: start every instance the filter selects, in the order of
      the sections, the whole command ending at the first instance whose
      start exits or raises. `attempted` are the instances it tried and
      `results` what each attempt returned; `views` and `logs` are the host
      and its children before the first attempt and after each. `start`
      repeats the selection of `get_instances` inline; starting an instance
      never changes the configuration, so walking the list `get_instances`
      returns visits the same instances in the same order. */
  method Start(h: Host, c: Config, filter: string)
      returns (r: Outcome<()>, attempted: seq<string>, results: seq<Outcome<Plan>>,
               ghost views: seq<View>, ghost logs: seq<seq<Launch>>)
    modifies h`paths, h`launches
    ensures attempted <= Selected(c, filter)
    ensures |results| == |attempted|
    ensures r.Done? ==> attempted == Selected(c, filter) && AllDone(results)
    ensures !r.Done? ==> results != [] && AllDone(results[..|results| - 1])
                         && !results[|results| - 1].Done? && r == Propagate(results[|results| - 1])
    ensures InTurn(StartStep(c, old(h.forkError)), attempted, results, views, logs)
    ensures views[0] == old(h.Snapshot()) && logs[0] == old(h.launches)
    ensures h.Snapshot() == views[|results|] && h.launches == logs[|results|]
  {
    var instances := GetInstances(c, filter);
    r, results, views, logs := StartEach(h, c, instances);
    attempted := instances[..|results|];
    InTurnPrefix(StartStep(c, h.forkError), instances, attempted, results, views, logs);
  }


  /** `stop_instance` on the next instance `stop` comes to: the signals
      sent so far, `sent`, grow by the one this stop sends. */
  method StopNext(h: Host, c: Config, ghost v: View, ghost sent: seq<Signal>,
                  instances: seq<string>, results: seq<Outcome<int>>)
      returns (one: Outcome<int>)
    requires |results| < |instances| && h.Snapshot() == v && StoppedEach(v, c, instances, results)
    requires h.signals == sent + SignalsSent(results)
    modifies h`signals
    ensures h.Snapshot() == v && StoppedEach(v, c, instances, results + [one])
    ensures h.signals == sent + SignalsSent(results + [one])
  {
    one := StopInstance(h, c, instances[|results|]);
    StoppedEachSnoc(v, c, instances, results, one);
    SignalsSentSnoc(sent, results, one);
  }

  /** The walk of `stop` over `instances`: stop each in turn, ending at the
      first whose stop exits or raises. */
  method StopEach(h: Host, c: Config, instances: seq<string>) returns (r: Outcome<()>, results: seq<Outcome<int>>)
    modifies h`signals
    ensures |results| <= |instances| && (r.Done? ==> |results| == |instances|)
    ensures Settled(r, results)
    ensures h.signals == old(h.signals) + SignalsSent(results)
    ensures StoppedEach(old(h.Snapshot()), c, instances, results)
  {
    ghost var v := h.Snapshot();
    results := [];
    r := Done(());
    var i := 0;
    while i < |instances| && r.Done?
      invariant i <= |instances| && |results| == i
      invariant Settled(r, results)
      invariant h.signals == old(h.signals) + SignalsSent(results)
      invariant h.Snapshot() == v
      invariant StoppedEach(v, c, instances, results)
    {
      var one := StopNext(h, c, v, old(h.signals), instances, results);
      SettledStep(results, one);
      results := results + [one];
      if !one.Done? {
        r := Propagate(one);
      }
      i := i + 1;
    }
  }

  /** `stop`: stop every instance `get_instances` selects, in order, the
      whole command ending at the first instance whose stop exits or
      raises. Stopping only sends signals, so every instance is judged on
      the host as it was when `stop` began. */
  method Stop(h: Host, c: Config, filter: string)
      returns (r: Outcome<()>, attempted: seq<string>, results: seq<Outcome<int>>)
    modifies h`signals
    ensures attempted <= Selected(c, filter)
    ensures |results| == |attempted|
    ensures r.Done? ==> attempted == Selected(c, filter) && AllDone(results)
    ensures !r.Done? ==> results != [] && AllDone(results[..|results| - 1])
                         && !results[|results| - 1].Done? && r == Propagate(results[|results| - 1])
    ensures h.signals == old(h.signals) + SignalsSent(results)
    ensures StoppedEach(old(h.Snapshot()), c, attempted, results)
  {
    var instances := GetInstances(c, filter);
    r, results := StopEach(h, c, instances);
    attempted := instances[..|results|];
    StoppedEachPrefix(old(h.Snapshot()), c, instances, attempted, results);
  }


  /** The first `|results|` of `names` were each stopped as `StopPlan`
      decides on the host `v`: stopping one instance only sends a signal,
      so every instance is judged on the same view. */
  predicate StoppedEach(v: View, c: Config, names: seq<string>, results: seq<Outcome<int>>) {
    && |results| <= |names|
    && (results != [] ==>
          && StoppedEach(v, c, names, results[..|results| - 1])
          && results[|results| - 1] == StopPlan(v, c, names[|results| - 1]))
  }

  lemma StoppedEachSnoc(v: View, c: Config, names: seq<string>, results: seq<Outcome<int>>, one: Outcome<int>)
    requires StoppedEach(v, c, names, results) && |results| < |names|
    requires one == StopPlan(v, c, names[|results|])
    ensures StoppedEach(v, c, names, results + [one])
  {
    assert (results + [one])[..|results|] == results;
  }

  /** Only the names attempted matter. */
  lemma {:induction false} StoppedEachPrefix(v: View, c: Config, names: seq<string>, attempted: seq<string>,
                                             results: seq<Outcome<int>>)
    requires StoppedEach(v, c, names, results) && attempted <= names && |results| <= |attempted|
    ensures StoppedEach(v, c, attempted, results)
  {
    if results != [] {
      StoppedEachPrefix(v, c, names, attempted, results[..|results| - 1]);
    }
  }

  /** The `i`-th attempt is the stop `StopPlan` decides for the `i`-th
      name. */
  lemma {:induction false} StoppedEachAt(v: View, c: Config, names: seq<string>, results: seq<Outcome<int>>, i: nat)
    requires StoppedEach(v, c, names, results) && i < |results|
    ensures results[i] == StopPlan(v, c, names[i])
  {
    if i < |results| - 1 {
      StoppedEachAt(v, c, names, results[..|results| - 1], i);
    }
  }

  /** Signal 15 to each pid in `results` that a stop handed back, in order. */
  function SignalsSent(results: seq<Outcome<int>>): seq<Signal> {
    if results == [] then []
    else SignalsSent(results[..|results| - 1])
         + if results[|results| - 1].Done? then [Signal(results[|results| - 1].value, 15)] else []
  }

  lemma SignalsSentSnoc(sent: seq<Signal>, results: seq<Outcome<int>>, one: Outcome<int>)
    ensures sent + SignalsSent(results + [one])
            == sent + SignalsSent(results) + if one.Done? then [Signal(one.value, 15)] else []
  {
    assert (results + [one])[..|results|] == results;
  }
}
