/**
 * The stand-alone supervisor (`tarantoolup`): it resolves an instance's
 * directories, creating missing ones under a work directory, and
 * recognises a pid file left behind by a crashed instance before it stops
 * or starts anything.
 */
module TarantoolUp {
  import opened Text
  import opened ConfigTree
  import opened Cascade
  import opened Selection
  import opened Etime
  import opened Os
  import opened Launching

  /** `config_defaults`: this variant has no built-in values. */
  const Defaults: map<string, string> := map[]

  /** `config_get_value`: the value the most specific section on the
      instance's path gives `key`, and nothing when no section does. */
  function GetValue(c: Config, name: string, key: string): Option<string> {
    Lookup(Defaults, c, name, key)
  }

  /** Without built-in values a key no section on the instance's path
      defines has no value; otherwise the most specific section's value
      wins. */
  lemma GetValueMostSpecific(c: Config, name: string, key: string)
    ensures GetValue(c, name, key).None? <==> !DefinedFor(c, name, key)
    ensures GetValue(c, name, key).Some? ==> FindIn(c, LookupOrder(name), key) == GetValue(c, name, key)
  {
    LookupFallsBack(Defaults, c, name, key);
  }

  /** The merged section and the single-key lookup agree: a key is merged
      exactly when the lookup finds it, with the value it finds. */
  lemma MergeMatchesGetValue(c: Config, name: string)
    ensures forall key :: key in Merged(c, name) <==> GetValue(c, name, key).Some?
    ensures forall key :: key in Merged(c, name) ==> GetValue(c, name, key) == Some(Merged(c, name)[key])
  {
    MergeAgreesWithLookup(Defaults, c, name);
  }

  /** `get_pid`: nothing when the file is missing or its pid does not answer
      a probe; `int()` of the stripped contents may raise. */
  function GetPid(v: View, f: string): Outcome<Option<int>> {
    if f !in v.paths then Done(None)
    else if f !in v.contents then Raised(CannotOpen(f))
    else
      var text := Strip(v.contents[f]);
      match ParseInt(text)
      case None => Raised(NotAnInteger(text))
      case Some(pid) => if pid in v.alive then Done(Some(pid)) else Done(None)
  }

  /** `get_pid` never exits; a pid it hands back names a live process and
      comes from an existing file; it raises only when the file exists. */
  lemma GetPidOutcomes(v: View, f: string)
    ensures !GetPid(v, f).Exit?
    ensures GetPid(v, f).Done? && GetPid(v, f).value.Some? ==> f in v.paths && GetPid(v, f).value.value in v.alive
    ensures GetPid(v, f).Raised? ==> f in v.paths
    ensures f !in v.paths ==> GetPid(v, f) == Done(None)
  {
  }

  /** A pid written as a line of decimal digits is read back. */
  lemma PidFileRoundTrip(v: View, f: string, pid: nat)
    requires f in v.paths && f in v.contents && v.contents[f] == FormatNat(pid) + "\n"
    ensures GetPid(v, f) == Done(if pid in v.alive then Some(pid) else None)
  {
    StripLine(FormatNat(pid));
    FormatNatValue(pid);
  }

  /** `math.floor(get_start_time(pid))`: the clock less the elapsed time `ps`
      lists for `pid`, nothing when `ps` does not list it. */
  function StartTime(v: View, pid: int): Outcome<Option<int>> {
    if pid !in v.etimes then Done(None)
    else
      match ElapsedSeconds(v.etimes[pid])
      case None => Raised(BadEtime(v.etimes[pid]))
      case Some(since) => Done(Some(v.now - since))
  }

  /** The start time is the clock less the elapsed time; a pid `ps` does
      not list has none, and an unreadable elapsed time raises. */
  lemma StartTimeFromEtime(v: View, pid: int)
    ensures !StartTime(v, pid).Exit?
    ensures StartTime(v, pid) == Done(None) <==> pid !in v.etimes
    ensures StartTime(v, pid).Done? && StartTime(v, pid).value.Some? ==>
              pid in v.etimes && ElapsedSeconds(v.etimes[pid]) == Some(v.now - StartTime(v, pid).value.value)
    ensures StartTime(v, pid).Raised? <==> pid in v.etimes && ElapsedSeconds(v.etimes[pid]).None?
  {
  }

  /** The pid file is trustworthy: it names a live process that `ps` lists,
      that was already running when the file was last written, and whose
      command name contains "tarantool". */
  predicate Vouches(v: View, f: string) {
    var pid := GetPid(v, f);
    && pid.Done? && pid.value.Some?
    && var start := StartTime(v, pid.value.value);
       && start.Done? && start.value.Some?
       && f in v.mtimes && v.mtimes[f] >= start.value.value
       && pid.value.value in v.comms && Contains(v.comms[pid.value.value], "tarantool")
  }

  /** `is_pidfile_stale`: the pid file is stale unless it vouches for its
      process. Reading the pid or the elapsed time may raise, `getmtime`
      may fail, and a process that `ps` no longer names makes the name test
      raise. */
  function IsPidfileStale(v: View, f: string): Outcome<bool> {
    var pid := GetPid(v, f);
    if pid.Raised? then Raised(pid.error)
    else if pid.value.None? then Done(true)
    else
      var start := StartTime(v, pid.value.value);
      if start.Raised? then Raised(start.error)
      else if start.value.None? then Done(true)
      else if f !in v.mtimes then Raised(CannotStat(f))
      else if v.mtimes[f] < start.value.value then Done(true)
      else if pid.value.value !in v.comms then Raised(NameIsNone)
      else Done(!Contains(v.comms[pid.value.value], "tarantool"))
  }

  /** The pid file is trusted exactly when it vouches for its process; a
      missing one is stale, and the check raises only about a file that
      exists. */
  lemma StaleUnlessVouched(v: View, f: string)
    ensures !IsPidfileStale(v, f).Exit?
    ensures IsPidfileStale(v, f) == Done(false) <==> Vouches(v, f)
    ensures IsPidfileStale(v, f).Raised? ==> f in v.paths
    ensures f !in v.paths ==> IsPidfileStale(v, f) == Done(true)
  {
    GetPidOutcomes(v, f);
    var pid := GetPid(v, f);
    if pid.Done? && pid.value.Some? {
      var start := StartTime(v, pid.value.value);
      assert IsPidfileStale(v, f) == Done(false) <==>
               && start.Done? && start.value.Some?
               && f in v.mtimes && v.mtimes[f] >= start.value.value
               && pid.value.value in v.comms && Contains(v.comms[pid.value.value], "tarantool");
    }
  }

  /** A pid file naming a process that is gone is stale. */
  lemma DeadProcessIsStale(v: View, f: string, pid: nat)
    requires f in v.paths && f in v.contents && v.contents[f] == FormatNat(pid) + "\n"
    requires pid !in v.alive
    ensures IsPidfileStale(v, f) == Done(true)
  {
    PidFileRoundTrip(v, f, pid);
  }

  /** A pid file older than the process now holding its pid was left by an
      earlier process: the pid has been reused, and the file is stale. */
  lemma ReusedPidIsStale(v: View, f: string, pid: nat, since: int)
    requires f in v.paths && f in v.contents && v.contents[f] == FormatNat(pid) + "\n"
    requires pid in v.alive && pid in v.etimes && ElapsedSeconds(v.etimes[pid]) == Some(since)
    requires f in v.mtimes && v.mtimes[f] < v.now - since
    ensures IsPidfileStale(v, f) == Done(true)
  {
    PidFileRoundTrip(v, f, pid);
  }

  /** A pid now held by some other program makes the file stale. */
  lemma ForeignProcessIsStale(v: View, f: string, pid: nat, since: int)
    requires f in v.paths && f in v.contents && v.contents[f] == FormatNat(pid) + "\n"
    requires pid in v.alive && pid in v.etimes && ElapsedSeconds(v.etimes[pid]) == Some(since)
    requires f in v.mtimes && v.mtimes[f] >= v.now - since
    requires pid in v.comms && !Contains(v.comms[pid], "tarantool")
    ensures IsPidfileStale(v, f) == Done(true)
  {
    PidFileRoundTrip(v, f, pid);
  }

  /** The pid file a running Tarantool wrote after it started is trusted. */
  lemma RunningTarantoolIsNotStale(v: View, f: string, pid: nat, since: int)
    requires f in v.paths && f in v.contents && v.contents[f] == FormatNat(pid) + "\n"
    requires pid in v.alive && pid in v.etimes && ElapsedSeconds(v.etimes[pid]) == Some(since)
    requires f in v.mtimes && v.mtimes[f] >= v.now - since
    requires pid in v.comms && Contains(v.comms[pid], "tarantool")
    ensures IsPidfileStale(v, f) == Done(false)
  {
    PidFileRoundTrip(v, f, pid);
  }

  /** A process that `ps` lists with an elapsed time but no longer with a
      name makes the check raise instead of answering. */
  lemma VanishedNameRaises(v: View, f: string, pid: nat, since: int)
    requires f in v.paths && f in v.contents && v.contents[f] == FormatNat(pid) + "\n"
    requires pid in v.alive && pid in v.etimes && ElapsedSeconds(v.etimes[pid]) == Some(since)
    requires f in v.mtimes && v.mtimes[f] >= v.now - since
    requires pid !in v.comms
    ensures IsPidfileStale(v, f) == Raised(NameIsNone)
  {
    PidFileRoundTrip(v, f, pid);
  }

  /** The directory settings `get_dirs` and `find_app_dir` read for one
      instance. */
  datatype Settings = Settings(app: Option<string>, work: Option<string>, run: Option<string>,
                               data: Option<string>, log: Option<string>)

  function SettingsOf(c: Config, name: string): Settings {
    Settings(GetValue(c, name, "app_dir"), GetValue(c, name, "work_dir"), GetValue(c, name, "run_dir"),
             GetValue(c, name, "data_dir"), GetValue(c, name, "log_dir"))
  }

  /** `find_app_dir`: the configured `app_dir` with the application's name
      appended; otherwise the working directory when it holds both
      `init.lua` and `<app>-scm-1.rockspec`; otherwise `<cwd>/<app>`. */
  function AppDir(v: View, s: Settings, name: string): string {
    var app := InstanceSplit(name).0;
    match s.app
    case Some(dir) => Join(dir, app)
    case None =>
      if Join(v.cwd, "init.lua") in v.paths && Join(v.cwd, app + "-scm-1.rockspec") in v.paths then v.cwd
      else Join(v.cwd, app)
  }

  /** The application directory is looked for in order of preference: a
      configured one regardless of what exists, then the working directory
      if it is an application checkout, then a directory named after the
      application under it. */
  lemma AppDirPreference(v: View, w: View, s: Settings, name: string)
    requires w.cwd == v.cwd
    ensures s.app.Some? ==>
              AppDir(v, s, name) == AppDir(w, s, name) == Join(s.app.value, InstanceSplit(name).0)
    ensures s.app.None? && !Absolute(InstanceSplit(name).0) ==>
              |v.cwd| <= |AppDir(v, s, name)| && AppDir(v, s, name)[..|v.cwd|] == v.cwd
    ensures s.app.None? ==>
              (AppDir(v, s, name) == v.cwd <==>
                 (Join(v.cwd, "init.lua") in v.paths && Join(v.cwd, InstanceSplit(name).0 + "-scm-1.rockspec") in v.paths)
                 || Join(v.cwd, InstanceSplit(name).0) == v.cwd)
    ensures s.app.None? &&
            !(Join(v.cwd, "init.lua") in v.paths && Join(v.cwd, InstanceSplit(name).0 + "-scm-1.rockspec") in v.paths) ==>
              AppDir(v, s, name) == Join(v.cwd, InstanceSplit(name).0)
  {
  }

  /** The directories `get_dirs` hands back: the application, log and run
      directories and the instance's own data directory. */
  datatype Dirs = Dirs(app: string, log: string, run: string, data: string)

  /** The work directory: `work_dir`, or `tarantooldata` under the working
      directory. */
  function WorkDir(cwd: string, s: Settings): string {
    if s.work.Some? then s.work.value else Join(cwd, "tarantooldata")
  }

  /** A run, data or log directory: as configured, else `sub` under the
      work directory. */
  function DirFor(cwd: string, s: Settings, configured: Option<string>, sub: string): string {
    if configured.Some? then configured.value else Join(WorkDir(cwd, s), sub)
  }

  /** Some of the run, data and log directories is left to the work
      directory. */
  predicate NeedsWorkDir(s: Settings) {
    s.run.None? || s.data.None? || s.log.None?
  }

  /** `sub` under the work directory when the setting is absent. */
  function Defaulted(work: string, configured: Option<string>, sub: string): set<string> {
    if configured.None? then {Join(work, sub)} else {}
  }

  /** What `get_dirs` creates before it checks anything: the work directory
      when it is needed, and each of the run, data and log directories that
      is not configured. */
  function Provisioned(cwd: string, s: Settings): set<string> {
    var work := WorkDir(cwd, s);
    (if NeedsWorkDir(s) then {work} else {})
    + Defaulted(work, s.run, "run") + Defaulted(work, s.data, "data") + Defaulted(work, s.log, "log")
  }

  /** The application, log, run and data directories `get_dirs` settles
      on before it checks them; the application directory is found before
      anything is created. */
  function Resolved(v: View, s: Settings, name: string): Dirs {
    Dirs(AppDir(v, s, name), DirFor(v.cwd, s, s.log, "log"), DirFor(v.cwd, s, s.run, "run"), DirFor(v.cwd, s, s.data, "data"))
  }

  /** The checks of `get_dirs` once `made` exists: the first of the run,
      data, log and application directories that is missing is fatal;
      otherwise the four are handed back, the data directory replaced by the
      instance's own under it. */
  function Checked(made: set<string>, d: Dirs, name: string): Outcome<Dirs> {
    if d.run !in made then Exit(MissingDir("run", d.run))
    else if d.data !in made then Exit(MissingDir("data", d.data))
    else if d.log !in made then Exit(MissingDir("log", d.log))
    else if d.app !in made then Exit(MissingDir("app", d.app))
    else Done(d.(data := Join(d.data, name)))
  }

  /** The checks fail exactly when one of the four directories is missing,
      naming a missing one; they never raise; on success only the data
      directory changes, to the instance's own under it. */
  lemma CheckedOutcome(made: set<string>, d: Dirs, name: string)
    ensures !Checked(made, d, name).Raised?
    ensures Checked(made, d, name).Exit? <==> !({d.run, d.data, d.log, d.app} <= made)
    ensures Checked(made, d, name).Exit? ==>
              Checked(made, d, name).fatal.MissingDir? && Checked(made, d, name).fatal.path !in made
              && Checked(made, d, name).fatal.path in {d.run, d.data, d.log, d.app}
    ensures Checked(made, d, name).Done? ==>
              Checked(made, d, name).value == d.(data := Join(d.data, name))
  {
  }

  /** How `get_dirs` ends. */
  function DirsOutcome(v: View, s: Settings, name: string): Outcome<Dirs> {
    Checked(v.paths + Provisioned(v.cwd, s), Resolved(v, s, name), name)
  }

  /** The paths that exist once `get_dirs` returns or exits: the instance's
      data directory is created only after every check has passed. */
  function DirsAfter(v: View, s: Settings, name: string): set<string> {
    var made := v.paths + Provisioned(v.cwd, s);
    if DirsOutcome(v, s, name).Done? then made + {Join(Resolved(v, s, name).data, name)} else made
  }

  /** After a normal return every directory handed back exists; configured
      directories are used as they are, the others lie under the work
      directory; nothing that existed is gone, and nothing beyond the
      provisioned directories and the instance's data directory is created. */
  lemma DirsProvisioned(v: View, s: Settings, name: string)
    requires DirsOutcome(v, s, name).Done?
    ensures var d := DirsOutcome(v, s, name).value;
            && {d.app, d.log, d.run, d.data} <= DirsAfter(v, s, name)
            && DirsAfter(v, s, name) == v.paths + Provisioned(v.cwd, s) + {d.data}
            && d.run == (if s.run.Some? then s.run.value else Join(WorkDir(v.cwd, s), "run"))
            && d.log == (if s.log.Some? then s.log.value else Join(WorkDir(v.cwd, s), "log"))
            && d.data == Join(if s.data.Some? then s.data.value else Join(WorkDir(v.cwd, s), "data"), name)
            && d.app == AppDir(v, s, name)
  {
  }

  /** Calling `get_dirs` again after a normal return creates nothing new. */
  lemma DirsIdempotent(v: View, s: Settings, name: string)
    requires DirsOutcome(v, s, name).Done?
    ensures var w := v.(paths := DirsAfter(v, s, name));
            DirsAfter(w, s, name) == w.paths
  {
    var w := v.(paths := DirsAfter(v, s, name));
    var made := v.paths + Provisioned(v.cwd, s);
    var own := Join(Resolved(v, s, name).data, name);
    assert w.paths == made + {own};
    assert Resolved(w, s, name).data == Resolved(v, s, name).data;
    assert w.paths + Provisioned(w.cwd, s) == w.paths;
  }

  /** ... and it hands back the same directories, unless the first call
      created the markers of an application checkout in the working
      directory. */
  lemma DirsStable(v: View, s: Settings, name: string)
    requires DirsOutcome(v, s, name).Done?
    ensures var w := v.(paths := DirsAfter(v, s, name));
            AppDir(w, s, name) == AppDir(v, s, name) ==> DirsOutcome(w, s, name) == DirsOutcome(v, s, name)
  {
    var w := v.(paths := DirsAfter(v, s, name));
    var made := v.paths + Provisioned(v.cwd, s);
    assert made <= w.paths + Provisioned(w.cwd, s);
    if AppDir(w, s, name) == AppDir(v, s, name) {
      assert Resolved(w, s, name) == Resolved(v, s, name);
    }
  }

  /** One of the run, data and log directories: the configured one, or
      `sub` under the work directory, created when missing. */
  method DefaultDir(h: Host, work: string, configured: Option<string>, sub: string) returns (dir: string)
    modifies h`paths
    ensures dir == if configured.Some? then configured.value else Join(work, sub)
    ensures h.paths == old(h.paths) + Defaulted(work, configured, sub)
  {
    if configured.None? {
      dir := Join(work, sub);
      EnsureDir(h, dir);
    } else {
      dir := configured.value;
    }
  }

  /** The part of `get_dirs` that creates the work directory and the
      defaulted run, data and log directories, handing back the three. */
  method Provision(h: Host, s: Settings) returns (run: string, data: string, log: string)
    modifies h`paths
    ensures h.paths == old(h.paths) + Provisioned(old(h.cwd), s)
    ensures run == DirFor(old(h.cwd), s, s.run, "run")
    ensures data == DirFor(old(h.cwd), s, s.data, "data")
    ensures log == DirFor(old(h.cwd), s, s.log, "log")
  {
    var work := "";
    if s.run.None? || s.log.None? || s.data.None? {
      work := if s.work.Some? then s.work.value else Join(h.cwd, "tarantooldata");
      EnsureDir(h, work);
    }
    run := DefaultDir(h, work, s.run, "run");
    data := DefaultDir(h, work, s.data, "data");
    log := DefaultDir(h, work, s.log, "log");
  }

  /** The host as `get_dirs` leaves it. */
  function AfterDirs(v: View, c: Config, name: string): View {
    v.(paths := DirsAfter(v, SettingsOf(c, name), name))
  }

  /** `get_dirs`: read the configured directories, find the application
      directory, create the work directory and the defaulted ones that are
      missing, check the four in turn, and create the instance's data
      directory. */
  method GetDirs(h: Host, c: Config, name: string) returns (r: Outcome<Dirs>)
    modifies h`paths
    ensures r == DirsOutcome(old(h.Snapshot()), SettingsOf(c, name), name)
    ensures h.paths == DirsAfter(old(h.Snapshot()), SettingsOf(c, name), name)
    ensures h.Snapshot() == AfterDirs(old(h.Snapshot()), c, name)
  {
    var s := SettingsOf(c, name);
    var app := AppDir(h.Snapshot(), s, name);
    var run, data, log := Provision(h, s);
    if run !in h.paths {
      return Exit(MissingDir("run", run));
    }
    if data !in h.paths {
      return Exit(MissingDir("data", data));
    }
    if log !in h.paths {
      return Exit(MissingDir("log", log));
    }
    if app !in h.paths {
      return Exit(MissingDir("app", app));
    }
    var appData := Join(data, name);
    EnsureDir(h, appData);
    return Done(Dirs(app, log, run, appData));
  }

  /** What the pid file says once `os.path.exists(pid_file) and
      is_pidfile_stale(pid_file)` and then `get_pid` have been asked. */
  datatype PidState = NoPidFile | StalePidFile | Running(pid: int)

  function PidFileState(v: View, f: string): Outcome<PidState> {
    if f !in v.paths then Done(NoPidFile)
    else
      var stale := IsPidfileStale(v, f);
      if stale.Raised? then Raised(stale.error)
      else if stale == Done(true) then Done(StalePidFile)
      else
        var pid := GetPid(v, f);
        if pid.Done? && pid.value.Some? then Done(Running(pid.value.value)) else Done(NoPidFile)
  }

  /** No pid file, a stale one, or one that vouches for its live process:
      the three cases are told apart exactly by the staleness check, and
      only that check can raise. */
  lemma PidFileStates(v: View, f: string)
    ensures !PidFileState(v, f).Exit?
    ensures PidFileState(v, f) == Done(NoPidFile) <==> f !in v.paths
    ensures PidFileState(v, f) == Done(StalePidFile) <==> f in v.paths && IsPidfileStale(v, f) == Done(true)
    ensures PidFileState(v, f).Done? && PidFileState(v, f).value.Running? <==> Vouches(v, f)
    ensures PidFileState(v, f).Done? && PidFileState(v, f).value.Running? ==>
              GetPid(v, f) == Done(Some(PidFileState(v, f).value.pid)) && PidFileState(v, f).value.pid in v.alive
    ensures PidFileState(v, f).Raised? ==> IsPidfileStale(v, f) == Raised(PidFileState(v, f).error)
  {
    StaleUnlessVouched(v, f);
    GetPidOutcomes(v, f);
  }

  /** What `stop_instance` did. */
  datatype StopAction = NothingToStop | RemovedStale(file: string) | Signalled(pid: int)

  /** What `stop_instance` does about the pid file `pf` in the state
      `state`. */
  function StopDecision(state: Outcome<PidState>, pf: string): Outcome<StopAction>
    requires !state.Exit?
  {
    if state.Raised? then Raised(state.error)
    else match state.value
      case NoPidFile => Done(NothingToStop)
      case StalePidFile => Done(RemovedStale(pf))
      case Running(pid) => Done(Signalled(pid))
  }

  /** `if os.path.exists(pid_file) and is_pidfile_stale(pid_file):
      os.remove(pid_file)`, then `get_pid(pid_file)`, as both
      `stop_instance` and `start_instance` do it. */
  method ClearPidFile(h: Host, pf: string) returns (r: Outcome<PidState>)
    modifies h`paths, h`contents
    ensures r == PidFileState(old(h.Snapshot()), pf)
    ensures h.paths == old(h.paths) - if r == Done(StalePidFile) then {pf} else {}
    ensures h.contents == old(h.contents) - if r == Done(StalePidFile) then {pf} else {}
  {
    if pf in h.paths {
      var stale := IsPidfileStale(h.Snapshot(), pf);
      if stale.Raised? {
        return Raised(stale.error);
      }
      if stale == Done(true) {
        h.Remove(pf);
        return Done(StalePidFile);
      }
    }
    var pid := GetPid(h.Snapshot(), pf);
    if pid.Done? && pid.value.Some? {
      return Done(Running(pid.value.value));
    }
    return Done(NoPidFile);
  }

  /** `stop_instance`: after `get_dirs`, a stale pid file is removed and no
      signal is sent; otherwise the process the pid file vouches for gets
      signal 15, and without a pid file nothing happens. */
  function StopPlan(v: View, c: Config, name: string): Outcome<StopAction> {
    var dirs := DirsOutcome(v, SettingsOf(c, name), name);
    if !dirs.Done? then Propagate(dirs)
    else
      var pf := PidFile(dirs.value.run, name);
      StopDecision(PidFileState(AfterDirs(v, c, name), pf), pf)
  }

  /** A failing `get_dirs` ends `stop_instance`; after it, the pid file is
      removed only when it exists and is stale, the signal goes only to the
      live process a trusted pid file names, and nothing happens only when
      there is no pid file. */
  lemma StopPlanDecides(v: View, c: Config, name: string)
    ensures DirsOutcome(v, SettingsOf(c, name), name).Exit? ==> StopPlan(v, c, name).Exit?
    ensures StopPlan(v, c, name).Done? ==> DirsOutcome(v, SettingsOf(c, name), name).Done?
    ensures var r := StopPlan(v, c, name);
            r.Done? && r.value.RemovedStale? ==>
              var pf := PidFile(DirsOutcome(v, SettingsOf(c, name), name).value.run, name);
              r.value.file == pf && pf in AfterDirs(v, c, name).paths
              && IsPidfileStale(AfterDirs(v, c, name), pf) == Done(true)
    ensures var r := StopPlan(v, c, name);
            r.Done? && r.value.Signalled? ==>
              var pf := PidFile(DirsOutcome(v, SettingsOf(c, name), name).value.run, name);
              Vouches(AfterDirs(v, c, name), pf) && GetPid(AfterDirs(v, c, name), pf) == Done(Some(r.value.pid))
              && r.value.pid in v.alive
    ensures var r := StopPlan(v, c, name);
            r.Done? && r.value.NothingToStop? ==>
              PidFile(DirsOutcome(v, SettingsOf(c, name), name).value.run, name) !in AfterDirs(v, c, name).paths
  {
    var dirs := DirsOutcome(v, SettingsOf(c, name), name);
    if dirs.Done? {
      var w, pf := AfterDirs(v, c, name), PidFile(dirs.value.run, name);
      PidFileStates(w, pf);
      assert w.alive == v.alive;
      assert StopPlan(v, c, name) == StopDecision(PidFileState(w, pf), pf);
    }
  }

  /** The pid file `stop_instance` removed, if any. */
  function StopRemoves(r: Outcome<StopAction>): set<string> {
    if r.Done? && r.value.RemovedStale? then {r.value.file} else {}
  }

  /** The second half of `stop_instance`: remove the pid file `pf` if it is
      stale, else signal the process it names. */
  method StopByPidFile(h: Host, pf: string) returns (r: Outcome<StopAction>)
    modifies h`paths, h`contents, h`signals
    ensures r == StopDecision(PidFileState(old(h.Snapshot()), pf), pf)
    ensures h.paths == old(h.paths) - StopRemoves(r)
    ensures h.contents == old(h.contents) - StopRemoves(r)
    ensures h.signals == old(h.signals) + if r.Done? && r.value.Signalled? then [Signal(r.value.pid, 15)] else []
  {
    var state := ClearPidFile(h, pf);
    r := StopDecision(state, pf);
    if r.Done? && r.value.Signalled? {
      h.Kill(r.value.pid, 15);
    }
  }

  /** `stop_instance` on the host. */
  method StopInstance(h: Host, c: Config, name: string) returns (r: Outcome<StopAction>)
    modifies h`paths, h`contents, h`signals
    ensures r == StopPlan(old(h.Snapshot()), c, name)
    ensures h.paths == DirsAfter(old(h.Snapshot()), SettingsOf(c, name), name) - StopRemoves(r)
    ensures h.contents == old(h.contents) - StopRemoves(r)
    ensures h.signals == old(h.signals) + if r.Done? && r.value.Signalled? then [Signal(r.value.pid, 15)] else []
  {
    ghost var v := h.Snapshot();
    var dirs := GetDirs(h, c, name);
    if !dirs.Done? {
      r := Propagate(dirs);
    } else {
      r := StopByPidFile(h, PidFile(dirs.value.run, name));
    }
  }

  /** What `start_instance` did: nothing, because the instance runs as
      `pid`; or fork a child after removing the stale pid file `removed`,
      if there was one. */
  datatype StartAction = AlreadyRunning(pid: int) | Launched(plan: Plan, removed: Option<string>)

  /** The variables `start_instance` sets over the configuration. */
  function UpExtras(pidFile: string, name: string, control: string, logFile: string): map<string, string> {
    map["TARANTOOL_PID_FILE" := pidFile, "TARANTOOL_INSTANCE_NAME" := name,
        "TARANTOOL_CONSOLE_SOCK" := control, "TARANTOOL_LOG_FILE" := logFile]
  }

  /** What `start_instance` does about the pid file `pf` in the state
      `state` once `plan` is ready. */
  function StartDecision(state: Outcome<PidState>, pf: string, plan: Plan): Outcome<StartAction>
    requires !state.Exit?
  {
    if state.Raised? then Raised(state.error)
    else match state.value
      case Running(pid) => Done(AlreadyRunning(pid))
      case StalePidFile => Done(Launched(plan, Some(pf)))
      case NoPidFile => Done(Launched(plan, None))
  }

  /** The child `start_instance` forks for instance `name`: `[tarantool,
      init.lua]` in the instance's data directory, output discarded, with
      the pid file, the instance name, the console socket and the log file
      in its environment. */
  function UpPlan(d: Dirs, program: (string, string), name: string): Plan {
    var pf := PidFile(d.run, name);
    var control := Join(d.run, name + ".control");
    var logFile := Join(d.log, name + ".log");
    Plan(program.0, [program.0, program.1], d.data, None, UpExtras(pf, name, control, logFile))
  }

  /** `start_instance` once `get_dirs` has left the host as `w` with the
      directories `d`, the application found again in `app`: find the binary
      and `init.lua`, then decide from the pid file. A pid file that vouches
      for its process means the instance is already running and nothing is
      launched; a stale one is removed first. */
  function StartFrom(w: View, app: string, d: Dirs, name: string): Outcome<StartAction> {
    var program := ProgramFor(w, app, name);
    if !program.Done? then Propagate(program)
    else
      var pf := PidFile(d.run, name);
      StartDecision(PidFileState(w, pf), pf, UpPlan(d, program.value, name))
  }

  /** `start_instance` up to the fork. */
  function StartPlan(v: View, c: Config, name: string): Outcome<StartAction> {
    var s := SettingsOf(c, name);
    var dirs := DirsOutcome(v, s, name);
    if !dirs.Done? then Propagate(dirs)
    else
      var w := AfterDirs(v, c, name);
      StartFrom(w, AppDir(w, s, name), dirs.value, name)
  }

  /** Once the program is found: a pid file that vouches for its process
      means nothing is launched and the process's pid is reported; any
      other pid file state launches the child `UpPlan` describes, a stale
      pid file being removed first. */
  lemma StartFromDecides(w: View, app: string, d: Dirs, name: string)
    ensures var r := StartFrom(w, app, d, name);
            r.Done? ==> ProgramFor(w, app, name).Done? && PidFileState(w, PidFile(d.run, name)).Done?
    ensures var r := StartFrom(w, app, d, name);
            r.Done? ==> (r.value.AlreadyRunning? <==> Vouches(w, PidFile(d.run, name)))
    ensures var r := StartFrom(w, app, d, name);
            r.Done? && r.value.AlreadyRunning? ==>
              GetPid(w, PidFile(d.run, name)) == Done(Some(r.value.pid)) && r.value.pid in w.alive
    ensures var r := StartFrom(w, app, d, name);
            r.Done? && r.value.Launched? ==>
              && r.value.plan == UpPlan(d, ProgramFor(w, app, name).value, name)
              && (r.value.removed.Some? <==> PidFile(d.run, name) in w.paths)
              && (r.value.removed.Some? ==> r.value.removed.value == PidFile(d.run, name))
    ensures ProgramFor(w, app, name).Done? && !PidFileState(w, PidFile(d.run, name)).Raised? ==>
              StartFrom(w, app, d, name).Done?
  {
    PidFileStates(w, PidFile(d.run, name));
  }

  /** A failing `get_dirs` ends `start_instance` before anything is
      launched. */
  lemma StartPlanDirsFatal(v: View, c: Config, name: string)
    ensures DirsOutcome(v, SettingsOf(c, name), name).Exit? ==> StartPlan(v, c, name).Exit?
  {
  }

  /** The stale pid file `start_instance` removed, if any. */
  function StartRemoves(r: Outcome<StartAction>): set<string> {
    if r.Done? && r.value.Launched? && r.value.removed.Some? then {r.value.removed.value} else {}
  }

  /** Whether `start_instance` reaches the fork, and it succeeds. */
  predicate Forks(plan: Outcome<StartAction>, forkError: Option<int>) {
    plan.Done? && plan.value.Launched? && forkError.None?
  }

  /** The child a plan forks, if it reaches the fork. */
  function Child(plan: Outcome<StartAction>): Plan {
    if plan.Done? && plan.value.Launched? then plan.value.plan else Plan("", [], "", None, map[])
  }

  /** How `start_instance` ends once the fork has been tried. */
  function AfterFork(plan: Outcome<StartAction>, forkError: Option<int>): Outcome<StartAction> {
    if plan.Done? && plan.value.Launched? && forkError.Some? then Exit(ForkFailed(forkError.value)) else plan
  }

  /** The pid-file half of `start_instance`: remove a stale pid file, stop
      if the instance runs, else fork `plan`. */
  method StartByPidFile(h: Host, c: Config, name: string, pf: string, plan: Plan) returns (r: Outcome<StartAction>)
    modifies h`paths, h`contents, h`launches
    ensures var decided := StartDecision(PidFileState(old(h.Snapshot()), pf), pf, plan);
            && r == AfterFork(decided, old(h.forkError))
            && h.paths == old(h.paths) - StartRemoves(decided)
            && h.contents == old(h.contents) - StartRemoves(decided)
            && Recorded(old(h.launches), h.launches, Forks(decided, old(h.forkError)), plan, Merged(c, name))
  {
    var state := ClearPidFile(h, pf);
    if state.Raised? {
      return Raised(state.error);
    }
    if state.value.Running? {
      return Done(AlreadyRunning(state.value.pid));
    }
    var removed := if state.value.StalePidFile? then Some(pf) else None;
    var spawned := Spawn(h, c, name, plan);
    if spawned.Exit? {
      return Exit(spawned.fatal);
    }
    return Done(Launched(plan, removed));
  }

  /** `start_instance` once `get_dirs` has returned `d`: look the
      application up again, find the program, then act on the pid file. */
  method StartWithDirs(h: Host, c: Config, name: string, d: Dirs) returns (r: Outcome<StartAction>)
    modifies h`paths, h`contents, h`launches
    ensures var plan := StartFrom(old(h.Snapshot()), AppDir(old(h.Snapshot()), SettingsOf(c, name), name), d, name);
            && r == AfterFork(plan, old(h.forkError))
            && h.paths == old(h.paths) - StartRemoves(plan)
            && h.contents == old(h.contents) - StartRemoves(plan)
            && Recorded(old(h.launches), h.launches, Forks(plan, old(h.forkError)), Child(plan), Merged(c, name))
  {
    var app := AppDir(h.Snapshot(), SettingsOf(c, name), name);
    var program := FindProgram(h, app, name);
    if !program.Done? {
      r := Propagate(program);
    } else {
      r := StartByPidFile(h, c, name, PidFile(d.run, name), UpPlan(d, program.value, name));
    }
  }

  /** `start_instance` on the host: it ends as planned unless the fork
      fails, leaves the directories `get_dirs` created less a stale pid file
      it removed, and records the child it forked. */
  method StartInstance(h: Host, c: Config, name: string) returns (r: Outcome<StartAction>)
    modifies h`paths, h`contents, h`launches
    ensures r == AfterFork(StartPlan(old(h.Snapshot()), c, name), old(h.forkError))
    ensures h.paths == DirsAfter(old(h.Snapshot()), SettingsOf(c, name), name) - StartRemoves(StartPlan(old(h.Snapshot()), c, name))
    ensures h.contents == old(h.contents) - StartRemoves(StartPlan(old(h.Snapshot()), c, name))
    ensures var plan := StartPlan(old(h.Snapshot()), c, name);
            Recorded(old(h.launches), h.launches, Forks(plan, old(h.forkError)), Child(plan), Merged(c, name))
  {
    ghost var v := h.Snapshot();
    var dirs := GetDirs(h, c, name);
    if !dirs.Done? {
      r := Propagate(dirs);
    } else {
      assert StartPlan(v, c, name) == StartFrom(h.Snapshot(), AppDir(h.Snapshot(), SettingsOf(c, name), name), dirs.value, name);
      r := StartWithDirs(h, c, name, dirs.value);
    }
  }

  /** The host as `start_instance` leaves it: the directories `get_dirs`
      created, less the stale pid file it removed. */
  function AfterStart(v: View, c: Config, name: string): View {
    var removed := StartRemoves(StartPlan(v, c, name));
    v.(paths := DirsAfter(v, SettingsOf(c, name), name) - removed, contents := v.contents - removed)
  }

  /** One `start_instance` of `name`: from the host `v` and the children
      `log`, it ends as `StartPlan` decides unless the fork fails with
      `forkError`, and leaves the host `w` and the children `log'`. */
  predicate StartedOne(c: Config, forkError: Option<int>, name: string, v: View, log: seq<Launch>,
                       r: Outcome<StartAction>, w: View, log': seq<Launch>) {
    var plan := StartPlan(v, c, name);
    && r == AfterFork(plan, forkError)
    && w == AfterStart(v, c, name)
    && Recorded(log, log', Forks(plan, forkError), Child(plan), Merged(c, name))
  }

  /** `StartedOne` as the step of `start`'s walk over the instances. */
  function StartStep(c: Config, forkError: Option<int>)
    : (string, View, seq<Launch>, Outcome<StartAction>, View, seq<Launch>) -> bool
  {
    (name, v, log, r, w, log') => StartedOne(c, forkError, name, v, log, r, w, log')
  }

  /** `start_instance` on the next instance `start` comes to. */
  method StartNext(h: Host, c: Config, instances: seq<string>, results: seq<Outcome<StartAction>>,
                   ghost views: seq<View>, ghost logs: seq<seq<Launch>>)
      returns (one: Outcome<StartAction>)
    requires InTurn(StartStep(c, h.forkError), instances, results, views, logs) && |results| < |instances|
    requires h.Snapshot() == views[|results|] && h.launches == logs[|results|]
    modifies h`paths, h`contents, h`launches
    ensures InTurn(StartStep(c, h.forkError), instances, results + [one], views + [h.Snapshot()], logs + [h.launches])
  {
    ghost var v, log := h.Snapshot(), h.launches;
    one := StartInstance(h, c, instances[|results|]);
    assert StartedOne(c, h.forkError, instances[|results|], v, log, one, h.Snapshot(), h.launches);
    InTurnSnoc(StartStep(c, h.forkError), instances, results, views, logs, one, h.Snapshot(), h.launches);
  }

  /** The walk of `start` over `instances`: start each in turn, ending at
      the first whose start exits or raises. */
  method StartEach(h: Host, c: Config, instances: seq<string>)
      returns (r: Outcome<()>, results: seq<Outcome<StartAction>>, ghost views: seq<View>, ghost logs: seq<seq<Launch>>)
    modifies h`paths, h`contents, h`launches
    ensures |results| <= |instances| && (r.Done? ==> |results| == |instances|)
    ensures Settled(r, results)
    ensures InTurn(StartStep(c, old(h.forkError)), instances, results, views, logs)
    ensures views[0] == old(h.Snapshot()) && logs[0] == old(h.launches)
    ensures h.Snapshot() == views[|results|] && h.launches == logs[|results|]
  {
    results := [];
    views, logs := [h.Snapshot()], [h.launches];
    r := Done(());
    var i := 0;
    while i < |instances| && r.Done?
      invariant i <= |instances| && |results| == i
      invariant Settled(r, results)
      invariant InTurn(StartStep(c, h.forkError), instances, results, views, logs)
      invariant views[0] == old(h.Snapshot()) && logs[0] == old(h.launches)
      invariant h.Snapshot() == views[i] && h.launches == logs[i]
    {
      var one := StartNext(h, c, instances, results, views, logs);
      SettledStep(results, one);
      results, views, logs := results + [one], views + [h.Snapshot()], logs + [h.launches];
      if !one.Done? {
        r := Propagate(one);
      }
      i := i + 1;
    }
  }

  /** `start`: start every instance the filter selects, in the order of
      the sections, the whole command ending at the first instance whose
      start exits or raises. `attempted` are the instances it tried and
      `results` what each attempt returned; `views` and `logs` are the host
      and its children before the first attempt and after each. `start`
      repeats the selection of `get_instances` inline; starting an instance
      never changes the configuration, so walking the list `get_instances`
      returns visits the same instances in the same order. */
  method Start(h: Host, c: Config, filter: string)
      returns (r: Outcome<()>, attempted: seq<string>, results: seq<Outcome<StartAction>>,
               ghost views: seq<View>, ghost logs: seq<seq<Launch>>)
    modifies h`paths, h`contents, h`launches
    ensures attempted <= Selected(c, filter)
    ensures |results| == |attempted|
    ensures r.Done? ==> attempted == Selected(c, filter) && AllDone(results)
    ensures !r.Done? ==> results != [] && AllDone(results[..|results| - 1])
                         && !results[|results| - 1].Done? && r == Propagate(results[|results| - 1])
    ensures InTurn(StartStep(c, old(h.forkError)), attempted, results, views, logs)
    ensures views[0] == old(h.Snapshot()) && logs[0] == old(h.launches)
    ensures h.Snapshot() == views[|results|] && h.launches == logs[|results|]
  {
    var instances := GetInstances(c, filter);
    r, results, views, logs := StartEach(h, c, instances);
    attempted := instances[..|results|];
    InTurnPrefix(StartStep(c, h.forkError), instances, attempted, results, views, logs);
  }


  /** The `i`-th turn of `start`: the instance ends as `StartPlan` decides
      on the host the turns before it left; an instance found running gets
      no child, and one reported launched got exactly one child carrying its
      plan and its merged configuration. */
  lemma StartTurn(c: Config, forkError: Option<int>, names: seq<string>, results: seq<Outcome<StartAction>>,
                  views: seq<View>, logs: seq<seq<Launch>>, i: nat)
    requires InTurn(StartStep(c, forkError), names, results, views, logs) && i < |results|
    ensures results[i] == AfterFork(StartPlan(views[i], c, names[i]), forkError)
    ensures results[i].Done? && results[i].value.AlreadyRunning? ==> logs[i + 1] == logs[i]
    ensures results[i].Done? && results[i].value.Launched? ==>
              && |logs[i + 1]| == |logs[i]| + 1 && logs[i + 1][..|logs[i]|] == logs[i]
              && Carries(logs[i + 1][|logs[i]|], results[i].value.plan, Merged(c, names[i]))
    ensures !results[i].Done? ==> logs[i + 1] == logs[i]
  {
    InTurnAt(StartStep(c, forkError), names, results, views, logs, i);
    assert StartedOne(c, forkError, names[i], views[i], logs[i], results[i], views[i + 1], logs[i + 1]);
  }

  /** How many of `results` launched a child. */
  function LaunchCount(results: seq<Outcome<StartAction>>): nat {
    if results == [] then 0
    else
      var last := results[|results| - 1];
      LaunchCount(results[..|results| - 1]) + if last.Done? && last.value.Launched? then 1 else 0
  }

  /** Over the whole walk, `start` forks one child per instance it reports
      launched and no other. */
  lemma {:induction false} OneChildPerLaunch(c: Config, forkError: Option<int>, names: seq<string>,
                                             results: seq<Outcome<StartAction>>, views: seq<View>, logs: seq<seq<Launch>>)
    requires InTurn(StartStep(c, forkError), names, results, views, logs)
    ensures |logs[|results|]| == |logs[0]| + LaunchCount(results)
  {
    if results != [] {
      var k := |results| - 1;
      OneChildPerLaunch(c, forkError, names, results[..k], views[..k + 1], logs[..k + 1]);
      StartTurn(c, forkError, names, results, views, logs, k);
    }
  }

  /** The host as `stop_instance` leaves it: the directories `get_dirs`
      created, less the stale pid file it removed. */
  function AfterStop(v: View, c: Config, name: string): View {
    var removed := StopRemoves(StopPlan(v, c, name));
    v.(paths := DirsAfter(v, SettingsOf(c, name), name) - removed, contents := v.contents - removed)
  }

  /** One `stop_instance` of `name`: from the host `v` and the signals
      `sent`, it ends as `StopPlan` decides, leaves the host `w` and adds
      the signal it sent, if any, to give `sent'`. */
  predicate StoppedOne(c: Config, name: string, v: View, sent: seq<Signal>,
                       r: Outcome<StopAction>, w: View, sent': seq<Signal>) {
    && r == StopPlan(v, c, name)
    && w == AfterStop(v, c, name)
    && sent' == sent + SignalOf(r)
  }

  /** `StoppedOne` as the step of `stop`'s walk over the instances. */
  function StopStep(c: Config): (string, View, seq<Signal>, Outcome<StopAction>, View, seq<Signal>) -> bool {
    (name, v, sent, r, w, sent') => StoppedOne(c, name, v, sent, r, w, sent')
  }

  /** `stop_instance` on the next instance `stop` comes to, after stops
      that all returned normally: the walk so far grows by one step. */
  method StopNext(h: Host, c: Config, instances: seq<string>, results: seq<Outcome<StopAction>>,
                  ghost views: seq<View>, ghost logs: seq<seq<Signal>>)
      returns (one: Outcome<StopAction>, ghost views': seq<View>, ghost logs': seq<seq<Signal>>)
    requires InTurn(StopStep(c), instances, results, views, logs) && |results| < |instances|
    requires AllDone(results)
    requires h.Snapshot() == views[|results|] && h.signals == logs[|results|]
    modifies h`paths, h`contents, h`signals
    ensures Settled(if one.Done? then Done(()) else Propagate(one), results + [one])
    ensures InTurn(StopStep(c), instances, results + [one], views', logs')
    ensures views'[0] == views[0] && logs'[0] == logs[0]
    ensures h.Snapshot() == views'[|results| + 1] && h.signals == logs'[|results| + 1]
  {
    ghost var v, sent := h.Snapshot(), h.signals;
    one := StopInstance(h, c, instances[|results|]);
    assert StoppedOne(c, instances[|results|], v, sent, one, h.Snapshot(), h.signals);
    InTurnSnoc(StopStep(c), instances, results, views, logs, one, h.Snapshot(), h.signals);
    SettledStep(results, one);
    views', logs' := views + [h.Snapshot()], logs + [h.signals];
  }

  /** The `i`-th turn of `stop`: the instance ends as `StopPlan` decides on
      the host the turns before it left, and a signal is sent at that turn
      exactly when the stop reports one, to the live process the instance's
      pid file vouches for. */
  lemma StopTurn(c: Config, names: seq<string>, results: seq<Outcome<StopAction>>,
                 views: seq<View>, logs: seq<seq<Signal>>, i: nat)
    requires InTurn(StopStep(c), names, results, views, logs) && i < |results|
    ensures results[i] == StopPlan(views[i], c, names[i])
    ensures logs[i + 1] == logs[i] + SignalOf(results[i])
    ensures results[i].Done? && results[i].value.Signalled? ==>
              var v := views[i];
              var pf := PidFile(DirsOutcome(v, SettingsOf(c, names[i]), names[i]).value.run, names[i]);
              results[i].value.pid in v.alive && Vouches(AfterDirs(v, c, names[i]), pf)
  {
    InTurnAt(StopStep(c), names, results, views, logs, i);
    assert StoppedOne(c, names[i], views[i], logs[i], results[i], views[i + 1], logs[i + 1]);
    StopPlanDecides(views[i], c, names[i]);
  }

  /** The walk of `stop` over `instances`: stop each in turn, ending at the
      first whose stop exits or raises. */
  method StopEach(h: Host, c: Config, instances: seq<string>)
      returns (r: Outcome<()>, results: seq<Outcome<StopAction>>, ghost views: seq<View>, ghost logs: seq<seq<Signal>>)
    modifies h`paths, h`contents, h`signals
    ensures |results| <= |instances| && (r.Done? ==> |results| == |instances|)
    ensures Settled(r, results)
    ensures InTurn(StopStep(c), instances, results, views, logs)
    ensures views[0] == old(h.Snapshot()) && logs[0] == old(h.signals)
    ensures h.Snapshot() == views[|results|] && h.signals == logs[|results|]
  {
    results := [];
    views, logs := [h.Snapshot()], [h.signals];
    r := Done(());
    while |results| < |instances| && r.Done?
      invariant |results| <= |instances|
      invariant Settled(r, results)
      invariant InTurn(StopStep(c), instances, results, views, logs)
      invariant views[0] == old(h.Snapshot()) && logs[0] == old(h.signals)
      invariant h.Snapshot() == views[|results|] && h.signals == logs[|results|]
      decreases |instances| - |results|
    {
      var one;
      one, views, logs := StopNext(h, c, instances, results, views, logs);
      results := results + [one];
      if !one.Done? {
        r := Propagate(one);
      }
    }
  }

  /** `stop`: stop every instance `get_instances` selects, in order, the
      whole command ending at the first instance whose stop exits or
      raises. `attempted` are the instances it tried and `results` what
      each attempt returned; `views` and `logs` are the host and the
      signals sent before the first attempt and after each. */
  method Stop(h: Host, c: Config, filter: string)
      returns (r: Outcome<()>, attempted: seq<string>, results: seq<Outcome<StopAction>>,
               ghost views: seq<View>, ghost logs: seq<seq<Signal>>)
    modifies h`paths, h`contents, h`signals
    ensures attempted <= Selected(c, filter)
    ensures |results| == |attempted|
    ensures r.Done? ==> attempted == Selected(c, filter) && AllDone(results)
    ensures !r.Done? ==> results != [] && AllDone(results[..|results| - 1])
                         && !results[|results| - 1].Done? && r == Propagate(results[|results| - 1])
    ensures InTurn(StopStep(c), attempted, results, views, logs)
    ensures views[0] == old(h.Snapshot()) && logs[0] == old(h.signals)
    ensures h.Snapshot() == views[|results|] && h.signals == logs[|results|]
    ensures h.signals == old(h.signals) + SignalsSent(results)
  {
    var instances := GetInstances(c, filter);
    r, results, views, logs := StopEach(h, c, instances);
    attempted := instances[..|results|];
    InTurnPrefix(StopStep(c), instances, attempted, results, views, logs);
    AllSignalsSent(c, attempted, results, views, logs);
  }

  /** Signal 15 to each process a stop in `results` signalled, in order. */
  function SignalsSent(results: seq<Outcome<StopAction>>): seq<Signal> {
    if results == [] then []
    else SignalsSent(results[..|results| - 1]) + SignalOf(results[|results| - 1])
  }

  function SignalOf(one: Outcome<StopAction>): seq<Signal> {
    if one.Done? && one.value.Signalled? then [Signal(one.value.pid, 15)] else []
  }

  /** Over the whole walk, `stop` sends exactly the signals its stops
      report, in order. */
  lemma {:induction false} AllSignalsSent(c: Config, names: seq<string>, results: seq<Outcome<StopAction>>,
                                          views: seq<View>, logs: seq<seq<Signal>>)
    requires InTurn(StopStep(c), names, results, views, logs)
    ensures logs[|results|] == logs[0] + SignalsSent(results)
  {
    if results != [] {
      var k := |results| - 1;
      AllSignalsSent(c, names, results[..k], views[..k + 1], logs[..k + 1]);
      assert StoppedOne(c, names[k], views[k], logs[k], results[k], views[k + 1], logs[k + 1]);
    }
  }
}
