/**
 * The operating system as the supervisor sees it: which paths exist, what
 * the pid files hold, which processes answer a probe and what `ps` lists
 * for them, the clock, the working directory and `PATH`. The supervisor
 * changes it by creating directories, removing pid files, sending signals
 * and forking children; a `Host` records those changes.
 */
module Os {
  import opened Text

  /** An absolute path starts at the root. */
  predicate Absolute(p: string) {
    |p| > 0 && p[0] == '/'
  }

  /** `os.path.join(a, b)` on POSIX: an absolute `b` replaces `a`; otherwise
      `b` is appended, with a `/` in between unless `a` is empty or already
      ends in one. */
  function Join(a: string, b: string): string {
    if Absolute(b) then b
    else if a == [] || a[|a| - 1] == '/' then a + b
    else a + "/" + b
  }

  /** The joined path ends in `b`, and starts with `a` unless `b` is
      absolute, in which case it is `b`. */
  lemma JoinShape(a: string, b: string)
    ensures |b| <= |Join(a, b)| && Join(a, b)[|Join(a, b)| - |b|..] == b
    ensures !Absolute(b) ==> |a| <= |Join(a, b)| && Join(a, b)[..|a|] == a
    ensures Absolute(b) ==> Join(a, b) == b
  {
  }

  /** Relative names under one directory give different paths. */
  lemma JoinInjective(dir: string, x: string, y: string)
    requires !Absolute(x) && !Absolute(y)
    ensures Join(dir, x) == Join(dir, y) ==> x == y
  {
    var sep := if dir == [] || dir[|dir| - 1] == '/' then dir else dir + "/";
    assert Join(dir, x) == sep + x && Join(dir, y) == sep + y;
    assert x == (sep + x)[|sep|..] && y == (sep + y)[|sep|..];
  }

  /** The pid file of an instance: `<run_dir>/<instance>.pid`. */
  function PidFile(run: string, name: string): string {
    Join(run, name + ".pid")
  }

  /** Two instances never share a pid file, so one instance's stop or start
      cannot act on another's process. */
  lemma DistinctPidFiles(run: string, a: string, b: string)
    requires a != b && !Absolute(a) && !Absolute(b)
    ensures PidFile(run, a) != PidFile(run, b)
  {
    assert !Absolute(a + ".pid") by { if a != [] { assert (a + ".pid")[0] == a[0]; } }
    assert !Absolute(b + ".pid") by { if b != [] { assert (b + ".pid")[0] == b[0]; } }
    JoinInjective(run, a + ".pid", b + ".pid");
    SuffixCancels(a, b, ".pid");
  }

  lemma SuffixCancels(a: string, b: string, suffix: string)
    ensures a + suffix == b + suffix ==> a == b
  {
    if a + suffix == b + suffix {
      assert a == (a + suffix)[..|a|] && b == (b + suffix)[..|b|];
    }
  }

  /** A signal the supervisor sent. */
  datatype Signal = Signal(pid: int, sig: int)

  /** A child the supervisor forked to `execve` Tarantool: the binary, its
      arguments, its environment, the directory it changes into, and the
      file its output goes to (`None` for `/dev/null`). */
  datatype Launch = Launch(binary: string, args: seq<string>, env: map<string, string>,
                           cwd: string, output: Option<string>)

  /** Python exceptions the supervisor does not catch. */
  datatype PyError =
    | CannotOpen(path: string)      // `open()` of a pid file that is missing or unreadable
    | NotAnInteger(text: string)    // `int()` of the pid file's contents
    | BadEtime(etime: string)       // `int()` or unpacking in the `etime` arithmetic
    | CannotStat(path: string)      // `os.path.getmtime` of the pid file
    | NameIsNone                    // `"tarantool" not in None`
    | NoSuchProcess(pid: int)       // `os.kill(pid, 0)` when nothing answers
    | NoPathVariable                // `os.environ["PATH"]` when it is unset

  /** The `sys.exit(1)` paths, with what the message names. */
  datatype Fatal =
    | MissingDir(role: string, path: string)
    | NoBinary(instance: string)
    | NoInit(instance: string)
    | ForkFailed(errno: int)

  /** How a call of the supervisor ends. */
  datatype Outcome<+T> = Done(value: T) | Exit(fatal: Fatal) | Raised(error: PyError)

  /** A failure handed on to the caller unchanged. */
  function Propagate<T, U>(o: Outcome<T>): (r: Outcome<U>)
    requires !o.Done?
    ensures r.Exit? <==> o.Exit?
    ensures r.Raised? <==> o.Raised?
    ensures r.Exit? ==> r.fatal == o.fatal
    ensures r.Raised? ==> r.error == o.error
  {
    if o.Exit? then Exit(o.fatal) else Raised(o.error)
  }

  /** Every call in `results` returned normally. */
  predicate AllDone<T>(results: seq<Outcome<T>>) {
    forall i :: 0 <= i < |results| ==> results[i].Done?
  }

  /** How a command that acts on instances one by one stands: while `r`
      is `Done` every call in `results` returned normally; once it is not,
      the command ended at the last call, the one failure among them, and
      hands that failure on. */
  predicate Settled<T>(r: Outcome<()>, results: seq<Outcome<T>>) {
    if r.Done? then AllDone(results)
    else
      && results != [] && AllDone(results[..|results| - 1])
      && !results[|results| - 1].Done? && r == Propagate(results[|results| - 1])
  }

  /** One more call after calls that all returned normally. */
  lemma SettledStep<T>(results: seq<Outcome<T>>, one: Outcome<T>)
    requires AllDone(results)
    ensures Settled(if one.Done? then Done(()) else Propagate(one), results + [one])
  {
    assert (results + [one])[..|results|] == results;
  }

  /** A command that acts on `names` one after the other: the first
      `|results|` of them were acted on, the `i`-th taking the host from
      `views[i]` and the record of what was done to it from `logs[i]` to
      `views[i + 1]` and `logs[i + 1]`, ending as `results[i]`, as `step`
      describes one such call. */
  predicate InTurn<R, L>(step: (string, View, L, R, View, L) -> bool,
                         names: seq<string>, results: seq<R>, views: seq<View>, logs: seq<L>)
    decreases |results|
  {
    && |results| <= |names| && |views| == |results| + 1 && |logs| == |results| + 1
    && (results != [] ==>
          var k := |results| - 1;
          && InTurn(step, names, results[..k], views[..k + 1], logs[..k + 1])
          && step(names[k], views[k], logs[k], results[k], views[k + 1], logs[k + 1]))
  }

  /** One more call, on the next name, from where the calls before it left
      the host. */
  lemma InTurnSnoc<R, L>(step: (string, View, L, R, View, L) -> bool, names: seq<string>, results: seq<R>,
                         views: seq<View>, logs: seq<L>, one: R, w: View, log: L)
    requires InTurn(step, names, results, views, logs) && |results| < |names|
    requires step(names[|results|], views[|results|], logs[|results|], one, w, log)
    ensures InTurn(step, names, results + [one], views + [w], logs + [log])
  {
    assert (results + [one])[..|results|] == results;
    assert (views + [w])[..|results| + 1] == views;
    assert (logs + [log])[..|results| + 1] == logs;
  }

  /** Only the names acted on matter. */
  lemma {:induction false} InTurnPrefix<R, L>(step: (string, View, L, R, View, L) -> bool, names: seq<string>,
                                              attempted: seq<string>, results: seq<R>, views: seq<View>, logs: seq<L>)
    requires InTurn(step, names, results, views, logs)
    requires attempted <= names && |results| <= |attempted|
    ensures InTurn(step, attempted, results, views, logs)
  {
    if results != [] {
      var k := |results| - 1;
      InTurnPrefix(step, names, attempted, results[..k], views[..k + 1], logs[..k + 1]);
    }
  }

  /** The `i`-th call is one `step` on the `i`-th name, from the host the
      calls before it left. */
  lemma {:induction false} InTurnAt<R, L>(step: (string, View, L, R, View, L) -> bool, names: seq<string>,
                                          results: seq<R>, views: seq<View>, logs: seq<L>, i: nat)
    requires InTurn(step, names, results, views, logs) && i < |results|
    ensures step(names[i], views[i], logs[i], results[i], views[i + 1], logs[i + 1])
  {
    var k := |results| - 1;
    if i < k {
      var rs, vs, ls := results[..k], views[..k + 1], logs[..k + 1];
      InTurnAt(step, names, rs, vs, ls, i);
      assert rs[i] == results[i] && vs[i] == views[i] && ls[i] == logs[i];
      assert vs[i + 1] == views[i + 1] && ls[i + 1] == logs[i + 1];
    }
  }

  /** What the host would answer at one moment. `paths` are the paths that
      exist (files and directories alike); `executable` those `os.access`
      allows to execute; `contents` the readable files; `mtimes` the
      modification times, rounded up to whole seconds; `alive` the pids that
      `os.kill(pid, 0)` accepts; `etimes` and `comms` the `etime` and `comm`
      columns `ps` lists per pid; `now` the clock in whole seconds, rounded
      down; `pathVar` the `PATH` variable. */
  datatype View = View(paths: set<string>, executable: set<string>,
                       contents: map<string, string>, mtimes: map<string, int>,
                       alive: set<int>, etimes: map<int, string>, comms: map<int, string>,
                       now: int, cwd: string, pathVar: Option<string>)

  /** `os.path.exists(p) and os.access(p, os.X_OK)`. */
  predicate Runnable(v: View, p: string) {
    p in v.paths && p in v.executable
  }

  /** The first of `dirs` holding a runnable `name`. */
  function FirstRunnable(v: View, dirs: seq<string>, name: string): Option<string> {
    if dirs == [] then None
    else if Runnable(v, Join(dirs[0], name)) then Some(Join(dirs[0], name))
    else FirstRunnable(v, dirs[1..], name)
  }

  /** None of `dirs` holds a runnable `name`. */
  predicate NoneRunnable(v: View, dirs: seq<string>, name: string) {
    forall i :: 0 <= i < |dirs| ==> !Runnable(v, Join(dirs[i], name))
  }

  /** Nothing is found exactly when no directory holds a runnable `name`. */
  lemma {:induction false} FirstRunnableNone(v: View, dirs: seq<string>, name: string)
    ensures FirstRunnable(v, dirs, name).None? <==> NoneRunnable(v, dirs, name)
  {
    if dirs != [] && !Runnable(v, Join(dirs[0], name)) {
      var rest := dirs[1..];
      assert FirstRunnable(v, dirs, name) == FirstRunnable(v, rest, name);
      FirstRunnableNone(v, rest, name);
      if FirstRunnable(v, rest, name).None? {
        forall i | 0 <= i < |dirs|
          ensures !Runnable(v, Join(dirs[i], name))
        {
          if i > 0 { assert dirs[i] == rest[i - 1]; }
        }
      }
    }
  }

  /** What is found is runnable. */
  lemma {:induction false} FirstRunnableFound(v: View, dirs: seq<string>, name: string)
    ensures FirstRunnable(v, dirs, name).Some? ==> Runnable(v, FirstRunnable(v, dirs, name).value)
  {
    if dirs != [] && !Runnable(v, Join(dirs[0], name)) {
      FirstRunnableFound(v, dirs[1..], name);
    }
  }

  /** The first directory holding a runnable `name` is the one whose file is
      found, whatever the directories after it hold. */
  lemma {:induction false} FirstRunnableAt(v: View, dirs: seq<string>, name: string, i: nat)
    requires i < |dirs| && Runnable(v, Join(dirs[i], name)) && NoneRunnable(v, dirs[..i], name)
    ensures FirstRunnable(v, dirs, name) == Some(Join(dirs[i], name))
  {
    if i > 0 {
      assert !Runnable(v, Join(dirs[..i][0], name));
      var rest := dirs[1..];
      assert rest[i - 1] == dirs[i];
      var before := rest[..i - 1];
      forall j | 0 <= j < |before|
        ensures !Runnable(v, Join(before[j], name))
      {
        assert before[j] == dirs[..i][j + 1];
      }
      FirstRunnableAt(v, rest, name, i - 1);
    }
  }

  /** What `which(name)` finds: the first runnable `name` along `PATH`. */
  function OnPath(v: View, name: string): Outcome<Option<string>> {
    if v.pathVar.None? then Raised(NoPathVariable)
    else Done(FirstRunnable(v, SplitOn(v.pathVar.value, ':'), name))
  }

  /** The host: its state, and the record of what the supervisor did to it. */
  class Host {
    var paths: set<string>
    var executable: set<string>
    var contents: map<string, string>
    var mtimes: map<string, int>
    var alive: set<int>
    var etimes: map<int, string>
    var comms: map<int, string>
    var now: int
    var cwd: string
    var pathVar: Option<string>
    /** The `errno` the next `os.fork()` fails with, if it fails. */
    var forkError: Option<int>
    var signals: seq<Signal>
    var launches: seq<Launch>

    /** What the host would answer now. */
    function Snapshot(): View
      reads this
    {
      View(paths, executable, contents, mtimes, alive, etimes, comms, now, cwd, pathVar)
    }

    /** `os.mkdir(p)`. */
    method Mkdir(p: string)
      modifies this`paths
      ensures paths == old(paths) + {p}
    {
      paths := paths + {p};
    }

    /** `os.remove(p)`. */
    method Remove(p: string)
      modifies this`paths, this`contents
      ensures paths == old(paths) - {p}
      ensures contents == old(contents) - {p}
    {
      paths := paths - {p};
      contents := contents - {p};
    }

    /** `os.kill(pid, sig)` for a pid that accepts it. */
    method Kill(pid: int, sig: int)
      modifies this`signals
      ensures signals == old(signals) + [Signal(pid, sig)]
    {
      signals := signals + [Signal(pid, sig)];
    }

    /** `os.fork()` in the parent: the child runs `launch`, unless the fork
        fails with `forkError`. */
    method Fork(launch: Launch) returns (errno: Option<int>)
      modifies this`launches
      ensures errno == forkError
      ensures launches == old(launches) + if forkError.None? then [launch] else []
    {
      errno := forkError;
      if errno.None? {
        launches := launches + [launch];
      }
    }

    /** `which(name)`: walk the `PATH` entries in order and return the first
        `<entry>/<name>` that exists and may be executed. */
    method Which(name: string) returns (r: Outcome<Option<string>>)
      ensures r == OnPath(Snapshot(), name)
    {
      if pathVar.None? {
        return Raised(NoPathVariable);
      }
      var dirs := SplitOn(pathVar.value, ':');
      ghost var v := Snapshot();
      for i := 0 to |dirs|
        invariant FirstRunnable(v, dirs, name) == FirstRunnable(v, dirs[i..], name)
      {
        var full := Join(dirs[i], name);
        if full in paths && full in executable {
          return Done(Some(full));
        }
        assert dirs[i..][1..] == dirs[i + 1..];
      }
      return Done(None);
    }
  }

  /** `if not os.path.exists(p): os.mkdir(p)`. */
  method EnsureDir(h: Host, p: string)
    modifies h`paths
    ensures h.paths == old(h.paths) + {p}
  {
    if p !in h.paths {
      h.Mkdir(p);
    }
  }
}
