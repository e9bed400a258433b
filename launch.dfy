/**
 * The tail both variants of `start_instance` share: merge the instance's
 * configuration, turn it into `TARANTOOL_*` variables, assign the
 * variables the supervisor computes itself over them, and fork a child
 * that runs `[tarantool, init.lua]` with that environment.
 */
module Launching {
  import opened Text
  import opened ConfigTree
  import opened Cascade
  import opened Os

  /** A child to be forked, before its environment is built: the binary,
      its arguments, the directory it changes into, where its output goes,
      and the variables the supervisor sets itself. */
  datatype Plan = Plan(binary: string, args: seq<string>, cwd: string, output: Option<string>,
                       extras: map<string, string>)

  /** `env` is `config_to_env(merged)` with `extras` assigned over it: the
      supervisor's own variables win, every configuration key is present,
      one that no other key collides with carries its value, and nothing
      else is there. */
  predicate EnvFrom(env: map<string, string>, merged: map<string, string>, extras: map<string, string>) {
    && (forall e :: e in extras ==> e in env && env[e] == extras[e])
    && (forall key :: key in merged ==> EnvName(key) in env)
    && (forall key :: key in merged && Unambiguous(merged, key) && EnvName(key) !in extras ==>
          env[EnvName(key)] == merged[key])
    && (forall e :: e in env && e !in extras ==>
          exists key :: key in merged && EnvName(key) == e && env[e] == merged[key])
  }

  /** `launch` is what `plan` becomes once the configuration `merged` is
      in its environment. */
  predicate Carries(launch: Launch, plan: Plan, merged: map<string, string>) {
    && launch.binary == plan.binary && launch.args == plan.args
    && launch.cwd == plan.cwd && launch.output == plan.output
    && EnvFrom(launch.env, merged, plan.extras)
  }

  /** Assigning the supervisor's variables over what `config_to_env` built
      gives an environment of that shape. */
  lemma Overlay(env: map<string, string>, merged: map<string, string>, extras: map<string, string>)
    requires forall key :: key in merged ==> EnvName(key) in env
    requires forall e :: e in env ==> exists key :: key in merged && EnvName(key) == e && env[e] == merged[key]
    requires forall key :: key in merged && Unambiguous(merged, key) ==> env[EnvName(key)] == merged[key]
    ensures EnvFrom(env + extras, merged, extras)
  {
  }

  /** Build the environment and fork: a failed fork is fatal, a successful
      one records the child. */
  method Spawn(h: Host, c: Config, name: string, plan: Plan) returns (r: Outcome<()>)
    modifies h`launches
    ensures r == if old(h.forkError).Some? then Exit(ForkFailed(old(h.forkError).value)) else Done(())
    ensures Recorded(old(h.launches), h.launches, old(h.forkError).None?, plan, Merged(c, name))
  {
    var merged := ConfigMerge(c, name);
    var env := ConfigToEnv(merged);
    Overlay(env, merged, plan.extras);
    env := env + plan.extras;
    var errno := h.Fork(Launch(plan.binary, plan.args, env, plan.cwd, plan.output));
    if errno.Some? {
      return Exit(ForkFailed(errno.value));
    }
    return Done(());
  }

  /** The binary `start_instance` runs: `tarantool` in the application
      directory when that path exists, else the first runnable `tarantool`
      along `PATH`; looking `PATH` up raises when it is unset. */
  function BinaryFor(v: View, app: string): Outcome<Option<string>> {
    var local := Join(app, "tarantool");
    if local in v.paths then Done(Some(local)) else OnPath(v, "tarantool")
  }

  /** The binary found is the application's own when it exists (runnable
      or not) and a runnable one from `PATH` otherwise; none is found
      exactly when no `PATH` entry holds a runnable `tarantool`; the lookup
      raises exactly when it needs `PATH` and it is unset. */
  lemma BinaryChoice(v: View, app: string)
    ensures !BinaryFor(v, app).Exit?
    ensures Join(app, "tarantool") in v.paths ==> BinaryFor(v, app) == Done(Some(Join(app, "tarantool")))
    ensures var r := BinaryFor(v, app);
            r.Done? && r.value.Some? ==>
              (r.value.value == Join(app, "tarantool") && r.value.value in v.paths) || Runnable(v, r.value.value)
    ensures BinaryFor(v, app) == Done(None) <==>
              Join(app, "tarantool") !in v.paths && v.pathVar.Some?
              && forall dir :: dir in SplitOn(v.pathVar.value, ':') ==> !Runnable(v, Join(dir, "tarantool"))
    ensures BinaryFor(v, app).Raised? <==> Join(app, "tarantool") !in v.paths && v.pathVar.None?
  {
    if Join(app, "tarantool") !in v.paths && v.pathVar.Some? {
      var dirs := SplitOn(v.pathVar.value, ':');
      FirstRunnableNone(v, dirs, "tarantool");
      FirstRunnableFound(v, dirs, "tarantool");
      if BinaryFor(v, app) == Done(None) {
        forall dir | dir in dirs
          ensures !Runnable(v, Join(dir, "tarantool"))
        {
          var i :| 0 <= i < |dirs| && dirs[i] == dir;
        }
      }
    }
  }

  /** The binary and the `init.lua` to run for instance `name` of the
      application in `app`: no binary or no `init.lua` is fatal. */
  function ProgramFor(v: View, app: string, name: string): Outcome<(string, string)> {
    var binary := BinaryFor(v, app);
    if binary.Raised? then Raised(binary.error)
    else if binary.value.None? then Exit(NoBinary(name))
    else
      var init := Join(app, "init.lua");
      if init !in v.paths then Exit(NoInit(name)) else Done((binary.value.value, init))
  }

  /** The program runs the binary found with the application's
      `init.lua`; no binary, or a binary but no `init.lua`, is fatal and
      says which. */
  lemma ProgramChoice(v: View, app: string, name: string)
    ensures var r := ProgramFor(v, app, name);
            r.Done? ==> r.value.1 == Join(app, "init.lua") && r.value.1 in v.paths
                        && BinaryFor(v, app) == Done(Some(r.value.0))
    ensures var r := ProgramFor(v, app, name);
            r.Exit? <==> (BinaryFor(v, app) == Done(None) || (BinaryFor(v, app).Done? && Join(app, "init.lua") !in v.paths))
    ensures var r := ProgramFor(v, app, name);
            r.Exit? ==> r.fatal == if BinaryFor(v, app) == Done(None) then NoBinary(name) else NoInit(name)
    ensures ProgramFor(v, app, name).Raised? <==> BinaryFor(v, app).Raised?
  {
  }

  /** The binary and `init.lua` lookups of `start_instance`. */
  method FindProgram(h: Host, app: string, name: string) returns (r: Outcome<(string, string)>)
    ensures r == ProgramFor(h.Snapshot(), app, name)
  {
    var binary := Join(app, "tarantool");
    if binary !in h.paths {
      var found := h.Which("tarantool");
      if found.Raised? {
        return Raised(found.error);
      }
      if found.value.None? {
        return Exit(NoBinary(name));
      }
      binary := found.value.value;
    }
    var init := Join(app, "init.lua");
    if init !in h.paths {
      return Exit(NoInit(name));
    }
    return Done((binary, init));
  }

  /** `after` is `before` with one child that carries `plan` added when
      `launched`, and `before` unchanged otherwise. */
  predicate Recorded(before: seq<Launch>, after: seq<Launch>, launched: bool, plan: Plan, merged: map<string, string>) {
    if launched then
      |after| == |before| + 1 && after[..|before|] == before && Carries(after[|before|], plan, merged)
    else after == before
  }
}
