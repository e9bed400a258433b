/**
 * The configuration cascade `default < <app> < <app>.<instance>`, as the two
 * code paths of the supervisor compute it: `config_get_value` searches from
 * the most specific section down and stops at the first hit, `config_merge`
 * copies the sections from the least specific up so that later ones
 * overwrite. Both variants of the supervisor share this code; they differ
 * only in the table of built-in defaults, which is a parameter here.
 */
module Cascade {
  import opened Text
  import opened ConfigTree

  /** The sections `config_get_value` searches, most specific first. */
  function LookupOrder(name: string): seq<string> {
    var (app, instance) := InstanceSplit(name);
    [app + "." + instance, app, "default"]
  }

  /** The sections `config_merge` copies, least specific first. */
  function MergeOrder(name: string): seq<string> {
    var (app, instance) := InstanceSplit(name);
    ["default", app, app + "." + instance]
  }

  /** Some section on the instance's path defines `key`. */
  predicate DefinedFor(c: Config, name: string, key: string) {
    var (app, instance) := InstanceSplit(name);
    key in SectionOf(c, app + "." + instance) || key in SectionOf(c, app) || key in SectionOf(c, "default")
  }

  /** The value of `key` in the first of the sections `names` that defines
      it: the early-return loop of `config_get_value`. */
  function FindIn(c: Config, names: seq<string>, key: string): Option<string> {
    if names == [] then None
    else if key in SectionOf(c, names[0]) then Some(SectionOf(c, names[0])[key])
    else FindIn(c, names[1..], key)
  }

  /** The search finds a value exactly when one of the sections defines the
      key, and the value it finds is the first such section's. */
  lemma {:induction false} FindInFirst(c: Config, names: seq<string>, key: string)
    ensures FindIn(c, names, key).Some? <==> exists i :: 0 <= i < |names| && key in SectionOf(c, names[i])
    ensures FindIn(c, names, key).Some? ==>
              exists i :: 0 <= i < |names| && key in SectionOf(c, names[i])
                          && (forall j :: 0 <= j < i ==> key !in SectionOf(c, names[j]))
                          && FindIn(c, names, key).value == SectionOf(c, names[i])[key]
  {
    if names != [] && key !in SectionOf(c, names[0]) {
      FindInFirst(c, names[1..], key);
      assert forall i :: 1 <= i < |names| ==> names[i] == names[1..][i - 1];
      if FindIn(c, names, key).Some? {
        var i :| 0 <= i < |names[1..]| && key in SectionOf(c, names[1..][i])
                 && (forall j :: 0 <= j < i ==> key !in SectionOf(c, names[1..][j]))
                 && FindIn(c, names[1..], key).value == SectionOf(c, names[1..][i])[key];
        assert forall j :: 0 <= j < i + 1 ==> key !in SectionOf(c, names[j]) by {
          forall j | 0 <= j < i + 1 ensures key !in SectionOf(c, names[j]) {
            if j > 0 { assert names[j] == names[1..][j - 1]; }
          }
        }
      }
    }
  }

  /** The search along the instance's path finds a value exactly when some
      section on it defines the key. */
  lemma FoundOnPath(c: Config, name: string, key: string)
    ensures FindIn(c, LookupOrder(name), key).Some? <==> DefinedFor(c, name, key)
  {
    var (app, instance) := InstanceSplit(name);
    var path := LookupOrder(name);
    assert path[0] == app + "." + instance && path[1] == app && path[2] == "default";
    FindInFirst(c, path, key);
  }

  /** `config_get_value` with the module's table of built-in defaults passed
      in: `None` when neither a section nor the table has the key. */
  function Lookup(defaults: map<string, string>, c: Config, name: string, key: string): Option<string> {
    match FindIn(c, LookupOrder(name), key)
    case Some(v) => Some(v)
    case None => if key in defaults then Some(defaults[key]) else None
  }

  /** The lookup comes up empty exactly when neither a section on the path
      nor the table has the key; a section's value beats the table's. */
  lemma LookupFallsBack(defaults: map<string, string>, c: Config, name: string, key: string)
    ensures Lookup(defaults, c, name, key).None? <==> !DefinedFor(c, name, key) && key !in defaults
    ensures !DefinedFor(c, name, key) && key in defaults ==> Lookup(defaults, c, name, key) == Some(defaults[key])
    ensures DefinedFor(c, name, key) ==> Lookup(defaults, c, name, key) == FindIn(c, LookupOrder(name), key)
  {
    FoundOnPath(c, name, key);
  }

  /** The sections `names` copied one over the other, later ones winning. */
  function Layer(c: Config, names: seq<string>): map<string, string> {
    if names == [] then map[]
    else Layer(c, names[..|names| - 1]) + SectionOf(c, names[|names| - 1])
  }

  /** The dict `config_merge` builds. */
  function Merged(c: Config, name: string): map<string, string> {
    Layer(c, MergeOrder(name))
  }

  /** Layering sections keeps, for each key, the value of the last section
      that defines it: the first one found when searching them backwards. */
  lemma {:induction false} LayerKeepsLastWriter(c: Config, names: seq<string>, key: string)
    ensures FindIn(c, Reversed(names), key)
            == if key in Layer(c, names) then Some(Layer(c, names)[key]) else None
  {
    if names != [] {
      var init, last := names[..|names| - 1], names[|names| - 1];
      var rev := Reversed(names);
      assert rev[0] == last && rev[1..] == Reversed(init);
      LayerKeepsLastWriter(c, init, key);
    }
  }

  /** The two code paths agree: a key is in the merged dict exactly when some
      section on the instance's path defines it, and then the merged value is
      what `config_get_value` returns, whatever the defaults table holds. A
      key defined nowhere is left to the defaults table. */
  lemma MergeAgreesWithLookup(defaults: map<string, string>, c: Config, name: string)
    ensures forall key :: key in Merged(c, name) <==> DefinedFor(c, name, key)
    ensures forall key :: key in Merged(c, name) ==> Lookup(defaults, c, name, key) == Some(Merged(c, name)[key])
    ensures forall key :: key !in Merged(c, name) ==>
              Lookup(defaults, c, name, key) == if key in defaults then Some(defaults[key]) else None
  {
    var (app, instance) := InstanceSplit(name);
    ReversedThree("default", app, app + "." + instance);
    forall key
      ensures FindIn(c, LookupOrder(name), key)
              == if key in Merged(c, name) then Some(Merged(c, name)[key]) else None
      ensures key in Merged(c, name) <==> DefinedFor(c, name, key)
    {
      LayerKeepsLastWriter(c, MergeOrder(name), key);
      FoundOnPath(c, name, key);
    }
  }

  lemma ReversedThree(a: string, b: string, c: string)
    ensures Reversed([a, b, c]) == [c, b, a]
  {
    assert Reversed([a]) == [a] by { assert [a][..0] == []; }
    assert Reversed([a, b]) == [b, a] by { assert [a, b][..1] == [a]; }
    assert [a, b, c][..2] == [a, b];
  }

  /** `config_merge`: copy `default`, then `<app>`, then `<app>.<instance>`
      into one dict, key by key. */
  method ConfigMerge(c: Config, name: string) returns (result: map<string, string>)
    ensures result == Merged(c, name)
    ensures forall key :: key in result <==> DefinedFor(c, name, key)
    ensures forall key :: key in result ==> FindIn(c, LookupOrder(name), key) == Some(result[key])
  {
    result := map[];
    var sections := MergeOrder(name);
    for i := 0 to |sections|
      invariant result == Layer(c, sections[..i])
    {
      assert sections[..i + 1][..i] == sections[..i];
      var section := sections[i];
      if section in c.sections {
        var contents := c.sections[section];
        var todo := contents.Keys;
        while todo != {}
          invariant todo <= contents.Keys
          invariant result == Layer(c, sections[..i]) + map key | key in contents.Keys - todo :: contents[key]
        {
          var key :| key in todo;
          result := result[key := contents[key]];
          todo := todo - {key};
        }
        assert contents == map key | key in contents.Keys - todo :: contents[key];
      }
    }
    assert sections[..|sections|] == sections;
    MergeAgreesWithLookup(map[], c, name);
  }

  /** The environment variable a configuration key becomes. */
  function EnvName(key: string): string {
    "TARANTOOL_" + Upper(key)
  }

  /** No other key of `m` becomes the same environment variable as `key`. */
  predicate Unambiguous(m: map<string, string>, key: string) {
    forall other :: other in m && other != key ==> EnvName(other) != EnvName(key)
  }

  /** Keys without capitals, as `configparser` delivers them, never collide. */
  lemma {:induction false} LowerCaseKeysUnambiguous(m: map<string, string>)
    requires forall key :: key in m ==> NoCapitals(key)
    ensures forall key :: key in m ==> Unambiguous(m, key)
  {
    forall key, other | key in m && other in m && EnvName(other) == EnvName(key)
      ensures other == key
    {
      var prefix := "TARANTOOL_";
      assert Upper(other) == EnvName(other)[|prefix|..] && Upper(key) == EnvName(key)[|prefix|..];
      UpperInjective(other, key);
    }
  }

  /** `config_to_env`: every key `k` becomes `TARANTOOL_<K>` with its value.
      The dict is walked in no particular order, so when two keys collide
      after upper-casing, either value may survive. */
  method ConfigToEnv(m: map<string, string>) returns (env: map<string, string>)
    ensures forall key :: key in m ==> EnvName(key) in env
    ensures forall e :: e in env ==> exists key :: key in m && EnvName(key) == e && env[e] == m[key]
    ensures forall key :: key in m && Unambiguous(m, key) ==> env[EnvName(key)] == m[key]
    ensures |env| <= |m|
  {
    env := map[];
    var todo := m.Keys;
    // The key each variable was last assigned from.
    ghost var origin: map<string, string> := map[];
    while todo != {}
      invariant todo <= m.Keys
      invariant forall key :: key in m && key !in todo ==> EnvName(key) in env
      invariant env.Keys == origin.Keys
      invariant forall e :: e in origin ==> origin[e] in m && EnvName(origin[e]) == e && env[e] == m[origin[e]]
      invariant |env| + |todo| <= |m|
    {
      var key :| key in todo;
      UpdateSize(env, EnvName(key), m[key]);
      env := env[EnvName(key) := m[key]];
      origin := origin[EnvName(key) := key];
      todo := todo - {key};
    }
    forall e | e in env
      ensures exists key :: key in m && EnvName(key) == e && env[e] == m[key]
    {
      assert origin[e] in m && EnvName(origin[e]) == e && env[e] == m[origin[e]];
    }
    EnvValues(m, env);
  }

  /** Assigning one variable adds at most one entry. */
  lemma UpdateSize(env: map<string, string>, e: string, value: string)
    ensures |env[e := value]| <= |env| + 1
  {
    if e in env {
      assert env[e := value].Keys == env.Keys;
    } else {
      assert env[e := value].Keys == env.Keys + {e};
    }
  }

  /** A key no other key collides with keeps its own value. */
  lemma EnvValues(m: map<string, string>, env: map<string, string>)
    requires forall e :: e in env ==> exists key :: key in m && EnvName(key) == e && env[e] == m[key]
    requires forall key :: key in m ==> EnvName(key) in env
    ensures forall key :: key in m && Unambiguous(m, key) ==> env[EnvName(key)] == m[key]
  {
    forall key | key in m && Unambiguous(m, key)
      ensures env[EnvName(key)] == m[key]
    {
      var other :| other in m && EnvName(other) == EnvName(key) && env[EnvName(key)] == m[other];
    }
  }
}
