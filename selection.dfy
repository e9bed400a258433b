/**
 * Which instances a `start` or `stop` command acts on: `get_instances` and
 * the copy of its loop inside `start`. A filter `app.instance` that names a
 * section selects that one instance; otherwise the sections are scanned in
 * file order, and a section `app.instance` with a non-empty instance part is
 * taken when the filter's instance part is empty and its application part is
 * empty or equal, or when it equals the filter exactly.
 */
module Selection {
  import opened Text
  import opened ConfigTree

  /** The test the scanning loop applies to one section name. */
  predicate Matches(key: string, filter: string) {
    var (app, instance) := InstanceSplit(filter);
    var (keyApp, keyInstance) := InstanceSplit(key);
    && key != "default"
    && keyInstance != ""
    && (if instance != "" then key == filter else app == "" || keyApp == app)
  }

  /** The shortcut taken before any scanning: a full `app.instance` filter
      that names a section. */
  predicate NamesSection(c: Config, filter: string) {
    InstanceSplit(filter).1 != "" && filter in c.sections
  }

  /** The names among `keys` that match, in their order. */
  function Chosen(keys: seq<string>, filter: string): seq<string> {
    if keys == [] then []
    else Chosen(keys[..|keys| - 1], filter) + if Matches(keys[|keys| - 1], filter) then [keys[|keys| - 1]] else []
  }

  /** What `get_instances` returns. */
  function Selected(c: Config, filter: string): seq<string> {
    if NamesSection(c, filter) then [filter] else Chosen(c.order, filter)
  }

  /** `get_instances`: the shortcut, or one pass over the sections appending
      every match. */
  method GetInstances(c: Config, filter: string) returns (result: seq<string>)
    ensures result == Selected(c, filter)
  {
    var (app, instance) := InstanceSplit(filter);
    if instance != "" && filter in c.sections {
      return [filter];
    }
    result := [];
    for i := 0 to |c.order|
      invariant result == Chosen(c.order[..i], filter)
    {
      assert c.order[..i + 1][..i] == c.order[..i];
      var key := c.order[i];
      if key != "default" {
        var (keyApp, keyInstance) := InstanceSplit(key);
        if keyInstance != "" {
          if instance != "" {
            if key == filter {
              result := result + [key];
            }
          } else if app == "" || keyApp == app {
            result := result + [key];
          }
        }
      }
    }
    assert c.order[..|c.order|] == c.order;
  }

  /** `r` is `s` with some elements left out, the rest kept in order. */
  predicate IsSubsequence<T(==)>(r: seq<T>, s: seq<T>) {
    if r == [] then true
    else if s == [] then false
    else if r[|r| - 1] == s[|s| - 1] then IsSubsequence(r[..|r| - 1], s[..|s| - 1])
    else IsSubsequence(r, s[..|s| - 1])
  }

  predicate NoDuplicates<T(==)>(s: seq<T>) {
    forall i, j :: 0 <= i < j < |s| ==> s[i] != s[j]
  }

  /** The chosen names are exactly the matching ones, kept in the order of
      `keys`, each once when `keys` holds each once. */
  lemma ChosenExactly(keys: seq<string>, filter: string)
    ensures forall key :: key in Chosen(keys, filter) <==> key in keys && Matches(key, filter)
    ensures IsSubsequence(Chosen(keys, filter), keys)
    ensures NoDuplicates(keys) ==> NoDuplicates(Chosen(keys, filter))
  {
    ChosenMembers(keys, filter);
    ChosenInOrder(keys, filter);
    if NoDuplicates(keys) {
      ChosenOnce(keys, filter);
    }
  }

  lemma {:induction false} ChosenMembers(keys: seq<string>, filter: string)
    ensures forall key :: key in Chosen(keys, filter) <==> key in keys && Matches(key, filter)
  {
    if keys != [] {
      var init, last := keys[..|keys| - 1], keys[|keys| - 1];
      ChosenMembers(init, filter);
      assert keys == init + [last];
    }
  }

  lemma {:induction false} ChosenInOrder(keys: seq<string>, filter: string)
    ensures IsSubsequence(Chosen(keys, filter), keys)
  {
    if keys != [] {
      var init, last := keys[..|keys| - 1], keys[|keys| - 1];
      ChosenInOrder(init, filter);
      ChosenMembers(init, filter);
      var r := Chosen(keys, filter);
      assert keys[..|keys| - 1] == init;
      if Matches(last, filter) {
        assert r == Chosen(init, filter) + [last];
        assert r[..|r| - 1] == Chosen(init, filter);
      } else {
        assert r == Chosen(init, filter);
        if r != [] {
          assert Matches(r[|r| - 1], filter);
          assert IsSubsequence(r, init);
        }
      }
    }
  }

  lemma {:induction false} ChosenOnce(keys: seq<string>, filter: string)
    requires NoDuplicates(keys)
    ensures NoDuplicates(Chosen(keys, filter))
  {
    if keys != [] {
      var init, last := keys[..|keys| - 1], keys[|keys| - 1];
      assert NoDuplicates(init);
      ChosenOnce(init, filter);
      ChosenMembers(init, filter);
      assert last !in init;
    }
  }

  /** Scanning part of the sections chooses a prefix of what scanning all
      of them chooses: a loop that stops early has visited a prefix. */
  lemma {:induction false} ChosenPrefix(keys: seq<string>, n: nat, filter: string)
    requires n <= |keys|
    ensures Chosen(keys[..n], filter) <= Chosen(keys, filter)
    decreases |keys|
  {
    if n < |keys| {
      var init := keys[..|keys| - 1];
      assert keys[..n] == init[..n];
      ChosenPrefix(init, n, filter);
    } else {
      assert keys[..n] == keys;
    }
  }

  /** Full filter `app.instance`: the singleton when that section exists,
      nothing otherwise. */
  lemma InstanceFilter(c: Config, filter: string)
    requires WellFormed(c)
    requires InstanceSplit(filter).1 != ""
    ensures Selected(c, filter) == if filter in c.sections then [filter] else []
  {
    if filter !in c.sections {
      ChosenNone(c.order, filter);
    }
  }

  /** Nothing is chosen from names none of which match. */
  lemma {:induction false} ChosenNone(keys: seq<string>, filter: string)
    requires forall key :: key in keys ==> !Matches(key, filter)
    ensures Chosen(keys, filter) == []
  {
    if keys != [] {
      ChosenNone(keys[..|keys| - 1], filter);
    }
  }

  /** Application filter `app` (no instance part): every declared instance
      of that application, in file order, each once. */
  lemma ApplicationFilter(c: Config, filter: string)
    requires WellFormed(c)
    requires InstanceSplit(filter).1 == "" && InstanceSplit(filter).0 != ""
    ensures forall key :: key in Selected(c, filter) <==>
              key in c.sections && InstanceSplit(key).0 == InstanceSplit(filter).0 && InstanceSplit(key).1 != ""
    ensures IsSubsequence(Selected(c, filter), c.order)
    ensures NoDuplicates(Selected(c, filter))
  {
    ChosenExactly(c.order, filter);
  }

  /** Empty filter: every declared instance of every application, in file
      order, each once. (A filter of just "." behaves the same.) */
  lemma EveryInstance(c: Config, filter: string)
    requires WellFormed(c)
    requires InstanceSplit(filter) == ("", "")
    ensures forall key :: key in Selected(c, filter) <==> key in c.sections && InstanceSplit(key).1 != ""
    ensures IsSubsequence(Selected(c, filter), c.order)
    ensures NoDuplicates(Selected(c, filter))
  {
    ChosenExactly(c.order, filter);
  }
}
