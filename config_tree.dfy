/**
 * The configuration the supervisor reads from its ini file, and the names of
 * its sections: `default`, `<app>` and `<app>.<instance>`.
 */
module ConfigTree {
  import opened Text

  /** One section: key to string value. */
  type Section = map<string, string>

  /** The parsed ini file: section names in file order, and each section's
      contents. `configparser` hands the supervisor a dict of dicts; a dict
      remembers insertion order, which `order` records. */
  datatype Config = Config(order: seq<string>, sections: map<string, Section>)

  /** What a Python dict guarantees: each section name occurs once in the
      order, and the order lists exactly the sections there are. */
  predicate WellFormed(c: Config) {
    && (forall i, j :: 0 <= i < j < |c.order| ==> c.order[i] != c.order[j])
    && c.sections.Keys == set name | name in c.order
  }

  /** The section called `name`, or an empty one when there is none; the
      callers only ever look into a section after `section in config`. */
  function SectionOf(c: Config, name: string): Section {
    if name in c.sections then c.sections[name] else map[]
  }

  /** `instance_split`: the application part before the first `.` and the
      instance part after it (empty when there is no `.`). */
  function InstanceSplit(name: string): (r: (string, string))
    ensures '.' !in r.0
    ensures '.' in name ==> r.0 + "." + r.1 == name
    ensures '.' !in name ==> r.0 == name && r.1 == ""
  {
    Partition(name, '.')
  }

  /** Joining an application name (which has no `.`) and any instance part
      with `.` and splitting again gives back the two parts. */
  lemma JoinThenSplit(app: string, instance: string)
    requires '.' !in app
    ensures InstanceSplit(app + "." + instance) == (app, instance)
  {
    PartitionFirst(app, '.', instance);
  }
}
