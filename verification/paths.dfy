/** File-name conventions of the collection runner: the two canonical
    suffixes, the rule that appends one to a bare name, and directory joining. */
module Paths {

  /** Suffix of every collection file the engine is given. */
  const CollectionSuffix: string := ".postman_collection.json"

  /** Suffix of every environment file the engine is given. */
  const EnvironmentSuffix: string := ".postman_environment.json"

  /** JavaScript's `s.endsWith(suffix)` (no position argument). */
  predicate EndsWith(s: string, suffix: string) {
    |suffix| <= |s| && s[|s| - |suffix|..] == suffix
  }

  /** The suffix rule: `name` itself when it already ends with `suffix`,
      otherwise `name` followed by `suffix`. */
  function WithSuffix(name: string, suffix: string): (r: string)
    ensures EndsWith(r, suffix)
    ensures r == name <==> EndsWith(name, suffix)
    ensures r == name || r == name + suffix
  {
    if EndsWith(name, suffix) then name
    else
      assert (name + suffix)[|name|..] == suffix;
      name + suffix
  }

  /** `path.join(dir, name)` for a directory and a single file name,
      without Node's separator normalisation. */
  function Join(dir: string, name: string): (path: string) {
    dir + "/" + name
  }

  /** A joined path starts with the directory and a separator and ends with the name. */
  lemma JoinShape(dir: string, name: string)
    ensures EndsWith(Join(dir, name), name)
    ensures |Join(dir, name)| == |dir| + 1 + |name|
    ensures Join(dir, name)[..|dir|] == dir && Join(dir, name)[|dir|] == '/'
  {
    var r := Join(dir, name);
    assert r[|r| - |name|..] == name;
  }

  /** Applying the suffix rule a second time changes nothing. */
  lemma WithSuffixIdempotent(name: string, suffix: string)
    ensures WithSuffix(WithSuffix(name, suffix), suffix) == WithSuffix(name, suffix)
  {
  }

  /** A string ending in `t` also ends in every suffix `u` of `t`. */
  lemma {:induction false} EndsWithTransitive(s: string, t: string, u: string)
    requires EndsWith(s, t) && EndsWith(t, u)
    ensures EndsWith(s, u)
  {
    assert s[|s| - |u|..] == s[|s| - |t|..][|t| - |u|..];
  }

  /** Joining a directory with a name that already carries the suffix gives a
      path that the suffix rule leaves alone. */
  lemma JoinKeepsSuffix(dir: string, name: string, suffix: string)
    requires EndsWith(name, suffix)
    ensures EndsWith(Join(dir, name), suffix)
    ensures WithSuffix(Join(dir, name), suffix) == Join(dir, name)
  {
    JoinShape(dir, name);
    EndsWithTransitive(Join(dir, name), name, suffix);
  }

  /** Under one directory, different names give different paths. */
  lemma JoinInjective(dir: string, a: string, b: string)
    requires Join(dir, a) == Join(dir, b)
    ensures a == b
  {
    JoinShape(dir, a);
    JoinShape(dir, b);
    assert a == Join(dir, a)[|dir| + 1..];
    assert b == Join(dir, b)[|dir| + 1..];
  }
}
