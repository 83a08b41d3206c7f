/** The command-line flags both command variants read, and the environment
    path they derive from them. */
module CommandFlags {
  import opened Basics
  import opened Paths

  /** Flag values after parsing (defaults already applied by the flag parser). */
  datatype Flags = Flags(
    collectionPath: string,
    dataPath: string,
    env: string,
    envPath: Option<string>,
    schoolName: string)

  /** Directory searched for the environment file: `--envPath` when given,
      the collection directory otherwise. */
  function EnvDir(flags: Flags): (dir: string)
    ensures flags.envPath.None? ==> dir == flags.collectionPath
    ensures flags.envPath.Some? ==> dir == flags.envPath.value
  {
    if flags.envPath.None? then flags.collectionPath else flags.envPath.value
  }

  /** The environment file path: the environment directory joined with the
      `--env` name after the environment suffix rule. */
  function EnvironmentPath(flags: Flags): (p: string)
    ensures EndsWith(p, EnvironmentSuffix)
    ensures |p| > |EnvDir(flags)| && p[..|EnvDir(flags)|] == EnvDir(flags) && p[|EnvDir(flags)|] == '/'
    ensures WithSuffix(p, EnvironmentSuffix) == p
  {
    var envFile := WithSuffix(flags.env, EnvironmentSuffix);
    JoinKeepsSuffix(EnvDir(flags), envFile, EnvironmentSuffix);
    Join(EnvDir(flags), envFile)
  }

  /** The environment path spelled out: the directory, a separator, the `--env`
      name, and the environment suffix unless the name already carries it. */
  lemma EnvironmentPathSpelledOut(flags: Flags)
    ensures EndsWith(flags.env, EnvironmentSuffix) ==>
      EnvironmentPath(flags) == EnvDir(flags) + "/" + flags.env
    ensures !EndsWith(flags.env, EnvironmentSuffix) ==>
      EnvironmentPath(flags) == EnvDir(flags) + "/" + flags.env + EnvironmentSuffix
  {
  }
}
