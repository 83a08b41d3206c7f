/** The boundary to the external collection runner: the options one run is
    started with, and the abstract outcome its completion callback delivers. */
module Engine {
  import opened Basics
  import opened Paths

  /** The inputs of one run: collection, iteration data, environment and school name. */
  datatype Payload = Payload(
    collectionPath: string,
    dataPath: string,
    environmentPath: string,
    schoolName: string)

  /** The options object handed to the engine for one run. */
  datatype EngineCall = EngineCall(
    collection: string,
    environment: string,
    iterationData: string,
    envVarKey: string,
    envVarValue: string,
    reporters: string)

  /** What the completion callback reports: a hard invocation error, and the
      error carried by the run summary (failed assertions), either or both absent. */
  datatype Outcome = Done(error: Option<string>, summaryError: Option<string>) {

    /** The callback sees an error of either kind. */
    predicate Failed() {
      error.Some? || summaryError.Some?
    }

    /** The error that is logged: the hard error when there is one, otherwise the summary's. */
    function Reported(): (e: Option<string>)
      ensures e.Some? <==> Failed()
      ensures error.Some? ==> e == error
      ensures error.None? ==> e == summaryError
    {
      if error.Some? then error else summaryError
    }
  }

  /** Reporter used for every run. */
  const CliReporter: string := "cli"

  /** The options for one run: both paths go through their suffix rule, the data
      path is passed as is, and the school name is bound to `key`. */
  function RunOptions(p: Payload, key: string): (c: EngineCall)
    ensures c.iterationData == p.dataPath && c.envVarKey == key && c.envVarValue == p.schoolName
    ensures c.reporters == CliReporter
  {
    EngineCall(
      WithSuffix(p.collectionPath, CollectionSuffix),
      WithSuffix(p.environmentPath, EnvironmentSuffix),
      p.dataPath,
      key,
      p.schoolName,
      CliReporter)
  }

  /** The collection and environment paths a run is given carry their suffixes,
      extend the paths passed in, and equal them exactly when those already did. */
  lemma RunOptionsPaths(p: Payload, key: string)
    ensures var c := RunOptions(p, key);
      && EndsWith(c.collection, CollectionSuffix) && EndsWith(c.environment, EnvironmentSuffix)
      && (c.collection == p.collectionPath <==> EndsWith(p.collectionPath, CollectionSuffix))
      && (c.environment == p.environmentPath <==> EndsWith(p.environmentPath, EnvironmentSuffix))
      && p.collectionPath <= c.collection && p.environmentPath <= c.environment
  {
  }
}
