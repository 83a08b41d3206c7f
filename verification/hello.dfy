/** The older `hello runner` command: resolves the paths from the flags and
    starts five runs in a fixed order, passing the school name under `name`. */
module HelloCommand {
  import opened Paths
  import opened CommandFlags
  import opened Steps
  import opened Engine

  /** Key under which this command passes the school name to each run. */
  const RuntimeVariableKey: string := "name"

  /** The steps this command runs, in order (no add-students step). */
  const HelloPlan: seq<Step> := [SetupSchool, SetupAyGrades, CreateTimetable, AddTeachers, DeleteSchool]

  /** The engine options for one run. */
  function RunTestsCall(p: Payload): (c: EngineCall)
    ensures c.iterationData == p.dataPath
    ensures c.envVarKey == "name" && c.envVarValue == p.schoolName
  {
    RunOptions(p, RuntimeVariableKey)
  }

  /** The command: the inputs of the runs it starts, in the order it starts them. */
  function Run(flags: Flags): (runs: seq<Payload>)
    ensures |runs| == |HelloPlan|
    ensures forall i :: 0 <= i < |runs| ==> runs[i] == ResolvedPayload(flags, HelloPlan[i])
  {
    var envDir := EnvDir(flags);
    var envFile := WithSuffix(flags.env, EnvironmentSuffix);
    var envPath := Join(envDir, envFile);

    var schoolDataPath := Join(flags.dataPath, "school.json");
    var teachersDataPath := Join(flags.dataPath, "teachers.json");
    var timetablesDataPath := Join(flags.dataPath, "timetables.json");

    var deleteSchool := Join(flags.collectionPath, "delete-school");
    var setupSchool := Join(flags.collectionPath, "setup-school");
    var setupAyGrades := Join(flags.collectionPath, "setup-ay-grades");
    var addTeachers := Join(flags.collectionPath, "add-teachers");
    var createTimetable := Join(flags.collectionPath, "create-timetable");

    [
      Payload(setupSchool, schoolDataPath, envPath, flags.schoolName),
      Payload(setupAyGrades, schoolDataPath, envPath, flags.schoolName),
      Payload(createTimetable, timetablesDataPath, envPath, flags.schoolName),
      Payload(addTeachers, teachersDataPath, envPath, flags.schoolName),
      Payload(deleteSchool, schoolDataPath, envPath, flags.schoolName)
    ]
  }

  /** What the engine is given for each run: the collection path with the
      suffix appended, the environment path unchanged by the second application
      of its suffix rule, the paired data file, and the school name under `name`. */
  lemma RunCalls(flags: Flags, i: nat)
    requires i < |HelloPlan|
    ensures var step := HelloPlan[i];
      RunTestsCall(Run(flags)[i]) == EngineCall(
        Join(flags.collectionPath, CollectionName(step)) + CollectionSuffix,
        EnvironmentPath(flags),
        Join(flags.dataPath, DataFileName(DataFor(step))),
        "name",
        flags.schoolName,
        CliReporter)
  {
    CollectionPathGetsSuffix(flags.collectionPath, HelloPlan[i]);
  }

  /** All five runs share the environment path and the school name. */
  lemma RunsShareEnvironment(flags: Flags)
    ensures forall i :: 0 <= i < |Run(flags)| ==>
      Run(flags)[i].environmentPath == EnvironmentPath(flags) && Run(flags)[i].schoolName == flags.schoolName
  {
  }

  /** No run of this command uses the add-students collection or the students data file. */
  lemma NoStudentsRun(flags: Flags)
    ensures forall i :: 0 <= i < |Run(flags)| ==>
      && Run(flags)[i].collectionPath != ResolvedPayload(flags, AddStudents).collectionPath
      && Run(flags)[i].dataPath != ResolvedPayload(flags, AddStudents).dataPath
  {
    var runs := Run(flags);
    forall i | 0 <= i < |runs|
      ensures runs[i].collectionPath != ResolvedPayload(flags, AddStudents).collectionPath
      ensures runs[i].dataPath != ResolvedPayload(flags, AddStudents).dataPath
    {
      ResolvedPayloadsDiffer(flags, HelloPlan[i], AddStudents);
    }
  }

  /** This command's order is the setup-all plan without its add-students step,
      followed by the delete plan. */
  lemma HelloPlanIsDefaultWithoutStudents()
    ensures HelloPlan == SetupAllPlan[..4] + DeletePlan
    ensures AddStudents !in HelloPlan
  {
  }
}
