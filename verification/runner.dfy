/** The `runner` command: resolves every path once from the flags, builds the
    payloads of each step, and starts one executor per selected plan. */
module RunnerCommand {
  import opened Basics
  import opened Paths
  import opened CommandFlags
  import opened Steps
  import opened Engine
  import opened Executor

  /** The error thrown for a `--tests` name that selects no plan. */
  datatype Error = NotImplemented(test: string)

  /** What the command returns, or the error it throws. */
  datatype Result = Ok(code: int) | Err(error: Error)

  /** The paths the command resolves once from its flags: the environment
      file, the school name, one path per collection and one per data file. */
  datatype Props = Props(
    environmentPath: string,
    schoolName: string,
    setupSchool: string,
    setupAyGrades: string,
    createTimetable: string,
    addTeachers: string,
    addStudents: string,
    deleteSchool: string,
    schoolDataPath: string,
    teachersDataPath: string,
    studentsDataPath: string,
    timetablesDataPath: string)
  {
    /** The path held for a collection. */
    function CollectionPath(step: Step): (path: string) {
      match step
      case SetupSchool => setupSchool
      case SetupAyGrades => setupAyGrades
      case CreateTimetable => createTimetable
      case AddTeachers => addTeachers
      case AddStudents => addStudents
      case DeleteSchool => deleteSchool
    }

    /** The path held for a data file. */
    function DataPath(data: DataFile): (path: string) {
      match data
      case SchoolData => schoolDataPath
      case TeachersData => teachersDataPath
      case StudentsData => studentsDataPath
      case TimetablesData => timetablesDataPath
    }

    /** Every path is the one the flags resolve to. */
    predicate ResolvedFrom(flags: Flags) {
      && environmentPath == EnvironmentPath(flags)
      && schoolName == flags.schoolName
      && setupSchool == Join(flags.collectionPath, CollectionName(SetupSchool))
      && setupAyGrades == Join(flags.collectionPath, CollectionName(SetupAyGrades))
      && createTimetable == Join(flags.collectionPath, CollectionName(CreateTimetable))
      && addTeachers == Join(flags.collectionPath, CollectionName(AddTeachers))
      && addStudents == Join(flags.collectionPath, CollectionName(AddStudents))
      && deleteSchool == Join(flags.collectionPath, CollectionName(DeleteSchool))
      && schoolDataPath == Join(flags.dataPath, DataFileName(SchoolData))
      && teachersDataPath == Join(flags.dataPath, DataFileName(TeachersData))
      && studentsDataPath == Join(flags.dataPath, DataFileName(StudentsData))
      && timetablesDataPath == Join(flags.dataPath, DataFileName(TimetablesData))
    }

    /** The payload of one step: its collection, the data file it is paired
        with, and the shared environment path and school name. */
    function Content(step: Step): (p: Payload)
      ensures p.collectionPath == CollectionPath(step)
      ensures p.dataPath == DataPath(DataFor(step))
      ensures p.environmentPath == environmentPath && p.schoolName == schoolName
    {
      match step
      case SetupSchool => Payload(setupSchool, schoolDataPath, environmentPath, schoolName)
      case SetupAyGrades => Payload(setupAyGrades, schoolDataPath, environmentPath, schoolName)
      case CreateTimetable => Payload(createTimetable, timetablesDataPath, environmentPath, schoolName)
      case AddTeachers => Payload(addTeachers, teachersDataPath, environmentPath, schoolName)
      case AddStudents => Payload(addStudents, studentsDataPath, environmentPath, schoolName)
      case DeleteSchool => Payload(deleteSchool, schoolDataPath, environmentPath, schoolName)
    }

    /** The payloads of the `setup-all` plan, in plan order. */
    function AllSetupSteps(): (r: seq<Payload>)
      ensures |r| == |SetupAllPlan|
      ensures forall i :: 0 <= i < |r| ==> r[i] == Content(SetupAllPlan[i])
    {
      [
        Content(SetupSchool),
        Content(SetupAyGrades),
        Content(CreateTimetable),
        Content(AddTeachers),
        Content(AddStudents)
      ]
    }

    /** The payloads of the `delete` plan. */
    function DeleteSteps(): (r: seq<Payload>)
      ensures |r| == |DeletePlan|
      ensures forall i :: 0 <= i < |r| ==> r[i] == Content(DeletePlan[i])
    {
      [Content(DeleteSchool)]
    }

    /** The payloads of the default plan: setup-all's, then delete's. */
    function AllSteps(): (r: seq<Payload>)
      ensures |r| == |DefaultPlan|
      ensures forall i :: 0 <= i < |r| ==> r[i] == Content(DefaultPlan[i])
    {
      AllSetupSteps() + DeleteSteps()
    }

    /** The payloads a `--tests` name selects, if it names a plan. */
    function PayloadsNamed(test: string): (r: Option<seq<Payload>>)
      ensures r.Some? <==> PlanNamed(test).Some?
      ensures test == "setup-all" ==> r == Some(AllSetupSteps())
      ensures test == "delete" ==> r == Some(DeleteSteps())
    {
      if test == "setup-all" then Some(AllSetupSteps())
      else if test == "delete" then Some(DeleteSteps())
      else None
    }

    /** The outcome of handling `tests` in order: one started plan per name up
        to the first unrecognised one, which is thrown; 0 when all are recognised. */
    predicate HandledInOrder(tests: seq<string>, r: Result, started: seq<seq<Payload>>) {
      var k := FirstUnknown(tests);
      && |started| == k
      && (forall i :: 0 <= i < k ==> Some(started[i]) == PayloadsNamed(tests[i]))
      && r == if k == |tests| then Ok(0) else Err(NotImplemented(tests[k]))
    }
  }

  /** The record of a command object whose paths have not been resolved yet:
      every field is empty. */
  const Unresolved: Props := Props("", "", "", "", "", "", "", "", "", "", "", "")

  /** No flags resolve to the unresolved record: a resolved environment path
      always carries its suffix. */
  lemma UnresolvedMatchesNoFlags(flags: Flags)
    ensures !Unresolved.ResolvedFrom(flags)
  {
    assert |EnvironmentPath(flags)| > 0;
  }

  /** The command object; its resolved paths are assigned once by `InitProps`. */
  class Runner {
    var props: Props

    /** The command object exists before `run()`; its paths are still unset. */
    constructor ()
      ensures props == Unresolved
    {
      props := Unresolved;
    }

    /** Resolves the environment, data and collection paths from the flags. */
    method InitProps(flags: Flags)
      modifies this
      ensures props.ResolvedFrom(flags)
    {
      var envDir := EnvDir(flags);
      var envFile := WithSuffix(flags.env, EnvironmentSuffix);
      props := Props(
        environmentPath := Join(envDir, envFile),
        schoolName := flags.schoolName,
        schoolDataPath := Join(flags.dataPath, "school.json"),
        teachersDataPath := Join(flags.dataPath, "teachers.json"),
        studentsDataPath := Join(flags.dataPath, "students.json"),
        timetablesDataPath := Join(flags.dataPath, "timetables.json"),
        deleteSchool := Join(flags.collectionPath, "delete-school"),
        setupSchool := Join(flags.collectionPath, "setup-school"),
        setupAyGrades := Join(flags.collectionPath, "setup-ay-grades"),
        addTeachers := Join(flags.collectionPath, "add-teachers"),
        addStudents := Join(flags.collectionPath, "add-students"),
        createTimetable := Join(flags.collectionPath, "create-timetable"));
    }

    /** Handles the `--tests` names strictly in list order, starting an
        executor over each recognised name's payloads, and throwing at the
        first name that selects no plan. */
    method RunTestOptions(tests: seq<string>) returns (r: Result, started: seq<seq<Payload>>)
      ensures props.HandledInOrder(tests, r, started)
    {
      started := [];
      var index := 0;
      while index < |tests|
        invariant index <= FirstUnknown(tests)
        invariant |started| == index
        invariant forall i :: 0 <= i < index ==> Some(started[i]) == props.PayloadsNamed(tests[i])
      {
        var test := tests[index];
        if test == "setup-all" {
          started := started + [props.AllSetupSteps()];
        } else if test == "delete" {
          started := started + [props.DeleteSteps()];
        } else {
          return Err(NotImplemented(test)), started;
        }
        index := index + 1;
      }
      return Ok(0), started;
    }

    /** The command: resolve the paths, then start the default plan when no
        `--tests` flag is given, and the named plans otherwise. */
    method Run(flags: Flags, tests: Option<seq<string>>) returns (r: Result, started: seq<seq<Payload>>)
      modifies this
      ensures props.ResolvedFrom(flags)
      ensures tests.None? ==> r == Ok(0) && started == [props.AllSteps()]
      ensures tests.Some? ==> props.HandledInOrder(tests.value, r, started)
    {
      InitProps(flags);
      if tests.None? {
        return Ok(0), [props.AllSteps()];
      }
      r, started := RunTestOptions(tests.value);
    }
  }

  /** Once initialised, every step's payload is the one the flags determine. */
  lemma ContentResolved(props: Props, flags: Flags, step: Step)
    requires props.ResolvedFrom(flags)
    ensures props.Content(step) == ResolvedPayload(flags, step)
  {
  }

  /** All payloads of one invocation share the environment path and the
      school name; any two of them differ in their collection path. */
  lemma PayloadsShareEnvironment(props: Props, flags: Flags)
    requires props.ResolvedFrom(flags)
    ensures forall i :: 0 <= i < |props.AllSteps()| ==>
      props.AllSteps()[i].environmentPath == EnvironmentPath(flags) && props.AllSteps()[i].schoolName == flags.schoolName
    ensures forall i, j :: 0 <= i < j < |props.AllSteps()| ==>
      props.AllSteps()[i].collectionPath != props.AllSteps()[j].collectionPath
  {
    var all := props.AllSteps();
    DefaultPlanShape();
    forall i, j | 0 <= i < j < |all| ensures all[i].collectionPath != all[j].collectionPath {
      ContentResolved(props, flags, DefaultPlan[i]);
      ContentResolved(props, flags, DefaultPlan[j]);
      ResolvedPayloadsDiffer(flags, DefaultPlan[i], DefaultPlan[j]);
    }
  }

  /** Selecting `setup-all` then `delete` starts the same payloads as the
      default plan, split across two executors started one after the other. */
  lemma ExplicitSelectionMatchesDefault(props: Props)
    ensures props.PayloadsNamed("setup-all").value + props.PayloadsNamed("delete").value == props.AllSteps()
  {
  }

  /** Selecting `setup-all` then `delete` starts the delete executor right
      after the setup executor, without waiting for it: delete-school is run
      whatever the setup runs report, since no setup outcome enters its chain. */
  lemma ExplicitSelectionDeletesRegardless(props: Props, r: Result, started: seq<seq<Payload>>, deleteOutcomes: seq<Outcome>)
    requires props.HandledInOrder(["setup-all", "delete"], r, started)
    requires |deleteOutcomes| == 1
    ensures r == Ok(0) && started == [props.AllSetupSteps(), props.DeleteSteps()]
    ensures Chain(started[1], deleteOutcomes, 0).runs == [props.Content(DeleteSchool)]
  {
    assert PlanNamed(["setup-all", "delete"][0]).Some?;
    assert PlanNamed(["setup-all", "delete"][1]).Some?;
  }

  /** The default chain, by contrast, reaches delete-school (its sixth and last
      run) exactly when none of the five setup runs failed. */
  lemma DefaultDeletesOnlyAfterCleanSetup(props: Props, outcomes: seq<Outcome>)
    requires |outcomes| == |props.AllSteps()|
    ensures |Chain(props.AllSteps(), outcomes, 0).runs| == |props.AllSteps()|
      <==> forall i :: 0 <= i < |SetupAllPlan| ==> !outcomes[i].Failed()
  {
    ChainClosedForm(props.AllSteps(), outcomes, 0);
  }

  /** What the engine is given for each step: the collection path with the
      suffix appended, and the environment path unchanged by the second
      application of its suffix rule. */
  lemma RunCallResolved(props: Props, flags: Flags, step: Step)
    requires props.ResolvedFrom(flags)
    ensures RunTestsCall(props.Content(step)) == EngineCall(
      Join(flags.collectionPath, CollectionName(step)) + CollectionSuffix,
      EnvironmentPath(flags),
      Join(flags.dataPath, DataFileName(DataFor(step))),
      "school_name",
      flags.schoolName,
      CliReporter)
  {
    ContentResolved(props, flags, step);
    CollectionPathGetsSuffix(flags.collectionPath, step);
    RunTestsCallPaths(props.Content(step));
  }

  /** An empty `--tests` list starts nothing and returns 0. */
  lemma EmptySelectionStartsNothing(props: Props, r: Result, started: seq<seq<Payload>>)
    ensures props.HandledInOrder([], r, started) <==> r == Ok(0) && started == []
  {
  }

  /** An unknown name is thrown only when its turn comes: the plans named
      before it have already been started. */
  lemma UnknownNameAfterSetupAll(props: Props, r: Result, started: seq<seq<Payload>>)
    requires props.HandledInOrder(["setup-all", "bogus"], r, started)
    ensures started == [props.AllSetupSteps()]
    ensures r == Err(NotImplemented("bogus"))
  {
    assert PlanNamed(["setup-all", "bogus"][0]).Some?;
    assert PlanNamed(["setup-all", "bogus"][1]).None?;
  }

  /** Flag parsing admits only `setup-all` and `delete` as `--tests` names.
      Handling such a list never throws and starts one plan per name; a throw
      happens exactly when some name lies outside that set. */
  lemma ParsableNamesNeverThrow(props: Props, tests: seq<string>, r: Result, started: seq<seq<Payload>>)
    requires props.HandledInOrder(tests, r, started)
    ensures r == Ok(0) <==> forall i :: 0 <= i < |tests| ==> tests[i] == "setup-all" || tests[i] == "delete"
    ensures r == Ok(0) ==> |started| == |tests|
  {
    var k := FirstUnknown(tests);
    if k < |tests| {
      assert !(tests[k] == "setup-all" || tests[k] == "delete");
    }
  }

  /** The flags of a concrete invocation: `--collectionPath /c --dataPath /d
      --env staging --envPath /e --schoolName Acme`. */
  const ConcreteFlags: Flags := Flags("/c", "/d", "staging", Some("/e"), "Acme")

  /** In that invocation the environment file is looked up under `/e`. */
  lemma ConcreteEnvironmentPath()
    ensures EnvironmentPath(ConcreteFlags) == "/e/staging" + EnvironmentSuffix
  {
    EnvironmentPathSpelledOut(ConcreteFlags);
    assert "/e" + "/" + "staging" == "/e/staging";
  }

  /** In that invocation the setup-school run gets its canonical collection
      file and the school data file. */
  lemma ConcreteSetupSchoolCall()
    ensures RunTestsCall(ResolvedPayload(ConcreteFlags, SetupSchool)).collection == "/c/setup-school" + CollectionSuffix
    ensures RunTestsCall(ResolvedPayload(ConcreteFlags, SetupSchool)).iterationData == "/d/school.json"
    ensures RunTestsCall(ResolvedPayload(ConcreteFlags, SetupSchool)).envVarValue == "Acme"
  {
    var payload := ResolvedPayload(ConcreteFlags, SetupSchool);
    assert payload.collectionPath == "/c/setup-school";
    assert !EndsWith(payload.collectionPath, CollectionSuffix);
    RunTestsCallPaths(payload);
  }
}
