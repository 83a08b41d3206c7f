/** The fixed catalogue of steps: which collections exist, which iteration
    data file each one is run with, and the named plans that order them. */
module Steps {
  import opened Basics
  import opened Paths
  import opened CommandFlags
  import opened Engine

  /** One logical collection of the pipeline. */
  datatype Step = SetupSchool | SetupAyGrades | CreateTimetable | AddTeachers | AddStudents | DeleteSchool

  /** One iteration data file under the data directory. */
  datatype DataFile = SchoolData | TeachersData | StudentsData | TimetablesData

  /** File name of a collection under the collection directory (before the
      suffix rule): a single path segment that never carries the suffix. */
  function CollectionName(step: Step): (name: string)
    ensures '/' !in name
    ensures !EndsWith(name, CollectionSuffix)
  {
    match step
    case SetupSchool => "setup-school"
    case SetupAyGrades => "setup-ay-grades"
    case CreateTimetable => "create-timetable"
    case AddTeachers => "add-teachers"
    case AddStudents => "add-students"
    case DeleteSchool => "delete-school"
  }

  /** File name of an iteration data file under the data directory: a single
      path segment naming a JSON file. */
  function DataFileName(data: DataFile): (name: string)
    ensures '/' !in name
    ensures EndsWith(name, ".json")
  {
    match data
    case SchoolData => "school.json"
    case TeachersData => "teachers.json"
    case StudentsData => "students.json"
    case TimetablesData => "timetables.json"
  }

  /** The data file each collection is paired with. */
  function DataFor(step: Step): (data: DataFile)
    ensures data == SchoolData <==> step in {SetupSchool, SetupAyGrades, DeleteSchool}
    ensures data == TimetablesData <==> step == CreateTimetable
    ensures data == TeachersData <==> step == AddTeachers
    ensures data == StudentsData <==> step == AddStudents
  {
    match step
    case SetupSchool => SchoolData
    case SetupAyGrades => SchoolData
    case CreateTimetable => TimetablesData
    case AddTeachers => TeachersData
    case AddStudents => StudentsData
    case DeleteSchool => SchoolData
  }

  /** The inputs a step's run gets from the flags: its collection under the
      collection directory, its paired data file under the data directory, and
      the environment path and school name every step shares. */
  function ResolvedPayload(flags: Flags, step: Step): (p: Payload) {
    Payload(
      Join(flags.collectionPath, CollectionName(step)),
      Join(flags.dataPath, DataFileName(DataFor(step))),
      EnvironmentPath(flags),
      flags.schoolName)
  }

  /** The `setup-all` plan. */
  const SetupAllPlan: seq<Step> := [SetupSchool, SetupAyGrades, CreateTimetable, AddTeachers, AddStudents]

  /** The `delete` plan. */
  const DeletePlan: seq<Step> := [DeleteSchool]

  /** The plan run when no `--tests` flag is given. */
  const DefaultPlan: seq<Step> := SetupAllPlan + DeletePlan

  /** The plan a `--tests` name selects, if the name is recognised. */
  function PlanNamed(test: string): (plan: Option<seq<Step>>)
    ensures plan.Some? <==> test == "setup-all" || test == "delete"
    ensures test == "setup-all" ==> plan == Some(SetupAllPlan)
    ensures test == "delete" ==> plan == Some(DeletePlan)
  {
    if test == "setup-all" then Some(SetupAllPlan)
    else if test == "delete" then Some(DeletePlan)
    else None
  }

  /** Position of the first unrecognised name in `tests`, or `|tests|` when
      every name is recognised. */
  function FirstUnknown(tests: seq<string>): (k: nat)
    ensures k <= |tests|
    ensures forall i :: 0 <= i < k ==> PlanNamed(tests[i]).Some?
    ensures k < |tests| ==> PlanNamed(tests[k]).None?
  {
    if tests == [] then 0
    else if PlanNamed(tests[0]).None? then 0
    else 1 + FirstUnknown(tests[1..])
  }

  /** Different collections live in differently named files. */
  lemma CollectionNamesDistinct(s: Step, t: Step)
    requires s != t
    ensures CollectionName(s) != CollectionName(t)
  {
  }

  /** Different data files have different names. */
  lemma DataFileNamesDistinct(d: DataFile, e: DataFile)
    requires d != e
    ensures DataFileName(d) != DataFileName(e)
  {
  }

  /** Two different steps run different collection files, and steps paired
      with different data files read different data paths. */
  lemma ResolvedPayloadsDiffer(flags: Flags, s: Step, t: Step)
    ensures s != t ==> ResolvedPayload(flags, s).collectionPath != ResolvedPayload(flags, t).collectionPath
    ensures DataFor(s) != DataFor(t) ==> ResolvedPayload(flags, s).dataPath != ResolvedPayload(flags, t).dataPath
  {
    if s != t && ResolvedPayload(flags, s).collectionPath == ResolvedPayload(flags, t).collectionPath {
      JoinInjective(flags.collectionPath, CollectionName(s), CollectionName(t));
      CollectionNamesDistinct(s, t);
    }
    if DataFor(s) != DataFor(t) && ResolvedPayload(flags, s).dataPath == ResolvedPayload(flags, t).dataPath {
      JoinInjective(flags.dataPath, DataFileName(DataFor(s)), DataFileName(DataFor(t)));
      DataFileNamesDistinct(DataFor(s), DataFor(t));
    }
  }

  /** The default plan is six distinct steps: setup-all's five, then delete-school. */
  lemma DefaultPlanShape()
    ensures |DefaultPlan| == 6
    ensures DefaultPlan == [SetupSchool, SetupAyGrades, CreateTimetable, AddTeachers, AddStudents, DeleteSchool]
    ensures forall i, j :: 0 <= i < j < |DefaultPlan| ==> DefaultPlan[i] != DefaultPlan[j]
    ensures DefaultPlan[..5] == SetupAllPlan && DefaultPlan[5..] == DeletePlan
  {
  }

  /** Asking for `setup-all` then `delete` selects exactly the default plan. */
  lemma ExplicitSelectionIsDefault()
    ensures FirstUnknown(["setup-all", "delete"]) == 2
    ensures PlanNamed("setup-all").value + PlanNamed("delete").value == DefaultPlan
  {
    assert PlanNamed(["setup-all", "delete"][1]).Some?;
  }

  /** An unrecognised first name selects nothing at all. */
  lemma UnknownFirstNameSelectsNothing(tests: seq<string>)
    requires |tests| > 0 && tests[0] != "setup-all" && tests[0] != "delete"
    ensures FirstUnknown(tests) == 0
  {
  }

  /** No collection name ends with the collection suffix, so the suffix rule
      always appends it to a collection path built from one. */
  lemma {:induction false} CollectionPathGetsSuffix(dir: string, step: Step)
    ensures WithSuffix(Join(dir, CollectionName(step)), CollectionSuffix)
         == Join(dir, CollectionName(step)) + CollectionSuffix
  {
    var name := CollectionName(step);
    var path := Join(dir, name);
    JoinShape(dir, name);
    if EndsWith(path, CollectionSuffix) {
      assert false;
    }
  }
}
