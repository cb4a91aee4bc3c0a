/** The plan entities exchanged with the test-splitting service. */
module Plan {

  /** One unit of work. Only the path is set by the flows modelled here. */
  datatype TestCase = TestCase(path: string)

  /** One worker's assignment, in execution order. */
  datatype Task = Task(tests: seq<TestCase>)

  /** Assignment of tasks to workers, keyed by the worker index in decimal. An empty
      mapping is the service's "error plan"; it is also Go's zero `TestPlan{}`. */
  datatype TestPlan = TestPlan(tasks: map<string, Task>)

  /** The body of a plan-creation request (`api.TestPlanParams`). */
  datatype TestPlanParams = TestPlanParams(
    suiteToken: string,
    mode: string,
    identifier: string,
    parallelism: int,
    files: seq<TestCase>)

  /** Go's zero `plan.TestPlan{}`: a plan with no tasks. */
  const EmptyPlan := TestPlan(map[])

  predicate IsErrorPlan(p: TestPlan) {
    |p.tasks| == 0
  }

  /** One `TestCase{Path: f}` per discovered file, in discovery order. */
  function CasesOf(files: seq<string>): (cases: seq<TestCase>)
    ensures |cases| == |files|
    ensures forall i :: 0 <= i < |files| ==> cases[i] == TestCase(files[i])
  {
    if |files| == 0 then [] else [TestCase(files[0])] + CasesOf(files[1..])
  }

  /** The paths of a sequence of test cases, in order. */
  function Paths(cases: seq<TestCase>): (paths: seq<string>)
    ensures |paths| == |cases|
    ensures forall i :: 0 <= i < |cases| ==> paths[i] == cases[i].path
  {
    if |cases| == 0 then [] else [cases[0].path] + Paths(cases[1..])
  }

  /** Building test cases from files loses nothing: their paths are the files again. */
  lemma PathsOfCases(files: seq<string>)
    ensures Paths(CasesOf(files)) == files
  {
  }
}
