/** Saving a generated training plan: each step is checked and rewritten to
    the database's key names, the plan fields get their defaults, and the
    plan-creation procedure's answer is shaped into the returned plan. The
    remote procedure is a function parameter. */
module PlanSave {
  import opened Wrappers
  import opened Records

  const MissingStepData := "Missing required step data"
  const NoPlanData := "No data returned from create_training_plan"
  const DefaultTitle := "Training Plan"

  /** A JavaScript number-or-nullish value, as read from model-generated JSON. */
  datatype Nullable = Undefined | Null | Num(n: int)

  /** `a ?? b`: a unless it is null or undefined. */
  function Coalesce(a: Nullable, b: Nullable): (r: Nullable)
    ensures a.Num? ==> r == a
    ensures !a.Num? ==> r == b
  {
    if a.Num? then a else b
  }

  /** A step as produced by plan generation, in either key spelling. */
  datatype StepInput = StepInput(
    title: Option<string>,
    description: Option<string>,
    dayNumber: Nullable,
    daySnake: Nullable,
    durationMinutes: Nullable,
    durationSnake: Nullable)

  /** A step in the shape the plan-creation procedure takes. */
  datatype FormattedStep = FormattedStep(title: string, description: string, dayNumber: Nullable, durationMinutes: Nullable)

  /** A step is incomplete when its title or description is empty or
      missing, or when both spellings of the day or of the duration are
      undefined. Only `undefined` is compared against, so a null passes. */
  predicate IsIncomplete(s: StepInput) {
    || !IsTruthy(s.title)
    || !IsTruthy(s.description)
    || (s.dayNumber == Undefined && s.daySnake == Undefined)
    || (s.durationMinutes == Undefined && s.durationSnake == Undefined)
  }

  /** The camel-case value wins whenever it is a number. */
  function FormatStep(s: StepInput): (f: FormattedStep)
    requires !IsIncomplete(s)
    ensures f.title == s.title.value && f.description == s.description.value
    ensures s.dayNumber.Num? ==> f.dayNumber == s.dayNumber
    ensures !s.dayNumber.Num? ==> f.dayNumber == s.daySnake
    ensures s.durationMinutes.Num? ==> f.durationMinutes == s.durationMinutes
    ensures !s.durationMinutes.Num? ==> f.durationMinutes == s.durationSnake
  {
    FormattedStep(s.title.value, s.description.value,
                  Coalesce(s.dayNumber, s.daySnake), Coalesce(s.durationMinutes, s.durationSnake))
  }

  /** The guard tests only for undefined: a null camel-case day next to an
      undefined snake-case one is accepted and yields an undefined day. */
  lemma NullDayPassesGuard(title: string, description: string, minutes: int)
    requires title != "" && description != ""
    ensures var s := StepInput(Some(title), Some(description), Null, Undefined, Num(minutes), Undefined);
      !IsIncomplete(s) && FormatStep(s).dayNumber == Undefined
  {
  }

  /** `steps.map(...)` with the throwing guard: the first incomplete step
      aborts with "Missing required step data". */
  function NormalizeSteps(steps: seq<StepInput>): (r: Result<seq<FormattedStep>, Thrown>)
    ensures r.Failure? <==> exists i :: 0 <= i < |steps| && IsIncomplete(steps[i])
    ensures r.Failure? ==> r.error == Thrown(true, MissingStepData)
    ensures r.Success? ==> |r.value| == |steps|
    ensures r.Success? ==> forall i :: 0 <= i < |steps| ==> r.value[i] == FormatStep(steps[i])
  {
    if steps == [] then Success([])
    else if IsIncomplete(steps[0]) then Failure(Thrown(true, MissingStepData))
    else
      match NormalizeSteps(steps[1..])
      case Failure(e) => Failure(e)
      case Success(rest) =>
        assert forall i :: 1 <= i < |steps| ==> steps[i] == steps[1..][i - 1];
        Success([FormatStep(steps[0])] + rest)
  }

  /** The plan to save; absent fields are `None`. */
  datatype PlanInput = PlanInput(
    dogId: int,
    userId: string,
    title: Option<string>,
    description: Option<string>,
    behaviorToCorrect: Option<string>,
    difficulty: Difficulty,
    durationWeeks: int,
    sessionsPerWeek: int,
    trainingDays: seq<string>,
    status: Option<Status>,
    steps: Option<seq<StepInput>>)

  /** The arguments of the plan-creation procedure. Sessions per week and
      training days are not passed. */
  datatype RpcArgs = RpcArgs(
    dogId: int,
    userId: string,
    title: string,
    description: string,
    behaviorToCorrect: string,
    difficulty: Difficulty,
    durationWeeks: int,
    status: Status,
    steps: Option<seq<FormattedStep>>)

  /** What the procedure returns: the new plan's id and its dog's name. */
  datatype PlanRow = PlanRow(id: int, dogName: Option<string>)

  /** The saved plan: the returned row with a `dog` object naming the dog. */
  datatype SavedPlan = SavedPlan(row: PlanRow, dogName: Option<string>)

  type PlanRpc = RpcArgs -> Result<Option<PlanRow>, Thrown>

  /** Empty title becomes "Training Plan"; missing description and behaviour
      become empty; a missing status becomes not started. */
  function RpcArgsFor(plan: PlanInput, steps: Option<seq<FormattedStep>>): (a: RpcArgs)
    ensures a.title == (if IsTruthy(plan.title) then plan.title.value else DefaultTitle)
    ensures a.description == plan.description.GetOr("")
    ensures a.behaviorToCorrect == plan.behaviorToCorrect.GetOr("")
    ensures a.status == plan.status.GetOr(NotStarted)
    ensures a.dogId == plan.dogId && a.userId == plan.userId && a.difficulty == plan.difficulty
    ensures a.durationWeeks == plan.durationWeeks && a.steps == steps
  {
    RpcArgs(
      plan.dogId, plan.userId,
      if IsTruthy(plan.title) then plan.title.value else DefaultTitle,
      if IsTruthy(plan.description) then plan.description.value else "",
      if IsTruthy(plan.behaviorToCorrect) then plan.behaviorToCorrect.value else "",
      plan.difficulty, plan.durationWeeks,
      if plan.status.Some? then plan.status.value else NotStarted,
      steps)
  }

  /** `saveTrainingPlan`. An incomplete step aborts before the procedure is
      called; a procedure error is rethrown; a null answer is an error;
      otherwise the answer is returned with its dog's name. */
  function SaveTrainingPlan(plan: PlanInput, rpc: PlanRpc): (r: Result<SavedPlan, Thrown>)
    ensures plan.steps.Some? && (exists i :: 0 <= i < |plan.steps.value| && IsIncomplete(plan.steps.value[i])) ==>
      r == Failure(Thrown(true, MissingStepData))
    ensures r.Success? ==> r.value.dogName == r.value.row.dogName
  {
    var formatted :=
      if plan.steps.None? then Success(None)
      else match NormalizeSteps(plan.steps.value)
        case Failure(e) => Failure(e)
        case Success(fs) => Success(Some(fs));
    if formatted.Failure? then Failure(formatted.error)
    else
      match rpc(RpcArgsFor(plan, formatted.value))
      case Failure(e) => Failure(e)
      case Success(None) => Failure(Thrown(true, NoPlanData))
      case Success(Some(row)) => Success(SavedPlan(row, row.dogName))
  }

  /** With complete steps the procedure receives the normalised steps, in
      input order, and its answer decides the outcome. */
  lemma SaveCallsProcedure(plan: PlanInput, rpc: PlanRpc)
    requires plan.steps.Some? ==> forall i :: 0 <= i < |plan.steps.value| ==> !IsIncomplete(plan.steps.value[i])
    ensures var steps := if plan.steps.None? then None else Some(NormalizeSteps(plan.steps.value).value);
      var answer := rpc(RpcArgsFor(plan, steps));
      && (plan.steps.Some? ==> |steps.value| == |plan.steps.value|)
      && (plan.steps.Some? ==>
            forall i :: 0 <= i < |plan.steps.value| ==> steps.value[i] == FormatStep(plan.steps.value[i]))
      && (answer.Failure? ==> SaveTrainingPlan(plan, rpc) == Failure(answer.error))
      && (answer == Success(None) ==> SaveTrainingPlan(plan, rpc) == Failure(Thrown(true, NoPlanData)))
      && (answer.Success? && answer.value.Some? ==>
            SaveTrainingPlan(plan, rpc) == Success(SavedPlan(answer.value.value, answer.value.value.dogName)))
  {
  }

  /** An incomplete step makes the save fail the same way whatever the
      procedure would have answered: it is never called. */
  lemma IncompleteStepNeverReachesProcedure(plan: PlanInput, rpc1: PlanRpc, rpc2: PlanRpc)
    requires plan.steps.Some? && exists i :: 0 <= i < |plan.steps.value| && IsIncomplete(plan.steps.value[i])
    ensures SaveTrainingPlan(plan, rpc1) == SaveTrainingPlan(plan, rpc2) == Failure(Thrown(true, MissingStepData))
  {
  }
}
