/** The rows the client reads and writes: dogs, training plans, steps,
    sessions and chat turns, plus the enriched plan the AI helpers consume. */
module Records {
  import opened Wrappers

  datatype Difficulty = Beginner | Intermediate | Advanced

  datatype Status = NotStarted | InProgress | Completed

  /** A dog row. `age` and `ageYears` are the two age properties the chat
      service reads from the row; the declared row type has no such columns,
      so they are usually absent (`None`). */
  datatype Dog = Dog(
    id: int,
    ownerId: string,
    name: string,
    breed: Option<string>,
    dateOfBirth: Option<string>,
    weightLbs: Option<int>,
    age: Option<nat>,
    ageYears: Option<nat>)

  datatype TrainingPlan = TrainingPlan(
    id: int,
    userId: string,
    dogId: int,
    title: string,
    description: string,
    behaviorToCorrect: Option<string>,
    difficulty: Difficulty,
    durationWeeks: int,
    sessionsPerWeek: int,
    trainingDays: seq<string>,
    status: Status)

  datatype TrainingStep = TrainingStep(
    id: int,
    planId: int,
    title: string,
    description: Option<string>,
    dayNumber: int,
    durationMinutes: Option<int>,
    videoUrl: Option<string>,
    completed: bool)

  /** A full session row. A null rating is read as 0: every rule that looks
      at ratings treats both as falsy. */
  datatype TrainingSession = TrainingSession(
    id: int,
    stepId: int,
    dogId: int,
    completedAt: string,
    achievements: string,
    challenges: string,
    durationMinutes: int,
    repetitions: int,
    environmentNotes: string,
    environments: seq<string>,
    dogMood: string,
    rating: int,
    treatsUsed: string,
    trainerMood: string,
    nextSteps: string)

  datatype ChatMessage = ChatMessage(
    id: string,
    userId: string,
    message: string,
    aiResponse: string,
    createdAt: string)

  /** The session columns fetched alongside each step for the AI context. */
  datatype SessionSummary = SessionSummary(completedAt: string, rating: Option<int>, notes: Option<string>)

  /** A step joined with its sessions; `sessions` is absent when the join
      returned nothing. */
  datatype StepWithSessions = StepWithSessions(step: TrainingStep, sessions: Option<seq<SessionSummary>>)

  /** A plan joined with its steps; `steps` is absent when the join returned nothing. */
  datatype PlanWithSteps = PlanWithSteps(plan: TrainingPlan, steps: Option<seq<StepWithSessions>>)

  /** A plan with the derived metrics the AI helpers read. */
  datatype EnhancedPlan = EnhancedPlan(
    source: PlanWithSteps,
    progressPercentage: real,
    averageRating: Option<real>,
    totalSessions: nat)

  /** Truthiness of an optional rating: absent and zero are both falsy. */
  predicate RatingIsTruthy(r: Option<int>) {
    r.Some? && r.value != 0
  }
}
