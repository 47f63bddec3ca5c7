/** The helpers the chat service uses to summarise a user's training: the
    training level, the current focus of a plan, a plan's performance and a
    list of recent achievements. */
module TrainingAnalytics {
  import opened Wrappers
  import opened Records

  predicate CompletedWith(p: TrainingPlan, d: Difficulty) {
    p.status == Completed && p.difficulty == d
  }

  /** `plans.filter(p => p.status === "completed")`. */
  function CompletedPlans(plans: seq<TrainingPlan>): (r: seq<TrainingPlan>)
    ensures forall p :: p in r <==> p in plans && p.status == Completed
  {
    if plans == [] then []
    else
      var rest := CompletedPlans(plans[1..]);
      assert forall p :: p in plans <==> p == plans[0] || p in plans[1..];
      if plans[0].status == Completed then [plans[0]] + rest else rest
  }

  /** Only completed plans count: the hardest difficulty among them, or
      beginner when there is none. The dog is not consulted, so every dog of
      a user gets the same level. */
  function DetermineTrainingLevel(dog: Dog, plans: seq<TrainingPlan>): (level: Difficulty)
    ensures (forall p :: p in plans ==> p.status != Completed) ==> level == Beginner
    ensures level == Advanced <==> exists p :: p in plans && CompletedWith(p, Advanced)
    ensures level == Intermediate <==>
      (forall p :: p in plans ==> !CompletedWith(p, Advanced)) &&
      (exists p :: p in plans && CompletedWith(p, Intermediate))
  {
    var completedPlans := CompletedPlans(plans);
    if |completedPlans| == 0 then Beginner
    else if exists p :: p in completedPlans && p.difficulty == Advanced then Advanced
    else if exists p :: p in completedPlans && p.difficulty == Intermediate then Intermediate
    else Beginner
  }

  /** The level never depends on which dog is asked about. */
  lemma LevelIgnoresDog(a: Dog, b: Dog, plans: seq<TrainingPlan>)
    ensures DetermineTrainingLevel(a, plans) == DetermineTrainingLevel(b, plans)
  {
  }

  /** Adding a plan that is not completed does not change the level. */
  lemma UnfinishedPlanIgnored(dog: Dog, plans: seq<TrainingPlan>, q: TrainingPlan)
    requires q.status != Completed
    ensures DetermineTrainingLevel(dog, plans + [q]) == DetermineTrainingLevel(dog, plans)
  {
    assert forall p :: p in plans + [q] <==> p in plans || p == q;
  }

  /** Completing an advanced plan makes the level advanced, whatever else there is. */
  lemma CompletedAdvancedWins(dog: Dog, plans: seq<TrainingPlan>, q: TrainingPlan)
    requires CompletedWith(q, Advanced)
    ensures DetermineTrainingLevel(dog, plans + [q]) == Advanced
  {
    assert q in plans + [q];
  }

  /** What `getCurrentFocus` reports about a step. */
  datatype Focus = Focus(step: string, description: Option<string>, day: int)

  /** Index of the first step not completed, or |steps| when all are. */
  function FirstIncomplete(steps: seq<TrainingStep>): (k: nat)
    ensures k <= |steps|
    ensures forall i :: 0 <= i < k ==> steps[i].completed
    ensures k < |steps| ==> !steps[k].completed
  {
    if steps == [] then 0
    else if !steps[0].completed then 0
    else 1 + FirstIncomplete(steps[1..])
  }

  /** `plan.steps?.find(step => !step.completed)`, as a focus record, or null
      when the plan has no steps or all are completed. */
  function GetCurrentFocus(steps: Option<seq<TrainingStep>>): (r: Option<Focus>)
    ensures r.None? <==> steps.None? || forall i :: 0 <= i < |steps.value| ==> steps.value[i].completed
    ensures r.Some? ==>
      exists k :: 0 <= k < |steps.value| && !steps.value[k].completed &&
        (forall i :: 0 <= i < k ==> steps.value[i].completed) &&
        r.value == Focus(steps.value[k].title, steps.value[k].description, steps.value[k].dayNumber)
  {
    if steps.None? then None
    else
      var k := FirstIncomplete(steps.value);
      if k == |steps.value| then None
      else
        var s := steps.value[k];
        Some(Focus(s.title, s.description, s.dayNumber))
  }

  datatype Consistency = Regular | NeedsImprovement

  datatype PerformanceStatus = JustStarted | Excellent | Good | NeedsSupport

  /** A null or zero rating means the plan has just started; then 4 and above
      is excellent, 3 and above good, anything lower needs support. */
  function GetPerformanceStatus(averageRating: Option<real>): (s: PerformanceStatus)
    ensures s == JustStarted <==> averageRating.None? || averageRating.value == 0.0
    ensures s == Excellent <==> averageRating.Some? && averageRating.value >= 4.0
    ensures s == Good <==> averageRating.Some? && 3.0 <= averageRating.value < 4.0
    ensures s == NeedsSupport <==>
      averageRating.Some? && averageRating.value < 3.0 && averageRating.value != 0.0
  {
    if averageRating.None? || averageRating.value == 0.0 then JustStarted
    else if averageRating.value >= 4.0 then Excellent
    else if averageRating.value >= 3.0 then Good
    else NeedsSupport
  }

  /** Status is monotone in the rating: a higher positive average never gets
      a worse status. */
  lemma StatusMonotone(a: real, b: real)
    requires 0.0 < a <= b
    ensures StatusRank(GetPerformanceStatus(Some(a))) <= StatusRank(GetPerformanceStatus(Some(b)))
  {
  }

  function StatusRank(s: PerformanceStatus): nat {
    match s
    case JustStarted => 0
    case NeedsSupport => 1
    case Good => 2
    case Excellent => 3
  }

  datatype Performance = Performance(
    progress: real,
    rating: Option<real>,
    consistency: Consistency,
    status: PerformanceStatus)

  function AnalyzePerformance(plan: EnhancedPlan): (r: Performance)
    ensures r.progress == plan.progressPercentage && r.rating == plan.averageRating
    ensures r.consistency == Regular <==> plan.totalSessions > 0
    ensures r.status == JustStarted <==> plan.averageRating.None? || plan.averageRating.value == 0.0
    ensures r.status == GetPerformanceStatus(plan.averageRating)
  {
    Performance(
      plan.progressPercentage,
      plan.averageRating,
      if plan.totalSessions > 0 then Regular else NeedsImprovement,
      GetPerformanceStatus(plan.averageRating))
  }

  datatype Achievement = Achievement(date: string, rating: int)

  function HighlyRated(sessions: seq<TrainingSession>): (r: seq<TrainingSession>)
    ensures |r| <= |sessions|
    ensures forall i :: 0 <= i < |r| ==> r[i].rating >= 4 && r[i] in sessions
  {
    if sessions == [] then []
    else
      var rest := HighlyRated(sessions[1..]);
      if sessions[0].rating != 0 && sessions[0].rating >= 4 then [sessions[0]] + rest else rest
  }

  /** A session is kept exactly when it is in the input and rated 4 or more. */
  lemma {:induction false} HighlyRatedMembers(sessions: seq<TrainingSession>)
    ensures forall s :: s in HighlyRated(sessions) <==> s in sessions && s.rating >= 4
  {
    if sessions != [] {
      HighlyRatedMembers(sessions[1..]);
      assert sessions == [sessions[0]] + sessions[1..];
    }
  }

  /** Sessions rated 4 or more are kept exactly, in their original order. */
  lemma {:induction false} HighlyRatedAppend(a: seq<TrainingSession>, b: seq<TrainingSession>)
    ensures HighlyRated(a + b) == HighlyRated(a) + HighlyRated(b)
  {
    if a == [] {
      assert a + b == b;
    } else {
      assert (a + b)[0] == a[0] && (a + b)[1..] == a[1..] + b;
      HighlyRatedAppend(a[1..], b);
    }
  }

  function ToAchievement(s: TrainingSession): Achievement {
    Achievement(s.completedAt, s.rating)
  }

  /** The first three sessions rated 4 or more, in their original order. */
  function GetRecentAchievements(sessions: seq<TrainingSession>): (r: seq<Achievement>)
    ensures |r| <= 3
    ensures |r| == if |HighlyRated(sessions)| < 3 then |HighlyRated(sessions)| else 3
    ensures forall i :: 0 <= i < |r| ==> r[i].rating >= 4 && r[i] == ToAchievement(HighlyRated(sessions)[i])
  {
    var kept := HighlyRated(sessions);
    var n := if |kept| < 3 then |kept| else 3;
    seq(n, i requires 0 <= i < n => ToAchievement(kept[i]))
  }

  /** Sessions after the third highly rated one never appear. */
  lemma {:induction false} LaterSessionsIgnored(a: seq<TrainingSession>, b: seq<TrainingSession>)
    requires |HighlyRated(a)| >= 3
    ensures GetRecentAchievements(a + b) == GetRecentAchievements(a)
  {
    HighlyRatedAppend(a, b);
  }
}
