/** The derived metrics attached to each plan when the chat service gathers a
    user's training data: progress from the steps' completion flags, and the
    count and mean of the truthy session ratings. Remote fetch results are
    inputs. */
module PlanEnrichment {
  import opened Wrappers
  import opened Records

  /** `plan.steps || []`. */
  function StepsOf(p: PlanWithSteps): seq<StepWithSessions> {
    p.steps.GetOr([])
  }

  function CompletedCount(steps: seq<StepWithSessions>): (n: nat)
    ensures n <= |steps|
  {
    if steps == [] then 0
    else (if steps[0].step.completed then 1 else 0) + CompletedCount(steps[1..])
  }

  /** Every step is counted exactly when every step is completed. */
  lemma {:induction false} CompletedCountIsTotal(steps: seq<StepWithSessions>)
    ensures CompletedCount(steps) == |steps| <==> forall i :: 0 <= i < |steps| ==> steps[i].step.completed
  {
    if steps != [] {
      CompletedCountIsTotal(steps[1..]);
      assert forall i :: 1 <= i < |steps| ==> steps[i] == steps[1..][i - 1];
    }
  }

  /** Completed steps as a percentage of all steps; 0 for a plan without steps. */
  function Progress(steps: seq<StepWithSessions>): (p: real)
    ensures 0.0 <= p <= 100.0
    ensures steps == [] ==> p == 0.0
  {
    if |steps| > 0 then (CompletedCount(steps) as real / |steps| as real) * 100.0 else 0.0
  }

  /** A plan with steps is at 100 percent exactly when all its steps are completed. */
  lemma {:induction false} ProgressFullIffAllCompleted(steps: seq<StepWithSessions>)
    requires steps != []
    ensures Progress(steps) == 100.0 <==> forall i :: 0 <= i < |steps| ==> steps[i].step.completed
  {
    CompletedCountIsTotal(steps);
    var c, n := CompletedCount(steps) as real, |steps| as real;
    assert Progress(steps) == (c / n) * 100.0;
    assert c / n == 1.0 <==> c == n;
  }

  /** `steps.flatMap(step => step.sessions || [])`. */
  function SessionsOf(steps: seq<StepWithSessions>): (r: seq<SessionSummary>)
  {
    if steps == [] then [] else steps[0].sessions.GetOr([]) + SessionsOf(steps[1..])
  }

  lemma {:induction false} SessionsOfMembers(steps: seq<StepWithSessions>)
    ensures forall s :: s in SessionsOf(steps) <==>
      exists i :: 0 <= i < |steps| && s in steps[i].sessions.GetOr([])
  {
    if steps != [] {
      SessionsOfMembers(steps[1..]);
      assert forall i :: 1 <= i < |steps| ==> steps[i] == steps[1..][i - 1];
    }
  }

  /** `sessions.map(s => s.rating).filter(Boolean)`. */
  function TruthyRatings(sessions: seq<SessionSummary>): (r: seq<int>)
    ensures |r| <= |sessions|
    ensures forall i :: 0 <= i < |r| ==> r[i] != 0
  {
    if sessions == [] then []
    else
      var rest := TruthyRatings(sessions[1..]);
      if RatingIsTruthy(sessions[0].rating) then [sessions[0].rating.value] + rest else rest
  }

  /** A rating is kept exactly when some session carries it and it is truthy. */
  lemma {:induction false} TruthyRatingsMembers(sessions: seq<SessionSummary>)
    ensures forall x :: x in TruthyRatings(sessions) <==>
      exists i :: 0 <= i < |sessions| && RatingIsTruthy(sessions[i].rating) && sessions[i].rating.value == x
  {
    if sessions != [] {
      TruthyRatingsMembers(sessions[1..]);
      assert forall i :: 1 <= i < |sessions| ==> sessions[i] == sessions[1..][i - 1];
    }
  }

  /** Every session is counted only when every session has a truthy rating:
      an unrated session or a rating of 0 is left out of the count. */
  lemma {:induction false} AllCountedIffAllRated(sessions: seq<SessionSummary>)
    ensures |TruthyRatings(sessions)| == |sessions| <==>
      forall i :: 0 <= i < |sessions| ==> RatingIsTruthy(sessions[i].rating)
  {
    if sessions != [] {
      AllCountedIffAllRated(sessions[1..]);
      assert forall i :: 1 <= i < |sessions| ==> sessions[i] == sessions[1..][i - 1];
    }
  }

  function Sum(xs: seq<int>): int {
    if xs == [] then 0 else xs[0] + Sum(xs[1..])
  }

  lemma {:induction false} SumBounds(xs: seq<int>, lo: int, hi: int)
    requires forall i :: 0 <= i < |xs| ==> lo <= xs[i] <= hi
    ensures |xs| * lo <= Sum(xs) <= |xs| * hi
  {
    if xs != [] {
      SumBounds(xs[1..], lo, hi);
      assert |xs| * lo == (|xs| - 1) * lo + lo;
      assert |xs| * hi == (|xs| - 1) * hi + hi;
    }
  }

  /** The mean of the ratings, or null when there are none. */
  function AverageRating(ratings: seq<int>): (a: Option<real>)
    ensures a.None? <==> ratings == []
    ensures a.Some? ==> a.value * |ratings| as real == Sum(ratings) as real
  {
    if |ratings| > 0 then Some(Sum(ratings) as real / |ratings| as real) else None
  }

  /** Ratings on the 1 to 5 scale average to a value on the same scale. */
  lemma {:induction false} AverageRatingWithinScale(ratings: seq<int>, lo: int, hi: int)
    requires ratings != []
    requires forall i :: 0 <= i < |ratings| ==> lo <= ratings[i] <= hi
    ensures lo as real <= AverageRating(ratings).value <= hi as real
  {
    SumBounds(ratings, lo, hi);
    var n, s := |ratings| as real, Sum(ratings) as real;
    assert n * lo as real <= s <= n * hi as real;
    assert AverageRating(ratings).value == s / n;
    assert s / n * n == s;
  }

  /** `{...plan, progress_percentage, average_rating, total_sessions}`. */
  function EnhancePlan(p: PlanWithSteps): (e: EnhancedPlan)
    ensures e.source == p
    ensures 0.0 <= e.progressPercentage <= 100.0
    ensures StepsOf(p) == [] ==> e.progressPercentage == 0.0
    ensures e.totalSessions <= |SessionsOf(StepsOf(p))|
    ensures e.averageRating.None? <==> e.totalSessions == 0
    ensures e.totalSessions == |SessionsOf(StepsOf(p))| <==>
      forall s :: s in SessionsOf(StepsOf(p)) ==> RatingIsTruthy(s.rating)
    ensures e.progressPercentage == Progress(StepsOf(p))
    ensures e.totalSessions == |TruthyRatings(SessionsOf(StepsOf(p)))|
    ensures e.averageRating == AverageRating(TruthyRatings(SessionsOf(StepsOf(p))))
  {
    AllCountedIffAllRated(SessionsOf(StepsOf(p)));
    var steps := StepsOf(p);
    var ratings := TruthyRatings(SessionsOf(steps));
    EnhancedPlan(p, Progress(steps), AverageRating(ratings), |ratings|)
  }

  function EnhancePlans(ps: seq<PlanWithSteps>): (r: seq<EnhancedPlan>)
    ensures |r| == |ps|
    ensures forall i :: 0 <= i < |ps| ==> r[i] == EnhancePlan(ps[i])
  {
    seq(|ps|, i requires 0 <= i < |ps| => EnhancePlan(ps[i]))
  }

  /** What the chat service receives about a user. */
  datatype TrainingData = TrainingData(
    plans: seq<EnhancedPlan>,
    dogs: seq<Dog>,
    recentSessions: seq<TrainingSession>,
    recentInteractions: seq<ChatMessage>)

  /** Assembling the fetched rows: the dogs query's error is raised first,
      then the plans', sessions' and chat history's, in that order; otherwise
      every plan is enriched. */
  function AssembleTrainingData(
    dogs: Result<seq<Dog>, Thrown>,
    plans: Result<seq<PlanWithSteps>, Thrown>,
    sessions: Result<seq<TrainingSession>, Thrown>,
    chatHistory: Result<seq<ChatMessage>, Thrown>): (r: Result<TrainingData, Thrown>)
    ensures dogs.Failure? ==> r == Failure(dogs.error)
    ensures dogs.Success? && plans.Failure? ==> r == Failure(plans.error)
    ensures dogs.Success? && plans.Success? && sessions.Failure? ==> r == Failure(sessions.error)
    ensures dogs.Success? && plans.Success? && sessions.Success? && chatHistory.Failure? ==>
      r == Failure(chatHistory.error)
    ensures r.Success? <==> dogs.Success? && plans.Success? && sessions.Success? && chatHistory.Success?
    ensures r.Success? ==> r.value.dogs == dogs.value && |r.value.plans| == |plans.value|
    ensures r.Success? ==> r.value.plans == EnhancePlans(plans.value)
    ensures r.Success? ==> r.value.recentSessions == sessions.value && r.value.recentInteractions == chatHistory.value
  {
    if dogs.Failure? then Failure(dogs.error)
    else if plans.Failure? then Failure(plans.error)
    else if sessions.Failure? then Failure(sessions.error)
    else if chatHistory.Failure? then Failure(chatHistory.error)
    else Success(TrainingData(EnhancePlans(plans.value), dogs.value, sessions.value, chatHistory.value))
  }
}
