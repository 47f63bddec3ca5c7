/** The decision logic of the chat service's reply: the early exits, the
    fast-path answers from the dog profile, the model and token budget per
    query type, and the mapping of every failure to a fallback reply. The
    training-data fetch is an input and the language model a function
    parameter. */
module ChatResponse {
  import opened Wrappers
  import opened Records
  import opened Text
  import opened ChatContext
  import opened PlanEnrichment
  import opened TrainingAnalytics

  const SignInPrompt := "Please sign in to get personalized training advice."
  const AddDogPrompt := "Please add your dog's information first to get personalized advice."
  const SimplerWayText := "I'm having trouble processing your request. Could you try asking in a simpler way?"
  const RetryText := "I encountered an issue. Please try again with your question."
  const ContextLengthMarker := "maximum context length"
  const NoResponseMessage := "No response from OpenAI"
  const Temperature := 0.7

  datatype ModelName = Gpt4Preview | Gpt35Turbo

  function ModelId(m: ModelName): string {
    match m
    case Gpt4Preview => "gpt-4-1106-preview"
    case Gpt35Turbo => "gpt-3.5-turbo"
  }

  /** Per-dog entry of the status analysis added for complex queries. */
  datatype DogSummary = DogSummary(name: string, breed: Option<string>, ageYears: Option<nat>, trainingLevel: Difficulty)

  /** Per-plan entry of the status analysis added for complex queries. */
  datatype ActivePlan = ActivePlan(title: string, progress: real, performance: Performance)

  datatype Analysis = Analysis(dogs: seq<DogSummary>, activePlans: seq<ActivePlan>)

  /** The system prompt: the base trainer prompt, extended with the status
      analysis (complex queries) or with the first dog's summary (training
      queries). Its rendering as text is not modelled. */
  datatype SystemPrompt =
    | BasePrompt
    | WithStatus(analysis: Analysis)
    | WithDog(name: string, breed: string, age: string, level: Difficulty)

  /** A request to the language model; `messages` follows the system prompt. */
  datatype ChatRequest = ChatRequest(
    model: ModelName,
    maxTokens: nat,
    temperature: real,
    system: SystemPrompt,
    messages: seq<Completion>)

  /** The language model: the first choice's content (absent or present), or a thrown value. */
  type ModelApi = ChatRequest -> Result<Option<string>, Thrown>

  /** Either a reply decided without the model, or the request to send. */
  datatype ChatStep = Reply(text: string) | Ask(request: ChatRequest)

  /** A number interpolated into a template; an absent one renders as "undefined". */
  function AgeText(age: Option<nat>): string {
    match age
    case Some(n) => DecimalString(n)
    case None => "undefined"
  }

  /** Fast-path answers from the dog profile, tried in the order age, breed, name. */
  function FastReply(m: Matcher, message: string, dog: Dog): (r: Option<string>)
    ensures m(AskAge, message) ==> r == Some(dog.name + " is " + AgeText(dog.age) + " years old.")
    ensures !m(AskAge, message) && m(AskBreed, message) ==>
      r == Some(if IsTruthy(dog.breed) then dog.name + " is a " + dog.breed.value + "."
                else dog.name + "'s breed is not specified.")
    ensures !m(AskAge, message) && !m(AskBreed, message) && m(AskName, message) ==>
      r == Some("Your dog's name is " + dog.name + ".")
    ensures r.None? <==> !m(AskAge, message) && !m(AskBreed, message) && !m(AskName, message)
  {
    if m(AskAge, message) then Some(dog.name + " is " + AgeText(dog.age) + " years old.")
    else if m(AskBreed, message) then
      Some(if IsTruthy(dog.breed) then dog.name + " is a " + dog.breed.value + "."
           else dog.name + "'s breed is not specified.")
    else if m(AskName, message) then Some("Your dog's name is " + dog.name + ".")
    else None
  }

  /** Every fast-path question is itself a basic query. */
  lemma FastPathQuestionsAreBasic(m: Matcher, message: string, dog: Dog)
    requires Faithful(m)
    requires FastReply(m, message, dog).Some?
    ensures ClassifyQuery(m, message) == Basic
  {
    assert m(HowOldOrAge, message) || m(WhatIsBreedOrName, message);
  }

  function ModelFor(q: QueryType): ModelName {
    if q == Basic then Gpt35Turbo else Gpt4Preview
  }

  function TokenBudget(q: QueryType): nat {
    match q
    case Complex => 500
    case Training => 300
    case Basic => 150
  }

  function PlansOf(plans: seq<EnhancedPlan>): (r: seq<TrainingPlan>)
    ensures |r| == |plans|
    ensures forall i :: 0 <= i < |plans| ==> r[i] == plans[i].source.plan
  {
    seq(|plans|, i requires 0 <= i < |plans| => plans[i].source.plan)
  }

  function InProgressPlans(plans: seq<EnhancedPlan>): (r: seq<EnhancedPlan>)
    ensures |r| <= |plans|
    ensures forall p :: p in r ==> p in plans && p.source.plan.status == InProgress
  {
    if plans == [] then []
    else
      var rest := InProgressPlans(plans[1..]);
      if plans[0].source.plan.status == InProgress then [plans[0]] + rest else rest
  }

  /** A plan is kept exactly when it is in the input and in progress. */
  lemma {:induction false} InProgressPlansMembers(plans: seq<EnhancedPlan>)
    ensures forall p :: p in InProgressPlans(plans) <==> p in plans && p.source.plan.status == InProgress
  {
    if plans != [] {
      InProgressPlansMembers(plans[1..]);
      assert plans == [plans[0]] + plans[1..];
    }
  }

  /** The filter distributes over concatenation, so it keeps input order. */
  lemma {:induction false} InProgressPlansAppend(a: seq<EnhancedPlan>, b: seq<EnhancedPlan>)
    ensures InProgressPlans(a + b) == InProgressPlans(a) + InProgressPlans(b)
  {
    if a == [] {
      assert a + b == b;
    } else {
      var ab := a + b;
      assert ab[0] == a[0] && ab[1..] == a[1..] + b;
      InProgressPlansAppend(a[1..], b);
      var head := if a[0].source.plan.status == InProgress then [a[0]] else [];
      assert InProgressPlans(ab) == head + InProgressPlans(ab[1..]);
      assert InProgressPlans(a) == head + InProgressPlans(a[1..]);
    }
  }

  /** The analysis entry of one plan. */
  function ToActivePlan(p: EnhancedPlan): ActivePlan {
    ActivePlan(p.source.plan.title, p.progressPercentage, AnalyzePerformance(p))
  }

  /** The analysis entries of a list of plans, in order. */
  function ActiveEntries(plans: seq<EnhancedPlan>): (r: seq<ActivePlan>)
    ensures |r| == |plans|
    ensures forall i :: 0 <= i < |r| ==> r[i] == ToActivePlan(plans[i])
  {
    seq(|plans|, i requires 0 <= i < |plans| => ToActivePlan(plans[i]))
  }

  /** The last two plans in progress, in order, each with its performance. */
  function ActivePlans(plans: seq<EnhancedPlan>): (r: seq<ActivePlan>)
    ensures var ip := InProgressPlans(plans);
      && |r| == (if |ip| < 2 then |ip| else 2)
      && forall i :: 0 <= i < |r| ==> r[i] == ToActivePlan(ip[|ip| - |r| + i])
  {
    var ip := InProgressPlans(plans);
    var last := LastN(ip, 2);
    assert forall i :: 0 <= i < |last| ==> last[i] == ip[|ip| - |last| + i];
    ActiveEntries(last)
  }

  /** Every entry describes a plan of the input that is in progress. */
  lemma ActivePlansAreInProgress(plans: seq<EnhancedPlan>)
    ensures forall a :: a in ActivePlans(plans) ==>
      exists p :: p in plans && p.source.plan.status == InProgress && a == ToActivePlan(p)
  {
    var ip := InProgressPlans(plans);
    var r := ActivePlans(plans);
    forall a | a in r
      ensures exists p :: p in plans && p.source.plan.status == InProgress && a == ToActivePlan(p)
    {
      var i :| 0 <= i < |r| && r[i] == a;
      assert ip[|ip| - |r| + i] in ip;
    }
  }

  /** One entry of `dogs` in the status analysis. */
  function Summarize(dog: Dog, plans: seq<TrainingPlan>): (d: DogSummary)
    ensures d.name == dog.name && d.breed == dog.breed && d.ageYears == dog.ageYears
    ensures d.trainingLevel == DetermineTrainingLevel(dog, plans)
  {
    DogSummary(dog.name, dog.breed, dog.ageYears, DetermineTrainingLevel(dog, plans))
  }

  function Summaries(dogs: seq<Dog>, plans: seq<TrainingPlan>): (r: seq<DogSummary>)
    ensures |r| == |dogs|
    ensures forall i :: 0 <= i < |dogs| ==> r[i] == Summarize(dogs[i], plans)
  {
    seq(|dogs|, i requires 0 <= i < |dogs| => Summarize(dogs[i], plans))
  }

  /** The status analysis: every dog with its training level, and the last
      two plans in progress. */
  function Analyze(data: TrainingData): (a: Analysis)
    ensures |a.dogs| == |data.dogs|
    ensures forall i :: 0 <= i < |data.dogs| ==>
      && a.dogs[i].name == data.dogs[i].name && a.dogs[i].breed == data.dogs[i].breed
      && a.dogs[i].ageYears == data.dogs[i].ageYears
      && a.dogs[i].trainingLevel == DetermineTrainingLevel(data.dogs[i], PlansOf(data.plans))
    ensures a.activePlans == ActivePlans(data.plans)
    ensures |a.activePlans| <= 2
  {
    Analysis(Summaries(data.dogs, PlansOf(data.plans)), ActivePlans(data.plans))
  }

  /** The system prompt per query type: the base prompt for basic queries,
      the status analysis for complex ones, and for training queries the
      first dog's name, breed ("Unknown breed" when empty), age and level. */
  function SystemPromptFor(q: QueryType, dog: Dog, data: TrainingData): (p: SystemPrompt)
    ensures q == Basic <==> p == BasePrompt
    ensures q == Complex <==> p.WithStatus?
    ensures q == Complex ==> p.analysis == Analyze(data)
    ensures q == Training ==>
      && p.WithDog? && p.name == dog.name && p.age == AgeText(dog.age)
      && p.breed == (if IsTruthy(dog.breed) then dog.breed.value else "Unknown breed")
      && p.level == DetermineTrainingLevel(dog, PlansOf(data.plans))
  {
    match q
    case Complex => WithStatus(Analyze(data))
    case Training =>
      WithDog(dog.name, if IsTruthy(dog.breed) then dog.breed.value else "Unknown breed",
              AgeText(dog.age), DetermineTrainingLevel(dog, PlansOf(data.plans)))
    case Basic => BasePrompt
  }

  /** Everything up to the model call. Without a user the sign-in prompt is
      returned before anything is fetched; a failed fetch is thrown; without
      dogs the add-your-dog prompt is returned; then the fast path; otherwise
      a request whose model and budget follow the query type. */
  function Prepare(m: Matcher, message: string, history: seq<ChatMessage>,
                   userId: Option<string>, data: Result<TrainingData, Thrown>): (r: Result<ChatStep, Thrown>)
    ensures !IsTruthy(userId) ==> r == Success(Reply(SignInPrompt))
    ensures IsTruthy(userId) && data.Failure? ==> r == Failure(data.error)
    ensures IsTruthy(userId) && data.Success? && data.value.dogs == [] ==> r == Success(Reply(AddDogPrompt))
    ensures (IsTruthy(userId) && data.Success? && data.value.dogs != [] &&
             FastReply(m, message, data.value.dogs[0]).Some?) ==>
      r == Success(Reply(FastReply(m, message, data.value.dogs[0]).value))
    ensures r.Success? && r.value.Ask? ==>
      var q := ClassifyQuery(m, message);
      var req := r.value.request;
      && IsTruthy(userId) && data.Success? && data.value.dogs != []
      && FastReply(m, message, data.value.dogs[0]).None?
      && (q == Complex ==> req.model == Gpt4Preview && req.maxTokens == 500)
      && (q == Training ==> req.model == Gpt4Preview && req.maxTokens == 300)
      && (q == Basic ==> req.model == Gpt35Turbo && req.maxTokens == 150)
      && ModelId(req.model) == (if q == Basic then "gpt-3.5-turbo" else "gpt-4-1106-preview")
      && req.temperature == Temperature
      && req.system == SystemPromptFor(q, data.value.dogs[0], data.value)
      && req.messages == OptimizedContext(m, history, q) + [Completion(User, message)]
    ensures (IsTruthy(userId) && data.Success? && data.value.dogs != [] &&
             FastReply(m, message, data.value.dogs[0]).None?) ==>
      r.Success? && r.value.Ask?
  {
    if !IsTruthy(userId) then Success(Reply(SignInPrompt))
    else if data.Failure? then Failure(data.error)
    else if |data.value.dogs| == 0 then Success(Reply(AddDogPrompt))
    else
      var dog := data.value.dogs[0];
      var fast := FastReply(m, message, dog);
      if fast.Some? then Success(Reply(fast.value))
      else
        var q := ClassifyQuery(m, message);
        var context := OptimizedContext(m, history, q);
        Success(Ask(ChatRequest(ModelFor(q), TokenBudget(q), Temperature,
                                SystemPromptFor(q, dog, data.value),
                                context + [Completion(User, message)])))
  }

  /** The reply shown for a caught error: the "simpler way" text only for an
      Error whose message mentions the maximum context length. */
  function FallbackText(e: Thrown): (r: string)
    ensures r == SimplerWayText <==> e.isError && Contains(e.message, ContextLengthMarker)
    ensures r == RetryText <==> !(e.isError && Contains(e.message, ContextLengthMarker))
  {
    if e.isError && Contains(e.message, ContextLengthMarker) then SimplerWayText else RetryText
  }

  /** An empty reply is thrown as "No response from OpenAI", which is not a
      context-length error. */
  lemma EmptyReplyGivesRetryText()
    ensures FallbackText(Thrown(true, NoResponseMessage)) == RetryText
  {
    var s, w := NoResponseMessage, ContextLengthMarker;
    assert |s| == 23 && |w| == 22;
    forall i | 0 <= i <= |s| - |w|
      ensures !OccursAt(s, w, i)
    {
      assert s[i] != w[0];
      assert s[i..i + |w|][0] == s[i];
    }
  }

  /** `generateChatResponse`: always a string, never a thrown error. */
  function GenerateChatResponse(m: Matcher, message: string, history: seq<ChatMessage>,
                                userId: Option<string>, data: Result<TrainingData, Thrown>,
                                api: ModelApi): (r: string)
    ensures !IsTruthy(userId) ==> r == SignInPrompt
    ensures IsTruthy(userId) && data.Success? && data.value.dogs == [] ==> r == AddDogPrompt
    ensures IsTruthy(userId) && data.Failure? ==> r == FallbackText(data.error)
  {
    match Prepare(m, message, history, userId, data)
    case Failure(e) => FallbackText(e)
    case Success(Reply(text)) => text
    case Success(Ask(request)) =>
      match api(request)
      case Failure(e) => FallbackText(e)
      case Success(reply) =>
        if IsTruthy(reply) then reply.value else FallbackText(Thrown(true, NoResponseMessage))
  }

  /** When the model is asked, a failure of any kind becomes one of the two
      fallback texts, and a non-empty reply is returned as it is. */
  lemma {:induction false} ModelOutcomeMapping(m: Matcher, message: string, history: seq<ChatMessage>,
                                               userId: Option<string>, data: Result<TrainingData, Thrown>,
                                               api: ModelApi)
    requires Prepare(m, message, history, userId, data).Success?
    requires Prepare(m, message, history, userId, data).value.Ask?
    ensures var req := Prepare(m, message, history, userId, data).value.request;
      var r := GenerateChatResponse(m, message, history, userId, data, api);
      && (api(req).Failure? ==>
            (r == SimplerWayText <==>
               (api(req).error.isError && Contains(api(req).error.message, ContextLengthMarker))))
      && (api(req).Failure? ==> r == SimplerWayText || r == RetryText)
      && (api(req).Success? && !IsTruthy(api(req).value) ==> r == RetryText)
      && (api(req).Success? && IsTruthy(api(req).value) ==> r == api(req).value.value)
  {
    EmptyReplyGivesRetryText();
  }

  /** A fast-path answer never depends on the model or on the history. */
  lemma FastPathIgnoresModel(m: Matcher, message: string, h1: seq<ChatMessage>, h2: seq<ChatMessage>,
                             userId: Option<string>, data: Result<TrainingData, Thrown>,
                             api1: ModelApi, api2: ModelApi)
    requires IsTruthy(userId) && data.Success? && data.value.dogs != []
    requires FastReply(m, message, data.value.dogs[0]).Some?
    ensures GenerateChatResponse(m, message, h1, userId, data, api1) ==
            GenerateChatResponse(m, message, h2, userId, data, api2) ==
            FastReply(m, message, data.value.dogs[0]).value
  {
  }

  /** A concrete fast-path case: asking how old Rex is, with his age on record. */
  lemma HowOldIsRex(m: Matcher, history: seq<ChatMessage>, userId: string, data: TrainingData, api: ModelApi)
    requires userId != "" && data.dogs != []
    requires data.dogs[0].name == "Rex" && data.dogs[0].age == Some(3)
    requires m(AskAge, "How old is my dog?")
    ensures GenerateChatResponse(m, "How old is my dog?", history, Some(userId), Success(data), api) ==
            "Rex is 3 years old."
  {
  }
}
