/** Query classification and history trimming of the chat service. Each
    regular expression of the source is a `Pattern`; what a pattern matches
    is left to a `Matcher` parameter, so every fact proved here holds for any
    regular-expression engine. `Faithful` pins the patterns that are plain
    alternations of words to case-insensitive substring tests. */
module ChatContext {
  import opened Records
  import opened Text

  /** The source's regular expressions, named by what they look for. */
  datatype Pattern =
    | HowOldOrAge        // "how", whitespace, "old"; or "age" anywhere
    | WhatIsBreedOrName  // "what's"/"what is", optional "the" and "dog's", then "breed" or "name"
    | BasicCommand       // "basic", whitespace, "command"; or "sit", "stay", "come"
    | Train              // "train", optionally followed by "ing"
    | ExerciseOrPractice
    | Behavior           // both spellings
    | ProgressOrImprovement
    | AskAge             // fast path: "how old", or "what is" ... "age"
    | AskBreed           // fast path: "what is" ... "breed"
    | AskName            // fast path: "what is" ... "name"

  /** A regular-expression engine: does the pattern match somewhere in the text? */
  type Matcher = (Pattern, string) -> bool

  datatype QueryType = Basic | Training | Complex

  const BasicPatterns: seq<Pattern> := [HowOldOrAge, WhatIsBreedOrName, BasicCommand]
  const TrainingPatterns: seq<Pattern> := [Train, ExerciseOrPractice, Behavior, ProgressOrImprovement]

  /** The literal words each of which, found anywhere in any case, makes the
      pattern match. */
  function LiteralAlternatives(p: Pattern): seq<string> {
    match p
    case HowOldOrAge => ["age"]
    case BasicCommand => ["sit", "stay", "come"]
    case Train => ["train"]
    case ExerciseOrPractice => ["exercise", "practice"]
    case Behavior => ["behavior", "behaviour"]
    case ProgressOrImprovement => ["progress", "improvement"]
    case _ => []
  }

  /** The pattern is nothing but an alternation of its literal words. */
  predicate IsPlain(p: Pattern) {
    p.Train? || p.ExerciseOrPractice? || p.Behavior? || p.ProgressOrImprovement?
  }

  predicate HasLiteral(p: Pattern, s: string) {
    exists w :: w in LiteralAlternatives(p) && ContainsFolded(s, w)
  }

  /** What every correct engine does with these patterns: a literal word makes
      its pattern match, a plain pattern matches only through its words, and
      each fast-path question also matches the basic pattern it refines. */
  ghost predicate Faithful(m: Matcher) {
    && (forall p, s :: HasLiteral(p, s) ==> m(p, s))
    && (forall p, s :: IsPlain(p) && m(p, s) ==> HasLiteral(p, s))
    && (forall s :: m(AskAge, s) ==> m(HowOldOrAge, s))
    && (forall s :: m(AskBreed, s) ==> m(WhatIsBreedOrName, s))
    && (forall s :: m(AskName, s) ==> m(WhatIsBreedOrName, s))
  }

  /** An engine that recognises the literal words only; it witnesses that
      `Faithful` can be met. */
  function LiteralMatcher(p: Pattern, s: string): bool {
    HasLiteral(p, s)
  }

  lemma LiteralMatcherIsFaithful()
    ensures Faithful(LiteralMatcher)
  {
  }

  /** `patterns.some(p => p.test(text))`, tried in list order. */
  function AnyMatches(m: Matcher, patterns: seq<Pattern>, text: string): (r: bool)
    ensures r <==> exists i :: 0 <= i < |patterns| && m(patterns[i], text)
  {
    if patterns == [] then false
    else m(patterns[0], text) || AnyMatches(m, patterns[1..], text)
  }

  /** The basic patterns are tried first and win; then the training patterns;
      a message matching neither is complex. */
  function ClassifyQuery(m: Matcher, message: string): (q: QueryType)
    ensures q == Basic <==> exists p :: p in BasicPatterns && m(p, message)
    ensures q == Training <==>
      (forall p :: p in BasicPatterns ==> !m(p, message)) &&
      (exists p :: p in TrainingPatterns && m(p, message))
    ensures q == Complex <==>
      forall p :: p in BasicPatterns + TrainingPatterns ==> !m(p, message)
  {
    if AnyMatches(m, BasicPatterns, message) then Basic
    else if AnyMatches(m, TrainingPatterns, message) then Training
    else Complex
  }

  /** A message containing "sit", "stay", "come" or "age" in any case is basic,
      whatever else it mentions, training words included. */
  lemma {:induction false} BasicWordWins(m: Matcher, message: string, w: string)
    requires Faithful(m)
    requires w in LiteralAlternatives(HowOldOrAge) + LiteralAlternatives(BasicCommand)
    requires ContainsFolded(message, w)
    ensures ClassifyQuery(m, message) == Basic
  {
    if w in LiteralAlternatives(HowOldOrAge) {
      assert HasLiteral(HowOldOrAge, message);
      assert m(HowOldOrAge, message);
    } else {
      assert HasLiteral(BasicCommand, message);
      assert m(BasicCommand, message);
    }
  }

  /** With a faithful engine a message is a training query exactly when no
      basic pattern matches and it contains one of the training words. */
  lemma {:induction false} TrainingIffTrainingWord(m: Matcher, message: string)
    requires Faithful(m)
    ensures ClassifyQuery(m, message) == Training <==>
      (forall p :: p in BasicPatterns ==> !m(p, message)) &&
      (exists p :: p in TrainingPatterns && HasLiteral(p, message))
  {
    forall p | p in TrainingPatterns
      ensures m(p, message) <==> HasLiteral(p, message)
    {
      assert IsPlain(p);
    }
  }

  /** A concrete case of precedence: asking how to train a dog to stay is basic. */
  lemma TrainToStayIsBasic(m: Matcher)
    requires Faithful(m)
    ensures ClassifyQuery(m, "How do I train my dog to stay?") == Basic
  {
    var s := "How do I train my dog to stay?";
    assert Fold(s)[25..29] == "stay";
    assert OccursAt(Fold(s), "stay", 25);
    BasicWordWins(m, s, "stay");
  }

  // ---------------------------------------------------------------------
  // Context selection

  datatype Role = System | User | Assistant

  /** One message of a model request. */
  datatype Completion = Completion(role: Role, content: string)

  /** How many past turns a query of this type may carry. */
  function TurnLimit(q: QueryType): nat {
    match q
    case Basic => 1
    case Training => 3
    case Complex => 5
  }

  /** `s.slice(-n)` for n >= 1: the last n elements, or all of s when shorter. */
  function LastN<T>(s: seq<T>, n: nat): (r: seq<T>)
    requires n >= 1
    ensures |r| == if |s| < n then |s| else n
    ensures r == s[|s| - |r|..]
  {
    if |s| <= n then s else s[|s| - n..]
  }

  /** The history turns whose own message is a training query, in order. */
  function TrainingTurns(m: Matcher, history: seq<ChatMessage>): (r: seq<ChatMessage>)
    ensures |r| <= |history|
  {
    if history == [] then []
    else
      var rest := TrainingTurns(m, history[1..]);
      if ClassifyQuery(m, history[0].message) == Training then [history[0]] + rest else rest
  }

  /** A turn is kept exactly when it is in the history and its own message is
      a training query: non-training turns are never kept. */
  lemma {:induction false} TrainingTurnsMembers(m: Matcher, history: seq<ChatMessage>)
    ensures forall t :: t in TrainingTurns(m, history) <==> t in history && ClassifyQuery(m, t.message) == Training
  {
    if history != [] {
      TrainingTurnsMembers(m, history[1..]);
      assert history == [history[0]] + history[1..];
    }
  }

  /** Filtering distributes over concatenation, so the filter keeps history order. */
  lemma {:induction false} TrainingTurnsAppend(m: Matcher, a: seq<ChatMessage>, b: seq<ChatMessage>)
    ensures TrainingTurns(m, a + b) == TrainingTurns(m, a) + TrainingTurns(m, b)
  {
    if a == [] {
      assert a + b == b;
    } else {
      var ab := a + b;
      assert ab[0] == a[0] && ab[1..] == a[1..] + b;
      TrainingTurnsAppend(m, a[1..], b);
      var keep := ClassifyQuery(m, a[0].message) == Training;
      var head := if keep then [a[0]] else [];
      assert TrainingTurns(m, ab) == head + TrainingTurns(m, ab[1..]);
      assert TrainingTurns(m, a) == head + TrainingTurns(m, a[1..]);
    }
  }

  /** The turns forwarded for a query of type q: the last turn for basic
      queries, the last three training turns for training queries, the last
      five turns for complex ones. */
  function SelectTurns(m: Matcher, history: seq<ChatMessage>, q: QueryType): (r: seq<ChatMessage>)
    ensures |r| <= TurnLimit(q)
    ensures forall t :: t in r ==> t in history
    ensures q != Training ==> |r| == (if |history| < TurnLimit(q) then |history| else TurnLimit(q))
    ensures q != Training ==> r == history[|history| - |r|..]
    ensures q == Training ==> forall t :: t in r ==> ClassifyQuery(m, t.message) == Training
    ensures q == Training ==>
      var tt := TrainingTurns(m, history);
      |r| == (if |tt| < 3 then |tt| else 3) && r == tt[|tt| - |r|..]
  {
    TrainingTurnsMembers(m, history);
    match q
    case Basic => LastN(history, 1)
    case Training => LastN(TrainingTurns(m, history), 3)
    case Complex => LastN(history, 5)
  }

  /** Older turns never displace newer ones: once the recent part of the
      history holds three training turns, nothing before it is selected. */
  lemma {:induction false} TrainingSelectionIgnoresOlder(m: Matcher, older: seq<ChatMessage>, recent: seq<ChatMessage>)
    requires |TrainingTurns(m, recent)| >= 3
    ensures SelectTurns(m, older + recent, Training) == SelectTurns(m, recent, Training)
  {
    TrainingTurnsAppend(m, older, recent);
    var a, b := TrainingTurns(m, older), TrainingTurns(m, recent);
    assert (a + b)[|a + b| - 3..] == b[|b| - 3..];
  }

  /** A newer turn that is not a training query leaves the training selection
      as it was. */
  lemma {:induction false} NonTrainingTurnIgnored(m: Matcher, history: seq<ChatMessage>, t: ChatMessage)
    requires ClassifyQuery(m, t.message) != Training
    ensures SelectTurns(m, history + [t], Training) == SelectTurns(m, history, Training)
  {
    TrainingTurnsAppend(m, history, [t]);
    assert TrainingTurns(m, [t]) == [];
    assert TrainingTurns(m, history) + [] == TrainingTurns(m, history);
  }

  /** The message at position j of the expansion of a list of turns. */
  function TurnMessage(turns: seq<ChatMessage>, j: nat): Completion
    requires j < 2 * |turns|
  {
    if j % 2 == 0 then Completion(User, turns[j / 2].message)
    else Completion(Assistant, turns[j / 2].aiResponse)
  }

  /** `turns.flatMap(t => [user t.message, assistant t.ai_response])`. */
  function Expand(turns: seq<ChatMessage>): (r: seq<Completion>)
    ensures |r| == 2 * |turns|
  {
    if turns == [] then []
    else [Completion(User, turns[0].message), Completion(Assistant, turns[0].aiResponse)] + Expand(turns[1..])
  }

  /** Each turn becomes a user message followed by an assistant message, in order. */
  lemma {:induction false} ExpandAt(turns: seq<ChatMessage>)
    ensures forall j :: 0 <= j < |Expand(turns)| ==> Expand(turns)[j] == TurnMessage(turns, j)
  {
    if turns != [] {
      ExpandAt(turns[1..]);
      var r, rest := Expand(turns), Expand(turns[1..]);
      forall j | 2 <= j < |r|
        ensures r[j] == TurnMessage(turns, j)
      {
        assert r[j] == rest[j - 2] == TurnMessage(turns[1..], j - 2);
        assert (j - 2) / 2 == j / 2 - 1 && (j - 2) % 2 == j % 2;
        assert turns[1..][j / 2 - 1] == turns[j / 2];
      }
    }
  }

  /** The history messages sent with a query: 2k messages for the k selected
      turns, alternating user and assistant, in history order. */
  function OptimizedContext(m: Matcher, history: seq<ChatMessage>, q: QueryType): (r: seq<Completion>)
    ensures |r| == 2 * |SelectTurns(m, history, q)| <= 2 * TurnLimit(q)
    ensures forall j :: 0 <= j < |r| ==> r[j] == TurnMessage(SelectTurns(m, history, q), j)
  {
    var turns := SelectTurns(m, history, q);
    ExpandAt(turns);
    Expand(turns)
  }
}
