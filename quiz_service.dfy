/**
 * The quiz service's `transformApiQuizToComponentData`, in its two
 * versions: the current one (options keep their database id; level name,
 * random mode and question count are carried along) and the older one
 * under `src/` (options are identified by their lower-cased letter, and the
 * correct answer is lower-cased to match). `getQuiz` hands a fetched quiz
 * to the transform and rethrows any failure.
 */
module QuizService {
  import opened Base
  import opened Text

  /** A quiz as the API serialises it; `null` or missing members are `None`. */
  datatype ApiOption = ApiOption(id: int, optionId: Option<string>, text: string)
  datatype ApiQuestion = ApiQuestion(id: int, text: string, options: seq<ApiOption>, correctAnswer: string, explanation: Option<string>)
  datatype ApiLevel = ApiLevel(name: Option<string>)
  datatype ApiQuiz = ApiQuiz(
    title: string,
    timePerQuestion: int,
    passingScore: int,
    modeRandom: Option<bool>,
    level: Option<ApiLevel>,
    questionCount: Option<int>,
    questions: seq<ApiQuestion>)

  /** What can go wrong: the request, or reading a member of `null` inside the transform. */
  datatype Failure = RequestFailed(message: string) | TypeError

  // ---------------------------------------------------------------------------
  // The current transform

  datatype QuizOption = QuizOption(id: int, text: string)
  datatype QuizQuestion = QuizQuestion(id: int, text: string, options: seq<QuizOption>, correctAnswer: string, explanation: Option<string>)
  datatype QuizData = QuizData(
    title: string,
    questions: seq<QuizQuestion>,
    timePerQuestion: int,
    passingScore: int,
    modeRandom: Option<bool>,
    level: Option<string>,
    questionCount: Option<int>)

  function TransformQuestion(q: ApiQuestion): (r: QuizQuestion)
    ensures r.id == q.id && r.text == q.text && r.correctAnswer == q.correctAnswer && r.explanation == q.explanation
    ensures |r.options| == |q.options|
    ensures forall k :: 0 <= k < |q.options| ==> r.options[k] == QuizOption(q.options[k].id, q.options[k].text)
  {
    QuizQuestion(q.id, q.text,
                 seq(|q.options|, k requires 0 <= k < |q.options| => QuizOption(q.options[k].id, q.options[k].text)),
                 q.correctAnswer, q.explanation)
  }

  /** The questions in order, each option as `{id, text}`; the level is `level.name`, which throws when there is no level. */
  function Transform(api: ApiQuiz): (r: Result<QuizData, Failure>)
    ensures r.Err? <==> api.level.None?
    ensures r.Err? ==> r.error == TypeError
    ensures r.Ok? ==> var d := r.value;
      d.title == api.title && d.timePerQuestion == api.timePerQuestion && d.passingScore == api.passingScore
      && d.modeRandom == api.modeRandom && d.questionCount == api.questionCount && d.level == api.level.value.name
    ensures r.Ok? ==> |r.value.questions| == |api.questions|
    ensures r.Ok? ==> forall i :: 0 <= i < |api.questions| ==> r.value.questions[i] == TransformQuestion(api.questions[i])
  {
    if api.level.None? then Err(TypeError)
    else
      Ok(QuizData(api.title,
                  seq(|api.questions|, i requires 0 <= i < |api.questions| => TransformQuestion(api.questions[i])),
                  api.timePerQuestion, api.passingScore, api.modeRandom, api.level.value.name, api.questionCount))
  }

  /** What the transform keeps of a quiz: the whole quiz but the option letters and the level beyond its name. */
  function Kept(api: ApiQuiz): ApiQuiz
  {
    api.(level := if api.level.Some? then Some(ApiLevel(api.level.value.name)) else None,
         questions := seq(|api.questions|, i requires 0 <= i < |api.questions| =>
           api.questions[i].(options := seq(|api.questions[i].options|, k requires 0 <= k < |api.questions[i].options| =>
             api.questions[i].options[k].(optionId := None)))))
  }

  /** Rebuilds what the transform kept, from its output. */
  function Restore(d: QuizData): ApiQuiz
  {
    ApiQuiz(d.title, d.timePerQuestion, d.passingScore, d.modeRandom, Some(ApiLevel(d.level)), d.questionCount,
            seq(|d.questions|, i requires 0 <= i < |d.questions| =>
              var q := d.questions[i];
              ApiQuestion(q.id, q.text,
                          seq(|q.options|, k requires 0 <= k < |q.options| => ApiOption(q.options[k].id, None, q.options[k].text)),
                          q.correctAnswer, q.explanation)))
  }

  /** Nothing but the option letters is lost: the output determines the rest of the quiz. */
  lemma TransformLosesOnlyLetters(api: ApiQuiz)
    requires api.level.Some?
    ensures Restore(Transform(api).value) == Kept(api)
  {
    var d := Transform(api).value;
    var a, b := Restore(d), Kept(api);
    assert |a.questions| == |b.questions|;
    forall i | 0 <= i < |a.questions|
      ensures a.questions[i] == b.questions[i]
    {
      var q := api.questions[i];
      assert d.questions[i] == TransformQuestion(q);
      assert a.questions[i].options == b.questions[i].options;
    }
  }

  /** `getQuiz`: a failed request and a failed transform both reach the caller unchanged. */
  function GetQuiz(response: Result<ApiQuiz, string>): (r: Result<QuizData, Failure>)
    ensures response.Err? ==> r == Err(RequestFailed(response.error))
    ensures response.Ok? ==> r == Transform(response.value)
    ensures r.Ok? <==> response.Ok? && response.value.level.Some?
  {
    match response
    case Err(message) => Err(RequestFailed(message))
    case Ok(api) => Transform(api)
  }

  // ---------------------------------------------------------------------------
  // The older transform under `src/`

  datatype LegacyOption = LegacyOption(id: string, text: string)
  datatype LegacyQuestion = LegacyQuestion(id: int, text: string, options: seq<LegacyOption>, correctAnswer: string, explanation: Option<string>)
  datatype LegacyQuizData = LegacyQuizData(title: string, questions: seq<LegacyQuestion>, timePerQuestion: int, passingScore: int)

  /** `optionId.toLowerCase()` needs a letter on every option. */
  predicate HasLetters(q: ApiQuestion)
  {
    forall k :: 0 <= k < |q.options| ==> q.options[k].optionId.Some?
  }

  function LegacyQuestionOf(q: ApiQuestion): (r: LegacyQuestion)
    requires HasLetters(q)
    ensures r.id == q.id && r.text == q.text && r.explanation == q.explanation
    ensures r.correctAnswer == ToLower(q.correctAnswer)
    ensures |r.options| == |q.options|
    ensures forall k :: 0 <= k < |q.options| ==> r.options[k] == LegacyOption(ToLower(q.options[k].optionId.value), q.options[k].text)
  {
    LegacyQuestion(q.id, q.text,
                   seq(|q.options|, k requires 0 <= k < |q.options| => LegacyOption(ToLower(q.options[k].optionId.value), q.options[k].text)),
                   ToLower(q.correctAnswer), q.explanation)
  }

  /** The questions in order, option letters and the correct answer lower-cased; an option without a letter throws. */
  function LegacyTransform(api: ApiQuiz): (r: Result<LegacyQuizData, Failure>)
    ensures r.Err? <==> exists i :: 0 <= i < |api.questions| && !HasLetters(api.questions[i])
    ensures r.Err? ==> r.error == TypeError
    ensures r.Ok? ==> r.value.title == api.title && r.value.timePerQuestion == api.timePerQuestion
                      && r.value.passingScore == api.passingScore
    ensures r.Ok? ==> |r.value.questions| == |api.questions|
    ensures r.Ok? ==> forall i :: 0 <= i < |api.questions| ==> r.value.questions[i] == LegacyQuestionOf(api.questions[i])
  {
    if exists i :: 0 <= i < |api.questions| && !HasLetters(api.questions[i]) then Err(TypeError)
    else
      Ok(LegacyQuizData(api.title,
                        seq(|api.questions|, i requires 0 <= i < |api.questions| => LegacyQuestionOf(api.questions[i])),
                        api.timePerQuestion, api.passingScore))
  }

  /** After the older transform the correct answer names option `k` exactly when the API's letters agree up to case. */
  lemma LegacyAnswerMatchesIgnoringCase(api: ApiQuiz, i: nat, k: nat)
    requires LegacyTransform(api).Ok?
    requires i < |api.questions| && k < |api.questions[i].options|
    ensures var q := LegacyTransform(api).value.questions[i];
      q.correctAnswer == q.options[k].id
      <==> ToLower(api.questions[i].correctAnswer) == ToLower(api.questions[i].options[k].optionId.value)
  {
  }

  /** The older transform's letters are already lower case: transforming its output again would change nothing. */
  lemma LegacyLettersLowerCase(api: ApiQuiz, i: nat, k: nat)
    requires LegacyTransform(api).Ok?
    requires i < |api.questions| && k < |api.questions[i].options|
    ensures var q := LegacyTransform(api).value.questions[i];
      ToLower(q.options[k].id) == q.options[k].id && ToLower(q.correctAnswer) == q.correctAnswer
  {
    var q := api.questions[i];
    ToLowerIdempotent(q.options[k].optionId.value);
    ToLowerIdempotent(q.correctAnswer);
  }

  /** The older `getQuiz`: the same rethrowing around the older transform. */
  function LegacyGetQuiz(response: Result<ApiQuiz, string>): (r: Result<LegacyQuizData, Failure>)
    ensures response.Err? ==> r == Err(RequestFailed(response.error))
    ensures response.Ok? ==> r == LegacyTransform(response.value)
  {
    match response
    case Err(message) => Err(RequestFailed(message))
    case Ok(api) => LegacyTransform(api)
  }
}
