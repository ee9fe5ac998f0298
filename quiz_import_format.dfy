/**
 * The format the quiz import form advertises next to its text area, read the
 * way `importQuiz` reads a decoded document. The advertised sample does not
 * import: it has no `modeRandom`, calls the question text `text` where the
 * importer reads `question`, and gives each option as an object where the
 * importer expects its text. A sample written the way the importer reads
 * goes through.
 */
module QuizImportFormat {
  import opened Base
  import opened Json
  import opened Imports

  /** One option of the advertised sample: an object with its text and its letter. */
  function LetteredOption(text: string, id: string): Json
  {
    JObject([("text", JString(text)), ("id", JString(id))])
  }

  /** The question of the advertised sample: its text under `text`, its options as lettered objects. */
  const HelpQuestion: Json := JObject([
    ("text", JString("Texte de la question")),
    ("options", JList([LetteredOption("Première option", "A"), LetteredOption("Deuxième option", "B"),
                       LetteredOption("Troisième option", "C"), LetteredOption("Quatrième option", "D")])),
    ("correctAnswer", JString("B")),
    ("explanation", JString("Explication de la réponse"))])

  /** The sample shown as the expected format, as `json_decode` hands it over. */
  const HelpExample: Json := JObject([
    ("title", JString("Titre du quiz")),
    ("level", JString("Niveau du quiz")),
    ("categories", JList([JString("Catégorie 1"), JString("Catégorie 2")])),
    ("questions", JList([HelpQuestion])),
    ("timePerQuestion", JInt(30)),
    ("passingScore", JInt(70))])

  /** The same question written the way the importer reads it. */
  const ImportableQuestion: Json := JObject([
    ("question", JString("Texte de la question")),
    ("options", JList([JString("Première option"), JString("Deuxième option"),
                       JString("Troisième option"), JString("Quatrième option")])),
    ("correctAnswer", JString("B")),
    ("explanation", JString("Explication de la réponse"))])

  /** The same quiz written the way the importer reads it. */
  const ImportableExample: Json := JObject([
    ("title", JString("Titre du quiz")),
    ("level", JString("Niveau du quiz")),
    ("categories", JList([JString("Catégorie 1"), JString("Catégorie 2")])),
    ("questions", JList([ImportableQuestion])),
    ("timePerQuestion", JInt(30)),
    ("passingScore", JInt(70)),
    ("modeRandom", JBool(false))])

  /** The sample sets no `modeRandom`, and its one question is `HelpQuestion`. */
  lemma HelpExampleReads()
    ensures Get(HelpExample, "modeRandom") == JNull
    ensures Elements(Get(HelpExample, "questions")) == [HelpQuestion]
  {
    var quiz := HelpExample.members;
    assert forall k :: 0 <= k < |quiz| ==> quiz[k].0 != "modeRandom";
    LookupIsLast(quiz, "questions", 3);
  }

  /** The sample's question has no `question` key, and each of its four options is an array. */
  lemma HelpQuestionReads()
    ensures QuestionOf(HelpQuestion).text == None
    ensures |QuestionOf(HelpQuestion).options| == 4
    ensures forall j :: 0 <= j < 4 ==> QuestionOf(HelpQuestion).options[j] == None
  {
    var question := HelpQuestion.members;
    assert forall k :: 0 <= k < |question| ==> question[k].0 != "question";
    LookupIsLast(question, "options", 1);
    var options := Elements(Get(HelpQuestion, "options"));
    assert forall j :: 0 <= j < |options| ==> options[j].JObject?;
  }

  /**
   * Pasting the advertised sample ends in an uncaught `TypeError`: `setModeRandom` receives
   * `null`, and so would the question's `setText`, and each option's `setText` an array.
   */
  lemma HelpExampleDoesNotImport()
    ensures QuizPlanOf(HelpExample).head.modeRandom == None
    ensures |QuizPlanOf(HelpExample).questions| == 1
    ensures QuizPlanOf(HelpExample).questions[0].text == None
    ensures |QuizPlanOf(HelpExample).questions[0].options| == 4
    ensures forall j :: 0 <= j < 4 ==> QuizPlanOf(HelpExample).questions[0].options[j] == None
    ensures !QuizTypeCheck(HelpExample)
  {
    HelpExampleReads();
    HelpQuestionReads();
    assert QuizPlanOf(HelpExample).questions == [QuestionOf(HelpQuestion)];
  }

  /** The corrected sample gives each of the four setters a value of their type, and `false` to `setModeRandom`. */
  lemma ImportableHeadReads()
    ensures HeadComplete(QuizHeadOf(ImportableExample))
    ensures QuizHeadOf(ImportableExample).modeRandom == Some(false)
  {
    var quiz := ImportableExample.members;
    LookupIsLast(quiz, "title", 0);
    LookupIsLast(quiz, "timePerQuestion", 4);
    LookupIsLast(quiz, "passingScore", 5);
  }

  /** The corrected sample names its level and its categories. */
  lemma ImportableLookupsRead()
    ensures LevelName(ImportableExample).Some?
    ensures AllSome(CategoryNames(ImportableExample))
  {
    var quiz := ImportableExample.members;
    LookupIsLast(quiz, "level", 1);
    LookupIsLast(quiz, "categories", 2);
    var categories := Elements(Get(ImportableExample, "categories"));
    assert forall j :: 0 <= j < |categories| ==> categories[j].JString?;
  }

  /** The corrected sample's one question is `ImportableQuestion`. */
  lemma ImportableQuestionsRead()
    ensures Elements(Get(ImportableExample, "questions")) == [ImportableQuestion]
  {
    LookupIsLast(ImportableExample.members, "questions", 3);
  }

  /** The corrected question gives its text, its answer and its explanation a string each. */
  lemma ImportableQuestionTexts()
    ensures QuestionOf(ImportableQuestion).text.Some?
    ensures QuestionOf(ImportableQuestion).correctAnswer.Some?
    ensures QuestionOf(ImportableQuestion).explanation.Some?
  {
    var question := ImportableQuestion.members;
    LookupIsLast(question, "question", 0);
    LookupIsLast(question, "correctAnswer", 2);
  }

  /** The corrected question's four options are strings, which `QuestionOption::setText` accepts. */
  lemma ImportableQuestionOptions()
    ensures AllSome(QuestionOf(ImportableQuestion).options)
    ensures |QuestionOf(ImportableQuestion).options| == 4
  {
    LookupIsLast(ImportableQuestion.members, "options", 1);
    var options := Elements(Get(ImportableQuestion, "options"));
    assert forall j :: 0 <= j < |options| ==> options[j].JString?;
  }

  /** The corrected sample imports: no setter throws, and the quiz it builds is not random. */
  lemma ImportableExampleImports()
    ensures QuizTypeCheck(ImportableExample)
    ensures QuizPlanOf(ImportableExample).head.modeRandom == Some(false)
  {
    ImportableHeadReads();
    ImportableLookupsRead();
    ImportableQuestionsRead();
    ImportableQuestionTexts();
    ImportableQuestionOptions();
    assert QuizPlanOf(ImportableExample).questions == [QuestionOf(ImportableQuestion)];
  }
}
