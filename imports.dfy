/**
 * The three admin import actions. Each takes the submitted form's decoded
 * JSON, builds entities from it with their typed setters, persists them and
 * flushes once. Their outcomes:
 *  - the form was not submitted: the form is shown again;
 *  - the text is not valid JSON: a `danger` message, and the form again;
 *  - a setter receives `null` or an array: PHP throws a `TypeError`, which
 *    the actions' `catch (\Exception $e)` does not catch, so the request
 *    fails before anything is flushed;
 *  - the database refuses the flush: a `danger` message with its text, and
 *    the form again;
 *  - otherwise a `success` message and a redirect to the entity's list.
 * A ghost out-parameter names the objects an action created, so that the
 * contracts can say what each of them holds.
 */
module Imports {
  import opened Base
  import opened Json
  import opened QuizEntities
  import opened Seqs
  import opened SnvEntities
  import opened EntityStore

  /** The form as the action receives it; `Submitted(None)` is text that `json_decode` rejects. */
  datatype Request = NotSubmitted | Submitted(decoded: Option<Json>)

  /** How the action ends: a redirect to the list, the import form again, or an uncaught `TypeError`. */
  datatype Outcome = RedirectToIndex | RenderForm | Crash

  datatype Flash = Flash(kind: string, message: string)

  const InvalidJson: Flash := Flash("danger", "Le JSON fourni n'est pas valide.")
  const ImportErrorPrefix: string := "Une erreur est survenue lors de l'import : "
  const QuizImported: Flash := Flash("success", "Le quiz a été importé avec succès !")
  const ScenarioImported: Flash := Flash("success", "Le scénario a été importé avec succès !")
  const CardsImported: Flash := Flash("success", "Les cartes ont été importées avec succès !")

  /** The message of a refused flush. */
  function ImportFailed(message: string): (f: Flash)
    ensures f.kind == "danger" && ImportErrorPrefix <= f.message
    ensures f.message[|ImportErrorPrefix|..] == message
  {
    Flash("danger", ImportErrorPrefix + message)
  }

  /** The end of every import: one flush, then the success message and a redirect, or the database's message and the form. */
  method Conclude(em: EntityManager, flushFailure: Option<string>, success: Flash) returns (outcome: Outcome, flash: Option<Flash>)
    modifies em`rows, em`pending, em`flushes
    ensures em.flushes == old(em.flushes) + 1
    ensures flushFailure.None? ==>
      outcome == RedirectToIndex && flash == Some(success) && em.rows == old(em.rows) + old(em.pending)
    ensures flushFailure.Some? ==>
      outcome == RenderForm && flash == Some(ImportFailed(flushFailure.value)) && em.rows == old(em.rows)
  {
    em.Flush(flushFailure);
    if flushFailure.Some? {
      return RenderForm, Some(ImportFailed(flushFailure.value));
    }
    return RedirectToIndex, Some(success);
  }

  // ---------------------------------------------------------------------------
  // Learning cards

  /** What a learning card holds. */
  datatype CardFields = CardFields(theme: Option<string>, niveau: Option<string>, info: Option<string>, reference: Option<string>)

  function FieldsOfCard(c: LearningCard): CardFields
    reads c
  {
    CardFields(c.theme, c.niveau, c.info, c.reference)
  }

  /** The card built from one entry of `cartes`, with the top-level `theme`. */
  function CardOf(theme: Json, entry: Json): CardFields
  {
    CardFields(AsString(theme), AsString(Get(entry, "niveau")), AsString(Get(entry, "info")), AsString(Get(entry, "reference")))
  }

  /** Every setter received a string. */
  predicate CardComplete(c: CardFields)
  {
    c.theme.Some? && c.niveau.Some? && c.info.Some? && c.reference.Some?
  }

  /** The cards an import builds: one per entry, in order, every one with the top-level theme. */
  function PlannedCards(theme: Json, entries: seq<Json>): (r: seq<CardFields>)
    ensures |r| == |entries|
    ensures forall k :: 0 <= k < |r| ==> r[k].theme == AsString(theme)
  {
    seq(|entries|, k requires 0 <= k < |entries| => CardOf(theme, entries[k]))
  }

  /** No setter throws. */
  predicate CardsTypeCheck(theme: Json, entries: seq<Json>)
  {
    forall k :: 0 <= k < |entries| ==> CardComplete(PlannedCards(theme, entries)[k])
  }

  /** The theme is read once per card: with no card a missing theme does no harm; otherwise it must be a scalar, as must every card's three fields. */
  lemma CardsTypeCheckCases(theme: Json, entries: seq<Json>)
    ensures CardsTypeCheck(theme, entries) <==>
      entries == [] || (AsString(theme).Some? && forall k :: 0 <= k < |entries| ==>
        AsString(Get(entries[k], "niveau")).Some? && AsString(Get(entries[k], "info")).Some? && AsString(Get(entries[k], "reference")).Some?)
  {
    var planned := PlannedCards(theme, entries);
    assert forall k :: 0 <= k < |entries| ==> planned[k] == CardOf(theme, entries[k]);
    if entries != [] && CardsTypeCheck(theme, entries) {
      assert CardComplete(planned[0]);
    }
  }

  /**
   * Two cards under one key in `cartes` are one entry of the decoded array: one card is
   * planned, from the second, and the first is never passed to a setter.
   */
  lemma RepeatedCardKeyImportsOnce(theme: Json, key: string, first: Json, second: Json)
    ensures PlannedCards(theme, Elements(JObject([(key, first), (key, second)]))) == [CardOf(theme, second)]
    ensures CardsTypeCheck(theme, Elements(JObject([(key, first), (key, second)]))) <==> CardComplete(CardOf(theme, second))
  {
    RepeatedNameReadOnce(key, first, second);
    assert PlannedCards(theme, [second])[0] == CardOf(theme, second);
  }

  /** An entry with its own `theme` member appended. */
  function WithTheme(entry: Json, t: Json): Json
  {
    if entry.JObject? then JObject(entry.members + [("theme", t)]) else entry
  }

  /** A `theme` inside a card entry is never read: adding one to every entry changes neither the cards nor whether the import throws. */
  lemma EntryThemeIgnored(theme: Json, entries: seq<Json>, t: Json)
    ensures var entries' := seq(|entries|, k requires 0 <= k < |entries| => WithTheme(entries[k], t));
      PlannedCards(theme, entries') == PlannedCards(theme, entries)
      && (CardsTypeCheck(theme, entries') <==> CardsTypeCheck(theme, entries))
  {
    var entries' := seq(|entries|, k requires 0 <= k < |entries| => WithTheme(entries[k], t));
    forall k | 0 <= k < |entries|
      ensures CardOf(theme, entries'[k]) == CardOf(theme, entries[k])
    {
      if entries[k].JObject? {
        var ms := entries[k].members;
        assert (ms + [("theme", t)])[..|ms|] == ms;
      }
    }
  }

  function CardRows(cards: seq<LearningCard>): (r: seq<Row>)
    ensures |r| == |cards| && forall k :: 0 <= k < |r| ==> r[k] == CardRow(cards[k])
  {
    seq(|cards|, k requires 0 <= k < |cards| => CardRow(cards[k]))
  }

  /** One iteration's `new LearningCard()` and its four setters. */
  method NewCard(theme: string, niveau: string, info: string, reference: string) returns (card: LearningCard)
    ensures fresh(card) && FieldsOfCard(card) == CardFields(Some(theme), Some(niveau), Some(info), Some(reference))
  {
    card := new LearningCard();
    card.SetTheme(theme);
    card.SetNiveau(niveau);
    card.SetInfo(info);
    card.SetReference(reference);
  }

  /** The `foreach` over `cartes`, following the planned cards: `false` where a setter would throw, otherwise one persisted card per entry. */
  method BuildCards(em: EntityManager, planned: seq<CardFields>) returns (ok: bool, ghost cards: seq<LearningCard>)
    modifies em`pending
    ensures ok <==> forall k :: 0 <= k < |planned| ==> CardComplete(planned[k])
    ensures ok ==>
      && |cards| == |planned|
      && (forall k :: 0 <= k < |cards| ==> fresh(cards[k]) && FieldsOfCard(cards[k]) == planned[k])
      && em.pending == old(em.pending) + CardRows(cards)
  {
    cards := [];
    var i := 0;
    while i < |planned|
      invariant 0 <= i <= |planned| && |cards| == i
      invariant forall k :: 0 <= k < i ==> CardComplete(planned[k]) && fresh(cards[k]) && FieldsOfCard(cards[k]) == planned[k]
      invariant em.pending == old(em.pending) + CardRows(cards)
    {
      var c := planned[i];
      if !CardComplete(c) {
        return false, cards;
      }
      var card := NewCard(c.theme.value, c.niveau.value, c.info.value, c.reference.value);
      em.Persist(CardRow(card));
      assert CardRows(cards + [card]) == CardRows(cards) + [CardRow(card)];
      cards := cards + [card];
      i := i + 1;
    }
    return true, cards;
  }

  /** `importCards` */
  method ImportCards(em: EntityManager, request: Request, flushFailure: Option<string>)
    returns (outcome: Outcome, flash: Option<Flash>, ghost cards: seq<LearningCard>)
    modifies em
    ensures request.NotSubmitted? ==> outcome == RenderForm && flash == None && unchanged(em)
    ensures request == Submitted(None) ==> outcome == RenderForm && flash == Some(InvalidJson) && unchanged(em)
    ensures request.Submitted? && request.decoded.Some? ==>
      var (theme, entries) := (Get(request.decoded.value, "theme"), Elements(Get(request.decoded.value, "cartes")));
      && (outcome == Crash <==> ReadThrows(request.decoded.value) || !CardsTypeCheck(theme, entries))
      && (outcome == Crash ==> flash == None && em.rows == old(em.rows) && em.flushes == old(em.flushes))
      && (outcome != Crash ==>
            && em.flushes == old(em.flushes) + 1
            && |cards| == |entries|
            && (forall k :: 0 <= k < |cards| ==> fresh(cards[k]) && FieldsOfCard(cards[k]) == PlannedCards(theme, entries)[k])
            && (flushFailure.None? ==>
                  outcome == RedirectToIndex && flash == Some(CardsImported)
                  && em.rows == old(em.rows) + old(em.pending) + CardRows(cards))
            && (flushFailure.Some? ==>
                  outcome == RenderForm && flash == Some(ImportFailed(flushFailure.value)) && em.rows == old(em.rows)))
  {
    cards := [];
    if request.NotSubmitted? {
      return RenderForm, None, cards;
    }
    if request.decoded.None? {
      return RenderForm, Some(InvalidJson), cards;
    }
    var json := request.decoded.value;
    if ReadThrows(json) {
      return Crash, None, cards;
    }
    var ok;
    ok, cards := BuildCards(em, PlannedCards(Get(json, "theme"), Elements(Get(json, "cartes"))));
    if !ok {
      return Crash, None, cards;
    }
    outcome, flash := Conclude(em, flushFailure, CardsImported);
  }

  // ---------------------------------------------------------------------------
  // SNV scenarios

  datatype ScenarioFields = ScenarioFields(title: Option<string>, level: Option<string>, description: Option<string>)
  datatype VictimFields = VictimFields(description: Option<string>, correctAnswer: Option<int>, explanation: Option<string>)

  function FieldsOfScenario(s: Scenario): ScenarioFields
    reads s
  {
    ScenarioFields(s.title, s.level, s.description)
  }

  function FieldsOfVictim(v: Victim): VictimFields
    reads v
  {
    VictimFields(v.description, v.correctAnswer, v.explanation)
  }

  /** The scenario built from the top-level keys. */
  function ScenarioOf(json: Json): ScenarioFields
  {
    ScenarioFields(AsString(Get(json, "title")), AsString(Get(json, "level")), AsString(Get(json, "description")))
  }

  /** The victim built from one entry of `victimes`. */
  function VictimOf(entry: Json): VictimFields
  {
    VictimFields(AsString(Get(entry, "description")), AsInt(Get(entry, "correctAnswer")), AsString(Get(entry, "explanation")))
  }

  /** Every setter received a value of its type. */
  predicate VictimComplete(v: VictimFields)
  {
    v.description.Some? && v.correctAnswer.Some? && v.explanation.Some?
  }

  predicate ScenarioComplete(s: ScenarioFields)
  {
    s.title.Some? && s.level.Some? && s.description.Some?
  }

  /** The victims an import builds: one per entry, in order. */
  function PlannedVictims(entries: seq<Json>): (r: seq<VictimFields>)
    ensures |r| == |entries|
  {
    seq(|entries|, k requires 0 <= k < |entries| => VictimOf(entries[k]))
  }

  /** What `importScenario` reads from a decoded document: the scenario, then one victim per entry. */
  datatype ScenarioPlan = ScenarioPlan(scenario: ScenarioFields, victims: seq<VictimFields>)

  function ScenarioPlanOf(json: Json): ScenarioPlan
  {
    ScenarioPlan(ScenarioOf(json), PlannedVictims(Elements(Get(json, "victimes"))))
  }

  predicate ScenarioPlanComplete(p: ScenarioPlan)
  {
    ScenarioComplete(p.scenario) && forall k :: 0 <= k < |p.victims| ==> VictimComplete(p.victims[k])
  }

  /** No setter throws. */
  predicate ScenarioTypeCheck(json: Json)
  {
    ScenarioPlanComplete(ScenarioPlanOf(json))
  }

  function VictimRows(victims: seq<Victim>): (r: seq<Row>)
    ensures |r| == |victims| && forall k :: 0 <= k < |r| ==> r[k] == VictimRow(victims[k])
  {
    seq(|victims|, k requires 0 <= k < |victims| => VictimRow(victims[k]))
  }

  /** One iteration's `new SNVVictim()` and its four setters. */
  method NewVictim(description: string, correctAnswer: int, explanation: string, s: Scenario) returns (victim: Victim)
    ensures fresh(victim) && victim.scenario == s
    ensures FieldsOfVictim(victim) == VictimFields(Some(description), Some(correctAnswer), Some(explanation))
  {
    victim := new Victim();
    victim.SetDescription(description);
    victim.SetCorrectAnswer(correctAnswer);
    victim.SetExplanation(explanation);
    victim.SetScenario(s);
  }

  /** The `foreach` over `victimes`: `false` where a setter would throw, otherwise one persisted victim per entry, each pointing at `s`. */
  method BuildVictims(em: EntityManager, s: Scenario, planned: seq<VictimFields>) returns (ok: bool, ghost victims: seq<Victim>)
    modifies em`pending
    ensures ok <==> forall k :: 0 <= k < |planned| ==> VictimComplete(planned[k])
    ensures ok ==>
      && |victims| == |planned|
      && (forall k :: 0 <= k < |victims| ==>
            fresh(victims[k]) && FieldsOfVictim(victims[k]) == planned[k] && victims[k].scenario == s)
      && em.pending == old(em.pending) + VictimRows(victims)
  {
    victims := [];
    var i := 0;
    while i < |planned|
      invariant 0 <= i <= |planned| && |victims| == i
      invariant forall k :: 0 <= k < i ==>
        VictimComplete(planned[k]) && fresh(victims[k]) && FieldsOfVictim(victims[k]) == planned[k] && victims[k].scenario == s
      invariant em.pending == old(em.pending) + VictimRows(victims)
    {
      var v := planned[i];
      if !VictimComplete(v) {
        return false, victims;
      }
      var victim := NewVictim(v.description.value, v.correctAnswer.value, v.explanation.value, s);
      em.Persist(VictimRow(victim));
      assert VictimRows(victims + [victim]) == VictimRows(victims) + [VictimRow(victim)];
      victims := victims + [victim];
      i := i + 1;
    }
    return true, victims;
  }

  /** `new SNVScenario()` and its three setters. */
  method NewScenario(fields: ScenarioFields) returns (s: Scenario)
    requires ScenarioComplete(fields)
    ensures fresh(s) && FieldsOfScenario(s) == fields && s.victimes == []
  {
    s := new Scenario();
    s.SetTitle(fields.title.value);
    s.SetLevel(fields.level.value);
    s.SetDescription(fields.description.value);
  }

  /**
   * `importScenario`. The victims are tied to the scenario by `setScenario` alone, so the
   * new scenario's own `victimes` collection stays empty in memory. No validation runs:
   * a title of two characters or a correct answer of 7 is stored as given.
   */
  method ImportScenario(em: EntityManager, request: Request, flushFailure: Option<string>)
    returns (outcome: Outcome, flash: Option<Flash>, ghost scenario: Scenario?, ghost victims: seq<Victim>)
    modifies em
    ensures request.NotSubmitted? ==> outcome == RenderForm && flash == None && unchanged(em)
    ensures request == Submitted(None) ==> outcome == RenderForm && flash == Some(InvalidJson) && unchanged(em)
    ensures request.Submitted? && request.decoded.Some? ==>
      var p := ScenarioPlanOf(request.decoded.value);
      && (outcome == Crash <==> !ScenarioTypeCheck(request.decoded.value))
      && (outcome == Crash ==> flash == None && em.rows == old(em.rows) && em.flushes == old(em.flushes))
      && (outcome != Crash ==>
            && em.flushes == old(em.flushes) + 1
            && scenario != null && fresh(scenario)
            && FieldsOfScenario(scenario) == p.scenario && scenario.victimes == []
            && |victims| == |p.victims|
            && (forall k :: 0 <= k < |victims| ==>
                  fresh(victims[k]) && FieldsOfVictim(victims[k]) == p.victims[k] && victims[k].scenario == scenario)
            && (flushFailure.None? ==>
                  outcome == RedirectToIndex && flash == Some(ScenarioImported)
                  && em.rows == old(em.rows) + old(em.pending) + VictimRows(victims) + [ScenarioRow(scenario)])
            && (flushFailure.Some? ==>
                  outcome == RenderForm && flash == Some(ImportFailed(flushFailure.value)) && em.rows == old(em.rows)))
  {
    scenario, victims := null, [];
    if request.NotSubmitted? {
      return RenderForm, None, scenario, victims;
    }
    if request.decoded.None? {
      return RenderForm, Some(InvalidJson), scenario, victims;
    }
    outcome, flash, scenario, victims := ImportPlannedScenario(em, ScenarioPlanOf(request.decoded.value), flushFailure);
  }

  /** `importScenario` once the JSON is decoded and read into a plan. */
  method ImportPlannedScenario(em: EntityManager, p: ScenarioPlan, flushFailure: Option<string>)
    returns (outcome: Outcome, flash: Option<Flash>, ghost scenario: Scenario?, ghost victims: seq<Victim>)
    modifies em
    ensures outcome == Crash <==> !ScenarioPlanComplete(p)
    ensures outcome == Crash ==> flash == None && em.rows == old(em.rows) && em.flushes == old(em.flushes)
    ensures outcome != Crash ==>
      && em.flushes == old(em.flushes) + 1
      && scenario != null && fresh(scenario)
      && FieldsOfScenario(scenario) == p.scenario && scenario.victimes == []
      && |victims| == |p.victims|
      && (forall k :: 0 <= k < |victims| ==>
            fresh(victims[k]) && FieldsOfVictim(victims[k]) == p.victims[k] && victims[k].scenario == scenario)
      && (flushFailure.None? ==>
            outcome == RedirectToIndex && flash == Some(ScenarioImported)
            && em.rows == old(em.rows) + old(em.pending) + VictimRows(victims) + [ScenarioRow(scenario)])
      && (flushFailure.Some? ==>
            outcome == RenderForm && flash == Some(ImportFailed(flushFailure.value)) && em.rows == old(em.rows))
  {
    scenario, victims := null, [];
    if !ScenarioComplete(p.scenario) {
      return Crash, None, scenario, victims;
    }
    var s := NewScenario(p.scenario);
    scenario := s;
    var ok;
    ok, victims := BuildVictims(em, s, p.victims);
    if !ok {
      return Crash, None, scenario, victims;
    }
    em.Persist(ScenarioRow(s));
    outcome, flash := Conclude(em, flushFailure, ScenarioImported);
  }

  // ---------------------------------------------------------------------------
  // Quizzes

  /** The four top-level scalars of a quiz. */
  datatype QuizHead = QuizHead(title: Option<string>, timePerQuestion: Option<int>, passingScore: Option<int>, modeRandom: Option<bool>)

  /** A question entry: its three texts (the explanation may be `null`) and its option texts. */
  datatype QuestionFields = QuestionFields(
    text: Option<string>, correctAnswer: Option<string>, explanation: Option<Option<string>>, options: seq<Option<string>>)

  function HeadOfQuiz(q: Quiz): QuizHead
    reads q
  {
    QuizHead(q.title, q.timePerQuestion, q.passingScore, Some(q.modeRandom))
  }

  /** The values the four setters receive, `None` where one throws. */
  function QuizHeadOf(json: Json): QuizHead
  {
    QuizHead(AsString(Get(json, "title")), AsInt(Get(json, "timePerQuestion")),
             AsInt(Get(json, "passingScore")), AsBool(Get(json, "modeRandom")))
  }

  predicate HeadComplete(h: QuizHead)
  {
    h.title.Some? && h.timePerQuestion.Some? && h.passingScore.Some? && h.modeRandom.Some?
  }

  predicate AllSome<T>(s: seq<Option<T>>)
  {
    forall k :: 0 <= k < |s| ==> s[k].Some?
  }

  function Values<T>(s: seq<Option<T>>): (r: seq<T>)
    requires AllSome(s)
    ensures |r| == |s| && forall k :: 0 <= k < |s| ==> s[k] == Some(r[k])
  {
    seq(|s|, k requires 0 <= k < |s| => s[k].value)
  }

  /** Each value as a `string` parameter receives it. */
  function Texts(vs: seq<Json>): (r: seq<Option<string>>)
    ensures |r| == |vs| && forall k :: 0 <= k < |vs| ==> r[k] == AsString(vs[k])
  {
    seq(|vs|, k requires 0 <= k < |vs| => AsString(vs[k]))
  }

  /**
   * The level to look up: `Some(None)` when `level` is not set, the name when it is a
   * scalar, and `None` for an array, which the model treats as a `TypeError`.
   */
  function LevelName(json: Json): (r: Option<Option<string>>)
    ensures !IsSet(json, "level") ==> r == Some(None)
    ensures IsSet(json, "level") ==> (r.Some? <==> !IsArray(Get(json, "level")))
    ensures IsSet(json, "level") && r.Some? ==> r.value == AsString(Get(json, "level"))
  {
    if !IsSet(json, "level") then Some(None)
    else match AsString(Get(json, "level"))
      case None => None
      case Some(n) => Some(Some(n))
  }

  /** The category names visited: those of an array-valued `categories`, none otherwise. */
  function CategoryNames(json: Json): (r: seq<Option<string>>)
    ensures !IsArray(Get(json, "categories")) ==> r == []
    ensures IsArray(Get(json, "categories")) ==> r == Texts(Elements(Get(json, "categories")))
  {
    var v := Get(json, "categories");
    if IsSet(json, "categories") && IsArray(v) then Texts(Elements(v)) else []
  }

  /** The question built from one entry of `questions`. */
  function QuestionOf(entry: Json): QuestionFields
  {
    QuestionFields(AsString(Get(entry, "question")), AsString(Get(entry, "correctAnswer")),
                   AsNullableString(Get(entry, "explanation")), Texts(Elements(Get(entry, "options"))))
  }

  predicate QuestionComplete(q: QuestionFields)
  {
    q.text.Some? && q.correctAnswer.Some? && q.explanation.Some? && AllSome(q.options)
  }

  /** The questions an import builds: one per entry, in order. */
  function PlannedQuestions(entries: seq<Json>): (r: seq<QuestionFields>)
    ensures |r| == |entries| && forall k :: 0 <= k < |entries| ==> r[k] == QuestionOf(entries[k])
  {
    seq(|entries|, k requires 0 <= k < |entries| => QuestionOf(entries[k]))
  }

  /** Everything an import reads from the decoded quiz, in the order it reads it. */
  datatype QuizPlan = QuizPlan(head: QuizHead, level: Option<Option<string>>, categories: seq<Option<string>>,
                               questions: seq<QuestionFields>)

  function QuizPlanOf(json: Json): QuizPlan
  {
    QuizPlan(QuizHeadOf(json), LevelName(json), CategoryNames(json), PlannedQuestions(Elements(Get(json, "questions"))))
  }

  /** Every setter of the plan receives a value of its type. */
  predicate PlanComplete(p: QuizPlan)
  {
    && HeadComplete(p.head) && p.level.Some? && AllSome(p.categories)
    && forall k :: 0 <= k < |p.questions| ==> QuestionComplete(p.questions[k])
  }

  /** No setter throws. */
  predicate QuizTypeCheck(json: Json)
  {
    PlanComplete(QuizPlanOf(json))
  }

  /**
   * A document that decodes to a string throws in all three imports. The quiz and scenario
   * imports need no separate case for it: reading `title` from it already ends in a `TypeError`,
   * which the model gives as `setTitle(null)`.
   */
  lemma StringDocumentThrows(text: string)
    ensures ReadThrows(JString(text))
    ensures !QuizTypeCheck(JString(text)) && !ScenarioTypeCheck(JString(text))
  {
  }

  /**
   * The entity's defaults (30 seconds, 70%, not random) never survive an import: the four
   * top-level keys must all be present, since a missing one passes `null` to a setter.
   */
  lemma QuizHeadRequired(json: Json)
    ensures QuizTypeCheck(json) ==>
      IsSet(json, "title") && IsSet(json, "timePerQuestion") && IsSet(json, "passingScore") && IsSet(json, "modeRandom")
  {
  }

  /** Level, categories and questions are optional: a quiz with the four scalars and nothing else imports. */
  lemma HeadAloneImports(json: Json)
    requires HeadComplete(QuizHeadOf(json))
    requires !IsSet(json, "level") && !IsSet(json, "categories") && !IsSet(json, "questions")
    ensures QuizTypeCheck(json)
  {
    assert Elements(Get(json, "questions")) == [];
  }

  /** The rows persisted for the categories that were not found among `stored`, in order. */
  function NewCategoryRows(cats: seq<CategoryQuestion>, stored: seq<CategoryQuestion>): (r: seq<Row>)
    ensures |r| <= |cats|
    ensures forall k :: 0 <= k < |r| ==> r[k].CategoryRow? && r[k].category in cats && r[k].category !in stored
    decreases |cats|
  {
    if cats == [] then []
    else
      var c := cats[|cats| - 1];
      NewCategoryRows(cats[..|cats| - 1], stored) + (if c in stored then [] else [CategoryRow(c)])
  }

  /** Rows queued after `before`, with one more category, are those queued before it followed by that category's row, if new. */
  lemma NewCategoryRowsAppend(before: seq<Row>, cats: seq<CategoryQuestion>, stored: seq<CategoryQuestion>, c: CategoryQuestion)
    ensures before + NewCategoryRows(cats + [c], stored)
         == (before + NewCategoryRows(cats, stored)) + (if c in stored then [] else [CategoryRow(c)])
  {
    assert (cats + [c])[..|cats|] == cats;
    AppendAssociative(before, NewCategoryRows(cats, stored), if c in stored then [] else [CategoryRow(c)]);
  }

  function OptionRows(options: seq<QuestionOption>): (r: seq<Row>)
    ensures |r| == |options| && forall k :: 0 <= k < |r| ==> r[k] == OptionRow(options[k])
  {
    seq(|options|, k requires 0 <= k < |options| => OptionRow(options[k]))
  }

  /** One question's rows: its options, then itself. */
  function QuestionBlock(question: Question, options: seq<QuestionOption>): (r: seq<Row>)
    ensures |r| == |options| + 1 && r[|options|] == QuestionRow(question)
  {
    OptionRows(options) + [QuestionRow(question)]
  }

  /** The rows of the questions, each preceded by those of its options. */
  function QuestionRows(questions: seq<Question>, options: seq<seq<QuestionOption>>): (r: seq<Row>)
    requires |options| == |questions|
    ensures questions != [] ==> |r| > 0 && r[|r| - 1] == QuestionRow(questions[|questions| - 1])
    decreases |questions|
  {
    if questions == [] then []
    else
      var n := |questions| - 1;
      QuestionRows(questions[..n], options[..n]) + QuestionBlock(questions[n], options[n])
  }

  /** Rows queued after `before`, with one more question, are those queued before it followed by that question's block. */
  lemma QuestionRowsAppend(before: seq<Row>, questions: seq<Question>, options: seq<seq<QuestionOption>>,
                           q: Question, o: seq<QuestionOption>)
    requires |options| == |questions|
    ensures before + QuestionRows(questions + [q], options + [o]) == (before + QuestionRows(questions, options)) + QuestionBlock(q, o)
  {
    assert (questions + [q])[..|questions|] == questions;
    assert (options + [o])[..|options|] == options;
    AppendAssociative(before, QuestionRows(questions, options), QuestionBlock(q, o));
  }

  /** A built question holds the planned fields, points at its quiz, and its options hold their texts and point at it. */
  ghost predicate QuestionBuilt(f: QuestionFields, quiz: Quiz, question: Question, options: seq<QuestionOption>)
    reads question, options
  {
    && question.text == f.text && question.correctAnswer == f.correctAnswer
    && f.explanation.Some? && question.explanation == f.explanation.value
    && question.quiz == quiz && question.options == []
    && |options| == |f.options|
    && forall j :: 0 <= j < |options| ==>
         options[j].text == f.options[j] && options[j].question == question && options[j].optionId == None
  }

  /** `new Quiz()` and its four setters. */
  method NewQuiz(head: QuizHead) returns (quiz: Quiz)
    requires HeadComplete(head)
    ensures fresh(quiz) && HeadOfQuiz(quiz) == head
    ensures quiz.questions == [] && quiz.categoryQuestions == [] && quiz.level == null
  {
    quiz := new Quiz();
    quiz.SetTitle(head.title.value);
    quiz.SetTimePerQuestion(head.timePerQuestion.value);
    quiz.SetPassingScore(head.passingScore.value);
    quiz.SetModeRandom(head.modeRandom.value);
  }

  /**
   * The level block: with no level named, none; otherwise the stored level of that name if
   * `findOneBy` finds one, or a new one, persisted.
   */
  method ResolveLevel(em: EntityManager, name: Option<string>) returns (level: LevelQuestion?)
    modifies em`pending
    ensures name.None? ==> level == null
    ensures name.Some? ==>
      var found := old(FindLevel(Levels(em.rows), name.value));
      && level != null && level.name == name
      && (found != null ==> level == found)
      && (found == null ==> fresh(level) && level.quizzes == [])
    ensures em.pending == old(em.pending) + NewLevelRows(level, Levels(em.rows))
  {
    if name.None? {
      return null;
    }
    var found := FindLevel(Levels(em.rows), name.value);
    if found != null {
      return found;
    }
    level := new LevelQuestion();
    level.SetName(name.value);
    em.Persist(LevelRow(level));
  }

  /** One category name: the stored category of that name if `findOneBy` finds one, otherwise a new one, persisted. */
  method ResolveCategory(em: EntityManager, stored: seq<CategoryQuestion>, name: string) returns (c: CategoryQuestion)
    modifies em`pending
    ensures c.name == Some(name)
    ensures old(FindCategory(stored, name)) != null ==> c == old(FindCategory(stored, name))
    ensures old(FindCategory(stored, name)) == null ==> fresh(c) && c.quizzes == [] && c !in stored
    ensures em.pending == old(em.pending) + (if c in stored then [] else [CategoryRow(c)])
  {
    var found := FindCategory(stored, name);
    if found != null {
      return found;
    }
    c := new CategoryQuestion();
    c.SetName(name);
    em.Persist(CategoryRow(c));
  }

  /**
   * The `foreach` over `categories`: each name is looked up among the stored categories
   * only, so a name that is new and repeated gives two distinct new categories.
   */
  method ResolveCategories(em: EntityManager, names: seq<string>) returns (cats: seq<CategoryQuestion>)
    modifies em`pending
    ensures |cats| == |names|
    ensures forall k :: 0 <= k < |cats| ==> cats[k].name == Some(names[k])
    ensures forall k :: 0 <= k < |cats| ==>
      var found := old(FindCategory(Categories(em.rows), names[k]));
      (found != null ==> cats[k] == found) && (found == null ==> fresh(cats[k]) && cats[k].quizzes == [])
    ensures forall k, j :: 0 <= k < j < |cats| && cats[k] !in Categories(em.rows) ==> cats[k] != cats[j]
    ensures em.pending == old(em.pending) + NewCategoryRows(cats, Categories(em.rows))
  {
    var stored := Categories(em.rows);
    cats := [];
    var i := 0;
    while i < |names|
      invariant 0 <= i <= |names| && |cats| == i
      invariant forall k :: 0 <= k < i ==> cats[k].name == Some(names[k])
      invariant forall k :: 0 <= k < i ==>
        var found := old(FindCategory(stored, names[k]));
        (found != null ==> cats[k] == found) && (found == null ==> fresh(cats[k]) && cats[k].quizzes == [])
      invariant forall k, j :: 0 <= k < j < i && cats[k] !in stored ==> cats[k] != cats[j]
      invariant em.pending == old(em.pending) + NewCategoryRows(cats, stored)
    {
      var c := ResolveCategory(em, stored, names[i]);
      NewCategoryRowsAppend(old(em.pending), cats, stored, c);
      cats := cats + [c];
      i := i + 1;
    }
  }

  /** The `foreach` of `addCategoryQuestion` over the resolved categories, on a quiz that has none yet. */
  method LinkCategories(quiz: Quiz, cats: seq<CategoryQuestion>)
    requires quiz.categoryQuestions == []
    requires forall k :: 0 <= k < |cats| ==> quiz !in cats[k].quizzes
    modifies quiz`categoryQuestions, cats`quizzes
    ensures quiz.categoryQuestions == Distinct(cats)
    ensures forall k :: 0 <= k < |cats| ==> cats[k].quizzes == old(cats[k].quizzes) + [quiz]
  {
    var i := 0;
    while i < |cats|
      invariant 0 <= i <= |cats|
      invariant quiz.categoryQuestions == Distinct(cats[..i])
      invariant forall k :: 0 <= k < |cats| ==>
        cats[k].quizzes == old(cats[k].quizzes) + (if cats[k] in cats[..i] then [quiz] else [])
    {
      assert cats[..i + 1][..i] == cats[..i];
      DistinctKeepsAll(cats[..i]);
      quiz.AddCategoryQuestion(cats[i]);
      i := i + 1;
    }
    assert cats[..i] == cats;
  }

  /** `new Question()`, its three setters and `setQuiz`; the quiz's own collection is not told. */
  method NewQuestion(f: QuestionFields, quiz: Quiz) returns (question: Question)
    requires QuestionComplete(f)
    ensures fresh(question)
    ensures question.text == f.text && question.correctAnswer == f.correctAnswer
    ensures question.explanation == f.explanation.value && question.quiz == quiz && question.options == []
  {
    question := new Question();
    question.SetText(f.text.value);
    question.SetCorrectAnswer(f.correctAnswer.value);
    question.SetExplanation(f.explanation.value);
    question.SetQuiz(quiz);
  }

  /** The `foreach` over a question's `options`: each text becomes a persisted option pointing at the question, with no letter. */
  method BuildOptions(em: EntityManager, question: Question, texts: seq<string>) returns (ghost options: seq<QuestionOption>)
    modifies em`pending
    ensures |options| == |texts|
    ensures forall j :: 0 <= j < |options| ==>
      fresh(options[j]) && options[j].text == Some(texts[j]) && options[j].question == question && options[j].optionId == None
    ensures em.pending == old(em.pending) + OptionRows(options)
  {
    options := [];
    var i := 0;
    while i < |texts|
      invariant 0 <= i <= |texts| && |options| == i
      invariant forall j :: 0 <= j < i ==>
        fresh(options[j]) && options[j].text == Some(texts[j]) && options[j].question == question && options[j].optionId == None
      invariant em.pending == old(em.pending) + OptionRows(options)
    {
      var option := new QuestionOption();
      option.SetText(texts[i]);
      option.SetQuestion(question);
      em.Persist(OptionRow(option));
      assert OptionRows(options + [option]) == OptionRows(options) + [OptionRow(option)];
      options := options + [option];
      i := i + 1;
    }
  }

  /** One entry of `questions`: the question, its options persisted, then the question persisted. */
  method BuildQuestion(em: EntityManager, quiz: Quiz, f: QuestionFields)
    returns (question: Question, ghost options: seq<QuestionOption>)
    requires QuestionComplete(f)
    modifies em`pending
    ensures fresh(question) && QuestionBuilt(f, quiz, question, options)
    ensures forall j :: 0 <= j < |options| ==> fresh(options[j])
    ensures em.pending == old(em.pending) + QuestionBlock(question, options)
  {
    question := NewQuestion(f, quiz);
    options := BuildOptions(em, question, Values(f.options));
    em.Persist(QuestionRow(question));
    assert em.pending == old(em.pending) + (OptionRows(options) + [QuestionRow(question)]);
  }

  /** The `foreach` over `questions`, given the planned questions: `false` where a setter would throw, otherwise each question with its options, persisted. */
  method BuildQuestions(em: EntityManager, quiz: Quiz, planned: seq<QuestionFields>)
    returns (ok: bool, ghost questions: seq<Question>, ghost options: seq<seq<QuestionOption>>)
    modifies em`pending
    ensures ok <==> forall k :: 0 <= k < |planned| ==> QuestionComplete(planned[k])
    ensures ok ==>
      && QuestionsAsPlanned(planned, quiz, questions, options)
      && (forall k :: 0 <= k < |planned| ==> fresh(questions[k]))
      && (forall k, j :: 0 <= k < |options| && 0 <= j < |options[k]| ==> fresh(options[k][j]))
      && em.pending == old(em.pending) + QuestionRows(questions, options)
  {
    questions, options := [], [];
    var i := 0;
    while i < |planned|
      invariant 0 <= i <= |planned| && |questions| == i && |options| == i
      invariant forall k :: 0 <= k < i ==>
        && QuestionComplete(planned[k]) && fresh(questions[k]) && QuestionBuilt(planned[k], quiz, questions[k], options[k])
        && forall j :: 0 <= j < |options[k]| ==> fresh(options[k][j])
      invariant em.pending == old(em.pending) + QuestionRows(questions, options)
    {
      if !QuestionComplete(planned[i]) {
        return false, questions, options;
      }
      var question;
      ghost var opts;
      question, opts := BuildQuestion(em, quiz, planned[i]);
      QuestionRowsAppend(old(em.pending), questions, options, question, opts);
      questions, options := questions + [question], options + [opts];
      i := i + 1;
    }
    return true, questions, options;
  }

  /** The rows a quiz import persists, in order: a new level, the new categories, each question after its options, the quiz. */
  function QuizRows(quiz: Quiz, level: LevelQuestion?, storedLevels: seq<LevelQuestion>, cats: seq<CategoryQuestion>,
                    storedCats: seq<CategoryQuestion>, questions: seq<Question>, options: seq<seq<QuestionOption>>): (r: seq<Row>)
    requires |options| == |questions|
    ensures |r| > 0 && r[|r| - 1] == QuizRow(quiz)
  {
    LookupRows(level, storedLevels, cats, storedCats) + (QuestionRows(questions, options) + [QuizRow(quiz)])
  }

  /** The rows the lookups persist: a new level, then the new categories. */
  function LookupRows(level: LevelQuestion?, storedLevels: seq<LevelQuestion>, cats: seq<CategoryQuestion>,
                      storedCats: seq<CategoryQuestion>): (r: seq<Row>)
    ensures |r| <= 1 + |cats|
  {
    NewLevelRows(level, storedLevels) + NewCategoryRows(cats, storedCats)
  }

  /** The level row persisted for a level that was not found among `stored`. */
  function NewLevelRows(level: LevelQuestion?, stored: seq<LevelQuestion>): (r: seq<Row>)
    ensures |r| <= 1
    ensures r != [] ==> level != null && r == [LevelRow(level)] && level !in stored
  {
    if level == null || level in stored then [] else [LevelRow(level)]
  }

  /** The level and the categories as the lookups leave them: named as planned, one category per name. */
  ghost predicate LookupsAsPlanned(p: QuizPlan, level: LevelQuestion?, cats: seq<CategoryQuestion>)
    requires p.level.Some?
    reads level, cats
  {
    && (level == null <==> p.level.value.None?)
    && (level != null ==> level.name == p.level.value)
    && |cats| == |p.categories|
    && forall k :: 0 <= k < |cats| ==> cats[k].name == p.categories[k]
  }

  /** One question per planned entry, each built as planned and pointing at the quiz. */
  ghost predicate QuestionsAsPlanned(planned: seq<QuestionFields>, quiz: Quiz, questions: seq<Question>,
                                     options: seq<seq<QuestionOption>>)
    reads questions, set k, j | 0 <= k < |options| && 0 <= j < |options[k]| :: options[k][j]
  {
    && |questions| == |planned| && |options| == |planned|
    && forall k :: 0 <= k < |planned| ==> QuestionBuilt(planned[k], quiz, questions[k], options[k])
  }

  /** The lookups of `importQuiz`: the level, then each category, each found among the stored rows or created and persisted. */
  method ResolveLookups(em: EntityManager, p: QuizPlan) returns (level: LevelQuestion?, cats: seq<CategoryQuestion>)
    requires p.level.Some? && AllSome(p.categories)
    modifies em`pending
    ensures LookupsAsPlanned(p, level, cats)
    ensures p.level.value.Some? ==>
      var found := old(FindLevel(Levels(em.rows), p.level.value.value));
      (found != null ==> level == found) && (found == null ==> fresh(level) && level.quizzes == [])
    ensures forall k :: 0 <= k < |cats| ==>
      var found := old(FindCategory(Categories(em.rows), p.categories[k].value));
      (found != null ==> cats[k] == found) && (found == null ==> fresh(cats[k]) && cats[k].quizzes == [])
    ensures forall k, j :: 0 <= k < j < |cats| && cats[k] !in Categories(em.rows) ==> cats[k] != cats[j]
    ensures em.pending == old(em.pending) + LookupRows(level, Levels(em.rows), cats, Categories(em.rows))
  {
    level := ResolveLevel(em, p.level.value);
    var names := Values(p.categories);
    assert forall k :: 0 <= k < |names| ==>
      FindCategory(Categories(em.rows), names[k]) == old(FindCategory(Categories(em.rows), names[k]));
    cats := ResolveCategories(em, names);
    AppendAssociative(old(em.pending), NewLevelRows(level, Levels(em.rows)), NewCategoryRows(cats, Categories(em.rows)));
  }

  /** `new Quiz()`, its four setters, `setLevel` when there is a level, and `addCategoryQuestion` for each category. */
  method AttachQuiz(head: QuizHead, level: LevelQuestion?, cats: seq<CategoryQuestion>) returns (quiz: Quiz)
    requires HeadComplete(head)
    modifies cats`quizzes
    ensures fresh(quiz) && HeadOfQuiz(quiz) == head && quiz.questions == [] && quiz.level == level
    ensures quiz.categoryQuestions == Distinct(cats)
    ensures forall k :: 0 <= k < |cats| ==> cats[k].quizzes == old(cats[k].quizzes) + [quiz]
  {
    quiz := NewQuiz(head);
    if level != null {
      quiz.SetLevel(level);
    }
    LinkCategories(quiz, cats);
  }

  /**
   * The graph `importQuiz` builds from a plan that type-checks: a quiz with the planned
   * scalars, the level and categories of the planned names (the quiz's categories without
   * repeats), and one question per entry built as planned. The quiz's own `questions`
   * collection stays empty in memory, since only `setQuiz` is called.
   */
  ghost predicate QuizShape(p: QuizPlan, quiz: Quiz, level: LevelQuestion?, cats: seq<CategoryQuestion>,
                            questions: seq<Question>, options: seq<seq<QuestionOption>>)
    requires PlanComplete(p)
    reads quiz, level, cats, questions, set k, j | 0 <= k < |options| && 0 <= j < |options[k]| :: options[k][j]
  {
    && HeadOfQuiz(quiz) == p.head && quiz.questions == [] && quiz.level == level
    && LookupsAsPlanned(p, level, cats)
    && quiz.categoryQuestions == Distinct(cats)
    && QuestionsAsPlanned(p.questions, quiz, questions, options)
  }

  /**
   * Where the parts of that graph come from, relative to the state the import started in:
   * the quiz is new; the level is the stored one of the planned name or a
   * new one; each category is the stored one of the planned name, which now lists the quiz
   * as well, or a new one listing only the quiz.
   */
  twostate predicate QuizLinked(em: EntityManager, p: QuizPlan, new quiz: Quiz, new level: LevelQuestion?,
                                new cats: seq<CategoryQuestion>)
    requires p.level.Some? && AllSome(p.categories)
    reads cats
  {
    && fresh(quiz) && |cats| == |p.categories|
    && (p.level.value.Some? ==>
          var found := old(FindLevel(Levels(em.rows), p.level.value.value));
          (found != null ==> level == found) && (found == null ==> fresh(level)))
    && (forall k :: 0 <= k < |cats| ==>
          var found := old(FindCategory(Categories(em.rows), p.categories[k].value));
          (found != null ==> cats[k] == found && cats[k].quizzes == old(cats[k].quizzes) + [quiz])
          && (found == null ==> fresh(cats[k]) && cats[k].quizzes == [quiz]))
  }

  /** `new Quiz()` with its scalars, its level and its categories, each looked up or created. */
  method LinkQuiz(em: EntityManager, p: QuizPlan) returns (quiz: Quiz, level: LevelQuestion?, cats: seq<CategoryQuestion>)
    requires HeadComplete(p.head) && p.level.Some? && AllSome(p.categories)
    modifies em`pending, Categories(em.rows)`quizzes
    ensures HeadOfQuiz(quiz) == p.head && quiz.questions == [] && quiz.level == level
    ensures LookupsAsPlanned(p, level, cats) && quiz.categoryQuestions == Distinct(cats)
    ensures QuizLinked(em, p, quiz, level, cats)
    ensures em.pending == old(em.pending) + LookupRows(level, Levels(em.rows), cats, Categories(em.rows))
  {
    // The lookups come before `new Quiz()` here; they only read stored rows and only
    // append to the queue, so the order changes nothing observable.
    level, cats := ResolveLookups(em, p);
    quiz := AttachQuiz(p.head, level, cats);
  }

  /** `new Quiz()` up to `persist($quiz)`, following the plan: `false` where a setter would throw. */
  method BuildQuiz(em: EntityManager, p: QuizPlan)
    returns (ok: bool, ghost quiz: Quiz?, ghost level: LevelQuestion?, ghost cats: seq<CategoryQuestion>,
             ghost questions: seq<Question>, ghost options: seq<seq<QuestionOption>>)
    modifies em`pending, Categories(em.rows)`quizzes
    ensures ok <==> PlanComplete(p)
    ensures ok ==>
      && quiz != null && QuizShape(p, quiz, level, cats, questions, options)
      && QuizLinked(em, p, quiz, level, cats) && (forall k :: 0 <= k < |questions| ==> fresh(questions[k]))
      && em.pending == old(em.pending) + QuizRows(quiz, level, Levels(em.rows), cats, Categories(em.rows), questions, options)
  {
    quiz, level, cats, questions, options := null, null, [], [], [];
    ok := false;
    if HeadComplete(p.head) && p.level.Some? && AllSome(p.categories) {
      var q, l, cs := LinkQuiz(em, p);
      quiz, level, cats := q, l, cs;
      ghost var linked := em.pending;
      ok, questions, options := BuildQuestions(em, q, p.questions);
      if ok {
        em.Persist(QuizRow(q));
        AppendAssociative(linked, QuestionRows(questions, options), [QuizRow(q)]);
        AppendAssociative(old(em.pending), LookupRows(level, Levels(em.rows), cats, Categories(em.rows)),
                          QuestionRows(questions, options) + [QuizRow(q)]);
      }
    }
  }

  /** `importQuiz` once the JSON is decoded and read into a plan: build, persist, flush once. */
  method ImportPlannedQuiz(em: EntityManager, p: QuizPlan, flushFailure: Option<string>)
    returns (outcome: Outcome, flash: Option<Flash>, ghost quiz: Quiz?, ghost level: LevelQuestion?,
             ghost cats: seq<CategoryQuestion>, ghost questions: seq<Question>, ghost options: seq<seq<QuestionOption>>)
    modifies em, Categories(em.rows)`quizzes
    ensures outcome == Crash <==> !PlanComplete(p)
    ensures outcome == Crash ==> flash == None && em.rows == old(em.rows) && em.flushes == old(em.flushes)
    ensures outcome != Crash ==>
      && em.flushes == old(em.flushes) + 1
      && quiz != null && QuizShape(p, quiz, level, cats, questions, options)
      && QuizLinked(em, p, quiz, level, cats) && (forall k :: 0 <= k < |questions| ==> fresh(questions[k]))
      && (flushFailure.None? ==>
            outcome == RedirectToIndex && flash == Some(QuizImported)
            && em.rows == old(em.rows) + old(em.pending)
                 + QuizRows(quiz, level, old(Levels(em.rows)), cats, old(Categories(em.rows)), questions, options))
      && (flushFailure.Some? ==>
            outcome == RenderForm && flash == Some(ImportFailed(flushFailure.value)) && em.rows == old(em.rows))
  {
    var ok;
    ok, quiz, level, cats, questions, options := BuildQuiz(em, p);
    if !ok {
      return Crash, None, quiz, level, cats, questions, options;
    }
    AppendAssociative(old(em.rows), old(em.pending),
                      QuizRows(quiz, level, Levels(em.rows), cats, Categories(em.rows), questions, options));
    outcome, flash := Conclude(em, flushFailure, QuizImported);
  }

  /** `importQuiz` */
  method ImportQuiz(em: EntityManager, request: Request, flushFailure: Option<string>)
    returns (outcome: Outcome, flash: Option<Flash>, ghost quiz: Quiz?, ghost level: LevelQuestion?,
             ghost cats: seq<CategoryQuestion>, ghost questions: seq<Question>, ghost options: seq<seq<QuestionOption>>)
    modifies em, Categories(em.rows)`quizzes
    ensures request.NotSubmitted? ==> outcome == RenderForm && flash == None && unchanged(em)
    ensures request == Submitted(None) ==> outcome == RenderForm && flash == Some(InvalidJson) && unchanged(em)
    ensures request.Submitted? && request.decoded.Some? ==>
      var json := request.decoded.value;
      && (outcome == Crash <==> !QuizTypeCheck(json))
      && (outcome == Crash ==> flash == None && em.rows == old(em.rows) && em.flushes == old(em.flushes))
      && (outcome != Crash ==>
            && em.flushes == old(em.flushes) + 1
            && quiz != null && QuizShape(QuizPlanOf(json), quiz, level, cats, questions, options)
            && QuizLinked(em, QuizPlanOf(json), quiz, level, cats)
            && (forall k :: 0 <= k < |questions| ==> fresh(questions[k]))
            && (flushFailure.None? ==>
                  outcome == RedirectToIndex && flash == Some(QuizImported)
                  && em.rows == old(em.rows) + old(em.pending)
                       + QuizRows(quiz, level, old(Levels(em.rows)), cats, old(Categories(em.rows)), questions, options))
            && (flushFailure.Some? ==>
                  outcome == RenderForm && flash == Some(ImportFailed(flushFailure.value)) && em.rows == old(em.rows)))
  {
    quiz, level, cats, questions, options := null, null, [], [], [];
    if request.NotSubmitted? {
      return RenderForm, None, quiz, level, cats, questions, options;
    }
    if request.decoded.None? {
      return RenderForm, Some(InvalidJson), quiz, level, cats, questions, options;
    }
    outcome, flash, quiz, level, cats, questions, options := ImportPlannedQuiz(em, QuizPlanOf(request.decoded.value), flushFailure);
  }
}
