/**
 * The public quiz catalogue's search: a category, a difficulty ("Tous"
 * meaning any) and a free-text query over title, description and tags.
 */
module QuizSearch {
  import opened Text
  import opened Seqs
  import opened QuizData

  const Any: string := "Tous"

  datatype Criteria = Criteria(category: string, difficulty: string, query: string)

  predicate MatchesQuery(lowerQuery: string, quiz: CatalogueQuiz)
  {
    || Contains(ToLower(quiz.title), lowerQuery)
    || Contains(ToLower(quiz.description), lowerQuery)
    || exists i :: 0 <= i < |quiz.tags| && Contains(ToLower(quiz.tags[i]), lowerQuery)
  }

  function CategoryIs(c: string): CatalogueQuiz -> bool
  {
    (q: CatalogueQuiz) => q.category == c
  }

  function DifficultyIs(d: string): CatalogueQuiz -> bool
  {
    (q: CatalogueQuiz) => q.difficulty == d
  }

  function QueryHits(query: string): CatalogueQuiz -> bool
  {
    (q: CatalogueQuiz) => MatchesQuery(ToLower(query), q)
  }

  /** The filter effect: up to three successive `filter` calls. */
  function Search(quizzes: seq<CatalogueQuiz>, crit: Criteria): seq<CatalogueQuiz>
  {
    var byCategory := if crit.category != Any then Filter(quizzes, CategoryIs(crit.category)) else quizzes;
    var byDifficulty := if crit.difficulty != Any then Filter(byCategory, DifficultyIs(crit.difficulty)) else byCategory;
    if crit.query != "" then Filter(byDifficulty, QueryHits(crit.query)) else byDifficulty
  }

  /** What one quiz must satisfy: "Tous" and the empty query constrain nothing. */
  predicate Accepts(crit: Criteria, q: CatalogueQuiz)
  {
    && (crit.category == Any || q.category == crit.category)
    && (crit.difficulty == Any || q.difficulty == crit.difficulty)
    && (crit.query == "" || MatchesQuery(ToLower(crit.query), q))
  }

  function Accepted(crit: Criteria): CatalogueQuiz -> bool
  {
    q => Accepts(crit, q)
  }

  /** A filter that constrains nothing may be dropped. */
  lemma FilterOptional(s: seq<CatalogueQuiz>, active: bool, p: CatalogueQuiz -> bool, rest: CatalogueQuiz -> bool, both: CatalogueQuiz -> bool)
    requires forall q :: both(q) == ((!active || p(q)) && rest(q))
    ensures Filter(if active then Filter(s, p) else s, rest) == Filter(s, both)
  {
    if active {
      FilterFilter(s, p, rest);
      FilterExtensional(s, x => p(x) && rest(x), both);
    } else {
      FilterExtensional(s, rest, both);
    }
  }

  /** The result is exactly the accepted quizzes, in catalogue order. */
  lemma {:induction false} SearchIsOneFilter(quizzes: seq<CatalogueQuiz>, crit: Criteria)
    ensures Search(quizzes, crit) == Filter(quizzes, Accepted(crit))
    ensures IsSubsequence(Search(quizzes, crit), quizzes)
  {
    var byCategory := if crit.category != Any then Filter(quizzes, CategoryIs(crit.category)) else quizzes;
    var byDifficulty := if crit.difficulty != Any then Filter(byCategory, DifficultyIs(crit.difficulty)) else byCategory;
    var third: CatalogueQuiz -> bool := (q: CatalogueQuiz) => crit.query == "" || MatchesQuery(ToLower(crit.query), q);
    var lastTwo: CatalogueQuiz -> bool := (q: CatalogueQuiz) => (crit.difficulty == Any || q.difficulty == crit.difficulty) && third(q);
    FilterKeepsAllWhenEmpty(byDifficulty, crit.query);
    assert Search(quizzes, crit) == Filter(byDifficulty, third) by {
      if crit.query != "" {
        FilterExtensional(byDifficulty, QueryHits(crit.query), third);
      }
    }
    FilterOptional(byCategory, crit.difficulty != Any, DifficultyIs(crit.difficulty), third, lastTwo);
    FilterOptional(quizzes, crit.category != Any, CategoryIs(crit.category), lastTwo, Accepted(crit));
    FilterIsSubsequence(quizzes, Accepted(crit));
  }

  lemma FilterKeepsAllWhenEmpty(s: seq<CatalogueQuiz>, query: string)
    ensures query == "" ==> Filter(s, q => query == "" || MatchesQuery(ToLower(query), q)) == s
  {
    if query == "" {
      FilterKeepsAll(s, q => query == "" || MatchesQuery(ToLower(query), q));
    }
  }

  /** `tight` constrains at least as much as `loose`: each of its criteria is either the same or `loose`'s is open. */
  predicate AtLeastAsStrict(tight: Criteria, loose: Criteria)
  {
    && (loose.category == Any || tight.category == loose.category)
    && (loose.difficulty == Any || tight.difficulty == loose.difficulty)
    && (loose.query == "" || tight.query == loose.query)
  }

  /** Adding a constraint never enlarges the result, and keeps its order. */
  lemma SearchMonotone(quizzes: seq<CatalogueQuiz>, tight: Criteria, loose: Criteria)
    requires AtLeastAsStrict(tight, loose)
    ensures IsSubsequence(Search(quizzes, tight), Search(quizzes, loose))
  {
    SearchIsOneFilter(quizzes, tight);
    SearchIsOneFilter(quizzes, loose);
    FilterMonotone(quizzes, Accepted(tight), Accepted(loose));
  }

  /** "Réinitialiser les filtres". */
  function Reset(): (crit: Criteria)
    ensures forall c: Criteria :: AtLeastAsStrict(c, crit)
  {
    Criteria(Any, Any, "")
  }

  /** After a reset every quiz is listed again. */
  lemma ResetListsAll(quizzes: seq<CatalogueQuiz>)
    ensures Search(quizzes, Reset()) == quizzes
  {
  }

  /** "n quiz trouvé" for exactly one result, "trouvés" otherwise. */
  function ResultLabel(count: nat): (text: string)
    ensures text == NatToString(count) + " quiz trouvé" <==> count == 1
  {
    NatToString(count) + " quiz " + (if count == 1 then "trouvé" else "trouvés")
  }
}
