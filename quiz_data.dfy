/** The static quiz list of the public catalogue and the choices derived from it. */
module QuizData {
  import opened Seqs

  datatype CatalogueQuiz = CatalogueQuiz(
    id: int, title: string, category: string, description: string,
    duration: nat, questions: nat, difficulty: string, reviews: nat,
    imageUrl: string, tags: seq<string>, popular: bool, isNew: bool, completion: nat)

  const Quizzes: seq<CatalogueQuiz> := [
    CatalogueQuiz(1, "Gestes Qui Sauvent - Niveau 1", "Initiation",
      "Apprenez les gestes de base pour réagir face à une situation d'urgence.",
      15, 10, "Débutant", 128, "/api/placeholder/400/250", ["GQS", "Grand public"], true, false, 0),
    CatalogueQuiz(2, "Position Latérale de Sécurité", "Techniques",
      "Maîtrisez la PLS pour sécuriser une victime inconsciente qui respire.",
      10, 8, "Débutant", 92, "/api/placeholder/400/250", ["PLS", "Inconscience"], false, false, 0)
  ]

  /** `[...new Set(values)]`: each value once, in the order it was first added. */
  function Dedup(values: seq<string>): (r: seq<string>)
    decreases |values|
  {
    if values == [] then []
    else
      var before := Dedup(values[..|values| - 1]);
      var last := values[|values| - 1];
      if last in before then before else before + [last]
  }

  /** Adding a value already in the set changes nothing; a new one goes at the end. */
  lemma {:induction false} DedupSpec(values: seq<string>)
    ensures NoDuplicates(Dedup(values))
    ensures forall x :: x in Dedup(values) <==> x in values
    decreases |values|
  {
    if values != [] {
      var prefix := values[..|values| - 1];
      DedupSpec(prefix);
      assert values == prefix + [values[|values| - 1]];
    }
  }

  /** The set's order is the order of first occurrence: appending keeps the earlier entries in place. */
  lemma DedupAppend(values: seq<string>, x: string)
    ensures Dedup(values + [x]) == if x in values then Dedup(values) else Dedup(values) + [x]
  {
    assert (values + [x])[..|values|] == values;
    DedupSpec(values);
  }

  function Categories(quizzes: seq<CatalogueQuiz>): seq<string>
  {
    Dedup(seq(|quizzes|, i requires 0 <= i < |quizzes| => quizzes[i].category))
  }

  /** Every quiz's category is offered, every offered category is some quiz's, and none twice. */
  lemma CategoriesSpec(quizzes: seq<CatalogueQuiz>)
    ensures NoDuplicates(Categories(quizzes))
    ensures forall i :: 0 <= i < |quizzes| ==> quizzes[i].category in Categories(quizzes)
    ensures forall c :: c in Categories(quizzes) ==> exists i :: 0 <= i < |quizzes| && quizzes[i].category == c
  {
    var names := seq(|quizzes|, i requires 0 <= i < |quizzes| => quizzes[i].category);
    DedupSpec(names);
    forall i | 0 <= i < |quizzes|
      ensures quizzes[i].category in Categories(quizzes)
    {
      assert names[i] == quizzes[i].category;
    }
  }

  /** For the shipped data the categories are "Initiation" then "Techniques". */
  lemma ShippedCategories()
    ensures Categories(Quizzes) == ["Initiation", "Techniques"]
  {
    var names := seq(|Quizzes|, i requires 0 <= i < |Quizzes| => Quizzes[i].category);
    assert names == ["Initiation", "Techniques"];
    assert names[..1] == ["Initiation"];
    assert "Techniques"[0] != "Initiation"[0];
    DedupAppend(["Initiation"], "Techniques");
    DedupAppend([], "Initiation");
    assert ["Initiation"] == [] + ["Initiation"];
  }

  const DifficultyLevels: seq<string> := ["Débutant", "Intermédiaire", "Avancé"]
}
