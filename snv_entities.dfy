/**
 * The SNV ("sauvetage de nombreuses victimes") side of the back end: a
 * scenario owns its victims, each victim points back at its scenario, and
 * both carry the validation constraints declared on their fields. A
 * constraint other than `NotBlank` lets `null` through, so only `NotBlank`
 * rejects a missing value.
 */
module SnvEntities {
  import opened Base
  import opened Seqs

  /** Symfony's `NotBlank` on a string: `null` and `""` are blank, anything else (even `"0"`) is not. */
  predicate NotBlank(s: Option<string>)
  {
    s.Some? && s.value != ""
  }

  const ScenarioLevels: seq<string> := ["Débutant", "Intermédiaire", "Avancé"]

  /** `NotBlank` and `Length(min: 3, max: 255)` on the title. */
  function TitleValid(title: Option<string>): (ok: bool)
    ensures ok <==> title.Some? && 3 <= |title.value| <= 255
  {
    NotBlank(title) && (title.None? || 3 <= |title.value| <= 255)
  }

  /** `NotBlank` and `Choice` over the three levels. */
  function LevelValid(level: Option<string>): (ok: bool)
    ensures ok <==> level == Some("Débutant") || level == Some("Intermédiaire") || level == Some("Avancé")
  {
    NotBlank(level) && (level.None? || level.value in ScenarioLevels)
  }

  /** `NotBlank` on an integer lets 0 through; `Choice` allows the four answer numbers. */
  function AnswerValid(correctAnswer: Option<int>): (ok: bool)
    ensures ok <==> correctAnswer.Some? && 0 <= correctAnswer.value <= 3
  {
    correctAnswer.Some? && (correctAnswer.None? || correctAnswer.value in {0, 1, 2, 3})
  }

  class Scenario {
    var title: Option<string>
    var level: Option<string>
    var description: Option<string>
    var victimes: seq<Victim>

    /** The declared constraints of the three scalar fields. */
    predicate MeetsConstraints()
      reads this
    {
      TitleValid(title) && LevelValid(level) && NotBlank(description)
    }

    /** No repeats, and every listed victim points here. */
    predicate Linked()
      reads this, victimes
    {
      NoDuplicates(victimes) && forall v :: v in victimes ==> v.scenario == this
    }

    /** A new scenario has no victims; with every field still `null` it meets none of its constraints. */
    constructor()
      ensures title == None && level == None && description == None && victimes == []
      ensures Linked() && VictimesCount() == 0
      ensures !TitleValid(title) && !LevelValid(level) && !NotBlank(description)
    {
      title, level, description, victimes := None, None, None, [];
    }

    /** `getVictimesCount`: the size of the in-memory collection. */
    function VictimesCount(): (n: nat)
      reads this
      ensures n == |victimes|
    {
      |victimes|
    }

    method SetTitle(t: string)
      modifies this`title
      ensures title == Some(t)
    {
      title := Some(t);
    }

    method SetLevel(l: string)
      modifies this`level
      ensures level == Some(l)
    {
      level := Some(l);
    }

    method SetDescription(d: string)
      modifies this`description
      ensures description == Some(d)
    {
      description := Some(d);
    }

    function ToString(): (s: string)
      reads this
      ensures title.Some? ==> s == title.value
      ensures title.None? ==> s == ""
    {
      title.GetOr("")
    }

    /** `addVictime`: a new victim is appended and pointed here; a listed one changes nothing. */
    method AddVictime(v: Victim)
      modifies this`victimes, v`scenario
      ensures v in victimes
      ensures old(v in victimes) ==> victimes == old(victimes) && v.scenario == old(v.scenario)
      ensures old(v !in victimes) ==> victimes == old(victimes) + [v] && v.scenario == this
      ensures VictimesCount() == old(VictimesCount()) + (if old(v in victimes) then 0 else 1)
      ensures old(Linked()) ==> Linked() && v.scenario == this
    {
      if v !in victimes {
        victimes := victimes + [v];
        v.SetScenario(this);
      }
    }

    /** `removeVictime`: the victim leaves the list, and its back-reference is cleared if it still points here. */
    method RemoveVictime(v: Victim)
      modifies this`victimes, v`scenario
      ensures victimes == RemoveElement(old(victimes), v)
      ensures v.scenario == if old(v in victimes) && old(v.scenario) == this then null else old(v.scenario)
      ensures old(Linked()) ==> Linked() && v !in victimes && (old(v in victimes) ==> v.scenario == null)
    {
      var removed := v in victimes;
      if old(Linked()) {
        RemoveElementNoDuplicates(victimes, v);
      }
      victimes := RemoveElement(victimes, v);
      if removed && v.scenario == this {
        v.SetScenario(null);
      }
    }
  }

  class Victim {
    var description: Option<string>
    var correctAnswer: Option<int>
    var explanation: Option<string>
    var scenario: Scenario?

    /** The declared constraints of the three scalar fields. */
    predicate MeetsConstraints()
      reads this
    {
      NotBlank(description) && AnswerValid(correctAnswer) && NotBlank(explanation)
    }

    /** The join column is not nullable: a victim can only be stored with a scenario. */
    predicate Storable()
      reads this
    {
      scenario != null
    }

    constructor()
      ensures description == None && correctAnswer == None && explanation == None && scenario == null
      ensures !MeetsConstraints() && !Storable()
    {
      description, correctAnswer, explanation, scenario := None, None, None, null;
    }

    method SetDescription(d: string)
      modifies this`description
      ensures description == Some(d)
    {
      description := Some(d);
    }

    method SetCorrectAnswer(a: int)
      modifies this`correctAnswer
      ensures correctAnswer == Some(a)
    {
      correctAnswer := Some(a);
    }

    method SetExplanation(e: string)
      modifies this`explanation
      ensures explanation == Some(e)
    {
      explanation := Some(e);
    }

    /** Accepts `null`, which leaves the victim unstorable. */
    method SetScenario(s: Scenario?)
      modifies this`scenario
      ensures scenario == s
      ensures Storable() <==> s != null
    {
      scenario := s;
    }
  }

  /** Filling the three fields of a new victim makes it valid exactly when the answer is 0 to 3 and both texts are non-empty. */
  method FillVictim(description: string, correctAnswer: int, explanation: string) returns (v: Victim)
    ensures fresh(v) && v.scenario == null
    ensures v.MeetsConstraints() <==> description != "" && explanation != "" && 0 <= correctAnswer <= 3
  {
    v := new Victim();
    v.SetDescription(description);
    v.SetCorrectAnswer(correctAnswer);
    v.SetExplanation(explanation);
  }
}
