/**
 * The entity manager as the import actions use it: `persist` queues an
 * object, `flush` writes the queue in one go (or fails and writes nothing),
 * and `findOneBy(['name' => ...])` queries what has been written, so an
 * object persisted in the same request is not found. A learning card is
 * a plain record of four strings.
 */
module EntityStore {
  import opened Base
  import opened QuizEntities
  import opened SnvEntities

  class LearningCard {
    var theme: Option<string>
    var niveau: Option<string>
    var info: Option<string>
    var reference: Option<string>

    constructor()
      ensures theme == None && niveau == None && info == None && reference == None
    {
      theme, niveau, info, reference := None, None, None, None;
    }

    method SetTheme(t: string)
      modifies this`theme
      ensures theme == Some(t)
    {
      theme := Some(t);
    }

    method SetNiveau(n: string)
      modifies this`niveau
      ensures niveau == Some(n)
    {
      niveau := Some(n);
    }

    method SetInfo(i: string)
      modifies this`info
      ensures info == Some(i)
    {
      info := Some(i);
    }

    method SetReference(r: string)
      modifies this`reference
      ensures reference == Some(r)
    {
      reference := Some(r);
    }
  }

  /** One persisted object, tagged with its entity class. */
  datatype Row =
    | QuizRow(quiz: Quiz)
    | QuestionRow(question: Question)
    | OptionRow(option: QuestionOption)
    | LevelRow(levelQuestion: LevelQuestion)
    | CategoryRow(category: CategoryQuestion)
    | ScenarioRow(scenario: Scenario)
    | VictimRow(victim: Victim)
    | CardRow(card: LearningCard)

  /** The levels among some rows, in order. */
  function Levels(rows: seq<Row>): (r: seq<LevelQuestion>)
    ensures forall k :: 0 <= k < |r| ==> LevelRow(r[k]) in rows
  {
    if rows == [] then []
    else (if rows[0].LevelRow? then [rows[0].levelQuestion] else []) + Levels(rows[1..])
  }

  /** The categories among some rows, in order. */
  function Categories(rows: seq<Row>): (r: seq<CategoryQuestion>)
    ensures forall k :: 0 <= k < |r| ==> CategoryRow(r[k]) in rows
  {
    if rows == [] then []
    else (if rows[0].CategoryRow? then [rows[0].category] else []) + Categories(rows[1..])
  }

  /** Every stored level is among `Levels`, so `findOneBy` sees all of them. */
  lemma {:induction false} LevelsListed(rows: seq<Row>)
    ensures forall k :: 0 <= k < |rows| && rows[k].LevelRow? ==> rows[k].levelQuestion in Levels(rows)
    decreases |rows|
  {
    if rows != [] {
      LevelsListed(rows[1..]);
      assert forall k :: 1 <= k < |rows| ==> rows[k] == rows[1..][k - 1];
    }
  }

  /** Every stored category is among `Categories`, so `findOneBy` sees all of them. */
  lemma {:induction false} CategoriesListed(rows: seq<Row>)
    ensures forall k :: 0 <= k < |rows| && rows[k].CategoryRow? ==> rows[k].category in Categories(rows)
    decreases |rows|
  {
    if rows != [] {
      CategoriesListed(rows[1..]);
      assert forall k :: 1 <= k < |rows| ==> rows[k] == rows[1..][k - 1];
    }
  }

  /** `findOneBy(['name' => name])` over levels: the first with that name, or `null`. */
  function FindLevel(levels: seq<LevelQuestion>, name: string): (l: LevelQuestion?)
    reads levels`name
    ensures l == null <==> forall k :: 0 <= k < |levels| ==> levels[k].name != Some(name)
    ensures l != null ==> l in levels && l.name == Some(name)
  {
    if levels == [] then null
    else if levels[0].name == Some(name) then levels[0]
    else FindLevel(levels[1..], name)
  }

  /** `findOneBy(['name' => name])` over categories: the first with that name, or `null`. */
  function FindCategory(categories: seq<CategoryQuestion>, name: string): (c: CategoryQuestion?)
    reads categories`name
    ensures c == null <==> forall k :: 0 <= k < |categories| ==> categories[k].name != Some(name)
    ensures c != null ==> c in categories && c.name == Some(name)
  {
    if categories == [] then null
    else if categories[0].name == Some(name) then categories[0]
    else FindCategory(categories[1..], name)
  }

  class EntityManager {
    /** What has been written by a flush, in order. */
    var rows: seq<Row>
    /** What has been persisted since the last flush, in order. */
    var pending: seq<Row>
    /** How many flushes were attempted. */
    var flushes: nat

    constructor(stored: seq<Row>)
      ensures rows == stored && pending == [] && flushes == 0
    {
      rows, pending, flushes := stored, [], 0;
    }

    /** `persist`: queue a new object. */
    method Persist(r: Row)
      modifies this`pending
      ensures pending == old(pending) + [r]
    {
      pending := pending + [r];
    }

    /** `flush`: write the queue, or, when the database refuses it (`failure`), write nothing. */
    method Flush(failure: Option<string>)
      modifies this`rows, this`pending, this`flushes
      ensures flushes == old(flushes) + 1
      ensures failure.None? ==> rows == old(rows) + old(pending) && pending == []
      ensures failure.Some? ==> rows == old(rows) && pending == old(pending)
    {
      flushes := flushes + 1;
      if failure.None? {
        rows := rows + pending;
        pending := [];
      }
    }
  }
}
