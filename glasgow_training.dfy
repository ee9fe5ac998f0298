/**
 * The Glasgow Coma Scale table trainer: some cells of the table
 * (eye Y 1-4, verbal V 1-5, motor M 1-6) are hidden, the learner types
 * the missing scores or descriptions, and the answers are graded.
 */
module GlasgowTraining {
  import opened Base
  import opened Text
  import opened Percent

  datatype GlasgowItem = GlasgowItem(score: nat, description: string)

  /** The three parts of the scale, in the order `Object.keys` lists them. */
  datatype Category = Oculaire | Verbale | Motrice

  datatype GameMode = Mixed | Scores | Descriptions

  /** Which of the two cells of a row a cell id names. */
  datatype CellKind = ScoreCell | DescriptionCell

  datatype Row = Row(category: Category, item: GlasgowItem)

  function CategoryName(c: Category): string
  {
    match c
    case Oculaire => "oculaire"
    case Verbale => "verbale"
    case Motrice => "motrice"
  }

  /** `glasgowData[name]`: defined only for the three category names. */
  function CategoryByName(name: string): Option<Category>
  {
    if name == "oculaire" then Some(Oculaire)
    else if name == "verbale" then Some(Verbale)
    else if name == "motrice" then Some(Motrice)
    else None
  }

  function KindName(k: CellKind): string
  {
    match k
    case ScoreCell => "score"
    case DescriptionCell => "description"
  }

  /** The rows of the scale, as the trainer's data table lists them. */
  function Items(c: Category): seq<GlasgowItem>
  {
    match c
    case Oculaire => [
      GlasgowItem(1, "Aucune"), GlasgowItem(2, "Douleur"), GlasgowItem(3, "Appel"), GlasgowItem(4, "Normale")]
    case Verbale => [
      GlasgowItem(1, "Aucune"), GlasgowItem(2, "Sons"), GlasgowItem(3, "Mots"), GlasgowItem(4, "Confuse"),
      GlasgowItem(5, "Normale")]
    case Motrice => [
      GlasgowItem(1, "Aucune"), GlasgowItem(2, "Extension"), GlasgowItem(3, "Flexion stéréotypée"),
      GlasgowItem(4, "Flexion simple"), GlasgowItem(5, "Dirigée vers la douleur"), GlasgowItem(6, "Normale")]
  }

  const Categories: seq<Category> := [Oculaire, Verbale, Motrice]

  /** The scale ranges Y 1-4, V 1-5, M 1-6: row i of a category has score i + 1. */
  lemma ItemScores(c: Category)
    ensures |Items(c)| == match c case Oculaire => 4 case Verbale => 5 case Motrice => 6
    ensures forall i :: 0 <= i < |Items(c)| ==> Items(c)[i].score == i + 1
  {
  }

  /** Index of the first row of each category in the whole table (4 + 5 + 6 = 15 rows). */
  function Offset(ci: nat): nat
    requires ci <= 3
  {
    if ci == 0 then 0 else if ci == 1 then 4 else if ci == 2 then 9 else 15
  }

  const TotalRows: nat := 15

  function RowAt(i: nat): (r: Row)
    requires i < TotalRows
    ensures r.category == Categories[if i < 4 then 0 else if i < 9 then 1 else 2]
  {
    if i < 4 then Row(Oculaire, Items(Oculaire)[i])
    else if i < 9 then Row(Verbale, Items(Verbale)[i - 4])
    else Row(Motrice, Items(Motrice)[i - 9])
  }

  /** The text id of a cell: `${category}-${score}-${type}`. */
  function CellId(c: Category, score: nat, k: CellKind): string
  {
    CategoryName(c) + "-" + NatToString(score) + "-" + KindName(k)
  }

  function RowCell(r: Row, k: CellKind): string
  {
    CellId(r.category, r.item.score, k)
  }

  function KindAt(j: nat): CellKind
  {
    if j % 2 == 0 then ScoreCell else DescriptionCell
  }

  /** Cell `j` of the table: the score cell of row `j / 2` when `j` is even, its description cell otherwise. */
  function CellAt(j: nat): string
    requires j < 2 * TotalRows
  {
    RowCell(RowAt(j / 2), KindAt(j))
  }

  /** Every cell of the table, the score cell of a row before its description cell. */
  function AllCells(): (cells: seq<string>)
    ensures |cells| == 2 * TotalRows
    ensures forall j :: 0 <= j < |cells| ==> cells[j] == CellAt(j)
  {
    seq(2 * TotalRows, j requires 0 <= j < 2 * TotalRows => CellAt(j))
  }

  /** The cells a game mode may hide. */
  function Available(mode: GameMode): seq<string>
  {
    match mode
    case Mixed => AllCells()
    case Scores => OfKind(AllCells(), "-score")
    case Descriptions => OfKind(AllCells(), "-description")
  }

  function OfKind(cells: seq<string>, suffix: string): (r: seq<string>)
    ensures |r| <= |cells|
    ensures forall x :: x in r <==> x in cells && EndsWith(x, suffix)
  {
    if cells == [] then []
    else if EndsWith(cells[0], suffix) then [cells[0]] + OfKind(cells[1..], suffix)
    else OfKind(cells[1..], suffix)
  }

  /** `getMaxCells`. */
  function MaxCells(mode: GameMode): nat
  {
    if mode == Scores || mode == Descriptions then TotalRows else TotalRows * 2
  }

  // ---------------------------------------------------------------------------
  // Cell ids identify their cell

  lemma NoDashInDigits(s: string)
    requires AllDigits(s)
    ensures '-' !in s
  {
    assert forall i :: 0 <= i < |s| ==> s[i] != '-';
  }

  /** Splitting a cell id on '-' gives back its three parts. */
  lemma SplitCellId(c: Category, score: nat, k: CellKind)
    ensures Split(CellId(c, score, k), '-') == [CategoryName(c), NatToString(score), KindName(k)]
  {
    var name, num, kind := CategoryName(c), NatToString(score), KindName(k);
    NoDashInDigits(num);
    assert '-' !in kind by {
      match k
      case ScoreCell =>
      case DescriptionCell =>
    }
    assert '-' !in name by {
      match c
      case Oculaire =>
      case Verbale =>
      case Motrice =>
    }
    assert CellId(c, score, k) == name + ['-'] + (num + ['-'] + kind);
    SplitCons(name, '-', num + ['-'] + kind);
    SplitCons(num, '-', kind);
  }

  lemma CategoryNameInjective(c: Category, d: Category)
    requires CategoryName(c) == CategoryName(d)
    ensures c == d
  {
  }

  lemma NatToStringInjective(m: nat, n: nat)
    requires NatToString(m) == NatToString(n)
    ensures m == n
  {
    DecimalValueOfNatToString(m);
    DecimalValueOfNatToString(n);
  }

  /** Two cells with the same id are the same cell. */
  lemma CellIdInjective(c: Category, s: nat, k: CellKind, c': Category, s': nat, k': CellKind)
    requires CellId(c, s, k) == CellId(c', s', k')
    ensures c == c' && s == s' && k == k'
  {
    SplitCellId(c, s, k);
    SplitCellId(c', s', k');
    CategoryNameInjective(c, c');
    NatToStringInjective(s, s');
    assert KindName(k) == KindName(k');
  }

  /** No cell appears twice in the table, so a set of cells has as many members as the list. */
  /** Two rows of the table with the same category and score are the same row. */
  lemma RowAtInjective(a: nat, b: nat)
    requires a < TotalRows && b < TotalRows
    requires RowAt(a).category == RowAt(b).category && RowAt(a).item.score == RowAt(b).item.score
    ensures a == b
  {
    ItemScores(Oculaire);
    ItemScores(Verbale);
    ItemScores(Motrice);
  }

  lemma {:induction false} AllCellsDistinct()
    ensures forall i, j :: 0 <= i < j < |AllCells()| ==> AllCells()[i] != AllCells()[j]
  {
    forall i, j | 0 <= i < j < |AllCells()|
      ensures AllCells()[i] != AllCells()[j]
    {
      var ri, rj := RowAt(i / 2), RowAt(j / 2);
      if AllCells()[i] == AllCells()[j] {
        CellIdInjective(ri.category, ri.item.score, KindAt(i), rj.category, rj.item.score, KindAt(j));
        RowAtInjective(i / 2, j / 2);
        assert false;
      }
    }
  }


  // ---------------------------------------------------------------------------
  // Building the candidate cells (the nested `forEach` that pushes ids)

  lemma RowAtOffset(ci: nat, k: nat)
    requires ci < 3 && k < |Items(Categories[ci])|
    ensures Offset(ci) + k < TotalRows
    ensures RowAt(Offset(ci) + k) == Row(Categories[ci], Items(Categories[ci])[k])
  {
    ItemScores(Categories[ci]);
  }

  lemma PrefixByTwo(s: seq<string>, n: nat)
    requires n + 2 <= |s|
    ensures s[..n + 2] == s[..n] + [s[n], s[n + 1]]
  {
  }

  lemma AllCellsOfRow(row: nat)
    requires row < TotalRows
    ensures AllCells()[2 * row] == RowCell(RowAt(row), ScoreCell)
    ensures AllCells()[2 * row + 1] == RowCell(RowAt(row), DescriptionCell)
  {
    assert AllCells()[2 * row] == CellAt(2 * row);
    assert AllCells()[2 * row + 1] == CellAt(2 * row + 1);
    assert (2 * row) / 2 == row && (2 * row + 1) / 2 == row;
    assert KindAt(2 * row) == ScoreCell && KindAt(2 * row + 1) == DescriptionCell;
  }

  /** `generateHiddenCells`'s first half: push the score and description id of every row. */
  method BuildAllCells() returns (allCells: seq<string>)
    ensures allCells == AllCells()
  {
    allCells := [];
    for ci := 0 to |Categories|
      invariant allCells == AllCells()[..2 * Offset(ci)]
    {
      allCells := PushCategory(ci, allCells);
    }
  }

  /** The inner `forEach`: push the two ids of each row of one category. */
  method PushCategory(ci: nat, cells: seq<string>) returns (allCells: seq<string>)
    requires ci < 3 && cells == AllCells()[..2 * Offset(ci)]
    ensures allCells == AllCells()[..2 * Offset(ci + 1)]
  {
    allCells := cells;
    var category := Categories[ci];
    var items := Items(category);
    CategorySize(ci);
    for k := 0 to |items|
      invariant allCells == AllCells()[..2 * (Offset(ci) + k)]
    {
      RowCells(ci, k);
      allCells := allCells + [CellId(category, items[k].score, ScoreCell)];
      allCells := allCells + [CellId(category, items[k].score, DescriptionCell)];
    }
  }

  lemma CategorySize(ci: nat)
    requires ci < 3
    ensures Offset(ci) + |Items(Categories[ci])| == Offset(ci + 1)
  {
    ItemScores(Categories[ci]);
  }

  /** Row `k` of category `ci` contributes its two cells right after the rows before it. */
  lemma RowCells(ci: nat, k: nat)
    requires ci < 3 && k < |Items(Categories[ci])|
    ensures Offset(ci) + k < TotalRows
    ensures var row, item := Offset(ci) + k, Items(Categories[ci])[k];
      AllCells()[..2 * row + 2] == AllCells()[..2 * row]
        + [CellId(Categories[ci], item.score, ScoreCell), CellId(Categories[ci], item.score, DescriptionCell)]
  {
    var row := Offset(ci) + k;
    RowAtOffset(ci, k);
    AllCellsOfRow(row);
    PrefixByTwo(AllCells(), 2 * row);
  }

  lemma EndsWithAppend(a: string, b: string, t: string)
    requires |t| <= |b|
    ensures EndsWith(a + b, t) <==> EndsWith(b, t)
  {
    assert (a + b)[|a + b| - |t|..] == b[|b| - |t|..];
  }

  lemma ScoreSuffix(p: string)
    ensures EndsWith(p + "-score", "-score") && !EndsWith(p + "-score", "-description")
  {
    var x := p + "-score";
    assert x[|x| - 6..] == "-score";
    if 12 <= |x| {
      assert x[|x| - 12..][6] == x[|x| - 6] == '-';
      assert "-description"[6] == 'i';
    }
  }

  lemma DescriptionSuffix(p: string)
    ensures EndsWith(p + "-description", "-description") && !EndsWith(p + "-description", "-score")
  {
    var y := p + "-description";
    assert y[|y| - 12..] == "-description";
    assert y[|y| - 6..][0] == y[|y| - 6] == 'i';
  }

  lemma KindSuffixes(c: Category, s: nat)
    ensures EndsWith(CellId(c, s, ScoreCell), "-score")
    ensures !EndsWith(CellId(c, s, ScoreCell), "-description")
    ensures EndsWith(CellId(c, s, DescriptionCell), "-description")
    ensures !EndsWith(CellId(c, s, DescriptionCell), "-score")
  {
    var p := CategoryName(c) + "-" + NatToString(s);
    assert CellId(c, s, ScoreCell) == p + "-score";
    assert CellId(c, s, DescriptionCell) == p + "-description";
    ScoreSuffix(p);
    DescriptionSuffix(p);
  }


  /** The number of cells a mode can hide is `getMaxCells()`: 15 rows, two cells per row in mixed mode. */
  lemma {:induction false} AvailableCount(mode: GameMode)
    ensures |Available(mode)| == MaxCells(mode)
  {
    if mode != Mixed {
      var suffix := if mode == Scores then "-score" else "-description";
      var all := AllCells();
      forall j | 0 <= j < |all|
        ensures EndsWith(all[j], suffix) <==> (j % 2 == 0) == (mode == Scores)
      {
        var r := RowAt(j / 2);
        KindSuffixes(r.category, r.item.score);
      }
      OfKindAlternating(all, suffix, mode == Scores);
    }
  }

  /** In a list whose elements alternate between matching and not matching, half of them match. */
  lemma {:induction false} OfKindAlternating(cells: seq<string>, suffix: string, evenMatch: bool)
    requires |cells| % 2 == 0
    requires forall j :: 0 <= j < |cells| ==> (EndsWith(cells[j], suffix) <==> (j % 2 == 0) == evenMatch)
    ensures |OfKind(cells, suffix)| == |cells| / 2
    decreases |cells|
  {
    if cells != [] {
      var rest := cells[2..];
      forall j | 0 <= j < |rest|
        ensures EndsWith(rest[j], suffix) <==> (j % 2 == 0) == evenMatch
      {
        assert rest[j] == cells[j + 2];
      }
      OfKindAlternating(rest, suffix, evenMatch);
      assert cells[1..][1..] == rest;
      assert EndsWith(cells[0], suffix) == evenMatch;
      assert EndsWith(cells[1], suffix) == !evenMatch;
      assert cells[1..][0] == cells[1];
    }
  }

  lemma OfKindDistinct(cells: seq<string>, suffix: string)
    requires forall i, j :: 0 <= i < j < |cells| ==> cells[i] != cells[j]
    ensures forall i, j :: 0 <= i < j < |OfKind(cells, suffix)| ==> OfKind(cells, suffix)[i] != OfKind(cells, suffix)[j]
    decreases |cells|
  {
    if cells != [] {
      OfKindDistinct(cells[1..], suffix);
    }
  }

  lemma AvailableDistinct(mode: GameMode)
    ensures forall i, j :: 0 <= i < j < |Available(mode)| ==> Available(mode)[i] != Available(mode)[j]
  {
    AllCellsDistinct();
    OfKindDistinct(AllCells(), "-score");
    OfKindDistinct(AllCells(), "-description");
  }

  /** A list without repetitions has as many distinct members as elements, prefix by prefix. */
  lemma {:induction false} PrefixSetSize(s: seq<string>, k: nat)
    requires k <= |s|
    requires forall i, j :: 0 <= i < j < |s| ==> s[i] != s[j]
    ensures |set x | x in s[..k]| == k
  {
    if k > 0 {
      PrefixSetSize(s, k - 1);
      var prefix := s[..k - 1];
      assert s[..k] == prefix + [s[k - 1]];
      assert s[k - 1] !in prefix by {
        forall i | 0 <= i < |prefix|
          ensures prefix[i] != s[k - 1]
        {
          assert prefix[i] == s[i];
        }
      }
      var before := set x | x in prefix;
      assert (set x | x in s[..k]) == before + {s[k - 1]};
    }
  }

  /** A mode has a set of `k` distinct available cells for every `k` up to its size. */
  lemma SelectionOfSize(mode: GameMode, k: nat) returns (selection: set<string>)
    requires k <= |Available(mode)|
    ensures selection <= (set x | x in Available(mode)) && |selection| == k
  {
    AvailableDistinct(mode);
    PrefixSetSize(Available(mode), k);
    selection := set x | x in Available(mode)[..k];
  }

  lemma {:induction false} SubsetSize(a: set<string>, b: set<string>)
    requires a <= b
    ensures |a| <= |b|
    decreases |b|
  {
    if a != {} {
      var x :| x in a;
      SubsetSize(a - {x}, b - {x});
    }
  }

  // ---------------------------------------------------------------------------
  // Reading a cell id back and grading answers

  /** `items.find(i => i.score === score)`; a `NaN` score finds nothing. */
  function FindItem(items: seq<GlasgowItem>, score: Option<int>): (r: Option<GlasgowItem>)
    ensures r.Some? ==> r.value in items && score == Some(r.value.score)
    ensures r.None? ==> forall i :: 0 <= i < |items| ==> score != Some(items[i].score)
  {
    if items == [] then None
    else if score == Some(items[0].score) then Some(items[0])
    else FindItem(items[1..], score)
  }

  /** The cell id names one of the three categories (what `glasgowData[category]` needs to exist). */
  predicate KnownCategory(cellId: string)
  {
    CategoryByName(Split(cellId, '-')[0]).Some?
  }

  /**
   * `getCorrectAnswer`: split the id on '-', look the score up in its
   * category; '' when no row has that score, the score's text for a
   * `score` cell, otherwise the row's description.
   */
  function CorrectAnswer(cellId: string): string
    requires KnownCategory(cellId)
  {
    var parts := Split(cellId, '-');
    var category := CategoryByName(parts[0]).value;
    var score := if |parts| > 1 then ParseInt(parts[1]) else None;
    var item := FindItem(Items(category), score);
    if item.None? then ""
    else if |parts| > 2 && parts[2] == "score" then NatToString(item.value.score)
    else item.value.description
  }

  lemma CategoryByNameOfName(c: Category)
    ensures CategoryByName(CategoryName(c)) == Some(c)
  {
  }

  lemma FindItemOfScore(c: Category, i: nat)
    requires i < |Items(c)|
    ensures FindItem(Items(c), Some(Items(c)[i].score)) == Some(Items(c)[i])
  {
    ItemScores(c);
  }

  /** The answer of a table cell is its row's score (as text) or description. */
  lemma {:induction false} CorrectAnswerOfRow(c: Category, i: nat, k: CellKind)
    requires i < |Items(c)|
    ensures KnownCategory(CellId(c, Items(c)[i].score, k))
    ensures CorrectAnswer(CellId(c, Items(c)[i].score, k))
         == if k == ScoreCell then NatToString(Items(c)[i].score) else Items(c)[i].description
  {
    var item := Items(c)[i];
    SplitCellId(c, item.score, k);
    CategoryByNameOfName(c);
    ParseIntOfIntToString(item.score);
    FindItemOfScore(c, i);
  }

  /** A score the category does not have yields the empty answer. */
  lemma {:induction false} CorrectAnswerOfMissingScore(c: Category, score: nat, k: CellKind)
    requires forall i :: 0 <= i < |Items(c)| ==> Items(c)[i].score != score
    ensures KnownCategory(CellId(c, score, k))
    ensures CorrectAnswer(CellId(c, score, k)) == ""
  {
    SplitCellId(c, score, k);
    CategoryByNameOfName(c);
    ParseIntOfIntToString(score);
  }

  /**
   * `isCorrect`: `None` (null) before the answers are checked; false for a
   * missing or empty answer; score cells compare `parseInt` values (a `NaN`
   * never matches); other cells compare lower-cased, trimmed texts.
   */
  function IsCorrect(showResults: bool, answers: map<string, string>, cellId: string): (r: Option<bool>)
    requires KnownCategory(cellId)
    ensures r.None? <==> !showResults
    ensures r == Some(true) ==> cellId in answers && answers[cellId] != ""
  {
    if !showResults then None
    else
      var correct := CorrectAnswer(cellId);
      if cellId !in answers || answers[cellId] == "" then Some(false)
      else if EndsWith(cellId, "-score") then
        var given := ParseInt(answers[cellId]);
        Some(given.Some? && given == ParseInt(correct))
      else Some(Trim(ToLower(answers[cellId])) == Trim(ToLower(correct)))
  }

  /** A hidden score cell is right exactly when the answer starts with the row's score (as `parseInt` reads it). */
  lemma ScoreCellGrading(c: Category, i: nat, answers: map<string, string>)
    requires i < |Items(c)|
    ensures KnownCategory(CellId(c, Items(c)[i].score, ScoreCell))
    ensures var id := CellId(c, Items(c)[i].score, ScoreCell);
      (IsCorrect(true, answers, id) == Some(true) <==>
        id in answers && answers[id] != "" && ParseInt(answers[id]) == Some(Items(c)[i].score))
  {
    CorrectAnswerOfRow(c, i, ScoreCell);
    KindSuffixes(c, Items(c)[i].score);
    ParseIntOfIntToString(Items(c)[i].score);
  }

  /** A hidden description cell is right exactly when the answer matches the description up to case and surrounding blanks. */
  lemma DescriptionCellGrading(c: Category, i: nat, answers: map<string, string>)
    requires i < |Items(c)|
    ensures KnownCategory(CellId(c, Items(c)[i].score, DescriptionCell))
    ensures var id := CellId(c, Items(c)[i].score, DescriptionCell);
      (IsCorrect(true, answers, id) == Some(true) <==>
        id in answers && answers[id] != "" && Trim(ToLower(answers[id])) == Trim(ToLower(Items(c)[i].description)))
  {
    CorrectAnswerOfRow(c, i, DescriptionCell);
    KindSuffixes(c, Items(c)[i].score);
  }

  lemma AllCellsKnown()
    ensures forall x :: x in AllCells() ==> KnownCategory(x)
  {
    forall x | x in AllCells()
      ensures KnownCategory(x)
    {
      var j :| 0 <= j < |AllCells()| && AllCells()[j] == x;
      var r := RowAt(j / 2);
      SplitCellId(r.category, r.item.score, if j % 2 == 0 then ScoreCell else DescriptionCell);
      CategoryByNameOfName(r.category);
    }
  }

  // ---------------------------------------------------------------------------
  // Mastery level and messages

  datatype Mastery = Parfait | Excellent | TresBien | Bien | Moyen | AAmeliorer

  function MasteryText(m: Mastery): string
  {
    match m
    case Parfait => "Parfait !"
    case Excellent => "Excellent"
    case TresBien => "Très bien"
    case Bien => "Bien"
    case Moyen => "Moyen"
    case AAmeliorer => "À améliorer"
  }

  /** `correct / total >= tenths / 10`, without floating point. */
  predicate RatioAtLeast(correct: nat, total: nat, tenths: nat)
  {
    10 * correct >= tenths * total
  }

  /** The level shown after checking: perfect on a full score, else by ratio thresholds 0.9, 0.8, 0.7, 0.6. */
  function MasteryLevel(correct: nat, total: nat): (m: Mastery)
    ensures m == Parfait <==> correct == total
    ensures m == Excellent <==> correct != total && RatioAtLeast(correct, total, 9)
    ensures m == TresBien <==> correct != total && RatioAtLeast(correct, total, 8) && !RatioAtLeast(correct, total, 9)
    ensures m == Bien <==> correct != total && RatioAtLeast(correct, total, 7) && !RatioAtLeast(correct, total, 8)
    ensures m == Moyen <==> correct != total && RatioAtLeast(correct, total, 6) && !RatioAtLeast(correct, total, 7)
    ensures m == AAmeliorer <==> correct != total && !RatioAtLeast(correct, total, 6)
  {
    if correct == total then Parfait
    else if RatioAtLeast(correct, total, 9) then Excellent
    else if RatioAtLeast(correct, total, 8) then TresBien
    else if RatioAtLeast(correct, total, 7) then Bien
    else if RatioAtLeast(correct, total, 6) then Moyen
    else AAmeliorer
  }

  function Rank(m: Mastery): nat
  {
    match m
    case AAmeliorer => 0
    case Moyen => 1
    case Bien => 2
    case TresBien => 3
    case Excellent => 4
    case Parfait => 5
  }

  /** Each ratio threshold met by a smaller ratio is met by a larger one. */
  lemma RatioThresholdMonotone(c1: nat, t1: nat, c2: nat, t2: nat, k: nat)
    requires t1 > 0
    requires c1 * t2 <= c2 * t1
    requires RatioAtLeast(c1, t1, k)
    ensures RatioAtLeast(c2, t2, k)
  {
    calc {
      k * t2 * t1;
      == (k * t1) * t2;
      <= { MulMonotone(k * t1, 10 * c1, t2); } 10 * c1 * t2;
      == 10 * (c1 * t2);
      <= 10 * (c2 * t1);
      == (10 * c2) * t1;
    }
    if 10 * c2 < k * t2 {
      MulMonotone(10 * c2 + 1, k * t2, t1);
    }
  }

  /** A better ratio of right answers never earns a lower level. */
  lemma MasteryMonotone(c1: nat, t1: nat, c2: nat, t2: nat)
    requires c1 <= t1 && c2 <= t2
    requires c1 * t2 <= c2 * t1
    requires c2 == t2 || c1 != t1
    ensures Rank(MasteryLevel(c1, t1)) <= Rank(MasteryLevel(c2, t2))
  {
    if c2 != t2 {
      assert t1 > 0;
      if RatioAtLeast(c1, t1, 9) { RatioThresholdMonotone(c1, t1, c2, t2, 9); }
      if RatioAtLeast(c1, t1, 8) { RatioThresholdMonotone(c1, t1, c2, t2, 8); }
      if RatioAtLeast(c1, t1, 7) { RatioThresholdMonotone(c1, t1, c2, t2, 7); }
      if RatioAtLeast(c1, t1, 6) { RatioThresholdMonotone(c1, t1, c2, t2, 6); }
    }
  }

  /** The sentence under the level. */
  datatype Encouragement = Mastered(perfectly: bool) | AlmostPerfect | KeepPractising | ReviseMore

  function EncouragementText(e: Encouragement): string
  {
    match e
    case Mastered(perfectly) =>
      "Vous maîtrisez " + (if perfectly then "parfaitement" else "bien") + " le tableau de Glasgow !"
    case AlmostPerfect => "Très bien ! Presque parfait !"
    case KeepPractising => "Bien ! Continuez à vous entraîner !"
    case ReviseMore => "Il faut réviser encore un peu !"
  }

  /** Full marks read as mastery, "parfaitement" only with the whole table hidden; otherwise thresholds 0.8 and 0.6. */
  function EncouragementFor(correct: nat, total: nat, numCellsToHide: int, maxCells: nat): (e: Encouragement)
    ensures e.Mastered? <==> correct == total
    ensures e == Mastered(true) <==> correct == total && numCellsToHide == maxCells
    ensures e == AlmostPerfect <==> correct != total && RatioAtLeast(correct, total, 8)
    ensures e == ReviseMore <==> correct != total && !RatioAtLeast(correct, total, 6)
  {
    if correct == total then Mastered(numCellsToHide == maxCells)
    else if RatioAtLeast(correct, total, 8) then AlmostPerfect
    else if RatioAtLeast(correct, total, 6) then KeepPractising
    else ReviseMore
  }

  /** `Math.ceil(max * p / 100)` for the preset buttons (25, 50, 75, 100 per cent). */
  function PresetCount(maxCells: nat, percent: nat): (n: nat)
    ensures n * 100 >= maxCells * percent
    ensures (n - 1) * 100 < maxCells * percent || n == 0
  {
    CeilDiv(maxCells * percent, 100)
  }

  /** "Augmenter la difficulté": add a quarter of the table, capped at the table. */
  function IncreasedCount(n: int, maxCells: nat): (r: int)
    ensures r <= maxCells
    ensures 0 < maxCells && n < maxCells ==> r > n
    ensures r == maxCells || r == n + CeilDiv(maxCells, 4)
  {
    Min(n + CeilDiv(maxCells, 4), maxCells)
  }

  /** The results panel after checking: score, rounded percentage, level, sentence and the difficulty suggestion. */
  datatype ResultsPanel = ResultsPanel(
    correct: nat,
    total: nat,
    percent: Percent,
    mastery: Mastery,
    encouragement: Encouragement,
    offersIncrease: bool)

  function Results(correct: nat, total: nat, numCellsToHide: int, maxCells: nat): (r: ResultsPanel)
    ensures r.correct == correct && r.total == total
    ensures r.percent == RoundedPercent(correct, total)
    ensures r.mastery == MasteryLevel(correct, total)
    ensures r.encouragement == EncouragementFor(correct, total, numCellsToHide, maxCells)
    ensures r.offersIncrease <==> correct == total && numCellsToHide < maxCells
  {
    ResultsPanel(correct, total, RoundedPercent(correct, total), MasteryLevel(correct, total),
                 EncouragementFor(correct, total, numCellsToHide, maxCells),
                 correct == total && numCellsToHide < maxCells)
  }

  /**
   * A perfect round shows 100%, reads "Parfait", and offers a harder round exactly when the
   * table is not yet fully hidden; taking the offer hides strictly more cells, never more than the table.
   */
  lemma PerfectRound(total: nat, numCellsToHide: int, maxCells: nat)
    requires 0 < total && 0 < maxCells
    ensures var r := Results(total, total, numCellsToHide, maxCells);
      r.percent == Finite(100) && r.mastery == Parfait
      && (r.offersIncrease <==> numCellsToHide < maxCells)
      && (r.offersIncrease ==> numCellsToHide < IncreasedCount(numCellsToHide, maxCells) <= maxCells)
  {
    PercentBounds(total, total);
  }

  /**
   * The drawing in `generateHiddenCells`: every cell id, those of the mode's kind, then
   * `min(count, |available|)` distinct ones of them chosen at random.
   */
  method DrawCells(mode: GameMode, count: int) returns (selected: set<string>)
    requires 1 <= count
    ensures selected <= (set x | x in Available(mode))
    ensures |selected| == Min(count, |Available(mode)|)
  {
    var allCells := BuildAllCells();
    var availableCells := allCells;
    if mode == Scores {
      availableCells := OfKind(allCells, "-score");
    } else if mode == Descriptions {
      availableCells := OfKind(allCells, "-description");
    }
    assert availableCells == Available(mode);
    var actualNumToHide := Min(count, |availableCells|);
    ghost var sample := SelectionOfSize(mode, actualNumToHide);
    selected :| selected <= (set x | x in availableCells) && |selected| == actualNumToHide;
  }

  /** The cells among `cells` that are graded right. */
  ghost function RightAmong(showResults: bool, answers: map<string, string>, cells: set<string>): set<string>
    requires forall c :: c in cells ==> KnownCategory(c)
  {
    set c | c in cells && IsCorrect(showResults, answers, c) == Some(true)
  }

  lemma RightAmongAdd(showResults: bool, answers: map<string, string>, cells: set<string>, cellId: string)
    requires forall c :: c in cells ==> KnownCategory(c)
    requires KnownCategory(cellId) && cellId !in cells
    ensures |RightAmong(showResults, answers, cells + {cellId})|
         == |RightAmong(showResults, answers, cells)| + (if IsCorrect(showResults, answers, cellId) == Some(true) then 1 else 0)
  {
    if IsCorrect(showResults, answers, cellId) == Some(true) {
      assert RightAmong(showResults, answers, cells + {cellId}) == RightAmong(showResults, answers, cells) + {cellId};
    } else {
      assert RightAmong(showResults, answers, cells + {cellId}) == RightAmong(showResults, answers, cells);
    }
  }

  /** The `forEach` of `calculateScore` over the hidden cells: one point per cell graded right, none before the results are shown. */
  method CountRight(showResults: bool, answers: map<string, string>, cells: set<string>) returns (correct: nat)
    requires forall c :: c in cells ==> KnownCategory(c)
    ensures correct == |RightAmong(showResults, answers, cells)|
    ensures correct <= |cells|
    ensures !showResults ==> correct == 0
  {
    correct := 0;
    var rest := cells;
    ghost var done: set<string> := {};
    while rest != {}
      invariant rest <= cells && done == cells - rest
      invariant correct == |RightAmong(showResults, answers, done)|
      decreases |rest|
    {
      var cellId :| cellId in rest;
      RightAmongAdd(showResults, answers, done, cellId);
      var right := IsCorrect(showResults, answers, cellId);
      if right == Some(true) {
        correct := correct + 1;
      }
      rest := rest - {cellId};
      done := done + {cellId};
    }
    assert done == cells;
    SubsetSize(RightAmong(showResults, answers, cells), cells);
    if !showResults {
      assert RightAmong(showResults, answers, cells) == {};
    }
  }

  // ---------------------------------------------------------------------------
  // The trainer's state

  class Trainer {
    var hiddenCells: set<string>
    var userAnswers: map<string, string>
    var showResults: bool
    var gameMode: GameMode
    var numCellsToHide: int

    /** The hidden cells are cells of the current mode, as many as asked for, and the count fits the mode. */
    ghost predicate Valid()
      reads this
    {
      && 1 <= numCellsToHide <= MaxCells(gameMode)
      && hiddenCells <= (set x | x in Available(gameMode))
      && |hiddenCells| == numCellsToHide
    }

    /** The component mounts in mixed mode with 8 cells to hide and draws a first table. */
    constructor ()
      ensures Valid()
      ensures gameMode == Mixed && numCellsToHide == 8
      ensures userAnswers == map[] && !showResults
    {
      gameMode := Mixed;
      numCellsToHide := 8;
      hiddenCells := {};
      userAnswers := map[];
      showResults := false;
      new;
      GenerateHiddenCells();
    }

    /**
     * "Nouveau tableau" (and the effect that runs whenever the mode or the
     * count changes): hide `min(numCellsToHide, |available|)` distinct
     * available cells chosen at random, clear the answers and the results.
     */
    method GenerateHiddenCells()
      requires 1 <= numCellsToHide
      modifies this
      ensures hiddenCells <= (set x | x in Available(gameMode))
      ensures |hiddenCells| == Min(numCellsToHide, |Available(gameMode)|)
      ensures userAnswers == map[] && !showResults
      ensures gameMode == old(gameMode) && numCellsToHide == old(numCellsToHide)
      ensures numCellsToHide <= MaxCells(gameMode) ==> Valid()
    {
      hiddenCells := DrawCells(gameMode, numCellsToHide);
      userAnswers := map[];
      showResults := false;
      AvailableCount(gameMode);
    }

    /** Typing in a hidden cell records the text under the cell's id. */
    method HandleAnswerChange(cellId: string, value: string)
      modifies this
      ensures userAnswers == old(userAnswers)[cellId := value]
      ensures hiddenCells == old(hiddenCells) && showResults == old(showResults)
      ensures gameMode == old(gameMode) && numCellsToHide == old(numCellsToHide)
    {
      userAnswers := userAnswers[cellId := value];
    }

    /** "Vérifier les réponses", which is disabled while no answer was typed. */
    method CheckAnswers()
      modifies this
      ensures showResults == (old(showResults) || |old(userAnswers)| > 0)
      ensures userAnswers == old(userAnswers) && hiddenCells == old(hiddenCells)
      ensures gameMode == old(gameMode) && numCellsToHide == old(numCellsToHide)
    {
      if |userAnswers| > 0 {
        showResults := true;
      }
    }

    /** "Recommencer": same hidden cells, answers and results cleared. */
    method Restart()
      modifies this
      ensures userAnswers == map[] && !showResults
      ensures hiddenCells == old(hiddenCells)
      ensures gameMode == old(gameMode) && numCellsToHide == old(numCellsToHide)
    {
      userAnswers := map[];
      showResults := false;
    }

    /** The mode selector: the count is lowered to the new maximum if it exceeds it, then a new table is drawn. */
    method SetGameMode(mode: GameMode)
      requires Valid()
      modifies this
      ensures Valid()
      ensures gameMode == mode
      ensures numCellsToHide == Min(old(numCellsToHide), MaxCells(mode))
      ensures userAnswers == map[] && !showResults
    {
      gameMode := mode;
      ClampToMode();
      GenerateHiddenCells();
    }

    /** The effect that lowers `numCellsToHide` to `getMaxCells()` when it exceeds it. */
    method ClampToMode()
      modifies this
      ensures numCellsToHide == (if old(numCellsToHide) > MaxCells(gameMode) then MaxCells(gameMode) else old(numCellsToHide))
      ensures gameMode == old(gameMode) && hiddenCells == old(hiddenCells)
      ensures userAnswers == old(userAnswers) && showResults == old(showResults)
    {
      var maxCells := MaxCells(gameMode);
      if numCellsToHide > maxCells {
        numCellsToHide := maxCells;
      }
    }

    /**
     * The slider (1 to `getMaxCells()`) and the preset buttons. A new count
     * draws a new table; the count it already has is a state update React
     * skips, so the table, the answers and the results stay as they are.
     */
    method SetNumCellsToHide(n: int)
      requires Valid()
      requires 1 <= n <= MaxCells(gameMode)
      modifies this
      ensures Valid()
      ensures numCellsToHide == n && gameMode == old(gameMode)
      ensures n != old(numCellsToHide) ==> userAnswers == map[] && !showResults
      ensures n == old(numCellsToHide) ==>
        hiddenCells == old(hiddenCells) && userAnswers == old(userAnswers) && showResults == old(showResults)
    {
      if n != numCellsToHide {
        numCellsToHide := n;
        ClampToMode();
        GenerateHiddenCells();
      }
    }

    /** "Augmenter la difficulté", offered after a perfect score below the maximum. */
    method IncreaseDifficulty()
      requires Valid()
      modifies this
      ensures Valid()
      ensures numCellsToHide == IncreasedCount(old(numCellsToHide), MaxCells(gameMode))
      ensures old(numCellsToHide) < MaxCells(gameMode) ==> numCellsToHide > old(numCellsToHide)
      ensures gameMode == old(gameMode)
      ensures numCellsToHide != old(numCellsToHide) ==> userAnswers == map[] && !showResults
      ensures numCellsToHide == old(numCellsToHide) ==>
        hiddenCells == old(hiddenCells) && userAnswers == old(userAnswers) && showResults == old(showResults)
    {
      SetNumCellsToHide(IncreasedCount(numCellsToHide, MaxCells(gameMode)));
    }

    lemma HiddenCellsKnown()
      requires Valid()
      ensures forall c :: c in hiddenCells ==> KnownCategory(c)
    {
      AllCellsKnown();
      forall c | c in hiddenCells
        ensures KnownCategory(c)
      {
        assert c in Available(gameMode);
      }
    }

    /** `calculateScore`: count the hidden cells graded right, out of all hidden cells. */
    method CalculateScore() returns (correct: nat, total: nat)
      requires Valid()
      ensures total == |hiddenCells| == numCellsToHide
      ensures forall c :: c in hiddenCells ==> KnownCategory(c)
      ensures correct == |RightAmong(showResults, userAnswers, hiddenCells)|
      ensures correct <= total
      ensures !showResults ==> correct == 0
    {
      total := |hiddenCells|;
      HiddenCellsKnown();
      correct := CountRight(showResults, userAnswers, hiddenCells);
    }
  }
}
