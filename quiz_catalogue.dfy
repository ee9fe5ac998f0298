/**
 * The quiz catalogue page: one server page of quizzes at a time,
 * previous/next buttons without an upper bound, and a start dialog whose
 * three buttons navigate to the chosen quiz at a difficulty.
 */
module QuizCatalogue {
  import opened Base
  import opened Text
  import opened CatalogueCommon

  /** What a catalogue card shows of a quiz. */
  datatype QuizEntry = QuizEntry(id: int, title: string, timePerQuestion: int, passingScore: int)

  /** How a fetch of one page ended: a body, a response that is not ok, or something thrown on the way. */
  datatype FetchOutcome =
    | Fetched(member: seq<QuizEntry>)
    | NotOk
    | Failed(message: Option<string>)  // `Some` for an `Error`, `None` for anything else thrown

  const LoadError: string := "Erreur lors du chargement des quiz"

  /** The route part of a start link: `/quiz/${id}`. */
  function QuizPath(id: int): string
  {
    "/quiz/" + IntToString(id)
  }

  /** `/quiz/${id}?difficulty=${d}` */
  function QuizStartUrl(id: int, d: Difficulty): (url: string)
    ensures "/quiz/" <= url
  {
    Link(QuizPath(id), [Param("difficulty", DifficultyName(d))])
  }

  /** Reads a start link back, the way the quiz page reads its route and query. */
  function ParseQuizStartUrl(url: string): Option<(int, Difficulty)>
  {
    match ParseLink(url)
    case None => None
    case Some((path, ps)) =>
      if |path| < 6 || path[..6] != "/quiz/" || |ps| != 1 || ps[0].key != "difficulty" then None
      else match (ParseInt(path[6..]), DifficultyByName(ps[0].value))
        case (Some(id), Some(d)) => Some((id, d))
        case _ => None
  }

  lemma QuizPathPlain(id: int)
    ensures Plain(QuizPath(id))
  {
    var digits := IntToString(id);
    IntToStringPlain(id);
    assert forall k :: 6 <= k < |QuizPath(id)| ==> QuizPath(id)[k] == digits[k - 6];
  }

  /** The route part reads back to the id. */
  lemma QuizPathId(id: int)
    ensures |QuizPath(id)| >= 6 && QuizPath(id)[..6] == "/quiz/" && ParseInt(QuizPath(id)[6..]) == Some(id)
  {
    var path := QuizPath(id);
    assert path[..6] == "/quiz/" && path[6..] == IntToString(id);
    ParseIntOfIntToString(id);
  }

  /** A start link splits into its route and its one `difficulty` parameter. */
  lemma StartLinkParts(id: int, d: Difficulty)
    ensures ParseLink(QuizStartUrl(id, d)) == Some((QuizPath(id), [Param("difficulty", DifficultyName(d))]))
  {
    var ps := [Param("difficulty", DifficultyName(d))];
    QuizPathPlain(id);
    assert Plain(ps[0].key) && Plain(ps[0].value);
    LinkRoundTrip(QuizPath(id), ps);
  }

  /** A start link carries its quiz id and difficulty, and nothing is lost on the way. */
  lemma QuizStartUrlRoundTrip(id: int, d: Difficulty)
    ensures ParseQuizStartUrl(QuizStartUrl(id, d)) == Some((id, d))
  {
    StartLinkParts(id, d);
    QuizPathId(id);
    DifficultyNameRoundTrip(d);
  }

  /** `handleQuizStart(d)`: where the router goes, or nowhere when no truthy id is selected. */
  function StartNavigation(selectedId: Option<int>, d: Difficulty): (url: Option<string>)
    ensures url.None? <==> !IdTruthy(selectedId)
  {
    if IdTruthy(selectedId) then Some(QuizStartUrl(selectedId.value, d)) else None
  }

  /** A start goes to the selected quiz at the chosen difficulty. */
  lemma StartNavigationCarries(selectedId: Option<int>, d: Difficulty)
    requires IdTruthy(selectedId)
    ensures var url := StartNavigation(selectedId, d);
      url.Some? && ParseQuizStartUrl(url.value) == Some((selectedId.value, d))
  {
    QuizStartUrlRoundTrip(selectedId.value, d);
  }

  /** The page's state slots. */
  class Catalogue {
    var mounted: bool
    var quizzes: seq<QuizEntry>
    var loading: bool
    var error: Option<string>
    var currentPage: int
    var selectedQuizId: Option<int>
    var isModalOpen: bool

    /** The page never goes below 1. */
    predicate Valid()
      reads this
    {
      currentPage >= 1
    }

    constructor()
      ensures Valid()
      ensures !mounted && quizzes == [] && loading && error == None && currentPage == 1
      ensures selectedQuizId == None && !isModalOpen
    {
      mounted, quizzes, loading, error := false, [], true, None;
      currentPage, selectedQuizId, isModalOpen := 1, None, false;
    }

    /** The mount effect; `mounted` turning true starts the fetch of the current page. */
    method Mount()
      modifies this
      ensures mounted && loading == (!old(mounted) || old(loading))
      ensures quizzes == old(quizzes) && error == old(error) && currentPage == old(currentPage)
      ensures selectedQuizId == old(selectedQuizId) && isModalOpen == old(isModalOpen)
    {
      if !mounted {
        mounted := true;
        loading := true;
      }
    }

    /** The end of the fetch: the page's quizzes on success, the error message otherwise. */
    method Loaded(outcome: FetchOutcome)
      requires Valid()
      modifies this
      ensures Valid() && !loading
      ensures outcome.Fetched? ==> quizzes == outcome.member && error == None
      ensures outcome.NotOk? ==> quizzes == old(quizzes) && error == Some(LoadError)
      ensures outcome.Failed? ==> quizzes == old(quizzes) && error == Some(outcome.message.GetOr(UnknownError))
      ensures mounted == old(mounted) && currentPage == old(currentPage)
      ensures selectedQuizId == old(selectedQuizId) && isModalOpen == old(isModalOpen)
    {
      match outcome {
        case Fetched(member) =>
          quizzes := member;
          error := None;
        case NotOk =>
          error := Some(LoadError);
        case Failed(message) =>
          error := Some(message.GetOr(UnknownError));
      }
      loading := false;
    }

    predicate ShowsList()
      reads this
    {
      mounted && !loading && !ErrorShown(error)
    }

    /** The page buttons show for any non-empty page, whatever the number of pages. */
    predicate ShowsPagination()
      reads this
    {
      ShowsList() && |quizzes| > 0
    }

    predicate PrevDisabled()
      reads this
    {
      currentPage == 1
    }

    /** A new page number re-runs the fetch effect; the same number does not. */
    method SetPage(p: int)
      requires Valid() && p >= 1
      modifies this
      ensures Valid() && currentPage == p
      ensures loading == (if p != old(currentPage) && mounted then true else old(loading))
      ensures mounted == old(mounted) && quizzes == old(quizzes) && error == old(error)
      ensures selectedQuizId == old(selectedQuizId) && isModalOpen == old(isModalOpen)
    {
      if p != currentPage {
        currentPage := p;
        if mounted {
          loading := true;
        }
      }
    }

    /** "Page précédente": `max(1, page - 1)`, and no effect while disabled on page 1. */
    method ClickPrev()
      requires Valid()
      modifies this
      ensures Valid()
      ensures currentPage == PrevPage(old(currentPage))
      ensures loading == (if currentPage != old(currentPage) && mounted then true else old(loading))
      ensures mounted == old(mounted) && quizzes == old(quizzes) && error == old(error)
      ensures selectedQuizId == old(selectedQuizId) && isModalOpen == old(isModalOpen)
    {
      if !PrevDisabled() {
        SetPage(PrevPage(currentPage));
      }
    }

    /** "Page suivante": never disabled, so every click asks for the next page. */
    method ClickNext()
      requires Valid()
      modifies this
      ensures Valid()
      ensures currentPage == old(currentPage) + 1
      ensures mounted ==> loading
      ensures loading == (if currentPage != old(currentPage) && mounted then true else old(loading))
      ensures mounted == old(mounted) && quizzes == old(quizzes) && error == old(error)
      ensures selectedQuizId == old(selectedQuizId) && isModalOpen == old(isModalOpen)
    {
      SetPage(NextPage(currentPage));
    }

    /** "Commencer le quiz" on a card: select it and open the dialog. */
    method Choose(id: int)
      requires Valid()
      modifies this
      ensures Valid() && selectedQuizId == Some(id) && isModalOpen
      ensures mounted == old(mounted) && quizzes == old(quizzes) && loading == old(loading)
      ensures error == old(error) && currentPage == old(currentPage)
    {
      selectedQuizId := Some(id);
      isModalOpen := true;
    }

    /** The dialog's own open/close requests. */
    method SetModalOpen(open: bool)
      requires Valid()
      modifies this
      ensures Valid() && isModalOpen == open
      ensures mounted == old(mounted) && quizzes == old(quizzes) && loading == old(loading)
      ensures error == old(error) && currentPage == old(currentPage) && selectedQuizId == old(selectedQuizId)
    {
      isModalOpen := open;
    }

    /** One of the three difficulty buttons: navigate and close the dialog, or do nothing without a truthy id. */
    method HandleQuizStart(d: Difficulty) returns (navigation: Option<string>)
      requires Valid()
      modifies this
      ensures Valid()
      ensures navigation == StartNavigation(selectedQuizId, d)
      ensures isModalOpen == (if navigation.Some? then false else old(isModalOpen))
      ensures mounted == old(mounted) && quizzes == old(quizzes) && loading == old(loading)
      ensures error == old(error) && currentPage == old(currentPage) && selectedQuizId == old(selectedQuizId)
    {
      navigation := None;
      if IdTruthy(selectedQuizId) {
        navigation := Some(QuizStartUrl(selectedQuizId.value, d));
        isModalOpen := false;
      }
    }
  }
}
