/**
 * The catalogue of SNV (sorting of many victims) scenarios: ten scenarios
 * per server page, previous/next buttons, a start dialog with a random-order
 * toggle and a time slider, and the link a start navigates to.
 */
module SnvCatalogue {
  import opened Base
  import opened Text
  import opened CatalogueCommon

  /** A scenario of the fetched page, with what the list and the dialog show of it. */
  datatype Scenario = Scenario(
    id: int,
    title: string,
    level: string,
    description: string,
    victimesCount: Option<int>,
    listedVictims: Option<nat>)  // the length of the optional embedded `victimes` array

  /** Scenarios per server page. */
  const PageSize: nat := 10

  /** The time per victim before the slider is first moved. */
  const DefaultTime: int := 60

  /** The values the range input can produce: 5 to 30 in steps of 5. */
  predicate SliderValue(t: int)
  {
    5 <= t <= 30 && t % 5 == 0
  }

  /** The default time is not a value of the slider that shows it. */
  lemma DefaultTimeOffSlider()
    ensures !SliderValue(DefaultTime)
  {
  }

  /** `Math.ceil(totalItems / 10)`: the fewest ten-scenario pages that hold every scenario. */
  function TotalPagesOf(totalItems: nat): (pages: nat)
    ensures totalItems <= pages * PageSize
    ensures pages == 0 || (pages - 1) * PageSize < totalItems
  {
    CeilDiv(totalItems, PageSize)
  }

  /** The page buttons need more than one page, that is more than ten scenarios. */
  lemma SeveralPagesIffMoreThanTen(totalItems: nat)
    ensures TotalPagesOf(totalItems) > 1 <==> totalItems > PageSize
  {
    var pages := TotalPagesOf(totalItems);
    if pages <= 1 {
      MulMonotone(pages, 1, PageSize);
    } else {
      MulMonotone(1, pages - 1, PageSize);
    }
  }

  /** The "Nombre de victimes" figure: the count field when truthy, else the embedded list's length when truthy, else 0. */
  function VictimsShown(s: Scenario): (n: int)
    ensures n != 0 <==> (s.victimesCount.Some? && s.victimesCount.value != 0)
                        || (s.listedVictims.Some? && s.listedVictims.value != 0)
    ensures s.victimesCount.Some? && s.victimesCount.value != 0 ==> n == s.victimesCount.value
    ensures !(s.victimesCount.Some? && s.victimesCount.value != 0) && s.listedVictims.Some? && s.listedVictims.value != 0 ==>
      n == s.listedVictims.value
  {
    if s.victimesCount.Some? && s.victimesCount.value != 0 then s.victimesCount.value
    else if s.listedVictims.Some? && s.listedVictims.value != 0 then s.listedVictims.value
    else 0
  }

  /** `scenarios.find(s => s.id === selectedId)`: the first scenario with that id; none for a `null` id. */
  function FindScenario(scenarios: seq<Scenario>, id: Option<int>): (r: Option<Scenario>)
    ensures r.Some? ==> id == Some(r.value.id) && r.value in scenarios
    ensures r.None? ==> forall i :: 0 <= i < |scenarios| ==> id != Some(scenarios[i].id)
    ensures r.Some? ==> exists i :: 0 <= i < |scenarios| && scenarios[i] == r.value
                          && forall j :: 0 <= j < i ==> scenarios[j].id != r.value.id
    decreases |scenarios|
  {
    if scenarios == [] then None
    else if id == Some(scenarios[0].id) then Some(scenarios[0])
    else
      var r := FindScenario(scenarios[1..], id);
      if r.Some? then
        var i :| 0 <= i < |scenarios[1..]| && scenarios[1..][i] == r.value
                 && forall j :: 0 <= j < i ==> scenarios[1..][j].id != r.value.id;
        assert scenarios[i + 1] == r.value;
        r
      else r
  }

  /** The time sent: ten seconds in hard mode whatever the slider says, the slider's value otherwise. */
  function TimeFor(d: Difficulty, selectedTime: int): (t: int)
    ensures d == Hard ==> t == 10
    ensures d != Hard ==> t == selectedTime
  {
    if d == Hard then 10 else selectedTime
  }

  /** What a start link carries. */
  datatype SnvStart = SnvStart(id: int, difficulty: Difficulty, random: bool, time: int)

  /** The route part of a start link: `/snv/${id}`. */
  function SnvPath(id: int): string
  {
    "/snv/" + IntToString(id)
  }

  /** The query part of a start link, in the order the template writes it. */
  function SnvParams(s: SnvStart): seq<Param>
  {
    [Param("difficulty", DifficultyName(s.difficulty)),
     Param("random", BoolText(s.random)),
     Param("time", IntToString(s.time))]
  }

  /** `/snv/${id}?difficulty=${d}&random=${random}&time=${time}` */
  function SnvStartUrl(s: SnvStart): (url: string)
    ensures "/snv/" <= url
  {
    Link(SnvPath(s.id), SnvParams(s))
  }

  /** Reads a start link back, the way the scenario page reads its route and query. */
  function ParseSnvStartUrl(url: string): Option<SnvStart>
  {
    match ParseLink(url)
    case None => None
    case Some((path, ps)) =>
      if |path| < 5 || path[..5] != "/snv/" || |ps| != 3
         || ps[0].key != "difficulty" || ps[1].key != "random" || ps[2].key != "time"
      then None
      else match (ParseInt(path[5..]), DifficultyByName(ps[0].value), BoolByText(ps[1].value), ParseInt(ps[2].value))
        case (Some(id), Some(d), Some(random), Some(time)) => Some(SnvStart(id, d, random, time))
        case _ => None
  }

  lemma SnvPathPlain(id: int)
    ensures Plain(SnvPath(id))
  {
    var digits := IntToString(id);
    IntToStringPlain(id);
    assert forall k :: 5 <= k < |SnvPath(id)| ==> SnvPath(id)[k] == digits[k - 5];
  }

  lemma SnvParamsPlain(s: SnvStart)
    ensures forall i :: 0 <= i < |SnvParams(s)| ==> Plain(SnvParams(s)[i].key) && Plain(SnvParams(s)[i].value)
  {
    IntToStringPlain(s.time);
    assert Plain(DifficultyName(s.difficulty)) && Plain(BoolText(s.random));
  }

  lemma SnvLinkParts(s: SnvStart)
    ensures ParseLink(SnvStartUrl(s)) == Some((SnvPath(s.id), SnvParams(s)))
  {
    SnvPathPlain(s.id);
    SnvParamsPlain(s);
    LinkRoundTrip(SnvPath(s.id), SnvParams(s));
  }

  /** A start link carries its id, difficulty, random flag and time, and nothing is lost on the way. */
  lemma SnvStartUrlRoundTrip(s: SnvStart)
    ensures ParseSnvStartUrl(SnvStartUrl(s)) == Some(s)
  {
    SnvLinkParts(s);
    var path, ps := SnvPath(s.id), SnvParams(s);
    assert path[..5] == "/snv/" && path[5..] == IntToString(s.id);
    ParseIntOfIntToString(s.id);
    ParseIntOfIntToString(s.time);
    DifficultyNameRoundTrip(s.difficulty);
    assert ps[0].key == "difficulty" && ps[1].key == "random" && ps[2].key == "time";
    assert BoolByText(ps[1].value) == Some(s.random);
    assert ParseInt(path[5..]) == Some(s.id);
    assert ParseInt(ps[2].value) == Some(s.time);
    assert DifficultyByName(ps[0].value) == Some(s.difficulty);
  }

  /** `handleScenarioStart(d)`: where the router goes, or nowhere when no truthy id is selected. */
  function StartNavigation(selectedId: Option<int>, d: Difficulty, random: bool, selectedTime: int): (url: Option<string>)
    ensures url.None? <==> !IdTruthy(selectedId)
  {
    if IdTruthy(selectedId) then Some(SnvStartUrl(SnvStart(selectedId.value, d, random, TimeFor(d, selectedTime))))
    else None
  }

  /** A start goes to the selected scenario with the dialog's choices, and hard mode always sends ten seconds. */
  lemma StartNavigationCarries(selectedId: Option<int>, d: Difficulty, random: bool, selectedTime: int)
    requires IdTruthy(selectedId)
    ensures var url := StartNavigation(selectedId, d, random, selectedTime);
      url.Some? && ParseSnvStartUrl(url.value) == Some(SnvStart(selectedId.value, d, random, TimeFor(d, selectedTime)))
    ensures d == Hard ==> StartNavigation(selectedId, d, random, selectedTime)
                          == StartNavigation(selectedId, d, random, 10)
  {
    SnvStartUrlRoundTrip(SnvStart(selectedId.value, d, random, TimeFor(d, selectedTime)));
  }

  /** A medium or easy start before the slider is moved sends 60 seconds, a time the slider cannot select (`DefaultTimeOffSlider`). */
  lemma UnmovedSliderSendsDefault(id: int, d: Difficulty, random: bool)
    requires id != 0 && d != Hard
    ensures var url := StartNavigation(Some(id), d, random, DefaultTime);
      url.Some? && ParseSnvStartUrl(url.value) == Some(SnvStart(id, d, random, DefaultTime))
  {
    StartNavigationCarries(Some(id), d, random, DefaultTime);
  }

  /** How a fetch of one page ended. */
  datatype FetchOutcome =
    | Fetched(member: seq<Scenario>, totalItems: nat)
    | Failed(message: Option<string>)  // `Some` for an `Error`, `None` for anything else thrown

  /** The page's state slots. */
  class Catalogue {
    var mounted: bool
    var scenarios: seq<Scenario>
    var loading: bool
    var error: Option<string>
    var currentPage: int
    var selectedScenarioId: Option<int>
    var isModalOpen: bool
    var isRandomMode: bool
    var selectedTime: int
    var totalPages: int

    /** The page never goes below 1, and the time is the default or a slider value. */
    predicate Valid()
      reads this
    {
      currentPage >= 1 && totalPages >= 0 && (selectedTime == DefaultTime || SliderValue(selectedTime))
    }

    constructor()
      ensures Valid()
      ensures !mounted && scenarios == [] && loading && error == None && currentPage == 1
      ensures selectedScenarioId == None && !isModalOpen && !isRandomMode
      ensures selectedTime == DefaultTime && totalPages == 1
    {
      mounted, scenarios, loading, error := false, [], true, None;
      currentPage, selectedScenarioId, isModalOpen := 1, None, false;
      isRandomMode, selectedTime, totalPages := false, DefaultTime, 1;
    }

    /** Nothing renders before the mount effect has run. */
    predicate RendersNothing()
      reads this
    {
      !mounted
    }

    /** The mount effect; `mounted` turning true starts the fetch of the current page. */
    method Mount()
      modifies this
      ensures mounted && loading == (!old(mounted) || old(loading))
      ensures scenarios == old(scenarios) && error == old(error) && currentPage == old(currentPage)
      ensures selectedScenarioId == old(selectedScenarioId) && isModalOpen == old(isModalOpen)
      ensures isRandomMode == old(isRandomMode) && selectedTime == old(selectedTime) && totalPages == old(totalPages)
    {
      if !mounted {
        mounted := true;
        loading := true;
      }
    }

    /** The end of the fetch: the page's scenarios and page count on success, the error message otherwise. */
    method Loaded(outcome: FetchOutcome)
      requires Valid()
      modifies this
      ensures Valid() && !loading
      ensures outcome.Fetched? ==> scenarios == outcome.member && totalPages == TotalPagesOf(outcome.totalItems) && error == None
      ensures outcome.Failed? ==> scenarios == old(scenarios) && totalPages == old(totalPages)
                                  && error == Some(outcome.message.GetOr(UnknownError))
      ensures mounted == old(mounted) && currentPage == old(currentPage)
      ensures selectedScenarioId == old(selectedScenarioId) && isModalOpen == old(isModalOpen)
      ensures isRandomMode == old(isRandomMode) && selectedTime == old(selectedTime)
    {
      match outcome {
        case Fetched(member, totalItems) =>
          scenarios := member;
          totalPages := TotalPagesOf(totalItems);
          error := None;
        case Failed(message) =>
          error := Some(message.GetOr(UnknownError));
      }
      loading := false;
    }

    /** The list (and the empty-list message when there is nothing) shows when not loading and no truthy error. */
    predicate ShowsList()
      reads this
    {
      mounted && !loading && !ErrorShown(error)
    }

    /** The page buttons show for a non-empty list spread over more than one page. */
    predicate ShowsPagination()
      reads this
    {
      ShowsList() && |scenarios| > 0 && totalPages > 1
    }

    predicate PrevDisabled()
      reads this
    {
      currentPage == 1
    }

    predicate NextDisabled()
      reads this
    {
      currentPage == totalPages
    }

    /** A new page number re-runs the fetch effect; the same number does not. */
    method SetPage(p: int)
      requires Valid() && p >= 1
      modifies this
      ensures Valid() && currentPage == p
      ensures loading == (if p != old(currentPage) && mounted then true else old(loading))
      ensures mounted == old(mounted) && scenarios == old(scenarios) && error == old(error)
      ensures selectedScenarioId == old(selectedScenarioId) && isModalOpen == old(isModalOpen)
      ensures isRandomMode == old(isRandomMode) && selectedTime == old(selectedTime) && totalPages == old(totalPages)
    {
      if p != currentPage {
        currentPage := p;
        if mounted {
          loading := true;
        }
      }
    }

    /** "Page précédente": `max(1, page - 1)`, and no effect while disabled on page 1. */
    method ClickPrev()
      requires Valid()
      modifies this
      ensures Valid()
      ensures currentPage == if old(currentPage) == 1 then 1 else old(currentPage) - 1
      ensures currentPage <= old(currentPage)
      ensures loading == (if currentPage != old(currentPage) && mounted then true else old(loading))
      ensures mounted == old(mounted) && scenarios == old(scenarios) && error == old(error) && totalPages == old(totalPages)
      ensures selectedScenarioId == old(selectedScenarioId) && isModalOpen == old(isModalOpen)
      ensures isRandomMode == old(isRandomMode) && selectedTime == old(selectedTime)
    {
      if !PrevDisabled() {
        SetPage(PrevPage(currentPage));
      }
    }

    /** "Page suivante": one more, and no effect while disabled on the last page, so it never passes `totalPages`. */
    method ClickNext()
      requires Valid()
      modifies this
      ensures Valid()
      ensures currentPage == if old(currentPage) == totalPages then old(currentPage) else old(currentPage) + 1
      ensures old(currentPage) <= totalPages ==> currentPage <= totalPages
      ensures loading == (if currentPage != old(currentPage) && mounted then true else old(loading))
      ensures mounted == old(mounted) && scenarios == old(scenarios) && error == old(error) && totalPages == old(totalPages)
      ensures selectedScenarioId == old(selectedScenarioId) && isModalOpen == old(isModalOpen)
      ensures isRandomMode == old(isRandomMode) && selectedTime == old(selectedTime)
    {
      if !NextDisabled() {
        SetPage(NextPage(currentPage));
      }
    }

    /** "Démarrer le scénario" on a card: select it and open the dialog. */
    method Choose(id: int)
      requires Valid()
      modifies this
      ensures Valid() && selectedScenarioId == Some(id) && isModalOpen
      ensures mounted == old(mounted) && scenarios == old(scenarios) && loading == old(loading) && error == old(error)
      ensures currentPage == old(currentPage) && totalPages == old(totalPages)
      ensures isRandomMode == old(isRandomMode) && selectedTime == old(selectedTime)
    {
      selectedScenarioId := Some(id);
      isModalOpen := true;
    }

    /** The scenario whose title and context the dialog shows. */
    function DialogScenario(): Option<Scenario>
      reads this
    {
      FindScenario(scenarios, selectedScenarioId)
    }

    /** The dialog's own open/close requests. */
    method SetModalOpen(open: bool)
      requires Valid()
      modifies this
      ensures Valid() && isModalOpen == open
      ensures mounted == old(mounted) && scenarios == old(scenarios) && loading == old(loading) && error == old(error)
      ensures currentPage == old(currentPage) && totalPages == old(totalPages) && selectedScenarioId == old(selectedScenarioId)
      ensures isRandomMode == old(isRandomMode) && selectedTime == old(selectedTime)
    {
      isModalOpen := open;
    }

    /** The "Mode Random" switch. */
    method ToggleRandom()
      requires Valid()
      modifies this
      ensures Valid() && isRandomMode == !old(isRandomMode)
      ensures mounted == old(mounted) && scenarios == old(scenarios) && loading == old(loading) && error == old(error)
      ensures currentPage == old(currentPage) && totalPages == old(totalPages) && selectedScenarioId == old(selectedScenarioId)
      ensures isModalOpen == old(isModalOpen) && selectedTime == old(selectedTime)
    {
      isRandomMode := !isRandomMode;
    }

    /** The range input reports one of its values. */
    method MoveSlider(value: int)
      requires Valid() && SliderValue(value)
      modifies this
      ensures Valid() && selectedTime == value
      ensures mounted == old(mounted) && scenarios == old(scenarios) && loading == old(loading) && error == old(error)
      ensures currentPage == old(currentPage) && totalPages == old(totalPages) && selectedScenarioId == old(selectedScenarioId)
      ensures isModalOpen == old(isModalOpen) && isRandomMode == old(isRandomMode)
    {
      selectedTime := value;
    }

    /** One of the three difficulty buttons: navigate and close the dialog, or do nothing without a truthy id. */
    method HandleScenarioStart(d: Difficulty) returns (navigation: Option<string>)
      requires Valid()
      modifies this
      ensures Valid()
      ensures navigation == StartNavigation(selectedScenarioId, d, isRandomMode, selectedTime)
      ensures isModalOpen == (if navigation.Some? then false else old(isModalOpen))
      ensures mounted == old(mounted) && scenarios == old(scenarios) && loading == old(loading) && error == old(error)
      ensures currentPage == old(currentPage) && totalPages == old(totalPages) && selectedScenarioId == old(selectedScenarioId)
      ensures isRandomMode == old(isRandomMode) && selectedTime == old(selectedTime)
    {
      navigation := None;
      if IdTruthy(selectedScenarioId) {
        var time := TimeFor(d, selectedTime);
        navigation := Some(SnvStartUrl(SnvStart(selectedScenarioId.value, d, isRandomMode, time)));
        isModalOpen := false;
      }
    }
  }

  /** Whatever the page state, the time a start sends is ten, the default or a slider value. */
  lemma SentTimeRange(c: Catalogue, d: Difficulty)
    requires c.Valid() && IdTruthy(c.selectedScenarioId)
    ensures var url := StartNavigation(c.selectedScenarioId, d, c.isRandomMode, c.selectedTime);
      url.Some? && var p := ParseSnvStartUrl(url.value);
      p.Some? && (p.value.time == 10 || p.value.time == DefaultTime || SliderValue(p.value.time))
  {
    StartNavigationCarries(c.selectedScenarioId, d, c.isRandomMode, c.selectedTime);
  }
}
