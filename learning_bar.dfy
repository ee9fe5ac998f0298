/**
 * The learning bar: a carousel of cards at the bottom of the screen that
 * advances by itself every ten seconds, can be stepped either way and closed.
 */
module LearningBar {
  import opened Base
  import opened Text
  import opened PageReference
  import opened LearningPage

  /** The next index, wrapping to 0 after the last card. */
  function Next(i: nat, n: nat): (r: nat)
    requires n > 0
    ensures r < n
    ensures i + 1 < n ==> r == i + 1
    ensures i + 1 == n ==> r == 0
  {
    (i + 1) % n
  }

  /** The previous index, wrapping to the last card before 0. */
  function Prev(i: nat, n: nat): (r: nat)
    requires n > 0 && i < n
    ensures r < n
    ensures i > 0 ==> r == i - 1
    ensures i == 0 ==> r == n - 1
  {
    (i - 1 + n) % n
  }

  /** Stepping back then forward, or forward then back, returns to the same card. */
  lemma PrevNextInverse(i: nat, n: nat)
    requires 0 <= i < n
    ensures Next(Prev(i, n), n) == i
    ensures Prev(Next(i, n), n) == i
  {
  }

  /** Applying `Next` `k` times from `i`. */
  function NextTimes(i: nat, n: nat, k: nat): (r: nat)
    requires n > 0 && i < n
    ensures r < n
  {
    if k == 0 then i else Next(NextTimes(i, n, k - 1), n)
  }

  /** `k` steps forward land on `(i + k) mod n`; in particular `n` steps visit every card and come back. */
  lemma {:induction false} NextTimesIsModular(i: nat, n: nat, k: nat)
    requires 0 <= i < n
    ensures NextTimes(i, n, k) == (i + k) % n
  {
    if k > 0 {
      NextTimesIsModular(i, n, k - 1);
      var a := i + k - 1;
      assert NextTimes(i, n, k) == Next(a % n, n) == (a % n + 1) % n;
      ModSucc(a, n);
    }
  }

  lemma ModSucc(a: nat, n: nat)
    requires n > 0
    ensures (a % n + 1) % n == (a + 1) % n
  {
    var q, r := a / n, a % n;
    assert a == q * n + r;
    if r + 1 == n {
      assert (q + 1) * n == q * n + n;
      ModUnique(a + 1, n, q + 1, 0);
      ModUnique(n, n, 1, 0);
    } else {
      ModUnique(a + 1, n, q, r + 1);
      ModUnique(r + 1, n, 0, r + 1);
    }
  }

  /** The remainder is the unique `r` in `[0, n)` with `a = q·n + r`. */
  lemma ModUnique(a: nat, n: nat, q: int, r: int)
    requires n > 0 && 0 <= r < n && a == q * n + r
    ensures a % n == r
  {
    var q', r' := a / n, a % n;
    if q' < q {
      MulMonotone(q' + 1, q, n);
    } else if q' > q {
      MulMonotone(q + 1, q', n);
    }
  }

  /** What the fetch produced: an array, something else, or a failure. */
  datatype FetchResult = FetchedArray(cards: seq<Card>) | FetchedOther | FetchFailed

  const InvalidFormat: string := "Format de données invalide"
  const LoadFailed: string := "Impossible de charger les cartes d&apos;apprentissage"

  /** The URL a reference click opens: always the textbook PDF, at the referenced page. */
  function ReferenceUrl(reference: string): string
  {
    "/referenciels/PSE1_PSE2.pdf#page=" + NatToString(PageNumber(reference))
  }

  /** A reference without "Page <digit>" opens the textbook at page 1. */
  lemma ReferenceUrlDefault(reference: string)
    requires NoMatch(reference)
    ensures ReferenceUrl(reference) == "/referenciels/PSE1_PSE2.pdf#page=1"
  {
    PageNumberDefault(reference);
  }

  class Bar {
    var cards: seq<Card>
    var currentIndex: nat
    var isVisible: bool
    var isLoading: bool
    var error: Option<string>

    /** The index points at a card whenever there are cards, and is 0 otherwise. */
    ghost predicate Valid()
      reads this
    {
      (|cards| > 0 ==> currentIndex < |cards|) && (|cards| == 0 ==> currentIndex == 0)
    }

    /** Mounting: no cards, index 0, visible, loading, no error. */
    constructor ()
      ensures Valid()
      ensures cards == [] && currentIndex == 0 && isVisible && isLoading && error == None
    {
      cards := [];
      currentIndex := 0;
      isVisible := true;
      isLoading := true;
      error := None;
    }

    /** The end of the fetch: an array becomes the cards, anything else an error message; loading ends. */
    method Loaded(result: FetchResult)
      requires Valid() && cards == [] && currentIndex == 0
      modifies this
      ensures Valid() && !isLoading && currentIndex == 0 && isVisible == old(isVisible)
      ensures result.FetchedArray? ==> cards == result.cards && error == None
      ensures result.FetchedOther? ==> cards == [] && error == Some(InvalidFormat)
      ensures result.FetchFailed? ==> cards == [] && error == Some(LoadFailed)
    {
      error := None;
      match result {
        case FetchedArray(fetched) =>
          cards := fetched;
        case FetchedOther =>
          error := Some(InvalidFormat);
        case FetchFailed =>
          error := Some(LoadFailed);
      }
      isLoading := false;
    }

    /** The auto-advance interval is installed only when there are cards. */
    predicate TimerInstalled()
      reads this
    {
      |cards| > 0
    }

    /** One tick of the ten-second interval: the next card. */
    method Tick()
      requires Valid() && TimerInstalled()
      modifies this
      ensures cards == old(cards) && isVisible == old(isVisible) && isLoading == old(isLoading) && error == old(error)
      ensures Valid() && currentIndex == Next(old(currentIndex), |cards|)
    {
      currentIndex := Next(currentIndex, |cards|);
    }

    /** The right arrow. */
    method StepNext()
      requires Valid() && |cards| > 0
      modifies this
      ensures cards == old(cards) && isVisible == old(isVisible) && isLoading == old(isLoading) && error == old(error)
      ensures Valid() && currentIndex == Next(old(currentIndex), |cards|)
    {
      currentIndex := Next(currentIndex, |cards|);
    }

    /** The left arrow. */
    method StepPrev()
      requires Valid() && |cards| > 0
      modifies this
      ensures cards == old(cards) && isVisible == old(isVisible) && isLoading == old(isLoading) && error == old(error)
      ensures Valid() && currentIndex == Prev(old(currentIndex), |cards|)
    {
      currentIndex := Prev(currentIndex, |cards|);
    }

    /** The close button; nothing shows the bar again. */
    method Close()
      modifies this
      ensures !isVisible
      ensures cards == old(cards) && currentIndex == old(currentIndex) && isLoading == old(isLoading) && error == old(error)
    {
      isVisible := false;
    }

    /** The card on display, or nothing when hidden, loading, failed or empty. */
    function Displayed(): (shown: Option<Card>)
      reads this
      requires Valid()
      ensures shown.Some? <==> isVisible && !isLoading && error.None? && |cards| > 0
      ensures shown.Some? ==> shown.value == cards[currentIndex]
    {
      if !isVisible || isLoading || error.Some? || |cards| == 0 then None
      else Some(cards[currentIndex])
    }
  }
}
