/** One learning card of the list: its reference line opens the textbook at the referenced page. */
module LearningCardView {
  import opened Base
  import opened Text
  import opened PageReference
  import opened LearningFilters

  /** The URL a reference click opens: `${pdfUrl}#page=${page}`; nothing happens without a (truthy) PDF URL. */
  function ReferenceClick(reference: string, pdfUrl: Option<string>): (url: Option<string>)
    ensures url.None? <==> !Truthy(pdfUrl)
    ensures url.Some? ==> pdfUrl.Some? && pdfUrl.value <= url.value
  {
    if !Truthy(pdfUrl) then None
    else Some(pdfUrl.value + "#page=" + NatToString(PageNumber(reference)))
  }

  /** The fragment of the opened URL reads back as the reference's page number. */
  lemma ReferenceClickFragment(reference: string, pdfUrl: string)
    requires pdfUrl != ""
    ensures var url := ReferenceClick(reference, Some(pdfUrl)).value;
      var fragment := url[|pdfUrl| + |"#page="|..];
      ParseInt(fragment) == Some(PageNumber(reference) as int)
  {
    var page := PageNumber(reference);
    var url := ReferenceClick(reference, Some(pdfUrl)).value;
    assert url[|pdfUrl| + |"#page="|..] == NatToString(page);
    ParseIntOfIntToString(page);
  }

  /** A card referencing "… Page n …" (first such mention) opens the PDF at page n. */
  lemma ReferenceClickOpensPage(before: string, n: nat, after: string, pdfUrl: string)
    requires NoMatch(before)
    requires after == [] || !IsDigit(after[0])
    requires pdfUrl != ""
    ensures ReferenceClick(before + Marker + NatToString(n) + after, Some(pdfUrl))
         == Some(pdfUrl + "#page=" + NatToString(n))
  {
    PageNumberOf(before, n, after);
  }

  /** The reference line is rendered only for a non-empty reference. */
  predicate ShowsReference(reference: string)
  {
    reference != ""
  }
}
