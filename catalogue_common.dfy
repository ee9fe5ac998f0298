/**
 * What the quiz and SNV catalogue pages share: the previous-page clamp, the
 * fetch error slot, the difficulty the start dialogs offer, and the links a
 * start navigates to (a path, then `?` and `key=value` parameters joined by
 * `&`, built with template literals). A parser for such links is the
 * reference the link builders are proved against.
 */
module CatalogueCommon {
  import opened Base
  import opened Text

  /** "Page précédente": `Math.max(1, prev - 1)`. */
  function PrevPage(p: int): (r: int)
    ensures r >= 1
    ensures p > 1 ==> r == p - 1
    ensures p <= 1 ==> r == 1
  {
    if p - 1 < 1 then 1 else p - 1
  }

  /** "Page suivante": `prev + 1`. */
  function NextPage(p: int): int
  {
    p + 1
  }

  /** From any page, next then previous comes back; from a page after the first, previous then next does too. */
  lemma PrevNextPage(p: int)
    requires p >= 1
    ensures PrevPage(NextPage(p)) == p
    ensures p > 1 ==> NextPage(PrevPage(p)) == p
  {
  }

  /** The message of anything thrown that is not an `Error`. */
  const UnknownError: string := "Une erreur est survenue"

  /** JavaScript truthiness of the `string | null` error slot. */
  predicate ErrorShown(error: Option<string>)
  {
    error.Some? && error.value != ""
  }

  /** The three buttons of the start dialogs. */
  datatype Difficulty = Easy | Medium | Hard

  function DifficultyName(d: Difficulty): string
  {
    match d
    case Easy => "easy"
    case Medium => "medium"
    case Hard => "hard"
  }

  function DifficultyByName(name: string): (r: Option<Difficulty>)
    ensures r.Some? ==> DifficultyName(r.value) == name
  {
    if name == "easy" then Some(Easy)
    else if name == "medium" then Some(Medium)
    else if name == "hard" then Some(Hard)
    else None
  }

  lemma DifficultyNameRoundTrip(d: Difficulty)
    ensures DifficultyByName(DifficultyName(d)) == Some(d)
  {
  }

  /** `${b}` for a boolean. */
  function BoolText(b: bool): string
  {
    if b then "true" else "false"
  }

  function BoolByText(t: string): (r: Option<bool>)
    ensures r.Some? ==> BoolText(r.value) == t
  {
    if t == "true" then Some(true) else if t == "false" then Some(false) else None
  }

  /** `if (selectedId)` on a `number | null`: `null` and `0` are false. */
  predicate IdTruthy(id: Option<int>)
  {
    id.Some? && id.value != 0
  }

  datatype Param = Param(key: string, value: string)

  /** Text that can sit in a link part without being mistaken for a separator. */
  predicate Plain(s: string)
  {
    '?' !in s && '&' !in s && '=' !in s
  }

  function ParamText(p: Param): string
  {
    p.key + "=" + p.value
  }

  function JoinParams(ps: seq<Param>): (q: string)
    requires |ps| > 0
    decreases |ps|
  {
    if |ps| == 1 then ParamText(ps[0]) else ParamText(ps[0]) + "&" + JoinParams(ps[1..])
  }

  /** `${path}?${k1}=${v1}&${k2}=${v2}…` */
  function Link(path: string, ps: seq<Param>): (url: string)
    requires |ps| > 0
    ensures path + "?" <= url
  {
    path + "?" + JoinParams(ps)
  }

  function ParseParam(part: string): Option<Param>
  {
    var kv := Split(part, '=');
    if |kv| == 2 then Some(Param(kv[0], kv[1])) else None
  }

  function ParseParams(parts: seq<string>): (r: Option<seq<Param>>)
    ensures r.Some? ==> |r.value| == |parts|
    decreases |parts|
  {
    if parts == [] then Some([])
    else match (ParseParam(parts[0]), ParseParams(parts[1..]))
      case (Some(p), Some(ps)) => Some([p] + ps)
      case _ => None
  }

  /** Reads a link back: exactly one `?`, and every parameter exactly one `=`. */
  function ParseLink(url: string): (r: Option<(string, seq<Param>)>)
  {
    var halves := Split(url, '?');
    if |halves| != 2 then None
    else match ParseParams(Split(halves[1], '&'))
      case Some(ps) => Some((halves[0], ps))
      case None => None
  }

  lemma SplitWithout(s: string, sep: char)
    requires sep !in s
    ensures Split(s, sep) == [s]
  {
  }

  lemma ParamTextRoundTrip(p: Param)
    requires Plain(p.key) && Plain(p.value)
    ensures ParseParam(ParamText(p)) == Some(p)
    ensures '?' !in ParamText(p) && '&' !in ParamText(p)
  {
    SplitCons(p.key, '=', p.value);
    SplitWithout(p.value, '=');
    assert p.key + "=" + p.value == p.key + ['='] + p.value;
    assert forall c :: c in ParamText(p) ==> c in p.key || c == '=' || c in p.value;
  }

  /** A single parameter's text is a whole query. */
  lemma SplitOneParam(p: Param)
    requires Plain(p.key) && Plain(p.value)
    ensures '?' !in ParamText(p)
    ensures ParseParams(Split(ParamText(p), '&')) == Some([p])
  {
    ParamTextRoundTrip(p);
    SplitWithout(ParamText(p), '&');
    var parts := Split(ParamText(p), '&');
    assert parts[1..] == [];
    assert ParseParams(parts[1..]) == Some([]);
    assert [p] == [p] + [];
  }

  /** Putting one plain parameter in front of a query that reads back puts it in front of what is read. */
  lemma SplitParamInFront(p: Param, rest: string, ps: seq<Param>)
    requires Plain(p.key) && Plain(p.value)
    requires '?' !in rest && ParseParams(Split(rest, '&')) == Some(ps)
    ensures '?' !in ParamText(p) + "&" + rest
    ensures ParseParams(Split(ParamText(p) + "&" + rest, '&')) == Some([p] + ps)
  {
    ParamTextRoundTrip(p);
    var head := ParamText(p);
    assert head + "&" + rest == head + ['&'] + rest;
    SplitCons(head, '&', rest);
    var parts := Split(head + ['&'] + rest, '&');
    assert parts[0] == head && parts[1..] == Split(rest, '&');
  }

  /** The query text splits back into the parameters' own texts. */
  lemma {:induction false} SplitJoinParams(ps: seq<Param>)
    requires |ps| > 0
    requires forall i :: 0 <= i < |ps| ==> Plain(ps[i].key) && Plain(ps[i].value)
    ensures '?' !in JoinParams(ps)
    ensures ParseParams(Split(JoinParams(ps), '&')) == Some(ps)
    decreases |ps|
  {
    if |ps| == 1 {
      SplitOneParam(ps[0]);
      assert ps == [ps[0]];
    } else {
      var rest := ps[1..];
      assert forall i :: 0 <= i < |rest| ==> rest[i] == ps[i + 1];
      SplitJoinParams(rest);
      SplitParamInFront(ps[0], JoinParams(rest), rest);
      assert JoinParams(ps) == ParamText(ps[0]) + "&" + JoinParams(rest);
      assert ps == [ps[0]] + rest;
    }
  }

  /** Links built from plain parts read back to those parts. */
  lemma LinkRoundTrip(path: string, ps: seq<Param>)
    requires |ps| > 0 && Plain(path)
    requires forall i :: 0 <= i < |ps| ==> Plain(ps[i].key) && Plain(ps[i].value)
    ensures ParseLink(Link(path, ps)) == Some((path, ps))
  {
    SplitJoinParams(ps);
    var q := JoinParams(ps);
    assert Link(path, ps) == path + ['?'] + q;
    SplitCons(path, '?', q);
    SplitWithout(q, '?');
  }

  /** The decimal text of a number never holds a separator. */
  lemma IntToStringPlain(i: int)
    ensures Plain(IntToString(i))
  {
    var s := IntToString(i);
    if i < 0 {
      assert forall k :: 1 <= k < |s| ==> s[k] == NatToString(-i)[k - 1];
    }
    assert forall k :: 0 <= k < |s| ==> s[k] == '-' || IsDigit(s[k]);
  }
}
