/**
 * Extraction of a video identifier from a pasted link (`extractVideoId` in
 * static/js/script.js).  The URL parser of the browser is not modelled: a
 * parsed URL is given as a value of type `Url`, and a string that the parser
 * rejects (the `URL` constructor throws) is given as `None`.
 */
module VideoId {
  import opened Wrappers

  /** One `name=value` entry of a URL's query, already percent-decoded. */
  datatype QueryPair = QueryPair(name: string, value: string)

  /** The parts of a parsed URL that the extraction looks at. */
  datatype Url = Url(hostname: string, pathname: string, searchParams: seq<QueryPair>)

  /** The host of the short-link form `https://youtu.be/<id>`. */
  const ShortHost: string := "youtu.be"

  /** The query parameter that carries the identifier in a watch link. */
  const IdParam: string := "v"

  /** Some entry of `query` has name `name`. */
  ghost predicate HasParam(query: seq<QueryPair>, name: string) {
    exists i :: 0 <= i < |query| && query[i].name == name
  }

  /** `i` is the position of the first entry of `query` named `name`. */
  ghost predicate FirstMatch(query: seq<QueryPair>, name: string, i: int) {
    0 <= i < |query| && query[i].name == name &&
    forall j :: 0 <= j < i ==> query[j].name != name
  }

  /**
   * `URLSearchParams.get`: the value of the first entry named `name`, or
   * `None` (the script's `null`) when there is none.
   */
  function SearchParamsGet(query: seq<QueryPair>, name: string): (r: Option<string>)
    ensures r.None? <==> !HasParam(query, name)
    ensures r.Some? ==> exists i :: FirstMatch(query, name, i) && query[i].value == r.value
  {
    if query == [] then None
    else if query[0].name == name then Some(query[0].value)
    else
      var rest := SearchParamsGet(query[1..], name);
      assert forall i :: 0 < i < |query| ==> query[i] == query[1..][i - 1];
      assert rest.Some? ==> exists i :: FirstMatch(query[1..], name, i) && query[1..][i].value == rest.value;
      assert rest.Some? ==> exists i :: FirstMatch(query, name, i) && query[i].value == rest.value by {
        if rest.Some? {
          var k :| FirstMatch(query[1..], name, k) && query[1..][k].value == rest.value;
          assert FirstMatch(query, name, k + 1);
        }
      }
      rest
  }

  /**
   * `extractVideoId`: `None` when the link does not parse; for the short-link
   * host, the pathname without its first character (possibly empty); for any
   * other host, the first `v` query value, or `None` when there is none.
   */
  function ExtractVideoId(parsed: Option<Url>): (id: Option<string>)
    ensures parsed.None? ==> id.None?
    ensures parsed.Some? && parsed.value.hostname == ShortHost ==>
              id.Some? &&
              (parsed.value.pathname == [] ==> id.value == []) &&
              (parsed.value.pathname != [] ==> parsed.value.pathname == [parsed.value.pathname[0]] + id.value)
    ensures parsed.Some? && parsed.value.hostname != ShortHost ==>
              (id.None? <==> !HasParam(parsed.value.searchParams, IdParam)) &&
              (id.Some? ==> exists i :: FirstMatch(parsed.value.searchParams, IdParam, i) &&
                                        parsed.value.searchParams[i].value == id.value)
  {
    match parsed
    case None => None
    case Some(u) =>
      if u.hostname == ShortHost then
        Some(if u.pathname == [] then [] else u.pathname[1..])
      else
        SearchParamsGet(u.searchParams, IdParam)
  }

  /**
   * The add handler's `if (id)`: an identifier is accepted only when it is
   * neither `null` nor the empty string.
   */
  predicate Truthy(id: Option<string>): (accepted: bool)
    ensures id.None? ==> !accepted
    ensures id == Some("") ==> !accepted
    ensures id.Some? && |id.value| > 0 ==> accepted
  {
    id.Some? && id.value != ""
  }

  /** A watch link on any host other than the short one yields its first `v` value. */
  lemma WatchLinkYieldsId(host: string, path: string, id: string, rest: seq<QueryPair>)
    requires host != ShortHost
    ensures ExtractVideoId(Some(Url(host, path, [QueryPair(IdParam, id)] + rest))) == Some(id)
  {
  }

  /** A short link `/<id>` yields exactly `<id>`, the empty one included. */
  lemma ShortLinkYieldsId(id: string, query: seq<QueryPair>)
    ensures ExtractVideoId(Some(Url(ShortHost, "/" + id, query))) == Some(id)
  {
  }

  /** A bare short link yields the empty identifier, which the add handler refuses. */
  lemma BareShortLinkRejected(query: seq<QueryPair>)
    ensures ExtractVideoId(Some(Url(ShortHost, "/", query))) == Some("")
    ensures !Truthy(ExtractVideoId(Some(Url(ShortHost, "/", query))))
  {
  }

  /** A link on another host without a `v` entry yields nothing. */
  lemma MissingParamYieldsNothing(host: string, path: string, query: seq<QueryPair>)
    requires host != ShortHost
    requires forall i :: 0 <= i < |query| ==> query[i].name != IdParam
    ensures ExtractVideoId(Some(Url(host, path, query))) == None
  {
  }

  /** When `v` occurs twice the first occurrence wins. */
  lemma FirstOfRepeatedParamWins(host: string, path: string, first: string, second: string)
    requires host != ShortHost
    ensures ExtractVideoId(Some(Url(host, path, [QueryPair(IdParam, first), QueryPair(IdParam, second)]))) == Some(first)
  {
  }
}
