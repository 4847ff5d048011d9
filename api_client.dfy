/**
 * The REST client's pure parts: normalising an API path to end its path
 * part with '/', unwrapping list payloads, and deciding whether a request
 * carries a CSRF token. The network calls themselves are not modelled; the
 * token `ensureCsrfToken` would fetch is a parameter.
 */
module ApiClient {
  import opened Wrappers
  import opened Text

  /** The path part of `path`: everything before the first '?'. */
  function PathPart(path: string): (base: string)
    ensures '?' !in base
  {
    Split(path, '?')[0]
  }

  /**
   * The query part as `path.split('?')[1]` gives it: the text between the
   * first and the second '?', or None when there is no '?'.
   */
  function QueryPart(path: string): (query: Option<string>)
    ensures query.Some? ==> '?' !in query.value
  {
    var parts := Split(path, '?');
    if |parts| > 1 then Some(parts[1]) else None
  }

  /** `base` with a '/' appended unless it already ends in one. */
  function WithSlash(base: string): (r: string)
    ensures EndsWith(r, '/')
  {
    if EndsWith(base, '/') then base else base + "/"
  }

  /** `ensureTrailingSlash`: the path part gets a trailing '/', a non-empty query is put back after it. */
  function EnsureTrailingSlash(path: string): string {
    var normalised := WithSlash(PathPart(path));
    match QueryPart(path)
    case Some(query) => if query != "" then normalised + "?" + query else normalised
    case None => normalised
  }

  /** Splitting at the first separator: the text before it, then the split of the rest. */
  lemma SplitAtFirst(a: string, b: string, sep: char)
    requires sep !in a
    ensures Split(a + [sep] + b, sep) == [a] + Split(b, sep)
  {
    var s := a + [sep] + b;
    assert s[|a|] == sep && s[..|a|] == a;
    assert IndexOf(s, sep) == Some(|a|);
    assert s[|a| + 1..] == b;
  }

  /** A string without the separator splits into itself. */
  lemma SplitWithout(a: string, sep: char)
    requires sep !in a
    ensures Split(a, sep) == [a]
  {
  }

  /** A path without '?' only gets its trailing '/' ensured. */
  lemma NoQueryShape(path: string)
    requires '?' !in path
    ensures EnsureTrailingSlash(path) == WithSlash(path)
  {
    SplitWithout(path, '?');
  }

  /**
   * With two or more '?', the result is the path part before the first,
   * with a trailing '/', then '?' and the text up to the second '?' when
   * that text is non-empty; everything after the second '?' is dropped.
   */
  lemma {:induction false} SecondQueryDropped(base: string, query: string, rest: string)
    requires '?' !in base && '?' !in query
    ensures EnsureTrailingSlash(base + "?" + query + "?" + rest)
         == WithSlash(base) + (if query == "" then "" else "?" + query)
  {
    var tail := query + ['?'] + rest;
    var path := base + ['?'] + tail;
    assert base + "?" + query + "?" + rest == path;
    SplitAtFirst(query, rest, '?');
    SplitAtFirst(base, tail, '?');
    var parts := Split(path, '?');
    assert parts == [base] + ([query] + Split(rest, '?'));
    assert parts[0] == base && parts[1] == query;
    assert PathPart(path) == base;
    assert QueryPart(path) == Some(query);
  }

  /** A '?' with no query after it is dropped: `a?` normalises like `a`. */
  lemma TrailingQuestionMarkDropped(base: string)
    requires '?' !in base
    ensures EnsureTrailingSlash(base + "?") == WithSlash(base)
  {
    assert base + "?" == base + ['?'] + "";
    SplitAtFirst(base, "", '?');
  }

  /** A path with one non-empty query keeps it after the slash: `a?q` becomes `a/?q`. */
  lemma QueryReattached(base: string, query: string)
    requires '?' !in base && '?' !in query && query != ""
    ensures EnsureTrailingSlash(base + "?" + query) == WithSlash(base) + "?" + query
  {
    assert base + "?" + query == base + ['?'] + query;
    SplitAtFirst(base, query, '?');
    SplitWithout(query, '?');
  }

  /** Normalising twice is normalising once. */
  lemma EnsureTrailingSlashIdempotent(path: string)
    ensures EnsureTrailingSlash(EnsureTrailingSlash(path)) == EnsureTrailingSlash(path)
  {
    var normalised := WithSlash(PathPart(path));
    assert '?' !in normalised;
    var r := EnsureTrailingSlash(path);
    match QueryPart(path)
    case Some(query) =>
      if query != "" {
        QueryReattached(normalised, query);
        assert WithSlash(normalised) == normalised;
      } else {
        SplitWithout(normalised, '?');
      }
    case None =>
      SplitWithout(normalised, '?');
  }

  /** The two shapes a list endpoint may answer with. */
  datatype Payload<T> = PlainArray(items: seq<T>) | Paginated(results: seq<T>)

  /** `unwrapResults`: a plain array as it is, a paginated page's `results`. */
  function UnwrapResults<T>(payload: Payload<T>): (r: seq<T>)
    ensures payload.PlainArray? ==> r == payload.items
    ensures payload.Paginated? ==> r == payload.results
  {
    match payload
    case PlainArray(items) => items
    case Paginated(results) => results
  }

  /** Both wire shapes of the same list unwrap to that list. */
  lemma UnwrapResultsShapeBlind<T>(xs: seq<T>)
    ensures UnwrapResults(PlainArray(xs)) == xs && UnwrapResults(Paginated(xs)) == xs
  {
  }

  /** A request header: name and value. */
  type Header = (string, string)

  /** Methods that never carry a CSRF token (`csrfSafeMethods`). */
  const CsrfSafeMethods: set<string> := {"GET", "HEAD", "OPTIONS", "TRACE"}

  /** The header the Django back end reads the token from. */
  const CsrfHeaderName := "X-CSRFToken"

  /** `(init?.method ?? 'GET').toUpperCase()`: an empty method stays empty. */
  function RequestMethod(verb: Option<string>): string {
    ToUpper(verb.GetOr("GET"))
  }

  /** `headers.has(name)`: header names compare without regard to ASCII case. */
  predicate HasHeader(headers: seq<Header>, name: string) {
    exists k :: 0 <= k < |headers| && ToLower(headers[k].0) == ToLower(name)
  }

  /** A token is fetched and attached only for an unsafe method with no caller-supplied token. */
  predicate NeedsCsrfToken(verb: Option<string>, supplied: seq<Header>) {
    RequestMethod(verb) !in CsrfSafeMethods && !HasHeader(supplied, CsrfHeaderName)
  }

  /** The header list as a `Headers` object keeps it: names lower-cased. */
  function Lowered(headers: seq<Header>): (r: seq<Header>)
    ensures |r| == |headers|
    ensures forall k :: 0 <= k < |headers| ==> r[k] == (ToLower(headers[k].0), headers[k].1)
  {
    if |headers| == 0 then [] else [(ToLower(headers[0].0), headers[0].1)] + Lowered(headers[1..])
  }

  /** The headers `fetchJson` sends, given the token `ensureCsrfToken` would return. */
  function RequestHeaders(verb: Option<string>, supplied: seq<Header>, token: string): seq<Header> {
    if NeedsCsrfToken(verb, supplied) && token != "" then
      Lowered(supplied) + [(ToLower(CsrfHeaderName), token)]
    else
      Lowered(supplied)
  }

  /** Lower-casing the names does not change which headers are present. */
  lemma LoweredHasSameHeaders(headers: seq<Header>, name: string)
    ensures HasHeader(Lowered(headers), name) <==> HasHeader(headers, name)
  {
    forall k | 0 <= k < |headers|
      ensures ToLower(Lowered(headers)[k].0) == ToLower(headers[k].0)
    {
      ToLowerIdempotent(headers[k].0);
    }
  }

  /**
   * After `fetchJson` the request carries a CSRF header exactly when the
   * caller supplied one, or the method is unsafe and the fetched token is
   * non-empty.
   */
  lemma CsrfHeaderPresentIff(verb: Option<string>, supplied: seq<Header>, token: string)
    ensures HasHeader(RequestHeaders(verb, supplied, token), CsrfHeaderName)
        <==> HasHeader(supplied, CsrfHeaderName)
             || (RequestMethod(verb) !in CsrfSafeMethods && token != "")
  {
    LoweredHasSameHeaders(supplied, CsrfHeaderName);
    var r := RequestHeaders(verb, supplied, token);
    if NeedsCsrfToken(verb, supplied) && token != "" {
      ToLowerIdempotent(CsrfHeaderName);
      assert ToLower(r[|r| - 1].0) == ToLower(CsrfHeaderName);
    }
  }

  /** A caller-supplied token header is sent as the caller gave it, and no token is fetched. */
  lemma SuppliedTokenNeverOverwritten(verb: Option<string>, supplied: seq<Header>, token: string)
    requires HasHeader(supplied, CsrfHeaderName)
    ensures !NeedsCsrfToken(verb, supplied)
    ensures RequestHeaders(verb, supplied, token) == Lowered(supplied)
  {
  }

  /** Safe methods, in any ASCII case, and the default GET never fetch a token. */
  lemma SafeMethodsNeverFetch(verb: string, supplied: seq<Header>)
    requires ToUpper(verb) in CsrfSafeMethods
    ensures !NeedsCsrfToken(Some(verb), supplied)
    ensures !NeedsCsrfToken(None, supplied)
  {
    assert ToUpper("GET") == "GET";
  }

  /** The method's case does not matter: `post` and `POST` decide alike. */
  lemma MethodCaseIgnored(verb: string, supplied: seq<Header>)
    ensures NeedsCsrfToken(Some(verb), supplied) == NeedsCsrfToken(Some(ToUpper(verb)), supplied)
  {
    ToUpperIdempotent(verb);
  }

  /** An explicitly empty method is not defaulted to GET, so it asks for a token. */
  lemma EmptyMethodNeedsToken()
    ensures NeedsCsrfToken(Some(""), [])
    ensures !NeedsCsrfToken(Some("get"), [])
    ensures NeedsCsrfToken(Some("delete"), [])
  {
    assert ToUpper("get") == "GET";
    assert ToUpper("delete") == "DELETE";
  }

  /** A `Headers` object: a header list with lower-cased names, updated in place by `set`. */
  class Headers {
    var entries: seq<Header>

    /** `new Headers(init)`. */
    constructor (init: seq<Header>)
      ensures entries == Lowered(init)
    {
      entries := Lowered(init);
    }

    /** `headers.has(name)`. */
    predicate Has(name: string)
      reads this
    {
      HasHeader(entries, name)
    }

    /**
     * `headers.set(name, value)`: afterwards `name` has exactly this value.
     * Iteration order of a `Headers` object is by name, so where the entry
     * sits in the list is immaterial.
     */
    method Set(name: string, value: string)
      modifies this
      ensures entries == WithoutHeader(old(entries), name) + [(ToLower(name), value)]
    {
      entries := WithoutHeader(entries, name) + [(ToLower(name), value)];
    }
  }

  /** `headers` with every entry named `name` (in any case) removed. */
  function WithoutHeader(headers: seq<Header>, name: string): (r: seq<Header>)
    ensures !HasHeader(r, name)
    ensures forall h :: h in r <==> h in headers && ToLower(h.0) != ToLower(name)
  {
    if |headers| == 0 then []
    else if ToLower(headers[0].0) == ToLower(name) then WithoutHeader(headers[1..], name)
    else [headers[0]] + WithoutHeader(headers[1..], name)
  }

  /** Setting a header in a list that lacks it appends it and keeps the rest. */
  lemma WithoutAbsentHeader(headers: seq<Header>, name: string)
    requires !HasHeader(headers, name)
    ensures WithoutHeader(headers, name) == headers
  {
    if |headers| > 0 {
      WithoutAbsentHeader(headers[1..], name);
    }
  }

  /**
   * The header-building part of `fetchJson`: build the `Headers` from the
   * caller's, and when the method is unsafe and no token was supplied, fetch
   * one (`fetchedToken` stands for the result) and set it if non-empty.
   */
  method PrepareHeaders(verb: Option<string>, supplied: seq<Header>, fetchedToken: string)
    returns (headers: Headers, requestedToken: bool)
    ensures fresh(headers)
    ensures requestedToken == NeedsCsrfToken(verb, supplied)
    ensures headers.entries == RequestHeaders(verb, supplied, fetchedToken)
  {
    var requestMethod := ToUpper(verb.GetOr("GET"));
    headers := new Headers(supplied);
    LoweredHasSameHeaders(supplied, CsrfHeaderName);
    requestedToken := false;
    if requestMethod !in CsrfSafeMethods && !headers.Has(CsrfHeaderName) {
      requestedToken := true;
      if fetchedToken != "" {
        WithoutAbsentHeader(headers.entries, CsrfHeaderName);
        headers.Set(CsrfHeaderName, fetchedToken);
      }
    }
  }
}
