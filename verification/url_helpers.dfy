/** The request-URL builder of packages/client/src/urlHelpers.ts.
    A URL is reduced to its `pathname` and `search` strings, each as the WHATWG getter
    returns it: `search` is "" or "?" followed by a non-empty query. Writing `search`
    drops one leading "?" and clears the query when nothing is left. */
module UrlHelpers {
  import opened Wrappers
  import opened Strings

  datatype Url = Url(pathname: string, search: string)

  /** What the `search` getter can return. */
  predicate SearchForm(s: string) {
    s == [] || (|s| >= 2 && s[0] == '?')
  }

  /** The `search` setter. */
  function SetSearch(u: Url, value: string): (r: Url)
    ensures r.pathname == u.pathname
    ensures SearchForm(r.search)
  {
    var query := if value != [] && value[0] == '?' then value[1..] else value;
    if query == [] then u.(search := []) else u.(search := "?" + query)
  }

  /** Reading `search` and writing it back changes nothing. */
  lemma SetSearchOwnValue(u: Url)
    requires SearchForm(u.search)
    ensures SetSearch(u, u.search) == u
  {
    if u.search != [] {
      assert "?" + u.search[1..] == u.search;
    }
  }

  /** Writing a query with or without its "?" has the same effect, and a non-empty
      query reads back with a "?" in front. */
  lemma SetSearchThenGet(u: Url, query: string)
    requires query != [] && query[0] != '?'
    ensures SetSearch(u, query).search == "?" + query
    ensures SetSearch(u, "?" + query) == SetSearch(u, query)
  {
    assert ("?" + query)[1..] == query;
  }

  // ---------------------------------------------------------------------------
  // appendPath

  /** The pathname with a trailing "/" guaranteed. */
  function WithTrailingSlash(pathname: string): (r: string)
    ensures EndsWith(r, "/")
    ensures StartsWith(r, pathname) && |r| <= |pathname| + 1
    ensures EndsWith(pathname, "/") ==> r == pathname
  {
    if EndsWith(pathname, "/") then pathname else pathname + "/"
  }

  /** The appended path with at most one leading "/" removed. */
  function WithoutLeadingSlash(p: string): (r: string)
    ensures |p| - 1 <= |r| <= |p| && EndsWith(p, r)
    ensures StartsWith(p, "/") ==> "/" + r == p
    ensures !StartsWith(p, "/") ==> r == p
  {
    if StartsWith(p, "/") then
      assert p == p[..1] + p[1..];
      p[1..]
    else p
  }

  /** `appendPath(url, pathToAppend)`: the text before the first "?" joins the pathname
      after a "/"; a non-empty remainder is added to the query, after "&" if there is one. */
  function AppendPath(url: Url, pathToAppend: string): (r: Url)
    requires SearchForm(url.search)
    ensures SearchForm(r.search)
    ensures StartsWith(r.pathname, WithTrailingSlash(url.pathname))
    ensures '?' !in r.pathname[|WithTrailingSlash(url.pathname)|..]
    ensures '?' !in pathToAppend ==> r == url.(pathname := WithTrailingSlash(url.pathname) + WithoutLeadingSlash(pathToAppend))
  {
    var newPath := WithTrailingSlash(url.pathname);
    var p := WithoutLeadingSlash(pathToAppend);
    match IndexOf(p, '?')
    case Some(k) =>
      var path := p[..k];
      var search := p[k + 1..];
      var u := if search != [] then SetSearch(url, if url.search != [] then url.search + "&" + search else search) else url;
      assert (newPath + path)[|newPath|..] == path;
      u.(pathname := newPath + path)
    case None =>
      assert (newPath + p)[|newPath|..] == p;
      assert '?' !in pathToAppend ==> p == WithoutLeadingSlash(pathToAppend);
      url.(pathname := newPath + p)
  }

  /** The path text of `pathToAppend` before its first "?", and the query text after it. */
  function PathPart(pathToAppend: string): string {
    var p := WithoutLeadingSlash(pathToAppend);
    match IndexOf(p, '?')
    case Some(k) => p[..k]
    case None => p
  }

  function QueryPart(pathToAppend: string): string {
    var p := WithoutLeadingSlash(pathToAppend);
    match IndexOf(p, '?')
    case Some(k) => p[k + 1..]
    case None => []
  }

  /** The path split back into its pieces: the path part followed, when there is one, by
      "?" and the query part gives the appended text again. */
  lemma {:induction false} PathPartsRecompose(pathToAppend: string)
    ensures '?' !in PathPart(pathToAppend)
    ensures '?' in WithoutLeadingSlash(pathToAppend) ==>
      PathPart(pathToAppend) + "?" + QueryPart(pathToAppend) == WithoutLeadingSlash(pathToAppend)
    ensures '?' !in WithoutLeadingSlash(pathToAppend) ==>
      PathPart(pathToAppend) == WithoutLeadingSlash(pathToAppend) && QueryPart(pathToAppend) == []
  {
    var p := WithoutLeadingSlash(pathToAppend);
    match IndexOf(p, '?')
    case Some(k) =>
      SliceAround(p, k);
      assert [p[k]] == "?";
    case None =>
  }

  /** `appendPath` in terms of the two parts of the appended text. */
  lemma AppendPathParts(url: Url, pathToAppend: string)
    requires SearchForm(url.search)
    ensures var q := QueryPart(pathToAppend);
      AppendPath(url, pathToAppend) ==
        (if q != [] then SetSearch(url, if url.search != [] then url.search + "&" + q else q) else url)
          .(pathname := WithTrailingSlash(url.pathname) + PathPart(pathToAppend))
  {
  }

  /** The full effect of `appendPath` on both components. */
  lemma AppendPathEffect(url: Url, pathToAppend: string)
    requires SearchForm(url.search)
    ensures AppendPath(url, pathToAppend).pathname == WithTrailingSlash(url.pathname) + PathPart(pathToAppend)
    ensures QueryPart(pathToAppend) == [] ==> AppendPath(url, pathToAppend).search == url.search
    ensures QueryPart(pathToAppend) != [] && url.search == [] && QueryPart(pathToAppend)[0] != '?' ==>
      AppendPath(url, pathToAppend).search == "?" + QueryPart(pathToAppend)
    ensures QueryPart(pathToAppend) != [] && url.search == [] && QueryPart(pathToAppend)[0] == '?' ==>
      AppendPath(url, pathToAppend).search == (if |QueryPart(pathToAppend)| == 1 then [] else QueryPart(pathToAppend))
    ensures QueryPart(pathToAppend) != [] && url.search != [] ==>
      AppendPath(url, pathToAppend).search == url.search + "&" + QueryPart(pathToAppend)
  {
    AppendPathParts(url, pathToAppend);
    var q := QueryPart(pathToAppend);
    if q != [] {
      if url.search == [] {
        SetSearchQuery(url, q);
      } else {
        SetSearchJoined(url, q);
      }
    }
  }

  /** Writing a query into an empty `search`. */
  lemma SetSearchQuery(u: Url, q: string)
    requires q != []
    ensures q[0] != '?' ==> SetSearch(u, q).search == "?" + q
    ensures q[0] == '?' ==> SetSearch(u, q).search == (if |q| == 1 then [] else q)
  {
    if q[0] != '?' {
      SetSearchThenGet(u, q);
    } else if |q| > 1 {
      assert "?" + q[1..] == q;
    }
  }

  /** Writing the old query, "&" and more query text back into `search`. */
  lemma SetSearchJoined(u: Url, q: string)
    requires SearchForm(u.search) && u.search != []
    ensures SetSearch(u, u.search + "&" + q).search == u.search + "&" + q
  {
    var joined := u.search + "&" + q;
    assert joined[0] == '?';
    assert "?" + joined[1..] == joined;
  }

  /** One leading "/" of the appended path makes no difference. */
  lemma AppendPathLeadingSlash(url: Url, p: string)
    requires SearchForm(url.search) && !StartsWith(p, "/")
    ensures AppendPath(url, "/" + p) == AppendPath(url, p)
  {
    assert WithoutLeadingSlash("/" + p) == p by {
      assert ("/" + p)[1..] == p;
    }
  }

  /** A plain segment, without "?" or a leading "/", is appended as it is. */
  lemma AppendPlain(url: Url, p: string)
    requires SearchForm(url.search) && '?' !in p && !StartsWith(p, "/")
    ensures AppendPath(url, p) == url.(pathname := WithTrailingSlash(url.pathname) + p)
  {
  }

  lemma JoinedPlain(a: string, b: string)
    requires '?' !in a && '?' !in b && a != [] && a[0] != '/'
    ensures '?' !in a + "/" + b && !StartsWith(a + "/" + b, "/")
  {
    assert (a + "/" + b)[0] == a[0];
  }

  /** A pathname ending in a segment that does not end in "/" gains one. */
  lemma SlashAfter(base: string, a: string)
    requires a != [] && a[|a| - 1] != '/'
    ensures WithTrailingSlash(base + a) == base + a + "/"
  {
    assert (base + a)[|base + a| - 1] == a[|a| - 1];
  }

  /** Appending two plain segments one after the other is appending them joined by "/". */
  lemma AppendPathTwice(url: Url, a: string, b: string)
    requires SearchForm(url.search)
    requires '?' !in a && '?' !in b
    requires a != [] && a[0] != '/' && a[|a| - 1] != '/' && !StartsWith(b, "/")
    ensures AppendPath(AppendPath(url, a), b) == AppendPath(url, a + "/" + b)
  {
    var base := WithTrailingSlash(url.pathname);
    JoinedPlain(a, b);
    AppendPlain(url, a);
    AppendPlain(url, a + "/" + b);
    var mid := url.(pathname := base + a);
    AppendPlain(mid, b);
    SlashAfter(base, a);
    SlashJoin(base, a, b);
  }

  lemma SlashJoin(base: string, a: string, b: string)
    ensures base + a + "/" + b == base + (a + "/" + b)
  {
  }

  // ---------------------------------------------------------------------------
  // appendQueryParams

  /** A value of the query mapping: a string, an array of strings, or `undefined`. */
  datatype QueryValue = Str(s: string) | Strs(items: seq<string>) | Undefined

  /** The mapping as `Object.entries` lists it. */
  type QueryParams = seq<(string, QueryValue)>

  /** The name/value pairs the mapping stands for: `undefined` drops out and an array
      contributes one pair per element, in order. */
  function Pairs(params: QueryParams): seq<(string, string)> {
    if params == [] then []
    else
      var (name, value) := params[0];
      (match value
       case Str(s) => [(name, s)]
       case Strs(items) => seq(|items|, i requires 0 <= i < |items| => (name, items[i]))
       case Undefined => []) + Pairs(params[1..])
  }

  lemma {:induction false} PairsAppend(a: QueryParams, b: QueryParams)
    ensures Pairs(a + b) == Pairs(a) + Pairs(b)
  {
    if a != [] {
      assert (a + b)[0] == a[0];
      assert (a + b)[1..] == a[1..] + b;
      PairsAppend(a[1..], b);
    } else {
      assert a + b == b;
    }
  }

  /** Per-entry counts: a string adds one pair, `undefined` none, an array one per element. */
  lemma PairsOfEntry(name: string, value: QueryValue)
    ensures value.Str? ==> Pairs([(name, value)]) == [(name, value.s)]
    ensures value.Undefined? ==> Pairs([(name, value)]) == []
    ensures value.Strs? ==>
      |Pairs([(name, value)])| == |value.items| &&
      forall i :: 0 <= i < |value.items| ==> Pairs([(name, value)])[i] == (name, value.items[i])
  {
    assert [(name, value)][1..] == [];
  }

  /** A piece is the raw `name=value` text, without any percent-encoding. */
  function Piece(pair: (string, string)): string {
    pair.0 + "=" + pair.1
  }

  /** The pieces of a list of pairs, one per pair. */
  function PiecesOf(pairs: seq<(string, string)>): (r: seq<string>)
    ensures |r| == |pairs|
  {
    seq(|pairs|, i requires 0 <= i < |pairs| => Piece(pairs[i]))
  }

  lemma PiecesOfAppend(x: seq<(string, string)>, y: seq<(string, string)>)
    ensures PiecesOf(x + y) == PiecesOf(x) + PiecesOf(y)
  {
  }

  /** The pieces one entry contributes: the inner loop over an array value, or a single
      piece, or none for `undefined`. */
  method EntryPieces(name: string, value: QueryValue) returns (ps: seq<string>)
    ensures ps == PiecesOf(Pairs([(name, value)]))
  {
    PairsOfEntry(name, value);
    match value {
      case Strs(items) =>
        ps := [];
        var j := 0;
        while j < |items|
          invariant 0 <= j <= |items|
          invariant |ps| == j
          invariant forall i :: 0 <= i < j ==> ps[i] == name + "=" + items[i]
        {
          ps := ps + [name + "=" + items[j]];
          j := j + 1;
        }
      case Str(s) =>
        ps := [name + "=" + s];
      case Undefined =>
        ps := [];
    }
  }

  /** The loop of `appendQueryParams` building its list of pieces. */
  method SearchPieces(params: QueryParams) returns (pieces: seq<string>)
    ensures pieces == PiecesOf(Pairs(params))
  {
    pieces := [];
    var k := 0;
    while k < |params|
      invariant 0 <= k <= |params|
      invariant pieces == PiecesOf(Pairs(params[..k]))
    {
      var (name, value) := params[k];
      var ps := EntryPieces(name, value);
      assert params[..k + 1] == params[..k] + [(name, value)];
      PairsAppend(params[..k], [(name, value)]);
      PiecesOfAppend(Pairs(params[..k]), Pairs([(name, value)]));
      pieces := pieces + ps;
      k := k + 1;
    }
    assert params[..|params|] == params;
  }

  /** The search text for a list of pieces. */
  function SearchText(pieces: seq<string>): string {
    if |pieces| > 0 then "?" + Join(pieces, "&") else ""
  }

  /** `appendQueryParams(url, queryParams)`: the search is replaced by the pieces joined
      with "&", or cleared when there are none; whatever query the URL had is gone. */
  method AppendQueryParams(url: Url, params: QueryParams) returns (r: Url)
    ensures r.pathname == url.pathname
    ensures Pairs(params) == [] <==> r.search == []
    ensures Pairs(params) != [] ==> r.search == "?" + Join(PiecesOf(Pairs(params)), "&")
  {
    var pieces := SearchPieces(params);
    r := SetSearch(url, SearchText(pieces));
    if pieces != [] {
      JoinNonEmpty(pieces);
      assert SearchText(pieces)[1..] == Join(pieces, "&");
    }
  }

  lemma {:induction false} JoinNonEmpty(pieces: seq<string>)
    requires pieces != [] && forall i :: 0 <= i < |pieces| ==> pieces[i] != []
    ensures Join(pieces, "&") != []
  {
  }

  // ---------------------------------------------------------------------------
  // Reading the query back

  /** Splits a piece at its first "=". */
  function ParsePiece(piece: string): (string, string) {
    match IndexOf(piece, '=')
    case Some(k) => (piece[..k], piece[k + 1..])
    case None => (piece, [])
  }

  /** The name/value pairs a query string (without its "?") holds. */
  function ParseQuery(query: string): seq<(string, string)> {
    var pieces := Split(query, {'&'});
    seq(|pieces|, i requires 0 <= i < |pieces| => ParsePiece(pieces[i]))
  }

  /** A pair whose name has no "=" and "&" and whose value has no "&" survives being
      written as a piece and parsed back. */
  predicate Unambiguous(pair: (string, string)) {
    '=' !in pair.0 && '&' !in pair.0 && '&' !in pair.1
  }

  lemma ParsePieceRoundTrip(pair: (string, string))
    requires '=' !in pair.0
    ensures ParsePiece(Piece(pair)) == pair
  {
    var p := Piece(pair);
    assert p[|pair.0|] == '=';
    assert IndexOf(p, '=') == Some(|pair.0|) by {
      assert p[..|pair.0|] == pair.0;
    }
    assert p[..|pair.0|] == pair.0;
    assert p[|pair.0| + 1..] == pair.1;
  }

  /** Parsing the search `appendQueryParams` writes gives back exactly the pairs of the
      mapping, in order, when no name or value contains a delimiter. */
  lemma QueryRoundTrip(pairs: seq<(string, string)>)
    requires pairs != []
    requires forall i :: 0 <= i < |pairs| ==> Unambiguous(pairs[i])
    ensures ParseQuery(Join(PiecesOf(pairs), "&")) == pairs
  {
    var pieces := PiecesOf(pairs);
    forall k | 0 <= k < |pieces| ensures '&' !in pieces[k] {
      var pair := pairs[k];
      assert pieces[k] == pair.0 + "=" + pair.1;
    }
    SplitJoin(pieces, '&');
    forall i | 0 <= i < |pairs| ensures ParsePiece(pieces[i]) == pairs[i] {
      ParsePieceRoundTrip(pairs[i]);
    }
  }

  // ---------------------------------------------------------------------------
  // getRequestUrl

  /** `getRequestUrl`: the path is appended when given and non-empty; the query is
      rewritten when a mapping is given, even an empty one. The final serialisation of
      the URL object is not modelled; the result is the URL's pathname and search. */
  method GetRequestUrl(base: Url, path: Option<string>, queryParams: Option<QueryParams>) returns (r: Url)
    requires SearchForm(base.search)
    ensures SearchForm(r.search)
    ensures path.Some? && path.value != [] ==>
      r.pathname == WithTrailingSlash(base.pathname) + PathPart(path.value)
    ensures !(path.Some? && path.value != []) ==> r.pathname == base.pathname
    ensures queryParams.Some? ==>
      (Pairs(queryParams.value) == [] <==> r.search == []) &&
      (Pairs(queryParams.value) != [] ==> r.search == "?" + Join(PiecesOf(Pairs(queryParams.value)), "&"))
    ensures queryParams.None? && path.Some? && path.value != [] ==> r == AppendPath(base, path.value)
    ensures queryParams.None? && !(path.Some? && path.value != []) ==> r == base
  {
    r := base;
    if path.Some? && path.value != [] {
      AppendPathEffect(base, path.value);
      r := AppendPath(r, path.value);
    }
    if queryParams.Some? {
      r := AppendQueryParams(r, queryParams.value);
      if Pairs(queryParams.value) != [] {
        assert r.search[0] == '?';
      }
    }
  }

  /** Once a mapping is given, the query text carried in the path has no effect. */
  method PathQueryDiscarded(base: Url, p1: string, p2: string, params: QueryParams) returns (r1: Url, r2: Url)
    requires SearchForm(base.search)
    requires p1 != [] && p2 != [] && PathPart(p1) == PathPart(p2)
    ensures r1 == r2
  {
    r1 := GetRequestUrl(base, Some(p1), Some(params));
    r2 := GetRequestUrl(base, Some(p2), Some(params));
  }

  /** The example mapping `{a: ["1", "2"], b: undefined, c: "x,y"}` produces
      `?a=1&a=2&c=x,y`: the key repeats, `undefined` is omitted, the comma is kept. */
  lemma ExamplePairs(params: QueryParams)
    requires params == [("a", Strs(["1", "2"])), ("b", Undefined), ("c", Str("x,y"))]
    ensures Pairs(params) == [("a", "1"), ("a", "2"), ("c", "x,y")]
  {
    assert params == [("a", Strs(["1", "2"]))] + [("b", Undefined)] + [("c", Str("x,y"))];
    PairsAppend([("a", Strs(["1", "2"]))] + [("b", Undefined)], [("c", Str("x,y"))]);
    PairsAppend([("a", Strs(["1", "2"]))], [("b", Undefined)]);
    PairsOfEntry("a", Strs(["1", "2"]));
    PairsOfEntry("b", Undefined);
    PairsOfEntry("c", Str("x,y"));
  }

  lemma ExampleSearch(pairs: seq<(string, string)>)
    requires pairs == [("a", "1"), ("a", "2"), ("c", "x,y")]
    ensures Join(PiecesOf(pairs), "&") == "a=1&a=2&c=x,y"
  {
    var pieces := PiecesOf(pairs);
    assert pieces[0] == "a=1" && pieces[1] == "a=2" && pieces[2] == "c=x,y";
    assert pieces == ["a=1", "a=2", "c=x,y"];
    assert pieces[1..][1..] == ["c=x,y"];
    assert Join(pieces[1..], "&") == "a=2" + "&" + "c=x,y";
    assert Join(pieces, "&") == "a=1" + "&" + ("a=2" + "&" + "c=x,y");
  }

  method ExampleQuery(url: Url) returns (r: Url)
    ensures r.search == "?a=1&a=2&c=x,y"
  {
    var params := [("a", Strs(["1", "2"])), ("b", Undefined), ("c", Str("x,y"))];
    ExamplePairs(params);
    ExampleSearch(Pairs(params));
    r := AppendQueryParams(url, params);
  }
}
