/** The hash-route builder of the front end (Frontend/utils.ts). */
module PageUrl {
  import opened Text

  /**
   * `createPageUrl(path)`: the text before the first `?` lower-cased as the page, then the
   * text between the first and the second `?` as the query, when there is some.
   */
  function CreatePageUrl(path: string): (url: string)
    ensures "#/" <= url
  {
    var parts := Split(path, '?');
    var query := if |parts| > 1 then parts[1] else "";
    "#/" + Lower(parts[0]) + (if query != "" then "?" + query else "")
  }

  /** The route read off the first two `?`: the page before the first, the query up to the next. */
  lemma RouteParts(path: string)
    ensures var i := IndexOfChar(path, '?');
            i == |path| ==> CreatePageUrl(path) == "#/" + Lower(path)
    ensures var i := IndexOfChar(path, '?');
            i < |path| ==>
              var rest := path[i + 1..];
              var query := rest[..IndexOfChar(rest, '?')];
              CreatePageUrl(path) == "#/" + Lower(path[..i]) + (if query != "" then "?" + query else "")
  {
    var i := IndexOfChar(path, '?');
    SplitFirst(path, '?');
    if i == |path| {
      assert path[..i] == path;
    } else {
      SplitFirst(path[i + 1..], '?');
    }
  }

  /** The suffix a query adds to the route: nothing for an empty one. */
  function QuerySuffix(query: string): string {
    if query != "" then "?" + query else ""
  }

  lemma IndexOfCharAt(s: string, c: char, k: nat)
    requires k < |s| && s[k] == c && c !in s[..k]
    ensures IndexOfChar(s, c) == k
  {
  }

  /** A page without `?` followed by `?` and more: the query is what comes before the next `?`. */
  lemma PageThenRest(page: string, rest: string)
    requires '?' !in page
    ensures CreatePageUrl(page + "?" + rest) == "#/" + Lower(page) + QuerySuffix(rest[..IndexOfChar(rest, '?')])
  {
    var path := page + "?" + rest;
    assert path[..|page|] == page;
    IndexOfCharAt(path, '?', |page|);
    RouteParts(path);
    assert path[|page| + 1..] == rest;
  }

  /** Whatever follows a second `?` is dropped. */
  lemma SecondQuestionMarkDrops(page: string, query: string, dropped: string)
    requires '?' !in page && '?' !in query
    ensures CreatePageUrl(page + "?" + query + "?" + dropped) == CreatePageUrl(page + "?" + query)
  {
    var rest := query + "?" + dropped;
    assert IndexOfChar(rest, '?') == |query| by {
      assert rest[..|query|] == query;
      IndexOfCharAt(rest, '?', |query|);
    }
    assert rest[..|query|] == query;
    var long := page + "?" + query + "?" + dropped;
    assert long == page + "?" + rest;
    PageThenRest(page, rest);
    PageThenRest(page, query);
    assert query[..IndexOfChar(query, '?')] == query;
  }

  /** The first example of the function's documentation; the second is an instance of `PageAndQuery`. */
  lemma HomeExample()
    ensures CreatePageUrl("Home") == "#/home"
  {
    RouteParts("Home");
    assert '?' !in "Home";
    assert Lower("Home") == "home";
  }

  /** A page and a query without `?`: the lowered page, then the query verbatim after `?`. */
  lemma PageAndQuery(page: string, query: string)
    requires '?' !in page && '?' !in query && query != ""
    ensures CreatePageUrl(page + "?" + query) == "#/" + Lower(page) + "?" + query
  {
    var prefix := "#/" + Lower(page);
    assert prefix + QuerySuffix(query[..IndexOfChar(query, '?')]) == prefix + "?" + query by {
      assert IndexOfChar(query, '?') == |query|;
      assert query[..|query|] == query;
    }
    PageThenRest(page, query);
  }

  /** An empty query adds nothing, not even the `?`. */
  lemma EmptyQueryExample()
    ensures CreatePageUrl("Chat?") == "#/chat"
  {
    assert Lower("Chat") == "chat";
    PageThenRest("Chat", "");
    assert "Chat" + "?" + "" == "Chat?";
  }
}
