/** How a request is shaped: the target URI of each operation and the headers that carry
    the client's keys. */
module Requests {
  import opened Wrappers
  import opened Http
  import opened Environment

  const JsonMediaType := "application/json"
  const ApplicationKeyHeader := "X-ZUMO-APPLICATION"
  const MasterKeyHeader := "X-ZUMO-MASTER"
  const NoScriptTerm := "noscript=true"

  /** The path of a table, or of one item of it: the base URI, "tables/", the table name
      and, for an item, "/" and its id. */
  function ResourcePath(base: string, table: string, item: Option<string>): string
  {
    base + "tables/" + table + (if item.Some? then "/" + item.value else "")
  }

  /** What follows the '?' of a target URI, when there is one: the caller's query verbatim,
      with the noscript term joined to it by '&', or the noscript term alone. */
  function QueryPart(query: string, noscript: bool): Option<string>
  {
    if query != [] then Some(if noscript then query + "&" + NoScriptTerm else query)
    else if noscript then Some(NoScriptTerm)
    else None
  }

  /** The URI an operation targets. An empty query stands for both a null and an empty
      query string, which the client treats alike. */
  function TargetUri(base: string, table: string, item: Option<string>, query: string, noscript: bool): (r: string)
    ensures var p := ResourcePath(base, table, item);
      |p| <= |r| && r[..|p|] == p
    ensures query == [] && !noscript ==> r == ResourcePath(base, table, item)
    ensures query != [] && !noscript ==> r == ResourcePath(base, table, item) + "?" + query
    ensures noscript ==>
      r == ResourcePath(base, table, item) + "?" + (if query != [] then query + "&" else "") + NoScriptTerm
    ensures noscript ==>
      var suffix := (if query != [] then "&" else "?") + NoScriptTerm;
      |suffix| <= |r| && r[|r| - |suffix|..] == suffix
  {
    var p := ResourcePath(base, table, item);
    match QueryPart(query, noscript)
    case None => p
    case Some(q) => p + "?" + q
  }

  /** Splits a URI at its first '?' into the part before it and, when there is one, the
      part after it. */
  function SplitQuery(u: string): (r: (string, Option<string>))
    ensures '?' !in r.0
    ensures r.1.None? ==> r.0 == u
    ensures r.1.Some? ==> u == r.0 + "?" + r.1.value
  {
    if u == [] then ([], None)
    else if u[0] == '?' then ([], Some(u[1..]))
    else
      var (p, q) := SplitQuery(u[1..]);
      ([u[0]] + p, q)
  }

  /** A URI has one split: when a '?' first follows a '?'-free prefix, the split is there. */
  lemma {:induction false} SplitQueryUnique(p: string, q: Option<string>)
    requires '?' !in p
    ensures SplitQuery(if q.Some? then p + "?" + q.value else p) == (p, q)
  {
    var u := if q.Some? then p + "?" + q.value else p;
    if p != [] {
      assert u[0] == p[0] && p[0] != '?';
      assert u[1..] == if q.Some? then p[1..] + "?" + q.value else p[1..];
      SplitQueryUnique(p[1..], q);
      assert [p[0]] + p[1..] == p;
    } else if q.Some? {
      assert u == "?" + q.value;
    }
  }

  /** The server can take a target URI apart again: splitting it at its first '?' gives
      back the resource path and the query part, as long as the base URI, the table name
      and the item id hold no '?' (the caller's query may). */
  lemma TargetUriRoundTrip(base: string, table: string, item: Option<string>, query: string, noscript: bool)
    requires '?' !in base && '?' !in table
    requires item.Some? ==> '?' !in item.value
    ensures SplitQuery(TargetUri(base, table, item, query, noscript))
         == (ResourcePath(base, table, item), QueryPart(query, noscript))
  {
    var p := ResourcePath(base, table, item);
    assert '?' !in "tables/";
    assert item.Some? ==> '?' !in "/" + item.value;
    assert '?' !in p;
    SplitQueryUnique(p, QueryPart(query, noscript));
  }

  /** A target URI holds exactly one '?' when there is a query or a noscript term, and none
      otherwise, provided none of its parts brings a '?' of its own. */
  lemma TargetUriQuestionMarks(base: string, table: string, item: Option<string>, query: string, noscript: bool)
    requires '?' !in base && '?' !in table && '?' !in query
    requires item.Some? ==> '?' !in item.value
    ensures multiset(TargetUri(base, table, item, query, noscript))['?']
         == if query != [] || noscript then 1 else 0
  {
    var p := ResourcePath(base, table, item);
    assert '?' !in p by {
      assert '?' !in "tables/";
      assert item.Some? ==> '?' !in "/" + item.value;
    }
    var u := TargetUri(base, table, item, query, noscript);
    var qp := QueryPart(query, noscript);
    if qp.Some? {
      assert '?' !in qp.value by {
        assert '?' !in NoScriptTerm && '?' !in "&";
      }
      assert u == p + "?" + qp.value;
      SingleQuestionMark(p, qp.value);
    } else {
      assert query == [] && !noscript;
      assert u == p;
      assert multiset(p)['?'] == 0;
    }
  }

  /** Joining two '?'-free strings with a '?' leaves exactly that one '?'. */
  lemma SingleQuestionMark(p: string, q: string)
    requires '?' !in p && '?' !in q
    ensures multiset(p + "?" + q)['?'] == 1
  {
    assert multiset(p + "?" + q) == multiset(p) + multiset("?") + multiset(q);
    assert multiset(p)['?'] == 0 && multiset(q)['?'] == 0;
    assert multiset("?")['?'] == 1;
  }

  /** The headers carry the application key under X-ZUMO-APPLICATION exactly when one is
      configured, the master key under X-ZUMO-MASTER exactly when one is configured, and
      nothing else. */
  predicate CarriesKeys(headers: seq<Header>, applicationKey: Option<string>, masterKey: Option<string>)
  {
    HeaderValue(headers, ApplicationKeyHeader) == applicationKey &&
    HeaderValue(headers, MasterKeyHeader) == masterKey &&
    (forall h :: h in headers ==> h.name == ApplicationKeyHeader || h.name == MasterKeyHeader) &&
    |headers| == (if applicationKey.Some? then 1 else 0) + (if masterKey.Some? then 1 else 0)
  }

  /** The configured keys as header entries, in no particular order. */
  function KeyHeaders(applicationKey: Option<string>, masterKey: Option<string>): multiset<Header>
  {
    (if applicationKey.Some? then multiset{Header(ApplicationKeyHeader, applicationKey.value)} else multiset{}) +
    (if masterKey.Some? then multiset{Header(MasterKeyHeader, masterKey.value)} else multiset{})
  }

  /** CarriesKeys pins the header collection down up to order: one entry per configured
      key, holding that key. */
  lemma CarriesKeysExactly(headers: seq<Header>, applicationKey: Option<string>, masterKey: Option<string>)
    requires CarriesKeys(headers, applicationKey, masterKey)
    ensures multiset(headers) == KeyHeaders(applicationKey, masterKey)
  {
    assert ApplicationKeyHeader != MasterKeyHeader by {
      assert |ApplicationKeyHeader| != |MasterKeyHeader|;
    }
    if applicationKey.Some? && masterKey.Some? {
      var a := Header(ApplicationKeyHeader, applicationKey.value);
      var m := Header(MasterKeyHeader, masterKey.value);
      assert a in headers && m in headers && a != m;
      assert headers == [headers[0], headers[1]];
      if headers[0] == a {
        assert headers == [a, m];
      } else {
        assert headers == [m, a];
      }
    } else if applicationKey.Some? {
      assert Header(ApplicationKeyHeader, applicationKey.value) in headers;
      assert headers == [Header(ApplicationKeyHeader, applicationKey.value)];
    } else if masterKey.Some? {
      assert Header(MasterKeyHeader, masterKey.value) in headers;
      assert headers == [Header(MasterKeyHeader, masterKey.value)];
    } else {
      assert headers == [];
    }
  }

  /** The request carries `text` as its JSON body, with ContentLength its UTF-8 byte count. */
  predicate CarriesJson(request: Request, text: string, platform: Platform)
  {
    request.body == Some(text) &&
    request.contentLength == Some(platform.utf8Length(text)) &&
    request.contentType == Some(JsonMediaType)
  }

  /** A request with no body and ContentLength 0 (DELETE and GET set the JSON content type
      all the same). */
  predicate Bodiless(request: Request)
  {
    request.body == None && request.contentLength == Some(0) && request.contentType == Some(JsonMediaType)
  }

  /** A request for which nothing about the body is set. */
  predicate Unset(request: Request)
  {
    request.body == None && request.contentLength == None && request.contentType == None
  }

  /** A noscript request is allowed only with a master key. */
  predicate NoScriptPermitted(noscript: bool, masterKey: Option<string>)
  {
    noscript ==> masterKey.Some?
  }
}
