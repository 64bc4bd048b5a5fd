/**
 * The Azure AI Search side of the handler: the request it sends (endpoint,
 * headers, hybrid semantic/vector payload) and the sanitising of the
 * documents that come back.
 */
module Search {
  import opened Wrappers
  import opened Json

  const DocsSearchPath := "/docs/search?api-version="

  /** The search endpoint: the base URL, the index name, the docs-search path, then the API version. */
  function Endpoint(baseUrl: string, index: string, apiVersion: string): (url: string)
    ensures |baseUrl| + |index| + |apiVersion| < |url|
    ensures url[..|baseUrl|] == baseUrl
    ensures url[|url| - |apiVersion|..] == apiVersion
  {
    baseUrl + index + DocsSearchPath + apiVersion
  }

  /** The characters of `s` before its first `/` (all of `s` if there is none). */
  function Segment(s: string): (r: string)
    ensures |r| <= |s| && r == s[..|r|]
    ensures '/' !in r
  {
    if s == [] || s[0] == '/' then [] else [s[0]] + Segment(s[1..])
  }

  /** The index name an endpoint URL addresses, read back after the base URL. */
  function IndexOf(baseUrl: string, url: string): Option<string> {
    if |baseUrl| <= |url| && url[..|baseUrl|] == baseUrl then Some(Segment(url[|baseUrl|..])) else None
  }

  lemma {:induction false} SegmentBeforeSlash(a: string, b: string)
    requires '/' !in a
    ensures Segment(a + "/" + b) == a
  {
    if a != [] {
      assert (a + "/" + b)[1..] == a[1..] + "/" + b;
      SegmentBeforeSlash(a[1..], b);
    }
  }

  /** The endpoint addresses exactly the requested index when its name has no `/`. */
  lemma EndpointIndexRoundTrip(baseUrl: string, index: string, apiVersion: string)
    requires '/' !in index
    ensures IndexOf(baseUrl, Endpoint(baseUrl, index, apiVersion)) == Some(index)
  {
    var url := Endpoint(baseUrl, index, apiVersion);
    assert url[|baseUrl|..] == index + "/" + ("docs/search?api-version=" + apiVersion);
    SegmentBeforeSlash(index, "docs/search?api-version=" + apiVersion);
  }

  /** The request headers: JSON content and the search API key. */
  function Headers(apiKey: string): Doc {
    [Field("Content-Type", Str("application/json")), Field("api-key", Str(apiKey))]
  }

  lemma HeadersShape(apiKey: string)
    ensures KeysDistinct(Headers(apiKey))
    ensures Get(Headers(apiKey), "Content-Type") == Some(Str("application/json"))
    ensures Get(Headers(apiKey), "api-key") == Some(Str(apiKey))
  {
    GetAt(Headers(apiKey), 1);
  }

  /** The single text vector query over the caller's fields. */
  function VectorQuery(query: string, fields: Value): Doc {
    [Field("kind", Str("text")), Field("text", Str(query)), Field("fields", fields)]
  }

  /**
   * The hybrid search body: the query as the search text; count requested;
   * one text vector query; semantic ranking under the caller's semantic
   * configuration, extractive captions and at most three extractive answers.
   */
  function Payload(query: string, fields: Value, semanticConfiguration: Value): Doc {
    [ Field("search", Str(query)),
      Field("count", Bool(true)),
      Field("vectorQueries", Arr([Obj(VectorQuery(query, fields))])),
      Field("queryType", Str("semantic")),
      Field("semanticConfiguration", semanticConfiguration),
      Field("captions", Str("extractive")),
      Field("answers", Str("extractive|count-3")) ]
  }

  /**
   * The one vector query is of kind "text", searches the same query text as
   * the search itself, over exactly the caller's fields.
   */
  lemma VectorQueryShape(query: string, fields: Value)
    ensures KeysDistinct(VectorQuery(query, fields))
    ensures Get(VectorQuery(query, fields), "kind") == Some(Str("text"))
    ensures Get(VectorQuery(query, fields), "text") == Some(Str(query))
    ensures Get(VectorQuery(query, fields), "fields") == Some(fields)
  {
    GetAt(VectorQuery(query, fields), 2);
  }

  /** The payload is a dict of seven fields with these values. */
  lemma PayloadShape(query: string, fields: Value, semanticConfiguration: Value)
    ensures var p := Payload(query, fields, semanticConfiguration);
      && KeysDistinct(p)
      && |p| == 7
      && Get(p, "search") == Some(Str(query))
      && Get(p, "count") == Some(Bool(true))
      && Get(p, "vectorQueries") == Some(Arr([Obj(VectorQuery(query, fields))]))
      && Get(p, "queryType") == Some(Str("semantic"))
      && Get(p, "semanticConfiguration") == Some(semanticConfiguration)
      && Get(p, "captions") == Some(Str("extractive"))
      && Get(p, "answers") == Some(Str("extractive|count-3"))
  {
    var p := Payload(query, fields, semanticConfiguration);
    GetAt(p, 0); GetAt(p, 1); GetAt(p, 2); GetAt(p, 3); GetAt(p, 4); GetAt(p, 5); GetAt(p, 6);
  }

  /** The provider-internal keys that never leave the handler. */
  const InternalKeys: set<string> := {"@search.score", "@search.rerankerScore", "chunk_id", "parent_id"}

  /** One result document with the four internal keys deleted, in the order the handler deletes them. */
  function StripInternal(d: Doc): Doc {
    RemoveKey(RemoveKey(RemoveKey(RemoveKey(d, "@search.score"), "@search.rerankerScore"), "chunk_id"), "parent_id")
  }

  /** A stripped document has none of the internal keys and keeps all the others. */
  lemma StripInternalKeys(d: Doc)
    ensures Keys(StripInternal(d)) == Keys(d) - InternalKeys
  {
    var d1 := RemoveKey(d, "@search.score");
    var d2 := RemoveKey(d1, "@search.rerankerScore");
    var d3 := RemoveKey(d2, "chunk_id");
    RemoveKeyKeys(d, "@search.score");
    RemoveKeyKeys(d1, "@search.rerankerScore");
    RemoveKeyKeys(d2, "chunk_id");
    RemoveKeyKeys(d3, "parent_id");
  }

  /** Every field under a non-internal key keeps its value; missing keys are not an error. */
  lemma StripInternalValues(d: Doc, k: string)
    requires k !in InternalKeys
    ensures Get(StripInternal(d), k) == Get(d, k)
  {
    var d1 := RemoveKey(d, "@search.score");
    var d2 := RemoveKey(d1, "@search.rerankerScore");
    var d3 := RemoveKey(d2, "chunk_id");
    RemoveKeyGet(d, "@search.score", k);
    RemoveKeyGet(d1, "@search.rerankerScore", k);
    RemoveKeyGet(d2, "chunk_id", k);
    RemoveKeyGet(d3, "parent_id", k);
  }

  /** The kept fields stay in their original order, and a dict stays a dict. */
  lemma StripInternalOrder(d: Doc)
    ensures Subsequence(StripInternal(d), d)
    ensures KeysDistinct(d) ==> KeysDistinct(StripInternal(d))
  {
    var d1 := RemoveKey(d, "@search.score");
    var d2 := RemoveKey(d1, "@search.rerankerScore");
    var d3 := RemoveKey(d2, "chunk_id");
    var r := RemoveKey(d3, "parent_id");
    RemoveKeyOrder(d, "@search.score");
    RemoveKeyOrder(d1, "@search.rerankerScore");
    RemoveKeyOrder(d2, "chunk_id");
    RemoveKeyOrder(d3, "parent_id");
    if KeysDistinct(d) {
      RemoveKeyDistinct(d, "@search.score");
      RemoveKeyDistinct(d1, "@search.rerankerScore");
      RemoveKeyDistinct(d2, "chunk_id");
      RemoveKeyDistinct(d3, "parent_id");
    }
    SubsequenceTrans(d2, d1, d);
    SubsequenceTrans(d3, d2, d);
    SubsequenceTrans(r, d3, d);
  }

  /** A document with no internal key is left as it is. */
  lemma StripInternalClean(d: Doc)
    requires Keys(d) !! InternalKeys
    ensures StripInternal(d) == d
  {
    RemoveKeyAbsent(d, "@search.score");
    RemoveKeyAbsent(d, "@search.rerankerScore");
    RemoveKeyAbsent(d, "chunk_id");
    RemoveKeyAbsent(d, "parent_id");
  }

  lemma StripInternalIdempotent(d: Doc)
    ensures StripInternal(StripInternal(d)) == StripInternal(d)
  {
    StripInternalKeys(d);
    StripInternalClean(StripInternal(d));
  }

  /** The cleaned result list: every document stripped, count and order kept. */
  function Cleaned(docs: seq<Doc>): seq<Doc> {
    seq(|docs|, i requires 0 <= i < |docs| => StripInternal(docs[i]))
  }

  /** No cleaned document carries an internal key, whatever came in. */
  lemma CleanedHasNoInternalKey(docs: seq<Doc>, i: nat, k: string)
    requires i < |docs| && k in InternalKeys
    ensures k !in Keys(Cleaned(docs)[i])
  {
    StripInternalKeys(docs[i]);
  }

  /** Cleaning an already cleaned list changes nothing. */
  lemma CleanedIdempotent(docs: seq<Doc>)
    ensures Cleaned(Cleaned(docs)) == Cleaned(docs)
  {
    forall i | 0 <= i < |docs| ensures Cleaned(Cleaned(docs))[i] == Cleaned(docs)[i] {
      StripInternalIdempotent(docs[i]);
    }
  }

  /** A search hit `{"@search.score": 0.9, "chunk_id": "x", "title": "T"}` comes out as `{"title": "T"}`. */
  lemma CleanedExample()
    ensures Cleaned([[Field("@search.score", Num(0.9)), Field("chunk_id", Str("x")), Field("title", Str("T"))]])
         == [[Field("title", Str("T"))]]
  {
    var d := [Field("@search.score", Num(0.9)), Field("chunk_id", Str("x")), Field("title", Str("T"))];
    assert RemoveKey(d, "@search.score") == d[1..];
    assert RemoveKey(d[1..], "chunk_id") == d[2..];
  }

  /**
   * The loop over `raw_results`: pop the internal keys from each item and
   * append it to `cleaned_results`.
   */
  method Sanitize(raw: seq<Doc>) returns (cleaned: seq<Doc>)
    ensures cleaned == Cleaned(raw)
  {
    cleaned := [];
    var n := 0;
    while n < |raw|
      invariant n <= |raw|
      invariant |cleaned| == n
      invariant forall i :: 0 <= i < n ==> cleaned[i] == StripInternal(raw[i])
    {
      var item := raw[n];
      item := RemoveKey(item, "@search.score");
      item := RemoveKey(item, "@search.rerankerScore");
      item := RemoveKey(item, "chunk_id");
      item := RemoveKey(item, "parent_id");
      cleaned := cleaned + [item];
      n := n + 1;
    }
    assert cleaned == Cleaned(raw);
  }
}
