/**
 * The `ai_search_history` request handler: validate the body, rebuild the
 * conversation history, choose the search query, save the new turn, run the
 * hybrid search and return the sanitised documents. Every call to an
 * external service is recorded, in order, in the returned call log.
 */
module Handler {
  import opened Wrappers
  import opened Json
  import opened Text
  import opened Store
  import opened Intent
  import opened Search

  /** The fields the handler looks up in the JSON body; a missing field is None (or Null). */
  datatype RequestBody = RequestBody(
    conversationId: Option<string>,
    conversation: Option<string>,
    indexToSearch: Option<string>,
    fields: Value,
    semanticConfiguration: Value)

  /** The HTTP reply: 400 with a message, 500 with a message, or 200 with `{"results": [...]}`. */
  datatype Response =
    | BadRequest(message: string)
    | InternalError(message: string)
    | Ok(results: seq<Doc>)

  const InvalidJson := "Invalid JSON payload"
  const IndexRequired := "index_to_search parameter is required."
  const ReadErrorPrefix := "Error retrieving data from Cosmos DB: "
  const SaveErrorPrefix := "Error saving data to Cosmos DB: "
  const SearchErrorPrefix := "Error calling Azure AI search: "

  /**
   * The search capability: a POST of the payload with the headers to the
   * endpoint, giving the reply's `value` list (None when the reply has no
   * `value`), or the text of the request exception.
   */
  type SearchCall = (string, Doc, Doc) -> Result<Option<seq<Doc>>>

  /** The configuration and the external capabilities one request runs against. */
  datatype Services = Services(
    baseUrl: string,
    apiVersion: string,
    apiKey: string,
    complete: Completion,
    search: SearchCall,
    newId: string)

  /** One call to an external service. */
  datatype Call =
    | QueryItems(conversationId: string)
    | Complete(history: string, message: Option<string>)
    | CreateItem(item: Turn)
    | PostSearch(endpoint: string, headers: Doc, payload: Doc)

  /** A string field of the body: its text when it holds a JSON string; None when the key is missing. */
  function StringField(body: Doc, key: string): (r: Option<string>)
    ensures Get(body, key).None? ==> r.None?
    ensures r.Some? <==> Get(body, key).Some? && Get(body, key).value.Str?
    ensures r.Some? ==> Field(key, Str(r.value)) in body
  {
    match Get(body, key)
    case Some(Str(s)) => Some(s)
    case _ => None
  }

  /** In a dict, a string field is read back exactly as it is stored. */
  lemma StringFieldExact(body: Doc, key: string, s: string)
    requires KeysDistinct(body)
    ensures StringField(body, key) == Some(s) <==> Field(key, Str(s)) in body
  {
    if Field(key, Str(s)) in body {
      var i :| 0 <= i < |body| && body[i] == Field(key, Str(s));
      GetAt(body, i);
    }
  }

  /** An optional field passed through as any JSON value; a missing key reads as `Null`. */
  function AnyField(body: Doc, key: string): (v: Value)
    ensures Get(body, key).Some? ==> Field(key, v) in body
    ensures Get(body, key).None? ==> v == Null
  {
    if Get(body, key).Some? then Get(body, key).value else Null
  }

  /** The five lookups the handler makes in the decoded body. */
  function RequestOf(body: Doc): RequestBody {
    RequestBody(
      StringField(body, "conversation_id"),
      StringField(body, "conversation"),
      StringField(body, "index_to_search"),
      AnyField(body, "fields"),
      AnyField(body, "semanticConfiguration"))
  }

  /** The decoded body, if it decoded, read into the handler's fields. */
  function ParseBody(body: Option<Doc>): Option<RequestBody> {
    if body.Some? then Some(RequestOf(body.value)) else None
  }

  /** A body carrying only a conversation id, a message and an index. */
  function MessageBody(cid: string, msg: string, index: string): Doc {
    [Field("conversation_id", Str(cid)), Field("conversation", Str(msg)), Field("index_to_search", Str(index))]
  }

  /** Such a body is read back field for field, and the optional fields read as `Null`. */
  lemma RequestOfMessage(cid: string, msg: string, index: string)
    ensures RequestOf(MessageBody(cid, msg, index)) == RequestBody(Some(cid), Some(msg), Some(index), Null, Null)
  {
    var d := MessageBody(cid, msg, index);
    assert Get(d, "conversation_id") == Some(Str(cid));
    assert Get(d, "conversation") == Some(Str(msg));
    assert Get(d, "index_to_search") == Some(Str(index));
    assert Get(d, "fields") == None;
    assert Get(d, "semanticConfiguration") == None;
  }

  /** The body parsed and names an index: the request goes past validation. */
  predicate Accepted(body: Option<RequestBody>) {
    body.Some? && Truthy(body.value.indexToSearch)
  }

  /** `existing_conversation` for a request against the stored items. */
  function ExistingConversation(req: RequestBody, items: seq<Turn>): string {
    if Truthy(req.conversationId) then History(items, req.conversationId.value) else ""
  }

  /** A new turn is saved exactly when the request names a conversation and carries a message. */
  predicate SavesTurn(req: RequestBody) {
    Truthy(req.conversationId) && Truthy(req.conversation)
  }

  function NewTurn(req: RequestBody, id: string): Turn
    requires SavesTurn(req)
  {
    Turn(id, req.conversationId.value, req.conversation.value)
  }

  /** The search result list before sanitising: the reply's `value`, or empty when it has none. */
  function RawResults(v: Option<seq<Doc>>): seq<Doc> {
    if v.Some? then v.value else []
  }

  /** The store read: made only when the request names a conversation. */
  function ReadCalls(req: RequestBody): seq<Call> {
    if Truthy(req.conversationId) then [QueryItems(req.conversationId.value)] else []
  }

  /** The resolver call: made only when the joined history is non-empty. */
  function ResolveCalls(existing: string, message: Option<string>): seq<Call> {
    if existing != "" then [Complete(existing, message)] else []
  }

  /** The save of the new turn: made only when there is a conversation and a message. */
  function SaveCalls(req: RequestBody, id: string): seq<Call> {
    if SavesTurn(req) then [CreateItem(NewTurn(req, id))] else []
  }

  /** The search request a non-empty query leads to. */
  function SearchRequest(query: string, req: RequestBody, svc: Services): Call
    requires Truthy(req.indexToSearch)
  {
    PostSearch(Endpoint(svc.baseUrl, req.indexToSearch.value, svc.apiVersion),
               Headers(svc.apiKey),
               Payload(query, req.fields, req.semanticConfiguration))
  }

  /**
   * Read and join the conversation's history when the request names
   * a conversation; otherwise the history is empty and the store is not read.
   */
  method ReadHistory(req: RequestBody, container: Container) returns (existing: Result<string>, calls: seq<Call>)
    ensures calls == ReadCalls(req)
    ensures existing == if Truthy(req.conversationId) && container.readFault.Some?
                        then Failure(container.readFault.value)
                        else Success(ExistingConversation(req, container.items))
  {
    calls := [];
    if Truthy(req.conversationId) {
      calls := [QueryItems(req.conversationId.value)];
      var results := container.QueryItems(req.conversationId.value);
      if results.Failure? {
        return Failure(results.cause), calls;
      }
      return Success(Join(Texts(results.value), ";")), calls;
    }
    existing := Success("");
  }

  /**
   * Save the new turn, under a fresh id, when the request names a
   * conversation and carries a message; existing turns are left as they are.
   */
  method SaveTurn(req: RequestBody, container: Container, id: string) returns (saved: Outcome, calls: seq<Call>)
    requires container.Valid()
    requires !container.HasId(id)
    modifies container
    ensures container.Valid()
    ensures container.readFault == old(container.readFault)
    ensures container.writeFault == old(container.writeFault)
    ensures calls == SaveCalls(req, id)
    ensures saved == if SavesTurn(req) && container.writeFault.Some? then Fail(container.writeFault.value) else Pass
    ensures container.items == if SavesTurn(req) && saved.Pass? then old(container.items) + [NewTurn(req, id)]
                               else old(container.items)
  {
    calls := [];
    saved := Pass;
    if Truthy(req.conversationId) && Truthy(req.conversation) {
      var item := Turn(id, req.conversationId.value, req.conversation.value);
      calls := [CreateItem(item)];
      saved := container.CreateItem(item);
    }
  }

  /**
   * Run the search when the query is non-empty and sanitise
   * what comes back; an empty query gives an empty result list and no call.
   */
  method RunSearch(query: Option<string>, req: RequestBody, svc: Services) returns (resp: Response, calls: seq<Call>)
    requires Truthy(req.indexToSearch)
    ensures !Truthy(query) ==> calls == [] && resp == Ok([])
    ensures Truthy(query) ==>
      var call := SearchRequest(query.value, req, svc);
      var reply := svc.search(call.endpoint, call.headers, call.payload);
      && calls == [call]
      && resp == if reply.Failure? then InternalError(SearchErrorPrefix + reply.cause)
                 else Ok(Cleaned(RawResults(reply.value)))
  {
    calls := [];
    var endpoint := Endpoint(svc.baseUrl, req.indexToSearch.value, svc.apiVersion);
    var rawResults: seq<Doc> := [];
    if Truthy(query) {
      var payload := Payload(query.value, req.fields, req.semanticConfiguration);
      var headers := Headers(svc.apiKey);
      calls := [PostSearch(endpoint, headers, payload)];
      var reply := svc.search(endpoint, headers, payload);
      if reply.Failure? {
        return InternalError(SearchErrorPrefix + reply.cause), calls;
      }
      rawResults := RawResults(reply.value);
    }
    var cleaned := Sanitize(rawResults);
    resp := Ok(cleaned);
  }

  /**
   * What handling a decoded request does to a store holding `items`, whose
   * query fails with `readFault` and whose insert fails with `writeFault`:
   * the response, the calls made in order, and the items afterwards.
   */
  ghost predicate Handled(req: RequestBody, items: seq<Turn>, readFault: Option<string>, writeFault: Option<string>,
                          svc: Services, resp: Response, calls: seq<Call>, items': seq<Turn>)
  {
    // No index: rejected before anything else.
    && (!Truthy(req.indexToSearch) ==>
          resp == BadRequest(IndexRequired) && calls == [] && items' == items)
    // A failed history read ends the request: nothing saved, nothing searched.
    && (Truthy(req.indexToSearch) && Truthy(req.conversationId) && readFault.Some? ==>
          && resp == InternalError(ReadErrorPrefix + readFault.value)
          && calls == ReadCalls(req)
          && items' == items)
    // Past a successful (or skipped) history read:
    && (Truthy(req.indexToSearch) && !(Truthy(req.conversationId) && readFault.Some?) ==>
          var existing := ExistingConversation(req, items);
          var query := ChooseQuery(existing, req.conversation, svc.complete);
          var before := ReadCalls(req) + ResolveCalls(existing, req.conversation) + SaveCalls(req, svc.newId);
          if SavesTurn(req) && writeFault.Some? then
            // a failed save ends the request before any search
            && resp == InternalError(SaveErrorPrefix + writeFault.value)
            && calls == before
            && items' == items
          else
            // the saved turn stays whatever the search does
            && items' == items + (if SavesTurn(req) then [NewTurn(req, svc.newId)] else [])
            && (!Truthy(query) ==> calls == before && resp == Ok([]))
            && (Truthy(query) ==>
                  var call := SearchRequest(query.value, req, svc);
                  var reply := svc.search(call.endpoint, call.headers, call.payload);
                  && calls == before + [call]
                  && resp == if reply.Failure? then InternalError(SearchErrorPrefix + reply.cause)
                             else Ok(Cleaned(RawResults(reply.value)))))
  }

  /** Everything after decoding the body: validate, read, resolve, save, search, sanitise. */
  method HandleRequest(req: RequestBody, container: Container, svc: Services)
      returns (resp: Response, calls: seq<Call>)
    requires container.Valid()
    requires !container.HasId(svc.newId)
    modifies container
    ensures container.Valid()
    ensures container.readFault == old(container.readFault)
    ensures container.writeFault == old(container.writeFault)
    ensures NonEmptyTexts(old(container.items)) ==> NonEmptyTexts(container.items)
    ensures Handled(req, old(container.items), old(container.readFault), old(container.writeFault),
                    svc, resp, calls, container.items)
  {
    calls := [];
    if !Truthy(req.indexToSearch) {
      return BadRequest(IndexRequired), calls;
    }

    var history;
    history, calls := ReadHistory(req, container);
    if history.Failure? {
      return InternalError(ReadErrorPrefix + history.cause), calls;
    }
    var existing := history.value;

    var searchQuery: Option<string>;
    if existing != "" {
      calls := calls + [Complete(existing, req.conversation)];
      searchQuery := AnalyzeIntent(svc.complete(existing, req.conversation), req.conversation);
    } else {
      searchQuery := req.conversation;
    }
    assert searchQuery == ChooseQuery(existing, req.conversation, svc.complete);

    var saved, saveCalls := SaveTurn(req, container, svc.newId);
    calls := calls + saveCalls;
    if saved.Fail? {
      return InternalError(SaveErrorPrefix + saved.cause), calls;
    }

    var searchCalls;
    resp, searchCalls := RunSearch(searchQuery, req, svc);
    calls := calls + searchCalls;
  }

  /** The handler: a body that does not decode is a 400; otherwise its fields are read and handled. */
  method AiSearchHistory(body: Option<Doc>, container: Container, svc: Services)
      returns (resp: Response, calls: seq<Call>)
    requires container.Valid()
    requires !container.HasId(svc.newId)
    modifies container
    ensures container.Valid()
    ensures container.readFault == old(container.readFault)
    ensures container.writeFault == old(container.writeFault)
    ensures NonEmptyTexts(old(container.items)) ==> NonEmptyTexts(container.items)
    ensures body.None? ==>
      resp == BadRequest(InvalidJson) && calls == [] && container.items == old(container.items)
    ensures body.Some? ==>
      Handled(RequestOf(body.value), old(container.items), old(container.readFault), old(container.writeFault),
              svc, resp, calls, container.items)
  {
    if body.None? {
      return BadRequest(InvalidJson), [];
    }
    resp, calls := HandleRequest(RequestOf(body.value), container, svc);
  }

  /**
   * Against a store whose calls do not fail, a request naming an index, a
   * conversation and a message always saves its turn, and its read, resolve
   * and save calls come first, in that order, whatever the search does.
   */
  lemma HandledSaves(req: RequestBody, items: seq<Turn>, svc: Services, resp: Response, calls: seq<Call>, items': seq<Turn>)
    requires Handled(req, items, None, None, svc, resp, calls, items')
    requires Truthy(req.indexToSearch) && SavesTurn(req)
    ensures items' == items + [NewTurn(req, svc.newId)]
    ensures var existing := ExistingConversation(req, items);
            var before := ReadCalls(req) + ResolveCalls(existing, req.conversation) + SaveCalls(req, svc.newId);
            |before| <= |calls| && calls[..|before|] == before
  {
    var existing := ExistingConversation(req, items);
    var before := ReadCalls(req) + ResolveCalls(existing, req.conversation) + SaveCalls(req, svc.newId);
    assert calls == before || calls[..|before|] == before by {
      if |calls| > |before| {
        assert calls[..|before|] == before;
      }
    }
  }

  /**
   * A turn saved by one request shows up at the end of the history the next
   * request for the same conversation reads, after a `;` if there was any.
   */
  lemma SavedTurnInNextHistory(req: RequestBody, items: seq<Turn>, id: string)
    requires SavesTurn(req)
    ensures var next := ExistingConversation(req, items + [NewTurn(req, id)]);
            var msg := req.conversation.value;
            && |msg| <= |next| && next[|next| - |msg|..] == msg
            && (Matching(items, req.conversationId.value) != [] ==>
                  next == ExistingConversation(req, items) + ";" + msg)
  {
    AppendExtendsHistory(items, NewTurn(req, id));
  }

  /** The body of the scenarios below: `{"conversation_id": "c1", "conversation": "hi", "index_to_search": "idx"}`. */
  const FirstTurnBody := MessageBody("c1", "hi", "idx")

  /**
   * First turn of a conversation against an empty store: the history is
   * empty, so the resolver is skipped and "hi" itself is searched for in
   * index "idx"; the turn is saved under the fresh id.
   */
  method FirstTurnScenario(svc: Services) returns (resp: Response, calls: seq<Call>, items: seq<Turn>)
    ensures items == [Turn(svc.newId, "c1", "hi")]
    ensures var endpoint := Endpoint(svc.baseUrl, "idx", svc.apiVersion);
            var headers := Headers(svc.apiKey);
            var payload := Payload("hi", Null, Null);
            var reply := svc.search(endpoint, headers, payload);
            && calls == [QueryItems("c1"), CreateItem(Turn(svc.newId, "c1", "hi")), PostSearch(endpoint, headers, payload)]
            && resp == if reply.Failure? then InternalError(SearchErrorPrefix + reply.cause)
                       else Ok(Cleaned(RawResults(reply.value)))
  {
    var c := new Container([], None, None);
    RequestOfMessage("c1", "hi", "idx");
    assert Matching([], "c1") == [];
    assert Texts([]) == [];
    resp, calls := AiSearchHistory(Some(FirstTurnBody), c, svc);
    items := c.items;
  }

  /**
   * The same request when the store's insert fails with "boom": the request
   * ends with a 500 before any search, and nothing is stored.
   */
  method SaveFailureScenario(svc: Services) returns (resp: Response, calls: seq<Call>, items: seq<Turn>)
    ensures resp == InternalError(SaveErrorPrefix + "boom")
    ensures items == []
    ensures calls == [QueryItems("c1"), CreateItem(Turn(svc.newId, "c1", "hi"))]
  {
    var c := new Container([], None, Some("boom"));
    RequestOfMessage("c1", "hi", "idx");
    assert Matching([], "c1") == [];
    assert Texts([]) == [];
    resp, calls := AiSearchHistory(Some(FirstTurnBody), c, svc);
    items := c.items;
  }

  /** A second request for "c1", against a working store holding the turn "hello": its stored items and first three calls. */
  lemma SecondTurnCalls(svc: Services, resp: Response, calls: seq<Call>, items': seq<Turn>)
    requires Handled(RequestOf(FirstTurnBody), [Turn("t0", "c1", "hello")], None, None, svc, resp, calls, items')
    ensures items' == [Turn("t0", "c1", "hello"), Turn(svc.newId, "c1", "hi")]
    ensures |calls| >= 3
    ensures calls[..3] == [QueryItems("c1"), Complete("hello", Some("hi")), CreateItem(Turn(svc.newId, "c1", "hi"))]
  {
    var old0 := Turn("t0", "c1", "hello");
    RequestOfMessage("c1", "hi", "idx");
    var req := RequestOf(FirstTurnBody);
    assert Matching([old0], "c1") == [old0];
    assert Texts([old0]) == ["hello"];
    assert ExistingConversation(req, [old0]) == "hello";
    HandledSaves(req, [old0], svc, resp, calls, items');
  }

  /**
   * A second turn: with "hello" already stored for "c1", the resolver is
   * asked about that history and "hi", and the new turn is stored after the
   * old one.
   */
  method SecondTurnScenario(svc: Services) returns (resp: Response, calls: seq<Call>, items: seq<Turn>)
    requires svc.newId != "t0"
    ensures items == [Turn("t0", "c1", "hello"), Turn(svc.newId, "c1", "hi")]
    ensures |calls| >= 3
    ensures calls[..3] == [QueryItems("c1"), Complete("hello", Some("hi")), CreateItem(Turn(svc.newId, "c1", "hi"))]
  {
    var old0 := Turn("t0", "c1", "hello");
    var c := new Container([old0], None, None);
    assert c.items == [old0];
    assert !c.HasId(svc.newId) by {
      forall i | 0 <= i < |c.items| ensures c.items[i].id != svc.newId {
        assert c.items[i] == old0;
      }
    }
    resp, calls := AiSearchHistory(Some(FirstTurnBody), c, svc);
    items := c.items;
    SecondTurnCalls(svc, resp, calls, items);
  }
}
