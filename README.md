# Conversational search gateway: a Dafny model of the request handler

The repository is an Azure Function, `ai_search_history`. It takes a user
message and a conversation id, rebuilds the conversation's earlier turns
from a Cosmos DB container, and asks a chat model to rewrite the message
into a search intent when there is history. It saves the new turn, sends a
hybrid (semantic and vector) query to an Azure AI Search index, and returns
the documents it gets back after removing the provider-internal fields.

This project models the request-handling policy of that function
(`function_app.py:53-164`) and the post-processing at the end of
`analyze_intent` (`function_app.py:189`). The external services become
parameters:

- the Cosmos container is a class `Store.Container`: an in-memory log of
  turns `(id, conversation_id, conversation)` plus the failure, if any,
  that its query and its insert raise;
- the chat completion is a function from the joined history and the new
  message to the answer's content, `None` when the result has no `content`
  attribute (no answer at all);
- the search is a function from endpoint, headers and payload to the reply's
  `value` list, or to the text of the request exception.

The handler `Handler.AiSearchHistory` takes the decoded JSON body and reads
its five fields with `Json.Get`. `Handler.HandleRequest` then runs the steps
in order: validate, read and join the history, choose the query, save the
turn, search, and sanitise. Both return the response and the log of external
calls made, in order. Their contract, the predicate `Handler.Handled`, states:

- which calls happen in each situation;
- what the response is;
- what the container holds afterwards, including that a saved turn survives
  a later search failure.

Behaviour the model follows exactly as the code has it:

- The chat model is consulted when the joined history string is non-empty,
  not when the conversation has earlier turns. A conversation whose only
  stored turn has empty text therefore skips it. Every turn this handler
  saves has non-empty text, so for a container written only by the handler
  the two conditions coincide (`Store.HistoryEmptyIffNoTurn`).
- When there is history but no `conversation` in the body, the completion
  is still called, with no message.

Modules, one per component:

- `Wrappers`: Option, Result, Outcome, and Python truthiness of an optional string.
- `Json`: JSON values. A document is an ordered list of fields, with lookup and `dict.pop`.
- `Text`: `strip`, `lower`, `join`, and `split` as the inverse of `join`.
- `Store`: turns, the history query, and the container class.
- `Intent`: query choice and `analyze_intent` post-processing.
- `Search`: endpoint, headers, payload, and result sanitising.
- `Handler`: the request handler and its steps.

## Model

| member | source | states |
|---|---|---|
| `Json.Get` | function_app.py:58-62 | `body.get(k)`: None exactly when `k` is not a key; otherwise a field `(k, value)` of the object |
| `Handler.StringField` | function_app.py:58-60 | a string field of the body reads as its text; a missing key reads as None |
| `Handler.StringFieldExact` | function_app.py:58-60 | in a dict, a string field reads as `s` exactly when the field `(key, "s")` is in the body |
| `Handler.AnyField` | function_app.py:61-62 | `fields` and `semanticConfiguration` pass through as stored; a missing key reads as `Null` (Python's None) |
| `Handler.RequestOfMessage` | function_app.py:58-62 | a body with only `conversation_id`, `conversation` and `index_to_search` reads back as those three strings, with both optional fields `Null` |
| `Json.RemoveKeyKeys` | function_app.py:148-151 | `item.pop(k, None)` removes `k` from the keys and no other key |
| `Json.RemoveKeyGet` | function_app.py:148-151 | popping `k` keeps the value stored under every other key |
| `Json.RemoveKeyAbsent` | function_app.py:148-151 | popping a missing key is not an error and changes nothing |
| `Json.RemoveKeyOrder` | function_app.py:148-151 | the fields left after a pop keep their original order |
| `Json.RemoveKeyDistinct` | function_app.py:148-151 | popping from a dict (distinct keys) yields a dict |
| `Json.RemoveKeyPresent` | function_app.py:148-151 | popping a present key from a dict removes exactly one field |
| `Text.TrimStart` | function_app.py:189 | the longest whitespace prefix is removed and nothing else |
| `Text.TrimEnd` | function_app.py:189 | the longest whitespace suffix is removed and nothing else |
| `Text.Strip` | function_app.py:189 | `strip()` leaves no whitespace at either end and never lengthens |
| `Text.StripSlice` | function_app.py:189 | `strip()` keeps a contiguous piece of its input and cuts only whitespace |
| `Text.StripStripped` | function_app.py:189 | a string with no whitespace at either end is left unchanged |
| `Text.StripIdempotent` | function_app.py:189 | stripping twice is stripping once |
| `Text.LowerChar` | function_app.py:189 | lower-casing a character leaves no upper-case letter, keeps other characters, and keeps whitespace as whitespace |
| `Text.LowerIdempotent` | function_app.py:189 | lower-casing twice is lower-casing once |
| `Text.LowerKeepsStripped` | function_app.py:189 | lower-casing a stripped string keeps it stripped |
| `Text.Normalize` | function_app.py:189 | `strip().lower()` leaves no edge whitespace, no upper-case letter, and is never longer than its input |
| `Text.NormalizeIdempotent` | function_app.py:189 | normalising a normalised query changes nothing |
| `Text.JoinCons` | function_app.py:75 | joining is also left to right: the first part, the separator, then the rest joined |
| `Text.JoinEmpty` | function_app.py:75 | with a non-empty separator, the join is empty iff there are no parts or one empty part |
| `Text.LastIndexOf` | function_app.py:75 | reference for `SplitJoin`, the inverse of the join (the source never splits): the index of the last separator: no separator after it, and -1 iff there is none |
| `Text.Split` | function_app.py:75 | reference inverse of the join, used by `SplitJoin` (the source never splits): splitting gives at least one piece and no piece contains the separator |
| `Text.SplitAtLast` | function_app.py:75 | the text after the last separator is split off as the final piece |
| `Text.SplitJoin` | function_app.py:75 | splitting the `;`-joined history on `;` recovers the turns' texts when none contains `;` |
| `Store.Matching` | function_app.py:72-74 | the exact-match query returns exactly the turns with that conversation id |
| `Store.MatchingAppend` | function_app.py:72-74 | the query distributes over concatenation, so it keeps store (insertion) order |
| `Store.AppendExtendsHistory` | function_app.py:70-97 | saving a turn appends its text to that conversation's history, after `;` when there were earlier turns |
| `Store.AppendKeepsOtherHistory` | function_app.py:70-97 | saving a turn leaves every other conversation's history unchanged |
| `Store.HistoryEmpty` | function_app.py:75-82 | the joined history is empty iff there is no matching turn, or exactly one with empty text |
| `Store.HistoryEmptyIffNoTurn` | function_app.py:75-97 | in a store whose texts are all non-empty, the history is empty iff the conversation has no turn |
| `Store.Container.constructor` | function_app.py:48-50 | a container with the given turns (ids distinct) and the given failures |
| `Store.Container.QueryItems` | function_app.py:72-79 | fails with the read failure's cause, or returns exactly the conversation's turns, whose `;`-join is its history |
| `Store.Container.CreateItem` | function_app.py:91-101 | fails with the write failure's cause and stores nothing, or appends the item after the existing turns; ids stay unique |
| `Intent.AnalyzeIntent` | function_app.py:189 | without content the new message is returned unchanged; with content the result is stripped and lower-cased |
| `Intent.AnalyzeIntentIdempotent` | function_app.py:189 | resolving an already resolved query changes nothing |
| `Intent.ChooseQuery` | function_app.py:82-85 | empty history gives the new message verbatim; otherwise the normalised completion content, or the new message when there is none |
| `Search.Endpoint` | function_app.py:104 | the URL begins with the base URL and ends with the API version |
| `Search.EndpointIndexRoundTrip` | function_app.py:104 | the index read back from the URL after the base is the requested index, when its name has no `/` |
| `Search.HeadersShape` | function_app.py:125-128 | headers carry JSON content type and the API key |
| `Search.VectorQueryShape` | function_app.py:113-117 | the vector query has kind "text", the search query as its text, and the caller's fields |
| `Search.PayloadShape` | function_app.py:109-123 | payload has exactly seven keys. `search` is the query and `count` is true. `vectorQueries` is the one vector query. `queryType` is "semantic", `semanticConfiguration` is the caller's, `captions` is "extractive" and `answers` is "extractive\|count-3" |
| `Search.StripInternalKeys` | function_app.py:146-152 | a cleaned document's keys are the original keys minus the four internal ones |
| `Search.StripInternalValues` | function_app.py:146-152 | every non-internal key keeps its value; missing internal keys are not an error |
| `Search.StripInternalOrder` | function_app.py:146-152 | the kept fields keep their order, and a dict stays a dict |
| `Search.StripInternalClean` | function_app.py:146-152 | a document without internal keys is left unchanged |
| `Search.StripInternalIdempotent` | function_app.py:146-152 | cleaning a document twice is cleaning it once |
| `Search.CleanedHasNoInternalKey` | function_app.py:143-153 | no output document holds `@search.score`, `@search.rerankerScore`, `chunk_id` or `parent_id` |
| `Search.CleanedIdempotent` | function_app.py:143-153 | sanitising twice gives the same list as sanitising once |
| `Search.CleanedExample` | function_app.py:143-157 | a hit with a score, a chunk id and a title comes out with only its title |
| `Search.Sanitize` | function_app.py:143-153 | the loop yields, in order and one for one, each raw document with the internal keys popped |
| `Handler.ReadHistory` | function_app.py:69-79 | a read happens only for a named conversation; the result is its read failure or its joined history, and "" with no read otherwise |
| `Handler.SaveTurn` | function_app.py:89-101 | exactly one turn with the fresh id is appended iff conversation and message are non-empty and the write does not fail; otherwise the store is unchanged |
| `Handler.RunSearch` | function_app.py:103-157 | an empty query gives 200 with no results and no call. Otherwise there is one POST of the built request, then 500 with the cause or 200 with the sanitised `value` |
| `Handler.HandleRequest` | function_app.py:66-164 | the whole policy after decoding: a missing index is a 400 that touches nothing; a failed read stops before anything else; a failed save stops before the search. Otherwise the turn stays saved whatever the search does. The call log is read, resolve, save, search, each only when its condition holds. Stored texts stay non-empty |
| `Handler.AiSearchHistory` | function_app.py:53-164 | a body that does not decode is a 400 that touches nothing; otherwise the body's fields are read with `get` and the request is handled as `HandleRequest` states |
| `Handler.HandledSaves` | function_app.py:69-101 | with a working store, a request naming an index, a conversation and a message always stores its turn, and its read, resolve and save calls come first, in that order |
| `Handler.SavedTurnInNextHistory` | function_app.py:70-97 | the turn one request saves ends the history the next request for that conversation reads |
| `Handler.FirstTurnScenario` | function_app.py:53-164 | first turn "hi" of "c1" on an empty store: reads "c1", calls no resolver, stores `(id, "c1", "hi")`, searches index "idx" for "hi", and answers with the search's outcome |
| `Handler.SaveFailureScenario` | function_app.py:89-101 | the same request when the insert fails with "boom": 500 with the save-error message, no search call, and nothing stored |
| `Handler.SecondTurnCalls` | function_app.py:69-101 | a second request for "c1" against the stored turn "hello": read, then the resolver on "hello" and "hi", then the save; the new turn is stored after the old one |
| `Handler.SecondTurnScenario` | function_app.py:53-164 | the same second turn run through the handler against a container holding "hello" |

## Left out

- HTTP routing, `HttpResponse` framing, JSON serialisation of the reply and logging: the response is the `Response` datatype, with status 400, 500 or 200.
- Environment and `.env` configuration, and client construction: base URL, API version, API key and the capabilities are fields of `Services`.
- `req.get_json()` itself: the body is given already decoded, as `Option<Doc>`, and `None` stands for a body that does not decode. A JSON body that is not an object is not modelled.
- Handler.StringField: reads a non-string value under `conversation_id`, `conversation` or `index_to_search` as absent, because the Python truthiness and string formatting of numbers, lists and objects there are not modelled.
- The Cosmos SQL text and its string interpolation: the query is an exact-match filter over the stored turns, and the injection risk is not modelled. Cosmos's own handling of ids is not modelled either. A fresh id is a parameter that the handler requires not to be in the store; it stands for `uuid.uuid4()`.
- The chat-completion call: the prompt text, `FunctionChoiceBehavior.Auto()` and `asyncio.run` are not modelled. The completion is an uninterpreted function of the history and the message. An exception from it, or an answer whose `content` is `None`, is not caught by the handler and is not modelled.
- `requests.post`, `raise_for_status` and `response.json()`: the search is an uninterpreted function that yields the reply's `value` list or a failure cause. Exceptions other than `RequestException`, and a `value` that is not a list of objects, are not modelled.
- Text.Strip: models Python's whitespace in the ASCII range only, because Unicode whitespace is not modelled.
- Text.Lower: lower-cases ASCII letters only, because Unicode case mapping is not modelled.
- Search.Sanitize: the source pops keys from the reply's dicts in place; the model builds new documents, and the raw reply is not used afterwards.
- Concurrency across requests is left to the hosting runtime. One request's steps are modelled in sequence against one container.
- JSON numbers are modelled as reals. Floating-point behaviour is not modelled.
