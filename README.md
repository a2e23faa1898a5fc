# Plant identification app: history store and API route decisions

This project models the parts of the plant-identification web app that carry
logic of their own:

- the client-side **history store** (`useHistoryStore`): an ordered list of
  past identifications, newest first, with `addHistoryItem` (prepend a copy
  stamped with an id and a display timestamp), `removeHistoryItem` (drop every
  item with a given id) and `clearHistory`. It is a class `HistoryStore` whose
  field `history` each method replaces, as the store's `set` does. The new
  values are computed by pure functions (`Added`, `WithoutId`), and the lemmas
  about those functions carry the properties: order, membership, multiplicity,
  "nothing else changes", idempotence, and when ids stay unique;
- the two **HTTP route handlers** `POST /api/identify-plant` and
  `POST /api/answer-question`. Each is a pure function from the outcome of
  `request.json()`, the `GEMINI_API_KEY` credential and the provider to an
  `Exchange`. An `Exchange` holds the response sent and the input the provider
  was called with, if it was called. Their contracts state the fixed decision
  order: 400 for missing input, then 500 "API configuration error", then the
  provider's result verbatim, with anything thrown mapped to the handler's 500.

JavaScript semantics are spelled out where the handlers depend on them
(`js_values.dfy`). Truthiness covers `undefined`, `null`, `false`, `0` and `""`.
Destructuring a `null` body throws a `TypeError`; its message is the
engine's, so it is a parameter of the handlers. The catch clause's `details`
is `error.message` for an `Error` and "Unknown error" otherwise.

Three behaviours of the code worth stating:

- Remove deletes *every* item with the id (it is a `filter`), not just the
  first. `WithoutIdCount` and `SameTickAdds` state this.
- Ids are not guaranteed unique. The id is the ISO clock reading, so two adds
  in the same millisecond share an id. `UniqueIdsPreserved` shows that
  uniqueness survives an add exactly when the clock reading is new.
  `SameTickAdds` shows that otherwise a later remove deletes both items.
- An *empty request text* is not a 400. `request.json()` throws, so the
  answer is 500 "Failed to identify plant". An empty JSON object `{}` gets
  the 400 (`IdentifyRoute.EmptyBodies`). A `null` body is also a 500, because
  destructuring it throws.

## Model

| member | source | states |
|---|---|---|
| History.HistoryStore.constructor | src/store/history.ts:22 | the store starts with the empty history |
| History.HistoryStore.AddHistoryItem | src/store/history.ts:23-33 | the new history is the old one with the stamped entry in front: one longer, new item at index 0 carrying the caller's fields, the clock readings as id and timestamp, and the old history unchanged from index 1 |
| History.HistoryStore.RemoveHistoryItem | src/store/history.ts:34-37 | the new history is the filtered old one: exactly the old items with a different id, in their old relative order, shorter by the number of items with that id, and unchanged when no item has that id |
| History.HistoryStore.ClearHistory | src/store/history.ts:38 | the history is empty afterwards, whatever it held |
| History.Stamp | src/store/history.ts:26-30 | the stamped item carries exactly the caller's entry, with the given id and timestamp |
| History.StampKeepsEntry | src/store/history.ts:26-30 | stamping keeps every caller-supplied field and sets only id and timestamp; stamping and unstamping are inverse |
| History.Added | src/store/history.ts:25-32 | add yields a history one longer whose head is the stamped entry and whose tail is the old history |
| History.WithoutId | src/store/history.ts:36 | remove never lengthens the history; an item is kept iff it was there and has a different id; a history with no such id comes back unchanged |
| History.WithoutIdAppend | src/store/history.ts:36 | remove acts on the two halves of a history independently, so kept items keep their order |
| History.WithoutIdSubsequence | src/store/history.ts:36 | the result of remove is a subsequence of the old history (same relative order) |
| History.WithoutIdCount | src/store/history.ts:36 | remove drops every item with the id, not only the first: the length falls by their count and none is left |
| History.WithoutIdMultiset | src/store/history.ts:36 | every item with a different id keeps its multiplicity; items with the id drop to zero |
| History.WithoutIdIdempotent | src/store/history.ts:36 | removing an id twice equals removing it once |
| History.WithoutAbsentId | src/store/history.ts:36 | removing an id that no item carries leaves the history unchanged |
| History.WithoutIdUnique | src/store/history.ts:36 | remove keeps the ids of a history unique |
| History.RemoveAfterAdd | src/store/history.ts:23-37 | removing the id just assigned undoes the add, and gives back the old history if and only if that id was new |
| History.UniqueIdsPreserved | src/store/history.ts:23-37 | on a history with unique ids, add keeps them unique iff the ISO clock reading is not already an id; remove always keeps them unique |
| History.SameTickAdds | src/store/history.ts:28 | two adds with the same ISO clock reading give duplicate ids, and removing that id deletes both items |
| History.TwoAdds | src/store/history.ts:23-33 | two adds to an empty history give two items, newest first, with distinct ids iff the two clock readings differ |
| JsValues.Property | src/app/api/identify-plant/route.ts:6-7 | destructuring a property throws iff the body is null (a TypeError carrying the engine's message), and otherwise yields the value stored under the key when the body is an object holding it, undefined in every other case |
| Http.Readable | src/app/api/identify-plant/route.ts:6-7 | definition: the body parsed as JSON and is not null, so destructuring it does not throw |
| JsValues.Truthy | src/app/api/identify-plant/route.ts:9 | definition of the `!x` test: undefined, null, false, 0 and the empty string are falsy, everything else truthy |
| JsValues.FalsyValues | src/app/api/answer-question/route.ts:9 | a value is falsy exactly when it is one of undefined, null, false, 0 and the empty string |
| JsValues.Details | src/app/api/identify-plant/route.ts:30 | definition of the `details` field: an Error's message, otherwise "Unknown error" |
| Http.KeyConfigured | src/app/api/identify-plant/route.ts:17 | definition of the credential test: the key is set and not the empty string |
| Http.ConfigurationError | src/app/api/identify-plant/route.ts:19-22 | definition of the configuration-error response: status 500, "API configuration error", no details |
| Http.Caught | src/app/api/identify-plant/route.ts:27-32 | definition of the catch clause's response: status 500, the handler's message, the thrown value's details |
| Http.Success | src/app/api/identify-plant/route.ts:26 | definition of the success response: status 200 with the provider's result as the body |
| IdentifyRoute.Photo | src/app/api/identify-plant/route.ts:7 | the photoDataUri read from a readable body is the value stored under that key, or undefined when the body is not an object holding it |
| IdentifyRoute.PhotoGiven | src/app/api/identify-plant/route.ts:9 | definition of the input check: the body is readable and its photoDataUri is truthy |
| IdentifyRoute.Post | src/app/api/identify-plant/route.ts:4-34 | the provider is called iff the photo is truthy and the key is set, with the body's value unchanged; a falsy photo gives 400 "Photo data URI is required"; a photo without key gives 500 "API configuration error"; status 200 iff the provider returned, with its result verbatim; parse errors, a null body and provider errors give 500 "Failed to identify plant" with the error's details; no other status occurs |
| IdentifyRoute.InputCheckFirst | src/app/api/identify-plant/route.ts:9-23 | with a falsy photo the 400 is returned whatever the key and the provider, and the provider is not called |
| IdentifyRoute.KeyCheckBeforeProvider | src/app/api/identify-plant/route.ts:17-26 | with a photo and no key the configuration error is returned whatever the provider, and the provider is not called |
| IdentifyRoute.EmptyBodies | src/app/api/identify-plant/route.ts:6-14 | an empty JSON object gets 400 without a provider call; a request text that fails to parse gets 500 "Failed to identify plant" with the parser's message |
| AnswerRoute.Fields | src/app/api/answer-question/route.ts:7 | each of the five destructured fields is the value stored under its key in the JSON object, or undefined when the body does not hold it |
| AnswerRoute.RequiredGiven | src/app/api/answer-question/route.ts:9 | definition of the input check: the body is readable and both plantName and question are truthy |
| AnswerRoute.Post | src/app/api/answer-question/route.ts:4-41 | the provider is called iff plantName and question are truthy and the key is set, with exactly the five destructured fields; a falsy plantName or question gives 400 "Plant name and question are required"; no key gives 500 "API configuration error"; status 200 iff the provider returned, with its result verbatim; anything thrown gives 500 "Failed to answer question" with details; no other status occurs |
| AnswerRoute.OptionalFieldsNotValidated | src/app/api/answer-question/route.ts:7-9 | adding or changing organName, speciesName or plantHealth never changes whether the request is a 400 or whether the provider is called |
| AnswerRoute.InputCheckFirst | src/app/api/answer-question/route.ts:9-23 | a falsy plantName or question gives the 400 whatever the key and the provider, and the provider is not called |
| AnswerRoute.KeyCheckBeforeProvider | src/app/api/answer-question/route.ts:17-31 | with both required fields and no key the configuration error is returned whatever the provider, and the provider is not called |
| AnswerRoute.MissingQuestion | src/app/api/answer-question/route.ts:9-14 | an object body without a question gets the 400 and no provider call |

## Left out

- Persistence of the history through `persist`/`createJSONStorage` into
  `localStorage` under the name `plant-history` (src/store/history.ts:40-43).
  This is library serialisation and browser I/O.
- The clock. `new Date().toISOString()` and `new Date().toLocaleString()` are
  the parameters `isoNow` and `localeNow` of `AddHistoryItem`. The model does
  not assume that successive readings differ.
- `request.json()` is an input: the parsed JSON value, or the error it
  throws. `NextResponse` becomes the `Response` datatype. `process.env` is the
  `apiKey` parameter. `console.error` is logging and is not modelled.
- The two AI flows (src/ai/flows/identify-plant-from-image.ts,
  src/ai/flows/answer-questions-about-plant.ts) are prompt and schema
  configuration for an external model. Each is modelled as a provider function
  from its input to an outcome: a returned record or a thrown value. That
  includes their schema validation of the forwarded input. The identification
  record is a plain datatype that nothing in the core inspects.
- The text of the `TypeError` thrown when destructuring a `null` body comes
  from the JavaScript engine and the build, not from the code. The handlers
  take it as the parameter `typeError`, and their contracts say only that it
  reaches the `details` field of the 500.
- JsValues.Property: models own properties of JSON objects only. Prototype
  properties such as `toString`, and `length` of arrays and strings, are not
  modelled because the handlers read none of those names.
- Firebase initialisation, the pages, layouts and navigation components. These
  are UI and third-party SDK code with no logic to state.
