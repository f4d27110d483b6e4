# Survey answers server — a Dafny model

A model of the request handling at the heart of a small survey HTTP service.
The service serves a fixed list of questions. It accepts submitted answers,
appends each submission as an entry to a JSON file, and lists the stored
entries back. Everything lives in `server.js`. The model covers three pieces
of it:

- `handleRequest`: the routing table, the POST error order, the
  normalisation of submitted answers and the append to the store
  (`Handler.HandleRequest`). Its POST branch is also written step by step as
  `Handler.Server.Handle`: read the store, push the entry, write the store
  back. That method is proved equal to the function.
- `readAnswers`: reading the store. Anything other than a readable file that
  parses to an array reads as the empty store (`Storage.ReadAnswers`).
- `resolveAnswersPath`: choosing the store's location. The candidates are
  the caller's path, the `ANSWERS_PATH` environment variable and the default
  data file, in that order; falsy ones are dropped. The first one whose
  directory passes the writability probe is chosen, else a file in the temp
  directory (`PathResolver.ResolveAnswersPath`, a loop proved against
  `PathResolver.FirstUsable`).

Files:

- `jsvalues.dfy` — module `JsValues`. JSON values and the bits of JavaScript
  the handler applies to them: truthiness, `typeof`, `Array.isArray`, `?.` and `??`.
- `storage.dfy` — module `Storage`: the store file, `readAnswers` and `saveAnswers`.
- `pathresolver.dfy` — module `PathResolver`: `resolveAnswersPath`.
- `handler.dfy` — module `Handler`: routing, validation, normalisation, `handleRequest` and the `Server` class.
- `handlerproperties.dfy` — module `HandlerProperties`: lemmas over `handleRequest`.

Inputs:

- `JSON.parse` and `JSON.stringify` are a `Codec` value of two functions.
  Reading back a written store needs the written array to survive
  stringify-then-parse. This is asked as `ReadsBack(codec, v)` for that one
  array `v`, never for every value, because numbers are printed with finite
  precision.
- The request is given as its method, its pathname and its complete body.
- The new entry's UUID and timestamp are a `Stamp` input.
- How the write of the store ends is a `SaveOutcome` input.
- The store file is a `FileState`: either unreadable, or some text.
- `path.dirname` and `ensureWritableDirectory` are functions in the `Host` value.
- `process.env.ANSWERS_PATH` is an optional string field of `Host`.

## Model

| member | source | states |
|---|---|---|
| `Storage.ReadAnswers` | server.js:12-20 | A non-empty result only comes from a readable file whose text parses to exactly that array. |
| `Storage.ReadsStoredArray` | server.js:12-20 | A file whose text parses to an array reads as that array, element for element. |
| `Storage.RecoversToEmpty` | server.js:12-20 | A missing or unreadable file reads as the empty store. So do text that fails to parse and text that parses to a non-array. |
| `Storage.Saved` | server.js:22-28 | `saveAnswers` leaves a readable file. `readAnswers` returns exactly the entries written if and only if the written array survives stringify-then-parse (for a non-empty store). |
| `PathResolver.CandidateList` | server.js:55-59 | The list is the explicit path, then `ANSWERS_PATH`, then the default. The default is pushed unless `useDefaultPath` is exactly `false`. |
| `PathResolver.Present` | server.js:61 | `filter(Boolean)` keeps exactly the defined, non-empty candidates and never lengthens the list. |
| `PathResolver.FirstUsable` | server.js:63-72 | The result is the first candidate whose directory passes the probe, with every earlier one failing it. If none passes, the result is the fallback. |
| `PathResolver.ResolveAnswersPath` | server.js:52-73 | The loop with its early return yields the first usable candidate of the filtered list, else the fallback. |
| `PathResolver.CandidateOrder` | server.js:55-61 | The probed list is the explicit path, then `ANSWERS_PATH`, then the default, each kept only when truthy. The default is omitted only when `useDefaultPath` is exactly `false`. |
| `PathResolver.ResolvedIsCandidateOrFallback` | server.js:52-73 | The resolved path is the fallback or one of the truthy candidates. It is never an empty or undefined candidate. |
| `PathResolver.DefaultIsCandidateUnlessFalse` | server.js:57-61 | The default path is among the candidates, probed in order, exactly when `useDefaultPath` is not `false`, or when it is also the explicit or environment path. Being a candidate does not mean it is probed: an earlier candidate that passes ends the search. |
| `Handler.RouteOf` | server.js:79-155 | OPTIONS is matched first, on any path. GET with `/api/questions[/]`, `/api/answers[/]`, `/` or `/index.html` selects that route. POST with `/api/answers[/]` submits. Every other pair gets 404. Each route is given as an if-and-only-if. |
| `Handler.ParseBody` | server.js:112-117 | A non-empty body gives exactly what `JSON.parse` gives for it, so it fails to parse exactly when `JSON.parse` throws. An empty body is `{}`, which has no `answers` object. |
| `Handler.AnswersPayload` | server.js:119-128 | The JavaScript shape check accepts a body exactly when it is an object whose `answers` property is an object that is not null and not an array. It then yields that object's properties. |
| `Handler.Lookup` | server.js:133 | `answers[id] ?? null` is the submitted value when the key is present, falsy values included, and null when the key is absent. |
| `Handler.Normalize` | server.js:131-134 | There is exactly one response per question. |
| `Handler.NormalizedAt` | server.js:131-134 | The i-th response has `questionId` equal to the i-th question's id. Its `response` is the submitted value, or null when that id was not submitted. |
| `Handler.NormalizeDropsUnknownKeys` | server.js:131-134 | Adding, changing or removing a key that is no question's id leaves the responses unchanged. |
| `Handler.EntryJson` | server.js:137-141 | The entry has exactly the keys `id`, `submittedAt` and `responses`. They hold the stamp's id, the stamp's time and the normalised responses. |
| `Handler.Submit` | server.js:111-150 | The POST branch answers 201, 400 or 500. It gives 400 exactly when the body fails to parse or fails the shape check, and the store is then unchanged. It gives 201 exactly when the body is valid and the write succeeds. It gives 500 when the write throws, and the file is then what the failed write left. |
| `Handler.HandleRequest` | server.js:75-156 | Every response is 200, 201, 204, 400, 404 or 500. The status is 204 exactly for OPTIONS and 404 exactly for pairs outside the table. It is 201, 400 or 500 exactly for POST to the answers route, which is also the only request that can change the file. |
| `Handler.Server.constructor` | server.js:158-161 | The server holds the questions, the page, the codec and the store file it was started with. Every question's served object carries that question's id (`Valid`), which `Handle` requires. |
| `Handler.Server.Handle` | server.js:75-156 | Handling a request, with the store read, the entry pushed and the store written back in place, gives the same response and the same new file as `HandleRequest`. On a 201 the entry's `questionId`s are, in order, the `id`s of the question objects the server lists. |
| `HandlerProperties.PreflightOnAnyPath` | server.js:79-86 | OPTIONS on any path gets 204 with no body, and the store is unchanged. |
| `HandlerProperties.UnknownRouteIsNotFound` | server.js:155 | Every method/path pair outside the table gets 404 `{error: "Not found"}`, and the store is unchanged. |
| `HandlerProperties.OnlySubmitChangesStore` | server.js:79-155 | Every request other than a POST to the answers route leaves the store file as it was. |
| `HandlerProperties.GetQuestionsServesList` | server.js:88-90 | GET `/api/questions[/]` gets 200 with `questions` listing every question's object, in order. |
| `HandlerProperties.GetPageServesHtml` | server.js:97-102 | GET `/` or `/index.html` gets 200 with the page verbatim. |
| `HandlerProperties.GetAnswersReadsStore` | server.js:92-95 | GET `/api/answers[/]` gets 200 `{answers: readAnswers(store)}`, and the store is unchanged. |
| `HandlerProperties.GetAnswersIdempotent` | server.js:92-95 | Two GETs of the answers with nothing in between give identical results. |
| `HandlerProperties.InvalidJsonRejected` | server.js:113-117 | A non-empty body that fails to parse gets 400 `{error: "Invalid JSON body"}`, and the store is unchanged. |
| `HandlerProperties.EmptyBodyFailsShapeCheck` | server.js:114-128 | An empty body is read as `{}`. It gets the 400 shape error, never the parse error. |
| `HandlerProperties.WrongShapeRejected` | server.js:119-128 | A parsed body that is not an object with an object-valued `answers` gets the 400 shape error, and the store is unchanged. |
| `HandlerProperties.SubmitAppendsEntry` | server.js:130-146 | A valid POST whose write succeeds gets 201 `{message: "Answers saved", entry}`. The file written is the old store followed by that one entry. The entry's responses follow the questions' order and count. |
| `HandlerProperties.SaveFailureReported` | server.js:147-149 | A valid POST whose write throws gets 500 `{error: "Failed to save answers"}`. |
| `HandlerProperties.SubmitThenList` | server.js:92-146 | After a successful POST, GET lists the earlier entries unchanged followed by exactly the new entry, one more than before. The only premise is that the array written survives stringify-then-parse. |
| `HandlerProperties.ListedIdsAreStoredIds` | server.js:88-134 | When each served question object carries its id, the ids GET `/api/questions` lists match, position by position, the `questionId`s a successful POST stores. |
| `HandlerProperties.WorkedExample` | server.js:104-146 | With questions `role` and `notes`, an empty store and the body `{"answers":{"role":"vet"}}`, the POST gets 201. The responses are `role: "vet"` and `notes: null`, and the store then holds just that entry, given that this entry survives stringify-then-parse. |

## Left out

- The HTTP server, body streaming and URL parsing (`http.createServer`, `listen`, `req.on('data'/'end')`, `new URL`) are not modelled. The handler receives the method, the pathname and the complete body.
- Response headers are constant literals and are not modelled. This covers the CORS headers and the content types. So is the `JSON.stringify` of response payloads.
- The real filesystem is not modelled. The store file is a value, and `saveAnswers` either writes the stringified array or fails. After a failed write the file is whatever the `SaveFailed` outcome says, so no claim is made about partial writes.
- `ensureWritableDirectory` is a pure oracle on the directory name. Its side effects are not modelled: creating directories and the probe file could make a later probe succeed. The final best-effort probe of the fallback directory, whose result is ignored, is also not modelled.
- `resolveAnswersPath` only takes string or undefined values for `options.answersPath`. A truthy non-string would make `path.dirname` throw.
- `JSON.parse`/`JSON.stringify` internals, number precision and object key order are not modelled. Numbers are reals, and objects are maps.
- Loading `questions.json` and `index.html` at startup is not modelled. The questions and the page are constructor inputs. So is the claim that the question list contains `role` and `anything_else`, which is a fact of the data file.
- `randomUUID` and `Date.toISOString` are not modelled; they are the `Stamp` input.
- Concurrent POSTs and their read-modify-write race are not modelled, since every request is handled on its own.
- `api/answers.js` and `api/questions.js` are not part of this model. They only pick a store path and call `handleRequest`.
- `Handler.Lookup`: question ids that name inherited `Object.prototype` properties are not modelled. For ids such as `constructor`, `answers[id]` finds the inherited property in JavaScript, while the model finds nothing and gives null.
- `Handler.Server.constructor` and `Handler.Server.Handle` require every question's served object to carry the question's id as its `id` property. The source assumes this of `questions.json` and never checks it. The pure `HandleRequest` makes no such assumption; `ListedIdsAreStoredIds` states the link under it.
