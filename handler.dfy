/**
  `handleRequest`: one HTTP request against the survey server. The routing
  table is fixed; OPTIONS is answered before any route is looked at; a POST
  to the answers route parses its body, checks its shape, normalises the
  submitted answers against the question list and appends one entry to the
  store.

  The complete body, the entry's id and timestamp, and the outcome of the
  write are inputs; `JSON.parse`/`JSON.stringify` are the `Codec`.
*/
module Handler {
  import opened JsValues
  import opened Storage

  /** A survey question as loaded at startup: its id and the object served
      for it by `GET /api/questions`. */
  datatype Question = Question(id: string, document: Json)

  /** The served object carries the question's id as its `id` property: the
      handler reads `question.id` from the very objects it lists. */
  predicate IdListed(q: Question)
  {
    Member(q.document, "id") == Some(JString(q.id))
  }

  /** The parts of a request the handler looks at; `body` is the whole body. */
  datatype Request = Request(verb: string, pathname: string, body: string)

  /** `randomUUID()` and `new Date().toISOString()` for the new entry. */
  datatype Stamp = Stamp(id: string, submittedAt: string)

  /** How `saveAnswers` ends: it returns, or it throws and leaves the file in
      a state the model does not predict. */
  datatype SaveOutcome = SaveSucceeded | SaveFailed(leftBehind: FileState)

  datatype Body = NoBody | JsonBody(payload: Json) | HtmlBody(html: string)

  datatype Response = Response(status: int, body: Body)

  /** The response sent and the store file afterwards. */
  datatype Handled = Handled(response: Response, file: FileState)

  datatype Route = Preflight | ListQuestions | ListAnswers | ServePage | SubmitAnswers | NotFound

  const QuestionsPaths: set<string> := {"/api/questions", "/api/questions/"}
  const AnswersPaths: set<string> := {"/api/answers", "/api/answers/"}
  const PagePaths: set<string> := {"/", "/index.html"}

  const NotFoundMessage: string := "Not found"
  const InvalidJsonMessage: string := "Invalid JSON body"
  const ShapeMessage: string := "Request body must include an \"answers\" object"
  const SaveFailedMessage: string := "Failed to save answers"
  const SavedMessage: string := "Answers saved"

  /** The route taken for a method and pathname, tried in the handler's
      order: OPTIONS first, then exact paths (a trailing slash allowed on the
      API paths), then 404. */
  function RouteOf(verb: string, pathname: string): (r: Route)
    ensures r == Preflight <==> verb == "OPTIONS"
    ensures r == ListQuestions <==> verb == "GET" && pathname in QuestionsPaths
    ensures r == ListAnswers <==> verb == "GET" && pathname in AnswersPaths
    ensures r == ServePage <==> verb == "GET" && pathname in PagePaths
    ensures r == SubmitAnswers <==> verb == "POST" && pathname in AnswersPaths
    ensures r == NotFound <==>
      && verb != "OPTIONS"
      && !(verb == "GET" && pathname in QuestionsPaths + AnswersPaths + PagePaths)
      && !(verb == "POST" && pathname in AnswersPaths)
  {
    if verb == "OPTIONS" then Preflight
    else if (pathname == "/api/questions" || pathname == "/api/questions/") && verb == "GET" then ListQuestions
    else if (pathname == "/api/answers" || pathname == "/api/answers/") && verb == "GET" then ListAnswers
    else if (pathname == "/" || pathname == "/index.html") && verb == "GET" then ServePage
    else if (pathname == "/api/answers" || pathname == "/api/answers/") && verb == "POST" then SubmitAnswers
    else NotFound
  }

  /** `{ error: message }` */
  function ErrorPayload(message: string): Json
  {
    Object1("error", JString(message))
  }

  /** `body ? JSON.parse(body) : {}`: an empty body counts as an empty object. */
  function ParseBody(body: string, codec: Codec): (parsed: Parsed)
    ensures parsed == Invalid <==> body != "" && codec.parse(body) == Invalid
    ensures body != "" ==> parsed == codec.parse(body)
    ensures body == "" ==> parsed == Value(JObject(map[])) && AnswersPayload(parsed.value) == None
  {
    if body != "" then codec.parse(body) else Value(JObject(map[]))
  }

  /** The shape check on a parsed body, written as the handler's JavaScript
      condition; it accepts exactly the objects whose `answers` property is a
      (non-null, non-array) object, and yields that object's properties. */
  function AnswersPayload(parsed: Json): (answers: Option<map<string, Json>>)
    ensures answers.Some? <==>
      parsed.JObject? && "answers" in parsed.fields && parsed.fields["answers"].JObject?
    ensures answers.Some? ==> answers.value == parsed.fields["answers"].fields
  {
    var payload := Member(parsed, "answers");
    if || !Truthy(parsed)
       || payload == Some(JNull)
       || TypeOf(payload) != "object"
       || IsArray(payload)
    then None
    else Some(payload.value.fields)
  }

  /** `answers[key] ?? null` */
  function Lookup(answers: map<string, Json>, key: string): (v: Json)
    ensures key in answers ==> v == answers[key]
    ensures key !in answers ==> v == JNull
  {
    OrNull(Member(JObject(answers), key))
  }

  /** `{ questionId: question.id, response: answers[question.id] ?? null }` */
  function ResponseFor(question: Question, answers: map<string, Json>): Json
  {
    JObject(map["questionId" := JString(question.id), "response" := Lookup(answers, question.id)])
  }

  /** `questions.map(...)`: one response object per question. */
  function Normalize(questions: seq<Question>, answers: map<string, Json>): (responses: seq<Json>)
    ensures |responses| == |questions|
  {
    if questions == [] then []
    else [ResponseFor(questions[0], answers)] + Normalize(questions[1..], answers)
  }

  /** The i-th response names the i-th question and carries the submitted
      value for its id, or null when the id was not submitted; falsy values
      such as `0`, `""` and `false` are kept. */
  lemma {:induction false} NormalizedAt(questions: seq<Question>, answers: map<string, Json>, i: nat)
    requires i < |questions|
    ensures Normalize(questions, answers)[i]
         == JObject(map["questionId" := JString(questions[i].id),
                        "response" := if questions[i].id in answers then answers[questions[i].id] else JNull])
  {
    if i > 0 {
      NormalizedAt(questions[1..], answers, i - 1);
    }
  }

  /** Submitted keys that are no question's id do not affect the responses. */
  lemma {:induction false} NormalizeDropsUnknownKeys(questions: seq<Question>, answers: map<string, Json>,
                                                     key: string, v: Json)
    requires forall i :: 0 <= i < |questions| ==> questions[i].id != key
    ensures Normalize(questions, answers[key := v]) == Normalize(questions, answers)
    ensures Normalize(questions, answers - {key}) == Normalize(questions, answers)
  {
    if questions != [] {
      NormalizeDropsUnknownKeys(questions[1..], answers, key, v);
    }
  }

  /** `{ id, submittedAt, responses }` */
  function EntryJson(stamp: Stamp, responses: seq<Json>): (entry: Json)
    ensures Member(entry, "id") == Some(JString(stamp.id))
    ensures Member(entry, "submittedAt") == Some(JString(stamp.submittedAt))
    ensures Member(entry, "responses") == Some(JArray(responses))
    ensures entry.JObject? && entry.fields.Keys == {"id", "submittedAt", "responses"}
  {
    JObject(map["id" := JString(stamp.id),
                "submittedAt" := JString(stamp.submittedAt),
                "responses" := JArray(responses)])
  }

  function QuestionDocuments(questions: seq<Question>): seq<Json>
  {
    seq(|questions|, i requires 0 <= i < |questions| => questions[i].document)
  }

  /** The POST branch, from the complete body on. */
  function Submit(body: string, questions: seq<Question>, file: FileState, codec: Codec,
                  stamp: Stamp, save: SaveOutcome): (h: Handled)
    ensures h.response.status in {201, 400, 500}
    ensures h.response.status == 400 <==>
      ParseBody(body, codec).Invalid? || AnswersPayload(ParseBody(body, codec).value).None?
    ensures h.response.status == 201 <==> h.response.status != 400 && save.SaveSucceeded?
    ensures h.response.status == 400 ==> h.file == file
    ensures h.response.status == 500 ==> h.file == save.leftBehind
  {
    match ParseBody(body, codec)
    case Invalid => Handled(Response(400, JsonBody(ErrorPayload(InvalidJsonMessage))), file)
    case Value(parsed) =>
      match AnswersPayload(parsed)
      case None => Handled(Response(400, JsonBody(ErrorPayload(ShapeMessage))), file)
      case Some(answers) =>
        var entry := EntryJson(stamp, Normalize(questions, answers));
        var storedAnswers := ReadAnswers(file, codec) + [entry];
        match save
        case SaveSucceeded =>
          Handled(Response(201, JsonBody(JObject(map["message" := JString(SavedMessage), "entry" := entry]))),
                  Saved(storedAnswers, codec))
        case SaveFailed(leftBehind) =>
          Handled(Response(500, JsonBody(ErrorPayload(SaveFailedMessage))), leftBehind)
  }

  /** `handleRequest` for a request, the question list, the page, the store
      file, the JSON codec, the new entry's stamp and the write's outcome. */
  function HandleRequest(req: Request, questions: seq<Question>, page: string, file: FileState,
                         codec: Codec, stamp: Stamp, save: SaveOutcome): (h: Handled)
    ensures h.response.status in {200, 201, 204, 400, 404, 500}
    ensures h.response.status == 204 <==> req.verb == "OPTIONS"
    ensures h.response.status == 404 <==> RouteOf(req.verb, req.pathname) == NotFound
    ensures h.response.status in {201, 400, 500} <==> req.verb == "POST" && req.pathname in AnswersPaths
    ensures h.file != file ==> req.verb == "POST" && req.pathname in AnswersPaths
  {
    match RouteOf(req.verb, req.pathname)
    case Preflight => Handled(Response(204, NoBody), file)
    case ListQuestions => Handled(Response(200, JsonBody(Object1("questions", JArray(QuestionDocuments(questions))))), file)
    case ListAnswers => Handled(Response(200, JsonBody(Object1("answers", JArray(ReadAnswers(file, codec))))), file)
    case ServePage => Handled(Response(200, HtmlBody(page)), file)
    case SubmitAnswers => Submit(req.body, questions, file, codec, stamp, save)
    case NotFound => Handled(Response(404, JsonBody(ErrorPayload(NotFoundMessage))), file)
  }

  /** The entry's `questionId`s are, position by position, the `id`s of the
      question objects served by `GET /api/questions`. */
  predicate StoresListedIds(questions: seq<Question>, entry: Json)
  {
    && Member(entry, "responses").Some?
    && Member(entry, "responses").value.JArray?
    && var responses := Member(entry, "responses").value.items;
    && |responses| == |questions|
    && forall i :: 0 <= i < |questions| ==>
         Member(responses[i], "questionId") == Member(questions[i].document, "id")
  }

  /** The server: the question list and page loaded at startup, and the
      store file that POST requests rewrite. */
  class Server {
    const questions: seq<Question>
    const page: string
    const codec: Codec
    var file: FileState

    constructor (questions: seq<Question>, page: string, codec: Codec, file: FileState)
      requires forall i :: 0 <= i < |questions| ==> IdListed(questions[i])
      ensures Valid()
      ensures this.questions == questions && this.page == page
      ensures this.codec == codec && this.file == file
    {
      this.questions := questions;
      this.page := page;
      this.codec := codec;
      this.file := file;
    }

    /** Every question object served carries that question's id. */
    predicate Valid()
    {
      forall i :: 0 <= i < |questions| ==> IdListed(questions[i])
    }

    /** Handle one request; a successful POST reads the store, pushes the new
        entry and writes the whole store back. */
    method Handle(req: Request, stamp: Stamp, save: SaveOutcome) returns (response: Response)
      requires Valid()
      modifies this`file
      ensures Handled(response, file) == HandleRequest(req, questions, page, old(file), codec, stamp, save)
      ensures response.status == 201 ==>
        && response.body.JsonBody?
        && Member(response.body.payload, "entry").Some?
        && StoresListedIds(questions, Member(response.body.payload, "entry").value)
    {
      if RouteOf(req.verb, req.pathname) != SubmitAnswers {
        // every other route leaves the store alone
        response := HandleRequest(req, questions, page, file, codec, stamp, save).response;
        return;
      }
      var parsed := ParseBody(req.body, codec);
      if parsed.Invalid? {
        response := Response(400, JsonBody(ErrorPayload(InvalidJsonMessage)));
        return;
      }
      var answers := AnswersPayload(parsed.value);
      if answers.None? {
        response := Response(400, JsonBody(ErrorPayload(ShapeMessage)));
        return;
      }
      var normalizedResponses := Normalize(questions, answers.value);
      var storedAnswers := ReadAnswers(file, codec);
      var entry := EntryJson(stamp, normalizedResponses);
      forall i | 0 <= i < |questions|
        ensures Member(normalizedResponses[i], "questionId") == Member(questions[i].document, "id")
      {
        NormalizedAt(questions, answers.value, i);
      }
      storedAnswers := storedAnswers + [entry];
      match save {
        case SaveSucceeded =>
          file := Saved(storedAnswers, codec);
          response := Response(201, JsonBody(JObject(map["message" := JString(SavedMessage), "entry" := entry])));
        case SaveFailed(leftBehind) =>
          file := leftBehind;
          response := Response(500, JsonBody(ErrorPayload(SaveFailedMessage)));
      }
    }
  }
}
