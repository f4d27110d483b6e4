/**
  What `handleRequest` promises across the routing table, the POST error
  order and the store: stated over `HandleRequest` for every input.
*/
module HandlerProperties {
  import opened JsValues
  import opened Storage
  import opened Handler

  /** An OPTIONS request gets 204 with no body, whatever its path. */
  lemma PreflightOnAnyPath(req: Request, questions: seq<Question>, page: string, file: FileState,
                           codec: Codec, stamp: Stamp, save: SaveOutcome)
    requires req.verb == "OPTIONS"
    ensures HandleRequest(req, questions, page, file, codec, stamp, save) == Handled(Response(204, NoBody), file)
  {
  }

  /** Every method and path outside the routing table gets 404 `{error: "Not found"}`. */
  lemma UnknownRouteIsNotFound(req: Request, questions: seq<Question>, page: string, file: FileState,
                               codec: Codec, stamp: Stamp, save: SaveOutcome)
    requires req.verb != "OPTIONS"
    requires !(req.verb == "GET" && req.pathname in QuestionsPaths + AnswersPaths + PagePaths)
    requires !(req.verb == "POST" && req.pathname in AnswersPaths)
    ensures HandleRequest(req, questions, page, file, codec, stamp, save)
         == Handled(Response(404, JsonBody(Object1("error", JString("Not found")))), file)
  {
  }

  /** Only a POST to the answers route can change the store. */
  lemma OnlySubmitChangesStore(req: Request, questions: seq<Question>, page: string, file: FileState,
                               codec: Codec, stamp: Stamp, save: SaveOutcome)
    requires !(req.verb == "POST" && req.pathname in AnswersPaths)
    ensures HandleRequest(req, questions, page, file, codec, stamp, save).file == file
  {
  }

  /** GET on the questions route serves the question list. */
  lemma GetQuestionsServesList(req: Request, questions: seq<Question>, page: string, file: FileState,
                               codec: Codec, stamp: Stamp, save: SaveOutcome)
    requires req.verb == "GET" && req.pathname in QuestionsPaths
    ensures var h := HandleRequest(req, questions, page, file, codec, stamp, save);
      && h.response.status == 200
      && h.response.body.JsonBody?
      && Member(h.response.body.payload, "questions").Some?
      && var listed := Member(h.response.body.payload, "questions").value;
      && listed.JArray? && |listed.items| == |questions|
      && (forall i :: 0 <= i < |questions| ==> listed.items[i] == questions[i].document)
  {
  }

  /** GET on the page paths serves the page verbatim. */
  lemma GetPageServesHtml(req: Request, questions: seq<Question>, page: string, file: FileState,
                          codec: Codec, stamp: Stamp, save: SaveOutcome)
    requires req.verb == "GET" && req.pathname in PagePaths
    ensures HandleRequest(req, questions, page, file, codec, stamp, save) == Handled(Response(200, HtmlBody(page)), file)
  {
  }

  /** GET on the answers route returns what `readAnswers` reads and leaves the store alone. */
  lemma GetAnswersReadsStore(req: Request, questions: seq<Question>, page: string, file: FileState,
                             codec: Codec, stamp: Stamp, save: SaveOutcome)
    requires req.verb == "GET" && req.pathname in AnswersPaths
    ensures HandleRequest(req, questions, page, file, codec, stamp, save)
         == Handled(Response(200, JsonBody(Object1("answers", JArray(ReadAnswers(file, codec))))), file)
  {
  }

  /** Two reads with nothing in between give the same response. */
  lemma GetAnswersIdempotent(req: Request, questions: seq<Question>, page: string, file: FileState,
                             codec: Codec, stamp: Stamp, save: SaveOutcome, stamp': Stamp, save': SaveOutcome)
    requires req.verb == "GET" && req.pathname in AnswersPaths
    ensures var first := HandleRequest(req, questions, page, file, codec, stamp, save);
      HandleRequest(req, questions, page, first.file, codec, stamp', save') == first
  {
  }

  /** A non-empty body that does not parse gets 400 "Invalid JSON body". */
  lemma InvalidJsonRejected(req: Request, questions: seq<Question>, page: string, file: FileState,
                            codec: Codec, stamp: Stamp, save: SaveOutcome)
    requires req.verb == "POST" && req.pathname in AnswersPaths
    requires req.body != "" && codec.parse(req.body) == Invalid
    ensures HandleRequest(req, questions, page, file, codec, stamp, save)
         == Handled(Response(400, JsonBody(Object1("error", JString("Invalid JSON body")))), file)
  {
  }

  /** An empty body is read as `{}`: it fails the shape check, never the parse. */
  lemma EmptyBodyFailsShapeCheck(req: Request, questions: seq<Question>, page: string, file: FileState,
                                 codec: Codec, stamp: Stamp, save: SaveOutcome)
    requires req.verb == "POST" && req.pathname in AnswersPaths && req.body == ""
    ensures HandleRequest(req, questions, page, file, codec, stamp, save)
         == Handled(Response(400, JsonBody(Object1("error", JString(ShapeMessage)))), file)
  {
  }

  /** A body that parses but is not an object with an object-valued
      `answers` (null, an array, a string, a number, a boolean, or an object
      whose `answers` is missing, null, an array or a scalar) gets 400 with the
      shape message, and the store is unchanged. */
  lemma WrongShapeRejected(req: Request, questions: seq<Question>, page: string, file: FileState,
                           codec: Codec, stamp: Stamp, save: SaveOutcome, parsed: Json)
    requires req.verb == "POST" && req.pathname in AnswersPaths
    requires ParseBody(req.body, codec) == Value(parsed)
    requires !(parsed.JObject? && "answers" in parsed.fields && parsed.fields["answers"].JObject?)
    ensures HandleRequest(req, questions, page, file, codec, stamp, save)
         == Handled(Response(400, JsonBody(Object1("error", JString(ShapeMessage)))), file)
  {
  }

  /** A well-formed POST whose write succeeds gets 201 with the new entry;
      the entry has one response per question, in question order, and the
      store written is the old one with that entry appended. */
  lemma SubmitAppendsEntry(req: Request, questions: seq<Question>, page: string, file: FileState,
                           codec: Codec, stamp: Stamp, answers: map<string, Json>)
    requires req.verb == "POST" && req.pathname in AnswersPaths
    requires ParseBody(req.body, codec).Value?
    requires AnswersPayload(ParseBody(req.body, codec).value) == Some(answers)
    ensures var h := HandleRequest(req, questions, page, file, codec, stamp, SaveSucceeded);
      var responses := Normalize(questions, answers);
      var entry := EntryJson(stamp, responses);
      && h.response == Response(201, JsonBody(JObject(map["message" := JString("Answers saved"), "entry" := entry])))
      && h.file == Saved(ReadAnswers(file, codec) + [entry], codec)
      && |responses| == |questions|
      && (forall i :: 0 <= i < |questions| ==>
            Member(responses[i], "questionId") == Some(JString(questions[i].id)))
  {
    var responses := Normalize(questions, answers);
    forall i | 0 <= i < |questions|
      ensures Member(responses[i], "questionId") == Some(JString(questions[i].id))
    {
      NormalizedAt(questions, answers, i);
    }
  }

  /** A well-formed POST whose write throws gets 500; the model then says
      nothing about the file beyond what the failed write left behind. */
  lemma SaveFailureReported(req: Request, questions: seq<Question>, page: string, file: FileState,
                            codec: Codec, stamp: Stamp, leftBehind: FileState)
    requires req.verb == "POST" && req.pathname in AnswersPaths
    requires ParseBody(req.body, codec).Value?
    requires AnswersPayload(ParseBody(req.body, codec).value).Some?
    ensures HandleRequest(req, questions, page, file, codec, stamp, SaveFailed(leftBehind))
         == Handled(Response(500, JsonBody(Object1("error", JString("Failed to save answers")))), leftBehind)
  {
  }

  /** After a successful POST, GET on the answers route returns the earlier
      entries unchanged followed by exactly the new one. */
  lemma SubmitThenList(post: Request, get: Request, questions: seq<Question>, page: string, file: FileState,
                       codec: Codec, stamp: Stamp, answers: map<string, Json>, stamp': Stamp, save': SaveOutcome)
    requires post.verb == "POST" && post.pathname in AnswersPaths
    requires ParseBody(post.body, codec).Value?
    requires AnswersPayload(ParseBody(post.body, codec).value) == Some(answers)
    requires get.verb == "GET" && get.pathname in AnswersPaths
    requires ReadsBack(codec, JArray(ReadAnswers(file, codec) + [EntryJson(stamp, Normalize(questions, answers))]))
    ensures var before := ReadAnswers(file, codec);
      var after := HandleRequest(post, questions, page, file, codec, stamp, SaveSucceeded).file;
      var listed := HandleRequest(get, questions, page, after, codec, stamp', save').response;
      && listed == Response(200, JsonBody(Object1("answers", JArray(ReadAnswers(after, codec)))))
      && ReadAnswers(after, codec) == before + [EntryJson(stamp, Normalize(questions, answers))]
      && |ReadAnswers(after, codec)| == |before| + 1
      && ReadAnswers(after, codec)[..|before|] == before
  {
  }

  /** The worked example: questions `role` and `notes`, an empty store and the
      body `{"answers":{"role":"vet"}}` give 201 with responses `role: "vet"`
      and `notes: null`, and the store then lists exactly that entry. */
  lemma WorkedExample(codec: Codec, body: string, stamp: Stamp, roleDoc: Json, notesDoc: Json)
    requires body != ""
    requires codec.parse(body) == Value(Object1("answers", Object1("role", JString("vet"))))
    requires ReadsBack(codec, JArray([ExampleEntry(stamp)]))
    ensures var questions := [Question("role", roleDoc), Question("notes", notesDoc)];
      var post := HandleRequest(Request("POST", "/api/answers", body), questions, "", Unreadable, codec, stamp, SaveSucceeded);
      var entry := ExampleEntry(stamp);
      && post.response.status == 201
      && post.response.body == JsonBody(JObject(map["message" := JString("Answers saved"), "entry" := entry]))
      && ReadAnswers(post.file, codec) == [entry]
  {
    var questions := [Question("role", roleDoc), Question("notes", notesDoc)];
    var answers := map["role" := JString("vet")];
    var parsed := Object1("answers", Object1("role", JString("vet")));
    assert RouteOf("POST", "/api/answers") == SubmitAnswers;
    assert AnswersPayload(parsed) == Some(answers);
    NormalizedAt(questions, answers, 0);
    NormalizedAt(questions, answers, 1);
    assert "notes" !in answers;
    var responses := [
      JObject(map["questionId" := JString("role"), "response" := JString("vet")]),
      JObject(map["questionId" := JString("notes"), "response" := JNull])];
    assert Normalize(questions, answers) == responses;
    var entry := EntryJson(stamp, responses);
    assert ReadAnswers(Unreadable, codec) + [entry] == [entry];
  }

  /** The entry the worked example stores. */
  function ExampleEntry(stamp: Stamp): Json
  {
    EntryJson(stamp, [
      JObject(map["questionId" := JString("role"), "response" := JString("vet")]),
      JObject(map["questionId" := JString("notes"), "response" := JNull])])
  }

  /** When every served question object carries its id, the ids GET
      `/api/questions` lists are, position by position, the `questionId`s a
      successful POST stores. */
  lemma ListedIdsAreStoredIds(list: Request, post: Request, questions: seq<Question>, page: string,
                              file: FileState, codec: Codec, stamp: Stamp, save: SaveOutcome,
                              answers: map<string, Json>)
    requires forall i :: 0 <= i < |questions| ==> IdListed(questions[i])
    requires list.verb == "GET" && list.pathname in QuestionsPaths
    requires post.verb == "POST" && post.pathname in AnswersPaths
    requires ParseBody(post.body, codec).Value?
    requires AnswersPayload(ParseBody(post.body, codec).value) == Some(answers)
    ensures var listed := HandleRequest(list, questions, page, file, codec, stamp, save).response.body.payload;
      var stored := HandleRequest(post, questions, page, file, codec, stamp, SaveSucceeded).response.body.payload;
      var entry := stored.fields["entry"];
      && Member(listed, "questions").Some? && Member(listed, "questions").value.JArray?
      && Member(entry, "responses").Some? && Member(entry, "responses").value.JArray?
      && var items := Member(listed, "questions").value.items;
      && var responses := Member(entry, "responses").value.items;
      && |items| == |responses| == |questions|
      && forall i :: 0 <= i < |questions| ==> Member(items[i], "id") == Member(responses[i], "questionId")
  {
    var responses := Normalize(questions, answers);
    forall i | 0 <= i < |questions|
      ensures Member(QuestionDocuments(questions)[i], "id") == Member(responses[i], "questionId")
    {
      NormalizedAt(questions, answers, i);
    }
  }
}
