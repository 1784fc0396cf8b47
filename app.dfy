/** app.py: the decisions of `audio_route` between the transcriber, the two
    phases of the language model and the local tool. The transcript and the
    model's replies are inputs; speech synthesis of the final text is not
    part of this model. */
module App {
  import opened Strings
  import opened Json
  import opened Gemini
  import opened Llm
  import Transcription

  const WebsiteMessage := "El sitio web oficial es www.escuelaing.edu.co"
  const UnprocessedFallback := "No pude procesar tu pregunta completamente, "
    + "pero no se identificó una acción específica."

  /** The prefixes by which the route recognises a failed transcription. */
  predicate IsTranscriptionError(t: string)
  {
    StartsWith(t, "Error:") || StartsWith(t, "No se pudo") || StartsWith(t, "Transcripción bloqueada")
  }

  // ---------------------------------------------------------------------
  // The local tool (app.py:45-57)
  // ---------------------------------------------------------------------

  function UnknownToolMessage(functionName: string): string
  {
    "Función '" + functionName + "' no reconocida."
  }

  const WebsitePayload := Object(map["website" := Str(WebsiteMessage)])

  /** The dictionary the route serialises as the tool's result: the website
      for the one declared tool, an `"error"` entry naming any other. The
      call's arguments play no part. */
  function Dispatch(functionName: string): (payload: Json)
    ensures payload.Object? && |payload.members| == 1
    ensures functionName == OfficialWebsiteTool <==> "website" in payload.members
    ensures functionName == OfficialWebsiteTool ==> payload == WebsitePayload
    ensures functionName != OfficialWebsiteTool <==> "error" in payload.members
    ensures functionName != OfficialWebsiteTool ==> payload.members["error"] == Str(UnknownToolMessage(functionName))
  {
    if functionName == OfficialWebsiteTool then WebsitePayload
    else Object(map["error" := Str(UnknownToolMessage(functionName))])
  }

  // ---------------------------------------------------------------------
  // The route (app.py:20-81)
  // ---------------------------------------------------------------------

  /** A call the route makes on the language-model object: the first phase
      with the question, or the second with the question, the first phase's
      third element, the tool name and the serialised tool result. */
  datatype LlmCall =
    | Ask(question: string)
    | Resume(question: string, prior: Payload, functionName: string, toolResult: string)

  /** The JSON body (`result`, `text`) with the calls made on the model object
      and the requests that reached the generation service, in order. */
  datatype RouteReply = RouteReply(result: string, text: string, calls: seq<LlmCall>, requests: seq<Request>)

  /** The `else` branch of app.py:67-76: a string is used as it is, a response
      object by its text, anything else gives the fallback message. */
  function DirectText(payload: Payload): string
  {
    match payload
    case Text(s) => s
    case Raw(r) => if r.text != "" then r.text else UnprocessedFallback
  }

  function Requests(first: Request, resumed: Resumed): seq<Request>
  {
    [first] + if resumed.sent.Some? then [resumed.sent.value] else []
  }

  /** `audio_route` after `transcribe` returned `transcript`: `first` and
      `second` are the service's replies to the requests of the two phases. */
  function AudioRoute(transcript: string, context: string, lib: JsonLib, first: Reply, second: Reply): (out: RouteReply)
    ensures out.result == if IsTranscriptionError(transcript) then "error" else "ok"
    ensures IsTranscriptionError(transcript) ==> out.text == transcript && out.calls == [] && out.requests == []
    ensures |out.calls| <= 2 && |out.requests| <= 2
    ensures !IsTranscriptionError(transcript) ==>
      && 1 <= |out.calls| && out.calls[0] == Ask(transcript)
      && 1 <= |out.requests| && out.requests[0] == AskRequest(context, transcript)
  {
    if IsTranscriptionError(transcript) then
      RouteReply("error", transcript, [], [])
    else
      var question := transcript;
      var classified := Classify(first);
      if classified.functionName.Some? && classified.functionName.value != "" then
        var name := classified.functionName.value;
        var toolResult := lib.dumps(Dispatch(name));
        var resumed := ProcessResponseAfterFunction(context, question, classified.payload, name, toolResult, lib, second);
        RouteReply("ok", resumed.text, [Ask(question), Resume(question, classified.payload, name, toolResult)],
                   Requests(AskRequest(context, question), resumed))
      else
        RouteReply("ok", DirectText(classified.payload), [Ask(question)], [AskRequest(context, question)])
  }

  // ---------------------------------------------------------------------
  // Properties of the route
  // ---------------------------------------------------------------------

  /** A tool call in the first reply is dispatched once, and the second phase
      is called with the same question and the untouched first response. */
  lemma ToolCallRoute(question: string, context: string, lib: JsonLib, r: Response, i: nat, second: Reply)
    requires !IsTranscriptionError(question)
    requires i < |r.parts| && r.parts[i].functionCall.Some? && r.parts[i].functionCall.value.name != ""
    requires forall j :: 0 <= j < i ==> r.parts[j].functionCall.None?
    ensures var name := r.parts[i].functionCall.value.name;
      var toolResult := lib.dumps(Dispatch(name));
      var resumed := ProcessResponseAfterFunction(context, question, Raw(r), name, toolResult, lib, second);
      AudioRoute(question, context, lib, Replied(r), second) ==
        RouteReply("ok", resumed.text, [Ask(question), Resume(question, Raw(r), name, toolResult)],
                   Requests(AskRequest(context, question), resumed))
  {
    ClassifyFunctionCall(r, i);
  }

  /** Without a function call the first phase's string is the answer, and
      nothing else is called. */
  lemma DirectAnswerRoute(question: string, context: string, lib: JsonLib, first: Reply, second: Reply)
    requires !IsTranscriptionError(question)
    requires first.Replied? ==> forall i :: 0 <= i < |first.response.parts| ==> first.response.parts[i].functionCall.None?
    ensures var out := AudioRoute(question, context, lib, first, second);
      && out.calls == [Ask(question)] && out.requests == [AskRequest(context, question)]
      && Classify(first).payload.Text? && out.text == Classify(first).payload.text
  {
    if first.Replied? {
      NoFunctionCall(first.response.parts);
    }
  }

  /** A function call whose name is empty is not dispatched: the route falls
      back on the response's text, or on its fixed message. */
  lemma EmptyFunctionNameRoute(question: string, context: string, lib: JsonLib, r: Response, i: nat, second: Reply)
    requires !IsTranscriptionError(question)
    requires i < |r.parts| && r.parts[i].functionCall.Some? && r.parts[i].functionCall.value.name == ""
    requires forall j :: 0 <= j < i ==> r.parts[j].functionCall.None?
    ensures var out := AudioRoute(question, context, lib, Replied(r), second);
      && out.calls == [Ask(question)]
      && out.text == if r.text != "" then r.text else UnprocessedFallback
  {
    ClassifyFunctionCall(r, i);
  }

  /** The second phase is called at most once, always after the first, and a
      function call in its reply is never dispatched: no third call follows. */
  lemma ResumeAtMostOnce(transcript: string, context: string, lib: JsonLib, first: Reply, second: Reply)
    ensures var out := AudioRoute(transcript, context, lib, first, second);
      && (forall k :: 0 <= k < |out.calls| ==> (out.calls[k].Resume? <==> k == 1))
      && (|out.calls| == 2 ==> Classify(first).functionName.Some? && out.calls[1].prior == Classify(first).payload)
  {
  }

  /** Past the transcription check the result is "ok", even when the text is
      the model's blocked or technical-error message. */
  lemma OkPastTranscription(transcript: string, context: string, lib: JsonLib, first: Reply, second: Reply)
    requires !IsTranscriptionError(transcript)
    ensures AudioRoute(transcript, context, lib, first, second).result == "ok"
    ensures first.Raised? ==> AudioRoute(transcript, context, lib, first, second).text == AskTechnicalError
  {
  }

  /** The route never hands an empty text to speech synthesis. */
  lemma RouteTextNotEmpty(transcript: string, context: string, lib: JsonLib, first: Reply, second: Reply)
    ensures AudioRoute(transcript, context, lib, first, second).text != ""
  {
    ClassifyNameIffCall(first);
    var classified := Classify(first);
    if !IsTranscriptionError(transcript) && classified.functionName.Some? && classified.functionName.value != "" {
      var name := classified.functionName.value;
      var toolResult := lib.dumps(Dispatch(name));
      if lib.loads(toolResult).Some? {
        ResumeFinalText(context, transcript, classified.payload.response, name, toolResult, lib, second);
      }
    }
  }

  /** Asking for the official website: the tool result reaches the second
      request intact (given the `json` round trip) and its text is the answer. */
  lemma OfficialWebsiteRoute(question: string, context: string, lib: JsonLib, r: Response, i: nat, answer: Response)
    requires !IsTranscriptionError(question)
    requires i < |r.parts| && r.parts[i].functionCall.Some? && r.parts[i].functionCall.value.name == OfficialWebsiteTool
    requires forall j :: 0 <= j < i ==> r.parts[j].functionCall.None?
    requires RoundTrips(lib, WebsitePayload)
    requires answer.text != ""
    ensures AudioRoute(question, context, lib, Replied(r), Replied(answer)) ==
      RouteReply("ok", answer.text,
                 [Ask(question), Resume(question, Raw(r), OfficialWebsiteTool, lib.dumps(WebsitePayload))],
                 [AskRequest(context, question),
                  Request(Conversation([UserTurn(GroundedQuestion(context, question)), ModelTurn(r.parts),
                                        FunctionTurn(OfficialWebsiteTool, WebsitePayload)]), Tools)])
  {
    ToolCallRoute(question, context, lib, r, i, Replied(answer));
  }

  /** An unknown tool name is not fatal: its error payload is sent on to the
      second phase's request. */
  lemma UnknownToolRoute(question: string, context: string, lib: JsonLib, r: Response, i: nat, second: Reply)
    requires !IsTranscriptionError(question)
    requires i < |r.parts| && r.parts[i].functionCall.Some?
    requires r.parts[i].functionCall.value.name != "" && r.parts[i].functionCall.value.name != OfficialWebsiteTool
    requires forall j :: 0 <= j < i ==> r.parts[j].functionCall.None?
    requires RoundTrips(lib, Dispatch(r.parts[i].functionCall.value.name))
    ensures var name := r.parts[i].functionCall.value.name;
      var out := AudioRoute(question, context, lib, Replied(r), second);
      && |out.requests| == 2 && out.requests[1].contents.Conversation?
      && out.requests[1].contents.turns[2] == FunctionTurn(name, Object(map["error" := Str(UnknownToolMessage(name))]))
  {
    ToolCallRoute(question, context, lib, r, i, second);
  }

  // ---------------------------------------------------------------------
  // Which transcriber strings the route recognises (transcriber.py:17-122)
  // ---------------------------------------------------------------------

  /** The "not initialised", "blocked" and "no transcript" strings are caught
      by the prefix test, and the route answers with them without calling
      the model. */
  lemma TranscriberFailuresRecognised(reason: string)
    ensures IsTranscriptionError(Transcription.NotInitialised)
    ensures IsTranscriptionError(Transcription.BlockedPrefix + reason + Transcription.BlockedSuffix)
    ensures IsTranscriptionError(Transcription.NoTranscript)
  {
    var blocked := Transcription.BlockedPrefix + reason + Transcription.BlockedSuffix;
    assert blocked[..|"Transcripción bloqueada"|] == "Transcripción bloqueada";
    assert Transcription.NoTranscript[..|"No se pudo"|] == "No se pudo";
    assert Transcription.NotInitialised[..|"Error:"|] == "Error:";
  }

  /** The message of a caught exception starts with "Error durante", which no
      prefix matches: the route sends it to the model as if it were the
      user's question, and answers "ok". */
  lemma TranscriberExceptionNotRecognised(upload: Option<Transcription.Upload>, reply: Reply,
                                          context: string, lib: JsonLib, first: Reply, second: Reply)
    requires upload.None? || upload.value.storeError.Some? || reply.Raised?
    ensures var text := Transcription.TranscribeUpload(upload, reply).text;
      && !IsTranscriptionError(text)
      && AudioRoute(text, context, lib, first, second).result == "ok"
      && AudioRoute(text, context, lib, first, second).calls[0] == Ask(text)
  {
    var text := Transcription.TranscribeUpload(upload, reply).text;
    Transcription.ExceptionMessage(upload, reply);
    assert text[5] == ' ' by { assert text[..|Transcription.ExceptionPrefix|] == Transcription.ExceptionPrefix; }
    assert text[0] == 'E';
  }
}
