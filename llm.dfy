/** llm.py: loading the grounding context, and the two-phase tool-calling
    protocol with the generation service (`process_question_with_context`
    asks, `process_response_after_function` resumes after a tool ran). */
module Llm {
  import opened Strings
  import opened Json
  import opened Gemini

  // ---------------------------------------------------------------------
  // Grounding context (llm.py:24-38)
  // ---------------------------------------------------------------------

  /** What reading `informacion_eci.txt` gave: its contents, `FileNotFoundError`,
      or any other exception. */
  datatype ContextFile = Read(contents: string) | NotFound | Unreadable(error: string)

  const NoContextPlaceholder := "No se ha cargado información específica "
    + "de la Escuela Colombiana de Ingeniería."
  const LoadErrorPlaceholder := "Error al cargar la información "
    + "de la Escuela Colombiana de Ingeniería."

  /** Neither placeholder is blank. */
  lemma PlaceholdersNotBlank()
    ensures Strip(NoContextPlaceholder) != "" && Strip(LoadErrorPlaceholder) != ""
  {
    assert NoContextPlaceholder[0] == 'N' && LoadErrorPlaceholder[0] == 'E';
    NotBlankFromFirst(NoContextPlaceholder);
    NotBlankFromFirst(LoadErrorPlaceholder);
  }

  /** The module-level load of `INFORMACION_ESCUELA`: start from `""`, take the
      file's contents, and replace a blank or failed read by a placeholder. */
  method LoadContext(file: ContextFile) returns (context: string)
    ensures Strip(context) != "" && !AllSpace(context)
    ensures file.Read? && Strip(file.contents) != "" ==> context == file.contents
    ensures (file.Read? && Strip(file.contents) == "") || file.NotFound? ==> context == NoContextPlaceholder
    ensures file.Unreadable? ==> context == LoadErrorPlaceholder
  {
    PlaceholdersNotBlank();
    context := "";
    match file {
      case Read(contents) =>
        context := contents;
        if Strip(context) == "" {
          context := NoContextPlaceholder;
        }
      case NotFound =>
        context := NoContextPlaceholder;
      case Unreadable(_) =>
        context := LoadErrorPlaceholder;
    }
    StripEmptyIffAllSpace(context);
  }

  // ---------------------------------------------------------------------
  // The declared tool and the requests sent to the service (llm.py:57-74)
  // ---------------------------------------------------------------------

  datatype ToolDeclaration = ToolDeclaration(name: string, description: string, parameters: Option<map<string, Json>>)

  const OfficialWebsiteTool := "get_official_website"

  /** `self.tools_list`: one tool, without parameters. */
  const Tools: seq<ToolDeclaration> := [
    ToolDeclaration(OfficialWebsiteTool,
      "Proporciona el enlace al sitio web oficial de la Escuela Colombiana de Ingeniería Julio Garavito.",
      None)
  ]

  /** One turn of a multi-turn conversation; `Role` gives its `"role"` key. */
  datatype Content =
    | UserTurn(text: string)
    | ModelTurn(parts: seq<Part>)
    | FunctionTurn(name: string, response: Json)

  function Role(c: Content): string
  {
    match c
    case UserTurn(_) => "user"
    case ModelTurn(_) => "model"
    case FunctionTurn(_, _) => "function"
  }

  /** What one `generate_content` call is given: a single prompt or a list of
      turns, and the tool list. */
  datatype Contents = Prompt(prompt: string) | Conversation(turns: seq<Content>)
  datatype Request = Request(contents: Contents, tools: seq<ToolDeclaration>)

  // ---------------------------------------------------------------------
  // Prompts (llm.py:81-96 and 144-151)
  // ---------------------------------------------------------------------

  const ContextOpening := "\nAquí tienes información relevante sobre la Escuela Colombiana de Ingeniería Julio Garavito (ECI):\n--- INICIO DEL CONTEXTO ECI ---\n"
  const ContextClosing := "\n--- FIN DEL CONTEXTO ECI ---\n\nPregunta del usuario: \""
  const QuestionClosing := "\"\n"
  const Instructions := "\nInstrucciones para el asistente:\n1. Lee atentamente la pregunta del usuario.\n2. Revisa el \"CONTEXTO ECI\" proporcionado arriba para encontrar la respuesta.\n3. Responde la pregunta basándote ÚNICA y EXCLUSIVAMENTE en la información encontrada en el \"CONTEXTO ECI\".\n4. Si la información para responder la pregunta NO está en el \"CONTEXTO ECI\", indica claramente que no tienes esa información específica en el material provisto. No intentes adivinar ni uses conocimiento externo.\n5. Si la pregunta es una solicitud para una acción definida en tus herramientas (como 'get_official_website'), puedes proponer llamar a esa función.\n6. Responde en primera persona en plural como si fueras la rectora de la escuela en representacion de la escuela.\n"

  /** The grounded question both phases start from: the context between its
      markers, then the question in double quotes. */
  function GroundedQuestion(context: string, question: string): (r: string)
    ensures StartsWith(r, ContextOpening + context)
    ensures EndsWith(r, "\"" + question + QuestionClosing)
  {
    var r := ContextOpening + context + ContextClosing + question + QuestionClosing;
    assert r[..|ContextOpening + context|] == ContextOpening + context;
    assert r[|r| - |question| - 3..] == "\"" + question + QuestionClosing by {
      var h := ContextOpening + context + ContextClosing[..|ContextClosing| - 1];
      assert ContextClosing == ContextClosing[..|ContextClosing| - 1] + "\"";
      assert r == h + ("\"" + question + QuestionClosing);
    }
    r
  }

  /** `prompt_con_contexto` of the first phase. */
  function QuestionPrompt(context: string, question: string): string
  {
    GroundedQuestion(context, question) + Instructions
  }

  /** The request of the first phase: the prompt and the tool list. */
  function AskRequest(context: string, question: string): Request
  {
    Request(Prompt(QuestionPrompt(context, question)), Tools)
  }

  // ---------------------------------------------------------------------
  // First phase: classify the reply (llm.py:99-132)
  // ---------------------------------------------------------------------

  /** The third element of the returned tuple: a message, or the whole
      response object when a function call was found. */
  datatype Payload = Text(text: string) | Raw(response: Response)

  /** The tuple `(function_name, args, llm_response_or_text)`. */
  datatype Classified = Classified(functionName: Option<string>, args: Option<map<string, Json>>, payload: Payload)

  const AskBlockedPrefix := "No se pudo generar una respuesta. Razón: "
  const AskBlockedSuffix := ". Por favor, reformula tu pregunta o revisa el contenido."
  const AskEmpty := "Lo siento, no pude generar una respuesta basada en la información proporcionada (respuesta vacía o bloqueada sin detalle)."
  const AskTechnicalError := "Lo siento, ocurrió un error técnico al procesar tu pregunta."

  /** The function call of the first part that carries one. */
  function FirstFunctionCall(parts: seq<Part>): Option<FunctionCall>
  {
    if parts == [] then None
    else if parts[0].functionCall.Some? then parts[0].functionCall
    else FirstFunctionCall(parts[1..])
  }

  /** No part carries a call exactly when there is no first call. */
  lemma {:induction false} NoFunctionCall(parts: seq<Part>)
    ensures FirstFunctionCall(parts).None? <==> forall i :: 0 <= i < |parts| ==> parts[i].functionCall.None?
  {
    if parts != [] {
      NoFunctionCall(parts[1..]);
      assert forall i :: 1 <= i < |parts| ==> parts[i] == parts[1..][i - 1];
    }
  }

  /** The call found is that of the first part carrying one, whatever follows. */
  lemma {:induction false} FirstFunctionCallAt(parts: seq<Part>, i: nat)
    requires i < |parts| && parts[i].functionCall.Some?
    requires forall j :: 0 <= j < i ==> parts[j].functionCall.None?
    ensures FirstFunctionCall(parts) == parts[i].functionCall
  {
    if i > 0 {
      FirstFunctionCallAt(parts[1..], i - 1);
    }
  }

  /** The `for part in response.parts` loop with `break` (llm.py:105-110). */
  method FindFunctionCall(parts: seq<Part>) returns (call: Option<FunctionCall>)
    ensures call == FirstFunctionCall(parts)
  {
    call := None;
    for i := 0 to |parts|
      invariant FirstFunctionCall(parts) == FirstFunctionCall(parts[i..])
    {
      if parts[i].functionCall.Some? {
        call := parts[i].functionCall;
        break;
      }
      assert parts[i..][1..] == parts[i + 1..];
    }
  }

  /** The dict comprehension over `function_call_part.args` (llm.py:114). */
  function CopyArgs(args: Option<map<string, Json>>): (r: map<string, Json>)
    ensures args.Some? ==> r == args.value
    ensures args.None? ==> r == map[]
  {
    if args.Some? && |args.value| > 0 then map k | k in args.value :: args.value[k]
    else map[]
  }

  /** The text, else a message naming the block reason, else the fallback. */
  function Explain(r: Response, blockedPrefix: string, blockedSuffix: string, empty: string): (m: string)
    ensures r.text != "" ==> m == r.text
    ensures r.text == "" && r.blockReason.Some? ==> m == blockedPrefix + r.blockReason.value + blockedSuffix
    ensures r.text == "" && r.blockReason.None? ==> m == empty
  {
    if r.text != "" then r.text
    else if r.blockReason.Some? then blockedPrefix + r.blockReason.value + blockedSuffix
    else empty
  }

  /** What `process_question_with_context` returns for a reply to its request. */
  function Classify(reply: Reply): Classified
  {
    match reply
    case Raised(_) => Classified(None, None, Text(AskTechnicalError))
    case Replied(r) =>
      match FirstFunctionCall(r.parts)
      case Some(call) => Classified(Some(call.name), Some(CopyArgs(call.args)), Raw(r))
      case None => Classified(None, None, Text(Explain(r, AskBlockedPrefix, AskBlockedSuffix, AskEmpty)))
  }

  /** `process_question_with_context`: one request, then the classification. */
  method ProcessQuestionWithContext(context: string, question: string, reply: Reply)
    returns (result: Classified, sent: Request)
    ensures sent == AskRequest(context, question)
    ensures result == Classify(reply)
  {
    sent := AskRequest(context, question);
    match reply
    case Raised(_) =>
      result := Classified(None, None, Text(AskTechnicalError));
    case Replied(response) =>
      var call := FindFunctionCall(response.parts);
      if call.Some? {
        var args := CopyArgs(call.value.args);
        result := Classified(Some(call.value.name), Some(args), Raw(response));
      } else {
        result := Classified(None, None, Text(Explain(response, AskBlockedPrefix, AskBlockedSuffix, AskEmpty)));
      }
  }

  /** A function call anywhere wins over text: the first one found is returned
      with its arguments (or `{}`) and the whole response. */
  lemma ClassifyFunctionCall(r: Response, i: nat)
    requires i < |r.parts| && r.parts[i].functionCall.Some?
    requires forall j :: 0 <= j < i ==> r.parts[j].functionCall.None?
    ensures var call := r.parts[i].functionCall.value;
      Classify(Replied(r)) == Classified(Some(call.name), Some(if call.args.Some? then call.args.value else map[]), Raw(r))
  {
    FirstFunctionCallAt(r.parts, i);
  }

  /** Without a call, the tuple is `(None, None, message)`: the text if non-empty,
      else the block-reason message, else the empty-reply message. */
  lemma ClassifyWithoutFunctionCall(r: Response)
    requires forall i :: 0 <= i < |r.parts| ==> r.parts[i].functionCall.None?
    ensures var c := Classify(Replied(r));
      && c.functionName.None? && c.args.None? && c.payload.Text?
      && (r.text != "" ==> c.payload.text == r.text)
      && (r.text == "" && r.blockReason.Some? ==>
            c.payload.text == AskBlockedPrefix + r.blockReason.value + AskBlockedSuffix)
      && (r.text == "" && r.blockReason.None? ==> c.payload.text == AskEmpty)
  {
    NoFunctionCall(r.parts);
  }

  /** An exception becomes `(None, None, technical-error message)`. */
  lemma ClassifyRaised(error: string)
    ensures Classify(Raised(error)) == Classified(None, None, Text(AskTechnicalError))
  {
  }

  /** A name is reported exactly when the reply holds a function call, and then
      the whole response travels along. */
  lemma ClassifyNameIffCall(reply: Reply)
    ensures Classify(reply).functionName.Some? <==>
      reply.Replied? && exists i :: 0 <= i < |reply.response.parts| && reply.response.parts[i].functionCall.Some?
    ensures Classify(reply).functionName.Some? ==> Classify(reply).payload == Raw(reply.response)
    ensures Classify(reply).functionName.None? ==> Classify(reply).payload.Text? && Classify(reply).payload.text != ""
  {
    if reply.Replied? {
      NoFunctionCall(reply.response.parts);
    }
  }

  // ---------------------------------------------------------------------
  // Second phase: resume after the tool ran (llm.py:134-191)
  // ---------------------------------------------------------------------

  const ResumeNoParts := "Error al continuar la conversación después de la función."
  const ResumeBlockedPrefix := "No se pudo generar una respuesta final. Razón: "
  const ResumeBlockedSuffix := "."
  const ResumeEmpty := "Lo siento, no pude generar una respuesta final después de ejecutar la acción (respuesta vacía o bloqueada sin detalle)."
  const ResumeInvalidJson := "Error interno: el resultado de la función no era un JSON válido."
  const ResumeTechnicalError := "Lo siento, ocurrió un error técnico al formular la respuesta final."

  /** `contents_for_gemini`: the user turn carries the grounded question without
      the first phase's instructions, the model turn the previous parts as they
      were, and the function turn the tool's name and decoded result. */
  function ResumeConversation(context: string, question: string, previousParts: seq<Part>,
                              functionName: string, response: Json): (turns: seq<Content>)
    ensures |turns| == 3
    ensures [Role(turns[0]), Role(turns[1]), Role(turns[2])] == ["user", "model", "function"]
    ensures QuestionPrompt(context, question) == turns[0].text + Instructions
    ensures turns[1].parts == previousParts
    ensures turns[2].name == functionName && turns[2].response == response
  {
    [UserTurn(GroundedQuestion(context, question)), ModelTurn(previousParts), FunctionTurn(functionName, response)]
  }

  /** The final text, and the request sent (`None`: the service was not called). */
  datatype Resumed = Resumed(text: string, sent: Option<Request>)

  /** `process_response_after_function`. `prior` is what the first phase returned
      as its third element; only a response object has `parts`. */
  function ProcessResponseAfterFunction(context: string, question: string, prior: Payload,
                                        functionName: string, toolResult: string,
                                        lib: JsonLib, reply: Reply): (r: Resumed)
    ensures r.sent.Some? <==> prior.Raw? && lib.loads(toolResult).Some?
    ensures prior.Text? ==> r.text == ResumeNoParts
    ensures prior.Raw? && lib.loads(toolResult).None? ==> r.text == ResumeInvalidJson
    ensures r.sent.Some? ==> (r.sent.value ==
      Request(Conversation(ResumeConversation(context, question, prior.response.parts, functionName, lib.loads(toolResult).value)), Tools))
  {
    match prior
    case Text(_) => Resumed(ResumeNoParts, None)
    case Raw(previous) =>
      match lib.loads(toolResult)
      case None => Resumed(ResumeInvalidJson, None)
      case Some(decoded) =>
        var sent := Request(Conversation(ResumeConversation(context, question, previous.parts, functionName, decoded)), Tools);
        match reply
        case Raised(_) => Resumed(ResumeTechnicalError, Some(sent))
        case Replied(final) => Resumed(Explain(final, ResumeBlockedPrefix, ResumeBlockedSuffix, ResumeEmpty), Some(sent))
  }

  /** Once the request is sent, the answer is the reply's text if non-empty,
      else the block-reason message, else the fallback; an exception gives the
      technical-error message. It is never empty. */
  lemma ResumeFinalText(context: string, question: string, previous: Response,
                        functionName: string, toolResult: string, lib: JsonLib, reply: Reply)
    requires lib.loads(toolResult).Some?
    ensures var r := ProcessResponseAfterFunction(context, question, Raw(previous), functionName, toolResult, lib, reply);
      && r.sent.Some?
      && (reply.Raised? ==> r.text == ResumeTechnicalError)
      && (reply.Replied? && reply.response.text != "" ==> r.text == reply.response.text)
      && (reply.Replied? && reply.response.text == "" && reply.response.blockReason.Some? ==>
            r.text == ResumeBlockedPrefix + reply.response.blockReason.value + ResumeBlockedSuffix)
      && (reply.Replied? && reply.response.text == "" && reply.response.blockReason.None? ==> r.text == ResumeEmpty)
      && r.text != ""
  {
  }

  /** The second phase's answer does not depend on the reply when no request
      was sent: the service is not consulted. */
  lemma ResumeWithoutCallIgnoresReply(context: string, question: string, prior: Payload,
                                      functionName: string, toolResult: string, lib: JsonLib,
                                      reply1: Reply, reply2: Reply)
    requires ProcessResponseAfterFunction(context, question, prior, functionName, toolResult, lib, reply1).sent.None?
    ensures ProcessResponseAfterFunction(context, question, prior, functionName, toolResult, lib, reply1)
         == ProcessResponseAfterFunction(context, question, prior, functionName, toolResult, lib, reply2)
  {
  }
}
