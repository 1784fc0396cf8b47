# ChatBotECI decision procedures in Dafny

ChatBotECI is a voice assistant for the Escuela Colombiana de Ingeniería. A
recorded question is transcribed by Gemini. It is then answered by Gemini,
grounded in a text file about the school, with one local tool
(`get_official_website`). The answer is spoken by ElevenLabs, and a D-ID
avatar video can be made from it. This project models the decisions the
Python code makes between those external calls, and proves what each
decision promises.

Every external call is an input of the model:

- a reply of `generate_content` is a `Gemini.Reply`: a response, or an
  exception with its message;
- a reply of the D-ID service is a `Character.ServiceReply`; the status
  replies of one polling job are a function from the attempt number to a
  reply;
- `json.dumps` and `json.loads` are a `Json.JsonLib` value. Lemmas that
  follow a tool result through both calls require that the library round
  trips the payload involved;
- reading `informacion_eci.txt` is a `Llm.ContextFile` outcome: contents,
  not found, or another error.

Operations that would call the service return the request they would send,
or `None` when they send nothing. This lets the model state when the service
is not called.

Modules:

- `Strings`: `startswith`, `endswith`, `strip` and ASCII `lower` of Python, and `Option`.
- `Json`: decoded JSON values, truthiness, `dict.get`, and the `json` library as a parameter.
- `Gemini`: the parts of a response that the code reads.
- `Llm` (llm.py): the context load, the first phase (ask and classify the
  reply) and the second phase (resume after the tool ran).
- `Transcription` (transcriber.py): the `Transcriber` class with its
  `model` field, MIME-type selection, transcript extraction and error strings.
- `App` (app.py): `audio_route` after transcription: the error-prefix test,
  tool dispatch, at most one second phase, and the choice of the final text.
- `Character` (character.py): `process` (the job id) and `obtain` (bounded
  polling, then the download).

The transcriber returns the message of any caught exception prefixed by
"Error durante la transcripción con Gemini: ". The route in app.py only
recognises failures starting with "Error:", "No se pudo" or "Transcripción
bloqueada". So an exception message is not recognised as a failure: it is
sent to the language model as the user's question, and the route answers
"ok". `App.TranscriberExceptionNotRecognised` proves this for every
exception path. The model keeps the code's behaviour as written.

## Model

| member | source | states |
|---|---|---|
| `Llm.PlaceholdersNotBlank` | llm.py:32-38 | both placeholder strings are non-blank after `strip()` |
| `Llm.LoadContext` | llm.py:24-38 | the loaded context is never blank. A non-blank file gives its contents. A blank or missing file gives the "no information" placeholder. Any other error gives the "load error" placeholder |
| `Llm.GroundedQuestion` | llm.py:81-87 | the prompt starts with the opening text followed by the context, and ends with the quoted question |
| `Llm.NoFunctionCall` | llm.py:105-112 | no call is found exactly when no part carries a `function_call` |
| `Llm.FirstFunctionCallAt` | llm.py:105-110 | the call found is that of the first part carrying one, whatever the later parts hold |
| `Llm.FindFunctionCall` | llm.py:105-110 | the loop over the parts with `break` returns the first part's call, or `None` when no part has one |
| `Llm.CopyArgs` | llm.py:114 | the arguments are copied when present, and `{}` is used otherwise |
| `Llm.Explain` | llm.py:118-127 | the message is the text if non-empty, else the block-reason message, else the fixed fallback |
| `Llm.ProcessQuestionWithContext` | llm.py:78-132 | the first phase sends the grounded prompt with the tool list, and returns the classification of the reply |
| `Llm.ClassifyFunctionCall` | llm.py:105-116 | a function call in any part wins, even over text: the result is the first call's name, its arguments or `{}`, and the whole response |
| `Llm.ClassifyWithoutFunctionCall` | llm.py:118-127 | with no function call the first two slots are `None`. The third is the text, else the block-reason message, else the "respuesta vacía" message |
| `Llm.ClassifyRaised` | llm.py:129-132 | an exception gives `(None, None, technical-error message)` |
| `Llm.ClassifyNameIffCall` | llm.py:105-132 | a name is reported exactly when the reply held a function call, and then the whole response is returned. Otherwise the third slot is a non-empty string |
| `Llm.ResumeConversation` | llm.py:144-166 | the conversation is exactly the user, model and function turns. The user turn is the first phase's prompt without its instructions. The model turn holds the previous parts verbatim. The function turn holds the tool's name and decoded result |
| `Llm.ProcessResponseAfterFunction` | llm.py:134-191 | the service is called exactly when the prior result has parts and the tool result decodes. Without parts, or with invalid JSON, the result is a fixed error string and no request is sent. The request sent is the three-turn conversation with the tool list |
| `Llm.ResumeFinalText` | llm.py:174-191 | once the request is sent, the answer is the reply's text, else the block-reason message, else the fallback. An exception gives the technical-error string. The answer is never empty |
| `Llm.ResumeWithoutCallIgnoresReply` | llm.py:138-142 | when no request is sent, the service's reply has no influence on the answer |
| `Transcription.MimeType` | transcriber.py:67-84 | the chosen MIME type is never empty |
| `Transcription.DistinctSuffixes` | transcriber.py:69-76 | two extensions with different last characters never both match, so each branch of the extension chain decides alone |
| `Transcription.MimeTypeByExtension` | transcriber.py:67-76 | the lower-cased file name decides first: .mp3, .wav, .webm and .ogg map to audio/mpeg, audio/wav, audio/webm and audio/ogg |
| `Transcription.MimeTypeWithoutExtension` | transcriber.py:77-84 | with no known extension, the detected type is used unless it is empty or `application/octet-stream`; then `audio/webm` is used |
| `Transcription.MimeTypeIgnoresCase` | transcriber.py:67-69 | an upper-case `.MP3` name still selects audio/mpeg |
| `Transcription.JoinTextsEmpty` | transcriber.py:99-101 | the joined part texts are empty exactly when every part's text is empty |
| `Transcription.TranscribeUpload` | transcriber.py:36-122 | a request is sent exactly when the upload is present and was stored. It carries the fixed prompt and the selected MIME type |
| `Transcription.Transcriber.constructor` | transcriber.py:16-26 | the model is set only when the API key is present and creating the model succeeded |
| `Transcription.Transcriber.Transcribe` | transcriber.py:28-30 | without a model the result is the "not initialised" string, which starts with "Error:", and nothing is sent |
| `Transcription.TranscriptPrefersText` | transcriber.py:95-98 | a non-empty `response.text` is the transcript |
| `Transcription.TranscriptFromParts` | transcriber.py:99-103 | otherwise, when some part has text, the transcript is the joined part texts |
| `Transcription.TranscriptWithoutText` | transcriber.py:105-114 | with no usable text, a block reason gives a message starting with "Transcripción bloqueada", and no reason gives one starting with "No se pudo" |
| `Transcription.ExceptionMessage` | transcriber.py:116-122 | a caught exception, including a missing upload, gives "Error durante la transcripción con Gemini: " followed by its message |
| `App.Dispatch` | app.py:45-57 | `get_official_website` gives exactly `{"website": "El sitio web oficial es www.escuelaing.edu.co"}`. Any other name gives exactly `{"error": "Función '<name>' no reconocida."}` |
| `App.AudioRoute` | app.py:20-81 | a transcript with an error prefix gives "error" with that transcript as the text, and the model is not called. Otherwise the result is "ok" and the first call is the first phase with the transcript. There are at most two calls and two requests |
| `App.ToolCallRoute` | app.py:37-66 | a tool call is dispatched once. The second phase receives the same question, the unmodified first response and the serialised tool result |
| `App.DirectAnswerRoute` | app.py:67-70 | without a function call, the first phase's string is the answer and only one request is sent |
| `App.EmptyFunctionNameRoute` | app.py:41-76 | a call with an empty name is not dispatched. The response's text is used, or the "No pude procesar" message |
| `App.ResumeAtMostOnce` | app.py:37-66 | the second phase is called at most once, and only in second position, with the first phase's third element |
| `App.OkPastTranscription` | app.py:79-81 | past the prefix test the result is "ok", even when the text is the technical-error message |
| `App.RouteTextNotEmpty` | app.py:26-81 | the text handed to speech synthesis is never empty |
| `App.OfficialWebsiteRoute` | app.py:41-66 | asking for the website sends the website payload, decoded, in the second request's function turn. The second reply's text is the answer |
| `App.UnknownToolRoute` | app.py:55-66 | an unknown tool's error payload still reaches the second request |
| `App.TranscriberFailuresRecognised` | app.py:26-28 | the "not initialised", "blocked" and "no transcript" strings of the transcriber match the route's prefixes |
| `App.TranscriberExceptionNotRecognised` | app.py:26-37 | the transcriber's exception message matches no prefix. It is passed to the first phase as the question, and the route answers "ok" |
| `Character.Process` | character.py:54-63 | the id is the reply body's `"id"` entry when present, and `None` otherwise |
| `Character.ProcessIgnoresStatus` | character.py:56-63 | the status code has no influence on the id returned |
| `Character.PollFrom` | character.py:76-103 | polling makes at most 10 status requests. Exhaustion means all 10 were made. A ready outcome carries the truthy `result_url` of the last reply |
| `Character.Obtain` | character.py:66-126 | the loop makes exactly the status requests of the polling specification, downloads only the URL of a ready job, and returns "response.mp4" only when the download and the write succeed |
| `Character.SkipPending` | character.py:95-97 | a "created" or "started" reply leads to the next attempt |
| `Character.PollDecidedAt` | character.py:79-100 | after pending replies, a non-200 reply or an unexpected status fails at once. A "done" reply ends polling, with its URL or with a failure when the URL is missing |
| `Character.AllPendingExhausts` | character.py:101-103 | ten pending replies exhaust the budget, and the result is `None` |
| `Character.ReadyOnlyAfterDone` | character.py:76-94 | a ready outcome comes only from a "done" reply with a truthy URL, after pending replies only |
| `Character.ReadyIffDoneAt` | character.py:76-103 | polling finds the video exactly when some attempt within the budget is "done" with a truthy URL, after pending replies only |
| `Character.ObtainSucceedsIff` | character.py:105-126 | the result is `None` or "response.mp4". It is "response.mp4" exactly when some reply is "done" with a URL after pending replies only, and the download and the write succeed |

## Left out

- tts.py and the React frontend have no decision logic and are not part of this model.
- Calls to Gemini, ElevenLabs and D-ID are inputs, not simulated. This includes SDK behaviour such as `response.text` raising on parts without text. `Gemini.Response` keeps `text` independent of `parts`.
- File I/O is reduced to outcomes: the context file, the temporary audio file, and the video chunks in `static/`. So the chunk-writing loop of `obtain` is one success flag.
- `time.sleep(5)` between attempts is timing only and is not modelled.
- Whether the model really answers only from the context is service behaviour. The system instruction is not modelled.
- dotenv and API-key loading, HTTP headers and URLs, the hard-coded keys, `print` logging, Flask routing and templates are not modelled. `Transcription.Transcriber.constructor` takes the key's presence and the model's creation as inputs.
- The `Char` constructor only reads the D-ID key used in headers. A missing key, which makes `"Basic " + self.key` raise, is not modelled.
- The `process` request body, including the float voice settings (0.55), is not modelled. A non-JSON reply body, which makes `response.json()` raise, is not modelled either.
- Character.Obtain: exceptions from `requests.get` and non-JSON status bodies are not modelled. They escape `obtain` uncaught.
- Character.PollFrom: the status replies are a function from the attempt number to a reply. Replies after polling stops are never read.
- Strings.Lower: only ASCII letters are lower-cased. Python's `str.lower()` also folds other Unicode letters.
- Json.Json: numbers are integers. The core never inspects a fractional number.
- `json.dumps` and `json.loads` are parameters, and their round trip is a hypothesis where it is needed.
- The declared tool's argument schema is `None` in the source. The model carries no schema.
