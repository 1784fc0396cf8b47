/** transcriber.py: the `Transcriber` whose `model` field is set once by its
    constructor, the MIME type chosen for the upload, and the transcript or
    error string returned to the route. */
module Transcription {
  import opened Strings
  import opened Gemini

  const DefaultModelName := "gemini-1.5-flash"
  const TranscribePrompt := "Por favor, transcribe el siguiente audio."
  const OctetStream := "application/octet-stream"

  const NotInitialised := "Error: El modelo de transcripción "
    + "Gemini no está inicializado."
  const BlockedPrefix := "Transcripción bloqueada por Gemini. "
    + "Razón: "
  const BlockedSuffix := ". Revisa las safety settings o el contenido."
  const NoTranscript := "No se pudo obtener la transcripción "
    + "del audio (respuesta inesperada o vacía)."
  const ExceptionPrefix := "Error durante la transcripción "
    + "con Gemini: "
  /** `str(e)` of the `AttributeError` raised by `None.save(...)` when the
      request carries no `audio` file. */
  const MissingUploadError := "'NoneType' object has no attribute 'save'"

  /** The uploaded file: its client-side name (`None` when absent), the MIME
      type Flask detected (`""` when none), and the `str(e)` of an exception
      raised while saving it to, or reading it back from, the temporary file. */
  datatype Upload = Upload(filename: Option<string>, mimetype: string, storeError: Option<string>)

  /** What is sent to the model: the prompt and the MIME type of the audio part. */
  datatype AudioRequest = AudioRequest(prompt: string, mimeType: string)

  /** The string `transcribe` returns and the request it sent (`None`: none). */
  datatype Transcript = Transcript(text: string, sent: Option<AudioRequest>)

  // ---------------------------------------------------------------------
  // MIME type (transcriber.py:67-84)
  // ---------------------------------------------------------------------

  /** The lower-cased client file name, `""` when it is missing or empty. */
  function FileNameKey(filename: Option<string>): string
  {
    if filename.Some? && filename.value != "" then Lower(filename.value) else ""
  }

  /** A known audio extension of the lower-cased name. */
  predicate KnownExtension(name: string)
  {
    EndsWith(name, ".mp3") || EndsWith(name, ".wav") || EndsWith(name, ".webm") || EndsWith(name, ".ogg")
  }

  function MimeType(filename: Option<string>, detected: string): (m: string)
    ensures m != ""
  {
    var name := FileNameKey(filename);
    if EndsWith(name, ".mp3") then "audio/mpeg"
    else if EndsWith(name, ".wav") then "audio/wav"
    else if EndsWith(name, ".webm") then "audio/webm"
    else if EndsWith(name, ".ogg") then "audio/ogg"
    else if detected != "" && detected != OctetStream then detected
    else "audio/webm"
  }

  /** Two suffixes whose last characters differ are never both present. */
  lemma DistinctSuffixes(name: string, p: string, q: string)
    requires p != [] && q != [] && p[|p| - 1] != q[|q| - 1]
    ensures EndsWith(name, p) ==> !EndsWith(name, q)
  {
    if EndsWith(name, p) && |q| <= |name| {
      assert name[|name| - |p|..][|p| - 1] == name[|name| - 1];
      assert name[|name| - |q|..][|q| - 1] == name[|name| - 1];
    }
  }

  /** The extension of the lower-cased file name decides first, whatever Flask
      detected. */
  lemma MimeTypeByExtension(filename: Option<string>, detected: string)
    ensures var name := FileNameKey(filename); var m := MimeType(filename, detected);
      && (EndsWith(name, ".mp3") ==> m == "audio/mpeg")
      && (EndsWith(name, ".wav") ==> m == "audio/wav")
      && (EndsWith(name, ".webm") ==> m == "audio/webm")
      && (EndsWith(name, ".ogg") ==> m == "audio/ogg")
  {
    var name := FileNameKey(filename);
    DistinctSuffixes(name, ".mp3", ".wav");
    DistinctSuffixes(name, ".mp3", ".webm");
    DistinctSuffixes(name, ".mp3", ".ogg");
    DistinctSuffixes(name, ".wav", ".webm");
    DistinctSuffixes(name, ".wav", ".ogg");
  }

  /** Without a known extension, Flask's type is used unless it is empty or
      the generic `application/octet-stream`; then `audio/webm`. */
  lemma MimeTypeWithoutExtension(filename: Option<string>, detected: string)
    requires !KnownExtension(FileNameKey(filename))
    ensures MimeType(filename, detected) ==
      if detected != "" && detected != OctetStream then detected else "audio/webm"
  {
  }

  /** The extension test ignores the case of ASCII letters: `VOICE.MP3` is MP3. */
  lemma MimeTypeIgnoresCase(name: string, detected: string)
    requires EndsWith(name, ".MP3")
    ensures MimeType(Some(name), detected) == "audio/mpeg"
  {
    var key := Lower(name);
    assert key[|key| - 4..] == ".mp3" by {
      forall k | 0 <= k < 4 ensures key[|key| - 4 + k] == ".mp3"[k] {
        assert name[|name| - 4 + k] == ".MP3"[k] by {
          assert name[|name| - 4..][k] == name[|name| - 4 + k];
        }
      }
    }
  }

  // ---------------------------------------------------------------------
  // Transcript extraction (transcriber.py:95-114)
  // ---------------------------------------------------------------------

  /** `"".join(part.text for part in response.parts if hasattr(part, 'text'))`;
      a part without text contributes `""`. */
  function JoinTexts(parts: seq<Part>): string
  {
    if parts == [] then "" else parts[0].text + JoinTexts(parts[1..])
  }

  /** The joined text is empty exactly when every part's text is. */
  lemma {:induction false} JoinTextsEmpty(parts: seq<Part>)
    ensures JoinTexts(parts) == "" <==> forall i :: 0 <= i < |parts| ==> parts[i].text == ""
  {
    if parts != [] {
      JoinTextsEmpty(parts[1..]);
      assert forall i :: 1 <= i < |parts| ==> parts[i] == parts[1..][i - 1];
    }
  }

  /** `response.text` if non-empty, else the joined part texts if non-empty,
      else a message naming the block reason, else the "no transcript" message. */
  function TranscriptOf(r: Response): string
  {
    if r.text != "" then r.text
    else if |r.parts| > 0 && JoinTexts(r.parts) != "" then JoinTexts(r.parts)
    else if r.blockReason.Some? then BlockedPrefix + r.blockReason.value + BlockedSuffix
    else NoTranscript
  }

  /** The body of `transcribe` once the model exists: store the upload, pick
      the MIME type, call the model, and read its reply; every exception is
      caught and its message returned. */
  function TranscribeUpload(upload: Option<Upload>, reply: Reply): (t: Transcript)
    ensures t.sent.Some? <==> upload.Some? && upload.value.storeError.None?
    ensures t.sent.Some? ==> t.sent.value == AudioRequest(TranscribePrompt, MimeType(upload.value.filename, upload.value.mimetype))
  {
    match upload
    case None => Transcript(ExceptionPrefix + MissingUploadError, None)
    case Some(u) =>
      match u.storeError
      case Some(e) => Transcript(ExceptionPrefix + e, None)
      case None =>
        var request := AudioRequest(TranscribePrompt, MimeType(u.filename, u.mimetype));
        match reply
        case Raised(e) => Transcript(ExceptionPrefix + e, Some(request))
        case Replied(r) => Transcript(TranscriptOf(r), Some(request))
  }

  class Transcriber {
    /** `self.model`: the model's name once created, `None` when there is no
        API key or creating the model raised. */
    var model: Option<string>

    constructor (apiKeyPresent: bool, modelName: string, created: bool)
      ensures model == if apiKeyPresent && created then Some(modelName) else None
    {
      if !apiKeyPresent {
        model := None;
      } else if created {
        model := Some(modelName);
      } else {
        model := None;
      }
    }

    /** `transcribe`: without a model it returns the "not initialised" error
        string and sends nothing. */
    function Transcribe(upload: Option<Upload>, reply: Reply): (t: Transcript)
      reads this
      ensures model.None? ==> t.sent.None? && t.text == NotInitialised && StartsWith(t.text, "Error:")
      ensures t.sent.Some? ==> model.Some?
    {
      if model.None? then Transcript(NotInitialised, None) else TranscribeUpload(upload, reply)
    }
  }

  // ---------------------------------------------------------------------
  // Properties of the returned string
  // ---------------------------------------------------------------------

  /** A non-empty `response.text` is the transcript. */
  lemma TranscriptPrefersText(r: Response)
    requires r.text != ""
    ensures TranscriptOf(r) == r.text
  {
  }

  /** Otherwise the parts' texts, when any of them is non-empty. */
  lemma TranscriptFromParts(r: Response, i: nat)
    requires r.text == "" && i < |r.parts| && r.parts[i].text != ""
    ensures TranscriptOf(r) == JoinTexts(r.parts)
  {
    JoinTextsEmpty(r.parts);
  }

  /** With no usable text the string says why: blocked, or nothing came back. */
  lemma TranscriptWithoutText(r: Response)
    requires r.text == "" && forall i :: 0 <= i < |r.parts| ==> r.parts[i].text == ""
    ensures r.blockReason.Some? ==> TranscriptOf(r) == BlockedPrefix + r.blockReason.value + BlockedSuffix
    ensures r.blockReason.Some? ==> StartsWith(TranscriptOf(r), "Transcripción bloqueada")
    ensures r.blockReason.None? ==> TranscriptOf(r) == NoTranscript && StartsWith(TranscriptOf(r), "No se pudo")
  {
    JoinTextsEmpty(r.parts);
  }

  /** Every caught exception yields `"Error durante la transcripción con Gemini: "`
      followed by its message. */
  lemma ExceptionMessage(upload: Option<Upload>, reply: Reply)
    requires upload.None? || upload.value.storeError.Some? || reply.Raised?
    ensures StartsWith(TranscribeUpload(upload, reply).text, ExceptionPrefix)
    ensures StartsWith(TranscribeUpload(upload, reply).text, "Error durante")
  {
  }
}
