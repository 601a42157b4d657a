/** The `/api/ai` routes: text generation, the image/video/audio placeholders, audio
    transcription and chat. Each checks its one required field, fills in the defaults
    of the destructured parameters and shapes the reply; the Gemini model, `fetch` and
    the file system are oracles. The text, chat and language fields are the strings the
    routes expect (None: absent); the fields the image, video, speech and transcription
    routes only test, echo or call a string method on, and the parameters with
    defaults, are any JSON value. */
module AiRoutes {
  import opened Json
  import opened Text
  import opened Http

  /** A byte of audio data. */
  type Byte = b: int | 0 <= b < 256

  /** What the model is asked for. */
  datatype ModelCall =
    | TextCall(prompt: string, maxOutputTokens: Json, temperature: Json)
    | AudioCall(data: seq<Byte>, mimeType: string)
    | ChatCall(prompt: string)

  /** `model.generateContent(...)` then `response.text()`: the text, or the message of
      what was thrown. */
  type Model = ModelCall -> Result<string, string>

  /** The message of the TypeError thrown when `expr` names a method that a non-string
      value does not have (a JSON value holds no functions). */
  function NotAFunction(expr: string): string {
    expr + " is not a function"
  }

  function BadRequest(message: string): Outcome {
    ErrorReply(400, "Bad Request", message)
  }

  /** A 200 answer `{ success: true, [message], data }`. */
  function Succeed(message: Option<string>, data: map<string, Json>): Outcome {
    Respond(Reply(200, map["success" := Bool(true), "data" := Obj(data)]
                       + (if message.Some? then map["message" := Str(message.value)] else map[])))
  }

  /** The `data` object of a successful answer. */
  function DataOf(o: Outcome): Option<map<string, Json>> {
    if o.Respond? && o.resp.status == 200 then
      match BodyField(o.resp, "data")
      case Some(Obj(d)) => Some(d)
      case _ => None
    else None
  }

  lemma DataOfSuccess(message: Option<string>, data: map<string, Json>)
    ensures DataOf(Succeed(message, data)) == Some(data)
  {
    var body := map["success" := Bool(true), "data" := Obj(data)]
                + (if message.Some? then map["message" := Str(message.value)] else map[]);
    assert "data" in body && body["data"] == Obj(data);
  }

  // ---- POST /text/generate ----

  datatype TextBody = TextBody(prompt: Option<string>, maxTokens: Option<Json>, temperature: Option<Json>)

  /** The model call the text route makes: the prompt, with `maxTokens = 1000` and
      `temperature = 0.7` when absent. */
  function TextRequest(body: TextBody): ModelCall
    requires Given(body.prompt)
  {
    TextCall(body.prompt.value, Defaulted(body.maxTokens, Num(1000.0)), Defaulted(body.temperature, Num(0.7)))
  }

  function GenerateText(body: TextBody, model: Model): (o: Outcome)
    ensures !Given(body.prompt) ==> o == BadRequest("Prompt is required")
    ensures Given(body.prompt) ==>
      match model(TextRequest(body))
      case Failure(e) => o == Forward(e)
      case Success(text) =>
        DataOf(o) == Some(map["text" := Str(text),
                              "promptTokens" := Num(Utf16Length(body.prompt.value) as real),
                              "completionTokens" := Num(Utf16Length(text) as real)])
  {
    if !Given(body.prompt) then BadRequest("Prompt is required")
    else match model(TextRequest(body))
      case Failure(e) => Forward(e)
      case Success(text) =>
        var data := map["text" := Str(text),
                        "promptTokens" := Num(Utf16Length(body.prompt.value) as real),
                        "completionTokens" := Num(Utf16Length(text) as real)];
        DataOfSuccess(None, data);
        Succeed(None, data)
  }

  /** A default takes effect only for an absent parameter: `null`, `0` or `""` are
      passed to the model as given. */
  lemma TextDefaultsOnlyWhenAbsent(body: TextBody)
    requires Given(body.prompt)
    ensures TextRequest(body).maxOutputTokens == if body.maxTokens.None? then Num(1000.0) else body.maxTokens.value
    ensures TextRequest(body).temperature == if body.temperature.None? then Num(0.7) else body.temperature.value
  {
  }

  // ---- encodeURIComponent ----

  /** The characters `encodeURIComponent` leaves as they are. */
  predicate Unreserved(c: char) {
    ('A' <= c <= 'Z') || ('a' <= c <= 'z') || ('0' <= c <= '9')
    || c == '-' || c == '_' || c == '.' || c == '!' || c == '~' || c == '*' || c == '\'' || c == '(' || c == ')'
  }

  function HexDigit(d: nat): (c: char)
    requires d < 16
    ensures Unreserved(c)
  {
    if d < 10 then DigitChar(d) else ('A' as int + d - 10) as char
  }

  function HexValue(c: char): nat {
    if '0' <= c <= '9' then c as int - '0' as int
    else if 'A' <= c <= 'F' then c as int - 'A' as int + 10
    else if 'a' <= c <= 'f' then c as int - 'a' as int + 10
    else 16
  }

  lemma HexRoundTrip(d: nat)
    requires d < 16
    ensures HexValue(HexDigit(d)) == d
  {
  }

  /** The UTF-8 encoding of one character. */
  function Utf8(c: char): (bytes: seq<Byte>)
    ensures 1 <= |bytes| <= 4
    ensures c as int < 0x80 <==> bytes == [c as int]
  {
    var cp := c as int;
    if cp < 0x80 then [cp]
    else if cp < 0x800 then [0xC0 + cp / 64, 0x80 + cp % 64]
    else if cp < 0x10000 then [0xE0 + cp / 4096, 0x80 + (cp / 64) % 64, 0x80 + cp % 64]
    else [0xF0 + cp / 262144, 0x80 + (cp / 4096) % 64, 0x80 + (cp / 64) % 64, 0x80 + cp % 64]
  }

  /** `%XY` for each byte, upper-case hexadecimal. */
  function Escape(bytes: seq<Byte>): (r: string)
    ensures |r| == 3 * |bytes|
  {
    if bytes == [] then [] else ['%', HexDigit(bytes[0] / 16), HexDigit(bytes[0] % 16)] + Escape(bytes[1..])
  }

  /** `encodeURIComponent(s)`. */
  function EncodeUriComponent(s: string): (r: string)
    ensures |r| >= |s|
    ensures (forall i :: 0 <= i < |s| ==> Unreserved(s[i])) ==> r == s
  {
    if s == [] then []
    else (if Unreserved(s[0]) then [s[0]] else Escape(Utf8(s[0]))) + EncodeUriComponent(s[1..])
  }

  predicate UrlSafe(s: string) {
    forall i :: 0 <= i < |s| ==> Unreserved(s[i]) || s[i] == '%'
  }

  lemma {:induction false} EscapeIsUrlSafe(bytes: seq<Byte>)
    ensures UrlSafe(Escape(bytes))
  {
    if bytes != [] {
      EscapeIsUrlSafe(bytes[1..]);
    }
  }

  /** The encoded text holds nothing but unreserved characters and `%` escapes, so it
      cannot end the query value or the URL. */
  lemma {:induction false} EncodedIsUrlSafe(s: string)
    ensures UrlSafe(EncodeUriComponent(s))
  {
    if s != [] {
      EncodedIsUrlSafe(s[1..]);
      if !Unreserved(s[0]) {
        EscapeIsUrlSafe(Utf8(s[0]));
      }
    }
  }

  /** `decodeURIComponent` for text whose escapes are all of single bytes below 0x80:
      each `%XY` becomes the character with that code, other characters stay. */
  function DecodeAscii(s: string): string {
    if s == [] then []
    else if |s| >= 3 && s[0] == '%' && HexValue(s[1]) < 16 && HexValue(s[2]) < 16 then
      [(HexValue(s[1]) * 16 + HexValue(s[2])) as char] + DecodeAscii(s[3..])
    else [s[0]] + DecodeAscii(s[1..])
  }

  predicate Ascii(s: string) {
    forall i :: 0 <= i < |s| ==> s[i] as int < 0x80
  }

  lemma DecodeEscapedChar(c: char, rest: string)
    requires c as int < 0x80 && !Unreserved(c)
    ensures DecodeAscii(Escape(Utf8(c)) + rest) == [c] + DecodeAscii(rest)
  {
    var b := c as int;
    HexRoundTrip(b / 16);
    HexRoundTrip(b % 16);
    var e := Escape(Utf8(c)) + rest;
    assert Escape(Utf8(c)) == ['%', HexDigit(b / 16), HexDigit(b % 16)];
    assert e[3..] == rest;
  }

  /** Decoding gives back the text of an ASCII string: nothing is lost. */
  lemma {:induction false} EncodeRoundTrip(s: string)
    requires Ascii(s)
    ensures DecodeAscii(EncodeUriComponent(s)) == s
  {
    if s != [] {
      EncodeRoundTrip(s[1..]);
      var rest := EncodeUriComponent(s[1..]);
      if Unreserved(s[0]) {
        assert ([s[0]] + rest)[1..] == rest;
      } else {
        DecodeEscapedChar(s[0], rest);
      }
    }
  }

  // ---- POST /image/generate ----

  datatype ImageBody = ImageBody(prompt: Option<Json>, aspectRatio: Option<Json>, quality: Option<Json>)

  const PlaceholderBase := "https://via.placeholder.com/512x512.png?text="

  /** The placeholder image URL for the first 50 UTF-16 units of the prompt; None when
      that cut splits a surrogate pair, which `encodeURIComponent` refuses. */
  function PlaceholderUrl(prompt: string): (r: Option<string>)
    ensures r.None? <==> Utf16Prefix(prompt, 50).None?
    ensures r.Some? ==> StartsWith(r.value, PlaceholderBase)
  {
    match Utf16Prefix(prompt, 50)
    case None => None
    case Some(head) => Some(PlaceholderBase + EncodeUriComponent(head))
  }

  /** The prompt is any truthy JSON value; `prompt.substring` throws unless it is a string. */
  function GenerateImage(body: ImageBody): (o: Outcome)
    ensures !Present(body.prompt) ==> o == BadRequest("Prompt is required")
    ensures Present(body.prompt) && !body.prompt.value.Str? ==> o == Forward(NotAFunction("prompt.substring"))
    ensures Present(body.prompt) && body.prompt.value.Str? && PlaceholderUrl(body.prompt.value.s).None? ==>
      o == Forward("URI malformed")
    ensures Present(body.prompt) && body.prompt.value.Str? && PlaceholderUrl(body.prompt.value.s).Some? ==>
      DataOf(o) == Some(map["prompt" := body.prompt.value,
                            "aspectRatio" := Defaulted(body.aspectRatio, Str("1:1")),
                            "quality" := Defaulted(body.quality, Str("standard")),
                            "placeholder" := Str(PlaceholderUrl(body.prompt.value.s).value)])
  {
    if !Present(body.prompt) then BadRequest("Prompt is required")
    else if !body.prompt.value.Str? then Forward(NotAFunction("prompt.substring"))
    else match PlaceholderUrl(body.prompt.value.s)
      case None => Forward("URI malformed")
      case Some(url) =>
        var data := map["prompt" := body.prompt.value,
                         "aspectRatio" := Defaulted(body.aspectRatio, Str("1:1")),
                         "quality" := Defaulted(body.quality, Str("standard")),
                         "placeholder" := Str(url)];
        DataOfSuccess(Some("Image generation feature coming soon"), data);
        Succeed(Some("Image generation feature coming soon"), data)
  }

  lemma {:induction false} AsciiUtf16Prefix(s: string, n: nat)
    requires Ascii(s)
    ensures Utf16Prefix(s, n) == Some(s[..if |s| < n then |s| else n])
  {
    if s != [] && n != 0 {
      AsciiUtf16Prefix(s[1..], n - 1);
      assert [s[0]] + s[1..][..if |s| - 1 < n - 1 then |s| - 1 else n - 1] == s[..if |s| < n then |s| else n];
    }
  }

  /** For an ASCII prompt the placeholder's `text` parameter decodes to the prompt cut
      to 50 characters. */
  lemma PlaceholderCarriesPrompt(prompt: string)
    requires Ascii(prompt)
    ensures var cut := if |prompt| < 50 then |prompt| else 50;
      && PlaceholderUrl(prompt).Some?
      && StartsWith(PlaceholderUrl(prompt).value, PlaceholderBase)
      && var query := PlaceholderUrl(prompt).value[|PlaceholderBase|..];
         UrlSafe(query) && DecodeAscii(query) == prompt[..cut]
  {
    var cut := if |prompt| < 50 then |prompt| else 50;
    AsciiUtf16Prefix(prompt, 50);
    var head := prompt[..cut];
    assert Ascii(head);
    EncodeRoundTrip(head);
    EncodedIsUrlSafe(head);
    var url := PlaceholderBase + EncodeUriComponent(head);
    assert url[|PlaceholderBase|..] == EncodeUriComponent(head);
  }

  // ---- POST /video/generate ----

  datatype VideoBody = VideoBody(prompt: Option<Json>, duration: Option<Json>, quality: Option<Json>)

  /** The prompt is any truthy JSON value, echoed back as it came. */
  function GenerateVideo(body: VideoBody): (o: Outcome)
    ensures !Present(body.prompt) ==> o == BadRequest("Prompt is required")
    ensures Present(body.prompt) ==>
      DataOf(o) == Some(map["prompt" := body.prompt.value,
                            "duration" := Defaulted(body.duration, Num(5.0)),
                            "quality" := Defaulted(body.quality, Str("standard")),
                            "placeholder" := Str("Video generation will be available soon")])
  {
    if !Present(body.prompt) then BadRequest("Prompt is required")
    else
      var data := map["prompt" := body.prompt.value,
                       "duration" := Defaulted(body.duration, Num(5.0)),
                       "quality" := Defaulted(body.quality, Str("standard")),
                       "placeholder" := Str("Video generation will be available soon")];
      DataOfSuccess(Some("Video generation feature coming soon"), data);
      Succeed(Some("Video generation feature coming soon"), data)
  }

  // ---- POST /audio/generate ----

  datatype SpeechBody = SpeechBody(text: Option<Json>, voice: Option<Json>, speed: Option<Json>, language: Option<Json>)

  /** The text is any truthy JSON value (reading `text.length` for the log does not
      throw), echoed back as it came. */
  function GenerateAudio(body: SpeechBody): (o: Outcome)
    ensures !Present(body.text) ==> o == BadRequest("Text is required")
    ensures Present(body.text) ==>
      DataOf(o) == Some(map["text" := body.text.value,
                            "voice" := Defaulted(body.voice, Str("default")),
                            "speed" := Defaulted(body.speed, Num(1.0)),
                            "language" := Defaulted(body.language, Str("en")),
                            "placeholder" := Str("Audio generation will be available soon")])
  {
    if !Present(body.text) then BadRequest("Text is required")
    else
      var data := map["text" := body.text.value,
                       "voice" := Defaulted(body.voice, Str("default")),
                       "speed" := Defaulted(body.speed, Num(1.0)),
                       "language" := Defaulted(body.language, Str("en")),
                       "placeholder" := Str("Audio generation will be available soon")];
      DataOfSuccess(Some("Audio generation feature coming soon"), data);
      Succeed(Some("Audio generation feature coming soon"), data)
  }

  // ---- POST /audio/transcribe ----

  /** Where the audio comes from: a URL to fetch, or a local path read from disk with a
      type guessed from its name. */
  datatype AudioSource = Remote(url: string) | Local(path: string, mimeType: string)

  function LocalMimeType(path: string): (t: string)
    ensures t == "audio/mp3" <==> Contains(path, ".mp3")
    ensures t == "audio/wav" <==> !Contains(path, ".mp3") && Contains(path, ".wav")
    ensures t == "audio/webm" <==> !Contains(path, ".mp3") && !Contains(path, ".wav")
  {
    if Contains(path, ".mp3") then "audio/mp3" else if Contains(path, ".wav") then "audio/wav" else "audio/webm"
  }

  function SourceOf(audioUrl: string): (s: AudioSource)
    ensures s.Remote? <==> StartsWith(audioUrl, "http")
  {
    if StartsWith(audioUrl, "http") then Remote(audioUrl) else Local(audioUrl, LocalMimeType(audioUrl))
  }

  /** What `fetch` answered: `ok`, `statusText`, the `content-type` header (None when
      absent) and the body. */
  datatype Fetched = Fetched(ok: bool, statusText: string, contentType: Option<string>, data: seq<Byte>)

  /** The bytes and the type handed to the model, or the message of what was thrown. */
  function LoadAudio(source: AudioSource, fetch: string -> Result<Fetched, string>,
                     readFile: string -> Result<seq<Byte>, string>): (r: Result<ModelCall, string>)
    ensures r.Success? ==> r.value.AudioCall?
    ensures source.Remote? ==>
      match fetch(source.url)
      case Failure(e) => r == Failure(e)
      case Success(f) =>
        if !f.ok then r == Failure("Failed to fetch audio: " + f.statusText)
        else r == Success(AudioCall(f.data, if Given(f.contentType) then f.contentType.value else "audio/webm"))
    ensures source.Local? ==>
      match readFile(source.path)
      case Failure(e) => r == Failure(e)
      case Success(data) => r == Success(AudioCall(data, source.mimeType))
  {
    match source
    case Remote(url) =>
      (match fetch(url)
       case Failure(e) => Failure(e)
       case Success(f) =>
         if !f.ok then Failure("Failed to fetch audio: " + f.statusText)
         else Success(AudioCall(f.data, if Given(f.contentType) then f.contentType.value else "audio/webm")))
    case Local(path, mimeType) =>
      (match readFile(path)
       case Failure(e) => Failure(e)
       case Success(data) => Success(AudioCall(data, mimeType)))
  }

  datatype TranscribeBody = TranscribeBody(audioUrl: Option<Json>, language: Option<Json>)

  /** The URL is any truthy JSON value; `audioUrl.startsWith` throws unless it is a string. */
  function Transcribe(body: TranscribeBody, model: Model, fetch: string -> Result<Fetched, string>,
                      readFile: string -> Result<seq<Byte>, string>): (o: Outcome)
    ensures !Present(body.audioUrl) ==> o == BadRequest("Audio URL is required")
    ensures Present(body.audioUrl) && !body.audioUrl.value.Str? ==> o == Forward(NotAFunction("audioUrl.startsWith"))
    ensures Present(body.audioUrl) && body.audioUrl.value.Str? ==>
      match LoadAudio(SourceOf(body.audioUrl.value.s), fetch, readFile)
      case Failure(e) => o == Forward(e)
      case Success(call) =>
        match model(call)
        case Failure(e) => o == Forward(e)
        case Success(t) =>
          DataOf(o) == Some(map["transcript" := Str(Trim(t)),
                                "language" := Defaulted(body.language, Str("auto")),
                                "audioUrl" := body.audioUrl.value])
  {
    if !Present(body.audioUrl) then BadRequest("Audio URL is required")
    else if !body.audioUrl.value.Str? then Forward(NotAFunction("audioUrl.startsWith"))
    else match LoadAudio(SourceOf(body.audioUrl.value.s), fetch, readFile)
      case Failure(e) => Forward(e)
      case Success(call) =>
        match model(call)
        case Failure(e) => Forward(e)
        case Success(t) =>
          var data := map["transcript" := Str(Trim(t)),
                           "language" := Defaulted(body.language, Str("auto")),
                           "audioUrl" := body.audioUrl.value];
          DataOfSuccess(None, data);
          Succeed(None, data)
  }

  /** The transcript sent back has no whitespace at either end, and is what the model
      said once trimmed: sending it through `trim` again changes nothing. */
  lemma TranscriptIsTrimmed(t: string)
    ensures var r := Trim(t); (r == [] || (!IsSpace(r[0]) && !IsSpace(r[|r| - 1]))) && Trim(r) == r
  {
    TrimEndsOnNonSpace(t);
    TrimIdempotent(t);
  }

  // ---- POST /chat ----

  datatype ChatBody = ChatBody(message: Option<string>, conversationId: Option<Json>, systemPrompt: Option<string>)

  /** The prompt sent for a chat message: the system prompt, a blank line and
      `User: <message>` when there is a system prompt, the message alone otherwise. */
  function ChatPrompt(message: string, systemPrompt: Option<string>): (p: string)
    ensures |p| >= |message| && p[|p| - |message|..] == message
    ensures !Given(systemPrompt) ==> p == message
    ensures Given(systemPrompt) ==> StartsWith(p, systemPrompt.value + "\n\nUser: ")
  {
    if Given(systemPrompt) then systemPrompt.value + "\n\nUser: " + message else message
  }

  /** The system prompt and the message can be read back from the composed prompt. */
  lemma ChatPromptSeparates(message: string, systemPrompt: string)
    requires systemPrompt != ""
    ensures var p := ChatPrompt(message, Some(systemPrompt));
      p[..|systemPrompt|] == systemPrompt && p[|systemPrompt|..|p| - |message|] == "\n\nUser: "
  {
  }

  /** `conversationId || conv_<now>`: a given (truthy) id is echoed unchanged. */
  function ConversationId(given: Option<Json>, now: int): (id: Json)
    ensures Present(given) ==> id == given.value
    ensures !Present(given) ==> id == Str("conv_" + IntToString(now))
  {
    OrElse(given, Str("conv_" + IntToString(now)))
  }

  /** `iso` renders an epoch time in milliseconds as `toISOString` does. */
  function Chat(body: ChatBody, model: Model, now: int, iso: int -> string): (o: Outcome)
    ensures !Given(body.message) ==> o == BadRequest("Message is required")
    ensures Given(body.message) ==>
      match model(ChatCall(ChatPrompt(body.message.value, body.systemPrompt)))
      case Failure(e) => o == Forward(e)
      case Success(text) =>
        DataOf(o) == Some(map["message" := Str(text),
                              "conversationId" := ConversationId(body.conversationId, now),
                              "timestamp" := Str(iso(now))])
  {
    if !Given(body.message) then BadRequest("Message is required")
    else match model(ChatCall(ChatPrompt(body.message.value, body.systemPrompt)))
      case Failure(e) => Forward(e)
      case Success(text) =>
        var data := map["message" := Str(text),
                         "conversationId" := ConversationId(body.conversationId, now),
                         "timestamp" := Str(iso(now))];
        DataOfSuccess(None, data);
        Succeed(None, data)
  }

  /** Every route answers a request missing its required field with 400 whatever the
      model, the network and the disk would do: none of them is consulted. */
  lemma GuardsPrecedeModelCalls(model1: Model, model2: Model, fetch1: string -> Result<Fetched, string>,
                                fetch2: string -> Result<Fetched, string>,
                                read1: string -> Result<seq<Byte>, string>, read2: string -> Result<seq<Byte>, string>,
                                text: TextBody, transcribe: TranscribeBody, chat: ChatBody, now: int, iso: int -> string)
    ensures !Given(text.prompt) ==>
      GenerateText(text, model1) == GenerateText(text, model2) && GenerateText(text, model1).resp.status == 400
    ensures !Present(transcribe.audioUrl) ==>
      Transcribe(transcribe, model1, fetch1, read1) == Transcribe(transcribe, model2, fetch2, read2)
      && Transcribe(transcribe, model1, fetch1, read1).resp.status == 400
    ensures !Given(chat.message) ==>
      Chat(chat, model1, now, iso) == Chat(chat, model2, now, iso) && Chat(chat, model1, now, iso).resp.status == 400
  {
  }
}
