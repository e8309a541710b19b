/** The requests the journal sends to the generative-model service and what it makes
    of the replies. The service itself is not modelled: each call's reply is a
    parameter, `Err` when the call throws, and a reply whose text is absent is `None`. */
module GeminiService {
  import opened Wrappers
  import opened Types
  import opened Text

  /** The model used for transcription and interpretation. */
  const TextModel := "gemini-3-flash-preview"

  datatype InlineData = InlineData(mimeType: string, data: string)

  // ---------------------------------------------------------------- transcription

  const RecordingMimeType := "audio/webm"
  const TranscriptionInstruction :=
    "Please transcribe this dream recording exactly. Only provide the text of the transcription."
  const TranscriptionFallback := "Transcription failed."

  /** The recording as inline data, followed by the instruction to transcribe it verbatim. */
  datatype TranscriptionRequest = TranscriptionRequest(model: string, audio: InlineData, instruction: string)

  function TranscriptionRequestFor(base64Audio: string): (req: TranscriptionRequest)
    ensures req.audio == InlineData(RecordingMimeType, base64Audio)
    ensures req.model == TextModel && req.instruction == TranscriptionInstruction
  {
    TranscriptionRequest(TextModel, InlineData(RecordingMimeType, base64Audio), TranscriptionInstruction)
  }

  /** `text || fallback`: the reply's text unless it is absent or empty. */
  function TextOr(text: Option<string>, fallback: string): (r: string)
    ensures text.Some? && text.value != "" ==> r == text.value
    ensures text.None? || text.value == "" ==> r == fallback
  {
    if text.Some? && text.value != "" then text.value else fallback
  }

  /** What `transcribeAudio` returns for the service's reply: a failed call propagates;
      otherwise never an empty text: a non-empty reply is passed on unchanged, and the
      fallback appears exactly when the reply had no text (or happened to be the
      fallback itself). */
  function TranscribeAudio(reply: Result<Option<string>>): (r: Result<string>)
    ensures reply.Err? ==> r == Err(reply.message)
    ensures reply.Ok? ==> r.Ok? && r.value != ""
    ensures reply.Ok? ==>
      (r.value == TranscriptionFallback <==>
         reply.value.None? || reply.value.value == "" || reply.value.value == TranscriptionFallback)
    ensures reply.Ok? && reply.value.Some? && reply.value.value != "" ==> r == Ok(reply.value.value)
  {
    match reply
    case Err(m) => Err(m)
    case Ok(text) => Ok(TextOr(text, TranscriptionFallback))
  }

  // --------------------------------------------------------------- interpretation

  const InterpretationPreamble :=
    "Analyze this dream from a Jungian perspective. Focus on archetypes and symbols. Return a JSON object matching this structure:\n"
    + "    {\n"
    + "      \"coreTheme\": \"string\",\n"
    + "      \"archetypes\": [{\"name\": \"string\", \"description\": \"string\"}],\n"
    + "      \"symbols\": [{\"object\": \"string\", \"meaning\": \"string\"}],\n"
    + "      \"psychologicalContext\": \"string\"\n"
    + "    }\n"
    + "    \n"
    + "    Dream: "
  const JsonMimeType := "application/json"
  const EmptyJson := "{}"
  const InvalidFormatMessage := "Invalid interpretation format returned from API"

  /** The interpretation request: the fixed instructions with the transcription at the end,
      asking for a JSON reply. */
  datatype InterpretationRequest = InterpretationRequest(model: string, contents: string, responseMimeType: string)

  function InterpretationRequestFor(transcription: string): (req: InterpretationRequest)
    ensures req.model == TextModel && req.responseMimeType == JsonMimeType
    ensures |req.contents| == |InterpretationPreamble| + |transcription|
    ensures req.contents[..|InterpretationPreamble|] == InterpretationPreamble
    ensures req.contents[|InterpretationPreamble|..] == transcription
  {
    InterpretationRequest(TextModel, InterpretationPreamble + transcription, JsonMimeType)
  }

  /** What `interpretDream` returns. `parse` stands for `JSON.parse`: `None` where it throws.
      A missing or empty reply text is parsed as `{}`; the only error raised here is the
      invalid-format one, when parsing fails; the parsed value is not checked against
      the expected shape. */
  function InterpretDream(reply: Result<Option<string>>, parse: string -> Option<Interpretation>)
    : (r: Result<Interpretation>)
    ensures reply.Err? ==> r == Err(reply.message)
    ensures reply.Ok? ==>
      var text := if reply.value.Some? && reply.value.value != "" then reply.value.value else EmptyJson;
      && (r.Ok? <==> parse(text).Some?)
      && (r.Ok? ==> r.value == parse(text).value)
      && (r.Err? ==> r.message == InvalidFormatMessage)
  {
    match reply
    case Err(m) => Err(m)
    case Ok(text) =>
      match parse(TextOr(text, EmptyJson))
      case Some(interpretation) => Ok(interpretation)
      case None => Err(InvalidFormatMessage)
  }

  // ---------------------------------------------------------------- illustration

  const FlashImageModel := "gemini-2.5-flash-image"
  const ProImageModel := "gemini-3-pro-image-preview"
  const SquareAspectRatio := "1:1"
  const NoImageMessage := "No image generated"
  /** What reading `content` of the absent first candidate throws. */
  const MissingCandidateMessage := "Cannot read properties of undefined (reading 'content')"
  /** The `data:` URL form of section 3 of RFC 2397, for base64-encoded PNG data. */
  const PngDataUrlPrefix := "data:image/png;base64,"

  const PromptOpening := "A surrealist masterpiece capturing the core theme: \""
  const PromptSymbols := "\". \n  Prominent symbols: "
  const PromptClosing :=
    ". \n  Art style: Ethereal atmospheric surrealism, cinematic lighting, high contrast, dream-like textures."
  const SymbolSeparator := ", "

  /** The faster model renders the lowest tier; the other two tiers use the pro model. */
  function ImageModelFor(size: ImageSize): (model: string)
    ensures model == FlashImageModel <==> size == Size1K
    ensures model == ProImageModel <==> size != Size1K
  {
    if size == Size1K then FlashImageModel else ProImageModel
  }

  /** The `object` names of the symbols, in order. */
  function SymbolObjects(symbols: seq<DreamSymbol>): (names: seq<string>)
    ensures |names| == |symbols|
    ensures forall i :: 0 <= i < |symbols| ==> names[i] == symbols[i].objectName
  {
    seq(|symbols|, i requires 0 <= i < |symbols| => symbols[i].objectName)
  }

  /** The image prompt, for any interpretation: the fixed opening, the core theme
      quoted in full, the fixed lead-in to the symbols, the symbols' listing, and the
      fixed art-style closing, in that order. */
  function ImagePrompt(interp: Interpretation): (p: string)
    ensures
      var themeEnd := |PromptOpening| + |interp.coreTheme|;
      var listStart := themeEnd + |PromptSymbols|;
      && |p| >= listStart + |PromptClosing|
      && p[..|PromptOpening|] == PromptOpening
      && p[|PromptOpening|..themeEnd] == interp.coreTheme
      && p[themeEnd..listStart] == PromptSymbols
      && p[|p| - |PromptClosing|..] == PromptClosing
  {
    var listing := Join(SymbolObjects(interp.symbols), SymbolSeparator);
    FiveParts(PromptOpening, interp.coreTheme, PromptSymbols, listing, PromptClosing);
    PromptOpening + interp.coreTheme + PromptSymbols + listing + PromptClosing
  }

  /** Where each of five concatenated strings lies. */
  lemma FiveParts(a: string, b: string, c: string, d: string, e: string)
    ensures var p := a + b + c + d + e;
      && |p| == |a| + |b| + |c| + |d| + |e|
      && p[..|a|] == a && p[|a|..|a| + |b|] == b && p[|a| + |b|..|a| + |b| + |c|] == c
      && p[|a| + |b| + |c|..|p| - |e|] == d && p[|p| - |e|..] == e
  {
  }

  /** The part of the prompt between the lead-in and the closing. */
  function PromptListing(interp: Interpretation): string {
    var p := ImagePrompt(interp);
    p[|PromptOpening| + |interp.coreTheme| + |PromptSymbols|..|p| - |PromptClosing|]
  }

  /** The listing is the symbols' names joined with ", ". */
  lemma ListingIsJoin(interp: Interpretation)
    ensures PromptListing(interp) == Join(SymbolObjects(interp.symbols), SymbolSeparator)
  {
    var listing := Join(SymbolObjects(interp.symbols), SymbolSeparator);
    FiveParts(PromptOpening, interp.coreTheme, PromptSymbols, listing, PromptClosing);
  }

  /** For any interpretation, the listing starts with the first symbol's name and
      ends with the last one's, and it is empty exactly when there are no symbols or
      a single symbol with an empty name. */
  lemma ImagePromptListing(interp: Interpretation)
    ensures
      var listing := PromptListing(interp);
      var symbols := interp.symbols;
      && (listing == "" <==> |symbols| == 0 || (|symbols| == 1 && symbols[0].objectName == ""))
      && (|symbols| >= 1 ==>
            && |listing| >= |symbols[0].objectName|
            && listing[..|symbols[0].objectName|] == symbols[0].objectName
            && |listing| >= |symbols[|symbols| - 1].objectName|
            && listing[|listing| - |symbols[|symbols| - 1].objectName|..] == symbols[|symbols| - 1].objectName)
      && (|symbols| >= 2 ==>
            listing[|symbols[0].objectName|..|symbols[0].objectName| + |SymbolSeparator|] == SymbolSeparator)
  {
    var names := SymbolObjects(interp.symbols);
    ListingIsJoin(interp);
    JoinShape(names, SymbolSeparator);
  }

  /** Splitting the listing at ", " gives the symbols' names back, in order, whenever
      there is at least one symbol and no name contains a comma. */
  lemma ImagePromptListingSplits(interp: Interpretation)
    requires |interp.symbols| >= 1
    requires forall i :: 0 <= i < |interp.symbols| ==> ',' !in interp.symbols[i].objectName
    ensures Split(PromptListing(interp), SymbolSeparator) == SymbolObjects(interp.symbols)
  {
    var names := SymbolObjects(interp.symbols);
    ListingIsJoin(interp);
    SplitJoin(names, SymbolSeparator);
  }

  datatype ImageConfig = ImageConfig(aspectRatio: string, imageSize: Option<ImageSize>)

  datatype ImageRequest = ImageRequest(model: string, prompt: string, config: ImageConfig)

  /** The image request for an interpretation at a tier: always square; the tier is
      passed on as `imageSize` only to the pro model, so a 1K request carries none. */
  function ImageRequestFor(interp: Interpretation, size: ImageSize): (req: ImageRequest)
    ensures req.model == ImageModelFor(size) && req.prompt == ImagePrompt(interp)
    ensures req.config.aspectRatio == SquareAspectRatio
    ensures req.config.imageSize.Some? <==> size != Size1K
    ensures req.config.imageSize.Some? ==> req.config.imageSize.value == size
  {
    var model := ImageModelFor(size);
    ImageRequest(model, ImagePrompt(interp),
                 ImageConfig(SquareAspectRatio, if model == ProImageModel then Some(size) else None))
  }

  /** One part of a reply candidate; a part may carry text, inline data, or both. */
  datatype ResponsePart = ResponsePart(text: Option<string>, inlineData: Option<InlineData>)

  datatype Candidate = Candidate(parts: seq<ResponsePart>)

  /** The image as a PNG data URL: the fixed prefix, then the base64 data as given. */
  function ImageDataUrl(data: string): (url: string)
    ensures |url| == |PngDataUrlPrefix| + |data|
    ensures url[..|PngDataUrlPrefix|] == PngDataUrlPrefix && url[|PngDataUrlPrefix|..] == data
  {
    PngDataUrlPrefix + data
  }

  /** Part `i` is the first part carrying inline data. */
  predicate IsFirstImagePart(parts: seq<ResponsePart>, i: int) {
    && 0 <= i < |parts|
    && parts[i].inlineData.Some?
    && forall j :: 0 <= j < i ==> parts[j].inlineData.None?
  }

  /** `generateDreamImage`: builds the request for `interp` at `size`, and turns the
      service's reply (its list of candidates) into the image's data URL, taken from
      the first part of the first candidate that carries inline data. */
  method GenerateDreamImage(interp: Interpretation, size: ImageSize, reply: Result<seq<Candidate>>)
    returns (request: ImageRequest, r: Result<string>)
    ensures request == ImageRequestFor(interp, size)
    ensures reply.Err? ==> r == Err(reply.message)
    ensures reply.Ok? && |reply.value| == 0 ==> r == Err(MissingCandidateMessage)
    ensures reply.Ok? && |reply.value| > 0 ==>
      var parts := reply.value[0].parts;
      && (r.Ok? <==> exists i :: 0 <= i < |parts| && parts[i].inlineData.Some?)
      && (r.Ok? ==> exists i :: IsFirstImagePart(parts, i) && r.value == ImageDataUrl(parts[i].inlineData.value.data))
      && (r.Err? ==> r.message == NoImageMessage)
  {
    var model := ImageModelFor(size);
    var prompt := ImagePrompt(interp);
    var config := ImageConfig(SquareAspectRatio, None);
    if model == ProImageModel {
      config := config.(imageSize := Some(size));
    }
    request := ImageRequest(model, prompt, config);

    if reply.Err? {
      return request, Err(reply.message);
    }
    if |reply.value| == 0 {
      return request, Err(MissingCandidateMessage);
    }
    var parts := reply.value[0].parts;
    for i := 0 to |parts|
      invariant forall j :: 0 <= j < i ==> parts[j].inlineData.None?
    {
      if parts[i].inlineData.Some? {
        assert IsFirstImagePart(parts, i);
        return request, Ok(ImageDataUrl(parts[i].inlineData.value.data));
      }
    }
    r := Err(NoImageMessage);
  }

  /** The image URL is a `data:` URL of RFC 2397 (section 3): media type and `;base64`
      before the first comma, the data after it. */
  lemma ImageDataUrlSplitsAtComma(data: string)
    requires ',' !in data
    ensures Split(ImageDataUrl(data), ",") == ["data:image/png;base64", data]
  {
    assert ImageDataUrl(data) == Join(["data:image/png;base64", data], ",");
    SplitJoin(["data:image/png;base64", data], ",");
  }

  // ------------------------------------------------------------------------- chat

  const ChatModel := "gemini-3-pro-preview"
  const AnalystOpening := "You are an expert dream analyst. The user had a dream described as: \""
  const AnalystClosing :=
    "\". \n      Answer their questions about symbols and meanings using Jungian psychology. "
    + "Keep responses insightful, mysterious yet helpful, and conversational."
  const ChatFallback := "I'm sorry, I couldn't interpret that deep layer of your subconscious."

  /** A chat turn sent to the service: a fresh chat whose system instruction quotes the
      dream, and the new message. There is no place for earlier turns. */
  datatype ChatRequest = ChatRequest(model: string, systemInstruction: string, message: string)

  /** The request `getDreamChatResponse` sends. Its `history` argument is accepted and
      not used. */
  function ChatRequestFor(dreamContext: string, history: seq<ChatMessage>, newMessage: string)
    : (req: ChatRequest)
    ensures req.model == ChatModel && req.message == newMessage
    ensures |req.systemInstruction| == |AnalystOpening| + |dreamContext| + |AnalystClosing|
    ensures req.systemInstruction[..|AnalystOpening|] == AnalystOpening
    ensures req.systemInstruction[|AnalystOpening|..|AnalystOpening| + |dreamContext|] == dreamContext
    ensures req.systemInstruction[|AnalystOpening| + |dreamContext|..] == AnalystClosing
  {
    var instruction := AnalystOpening + dreamContext + AnalystClosing;
    ThreeParts(AnalystOpening, dreamContext, AnalystClosing);
    ChatRequest(ChatModel, instruction, newMessage)
  }

  /** Where each of three concatenated strings lies. */
  lemma ThreeParts(a: string, b: string, c: string)
    ensures var p := a + b + c;
      && |p| == |a| + |b| + |c|
      && p[..|a|] == a && p[|a|..|a| + |b|] == b && p[|a| + |b|..] == c
  {
  }

  /** The history never reaches the service: two histories give the same request. */
  lemma ChatRequestIgnoresHistory(dreamContext: string, h1: seq<ChatMessage>, h2: seq<ChatMessage>, m: string)
    ensures ChatRequestFor(dreamContext, h1, m) == ChatRequestFor(dreamContext, h2, m)
  {
  }

  /** What `getDreamChatResponse` returns: a failed call propagates; a non-empty reply
      is passed on unchanged, and an empty or missing one becomes the fixed apology. */
  function GetDreamChatResponse(reply: Result<Option<string>>): (r: Result<string>)
    ensures reply.Err? ==> r == Err(reply.message)
    ensures reply.Ok? ==> r.Ok? && r.value != ""
    ensures reply.Ok? ==>
      (r.value == ChatFallback <==>
         reply.value.None? || reply.value.value == "" || reply.value.value == ChatFallback)
    ensures reply.Ok? && reply.value.Some? && reply.value.value != "" ==> r == Ok(reply.value.value)
  {
    match reply
    case Err(m) => Err(m)
    case Ok(text) => Ok(TextOr(text, ChatFallback))
  }
}
