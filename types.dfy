/** The records of the dream journal: image size tiers, interpretations, chat messages, entries. */
module Types {
  import opened Wrappers

  /** The three image size tiers a user can pick. */
  datatype ImageSize = Size1K | Size2K | Size4K

  /** The label of a tier, as it appears in the configuration select and in requests. */
  function SizeLabel(size: ImageSize): (name: string)
    ensures |name| == 2 && name[1] == 'K'
  {
    match size
    case Size1K => "1K"
    case Size2K => "2K"
    case Size4K => "4K"
  }

  /** Reads a label back into a tier; anything but the three labels is not a tier. */
  function ParseSize(name: string): (size: Option<ImageSize>)
    ensures size.Some? ==> SizeLabel(size.value) == name
  {
    if name == "1K" then Some(Size1K)
    else if name == "2K" then Some(Size2K)
    else if name == "4K" then Some(Size4K)
    else None
  }

  /** Exactly three tiers: a label names a tier iff it is one of the three labels. */
  lemma SizeLabelRoundTrip(size: ImageSize, name: string)
    ensures ParseSize(name) == Some(size) <==> SizeLabel(size) == name
    ensures ParseSize(name).Some? <==> name in {"1K", "2K", "4K"}
  {
  }

  datatype Archetype = Archetype(name: string, description: string)

  /** One symbol of a dream; `objectName` is the record's `object` field. */
  datatype DreamSymbol = DreamSymbol(objectName: string, meaning: string)

  /** The structured reading of a dream; list order is the order the model returned. */
  datatype Interpretation = Interpretation(
    coreTheme: string,
    archetypes: seq<Archetype>,
    symbols: seq<DreamSymbol>,
    psychologicalContext: string)

  /** Who wrote a chat message: the dreamer or the model. */
  datatype Role = User | Model

  function RoleLabel(role: Role): (name: string)
    ensures name == "user" <==> role == User
    ensures name == "model" <==> role == Model
  {
    match role
    case User => "user"
    case Model => "model"
  }

  datatype ChatMessage = ChatMessage(role: Role, text: string)

  /** One recorded dream; the three optional fields start out absent. */
  datatype DreamEntry = DreamEntry(
    id: string,
    timestamp: int,
    audioUrl: Option<string>,
    transcription: string,
    imageUrl: Option<string>,
    interpretation: Option<Interpretation>,
    chatHistory: seq<ChatMessage>,
    imageSize: ImageSize)

  /** Stage order of an entry: an image is only ever attached after an interpretation. */
  predicate StagesOrdered(e: DreamEntry) {
    e.imageUrl.Some? ==> e.interpretation.Some?
  }

  /** The progress of an entry through transcription, interpretation and illustration. */
  datatype Progress = Transcribed | Interpreted | Illustrated

  function ProgressOf(e: DreamEntry): (p: Progress)
    requires StagesOrdered(e)
    ensures p == Transcribed <==> e.interpretation.None?
    ensures p == Illustrated <==> e.imageUrl.Some?
  {
    if e.interpretation.None? then Transcribed
    else if e.imageUrl.None? then Interpreted
    else Illustrated
  }

  /** `a` and `b` agree on every field except, possibly, the chat history. */
  predicate SameExceptHistory(a: DreamEntry, b: DreamEntry) {
    a.(chatHistory := b.chatHistory) == b
  }
}
