/**
 * The application's shared records and enumerations: subscription tiers, chat
 * modes, the three model slots, users, messages with their multi-agent panels,
 * and saved chat sessions. Each enumeration keeps the string tag the source
 * stores and compares.
 */
module Types {
  import opened Wrappers
  import opened Text

  datatype UserTier = Free | Pro | Ultra | Guest

  function TierTag(t: UserTier): string {
    match t
    case Free => "free"
    case Pro => "pro"
    case Ultra => "ultra"
    case Guest => "guest"
  }

  /** Reading a stored tier string back: only the four tags name a tier, and each names its own. */
  function TierFromTag(s: string): (r: Option<UserTier>)
    ensures r.Some? <==> s in {"free", "pro", "ultra", "guest"}
    ensures r.Some? ==> TierTag(r.value) == s
  {
    if s == "free" then Some(Free)
    else if s == "pro" then Some(Pro)
    else if s == "ultra" then Some(Ultra)
    else if s == "guest" then Some(Guest)
    else None
  }

  datatype ChatMode = Single | Multi

  function ModeTag(m: ChatMode): string {
    match m
    case Single => "single"
    case Multi => "multi"
  }

  datatype ModelType = Gemini | Llama | Mistral

  function ModelTag(m: ModelType): string {
    match m
    case Gemini => "gemini"
    case Llama => "llama"
    case Mistral => "mistral"
  }

  /** The label a model's panel and reply carry: its tag upper-cased. */
  function ModelLabel(m: ModelType): string {
    Upper(ModelTag(m))
  }

  /** Winner selection compares labels, so distinct models must have distinct labels. */
  lemma ModelLabelInjective(a: ModelType, b: ModelType)
    ensures ModelLabel(a) == ModelLabel(b) ==> a == b
    ensures ModelLabel(a) != ""
  {
    assert ModelLabel(a)[0] == UpperChar(ModelTag(a)[0]);
    assert ModelLabel(b)[0] == UpperChar(ModelTag(b)[0]);
  }

  /** The three labels spelled out. */
  lemma ModelLabels()
    ensures ModelLabel(Gemini) == "GEMINI"
    ensures ModelLabel(Llama) == "LLAMA"
    ensures ModelLabel(Mistral) == "MISTRAL"
  {
    assert Upper("gemini") == "GEMINI";
    assert Upper("llama") == "LLAMA";
    assert Upper("mistral") == "MISTRAL";
  }

  datatype User = User(
    id: string,
    email: string,
    tier: UserTier,
    tokensUsed: int,
    imagesGenerated: int,
    themeColor: string,
    displayName: Option<string>,
    avatar: Option<string>)

  /** One model's panel in a multi-agent reply. */
  datatype MultiResponse = MultiResponse(model: string, content: string, isWinner: Option<bool>)

  datatype Role = UserRole | ModelRole | RefereeRole

  datatype Message = Message(
    id: string,
    role: Role,
    content: string,
    model: Option<string>,
    multiResponses: Option<seq<MultiResponse>>,
    timestamp: int,
    isImage: Option<bool>,
    selectedWinner: Option<string>)

  datatype ChatSession = ChatSession(
    id: string,
    title: string,
    mode: ChatMode,
    messages: seq<Message>,
    lastUpdated: int)

  /** An attached file as the upload component keeps it; `base64` is missing until the file is read. */
  datatype UploadedFile = UploadedFile(
    id: string,
    name: string,
    mimeType: string,
    size: nat,
    url: string,
    base64: Option<string>)

  /** What one model answered, tagged with the model (the value handed to the referee). */
  datatype AgentResponse = AgentResponse(model: ModelType, text: string)

  datatype NoticeKind = InfoNotice | SuccessNotice | WarningNotice | ErrorNotice

  /** The content of the modal dialog a page opens (`showModal`). */
  datatype Notice = Notice(title: string, message: string, kind: NoticeKind)
}
