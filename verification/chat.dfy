/**
 * The chat page: one conversation in single or multi-agent mode. A send
 * passes three gates (blank or busy input, the guest message limit, the
 * `/image` command's mode and model), appends the user's message, and later
 * appends exactly one reply. Winner selection marks one panel of a
 * multi-agent reply.
 *
 * The send handler awaits the models, and other handlers may run meanwhile,
 * so it is split in two: `BeginSend` (everything up to the first `await`)
 * and `CompleteSend` (the reply and the `finally`). The models' answers are
 * a parameter (`Replies`).
 */
module Chat {
  import opened Wrappers
  import opened Text
  import opened Types
  import opened Gemini

  const GuestMessageLimit: nat := 10
  const ImageCommand := "/image"
  const ImageModelLabel := "Imagen 3.0"
  const MultiContent := "Multi-Agent Response"
  const ErrorReply := "I encountered an error. Please check your API configuration or try again."

  const UpgradeNotice := Notice("Upgrade Required",
    "Multi-Agent Mode is a PRO feature. Upgrade to Jainn Pro to access collaborative AI.", WarningNotice)
  const GuestLimitNotice := Notice("Guest Limit Reached",
    "You've reached the 10 message limit for guest users. Please sign up to continue chatting!", WarningNotice)
  const ImageModeNotice := Notice("Feature Unavailable", "Image generation is only available in Single Mode.", WarningNotice)
  const ImageModelNotice := Notice("Feature Unavailable", "Image generation is only supported by the Gemini model.", WarningNotice)

  /** The models a multi-agent turn asks, in panel order. */
  const AgentModels: seq<ModelType> := [ModelType.Gemini, Llama, Mistral]

  /** The `/image` command is recognised case-insensitively. */
  predicate IsImageCommand(input: string) {
    StartsWith(Lower(input), ImageCommand)
  }

  /** The image prompt: the first exact (case-sensitive) "/image" removed, then trimmed. */
  function ImagePrompt(input: string): string {
    Trim(ReplaceFirst(input, ImageCommand, ""))
  }

  /** What an accepted send asks for. */
  datatype Job = ImageJob(prompt: string) | SingleJob(model: ModelType) | MultiJob

  /** An accepted send awaiting its reply: the job and the text the user sent. */
  datatype Pending = Pending(job: Job, content: string)

  /** The outcome of the gates at the start of a send. */
  datatype Gate = Ignore | Refuse(notice: Notice) | Accept(job: Job)

  /** The gates at the start of a send, in the source's order. */
  function SendGate(input: string, typing: bool, tier: UserTier, count: nat, mode: ChatMode, model: ModelType): Gate {
    if IsBlank(input) || typing then Ignore
    else if tier == Guest && count >= GuestMessageLimit then Refuse(GuestLimitNotice)
    else if IsImageCommand(input) && mode != Single then Refuse(ImageModeNotice)
    else if IsImageCommand(input) && model != ModelType.Gemini then Refuse(ImageModelNotice)
    else if IsImageCommand(input) then Accept(ImageJob(ImagePrompt(input)))
    else if mode == Single then Accept(SingleJob(model))
    else Accept(MultiJob)
  }

  /**
   * What the gates decide: blank input or a reply in progress is ignored; a
   * guest whose conversation already holds ten messages (their own and the
   * replies alike) is refused; an image command is refused outside single
   * mode and for models other than Gemini; everything else is accepted, as
   * an image, single-model or multi-agent job.
   */
  lemma SendGateDecides(input: string, typing: bool, tier: UserTier, count: nat, mode: ChatMode, model: ModelType)
    ensures var g := SendGate(input, typing, tier, count, mode, model);
      && (g.Ignore? <==> IsBlank(input) || typing)
      && (!g.Ignore? && tier == Guest && count >= GuestMessageLimit ==> g == Refuse(GuestLimitNotice))
      && (!g.Ignore? && !(tier == Guest && count >= GuestMessageLimit) && IsImageCommand(input) ==>
            (mode != Single ==> g == Refuse(ImageModeNotice))
            && (mode == Single && model != ModelType.Gemini ==> g == Refuse(ImageModelNotice)))
      && (g.Accept? ==> !(tier == Guest && count >= GuestMessageLimit))
      && (g.Accept? && IsImageCommand(input) ==>
            mode == Single && model == ModelType.Gemini && g.job == ImageJob(ImagePrompt(input)))
      && (g.Accept? && !IsImageCommand(input) ==> g.job == if mode == Single then SingleJob(model) else MultiJob)
  {
  }

  /** The user's message as the send appends it; its id is the clock's text. */
  function UserMessage(input: string, now: nat): Message {
    Message(NatToString(now), UserRole, input, None, None, now, None, None)
  }

  function ErrorMessage(now: nat): Message {
    Message(NatToString(now), ModelRole, ErrorReply, None, None, now, None, None)
  }

  /** What every backend would answer during one turn. */
  datatype Replies = Replies(primaryImage: ImageReply, fallbackImage: ImageReply,
                             gemini: Backends, llama: Backends, mistral: Backends, referee: SdkReply)

  function BackendsFor(rs: Replies, m: ModelType): Backends {
    match m
    case Gemini => rs.gemini
    case Llama => rs.llama
    case Mistral => rs.mistral
  }

  /** What `generateResponse(content, m)` returns during this turn (no files, no instruction). */
  function AgentText(cfg: Config, content: string, m: ModelType, rs: Replies): string {
    ReplyText(Respond(cfg, content, m, [], None, BackendsFor(rs, m)).result)
  }

  /** The answers of a multi-agent turn, in the order of `AgentModels` whatever order they complete in. */
  function AgentResponses(cfg: Config, content: string, rs: Replies): (r: seq<AgentResponse>)
    ensures |r| == |AgentModels|
    ensures forall k :: 0 <= k < |r| ==> r[k] == AgentResponse(AgentModels[k], AgentText(cfg, content, AgentModels[k], rs))
  {
    seq(|AgentModels|, k requires 0 <= k < |AgentModels| => AgentResponse(AgentModels[k], AgentText(cfg, content, AgentModels[k], rs)))
  }

  /** One answer as a panel: labelled with the model's upper-cased tag, not yet a winner. */
  function Panel(r: AgentResponse): MultiResponse {
    MultiResponse(ModelLabel(r.model), r.text, Some(false))
  }

  function Panels(rs: seq<AgentResponse>): (r: seq<MultiResponse>)
    ensures |r| == |rs| && forall k :: 0 <= k < |rs| ==> r[k] == Panel(rs[k])
  {
    seq(|rs|, k requires 0 <= k < |rs| => Panel(rs[k]))
  }

  /** `if (imageUrl)`: the image call returned a URL. */
  predicate ImageProduced(r: Result<Option<string>, string>) {
    r.Success? && r.value.Some?
  }

  /** The one reply an accepted send appends. */
  function ReplyMessage(p: Pending, cfg: Config, rs: Replies, now: nat): Message {
    match p.job
    case ImageJob(prompt) =>
      var r := ImageResult(cfg, prompt, rs.primaryImage, rs.fallbackImage);
      if ImageProduced(r) then
        Message(NatToString(now), ModelRole, r.value.value, Some(ImageModelLabel), None, now, Some(true), None)
      else ErrorMessage(now)
    case SingleJob(m) =>
      Message(NatToString(now + 1), ModelRole, AgentText(cfg, p.content, m, rs), Some(ModelLabel(m)), None, now, None, None)
    case MultiJob =>
      Message(NatToString(now), ModelRole, MultiContent, None,
              Some(Panels(AgentResponses(cfg, p.content, rs))), now, None, None)
  }

  /**
   * A multi-agent reply always has three panels labelled GEMINI, LLAMA,
   * MISTRAL in that order, none a winner, each holding its model's non-empty
   * reply text: a failing model fills its panel with an error line.
   */
  lemma MultiReplyPanels(p: Pending, cfg: Config, rs: Replies, now: nat)
    requires p.job.MultiJob?
    ensures var r := ReplyMessage(p, cfg, rs, now);
      && r.role == ModelRole && r.content == MultiContent
      && r.multiResponses.Some? && |r.multiResponses.value| == 3
      && r.multiResponses.value[0].model == "GEMINI"
      && r.multiResponses.value[1].model == "LLAMA"
      && r.multiResponses.value[2].model == "MISTRAL"
      && (forall k :: 0 <= k < 3 ==>
            r.multiResponses.value[k].isWinner == Some(false)
            && r.multiResponses.value[k].content == AgentText(cfg, p.content, AgentModels[k], rs)
            && r.multiResponses.value[k].content != "")
  {
    ModelLabels();
    forall k | 0 <= k < 3
      ensures AgentText(cfg, p.content, AgentModels[k], rs) != ""
    {
      ReplyTextShape(cfg, p.content, AgentModels[k], [], None, BackendsFor(rs, AgentModels[k]));
    }
  }

  /**
   * Which kind of reply a send gets: the generic error reply (no model, no
   * panels) exactly when an image job produced no image; a single-mode reply
   * carries the model's label and its non-empty text.
   */
  lemma ReplyKinds(p: Pending, cfg: Config, rs: Replies, now: nat)
    ensures var r := ReplyMessage(p, cfg, rs, now);
      && r.role == ModelRole
      && (r.model.None? && r.multiResponses.None? <==>
            p.job.ImageJob? && !ImageProduced(ImageResult(cfg, p.job.prompt, rs.primaryImage, rs.fallbackImage)))
      && (r.model.None? && r.multiResponses.None? ==> r.content == ErrorReply)
      && (p.job.SingleJob? ==> r.model == Some(ModelLabel(p.job.model)) && r.content != "")
      && (r.isImage == Some(true) ==> p.job.ImageJob? && StartsWith(r.content, DataUrlPrefix))
  {
    if p.job.SingleJob? {
      ReplyTextShape(cfg, p.content, p.job.model, [], None, BackendsFor(rs, p.job.model));
    }
  }

  /** The generic error reply is only ever produced for image jobs: the models' own failures become text. */
  lemma {:induction false} OnlyImagesFail(p: Pending, cfg: Config, rs: Replies, now: nat)
    requires !p.job.ImageJob?
    ensures ReplyMessage(p, cfg, rs, now) != ErrorMessage(now)
  {
    if p.job.SingleJob? {
      assert ReplyMessage(p, cfg, rs, now).model.Some?;
    } else {
      assert ReplyMessage(p, cfg, rs, now).multiResponses.Some?;
    }
  }

  /** `isWinner` of each panel after choosing `name`: true exactly for the panels with that label. */
  function Crown(panels: seq<MultiResponse>, name: string): (r: seq<MultiResponse>)
    ensures |r| == |panels|
    ensures forall k :: 0 <= k < |r| ==>
      r[k].model == panels[k].model && r[k].content == panels[k].content
      && (r[k].isWinner == Some(true) <==> panels[k].model == name)
  {
    seq(|panels|, k requires 0 <= k < |panels| => panels[k].(isWinner := Some(panels[k].model == name)))
  }

  /**
   * `handleSelectWinner`: every message with the id that has panels records
   * the winner and crowns the matching panels; every other message, and the
   * length and order of the list, stay as they are.
   */
  function SelectWinner(msgs: seq<Message>, id: string, name: string): (r: seq<Message>)
    ensures |r| == |msgs|
    ensures forall i :: 0 <= i < |msgs| && (msgs[i].id != id || msgs[i].multiResponses.None?) ==> r[i] == msgs[i]
    ensures forall i :: 0 <= i < |msgs| && msgs[i].id == id && msgs[i].multiResponses.Some? ==>
      r[i] == msgs[i].(selectedWinner := Some(name), multiResponses := Some(Crown(msgs[i].multiResponses.value, name)))
  {
    seq(|msgs|, i requires 0 <= i < |msgs| =>
      if msgs[i].id == id && msgs[i].multiResponses.Some? then
        msgs[i].(selectedWinner := Some(name), multiResponses := Some(Crown(msgs[i].multiResponses.value, name)))
      else msgs[i])
  }

  /** Selecting a winner again with a different name overwrites the first choice: the handler itself does not keep it. */
  lemma RawSelectionOverwrites(msgs: seq<Message>, id: string, a: string, b: string)
    ensures SelectWinner(SelectWinner(msgs, id, a), id, b) == SelectWinner(msgs, id, b)
  {
    var once := SelectWinner(msgs, id, a);
    var twice := SelectWinner(once, id, b);
    var direct := SelectWinner(msgs, id, b);
    forall i | 0 <= i < |msgs|
      ensures twice[i] == direct[i]
    {
      if msgs[i].id == id && msgs[i].multiResponses.Some? {
        var ps := msgs[i].multiResponses.value;
        assert Crown(Crown(ps, a), b) == Crown(ps, b);
      }
    }
  }

  /** A click on the winner button of message `j`, which is disabled once that message has a winner. */
  function ClickWinner(msgs: seq<Message>, j: nat, name: string): (r: seq<Message>)
    requires j < |msgs|
    ensures |r| == |msgs|
    ensures Truthy(msgs[j].selectedWinner) ==> r == msgs
    ensures !Truthy(msgs[j].selectedWinner) && msgs[j].multiResponses.Some? ==> r[j].selectedWinner == Some(name)
    ensures forall i :: 0 <= i < |msgs| && msgs[i].id != msgs[j].id ==> r[i] == msgs[i]
  {
    if Truthy(msgs[j].selectedWinner) then msgs else SelectWinner(msgs, msgs[j].id, name)
  }

  /** With the button's guard, the first selection is final. */
  lemma FirstSelectionFinal(msgs: seq<Message>, j: nat, a: string, b: string)
    requires j < |msgs| && msgs[j].multiResponses.Some? && a != ""
    ensures var once := ClickWinner(msgs, j, a);
      |once| == |msgs| && ClickWinner(once, j, b) == once && once[j].selectedWinner.Some?
  {
  }

  /**
   * Panel labels of distinct models differ, so choosing a model's label
   * crowns exactly its panel of a multi-agent reply.
   */
  lemma {:induction false} WinnerUnique(cfg: Config, content: string, rs: Replies, m: ModelType)
    ensures var crowned := Crown(Panels(AgentResponses(cfg, content, rs)), ModelLabel(m));
      forall k :: 0 <= k < |crowned| ==> (crowned[k].isWinner == Some(true) <==> AgentModels[k] == m)
  {
    var crowned := Crown(Panels(AgentResponses(cfg, content, rs)), ModelLabel(m));
    forall k | 0 <= k < |crowned|
      ensures crowned[k].isWinner == Some(true) <==> AgentModels[k] == m
    {
      ModelLabelInjective(AgentModels[k], m);
    }
  }

  /** `isFeatureLocked`: the tier table behind the locked buttons. */
  function IsFeatureLocked(tier: UserTier, feature: string): bool {
    if feature == "multi-agent" then tier == Free || tier == Guest
    else if feature == "custom-theme" then tier != Ultra
    else false
  }

  /**
   * The mode handler refuses only free users, but the multi-mode button is
   * locked for free users and guests alike; any other name is never locked.
   */
  lemma MultiModeGates(tier: UserTier, feature: string)
    ensures tier == Free ==> IsFeatureLocked(tier, "multi-agent")
    ensures IsFeatureLocked(tier, "multi-agent") <==> tier == Free || tier == Guest
    ensures IsFeatureLocked(tier, "custom-theme") <==> tier != Ultra
    ensures feature != "multi-agent" && feature != "custom-theme" ==> !IsFeatureLocked(tier, feature)
  {
  }

  /** What the detached referee call is given and logs: only a multi-agent turn launches it, with every answer. */
  function RefereeOf(p: Pending, cfg: Config, rs: Replies): (v: Option<Verdict>)
    ensures v.Some? <==> p.job.MultiJob?
  {
    if p.job.MultiJob? then Some(RefereeAnalysis(cfg, p.content, AgentResponses(cfg, p.content, rs), rs.referee))
    else None
  }

  /** `Promise.all` over the three models, in list order. */
  method AskAgents(cfg: Config, content: string, rs: Replies) returns (responses: seq<AgentResponse>)
    ensures responses == AgentResponses(cfg, content, rs)
  {
    responses := [];
    var i := 0;
    while i < |AgentModels|
      invariant 0 <= i <= |AgentModels|
      invariant responses == AgentResponses(cfg, content, rs)[..i]
    {
      var m := AgentModels[i];
      var sent, text := GenerateResponse(cfg, content, m, [], None, BackendsFor(rs, m));
      responses := responses + [AgentResponse(m, text)];
      i := i + 1;
    }
  }

  /** The `try`/`catch` of a send: the one reply to append, and the referee's logged verdict. */
  method AwaitReply(p: Pending, cfg: Config, rs: Replies, now: nat) returns (reply: Message, verdict: Option<Verdict>)
    ensures reply == ReplyMessage(p, cfg, rs, now)
    ensures verdict == RefereeOf(p, cfg, rs)
  {
    match p.job {
      case ImageJob(prompt) =>
        var tried, r := GenerateImage(cfg, prompt, rs.primaryImage, rs.fallbackImage);
        if ImageProduced(r) {
          reply := Message(NatToString(now), ModelRole, r.value.value, Some(ImageModelLabel), None, now, Some(true), None);
        } else {
          reply := ErrorMessage(now);
        }
        verdict := None;
      case SingleJob(m) =>
        var sent, text := GenerateResponse(cfg, p.content, m, [], None, BackendsFor(rs, m));
        reply := Message(NatToString(now + 1), ModelRole, text, Some(ModelLabel(m)), None, now, None, None);
        verdict := None;
      case MultiJob =>
        var responses := AskAgents(cfg, p.content, rs);
        reply := Message(NatToString(now), ModelRole, MultiContent, None, Some(Panels(responses)), now, None, None);
        verdict := Some(RefereeAnalysis(cfg, p.content, responses, rs.referee));
    }
  }

  class ChatPage {
    var input: string
    var mode: ChatMode
    var currentModel: ModelType
    var messages: seq<Message>
    var isTyping: bool
    /** The open modal dialog, if any. */
    var notice: Option<Notice>

    constructor ()
      ensures input == "" && mode == Single && currentModel == ModelType.Gemini
      ensures messages == [] && !isTyping && notice == None
    {
      input := "";
      mode := Single;
      currentModel := ModelType.Gemini;
      messages := [];
      isTyping := false;
      notice := None;
    }

    /** Typing into the input box. */
    method SetInput(s: string)
      modifies this
      ensures input == s
      ensures mode == old(mode) && currentModel == old(currentModel) && messages == old(messages)
      ensures isTyping == old(isTyping) && notice == old(notice)
    {
      input := s;
    }

    /** Choosing a model in the model menu. */
    method SetModel(m: ModelType)
      modifies this
      ensures currentModel == m
      ensures input == old(input) && mode == old(mode) && messages == old(messages)
      ensures isTyping == old(isTyping) && notice == old(notice)
    {
      currentModel := m;
    }

    method CloseNotice()
      modifies this
      ensures notice == None
      ensures input == old(input) && mode == old(mode) && currentModel == old(currentModel)
      ensures messages == old(messages) && isTyping == old(isTyping)
    {
      notice := None;
    }

    /**
     * `handleModeSwitch`: a free user asking for multi mode gets the upgrade
     * notice and nothing else changes; otherwise a change of mode clears the
     * conversation, and choosing the current mode changes nothing.
     */
    method ModeSwitch(tier: UserTier, newMode: ChatMode)
      modifies this
      ensures tier == Free && newMode == Multi ==>
        notice == Some(UpgradeNotice) && mode == old(mode) && messages == old(messages)
      ensures !(tier == Free && newMode == Multi) ==> notice == old(notice)
      ensures !(tier == Free && newMode == Multi) && newMode != old(mode) ==> mode == newMode && messages == []
      ensures newMode == old(mode) ==> mode == old(mode) && messages == old(messages)
      ensures input == old(input) && currentModel == old(currentModel) && isTyping == old(isTyping)
    {
      if tier == Free && newMode == Multi {
        notice := Some(UpgradeNotice);
        return;
      }
      if newMode != mode {
        messages := [];
        mode := newMode;
      }
    }

    /**
     * `handleSend` up to its first `await`: the gates, then the user's
     * message is appended, the input cleared and the typing indicator set.
     * An ignored or refused send changes nothing but the notice.
     */
    method BeginSend(tier: UserTier, now: nat) returns (pending: Option<Pending>)
      modifies this
      ensures mode == old(mode) && currentModel == old(currentModel)
      ensures var g := SendGate(old(input), old(isTyping), tier, |old(messages)|, mode, currentModel);
        && (g.Ignore? ==> pending == None && notice == old(notice))
        && (g.Refuse? ==> pending == None && notice == Some(g.notice))
        && (!g.Accept? ==> messages == old(messages) && input == old(input) && isTyping == old(isTyping))
        && (g.Accept? ==>
              pending == Some(Pending(g.job, old(input)))
              && messages == old(messages) + [UserMessage(old(input), now)]
              && input == "" && isTyping && notice == old(notice))
    {
      var g := SendGate(input, isTyping, tier, |messages|, mode, currentModel);
      match g {
        case Ignore =>
          return None;
        case Refuse(n) =>
          notice := Some(n);
          return None;
        case Accept(job) =>
      }
      var job := g.job;
      pending := Some(Pending(job, input));
      messages := messages + [UserMessage(input, now)];
      input := "";
      isTyping := true;
    }

    /**
     * `handleSend` after its `await`s: exactly one reply is appended to the
     * conversation as it then is, and the typing indicator is cleared. A
     * multi-agent turn asks the three models in order and hands all their
     * answers to the referee, whose verdict is only logged.
     */
    method CompleteSend(p: Pending, cfg: Config, rs: Replies, now: nat) returns (verdict: Option<Verdict>)
      modifies this
      ensures messages == old(messages) + [ReplyMessage(p, cfg, rs, now)]
      ensures !isTyping
      ensures input == old(input) && mode == old(mode) && currentModel == old(currentModel) && notice == old(notice)
      ensures verdict == RefereeOf(p, cfg, rs)
    {
      var reply;
      reply, verdict := AwaitReply(p, cfg, rs, now);
      messages := messages + [reply];
      isTyping := false;
    }

    /**
     * A whole send with nothing in between: an accepted send grows the
     * conversation by the user's message and exactly one reply.
     */
    method Send(tier: UserTier, cfg: Config, rs: Replies, now: nat, later: nat) returns (pending: Option<Pending>)
      modifies this
      ensures pending.None? ==> messages == old(messages) && input == old(input) && isTyping == old(isTyping)
      ensures pending.Some? ==>
        messages == old(messages) + [UserMessage(old(input), now), ReplyMessage(pending.value, cfg, rs, later)]
        && input == "" && !isTyping
      ensures mode == old(mode) && currentModel == old(currentModel)
    {
      pending := BeginSend(tier, now);
      if pending.Some? {
        var _ := CompleteSend(pending.value, cfg, rs, later);
      }
    }

    /** `handleSelectWinner` applied to the page's conversation. */
    method SelectWinnerOf(id: string, name: string)
      modifies this
      ensures messages == SelectWinner(old(messages), id, name)
      ensures input == old(input) && mode == old(mode) && currentModel == old(currentModel)
      ensures isTyping == old(isTyping) && notice == old(notice)
    {
      messages := SelectWinner(messages, id, name);
    }
  }
}
