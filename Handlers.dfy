/**
 * The bot's three handler chains, as the application wires them:
 *
 *   message filter -> command router -> (anti-spam guard -> generation) | help | tech info
 *   message filter -> tech router -> tech help | custom token | public token
 *   message filter -> allow / disallow
 *
 * The database tables are maps, every message the bot sends is appended to
 * an outbox, and the OpenAI, VK upload and conversation-members calls are
 * parameters (an `Env`) whose results are optional values.  A generation
 * request that waits in the timer queue finishes when a later `Tick` starts
 * it; until then its peer stays in the anti-spam set.
 */
module Handlers {
  import opened Text
  import opened Queue
  import Parsing
  import VkApi

  // ---------------------------------------------------------------------
  // Events, replies and the outside world
  // ---------------------------------------------------------------------

  /** The fields of a VK message the handlers read; `replyFrom` is the author of the quoted message. */
  datatype Message = Message(peerId: int, fromId: int, conversationMessageId: int,
                             text: Option<string>, replyFrom: Option<int>)

  datatype Update = Update(kind: string, message: Message)

  const MessageNew: string := "message_new"

  /** One `messages.send` call: the peer, the optional text, the forward object and the optional attachment. */
  datatype Reply = Reply(peerId: int, text: Option<string>, forward: string, attachment: Option<string>)

  /** Every answer quotes the message it answers. */
  function Forward(m: Message): (r: string)
    ensures r == Parsing.ForwardHeader(m.peerId, true) + "[" + IntToString(m.conversationMessageId) + "]}"
  {
    Parsing.SingleReplyForward(m.peerId, m.conversationMessageId);
    Parsing.ForwardString(m.peerId, [m.conversationMessageId], true)
  }

  function Answer(m: Message, text: string): (r: Reply)
    ensures r.peerId == m.peerId && r.text == Some(text) && r.attachment.None?
  {
    Reply(m.peerId, Some(text), Forward(m), None)
  }

  /** One entry of the conversation members list: `is_owner` may be absent. */
  datatype ChatMember = ChatMember(isOwner: Option<bool>, memberId: int)

  /** The `text` (completions) or `url` (images) member of one array element, if present. */
  datatype Item = Item(field: Option<string>)

  /** The OpenAI reply: its `choices` and `data` arrays, if present; an element may be null. */
  datatype GenResponse = GenResponse(choices: Option<seq<Option<Item>>>, data: Option<seq<Option<Item>>>)

  /**
   * What the outside calls of one update return: the members list (None when
   * the call fails), the OpenAI reply for a request that skips the queue, and
   * the `(owner_id, id)` of the saved photo (None when downloading, uploading
   * or saving throws).
   */
  datatype Env = Env(members: Option<seq<ChatMember>>, response: Option<GenResponse>,
                     upload: Option<(int, int)>)

  /** The `tech_info` row with id 1. */
  datatype TechInfo = TechInfo(publicToken: string, helpMessage: string)

  /** The texts and the prompt limit the application configures on its handlers. */
  datatype Settings = Settings(unknownCommand: string, busyMessage: string, positionMessage: string,
                               queueFullMessage: string, errorMessage: string, tooLongMessage: string,
                               doneMessage: string, maxLength: int)

  const ProgramSettings: Settings := Settings(
    "Неизвестная команда. Напиши .help для справки.",
    "Дождитесь результата предыдущего запроса.",
    "В очереди! Позиция: ",
    "В очереди слишком много запросов. Попробуйте позже.",
    "Что-то пошло не так...",
    "Слишком длинный запрос.",
    "Сделано!",
    150)

  /** The queue's period (ms); the timer itself is the caller's `Tick`. */
  const GeneratePeriod: int := 3500
  const AdminId: int := 172437155

  // ---------------------------------------------------------------------
  // Message filter and routers
  // ---------------------------------------------------------------------

  /** `MessageNewHandler`: the event goes on down its chain only when this holds. */
  predicate IsNewMessage(u: Update)
    ensures IsNewMessage(u) ==> u.message.text.Some? && |u.message.text.value| > 0
  {
    u.kind == MessageNew && u.message.fromId >= 0
    && u.message.text.Some? && |u.message.text.value| > 0
  }

  /** The first word after `Split(' ')`: the text before the first space, or all of it. */
  function Command(text: string): (c: string)
    ensures c == if ' ' in text then text[..IndexOf(text, ' ')] else text
    ensures ' ' !in c
  {
    SplitHead(text, ' ');
    Split(text, ' ')[0]
  }

  /** A command followed by a space and anything at all is that command. */
  lemma CommandWithArguments(cmd: string, rest: string)
    requires ' ' !in cmd
    ensures Command(cmd + " " + rest) == cmd
  {
    var text := cmd + " " + rest;
    IndexOfAfterFree(cmd, ' ', rest);
    assert text[..|cmd|] == cmd;
  }

  const TextCommand: string := ".gt"
  const ImageCommand: string := ".gi"
  const HelpCommand: string := ".help"
  const TechInfoCommand: string := ".tech_info"
  const CommandTable: set<string> := {TextCommand, ImageCommand, HelpCommand, TechInfoCommand}

  const TechHelpCommand: string := ".tech_help"
  const CustomTokenCommand: string := ".tech_custom_token"
  const PublicTokenCommand: string := ".tech_public_token"
  const TechTable: set<string> := {TechHelpCommand, CustomTokenCommand, PublicTokenCommand}

  const AllowCommand: string := ".allow"
  const DisallowCommand: string := ".disallow"

  datatype Route = Ignore | Unknown | Dispatch(command: string)

  /**
   * `CommandsHandler`: `allowed` is the `is_allowed` of the `(from_id, peer_id)`
   * row of `chat_users`, None when the row is missing.
   */
  function RouteCommand(peerId: int, text: string, allowed: Option<bool>): (r: Route)
    ensures r.Unknown? <==>
      Command(text) !in CommandTable && peerId < VkApi.ConstPeerId && !ContainsSubstring(Command(text), ".tech")
    ensures r.Dispatch? <==>
      Command(text) in CommandTable && (peerId > VkApi.ConstPeerId ==> allowed == Some(true))
    ensures r.Dispatch? ==> r.command == Command(text)
  {
    var command := Command(text);
    if command !in CommandTable then
      if peerId < VkApi.ConstPeerId && IndexOfSubstring(command, ".tech") == -1 then Unknown else Ignore
    else if peerId > VkApi.ConstPeerId && !(allowed.Some? && allowed.value) then Ignore
    else Dispatch(command)
  }

  /** `TechCommandsHandler`: `tech` is the `is_tech` of the author's `tech_users` row, if any. */
  function RouteTech(peerId: int, text: string, tech: Option<bool>): (r: Option<string>)
    ensures r.Some? <==> peerId <= VkApi.ConstPeerId && Command(text) in TechTable && tech == Some(true)
    ensures r.Some? ==> r.value == Command(text)
  {
    var command := Command(text);
    if peerId > VkApi.ConstPeerId || command !in TechTable then None
    else if tech.None? || !tech.value then None
    else Some(command)
  }

  /**
   * A tech command written in a private chat never draws the unknown-command
   * reply from the other chain, whoever sends it.
   */
  lemma TechCommandsNotUnknown(peerId: int, text: string, allowed: Option<bool>)
    requires Command(text) in TechTable
    ensures RouteCommand(peerId, text, allowed) == Ignore
  {
    var c := Command(text);
    TechPrefix(c);
    assert IndexOfSubstring(c, ".tech") != -1;
  }

  /** Every tech command starts with ".tech" and is none of the ordinary commands. */
  lemma TechPrefix(c: string)
    requires c in TechTable
    ensures OccursAt(c, ".tech", 0) && c !in CommandTable
  {
    if c == TechHelpCommand {
      assert c[..5] == ".tech";
      assert c[6] != TechInfoCommand[6];
    } else if c == CustomTokenCommand {
      assert c[..5] == ".tech";
    } else {
      assert c[..5] == ".tech";
    }
  }

  /**
   * A generation command is seen by the command chain only: the tech router
   * and the allow handler ignore it, so the order in which the three chains
   * see one update does not matter for it.
   */
  lemma GenerationOnlyRouted(peerId: int, text: string, tech: Option<bool>)
    requires Command(text) == TextCommand || Command(text) == ImageCommand
    ensures RouteTech(peerId, text, tech).None?
    ensures text != AllowCommand && text != DisallowCommand
  {
    if text == AllowCommand {
      SplitNone(AllowCommand, ' ');
    }
    if text == DisallowCommand {
      SplitNone(DisallowCommand, ' ');
    }
  }

  // ---------------------------------------------------------------------
  // Anti-spam guard
  // ---------------------------------------------------------------------

  /** Entering the guard: None (busy reply, nothing else) when the peer is busy, else the set with it. */
  function Enter(busy: set<int>, peerId: int): (r: Option<set<int>>)
    ensures r.None? <==> peerId in busy
    ensures r.Some? ==> r.value == busy + {peerId} && peerId !in busy
  {
    if peerId in busy then None else Some(busy + {peerId})
  }

  /** The `finally`: the peer leaves the set. */
  function Leave(busy: set<int>, peerId: int): (r: set<int>)
    ensures peerId !in r
    ensures forall q :: q != peerId ==> (q in r <==> q in busy)
  {
    busy - {peerId}
  }

  /** Once the guarded call finishes, normally or by an exception, the set is as it was on entry. */
  lemma EnterThenLeave(busy: set<int>, peerId: int)
    requires Enter(busy, peerId).Some?
    ensures Leave(Enter(busy, peerId).value, peerId) == busy
  {
  }

  /** While one request of a peer is in flight, a second one from the same peer is turned away. */
  lemma SecondRequestRefused(busy: set<int>, peerId: int)
    requires Enter(busy, peerId).Some?
    ensures Enter(Enter(busy, peerId).value, peerId).None?
  {
  }

  /** Other peers are not held up by it. */
  lemma OtherPeersPass(busy: set<int>, p: int, q: int)
    requires p != q && Enter(busy, p).Some? && Enter(busy, q).Some?
    ensures Enter(Enter(busy, p).value, q).Some?
  {
  }

  // ---------------------------------------------------------------------
  // Generation: validation and prompt
  // ---------------------------------------------------------------------

  datatype Plan = TooLong | Silent | Request(isText: bool, prompt: string)

  /**
   * `GenerateHandler.HandleAsync` up to the OpenAI call: a `.gt` text over
   * the limit gets the too-long reply, a text with no space is dropped, and
   * otherwise the prompt is everything after the command and one space.
   */
  function PlanGenerate(text: string, maxLength: int): (p: Plan)
    ensures p.TooLong? <==> Command(text) == TextCommand && |text| > maxLength
    ensures p.Silent? <==> !(Command(text) == TextCommand && |text| > maxLength) && ' ' !in text
    ensures p.Request? ==> p.isText == (Command(text) == TextCommand)
    ensures p.Request? ==> text == Command(text) + " " + p.prompt
  {
    var words := Split(text, ' ');
    SplitHead(text, ' ');
    var isText := words[0] == TextCommand;
    if isText && |text| > maxLength then TooLong
    else if |words| < 2 then Silent
    else
      var n := |words[0]|;
      assert text == text[..n] + " " + text[n + 1..];
      Request(isText, text[n + 1..])
  }

  /** The prompt comes back exactly, spaces included, whenever the text passes the length test. */
  lemma PromptRoundTrip(cmd: string, prompt: string, maxLength: int)
    requires cmd == TextCommand || cmd == ImageCommand
    ensures PlanGenerate(cmd + " " + prompt, maxLength)
         == if cmd == TextCommand && |cmd + " " + prompt| > maxLength then TooLong
            else Request(cmd == TextCommand, prompt)
  {
    var text := cmd + " " + prompt;
    CommandWithArguments(cmd, prompt);
    var p := PlanGenerate(text, maxLength);
    if p.Request? {
      DropPrefix(cmd + " ", p.prompt, prompt);
    }
  }

  /** The image command has no length limit. */
  lemma ImagePromptNeverTooLong(text: string, maxLength: int)
    requires Command(text) == ImageCommand
    ensures !PlanGenerate(text, maxLength).TooLong?
  {
  }

  /** A generation command with nothing after it is dropped without a reply. */
  lemma BareCommandDropped(cmd: string, maxLength: int)
    requires cmd == TextCommand || cmd == ImageCommand
    requires maxLength >= |cmd|
    ensures PlanGenerate(cmd, maxLength) == Silent
  {
    assert ' ' !in cmd by {
      SplitNone(TextCommand, ' ');
      SplitNone(ImageCommand, ' ');
    }
  }

  /** A queued request: everything the reply to it needs, and the token it is made with. */
  datatype Job = Job(peerId: int, msgId: int, forward: string, isText: bool, prompt: string, token: string)

  /** The `custom_token` of a peer's `peers` row; None when the row is missing or holds null. */
  function CustomToken(peers: map<int, Option<string>>, peerId: int): (r: Option<string>)
    ensures peerId !in peers ==> r.None?
    ensures r.Some? ==> peerId in peers && peers[peerId] == r
  {
    if peerId in peers then peers[peerId] else None
  }

  /** A request goes through the timer queue when it has a prompt and its peer no custom token. */
  predicate Waits(plan: Plan, custom: Option<string>)
  {
    plan.Request? && custom.None?
  }

  function JobFor(m: Message, plan: Plan, token: string): Job
    requires plan.Request?
  {
    Job(m.peerId, m.conversationMessageId, Forward(m), plan.isText, plan.prompt, token)
  }

  // ---------------------------------------------------------------------
  // Generation: reading the response
  // ---------------------------------------------------------------------

  datatype Outcome = ErrorReply | TextReply(text: string) | PhotoReply(attachment: string) | Fault

  function PhotoAttachment(ownerId: int, id: int): (r: string)
    ensures |r| > 5 && r[..5] == "photo"
  {
    "photo" + IntToString(ownerId) + "_" + IntToString(id)
  }

  /** The array the response is read from: `choices` for text, `data` for images. */
  function Elements(isText: bool, node: GenResponse): Option<seq<Option<Item>>>
  {
    if isText then node.choices else node.data
  }

  /**
   * `SendResponseAsync`: the field of the first element.  An empty array
   * makes `arr[0]` throw outside any `try`: the request ends with no reply
   * (`Fault`).
   */
  function ResponseOutcome(isText: bool, node: Option<GenResponse>, upload: Option<(int, int)>): (o: Outcome)
    ensures o.Fault? <==> node.Some? && Elements(isText, node.value) == Some([])
    ensures o.ErrorReply? <==>
      || node.None?
      || Elements(isText, node.value).None?
      || (|Elements(isText, node.value).value| > 0
          && (Elements(isText, node.value).value[0].None?
              || Elements(isText, node.value).value[0].value.field.None?
              || (!isText && upload.None?)))
    ensures o.TextReply? ==> isText && o.text == Elements(isText, node.value).value[0].value.field.value
    ensures o.PhotoReply? ==> !isText && o.attachment == PhotoAttachment(upload.value.0, upload.value.1)
  {
    if node.None? then ErrorReply
    else
      var arr := Elements(isText, node.value);
      if arr.None? then ErrorReply
      else if |arr.value| == 0 then Fault
      else if arr.value[0].None? then ErrorReply
      else
        var result := arr.value[0].value.field;
        if result.None? then ErrorReply
        else if isText then TextReply(result.value)
        else if upload.None? then ErrorReply
        else PhotoReply(PhotoAttachment(upload.value.0, upload.value.1))
  }

  /** The messages sent for an outcome: one, except for the fault, which sends none. */
  function OutcomeReplies(peerId: int, forward: string, error: string, o: Outcome): (r: seq<Reply>)
    ensures |r| == if o.Fault? then 0 else 1
    ensures o.ErrorReply? ==> r == [Reply(peerId, Some(error), forward, None)]
    ensures o.TextReply? ==> r == [Reply(peerId, Some(o.text), forward, None)]
    ensures o.PhotoReply? ==> r == [Reply(peerId, None, forward, Some(o.attachment))]
  {
    match o
    case ErrorReply => [Reply(peerId, Some(error), forward, None)]
    case TextReply(t) => [Reply(peerId, Some(t), forward, None)]
    case PhotoReply(a) => [Reply(peerId, None, forward, Some(a))]
    case Fault => []
  }

  /**
   * The messages the generation handler sends for a planned request before
   * it waits (or instead of waiting): the too-long reply, the reply to an
   * immediate call, or the queue's answer for the `position` `Add` returned.
   */
  function GenerateReplies(s: Settings, m: Message, plan: Plan, custom: Option<string>, env: Env,
                           position: int): (r: seq<Reply>)
    ensures |r| <= 1
    ensures r == [] <==>
      plan.Silent? || (plan.Request? && custom.Some? && ResponseOutcome(plan.isText, env.response, env.upload).Fault?)
    ensures Waits(plan, custom) ==>
      r == [Answer(m, if position == -1 then s.queueFullMessage else s.positionMessage + IntToString(position))]
  {
    match plan
    case TooLong => [Answer(m, s.tooLongMessage)]
    case Silent => []
    case Request(isText, _) =>
      if custom.Some? then
        OutcomeReplies(m.peerId, Forward(m), s.errorMessage, ResponseOutcome(isText, env.response, env.upload))
      else if position == -1 then [Answer(m, s.queueFullMessage)]
      else [Answer(m, s.positionMessage + IntToString(position))]
  }

  /** A completion's first text is sent back without change. */
  lemma TextForwardedAsIs(t: string, rest: seq<Option<Item>>, data: Option<seq<Option<Item>>>,
                          upload: Option<(int, int)>)
    ensures ResponseOutcome(true, Some(GenResponse(Some([Some(Item(Some(t)))] + rest), data)), upload)
         == TextReply(t)
  {
  }

  /** An image whose upload fails gets the error reply and no attachment. */
  lemma FailedUploadGivesError(url: string, rest: seq<Option<Item>>, choices: Option<seq<Option<Item>>>,
                               peerId: int, forward: string, error: string)
    ensures var o := ResponseOutcome(false, Some(GenResponse(choices, Some([Some(Item(Some(url)))] + rest))), None);
      o == ErrorReply && OutcomeReplies(peerId, forward, error, o) == [Reply(peerId, Some(error), forward, None)]
  {
  }

  /** The attachment names exactly one photo: different `(owner_id, id)` pairs give different texts. */
  lemma PhotoAttachmentInjective(o1: int, i1: int, o2: int, i2: int)
    requires PhotoAttachment(o1, i1) == PhotoAttachment(o2, i2)
    ensures o1 == o2 && i1 == i2
  {
    var s1, s2 := IntToString(o1) + "_" + IntToString(i1), IntToString(o2) + "_" + IntToString(i2);
    assert PhotoAttachment(o1, i1) == "photo" + s1;
    assert PhotoAttachment(o2, i2) == "photo" + s2;
    DropPrefix("photo", s1, s2);
    IntPrefixCancel(o1, o2, '_', IntToString(i1), IntToString(i2));
    IntToStringInjective(i1, i2);
  }

  // ---------------------------------------------------------------------
  // Tech commands: argument parsing
  // ---------------------------------------------------------------------

  /** `TechHelpHandler`: the new help text is everything after the command and one space. */
  function HelpEdit(text: string): (r: Option<string>)
    ensures r.Some? <==> ' ' in text
    ensures r.Some? ==> text == Command(text) + " " + r.value
  {
    var words := Split(text, ' ');
    SplitHead(text, ' ');
    if |words| < 2 then None
    else
      var n := |words[0]|;
      assert n == IndexOf(text, ' ') && words[0] == Command(text);
      HelpSplit(text, n);
      Some(text[n + 1..])
  }

  lemma HelpSplit(text: string, n: nat)
    requires n < |text| && text[n] == ' '
    ensures text == text[..n] + " " + text[n + 1..]
  {
    assert text[..n] + " " + text[n + 1..] == text[..n] + text[n..];
  }

  lemma HelpRoundTrip(cmd: string, help: string)
    requires ' ' !in cmd
    ensures HelpEdit(cmd + " " + help) == Some(help)
  {
    CommandWithArguments(cmd, help);
    DropPrefix(cmd + " ", HelpEdit(cmd + " " + help).value, help);
  }

  /** A custom-token change: the peer whose token changes and the new value (None clears it). */
  datatype TokenEdit = TokenEdit(peerId: int, token: Option<string>)

  /**
   * `TechCustomTokenHandler`: three words or more, the second parsing as a
   * nonzero long (a failed parse leaves 0), the third the token or "null".
   */
  function CustomTokenEdit(text: string): (r: Option<TokenEdit>)
    ensures r.Some? ==>
      && |Split(text, ' ')| >= 3 && r.value.peerId != 0
      && TryParse(Split(text, ' ')[1], MinInt64, MaxInt64) == Some(r.value.peerId)
    ensures r.Some? ==> (r.value.token.None? <==> Split(text, ' ')[2] == "null")
  {
    var words := Split(text, ' ');
    if |words| < 3 then None
    else
      var parsed := TryParse(words[1], MinInt64, MaxInt64);
      var id := if parsed.Some? then parsed.value else 0;
      if id == 0 then None
      else Some(TokenEdit(id, if words[2] == "null" then None else Some(words[2])))
  }

  /**
   * The command as an operator writes it: any 64-bit peer id other than 0
   * and any token without spaces come back, whatever words follow; "null"
   * clears the token.
   */
  lemma CustomTokenRoundTrip(cmd: string, peerId: int, token: string, extra: seq<string>)
    requires ' ' !in cmd && ' ' !in token
    requires forall k :: 0 <= k < |extra| ==> ' ' !in extra[k]
    requires MinInt64 <= peerId <= MaxInt64
    ensures CustomTokenEdit(Join([cmd, IntToString(peerId), token] + extra, ' '))
         == if peerId == 0 then None
            else Some(TokenEdit(peerId, if token == "null" then None else Some(token)))
  {
    var digits := IntToString(peerId);
    IntToStringFree(peerId, ' ');
    WordsOfJoin(cmd, digits, token, extra);
    TryParseIntToString(peerId, MinInt64, MaxInt64);
    CustomTokenOfWords(Join([cmd, digits, token] + extra, ' '), digits, token);
  }

  /** The edit depends on the second and third words only. */
  lemma CustomTokenOfWords(text: string, arg: string, token: string)
    requires |Split(text, ' ')| >= 3 && Split(text, ' ')[1] == arg && Split(text, ' ')[2] == token
    ensures var parsed := TryParse(arg, MinInt64, MaxInt64);
      CustomTokenEdit(text)
        == if parsed.None? || parsed.value == 0 then None
           else Some(TokenEdit(parsed.value, if token == "null" then None else Some(token)))
  {
  }

  /** Three space-free words, then more, split back into themselves. */
  lemma WordsOfJoin(a: string, b: string, c: string, extra: seq<string>)
    requires ' ' !in a && ' ' !in b && ' ' !in c
    requires forall k :: 0 <= k < |extra| ==> ' ' !in extra[k]
    ensures var words := Split(Join([a, b, c] + extra, ' '), ' ');
      |words| >= 3 && words[0] == a && words[1] == b && words[2] == c
  {
    var prefix := [a, b, c];
    assert forall k :: 0 <= k < |prefix| ==> ' ' !in prefix[k] by {
      assert prefix[0] == a && prefix[1] == b && prefix[2] == c;
    }
    SpaceFreeWords(prefix, extra);
    SplitJoin(prefix + extra, ' ');
    assert (prefix + extra)[1] == b && (prefix + extra)[2] == c && (prefix + extra)[0] == a;
  }

  lemma SpaceFreeWords(prefix: seq<string>, extra: seq<string>)
    requires forall k :: 0 <= k < |prefix| ==> ' ' !in prefix[k]
    requires forall k :: 0 <= k < |extra| ==> ' ' !in extra[k]
    ensures forall k :: 0 <= k < |prefix + extra| ==> ' ' !in (prefix + extra)[k]
  {
    forall k | 0 <= k < |prefix + extra| ensures ' ' !in (prefix + extra)[k] {
      if k < |prefix| {
        assert (prefix + extra)[k] == prefix[k];
      } else {
        assert (prefix + extra)[k] == extra[k - |prefix|];
      }
    }
  }

  /** Two words change nothing, whatever the second one is. */
  lemma TwoWordsNoChange(cmd: string, arg: string)
    requires ' ' !in cmd && ' ' !in arg
    ensures CustomTokenEdit(cmd + " " + arg).None?
  {
    assert Join([cmd, arg], ' ') == cmd + " " + arg;
    SplitJoin([cmd, arg], ' ');
  }

  /** Three words whose second is not a number change nothing. */
  lemma CustomTokenRejected(cmd: string, arg: string, token: string)
    requires ' ' !in cmd && ' ' !in arg && ' ' !in token
    requires TryParse(arg, MinInt64, MaxInt64).None?
    ensures CustomTokenEdit(Join([cmd, arg, token], ' ')).None?
  {
    SplitJoin([cmd, arg, token], ' ');
  }

  /** `TechPublicTokenHandler`: the second word, when there is one. */
  function PublicTokenEdit(text: string): (r: Option<string>)
    ensures r.Some? <==> ' ' in text
    ensures r.Some? ==> ' ' !in r.value
  {
    var words := Split(text, ' ');
    SplitHead(text, ' ');
    if |words| < 2 then None else Some(words[1])
  }

  lemma PublicTokenRoundTrip(cmd: string, token: string, extra: seq<string>)
    requires ' ' !in cmd && ' ' !in token
    requires forall k :: 0 <= k < |extra| ==> ' ' !in extra[k]
    ensures PublicTokenEdit(Join([cmd, token] + extra, ' ')) == Some(token)
  {
    var words := [cmd, token] + extra;
    SpaceFreeWords([cmd, token], extra);
    SplitJoin(words, ' ');
    assert ' ' in Join(words, ' ') by {
      SplitHead(Join(words, ' '), ' ');
    }
  }

  // ---------------------------------------------------------------------
  // .allow / .disallow
  // ---------------------------------------------------------------------

  predicate IsOwner(members: seq<ChatMember>, userId: int)
  {
    exists k :: 0 <= k < |members| && members[k].isOwner == Some(true) && members[k].memberId == userId
  }

  /** The `foreach` over the members, leaving at the first owner entry for the author. */
  method FindOwner(members: seq<ChatMember>, userId: int) returns (ok: bool)
    ensures ok <==> IsOwner(members, userId)
  {
    ok := false;
    var i := 0;
    while i < |members|
      invariant 0 <= i <= |members|
      invariant !ok
      invariant forall k :: 0 <= k < i ==> !(members[k].isOwner == Some(true) && members[k].memberId == userId)
    {
      var mem := members[i];
      if mem.isOwner.Some? && mem.isOwner.value && mem.memberId == userId {
        ok := true;
        break;
      }
      i := i + 1;
    }
  }

  /** The author of the quoted message, or the sender when nothing is quoted. */
  function AllowTarget(m: Message): (r: int)
    ensures m.replyFrom.Some? ==> r == m.replyFrom.value
    ensures m.replyFrom.None? ==> r == m.fromId
  {
    if m.replyFrom.Some? then m.replyFrom.value else m.fromId
  }

  /** A permission change: the `(user, peer)` row and its new `is_allowed`. */
  datatype Grant = Grant(user: int, peer: int, allowed: bool)

  /** `AllowHandler`: who may change permissions, and whose. */
  function AllowEdit(m: Message, members: Option<seq<ChatMember>>): (r: Option<Grant>)
    requires m.text.Some?
    ensures r.Some? <==>
      && m.peerId > VkApi.ConstPeerId
      && (m.text.value == AllowCommand || m.text.value == DisallowCommand)
      && members.Some?
      && (IsOwner(members.value, m.fromId) || m.fromId == AdminId)
      && AllowTarget(m) >= 0
    ensures r.Some? ==> r.value == Grant(AllowTarget(m), m.peerId, m.text.value == AllowCommand)
  {
    var text := m.text.value;
    if m.peerId <= VkApi.ConstPeerId then None
    else if text != AllowCommand && text != DisallowCommand then None
    else if members.None? then None
    else if !(IsOwner(members.value, m.fromId) || m.fromId == AdminId) then None
    else if AllowTarget(m) < 0 then None
    else Some(Grant(AllowTarget(m), m.peerId, text == AllowCommand))
  }

  function ApplyGrant(chatUsers: map<(int, int), bool>, g: Option<Grant>): map<(int, int), bool>
  {
    if g.Some? then chatUsers[(g.value.user, g.value.peer) := g.value.allowed] else chatUsers
  }

  function Row<K, V>(m: map<K, V>, k: K): Option<V>
  {
    if k in m then Some(m[k]) else None
  }

  /**
   * `.allow` in a group chat unlocks the known commands for its target there,
   * and `.disallow` locks them again, whatever the row held before.
   */
  lemma GrantGovernsCommands(chatUsers: map<(int, int), bool>, m: Message, members: Option<seq<ChatMember>>,
                             text: string)
    requires m.text.Some? && AllowEdit(m, members).Some?
    requires Command(text) in CommandTable
    ensures var after := ApplyGrant(chatUsers, AllowEdit(m, members));
      RouteCommand(m.peerId, text, Row(after, (AllowTarget(m), m.peerId)))
        == if m.text.value == AllowCommand then Dispatch(Command(text)) else Ignore
  {
  }

  /** Before any grant, nobody may use a known command in a group chat. */
  lemma GroupChatsLockedByDefault(peerId: int, text: string)
    requires peerId > VkApi.ConstPeerId
    ensures RouteCommand(peerId, text, None) == Ignore
  {
  }

  // ---------------------------------------------------------------------
  // The bot
  // ---------------------------------------------------------------------

  /** How a generation request ended for its peer's anti-spam entry. */
  datatype Fate = Finished | Queued | Never

  function QueuedPeers(jobs: seq<Job>): set<int>
  {
    set k | 0 <= k < |jobs| :: jobs[k].peerId
  }

  predicate DistinctPeers(jobs: seq<Job>)
  {
    forall i, j :: 0 <= i < j < |jobs| ==> jobs[i].peerId != jobs[j].peerId
  }

  lemma QueuedPeersAppend(jobs: seq<Job>, j: Job)
    ensures QueuedPeers(jobs + [j]) == QueuedPeers(jobs) + {j.peerId}
  {
    var s := jobs + [j];
    assert s[|jobs|] == j;
    forall p | p in QueuedPeers(s) ensures p in QueuedPeers(jobs) + {j.peerId} {
      var k :| 0 <= k < |s| && s[k].peerId == p;
      if k < |jobs| {
        assert s[k] == jobs[k];
      }
    }
    forall p | p in QueuedPeers(jobs) ensures p in QueuedPeers(s) {
      var k :| 0 <= k < |jobs| && jobs[k].peerId == p;
      assert s[k] == jobs[k];
    }
  }

  lemma QueuedPeersTail(jobs: seq<Job>)
    requires jobs != [] && DistinctPeers(jobs)
    ensures QueuedPeers(jobs[1..]) == QueuedPeers(jobs) - {jobs[0].peerId}
    ensures DistinctPeers(jobs[1..])
  {
    var t := jobs[1..];
    forall p | p in QueuedPeers(t) ensures p in QueuedPeers(jobs) - {jobs[0].peerId} {
      var k :| 0 <= k < |t| && t[k].peerId == p;
      assert t[k] == jobs[k + 1];
    }
    forall p | p in QueuedPeers(jobs) - {jobs[0].peerId} ensures p in QueuedPeers(t) {
      var k :| 0 <= k < |jobs| && jobs[k].peerId == p;
      assert k != 0;
      assert t[k - 1] == jobs[k];
    }
  }

  class Bot {
    const settings: Settings
    /** The generation handler's timer queue. */
    const queue: TimerQueue<Job>
    /** `chat_users`: `(user_id, peer_id)` to `is_allowed`. */
    var chatUsers: map<(int, int), bool>
    /** `peers`: `peer_id` to `custom_token`. */
    var peers: map<int, Option<string>>
    /** `tech_users`: `user_id` to `is_tech`. */
    var techUsers: map<int, bool>
    var techInfo: TechInfo
    /** The anti-spam set of peers with a request in flight. */
    var busy: set<int>
    /** Every message sent, in order. */
    var outbox: seq<Reply>
    /** Peers whose request was refused by the full queue and so never finishes. */
    ghost var stuck: set<int>

    /**
     * Every busy peer is stuck, waiting in the queue, or one of `inFlight`
     * (being handled right now), and each for exactly one reason.
     */
    ghost predicate Consistent(inFlight: set<int>)
      reads this, queue
    {
      && queue.Valid()
      && busy == stuck + QueuedPeers(queue.items) + inFlight
      && stuck !! QueuedPeers(queue.items)
      && stuck !! inFlight
      && QueuedPeers(queue.items) !! inFlight
      && DistinctPeers(queue.items)
    }

    ghost predicate Valid()
      reads this, queue
    {
      Consistent({})
    }

    constructor (settings: Settings, chatUsers: map<(int, int), bool>, peers: map<int, Option<string>>,
                 techUsers: map<int, bool>, techInfo: TechInfo)
      ensures Valid()
      ensures this.settings == settings && this.chatUsers == chatUsers && this.peers == peers
      ensures this.techUsers == techUsers && this.techInfo == techInfo
      ensures busy == {} && outbox == [] && stuck == {}
      ensures queue.items == [] && queue.maxQueueLength == DefaultMaxQueueLength
    {
      this.settings := settings;
      this.chatUsers := chatUsers;
      this.peers := peers;
      this.techUsers := techUsers;
      this.techInfo := techInfo;
      busy := {};
      outbox := [];
      stuck := {};
      queue := new TimerQueue<Job>(GeneratePeriod, 0);
    }

    method Send(r: Reply)
      modifies this
      ensures outbox == old(outbox) + [r]
      ensures chatUsers == old(chatUsers) && peers == old(peers) && techUsers == old(techUsers)
      ensures techInfo == old(techInfo) && busy == old(busy) && stuck == old(stuck)
    {
      outbox := outbox + [r];
    }

    /** The three chains, in the order the application registers them. */
    method HandleUpdate(u: Update, env: Env)
      requires Valid()
      modifies this, queue
      ensures Valid()
      ensures !IsNewMessage(u) ==>
        && outbox == old(outbox) && busy == old(busy) && chatUsers == old(chatUsers)
        && peers == old(peers) && techInfo == old(techInfo) && queue.items == old(queue.items)
      ensures techUsers == old(techUsers)
    {
      CommandsChain(u, env);
      TechChain(u);
      AllowChain(u, env.members);
    }

    /** Filter, then `CommandsHandler`. */
    method CommandsChain(u: Update, env: Env)
      requires Valid()
      modifies this, queue
      ensures Valid()
      ensures chatUsers == old(chatUsers) && techUsers == old(techUsers)
      ensures peers == old(peers) && techInfo == old(techInfo)
      ensures !IsNewMessage(u) ==> outbox == old(outbox) && busy == old(busy) && queue.items == old(queue.items)
      ensures IsNewMessage(u) ==>
        var m := u.message;
        var route := RouteCommand(m.peerId, m.text.value, Row(old(chatUsers), (m.fromId, m.peerId)));
        && (route.Ignore? ==> outbox == old(outbox) && busy == old(busy) && queue.items == old(queue.items))
        && (route.Unknown? ==> outbox == old(outbox) + [Answer(m, settings.unknownCommand)]
                               && busy == old(busy) && queue.items == old(queue.items))
        && (route == Dispatch(HelpCommand) ==>
              outbox == old(outbox) + [Answer(m, techInfo.helpMessage)]
              && busy == old(busy) && queue.items == old(queue.items))
        && (route == Dispatch(TechInfoCommand) ==>
              outbox == old(outbox) + [Answer(m, IntToString(m.peerId))]
              && busy == old(busy) && queue.items == old(queue.items))
        && (route == Dispatch(TextCommand) || route == Dispatch(ImageCommand) ==>
              var plan := PlanGenerate(m.text.value, settings.maxLength);
              var custom := CustomToken(old(peers), m.peerId);
              && (m.peerId in old(busy) ==>
                    && outbox == old(outbox) + [Answer(m, settings.busyMessage)]
                    && busy == old(busy) && queue.items == old(queue.items))
              && (m.peerId !in old(busy) && !Waits(plan, custom) ==>
                    && outbox == old(outbox) + GenerateReplies(settings, m, plan, custom, env, 0)
                    && busy == old(busy) && queue.items == old(queue.items))
              && (m.peerId !in old(busy) && Waits(plan, custom) ==>
                    var a := Admit(old(queue.items), old(queue.maxQueueLength),
                                   JobFor(m, plan, old(techInfo).publicToken));
                    && outbox == old(outbox) + GenerateReplies(settings, m, plan, custom, env, a.position)
                    && busy == old(busy) + {m.peerId} && queue.items == a.queue))
    {
      if !IsNewMessage(u) {
        return;
      }
      var m := u.message;
      var route := RouteCommand(m.peerId, m.text.value, Row(chatUsers, (m.fromId, m.peerId)));
      match route
      case Ignore =>
      case Unknown =>
        Send(Answer(m, settings.unknownCommand));
      case Dispatch(command) =>
        if command == TextCommand || command == ImageCommand {
          AntiSpam(m, env);
        } else if command == HelpCommand {
          Send(Answer(m, techInfo.helpMessage));
        } else {
          Send(Answer(m, IntToString(m.peerId)));
        }
    }

    /**
     * `AntiSpamHandler` in front of generation: a busy peer gets the busy
     * reply only; otherwise the peer is held while the request runs and let
     * go when it finishes.  A request that waits in the queue keeps it until
     * its `Tick`; one the full queue refused keeps it for good.
     */
    method AntiSpam(m: Message, env: Env)
      requires Valid() && m.text.Some?
      modifies this, queue
      ensures Valid()
      ensures chatUsers == old(chatUsers) && techUsers == old(techUsers)
      ensures peers == old(peers) && techInfo == old(techInfo)
      ensures m.peerId in old(busy) ==>
        && outbox == old(outbox) + [Answer(m, settings.busyMessage)]
        && busy == old(busy) && queue.items == old(queue.items)
      ensures var plan := PlanGenerate(m.text.value, settings.maxLength);
        var custom := CustomToken(old(peers), m.peerId);
        m.peerId !in old(busy) && !Waits(plan, custom) ==>
          && outbox == old(outbox) + GenerateReplies(settings, m, plan, custom, env, 0)
          && busy == old(busy) && queue.items == old(queue.items)
      ensures var plan := PlanGenerate(m.text.value, settings.maxLength);
        var custom := CustomToken(old(peers), m.peerId);
        m.peerId !in old(busy) && Waits(plan, custom) ==>
          var a := Admit(old(queue.items), old(queue.maxQueueLength), JobFor(m, plan, old(techInfo).publicToken));
          && outbox == old(outbox) + GenerateReplies(settings, m, plan, custom, env, a.position)
          && busy == old(busy) + {m.peerId} && queue.items == a.queue
    {
      var entered := Enter(busy, m.peerId);
      if entered.None? {
        Send(Answer(m, settings.busyMessage));
        return;
      }
      busy := entered.value;
      var fate := Generate(m, env);
      if fate == Finished {
        busy := Leave(busy, m.peerId);
      }
    }

    /**
     * `GenerateHandler.HandleAsync`: validation, the token, and the choice
     * between the queue and an immediate call.  The peer is in flight on
     * entry; it stays so when the request finished here, and is accounted
     * to the queue or to `stuck` otherwise.
     */
    method Generate(m: Message, env: Env) returns (fate: Fate)
      requires m.text.Some? && Consistent({m.peerId})
      modifies this, queue
      ensures fate == Finished ==> Consistent({m.peerId})
      ensures fate != Finished ==> Consistent({})
      ensures busy == old(busy)
      ensures chatUsers == old(chatUsers) && techUsers == old(techUsers)
      ensures peers == old(peers) && techInfo == old(techInfo)
      ensures var plan := PlanGenerate(m.text.value, settings.maxLength);
        var custom := CustomToken(old(peers), m.peerId);
        !Waits(plan, custom) ==>
          && fate == Finished && queue.items == old(queue.items) && stuck == old(stuck)
          && outbox == old(outbox) + GenerateReplies(settings, m, plan, custom, env, 0)
      ensures var plan := PlanGenerate(m.text.value, settings.maxLength);
        var custom := CustomToken(old(peers), m.peerId);
        Waits(plan, custom) ==>
          var a := Admit(old(queue.items), old(queue.maxQueueLength), JobFor(m, plan, old(techInfo).publicToken));
          && queue.items == a.queue
          && outbox == old(outbox) + GenerateReplies(settings, m, plan, custom, env, a.position)
          && fate == (if a.position == -1 then Never else Queued)
          && stuck == (if a.position == -1 then old(stuck) + {m.peerId} else old(stuck))
    {
      var plan := PlanGenerate(m.text.value, settings.maxLength);
      if plan.TooLong? {
        Send(Answer(m, settings.tooLongMessage));
        return Finished;
      }
      if plan.Silent? {
        return Finished;
      }
      var custom := CustomToken(peers, m.peerId);
      if custom.Some? {
        var o := ResponseOutcome(plan.isText, env.response, env.upload);
        outbox := outbox + OutcomeReplies(m.peerId, Forward(m), settings.errorMessage, o);
        return Finished;
      }
      var job := JobFor(m, plan, techInfo.publicToken);
      ghost var before := queue.items;
      var position := queue.Add(job);
      if position == -1 {
        Send(Answer(m, settings.queueFullMessage));
        stuck := stuck + {m.peerId};
        return Never;
      }
      QueuedPeersAppend(before, job);
      Send(Answer(m, settings.positionMessage + IntToString(position)));
      return Queued;
    }

    /**
     * One timer tick: the head request is made, its reply is sent, and its
     * peer leaves the anti-spam set, whatever the outcome.
     */
    method Tick(response: Option<GenResponse>, upload: Option<(int, int)>) returns (run: Option<Job>)
      requires Valid()
      modifies this, queue
      ensures Valid()
      ensures Drain(queue.items, run) == Dequeue(old(queue.items))
      ensures run.None? ==> outbox == old(outbox) && busy == old(busy)
      ensures run.Some? ==>
        && outbox == old(outbox)
           + OutcomeReplies(run.value.peerId, run.value.forward, settings.errorMessage,
                            ResponseOutcome(run.value.isText, response, upload))
        && busy == Leave(old(busy), run.value.peerId)
      ensures chatUsers == old(chatUsers) && techUsers == old(techUsers)
      ensures peers == old(peers) && techInfo == old(techInfo) && stuck == old(stuck)
    {
      ghost var before := queue.items;
      run := queue.Tick();
      if run.Some? {
        var job := run.value;
        QueuedPeersTail(before);
        assert job == before[0];
        var o := ResponseOutcome(job.isText, response, upload);
        outbox := outbox + OutcomeReplies(job.peerId, job.forward, settings.errorMessage, o);
        busy := Leave(busy, job.peerId);
      }
    }

    /** Filter, then `TechCommandsHandler` and the sub-handler it picks. */
    method TechChain(u: Update)
      requires Valid()
      modifies this
      ensures Valid()
      ensures chatUsers == old(chatUsers) && techUsers == old(techUsers) && busy == old(busy)
      ensures var route := if IsNewMessage(u)
                           then RouteTech(u.message.peerId, u.message.text.value,
                                          Row(old(techUsers), u.message.fromId))
                           else None;
        var m := u.message;
        && (route.None? ==> outbox == old(outbox) && peers == old(peers) && techInfo == old(techInfo))
        && (route == Some(TechHelpCommand) ==>
              var e := HelpEdit(m.text.value);
              && peers == old(peers)
              && techInfo == (if e.Some? then old(techInfo).(helpMessage := e.value) else old(techInfo))
              && outbox == old(outbox) + (if e.Some? then [Answer(m, "Done!")] else []))
        && (route == Some(CustomTokenCommand) ==>
              var e := CustomTokenEdit(m.text.value);
              && techInfo == old(techInfo)
              && peers == (if e.Some? then old(peers)[e.value.peerId := e.value.token] else old(peers))
              && outbox == old(outbox)
                 + (if e.Some? then [Answer(m, "Custom token of " + IntToString(e.value.peerId) + " changed.")]
                    else []))
        && (route == Some(PublicTokenCommand) ==>
              var e := PublicTokenEdit(m.text.value);
              && peers == old(peers)
              && techInfo == (if e.Some? then old(techInfo).(publicToken := e.value) else old(techInfo))
              && outbox == old(outbox) + (if e.Some? then [Answer(m, "Public token changed.")] else []))
    {
      if !IsNewMessage(u) {
        return;
      }
      var m := u.message;
      var text := m.text.value;
      var route := RouteTech(m.peerId, text, Row(techUsers, m.fromId));
      if route == Some(TechHelpCommand) {
        var e := HelpEdit(text);
        if e.Some? {
          techInfo := techInfo.(helpMessage := e.value);
          Send(Answer(m, "Done!"));
        }
      } else if route == Some(CustomTokenCommand) {
        var e := CustomTokenEdit(text);
        if e.Some? {
          peers := peers[e.value.peerId := e.value.token];
          Send(Answer(m, "Custom token of " + IntToString(e.value.peerId) + " changed."));
        }
      } else if route == Some(PublicTokenCommand) {
        var e := PublicTokenEdit(text);
        if e.Some? {
          techInfo := techInfo.(publicToken := e.value);
          Send(Answer(m, "Public token changed."));
        }
      }
    }

    /** Filter, then `AllowHandler`. */
    method AllowChain(u: Update, members: Option<seq<ChatMember>>)
      requires Valid()
      modifies this
      ensures Valid()
      ensures peers == old(peers) && techUsers == old(techUsers) && techInfo == old(techInfo)
      ensures busy == old(busy)
      ensures var grant := if IsNewMessage(u) then AllowEdit(u.message, members) else None;
        && chatUsers == ApplyGrant(old(chatUsers), grant)
        && outbox == old(outbox) + (if grant.Some? then [Answer(u.message, settings.doneMessage)] else [])
    {
      if !IsNewMessage(u) {
        return;
      }
      var m := u.message;
      var text := m.text.value;
      if m.peerId <= VkApi.ConstPeerId || (text != AllowCommand && text != DisallowCommand) {
        return;
      }
      if members.None? {
        return;
      }
      var ok := FindOwner(members.value, m.fromId);
      if m.fromId == AdminId {
        ok := true;
      }
      if !ok {
        return;
      }
      var target := AllowTarget(m);
      if target < 0 {
        return;
      }
      chatUsers := chatUsers[(target, m.peerId) := text == AllowCommand];
      Send(Answer(m, settings.doneMessage));
    }
  }
}
