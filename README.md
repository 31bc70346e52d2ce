# vkbot core in Dafny

A model of the request-handling core of a VK chat bot that relays prompts to
OpenAI. The model covers four parts:

- **Admission queue.** The timer queue paces calls made with the shared
  OpenAI token: `Add` admits at the tail or refuses, and each timer tick
  starts the head action.
- **Handler chains.** Three chains handle every incoming update:
  - The command chain. A message filter leads to the command router, which
    passes to the anti-spam guard and then generation, to help, or to
    tech info.
  - The tech chain: the tech router, then the help, custom-token and
    public-token editors.
  - The allow chain: `.allow` / `.disallow` permission changes.
- **Parser.** Reading a mention `[id123|Name]`, and writing the `forward`
  object that makes a reply quote its message.
- **VK client builders.** The query string, the list value and the message
  escaping of `messages.send`. Also the 25-per-request batching of `execute`
  calls, and the VKScript snippets of the kick and message codes.

## Files

| File | Module | What it holds |
|---|---|---|
| `Text.dfy` | `Text` | The .NET string behaviour the code relies on. |
| `TimerQueue.dfy` | `Queue` | The queue as step functions, traces of submissions and ticks, and the `TimerQueue` class. |
| `Parsing.dfy` | `Parsing` | `DomainStringToLong` (its exception path is `Throws`), and the `ToForwardString` loop with its specification. |
| `VkApi.dfy` | `VkApi` | Query strings, escaping, the `messages.send` parameters, batching, and the snippets. |
| `Handlers.dfy` | `Handlers` | The routing and parsing decisions as functions, and the `Bot` class that holds the store, the anti-spam set, the outbox and the queue. |

`Text.dfy` covers:

- `Split(' ')`. It keeps empty pieces.
- `IndexOf`.
- Decimal rendering of longs.
- `Int32`/`Int64.TryParse` with `NumberStyles.Integer`, reading the sign as
  the invariant culture writes it, and accepting trailing `'\0'` characters.
- `ToString("X")`.

How the model stands in for the running program:

- **Database.** The tables are maps:
  - `chat_users` maps `(user_id, peer_id)` to `is_allowed`;
  - `peers` maps `peer_id` to its optional `custom_token`;
  - `tech_users` maps `user_id` to `is_tech`.

  `tech_info` is one record. A missing row means the entity defaults: not
  allowed, not tech, no custom token.
- **Outgoing messages.** Every message sent is appended to `outbox` as
  (peer, text?, forward, attachment?).
- **Outside calls.** The conversation-members call, the OpenAI reply and the
  photo upload are inputs of type `Env`, all optional values.
- **Randomness.** The random `random_id` is a parameter.
- **Generation.** A request that waits in the queue completes in `Bot.Tick`.
  `Tick` stands for the timer firing, the OpenAI call returning, and the
  awaiting handler going on to `SendResponseAsync`.

Behaviour of the code worth knowing, which the model reproduces:

- **Queue capacity.** The queue refuses only when its length is greater than
  `max_queue_length`. So a limit of 2 admits three back-to-back submissions,
  at positions 1, 2 and 3, and refuses the fourth (`Queue.LimitTwo`). The
  position returned is the new length: the items ahead plus one.
- **Prompt length limit.** The limit applies to every `.gt` text, queued or
  not, and never to `.gi` (`Handlers.ImagePromptNeverTooLong`).
- **Queue full.** The request's task is never started but is still awaited.
  The request never finishes, and the anti-spam `finally` never releases its
  peer. In the model the peer joins the ghost set `stuck`, and no `Tick` ever
  removes it.
- **Empty result array.** An empty `choices`/`data` array makes `arr[0]`
  throw outside any `try`. No reply at all is sent (the `Fault` outcome). The
  anti-spam `catch` swallows the exception, and its `finally` releases the
  peer.
- **Malformed mention.** A mention whose first "id" comes after its first '|'
  makes `Substring` throw instead of returning 0
  (`Parsing.MentionWithIdAfterBarThrows`).

## Model

| member | source | states |
|---|---|---|
| Text.SplitHead | src/Handlers.cs:66-67 | `Split(' ')` gives at least two pieces exactly when the text has a space, and its first piece is the text before the first space. |
| Text.TryParseIntToString | src/Handlers.cs:143 | The decimal text of an in-range integer parses back to that integer. |
| Text.TryParseTrailingNul | src/Handlers.cs:143 | A number followed by a `'\0'` still parses to that number. |
| Text.IntToStringInjective | src/Parsing.cs:20 | Different integers render differently. |
| Queue.Admit | src/TimerQueue.cs:27-37 | Returns -1 exactly when the length read before the append exceeds the limit, and the queue is then unchanged. Otherwise the action goes at the tail, the old items keep their places, and the result is old length + 1 (at least 1). |
| Queue.Dequeue | src/TimerQueue.cs:11-20 | An empty queue is unchanged and nothing starts. Otherwise exactly the head leaves and starts, and the rest keep their order. |
| Queue.RunIsFifo | src/TimerQueue.cs:11-37 | For any interleaving of submissions and ticks: started actions followed by waiting ones equal the initial queue followed by the accepted actions, in order. |
| Queue.StartedIsPrefix | src/TimerQueue.cs:11-37 | The actions the ticks start are a prefix of the initial queue followed by the accepted actions. |
| Queue.RunBounded | src/TimerQueue.cs:32-34 | A queue that starts with at most limit + 1 items never holds more. |
| Queue.RunPositions | src/TimerQueue.cs:27-37 | Each submission returns exactly one value, which is -1 or at least 1. No more actions are accepted than were submitted. |
| Queue.FillUp | src/TimerQueue.cs:32-36 | There is no deduplication: from empty, the same action submitted n ≤ limit + 1 times takes n slots at positions 1..n. |
| Queue.OverflowRefused | src/TimerQueue.cs:32-33 | Submission number limit + 2 gets -1, and the queue stays at limit + 1. |
| Queue.LimitTwo | src/TimerQueue.cs:32-36 | With limit 2, four back-to-back submissions return 1, 2, 3, -1, and the first three wait in order. |
| Queue.DefaultCapacity | src/TimerQueue.cs:9 | With the default limit of 250, the 251st submission is admitted at position 251 and the 252nd is refused. |
| Queue.TimerQueue.constructor | src/TimerQueue.cs:22-25 | A new queue is empty, with the limit at its default of 250. |
| Queue.TimerQueue.SetMaxQueueLength | src/TimerQueue.cs:9 | Sets the limit and nothing else. |
| Queue.TimerQueue.Add | src/TimerQueue.cs:27-37 | The new contents and the returned value are those of `Admit`. The record of accepted actions grows with it, so started + waiting == accepted holds throughout. |
| Queue.TimerQueue.Tick | src/TimerQueue.cs:11-20 | The new contents and the started action are those of `Dequeue`, and the accounting invariant is kept. |
| Parsing.DomainStringToLong | src/Parsing.cs:5-15 | The result is 0 unless the text contains a vertical bar, starts with '[' and ends with ']'. It throws exactly when, in that shape, the first "id" comes after the first bar. Any value returned is a 32-bit integer. |
| Parsing.MentionRoundTrip | src/Parsing.cs:9-12 | A mention made of `[id`, the digits of n, a vertical bar, any name and `]` gives back n, for every 32-bit n. |
| Parsing.MentionWithIdAfterBarThrows | src/Parsing.cs:9-12 | `[club`, a bar, then `id]` makes the code throw. |
| Parsing.ToForwardString | src/Parsing.cs:16-30 | The builder loop returns `{"peer_id":P,"is_reply":B,"conversation_message_ids":[i1,...,in]}` with no trailing comma. For an empty list the text ends in `:]}`. |
| Parsing.AppendIds | src/Parsing.cs:23-24 | After the loop, the builder holds every id followed by a comma, in order. |
| Parsing.RemoveLast | src/Parsing.cs:27 | The final `Remove` drops the last comma, or the '[' when the list is empty. |
| Parsing.ForwardStringInjective | src/Parsing.cs:18-29 | Equal forward texts come from the same peer, reply flag and id list. |
| Parsing.SingleReplyForward | src/Handlers.cs:92 | The handlers' one-id form is the header, '[', the id, and `]}`. |
| Parsing.EmptyForward | src/Parsing.cs:22-28 | An empty id list yields the header followed by `]}`, ending in `:]}`. |
| VkApi.QueryString | src/VkClient.cs:23-33 | The text is empty exactly when the dictionary is, and starts with '?' otherwise. |
| VkApi.DictToQuery | src/VkClient.cs:23-33 | The builder loop returns `?k1=v1&...&kn=vn` in dictionary order with no trailing '&'. |
| VkApi.QueryRoundTrip | src/VkClient.cs:23-33 | A query string of entries whose keys have no '=' or '&', and whose values have no '&', parses back to exactly those entries, in order. |
| VkApi.ListToQueryValue | src/VkClient.cs:38-47 | Every id is rendered and followed by a comma, the last one included. |
| VkApi.ListValueRoundTrip | src/VkClient.cs:38-47 | Splitting the value on ',' gives every rendered id plus one empty piece, and each id parses back as a long. |
| VkApi.EscapeMessage | src/VkClient.cs:87-96 | The escaping loop yields `Escape(message)`: each of `?#%&+-*` becomes '%' and its upper-case hex code, and every other character is copied. |
| VkApi.EscapeAppend | src/VkClient.cs:90-94 | Escaping works one character at a time. |
| VkApi.UnescapeEscape | src/VkClient.cs:87-96 | Percent-decoding an escaped message gives the message back. |
| VkApi.EscapeIsQuerySafe | src/VkClient.cs:82-96 | No character of `?#&+-*` survives escaping, and every '%' left is followed by two hex digits whose value is a character of `?#%&+-*`. |
| VkApi.EscapeExample | src/VkClient.cs:92 | An example: `1+1?` is sent as `1%2B1%3F`. |
| VkApi.WithCredentials | src/VkClient.cs:55-56 | `access_token` and then `v` are appended after the method's own parameters. |
| VkApi.SendParameters | src/VkClient.cs:80-101 | The keys come in this order: `peer_id`, then `message`, `forward` and `attachment` (each only when given), then `disable_mentions` and `random_id`. The message goes in escaped. A `random_id` of 0 is replaced by the drawn value. |
| VkApi.MessagesSendQuery | src/VkClient.cs:72-107 | The query string of a `messages.send` request: those parameters, then the credentials. |
| VkApi.SendQueryPlain | src/VkClient.cs:85-101 | If the forward text, the attachment and the credentials hold no '&', the whole query is one a receiver splits back correctly. |
| VkApi.MessageReadBack | src/VkClient.cs:82-101 | Whatever the message, a receiver that parses that query string and decodes the second entry reads back `message` and the exact text. |
| VkApi.FirstIsFirst | src/VkClient.cs:231 | `FirstIs` finds the first code that is the same object as the last one. |
| VkApi.Cut | src/VkClient.cs:228-231 | A batch holds between 1 and 25 codes. |
| VkApi.BatchesFlatten | src/VkClient.cs:225-237 | The batches, concatenated, are the codes in order. |
| VkApi.BatchesTexts | src/VkClient.cs:225-237 | The `execute` payloads, concatenated, are the codes' snippets in order. |
| VkApi.BatchesBounded | src/VkClient.cs:228-236 | No batch is empty, and none holds more than 25 codes. |
| VkApi.DistinctBatches | src/VkClient.cs:225-237 | With distinct objects, n codes go out in ceil(n/25) requests, all of 25 codes but the last. |
| VkApi.RepeatedLastObject | src/VkClient.cs:231 | The test is reference equality: an earlier occurrence of the last object also closes a batch. |
| VkApi.SentStep | src/VkClient.cs:225-236 | One loop turn appends a snippet, and issues the batch exactly when the counter passes 24 or the code is the last object. |
| VkApi.ExecuteAsync | src/VkClient.cs:219-239 | An empty list issues no request. Otherwise the requests carry exactly the batches `Batches` cuts, in order. |
| VkApi.KickCode | src/VkClient.cs:284-294 | Its definition is the snippet `API.messages.removeChatUser({"chat_id":C,"user_id":U,});`, trailing comma included. The ensures says it starts with `API.messages.removeChatUser(` and ends with `,});`. |
| VkApi.KickCodeInjective | src/VkClient.cs:284-294 | Different (chat, user) pairs give different snippets. |
| VkApi.MessageCode | src/VkClient.cs:258-270 | Its definition is the snippet `API.messages.send({"peer_id":P,"random_id":R,"message":"M"});`, with the message inserted unescaped. The ensures says it starts with `API.messages.send(` and ends with `"});`. |
| VkApi.MessageCodeInjective | src/VkClient.cs:258-270 | Different messages, peers or random ids give different snippets. |
| Handlers.IsNewMessage | src/Handlers.cs:23-44 | An update goes down a chain only when it is a `message_new` from a user (non-negative `from_id`) with a non-null, non-empty text. No leading dot is required. |
| Handlers.Forward | src/Handlers.cs:269 | Every answer quotes its message: `{"peer_id":P,"is_reply":true,"conversation_message_ids":[id]}`. |
| Handlers.Command | src/Handlers.cs:66-67 | The command is the text before the first space, or the whole text when there is none. It holds no space. |
| Handlers.CommandWithArguments | src/Handlers.cs:262-263 | A space-free command followed by a space and anything at all is routed as that command. |
| Handlers.RouteCommand | src/Handlers.cs:262-283 | An unknown command gets the unknown-command reply exactly when `peer_id < 2000000000` and it does not contain ".tech". A known command is handled exactly when the chat is private, or the author's `(user, peer)` row says allowed. |
| Handlers.RouteTech | src/Handlers.cs:66-77 | A tech command runs exactly when `peer_id <= 2000000000`, the first word is in the tech table and the author's `tech_users` row says `is_tech`. |
| Handlers.TechCommandsNotUnknown | src/Handlers.cs:265-273 | A tech command never draws the unknown-command reply from the command chain. |
| Handlers.GenerationOnlyRouted | src/Handlers.cs:66-71 | `.gt`/`.gi` texts are ignored by the tech router, and are never `.allow`/`.disallow`. |
| Handlers.Enter | src/Handlers.cs:206-222 | A busy peer is refused and the set is unchanged. Otherwise the peer is added. |
| Handlers.Leave | src/Handlers.cs:232-237 | The `finally` removes the peer and nothing else. |
| Handlers.EnterThenLeave | src/Handlers.cs:219-238 | Once the guarded call ends, the set is what it was on entry. |
| Handlers.SecondRequestRefused | src/Handlers.cs:206-217 | A second entry for the same peer without a leave is refused. |
| Handlers.OtherPeersPass | src/Handlers.cs:206-222 | One peer's entry does not block another peer. |
| Handlers.PlanGenerate | src/Handlers.cs:390-403 | Too long exactly for a `.gt` text over `max_length`. Otherwise silent exactly when there is no space. Otherwise command + " " + prompt is the text. |
| Handlers.PromptRoundTrip | src/Handlers.cs:395-403 | `cmd + " " + prompt` yields exactly `prompt`, spaces included, unless a `.gt` text is too long. |
| Handlers.ImagePromptNeverTooLong | src/Handlers.cs:392-399 | `.gi` texts have no length limit. |
| Handlers.BareCommandDropped | src/Handlers.cs:400 | `.gt` or `.gi` alone is dropped with no reply. |
| Handlers.CustomToken | src/Handlers.cs:429-439 | A missing `peers` row, or one whose `custom_token` is null, gives None. Otherwise the result is the stored token. |
| Handlers.ResponseOutcome | src/Handlers.cs:482-543 | The outcome is the error reply exactly when the node is absent, the array is absent, its first element is null, that element's text/url is absent, or an image upload failed. The outcome is a fault (no reply) exactly when the array is empty. The text reply carries the first choice's text as is. The photo reply carries `photo<owner>_<id>`. |
| Handlers.OutcomeReplies | src/Handlers.cs:478-543 | Each outcome sends exactly one message with the forward object, except the fault, which sends none. An image sends no text, only its attachment. |
| Handlers.GenerateReplies | src/Handlers.cs:395-457 | At most one message is sent before waiting. There is none exactly for a silent drop or a fault on the immediate path. A queued request gets the queue-full text, or the position text followed by the position. |
| Handlers.TextForwardedAsIs | src/Handlers.cs:516-520 | The first choice's text is the reply. |
| Handlers.FailedUploadGivesError | src/Handlers.cs:524-550 | An image whose upload fails gets one error reply and no attachment. |
| Handlers.PhotoAttachment | src/Handlers.cs:542 | The attachment is `photo`, the owner id, '_' and the photo id; it starts with `photo`. |
| Handlers.PhotoAttachmentInjective | src/Handlers.cs:542 | Different (owner_id, id) pairs give different attachments. |
| Handlers.HelpEdit | src/Handlers.cs:110-114 | A new help text exists exactly when the text has a space, and command + " " + help is the text. |
| Handlers.HelpRoundTrip | src/Handlers.cs:113-114 | `cmd + " " + help` sets exactly `help`, spaces included. |
| Handlers.CustomTokenEdit | src/Handlers.cs:137-157 | A change needs three or more words and a second word that parses to a nonzero long. The token is cleared exactly when the third word is "null". |
| Handlers.CustomTokenOfWords | src/Handlers.cs:137-157 | The change depends only on the second and third words. |
| Handlers.CustomTokenRoundTrip | src/Handlers.cs:137-157 | `cmd id token ...` sets peer `id` to `token`, or clears it for "null". A 64-bit `id` of 0 changes nothing. |
| Handlers.TwoWordsNoChange | src/Handlers.cs:138-139 | A command and one argument, whatever the argument is, change nothing. |
| Handlers.CustomTokenRejected | src/Handlers.cs:141-144 | Three words whose second word does not parse as a long change nothing. |
| Handlers.PublicTokenEdit | src/Handlers.cs:177-181 | A new public token exists exactly when the text has a space, and it holds no space. |
| Handlers.PublicTokenRoundTrip | src/Handlers.cs:177-184 | `cmd token ...` sets exactly `token`. |
| Handlers.FindOwner | src/Handlers.cs:311-320 | The loop, leaving at the first match, answers whether some member has `is_owner` true and is the author. |
| Handlers.AllowTarget | src/Handlers.cs:326-328 | The permission change is for the author of the quoted message, or for the sender when nothing is quoted. |
| Handlers.AllowEdit | src/Handlers.cs:305-340 | A change happens exactly when all of these hold: a group chat, the text exactly `.allow`/`.disallow`, the members call succeeded, the author is an owner or the admin id, and the target is not negative. The target is the quoted author or the sender, and the new flag is true exactly for `.allow`. |
| Handlers.GrantGovernsCommands | src/Handlers.cs:332-340 | After `.allow`, the target's known commands in that chat are handled. After `.disallow` they are ignored, whatever the row held before. |
| Handlers.GroupChatsLockedByDefault | src/Handlers.cs:276-279 | With no `(user, peer)` row, a group chat ignores every command. |
| Handlers.Bot.constructor | src/Handlers.cs:365-378 | The handlers start with an empty queue, an empty anti-spam set and the given store. |
| Handlers.Bot.HandleUpdate | src/Handlers.cs:23-45 | An update that is not a new, non-empty message from a user changes nothing. Every chain keeps the anti-spam invariant. |
| Handlers.Bot.CommandsChain | src/Handlers.cs:252-284 | Per route: ignore changes nothing. Unknown sends the unknown-command text. `.help` sends the help text, and `.tech_info` sends the peer id. `.gt`/`.gi` has the anti-spam effect: the busy reply for a busy peer; otherwise the immediate replies, or the queue admission with its reply and the peer kept busy. The store is unchanged. |
| Handlers.Bot.AntiSpam | src/Handlers.cs:198-239 | A busy peer gets the busy text only. Otherwise the generation replies are sent. The peer stays busy exactly when its request waits in the queue (or was refused by it), and is released otherwise. |
| Handlers.Bot.Generate | src/Handlers.cs:380-461 | A request with a custom token is answered at once and skips the queue, however full it is. Otherwise the job goes through `Admit`: the position reply, or the queue-full reply and the peer stuck for good. |
| Handlers.Bot.Tick | src/Handlers.cs:442-460 | The head job is run with the given OpenAI reply, its messages are sent and its peer is released. The queue loses exactly its head, and stuck peers stay busy. |
| Handlers.Bot.TechChain | src/Handlers.cs:56-78 | Per tech command: help sets the help text and replies "Done!". Custom token updates or creates the peer's row and replies with the id. Public token sets the token. Nothing happens when the arguments are missing. |
| Handlers.Bot.AllowChain | src/Handlers.cs:294-344 | `chat_users` gets exactly the `AllowEdit` change, creating the row if needed, and the done text is sent exactly then. |

The anti-spam invariant (`Bot.Valid`) holds between updates and ticks. Every
busy peer is busy for exactly one reason:

- its job is waiting in the queue; or
- the full queue refused it (`stuck`).

No two waiting jobs belong to the same peer.

## Left out

- Timers, threads, locks and `Task` scheduling. The model is sequential, with
  an explicit `Tick`.
  - The anti-spam test and the insert are two separate lock sections in the
    code, so the model claims no atomicity across concurrent updates.
  - The ASP.NET middleware pipeline awaits the command chain before the tech
    and allow chains run. A queued request therefore delays those chains, and
    a request the full queue refused blocks them for good, along with the
    save that follows. In the model they run at once.
    `Handlers.GenerationOnlyRouted` shows they ignore generation texts
    anyway.
- Network I/O: `GetMethodAsync`, the HTTP clients of OpenAI and image
  download/upload, and VK's photo upload endpoints. Their results enter as
  optional values in `Env`. The request bodies sent to OpenAI (model
  `text-davinci-003`, `max_tokens` 1000, size `512x512`) are not modelled.
- The `UriBuilder`'s own escaping of the query, and JSON deserialisation.
  JSON values of the wrong type (a failed cast in `AllowHandler`, or in the
  upload response) are not modelled: they throw.
- The `tech_info` row with id 1 is assumed present; the code dereferences it
  with `!`.
- Database persistence (`SaveChanges`) is left out. The store is updated in
  place.
- `Console.WriteLine` logging; `new Random()` and `DateTime.Now`, which are
  parameters or absent.
- Text length and indexing are per `char` of the Dafny string, not per UTF-16
  unit. `IndexOf(".tech")` in the command router, and `IndexOf("id")` and
  `IndexOf("|")` in `Parsing.DomainStringToLong`, are modelled as ordinal
  substring searches, where .NET uses a culture-sensitive comparison (which
  can differ on characters the culture ignores, such as a soft hyphen).
- The framework layer is not part of this model: request framing, the secret
  and confirmation checks, and dependency injection.
- VkApi.DictToQuery: the dictionary is a sequence of pairs in insertion
  order. That is the order .NET's `Dictionary` enumerates in when no entry
  was removed, which holds for the dictionaries these calls build.
- Text.TryParse: the sign is read as the invariant culture's `-` and `+`.
  .NET reads the current culture's sign strings. The same holds wherever
  parsing is used: `Handlers.CustomTokenEdit` and
  `Parsing.DomainStringToLong`.
- VkApi.ListToQueryValue: modelled for lists of longs only. The source is
  generic and prints a null element as an empty piece.
- Handlers.Bot.HandleUpdate: its contract states only the filter and the
  invariant. What each chain does, generation included, is stated on
  `CommandsChain`, `TechChain` and `AllowChain`, which it runs in order.
- Queue.TimerQueue.Tick: returns the started action rather than running it.
  `Handlers.Bot.Tick` runs the job it gets.
