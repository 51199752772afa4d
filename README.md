# Discord ↔ Zendesk Sunshine Conversations bridge, modelled in Dafny

The bridge turns a Discord guild into a front end for Zendesk Messaging. A
customer presses a button and gets a private support room. The room is bound
to a Sunshine Conversations conversation through a marker hidden in the room's
topic: five LEFT-TO-RIGHT MARKs followed by the JSON array
`[conversationId, ownerId]`. Once the binding exists, traffic goes both ways:

- What the owner writes in the room, with attachments, is posted to the
  conversation.
- Agent messages reach the bridge through the Sunshine webhook and are relayed
  into the room. `@user` and `@customer` become a mention of the owner.
- Zendesk ticket events reach the bridge through a signed webhook:
  - an assignment is announced in the room;
  - a resolution is announced, the owner is made read-only, and the room and
    its conversation are scheduled for deletion after 60 seconds;
  - a button in the room cancels the deletion.

The model has one module per part of the bridge. Every call to Discord or
Sunshine is a parameter: the reply the service gave, or whether the awaited
call resolved. What a handler does is an ordered log of calls or effects.
Each module's operations are proved against specification functions.

| module | file | models |
|---|---|---|
| `Common` | common.dfy | metadata values, JavaScript truthiness, `indexOf`, `replaceAll` (also with `/gi`) |
| `Topic` | topic.dfy | `buildTopic` / `parseTopic`, with UTF-16 length and the JSON of a two-string array |
| `Conversations` | conversations.dfy | the Sunshine client: endpoint, URLs, external ids, the error and `ignoredCodes` rule, create / upsert / post / delete |
| `DeleteRegistry` | registry.dfy | `ChannelDeleteTimeouts` as a class with schedule, fire and cancel |
| `Webhooks` | webhooks.dfy | both webhooks, the mention rewriting, the content dispatch, the status mapping |
| `Relay` | relay.dfy | the `messageCreate` relay pipeline and the `interactionCreate` dispatch |
| `OpenTicket` | openticket.dfy | `zdmdCreateConversation`, the start button, and the close-existing-requests button |

## Which Sunshine messages reach a room

Only agent (business) messages are relayed. src/webhooks.ts:320 throws 406
for any other author type, and :321 rejects messages marked `discordHidden`.
The messages the bridge itself posts for the room's owner are user messages,
so they are never relayed back. See `Webhooks.FromAgent` and
`Webhooks.OnlyAgentMessagesPass`.

## Model

| member | source | states |
|---|---|---|
| Topic.BuildTopic | src/commands/sendopenticket.ts:33-40 | The topic is the five-mark sentinel followed by the JSON of the pair. It is refused exactly when its UTF-16 length exceeds 800, so 800 itself is accepted. The refusal carries the offending length. |
| Topic.ParseTopic | src/commands/sendopenticket.ts:41-46 | A missing or empty topic is not bridged. A topic is not bridged exactly when it holds no sentinel. |
| Topic.EscapeBodyRoundTrip | src/commands/sendopenticket.ts:35 | Reading back the escaped body of any string recovers the string and stops at the closing quote. This covers every escape `JSON.stringify` writes. |
| Topic.StringifyRoundTrip | src/commands/sendopenticket.ts:34-45 | The JSON text of any pair parses back to the same pair. |
| Topic.TopicRoundTrip | src/commands/sendopenticket.ts:34-46 | For any prefix without a LEFT-TO-RIGHT MARK, prefix plus `buildTopic(p)` parses back to `p`. |
| Topic.SupportTopicRoundTrip | src/commands/sendopenticket.ts:105 | The topic written when a room is created parses back to its binding. |
| Topic.PlainTopicLength | src/commands/sendopenticket.ts:35-38 | For ids that need no escaping, the topic is 12 code units longer than the two ids. It is accepted exactly when the ids total at most 788 units. |
| Conversations.NormalizeEndpoint | src/conversations/index.ts:7-8 | The endpoint loses exactly one trailing `/`, when it has one, and is otherwise unchanged. |
| Conversations.NormalizeStripsOneSlash | src/conversations/index.ts:7-8 | Appending a `/` and normalising gives back the original endpoint, however many slashes it already ends with. |
| Conversations.BuildUrlFillsTemplate | src/conversations/index.ts:10-11 | For an endpoint and path whose literal parts hold no `{`, every `{appId}` becomes the app id and nothing else changes. |
| Conversations.BuildExternalId | src/conversations/index.ts:13-17 | The external id is `discord-` followed by the user id. |
| Conversations.ExternalIdDeterminesUser | src/conversations/index.ts:16-17 | The string form and the user-object form give the same id, and two ids are equal exactly when the user ids are equal. |
| Conversations.NewSunshineError | src/conversations/index.ts:21-38 | The error keeps message, cause and status. Its codes default to the empty list. |
| Conversations.ContentType | src/conversations/index.ts:59-62 | `application/json` is set exactly for a JSON body on a method other than GET and HEAD. |
| Conversations.RequestContentTypes | src/conversations/index.ts:59-62 | User creation and update, conversation creation and message posting declare JSON. The listing and the deletion declare no type, and an attachment upload leaves its multipart type to `fetch`. |
| Conversations.CollectErrors | src/conversations/index.ts:80-88 | Codes are collected in array order. The cause is the `(title ?? code) + "\n"` lines in order. A non-array `errors` gives no codes and an empty cause. |
| Conversations.CauseStartsWithFirstError | src/conversations/index.ts:84-87 | The cause begins with the first error's line. |
| Conversations.EmptyIgnoredCodesStillThrow | src/conversations/index.ts:90-93 | An empty `ignoredCodes` array suppresses nothing. |
| Conversations.IgnoringMoreNeverAddsThrows | src/conversations/index.ts:90-93 | Ignoring more codes never makes a request throw that did not throw before. |
| Conversations.SunshineRequest | src/conversations/index.ts:53-106 | The request is sent with the `Content-Type` that `ContentType` gives for it. The result is `RequestResult`. A network failure is rethrown. A body that is not JSON rejects before the status is looked at, whatever the status. An ok response with a readable body is returned. A non-ok response with a `null` body throws a `TypeError`. Any other non-ok response throws a `SunshineError` exactly when no ignored code is present. That error has the status, the message (default "Unexpected error"), the codes and the cause. |
| Conversations.ConflictExactlyOnConflictReply | src/conversations/index.ts:72-99 | Without `ignoredCodes`, a request throws an error carrying `conflict` exactly when the response is non-ok, its body is readable and its `errors` array holds that code. |
| Conversations.CreateUser | src/conversations/index.ts:375-393 | The result is `CreateUserResult`. The default conversation is created exactly when user creation returns normally with 201, and its failure propagates. An accepted `null` body there throws the `TypeError` of reading `json.conversation`. Any failed creation throws. A returned result is the user response. A conflict error comes from one of the two calls. |
| Conversations.FailedCreationIsNoConflict | src/conversations/index.ts:375-378 | A creation reply that is not accepted and is not a conflict makes `sunshineCreateUser` throw an error without the `conflict` code. |
| Conversations.UpsertUser | src/conversations/index.ts:407-419 | The update is attempted, as the last call, exactly when creation threw an error carrying the `conflict` code. In that case the result is the update's result. Otherwise the result is creation's result, so any other error is rethrown unchanged. A rejected creation that is not a conflict ends in an error, with no update. |
| Conversations.PostMessage | src/conversations/index.ts:476-483 | Posting succeeds exactly when the reply is delivered, readable and has status 201. |
| Conversations.DeleteConversation | src/conversations/index.ts:521-526 | Deletion resolves to true exactly on an ok reply with a readable body, and throws otherwise. |
| DeleteRegistry.ScheduledAsWritten | src/webhooks.ts:249-256 | The solve handler as written overwrites the channel's entry and keeps every timer that was armed. |
| DeleteRegistry.Cancelled | src/commands/webhookcommand.ts:35-39 | Cancelling removes only the channel's key, leaves every other entry as it was, and changes nothing when there is no entry. |
| DeleteRegistry.Fired | src/webhooks.ts:251-252 | A firing timer takes its channel's key and is spent. |
| DeleteRegistry.ScheduledKeepsConsistent | src/webhooks.ts:249-256 | Scheduling as intended keeps "entries are exactly the armed timers", and leaves one armed timer for the channel. |
| DeleteRegistry.CancelledKeepsConsistent | src/commands/webhookcommand.ts:35-39 | Cancelling keeps the registry consistent. |
| DeleteRegistry.FiredKeepsConsistent | src/webhooks.ts:252 | Firing keeps the registry consistent. |
| DeleteRegistry.CancelStopsDeletion | src/commands/webhookcommand.ts:35-39 | After a cancel, no deletion of that channel is armed. |
| DeleteRegistry.CancelIdempotent | src/commands/webhookcommand.ts:36 | A second cancel changes nothing. |
| DeleteRegistry.FireAndCancelExclusive | src/commands/webhookcommand.ts:35-39 | A cancel after the timer fired changes nothing, and a cancelled timer cannot fire. |
| DeleteRegistry.RepeatedSolveThenCancel | src/webhooks.ts:249-256 | With the intended scheduling, two resolutions followed by a cancel leave nothing armed. |
| DeleteRegistry.CancelAfterRepeatedSolveLeavesTimer | src/webhooks.ts:249-256 | As written, two resolutions followed by a cancel still leave the first deletion armed, and the registry is inconsistent. |
| DeleteRegistry.ChannelDeleteTimeouts.constructor | src/commands/webhookcommand.ts:16 | The registry starts empty and consistent. |
| DeleteRegistry.ChannelDeleteTimeouts.Schedule | src/webhooks.ts:249-256 | The new state is the intended scheduling, and the new timer is the only one armed for the channel. |
| DeleteRegistry.ChannelDeleteTimeouts.Fire | src/webhooks.ts:251-255 | The key is removed first. Then the room is deleted, and the conversation is deleted only when the room deletion worked. |
| DeleteRegistry.ChannelDeleteTimeouts.CancelButton | src/commands/webhookcommand.ts:30-45 | Outside a guild the handler fails and the registry is untouched. Otherwise the entry is cleared before the awaited reply. A rejected reply makes the handler fail, with the entry already cleared. |
| Webhooks.ApplyTransforms | src/webhooks.ts:260-269 | A missing text becomes the empty string. |
| Webhooks.TransformWithoutTokens | src/webhooks.ts:268 | Text in which neither token occurs, in any case, is unchanged. |
| Webhooks.MentionsCopiesPlainText | src/webhooks.ts:268 | In the one-pass reference rewrite, a run of text without `@` is copied unchanged and the scan goes on after it. |
| Webhooks.MentionsReplacesToken | src/webhooks.ts:268 | In the one-pass reference rewrite, an `@user` or `@customer` token in any case becomes the mention, and the scan goes on after the token. |
| Webhooks.MentionPassesThrough | src/webhooks.ts:268 | A mention of a numeric owner id contains nothing the second pass matches. |
| Webhooks.FirstPassKeepsLetters | src/webhooks.ts:268 | Wherever the output of the `/@user/gi` pass begins with a run of letters, its input began with the same run. |
| Webhooks.CustomerCopiedByFirstPass | src/webhooks.ts:268 | The `/@user/gi` pass copies an `@customer` token unchanged. |
| Webhooks.PassesAreOnePass | src/webhooks.ts:268 | For a numeric owner id, the `/@user/gi` pass followed by the `/@customer/gi` pass gives exactly the one-pass reference rewrite, for every text. Stray `@` signs, e-mail addresses and `@@user` are all covered. |
| Webhooks.TransformRewritesMentions | src/webhooks.ts:260-269 | For every text and a numeric owner id, `applyTransformsToMessageContent` rewrites every `@user` and `@customer`, in any case and wherever it stands, into `<@owner>`. All other text is kept. |
| Webhooks.MessageText | src/webhooks.ts:276-295 | Text content is sent transformed. Image and file content is sent as the transformed text, a newline and the media URL. Any other content sends nothing. |
| Webhooks.LastQualifying | src/webhooks.ts:187-208 | The index of the last conversation in list order whose bound room exists and takes notices. There is none exactly when no conversation qualifies. |
| Webhooks.SelectChannel | src/webhooks.ts:187-208 | The loop selects the last qualifying conversation and its room, or none exactly when nothing qualifies. |
| Webhooks.HandleZendeskWebhook | src/webhooks.ts:158-257 | The run equals `ZendeskResult`. The checks run in order: 400 for a missing or array-valued header or an empty body, 401 for a wrong signature, 406 for a requester outside `discord-`, 406 when no room qualifies. Then: `ticket:assigned` gives exactly one notice. `ticket:solved` gives the notice, the lock-out when an owner is recorded, and the deletion of that room and conversation. Any other type does nothing. |
| Webhooks.EventVerdict | src/webhooks.ts:304-322 | Only non-message events are skipped, and a rejection never returns normally. |
| Webhooks.OnlyAgentMessagesPass | src/webhooks.ts:320-321 | A message from a non-business author, or one marked hidden, is rejected. When its conversation is bound to a usable room, the rejection is a 406. |
| Webhooks.UnboundConversationRejected | src/webhooks.ts:306-309 | A conversation without a string `discordChannel` answers 406. |
| Webhooks.UnusableRoomRejected | src/webhooks.ts:311-318 | A bound room whose fetch rejects answers 500. A missing room, or one that is not sendable, not text-based, a thread, voice-based or DM-based, answers 406. |
| Webhooks.DeliveryConditions | src/webhooks.ts:304-322 | A delivered event is a visible agent message, sent to its conversation's room. The room is a guild text room, its topic carries a binding, and the text is the dispatch rendered for that owner. |
| Webhooks.UnboundTopicRejected | src/webhooks.ts:273-274 | 400 happens only for a usable room whose topic carries no binding. |
| Webhooks.RelayedOnlyFromAgents | src/webhooks.ts:304-323 | Every message relayed from a batch comes from a visible agent message and goes to that event's room. |
| Webhooks.FirstRejected | src/webhooks.ts:304-323 | The index of the first rejected event: all earlier events pass, and none is rejected when there is no index. |
| Webhooks.HandleConversationsWebhook | src/webhooks.ts:298-324 | The run equals `ConversationsResult`. A wrong `x-api-key` gives 401 before the body is read. Otherwise events are handled in order. The first rejection ends the batch with its status, after the messages of the earlier events were sent. |
| Webhooks.StatusOf | src/webhooks.ts:335-339 | A return gives 200, a thrown number gives that status, and anything else gives 500. |
| Webhooks.Serve | src/webhooks.ts:326-341 | Non-POST requests give 200 and do nothing. For a POST to a URL containing `/zd`, the outcome, messages and deletion are exactly those of the Zendesk handler's `ZendeskResult`. For any other POST, they are exactly those of `ConversationsResult`. The status is the outcome's status. A resolution updates the registry with the intended scheduling, and nothing else changes it. |
| Relay.RelayTarget | src/discord.ts:83-92 | A message is relayed exactly when all of these hold: it is in a guild, not in a thread or voice room, the topic carries a binding, the author is not a bot, and the author is the bound owner. |
| Relay.OwnerMessagesRelayed | src/discord.ts:88-92 | In a room whose topic was built for a binding, a human's message is relayed exactly when the author is that binding's owner. |
| Relay.FirstEnvelope | src/discord.ts:96-111 | The first envelope is the message text, with the author's `discord-` external id and the `discordMessage` metadata. |
| Relay.AttachmentEnvelope | src/discord.ts:122-129 | An attachment envelope copies author and metadata from the first envelope. It is an image exactly when the media type starts with `image/`, and otherwise a file, with the uploaded URL. |
| Relay.FirstOversized | src/discord.ts:94-118 | The first attachment above 50,000,000 bytes, if any. Attachments of exactly the ceiling pass. |
| Relay.QueueShape | src/discord.ts:96-133 | The queue is the text envelope followed by one media envelope per successful upload, each with the first envelope's author and metadata. |
| Relay.UploadsPostNothing | src/discord.ts:113-134 | The attachment phase posts nothing. |
| Relay.SendPostsInOrder | src/discord.ts:137-143 | Every non-empty envelope is posted, in queue order, whatever became of earlier posts. |
| Relay.UploadAttachments | src/discord.ts:113-134 | Uploads run in order, a failure is answered and the loop goes on, and the loop stops exactly at the first oversized attachment. |
| Relay.SendQueue | src/discord.ts:137-143 | Empty text envelopes are skipped. Each other envelope is posted, and a post failure is answered without stopping later posts. |
| Relay.RelayMessage | src/discord.ts:82-144 | A message that is not relayed makes no call. An oversized attachment gives the 50 MB reply, after only the earlier uploads. Otherwise come the uploads and then the posts of the queue. |
| Relay.OversizedPostsNothing | src/discord.ts:116-118 | With an oversized attachment nothing is posted, not even the text. |
| Relay.RelayPostsQueue | src/discord.ts:96-143 | Without an oversized attachment, the posted envelopes are exactly the non-empty queue entries, in order. |
| Relay.Dispatch | src/discord.ts:32-79 | An interaction without a handler is a no-op. A failing handler is reported by editing the reply when one was sent or deferred, and otherwise by an ephemeral reply. Both carry the callback-error notice, and only a repliable interaction is answered. The result records whether that awaited report resolved. |
| OpenTicket.UpToFailureStopsAtRejection | src/commands/sendopenticket.ts:54-157 | A sequence of awaited calls makes a prefix of its plan. Every call but the last resolved, and a run cut short ends at the rejected call. |
| OpenTicket.OpenRequests | src/commands/sendopenticket.ts:74 | The open requests are exactly the listed conversations that are not default and have a truthy `discordChannel`. |
| OpenTicket.OpenRequestsKeepOrder | src/commands/sendopenticket.ts:74 | The filter keeps listing order: the open requests of two consecutive parts of a listing are those of the first, then those of the second. |
| OpenTicket.EmptyChannelIsNotOpen | src/commands/sendopenticket.ts:74-98 | A conversation whose `discordChannel` is `''`, as a new one is created, is not an open request. |
| OpenTicket.OpenConversationCounts | src/commands/sendopenticket.ts:74-76 | Any one open conversation in the listing triggers the guard. |
| OpenTicket.CreateRequest | src/commands/sendopenticket.ts:54-157 | Outside a guild: false, with no calls. Otherwise the calls are the creation plan up to the first rejection. It returns true exactly when every call resolves, no request is open and the topic fits. It returns false exactly when every call resolves and a request is open. |
| OpenTicket.SetUpRoom | src/commands/sendopenticket.ts:102-156 | Room creation, metadata update, hidden note, pass-control, view grant, answer and greeting run in order up to the first rejection. The result is true exactly when all resolve. |
| OpenTicket.DuplicateGuard | src/commands/sendopenticket.ts:76-91 | With an open request, neither a conversation nor a room is created. |
| OpenTicket.RoomCreatedWithItsTopic | src/commands/sendopenticket.ts:102-105 | The only room created carries the topic built for the new conversation and owner. |
| OpenTicket.CreatedRoomIsBound | src/commands/sendopenticket.ts:102-105 | The new room's topic parses back to the new conversation and its owner. |
| OpenTicket.StartRequestButton | src/commands/sendopenticket.ts:188-193 | Outside a guild the button fails with no calls. Otherwise it defers and then runs the creation once. |
| OpenTicket.CloseRequest | src/commands/sendopenticket.ts:205-238 | A conversation without a string channel is skipped. A failed fetch, room deletion or conversation deletion is ignored. Only a rejected closure note stops the cleanup. |
| OpenTicket.FirstNoteFailure | src/commands/sendopenticket.ts:205-239 | The first request whose closure note is rejected: every earlier request's note was posted. |
| OpenTicket.CloseEach | src/commands/sendopenticket.ts:205-239 | The loop closes the requests in order. It stops exactly at the first rejected closure note, or closes them all. |
| OpenTicket.CloseExistingRequests | src/commands/sendopenticket.ts:194-248 | Outside a guild the button throws with no calls. A rejected deferral, listing or closure note gives the "unable to remove" answer and nothing is opened. Otherwise every request is closed and then a new one is opened. The re-run creation makes its own requests, so its listing can fail on its own. Any rejection there makes the button throw. |
| OpenTicket.NoCreationWhileClosing | src/commands/sendopenticket.ts:205-239 | Closing requests never opens one. |
| OpenTicket.NoCreationWhileOpening | src/commands/sendopenticket.ts:54-157 | Opening a request makes no nested call to open another. |
| OpenTicket.RecreatedExactlyOnce | src/commands/sendopenticket.ts:247 | After a complete cleanup, a new request is opened exactly once. |
| OpenTicket.AbandonedCleanupOpensNothing | src/commands/sendopenticket.ts:240-245 | A cleanup abandoned at a rejected closure note opens no new request. |

## Left out

- I/O is not modelled. Reading the request stream, listening on a port and the Discord gateway are replaced by records: a request has a method, URL, headers and body.
- HMAC-SHA256 and base64 in `isValidZendeskWebhookSignature` are one uninterpreted function. Only the equality check is modelled.
- discord.js and undici calls are parameters:
  - their outcomes come from oracles: a `Fetch` per channel id, send success per channel and text, and upload or post replies per attachment or envelope position;
  - calls to the services are logged, not performed.
- Timers and asynchrony are not modelled. Firing and cancelling are atomic steps on the registry. A race between a firing timer and the cancel button is two orders of those steps.
- `JSON.parse` is modelled only for the two-string array of the topic, plus the failure to parse. A topic whose JSON is valid but not a two-string array counts as malformed. Surrogate `\u` escapes in the parser are not modelled.
- Topic.ParseTopic: treats a topic whose JSON cannot be read as `Malformed`. The source throws there. That throw is modelled as a 500 in the Sunshine webhook, and as "not relayed" in `messageCreate`, where it is an unhandled rejection.
- Topic.ParseTopic: also treats valid JSON that is not a two-string array as `Malformed`, and so as a 500 in the Sunshine webhook. In the source, a falsy value (`null`, `false`, `0`, `""`) fails the `!tpl` check of src/webhooks.ts:274 and answers 400. A truthy non-pair (`"ab"`, `[1,2]`) is destructured and its message relayed.
- The replacement string of `replaceAll` is taken literally. `$` patterns in it are not modelled; the owner ids placed there are numeric.
- Webhooks.TransformRewritesMentions: assumes a numeric owner id, which Discord user ids are. For other ids the second pass could match text inside the first pass's mention. Webhooks.MentionPassesThrough and Webhooks.PassesAreOnePass assume the same.
- The body of a Sunshine response is modelled only as far as `sunshineRequest` reads it: its `errors` member, a `null` value, or text that is not JSON. The other fields of a response are not modelled. Of the wrappers' own reads, only `json.conversation` in the default-conversation creation is modelled, as a `TypeError` on `null`. A `null` body in the listing or the upload is not told apart: those calls succeed or fail only as their given outcome says.
- The notices `handleZendeskWebhook` sends are not awaited, so they are logged as effects and their failures are not modelled. The same holds for the `message.reply` calls of the relay.
- Pagination of the conversation listing (page size 100) is not modelled. The listing is one sequence.
- Message texts and embeds from src/messages.ts are opaque `Notice` values.
- Profile data, avatars, channel names and permission details sent with the calls are not modelled. Calls carry only the ids that tie them together.
- `/sendopenticket`, the command that posts the start button, is not modelled. It is a single send and reply.
- Sunshine content types other than text, image and file are one `OtherContent` case.

## Findings

| source | as written | input that shows it | evidently intended | confidence | as-written member | corrected member |
|---|---|---|---|---|---|---|
| src/webhooks.ts:249-256 | On `ticket:solved`, the channel's entry is overwritten with a new timer without `clearTimeout` on the old one. The cancel button then clears only the newest timer. | Two `ticket:solved` events for the same room, then a press of the cancel button: the first timer still fires and deletes the room and its conversation. | A second resolution replaces the pending deletion. The old timer is cleared first, so a cancel leaves nothing armed. | not executed | DeleteRegistry.CancelAfterRepeatedSolveLeavesTimer | DeleteRegistry.RepeatedSolveThenCancel |
