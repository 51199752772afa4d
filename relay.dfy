/** The Discord side of src/discord.ts: the `messageCreate` pipeline that
    relays a room owner's message and attachments to the Sunshine
    conversation bound to the room, and the `interactionCreate` dispatch of
    slash commands and buttons with its error reply. Uploads, posts and
    replies are external calls: their results are parameters, indexed by
    attachment or envelope position, and the calls made are an ordered log. */
module Relay {
  import opened Common
  import Topic
  import Conversations

  /** The attachment ceiling: 50 * 1000 * 1000 bytes; larger attachments stop the relay. */
  const MaxAttachmentBytes: nat := 50 * 1000 * 1000

  const ImageMediaPrefix: string := "image/"

  datatype Author = Author(id: string, bot: bool, displayName: string)

  datatype Attachment = Attachment(name: string, size: nat, url: string)

  /** A Discord message as the handler reads it. */
  datatype ChatMessage = ChatMessage(
    id: string,
    inGuild: bool,
    channel: Channel,
    author: Author,
    content: string,
    attachments: seq<Attachment>)

  /** Downloading an attachment and `sunshineUploadAttachment`: the stored
      media, or a failure anywhere along the way. */
  datatype Upload = Uploaded(mediaType: string, mediaUrl: string) | UploadFailed

  datatype EnvelopeContent = TextEnvelope(text: string) | ImageEnvelope(mediaUrl: string) | FileEnvelope(mediaUrl: string)

  /** A message queued for Sunshine: the author's external id and display
      name, the `discordMessage` metadata, and the content. */
  datatype Envelope = Envelope(externalId: string, displayName: string, discordMessage: string, content: EnvelopeContent)

  /** The external calls of the pipeline, in the order they are made. */
  datatype RelayEffect =
    | UploadAttempted(conversation: string, name: string)
    | Replied(notice: Notice)
    | PostAttempted(conversation: string, envelope: Envelope)

  // ---------------------------------------------------------------------------
  // Which messages are relayed

  /** The binding of the room, when the message is to be relayed: a guild
      room that is neither a thread nor a voice room, a topic carrying a
      binding, a human author, and that author the room's owner. */
  function RelayTarget(m: ChatMessage): (r: Option<Topic.Payload>)
    ensures r.Some? <==>
      && m.inGuild && !m.channel.thread && !m.channel.voiceBased
      && Topic.ParseTopic(m.channel.topic).Bound?
      && !m.author.bot && m.author.id == Topic.ParseTopic(m.channel.topic).payload.owner
    ensures r.Some? ==> r.value == Topic.ParseTopic(m.channel.topic).payload
  {
    if !m.inGuild || m.channel.thread || m.channel.voiceBased then None
    else match Topic.ParseTopic(m.channel.topic)
      case Bound(p) => if m.author.bot || m.author.id != p.owner then None else Some(p)
      case _ => None
  }

  /** A message in a room created for a request is relayed exactly when its
      author is that request's owner. */
  lemma OwnerMessagesRelayed(m: ChatMessage, prefix: string, p: Topic.Payload)
    requires m.inGuild && !m.channel.thread && !m.channel.voiceBased && !m.author.bot
    requires Topic.BuildTopic(p).Ok? && m.channel.topic == Some(prefix + Topic.BuildTopic(p).value)
    requires forall i :: 0 <= i < |prefix| ==> prefix[i] != Topic.LeftToRightMark
    ensures RelayTarget(m).Some? <==> m.author.id == p.owner
    ensures RelayTarget(m).Some? ==> RelayTarget(m).value == p
  {
    Topic.TopicRoundTrip(prefix, p);
  }

  // ---------------------------------------------------------------------------
  // The envelopes

  /** The text envelope every relay starts with. */
  function FirstEnvelope(m: ChatMessage): (e: Envelope)
    ensures e.content == TextEnvelope(m.content) && e.discordMessage == m.id
    ensures e.externalId == Conversations.ExternalIdPrefix + m.author.id
  {
    Envelope(
      Conversations.BuildExternalId(Conversations.DiscordUser(m.author.id, m.author.displayName)),
      m.author.displayName,
      m.id,
      TextEnvelope(m.content))
  }

  /** An uploaded attachment's envelope: the first envelope's author and
      metadata, with image or file content by media type. */
  function AttachmentEnvelope(first: Envelope, u: Upload): (e: Envelope)
    requires u.Uploaded?
    ensures e.externalId == first.externalId && e.displayName == first.displayName
    ensures e.discordMessage == first.discordMessage
    ensures e.content.ImageEnvelope? <==> StartsWith(u.mediaType, ImageMediaPrefix)
    ensures !e.content.TextEnvelope? && e.content.mediaUrl == u.mediaUrl
  {
    first.(content := if StartsWith(u.mediaType, ImageMediaPrefix) then ImageEnvelope(u.mediaUrl) else FileEnvelope(u.mediaUrl))
  }

  /** The first attachment over the ceiling, if any. */
  function FirstOversized(atts: seq<Attachment>): (r: Option<nat>)
    ensures r.None? <==> forall i :: 0 <= i < |atts| ==> atts[i].size <= MaxAttachmentBytes
    ensures r.Some? ==> r.value < |atts| && atts[r.value].size > MaxAttachmentBytes
    ensures r.Some? ==> forall i :: 0 <= i < r.value ==> atts[i].size <= MaxAttachmentBytes
  {
    if atts == [] then None
    else if atts[0].size > MaxAttachmentBytes then Some(0)
    else match FirstOversized(atts[1..])
      case None => None
      case Some(k) => Some(k + 1)
  }

  /** The calls made for the first `n` attachments: each is uploaded, and a
      failed upload is answered with a reply. */
  function UploadEffects(atts: seq<Attachment>, conversation: string, upload: nat -> Upload, n: nat): seq<RelayEffect>
    requires n <= |atts|
  {
    if n == 0 then []
    else
      UploadEffects(atts, conversation, upload, n - 1)
      + ([UploadAttempted(conversation, atts[n - 1].name)]
         + (if upload(n - 1).UploadFailed? then [Replied(FailedToUpload)] else []))
  }

  /** The queue after the first `n` attachments: the text envelope, then one
      envelope per successful upload. */
  function Queued(first: Envelope, upload: nat -> Upload, n: nat): seq<Envelope>
  {
    if n == 0 then [first]
    else Queued(first, upload, n - 1) + (if upload(n - 1).Uploaded? then [AttachmentEnvelope(first, upload(n - 1))] else [])
  }

  /** How many of the first `n` uploads succeeded. */
  function UploadCount(upload: nat -> Upload, n: nat): nat
  {
    if n == 0 then 0 else UploadCount(upload, n - 1) + (if upload(n - 1).Uploaded? then 1 else 0)
  }

  /** The queue starts with the text envelope and holds one media envelope,
      with the same author and metadata, per successful upload. */
  lemma {:induction false} QueueShape(first: Envelope, upload: nat -> Upload, n: nat)
    ensures var q := Queued(first, upload, n);
      && |q| == 1 + UploadCount(upload, n) && q[0] == first
      && forall k :: 1 <= k < |q| ==>
           && !q[k].content.TextEnvelope?
           && q[k].externalId == first.externalId && q[k].displayName == first.displayName
           && q[k].discordMessage == first.discordMessage
  {
    if n > 0 {
      QueueShape(first, upload, n - 1);
    }
  }

  /** A text envelope with empty text is not posted. */
  predicate Skipped(e: Envelope)
  {
    e.content.TextEnvelope? && e.content.text == ""
  }

  /** `sunshinePostMessage` succeeds: the reply is readable and carries status 201. */
  predicate PostSucceeds(reply: Conversations.Reply)
  {
    Conversations.Accepted(reply) && reply.response.status == 201
  }

  /** The calls made for the first `n` queued envelopes: each envelope that is
      not skipped is posted, and a failed post is answered with a reply. */
  function SendEffects(queue: seq<Envelope>, conversation: string, post: nat -> Conversations.Reply, n: nat): seq<RelayEffect>
    requires n <= |queue|
  {
    if n == 0 then []
    else
      SendEffects(queue, conversation, post, n - 1)
      + (if Skipped(queue[n - 1]) then []
         else [PostAttempted(conversation, queue[n - 1])]
              + (if PostSucceeds(post(n - 1)) then [] else [Replied(MessageFailedToSend)]))
  }

  /** The envelopes posted by a log of calls, in order. */
  function Posts(effects: seq<RelayEffect>): seq<Envelope>
  {
    if effects == [] then []
    else
      var last := effects[|effects| - 1];
      Posts(effects[..|effects| - 1]) + (if last.PostAttempted? then [last.envelope] else [])
  }

  /** The envelopes of a queue that are not skipped, in order. */
  function Sendable(queue: seq<Envelope>): seq<Envelope>
  {
    if queue == [] then []
    else Sendable(queue[..|queue| - 1]) + (if Skipped(queue[|queue| - 1]) then [] else [queue[|queue| - 1]])
  }

  lemma {:induction false} PostsAppend(a: seq<RelayEffect>, b: seq<RelayEffect>)
    ensures Posts(a + b) == Posts(a) + Posts(b)
    decreases |b|
  {
    if b == [] {
      assert a + b == a;
    } else {
      var b' := b[..|b| - 1];
      assert (a + b)[..|a + b| - 1] == a + b';
      assert (a + b)[|a + b| - 1] == b[|b| - 1];
      PostsAppend(a, b');
    }
  }

  lemma PostsSingle(e: RelayEffect)
    ensures Posts([e]) == if e.PostAttempted? then [e.envelope] else []
  {
    assert [e][..0] == [];
  }

  /** Uploading posts nothing. */
  lemma {:induction false} UploadsPostNothing(atts: seq<Attachment>, conversation: string, upload: nat -> Upload, n: nat)
    requires n <= |atts|
    ensures Posts(UploadEffects(atts, conversation, upload, n)) == []
  {
    if n > 0 {
      var tail := [UploadAttempted(conversation, atts[n - 1].name)]
        + (if upload(n - 1).UploadFailed? then [Replied(FailedToUpload)] else []);
      UploadsPostNothing(atts, conversation, upload, n - 1);
      PostsAppend(UploadEffects(atts, conversation, upload, n - 1), tail);
      PostsAppend([UploadAttempted(conversation, atts[n - 1].name)],
                  if upload(n - 1).UploadFailed? then [Replied(FailedToUpload)] else []);
      PostsSingle(UploadAttempted(conversation, atts[n - 1].name));
      PostsSingle(Replied(FailedToUpload));
    }
  }

  /** Every envelope that is not skipped is posted, in queue order, whatever
      became of the posts before it. */
  lemma {:induction false} SendPostsInOrder(queue: seq<Envelope>, conversation: string, post: nat -> Conversations.Reply, n: nat)
    requires n <= |queue|
    ensures Posts(SendEffects(queue, conversation, post, n)) == Sendable(queue[..n])
  {
    if n > 0 {
      SendPostsInOrder(queue, conversation, post, n - 1);
      assert queue[..n][..n - 1] == queue[..n - 1];
      assert queue[..n][n - 1] == queue[n - 1];
      var failure: seq<RelayEffect> := if PostSucceeds(post(n - 1)) then [] else [Replied(MessageFailedToSend)];
      var step: seq<RelayEffect> := if Skipped(queue[n - 1]) then [] else [PostAttempted(conversation, queue[n - 1])] + failure;
      PostsAppend(SendEffects(queue, conversation, post, n - 1), step);
      if !Skipped(queue[n - 1]) {
        PostsAppend([PostAttempted(conversation, queue[n - 1])], failure);
        PostsSingle(PostAttempted(conversation, queue[n - 1]));
        PostsSingle(Replied(MessageFailedToSend));
      }
    }
  }

  // ---------------------------------------------------------------------------
  // The handler

  /** The attachment loop of the handler: upload in order, answer a failed
      upload and go on, and stop at an oversized attachment. */
  method UploadAttachments(atts: seq<Attachment>, conversation: string, first: Envelope, upload: nat -> Upload)
    returns (effects: seq<RelayEffect>, queue: seq<Envelope>, stopped: bool)
    ensures stopped <==> FirstOversized(atts).Some?
    ensures stopped ==> effects == UploadEffects(atts, conversation, upload, FirstOversized(atts).value)
    ensures !stopped ==> effects == UploadEffects(atts, conversation, upload, |atts|)
    ensures !stopped ==> queue == Queued(first, upload, |atts|)
  {
    effects, queue, stopped := [], [first], false;
    var i := 0;
    while i < |atts|
      invariant 0 <= i <= |atts|
      invariant forall j :: 0 <= j < i ==> atts[j].size <= MaxAttachmentBytes
      invariant effects == UploadEffects(atts, conversation, upload, i)
      invariant queue == Queued(first, upload, i)
    {
      var attachment := atts[i];
      if attachment.size > MaxAttachmentBytes {
        return effects, queue, true;
      }
      effects := effects + ([UploadAttempted(conversation, attachment.name)]
                            + (if upload(i).UploadFailed? then [Replied(FailedToUpload)] else []));
      var uploaded := upload(i);
      if uploaded.Uploaded? {
        queue := queue + [AttachmentEnvelope(first, uploaded)];
      }
      i := i + 1;
    }
  }

  /** The send loop of the handler: post each envelope that is not skipped,
      in order, answering a failed post and going on. */
  method SendQueue(queue: seq<Envelope>, conversation: string, post: nat -> Conversations.Reply)
    returns (effects: seq<RelayEffect>)
    ensures effects == SendEffects(queue, conversation, post, |queue|)
  {
    effects := [];
    var k := 0;
    while k < |queue|
      invariant 0 <= k <= |queue|
      invariant effects == SendEffects(queue, conversation, post, k)
    {
      var envelope := queue[k];
      if !Skipped(envelope) {
        var sent := Conversations.PostMessage(post(k));
        var failure := if sent.Err? then [Replied(MessageFailedToSend)] else [];
        effects := effects + ([PostAttempted(conversation, envelope)] + failure);
      }
      k := k + 1;
    }
  }

  /** The `messageCreate` handler. A message that is not relayed causes no
      call. Attachments are uploaded in order; an oversized one is answered
      and ends the handler before anything is posted; a failed upload is
      answered and the rest go on. Then the queue is posted in order, a
      failed post answered and the rest posted. */
  method RelayMessage(m: ChatMessage, upload: nat -> Upload, post: nat -> Conversations.Reply)
    returns (effects: seq<RelayEffect>)
    ensures RelayTarget(m).None? ==> effects == []
    ensures RelayTarget(m).Some? ==>
      var conversation := RelayTarget(m).value.conversation;
      var atts := m.attachments;
      match FirstOversized(atts)
      case Some(j) =>
        effects == UploadEffects(atts, conversation, upload, j) + [Replied(Exceeded50MBLimit)]
      case None =>
        var queue := Queued(FirstEnvelope(m), upload, |atts|);
        effects == UploadEffects(atts, conversation, upload, |atts|) + SendEffects(queue, conversation, post, |queue|)
  {
    var target := RelayTarget(m);
    if target.None? {
      return [];
    }
    var conversation := target.value.conversation;
    var uploads, queue, stopped := UploadAttachments(m.attachments, conversation, FirstEnvelope(m), upload);
    if stopped {
      return uploads + [Replied(Exceeded50MBLimit)];
    }
    var sends := SendQueue(queue, conversation, post);
    effects := uploads + sends;
  }

  /** An oversized attachment anywhere stops the relay before any post,
      including the text; an attachment of exactly the ceiling is accepted. */
  lemma OversizedPostsNothing(atts: seq<Attachment>, conversation: string, upload: nat -> Upload)
    requires FirstOversized(atts).Some?
    ensures Posts(UploadEffects(atts, conversation, upload, FirstOversized(atts).value) + [Replied(Exceeded50MBLimit)]) == []
  {
    var j := FirstOversized(atts).value;
    UploadsPostNothing(atts, conversation, upload, j);
    PostsAppend(UploadEffects(atts, conversation, upload, j), [Replied(Exceeded50MBLimit)]);
    PostsSingle(Replied(Exceeded50MBLimit));
  }

  /** Without an oversized attachment, the posted envelopes are exactly the
      queue's non-skipped ones, in order: the text first when it is not empty,
      then the uploaded attachments. */
  lemma RelayPostsQueue(atts: seq<Attachment>, conversation: string, first: Envelope, upload: nat -> Upload, post: nat -> Conversations.Reply)
    ensures var queue := Queued(first, upload, |atts|);
      Posts(UploadEffects(atts, conversation, upload, |atts|) + SendEffects(queue, conversation, post, |queue|))
      == Sendable(queue)
  {
    var queue := Queued(first, upload, |atts|);
    UploadsPostNothing(atts, conversation, upload, |atts|);
    PostsAppend(UploadEffects(atts, conversation, upload, |atts|), SendEffects(queue, conversation, post, |queue|));
    SendPostsInOrder(queue, conversation, post, |queue|);
    assert queue[..|queue|] == queue;
  }

  // ---------------------------------------------------------------------------
  // Interaction dispatch

  datatype Interaction = SlashCommand(name: string) | ButtonPress(customId: string) | OtherInteraction

  /** How the registered handler ended. */
  datatype HandlerRun = Completed | Failed(detail: string)

  /** The interaction's reply state once the handler has ended. */
  datatype ReplyState = ReplyState(repliable: bool, replied: bool, deferred: bool)

  /** How dispatch ended. An error report that was attempted records whether
      the awaited `editReply` or `reply` resolved; when it rejects, nothing
      catches it and the listener ends in an unhandled rejection. */
  datatype DispatchResult =
    | NoHandler
    | Handled
    | ErrorEditedReply(notice: Notice, delivered: bool)
    | ErrorRepliedEphemeral(notice: Notice, delivered: bool)
    | ErrorUnreported

  /** A handler is registered: a slash command by name, a button by a
      non-empty custom id; other interactions have none. */
  predicate HasHandler(i: Interaction, commands: set<string>, buttons: set<string>)
  {
    match i
    case SlashCommand(name) => name in commands
    case ButtonPress(id) => id != "" && id in buttons
    case OtherInteraction => false
  }

  /** `interactionCreate`: run the registered handler; when it throws, report
      the error by editing the reply already sent or deferred, or else by an
      ephemeral reply, and only on a repliable interaction. `reportSucceeds`
      is how that awaited report settles. */
  function Dispatch(i: Interaction, commands: set<string>, buttons: set<string>, run: HandlerRun, state: ReplyState,
                    reportSucceeds: bool)
    : (r: DispatchResult)
    ensures r.NoHandler? <==> !HasHandler(i, commands, buttons)
    ensures r.Handled? <==> HasHandler(i, commands, buttons) && run.Completed?
    ensures r.ErrorEditedReply? <==>
      HasHandler(i, commands, buttons) && run.Failed? && state.repliable && (state.replied || state.deferred)
    ensures r.ErrorRepliedEphemeral? <==>
      HasHandler(i, commands, buttons) && run.Failed? && state.repliable && !state.replied && !state.deferred
    ensures r.ErrorUnreported? <==> HasHandler(i, commands, buttons) && run.Failed? && !state.repliable
    ensures r.ErrorEditedReply? || r.ErrorRepliedEphemeral? ==>
      r.notice == CallbackError(run.detail) && r.delivered == reportSucceeds
  {
    if !HasHandler(i, commands, buttons) then NoHandler
    else match run
      case Completed => Handled
      case Failed(detail) =>
        if !state.repliable then ErrorUnreported
        else if state.replied || state.deferred then ErrorEditedReply(CallbackError(detail), reportSucceeds)
        else ErrorRepliedEphemeral(CallbackError(detail), reportSucceeds)
  }
}
