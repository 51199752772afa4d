/** The request lifecycle of src/commands/sendopenticket.ts:
    `zdmdCreateConversation`, which refuses to open a second request while one
    is open and otherwise creates the conversation, its room and the binding
    between them; and the close-existing-requests button, which tears down
    every open request and then opens a new one. Every remote call is logged
    as a `Call`; whether an awaited call resolves is the parameter `ok`. */
module OpenTicket {
  import opened Common
  import Topic
  import Conversations

  /** What the flows learn about the interaction and from the services: the
      conversation listing, and the ids of the conversation and room they
      create. */
  datatype Context = Context(
    inGuild: bool,
    userId: string,
    repliable: bool,
    listing: seq<Conversations.Conversation>,
    conversationId: string,
    channelId: string)

  datatype Call =
    | DeferReplyCall
    | UpsertUserCall(externalId: string)
    | ListConversationsCall(externalId: string)
    | CreateConversationCall(owner: string)
    | CreateChannelCall(topic: string)
    | UpdateConversationCall(conversation: string, channel: string)
    | PostHiddenNoteCall(conversation: string)
    | PassControlCall(conversation: string)
    | GrantViewCall(channel: string, user: string)
    | EditReplyCall(notice: Notice)
    | SendCall(channel: string, notice: Notice)
    | FetchChannelCall(channel: string)
    | DeleteChannelCall(channel: string)
    | PostClosureNoteCall(conversation: string)
    | DeleteConversationCall(conversation: string)
    | CreateRequestCall

  /** How `zdmdCreateConversation` settles: a boolean, or a rejection. */
  datatype Completion = Returned(value: bool) | Threw

  /** How a button handler settles. */
  datatype ButtonEnd = Finished | Failed

  function ExternalId(user: string): string
  {
    Conversations.BuildExternalId(Conversations.UserId(user))
  }

  // ---------------------------------------------------------------------------
  // Running a sequence of awaited calls

  /** Every call of the plan resolves. */
  predicate AllOk(plan: seq<Call>, ok: Call -> bool)
  {
    forall i :: 0 <= i < |plan| ==> ok(plan[i])
  }

  /** The calls made when a plan is awaited call by call: up to and including
      the first one that rejects. */
  function UpToFailure(plan: seq<Call>, ok: Call -> bool): seq<Call>
  {
    if plan == [] then []
    else if ok(plan[0]) then [plan[0]] + UpToFailure(plan[1..], ok)
    else [plan[0]]
  }

  /** The calls made are a prefix of the plan, all of it when every call
      resolves; all but the last resolved, and a run cut short ends in the
      rejected call. */
  lemma {:induction false} UpToFailureStopsAtRejection(plan: seq<Call>, ok: Call -> bool)
    ensures var r := UpToFailure(plan, ok);
      && |r| <= |plan| && r == plan[..|r|]
      && (AllOk(plan, ok) ==> r == plan)
      && (forall i :: 0 <= i < |r| - 1 ==> ok(r[i]))
      && (|r| < |plan| ==> r != [] && !ok(r[|r| - 1]))
  {
    if plan != [] {
      UpToFailureStopsAtRejection(plan[1..], ok);
      var r := UpToFailure(plan, ok);
      if ok(plan[0]) {
        var t := UpToFailure(plan[1..], ok);
        assert r == [plan[0]] + t;
        assert plan == [plan[0]] + plan[1..];
        if AllOk(plan, ok) {
          assert AllOk(plan[1..], ok) by {
            forall i | 0 <= i < |plan[1..]| ensures ok(plan[1..][i]) {
              assert plan[1..][i] == plan[i + 1];
            }
          }
        }
        forall i | 0 <= i < |r| - 1 ensures ok(r[i]) {
          if i > 0 {
            assert r[i] == t[i - 1];
          }
        }
      }
    }
  }

  lemma UpToFailureCons(c: Call, rest: seq<Call>, ok: Call -> bool)
    ensures UpToFailure([c] + rest, ok) == [c] + (if ok(c) then UpToFailure(rest, ok) else [])
    ensures AllOk([c] + rest, ok) <==> ok(c) && AllOk(rest, ok)
  {
    assert ([c] + rest)[1..] == rest;
    if ok(c) && AllOk(rest, ok) {
      forall i | 0 <= i < |[c] + rest| ensures ok(([c] + rest)[i]) {
        if i > 0 {
          assert ([c] + rest)[i] == rest[i - 1];
        }
      }
    }
    if AllOk([c] + rest, ok) {
      forall i | 0 <= i < |rest| ensures ok(rest[i]) {
        assert rest[i] == ([c] + rest)[i + 1];
      }
    }
  }

  /** One awaited call: with `made + UpToFailure(plan)` being all the calls, the
      next call `c` is appended, and the rest of the plan follows only if it resolves. */
  lemma Advance(made: seq<Call>, c: Call, rest: seq<Call>, all: seq<Call>, ok: Call -> bool)
    requires made + UpToFailure([c] + rest, ok) == all
    ensures ok(c) ==> (made + [c]) + UpToFailure(rest, ok) == all
    ensures !ok(c) ==> made + [c] == all
  {
    UpToFailureCons(c, rest, ok);
    var tail := if ok(c) then UpToFailure(rest, ok) else [];
    assert made + ([c] + tail) == (made + [c]) + tail;
    if !ok(c) {
      assert [c] + tail == [c];
    }
  }

  // ---------------------------------------------------------------------------
  // Opening a request

  /** The conversations that count as open requests, in listing order. */
  function OpenRequests(cs: seq<Conversations.Conversation>): (r: seq<Conversations.Conversation>)
    ensures forall c :: c in r <==> c in cs && Conversations.IsOpenRequest(c)
    ensures |r| <= |cs|
  {
    if cs == [] then []
    else
      var last := cs[|cs| - 1];
      OpenRequests(cs[..|cs| - 1]) + (if Conversations.IsOpenRequest(last) then [last] else [])
  }

  /** The filter keeps listing order: the open requests of a listing are
      those of its first part followed by those of the rest. */
  lemma {:induction false} OpenRequestsKeepOrder(cs: seq<Conversations.Conversation>, ds: seq<Conversations.Conversation>)
    ensures OpenRequests(cs + ds) == OpenRequests(cs) + OpenRequests(ds)
    decreases |ds|
  {
    if ds == [] {
      assert cs + ds == cs;
    } else {
      var init := ds[..|ds| - 1];
      var last := ds[|ds| - 1];
      assert (cs + ds)[..|cs + ds| - 1] == cs + init;
      assert (cs + ds)[|cs + ds| - 1] == last;
      OpenRequestsKeepOrder(cs, init);
    }
  }

  /** A conversation bound to the empty channel id is not open. */
  lemma EmptyChannelIsNotOpen(c: Conversations.Conversation)
    requires Lookup(c.metadata, "discordChannel") == Some(MetaString(""))
    ensures !Conversations.IsOpenRequest(c)
    ensures c !in OpenRequests([c])
  {
  }

  /** The room's topic: the support-request text, then the binding. */
  function RoomTopic(ctx: Context): Result<string, Topic.TopicError>
  {
    Topic.SupportTopic(Topic.Payload(ctx.conversationId, ctx.userId))
  }

  /** Everything `zdmdCreateConversation` does once it has the room. */
  function RoomSetup(ctx: Context, topic: string): seq<Call>
  {
    var conversation := ctx.conversationId;
    var channel := ctx.channelId;
    [CreateChannelCall(topic)]
    + ([UpdateConversationCall(conversation, channel)]
       + ([PostHiddenNoteCall(conversation)]
          + ([PassControlCall(conversation)]
             + ([GrantViewCall(channel, ctx.userId)]
                + ((if ctx.repliable then [EditReplyCall(SupportRequestCreated(channel))] else [])
                   + [SendCall(channel, SupportRequestFirstMessage)])))))
  }

  /** What follows the listing: the refusal when a request is open, and
      otherwise the creation, which stops short of the room when the topic
      does not fit. */
  function AfterListing(ctx: Context): seq<Call>
  {
    if |OpenRequests(ctx.listing)| > 0 then
      (if ctx.repliable then [EditReplyCall(CustomerCloseExistingQuestion)] else [])
    else
      [CreateConversationCall(ctx.userId)]
      + (match RoomTopic(ctx)
         case Err(_) => []
         case Ok(topic) => RoomSetup(ctx, topic))
  }

  /** The calls of `zdmdCreateConversation` in a guild when every one resolves. */
  function CreationCalls(ctx: Context): seq<Call>
  {
    [UpsertUserCall(ExternalId(ctx.userId))] + ([ListConversationsCall(ExternalId(ctx.userId))] + AfterListing(ctx))
  }

  /** `zdmdCreateConversation`. Outside a guild it returns false at once.
      Otherwise the calls are awaited in order and the first rejection ends
      it; with an open request it only answers and returns false; the topic
      that does not fit throws before the room is created; and it returns
      true once the room has been set up. */
  method CreateRequest(ctx: Context, ok: Call -> bool) returns (result: Completion, calls: seq<Call>)
    ensures !ctx.inGuild ==> result == Returned(false) && calls == []
    ensures ctx.inGuild ==> calls == UpToFailure(CreationCalls(ctx), ok)
    ensures ctx.inGuild ==>
      (result == Returned(true) <==>
        AllOk(CreationCalls(ctx), ok) && |OpenRequests(ctx.listing)| == 0 && RoomTopic(ctx).Ok?)
    ensures ctx.inGuild ==>
      (result == Returned(false) <==> AllOk(CreationCalls(ctx), ok) && |OpenRequests(ctx.listing)| > 0)
  {
    if !ctx.inGuild {
      return Returned(false), [];
    }
    ghost var all := UpToFailure(CreationCalls(ctx), ok);
    var externalId := ExternalId(ctx.userId);
    UpToFailureCons(UpsertUserCall(externalId), [ListConversationsCall(externalId)] + AfterListing(ctx), ok);
    UpToFailureCons(ListConversationsCall(externalId), AfterListing(ctx), ok);
    Advance([], UpsertUserCall(externalId), [ListConversationsCall(externalId)] + AfterListing(ctx), all, ok);
    calls := [UpsertUserCall(externalId)];
    if !ok(UpsertUserCall(externalId)) {
      return Threw, calls;
    }
    Advance(calls, ListConversationsCall(externalId), AfterListing(ctx), all, ok);
    calls := calls + [ListConversationsCall(externalId)];
    if !ok(ListConversationsCall(externalId)) {
      return Threw, calls;
    }

    if |OpenRequests(ctx.listing)| > 0 {
      if ctx.repliable {
        var answer := EditReplyCall(CustomerCloseExistingQuestion);
        UpToFailureCons(answer, [], ok);
        assert [answer] + [] == [answer];
        calls := calls + [answer];
        if !ok(answer) {
          return Threw, calls;
        }
      }
      return Returned(false), calls;
    }

    var topicResult := RoomTopic(ctx);
    var rest := match topicResult case Err(_) => [] case Ok(topic) => RoomSetup(ctx, topic);
    UpToFailureCons(CreateConversationCall(ctx.userId), rest, ok);
    Advance(calls, CreateConversationCall(ctx.userId), rest, all, ok);
    calls := calls + [CreateConversationCall(ctx.userId)];
    if !ok(CreateConversationCall(ctx.userId)) {
      return Threw, calls;
    }
    if topicResult.Err? {
      return Threw, calls;
    }
    result, calls := SetUpRoom(ctx, topicResult.value, ok, calls, all);
  }

  /** The steps after the conversation exists: create the room with its
      topic, record it on the conversation, post the hidden note, pass control
      to the agent workspace, let the user see the room, answer, and greet. */
  method SetUpRoom(ctx: Context, topic: string, ok: Call -> bool, made: seq<Call>, ghost all: seq<Call>)
    returns (result: Completion, calls: seq<Call>)
    requires made + UpToFailure(RoomSetup(ctx, topic), ok) == all
    ensures calls == all
    ensures result == Returned(true) <==> AllOk(RoomSetup(ctx, topic), ok)
    ensures result == Returned(true) || result == Threw
  {
    var conversation := ctx.conversationId;
    var channel := ctx.channelId;
    var reply: seq<Call> := if ctx.repliable then [EditReplyCall(SupportRequestCreated(channel))] else [];
    var greet := [SendCall(channel, SupportRequestFirstMessage)];
    var s6 := reply + greet;
    var s5 := [GrantViewCall(channel, ctx.userId)] + s6;
    var s4 := [PassControlCall(conversation)] + s5;
    var s3 := [PostHiddenNoteCall(conversation)] + s4;
    var s2 := [UpdateConversationCall(conversation, channel)] + s3;
    assert RoomSetup(ctx, topic) == [CreateChannelCall(topic)] + s2;
    UpToFailureCons(CreateChannelCall(topic), s2, ok);
    UpToFailureCons(UpdateConversationCall(conversation, channel), s3, ok);
    UpToFailureCons(PostHiddenNoteCall(conversation), s4, ok);
    UpToFailureCons(PassControlCall(conversation), s5, ok);
    UpToFailureCons(GrantViewCall(channel, ctx.userId), s6, ok);

    calls := made;
    Advance(calls, CreateChannelCall(topic), s2, all, ok);
    calls := calls + [CreateChannelCall(topic)];
    if !ok(CreateChannelCall(topic)) {
      return Threw, calls;
    }
    Advance(calls, UpdateConversationCall(conversation, channel), s3, all, ok);
    calls := calls + [UpdateConversationCall(conversation, channel)];
    if !ok(UpdateConversationCall(conversation, channel)) {
      return Threw, calls;
    }
    Advance(calls, PostHiddenNoteCall(conversation), s4, all, ok);
    calls := calls + [PostHiddenNoteCall(conversation)];
    if !ok(PostHiddenNoteCall(conversation)) {
      return Threw, calls;
    }
    Advance(calls, PassControlCall(conversation), s5, all, ok);
    calls := calls + [PassControlCall(conversation)];
    if !ok(PassControlCall(conversation)) {
      return Threw, calls;
    }
    Advance(calls, GrantViewCall(channel, ctx.userId), s6, all, ok);
    calls := calls + [GrantViewCall(channel, ctx.userId)];
    if !ok(GrantViewCall(channel, ctx.userId)) {
      return Threw, calls;
    }
    if ctx.repliable {
      var answer := EditReplyCall(SupportRequestCreated(channel));
      UpToFailureCons(answer, greet, ok);
      Advance(calls, answer, greet, all, ok);
      calls := calls + [answer];
      if !ok(answer) {
        return Threw, calls;
      }
    } else {
      assert s6 == greet;
    }
    var hello := SendCall(channel, SupportRequestFirstMessage);
    UpToFailureCons(hello, [], ok);
    assert greet == [hello] + [];
    Advance(calls, hello, [], all, ok);
    calls := calls + [hello];
    if !ok(hello) {
      return Threw, calls;
    }
    return Returned(true), calls;
  }

  /** With an open request, no conversation and no room is created. */
  lemma DuplicateGuard(ctx: Context, ok: Call -> bool)
    requires |OpenRequests(ctx.listing)| > 0
    ensures forall c :: c in UpToFailure(CreationCalls(ctx), ok) ==>
      !c.CreateConversationCall? && !c.CreateChannelCall?
  {
    var plan := CreationCalls(ctx);
    var made := UpToFailure(plan, ok);
    UpToFailureStopsAtRejection(plan, ok);
    forall c | c in made ensures !c.CreateConversationCall? && !c.CreateChannelCall? {
      var i :| 0 <= i < |made| && made[i] == c;
      assert c == plan[i];
      assert c in plan;
    }
  }

  /** With any conversation open, `zdmdCreateConversation` refuses: a
      non-default conversation with a non-empty channel id counts. */
  lemma OpenConversationCounts(cs: seq<Conversations.Conversation>, i: nat)
    requires i < |cs| && Conversations.IsOpenRequest(cs[i])
    ensures |OpenRequests(cs)| > 0
  {
    assert cs[i] in OpenRequests(cs);
  }

  /** The room created for a request carries the binding of its conversation
      and owner, so the owner's messages in it are relayed to that conversation. */
  lemma CreatedRoomIsBound(ctx: Context, topic: string)
    requires CreateChannelCall(topic) in CreationCalls(ctx)
    ensures Topic.ParseTopic(Some(topic)) == Topic.Bound(Topic.Payload(ctx.conversationId, ctx.userId))
  {
    RoomCreatedWithItsTopic(ctx, topic);
    Topic.SupportTopicRoundTrip(Topic.Payload(ctx.conversationId, ctx.userId));
  }

  /** The only room `zdmdCreateConversation` creates has the topic built for it. */
  lemma RoomCreatedWithItsTopic(ctx: Context, topic: string)
    requires CreateChannelCall(topic) in CreationCalls(ctx)
    ensures RoomTopic(ctx) == Ok(topic)
  {
    var after := AfterListing(ctx);
    assert CreateChannelCall(topic) in after;
    assert |OpenRequests(ctx.listing)| == 0;
    assert RoomTopic(ctx).Ok?;
  }

  // ---------------------------------------------------------------------------
  // Closing the existing requests

  /** The calls for one open request whose closure note is posted: fetch the
      room, delete it when it was found, post the note, delete the
      conversation. A failed fetch, room deletion or conversation deletion is
      logged and ignored, so none of them changes what follows. */
  function CloseOne(c: Conversations.Conversation, fetch: string -> Fetch): seq<Call>
  {
    match Conversations.BoundChannel(c)
    case None => []
    case Some(ch) =>
      [FetchChannelCall(ch)]
      + (if fetch(ch).Fetched? then [DeleteChannelCall(fetch(ch).channel.id)] else [])
      + [PostClosureNoteCall(c.id)]
      + [DeleteConversationCall(c.id)]
  }

  /** The calls for the request whose closure note fails: up to the note. */
  function CloseCut(c: Conversations.Conversation, fetch: string -> Fetch): seq<Call>
    requires Conversations.BoundChannel(c).Some?
  {
    var ch := Conversations.BoundChannel(c).value;
    [FetchChannelCall(ch)]
    + (if fetch(ch).Fetched? then [DeleteChannelCall(fetch(ch).channel.id)] else [])
    + [PostClosureNoteCall(c.id)]
  }

  function CloseAll(cs: seq<Conversations.Conversation>, fetch: string -> Fetch): seq<Call>
  {
    if cs == [] then [] else CloseAll(cs[..|cs| - 1], fetch) + CloseOne(cs[|cs| - 1], fetch)
  }

  /** The closure note of this request is posted and rejected. */
  predicate NoteFails(c: Conversations.Conversation, ok: Call -> bool)
  {
    Conversations.BoundChannel(c).Some? && !ok(PostClosureNoteCall(c.id))
  }

  /** The first request whose closure note fails, if any. */
  function FirstNoteFailure(cs: seq<Conversations.Conversation>, ok: Call -> bool): (r: Option<nat>)
    ensures r.Some? ==> r.value < |cs| && NoteFails(cs[r.value], ok)
    ensures r.Some? ==> forall j :: 0 <= j < r.value ==> !NoteFails(cs[j], ok)
    ensures r.None? ==> forall j :: 0 <= j < |cs| ==> !NoteFails(cs[j], ok)
  {
    if cs == [] then None
    else match FirstNoteFailure(cs[..|cs| - 1], ok)
      case Some(k) => Some(k)
      case None => if NoteFails(cs[|cs| - 1], ok) then Some(|cs| - 1) else None
  }

  lemma {:induction false} FirstNoteFailureOfPrefix(cs: seq<Conversations.Conversation>, n: nat, ok: Call -> bool)
    requires n <= |cs| && FirstNoteFailure(cs[..n], ok).Some?
    ensures FirstNoteFailure(cs, ok) == FirstNoteFailure(cs[..n], ok)
    decreases |cs| - n
  {
    if n < |cs| {
      assert cs[..n + 1][..n] == cs[..n];
      FirstNoteFailureOfPrefix(cs, n + 1, ok);
    } else {
      assert cs[..n] == cs;
    }
  }

  /** The start-live-chat button: outside a guild it throws; otherwise it
      defers the reply and opens a request with `zdmdCreateConversation`. */
  method StartRequestButton(ctx: Context, ok: Call -> bool) returns (end: ButtonEnd, calls: seq<Call>)
    ensures !ctx.inGuild ==> end == Failed && calls == []
    ensures ctx.inGuild && !ok(DeferReplyCall) ==> end == Failed && calls == [DeferReplyCall]
    ensures ctx.inGuild && ok(DeferReplyCall) ==>
      && calls == [DeferReplyCall, CreateRequestCall] + UpToFailure(CreationCalls(ctx), ok)
      && (end == Finished <==> AllOk(CreationCalls(ctx), ok)
                                && (|OpenRequests(ctx.listing)| > 0 || RoomTopic(ctx).Ok?))
  {
    if !ctx.inGuild {
      return Failed, [];
    }
    if !ok(DeferReplyCall) {
      return Failed, [DeferReplyCall];
    }
    var created, more := CreateRequest(ctx, ok);
    calls := [DeferReplyCall, CreateRequestCall] + more;
    end := if created.Threw? then Failed else Finished;
  }

  /** One request of the cleanup: fetch its room and delete it when found,
      post the closure note, and delete the conversation; only a rejected note
      stops the cleanup. A conversation without a string channel id is skipped. */
  method CloseRequest(convo: Conversations.Conversation, fetch: string -> Fetch, ok: Call -> bool)
    returns (posted: bool, calls: seq<Call>)
    ensures posted <==> !NoteFails(convo, ok)
    ensures posted ==> calls == CloseOne(convo, fetch)
    ensures !posted ==> Conversations.BoundChannel(convo).Some? && calls == CloseCut(convo, fetch)
  {
    var channelId := Conversations.BoundChannel(convo);
    if channelId.None? {
      return true, [];
    }
    calls := [FetchChannelCall(channelId.value)];
    var found := fetch(channelId.value);
    if found.Fetched? {
      calls := calls + [DeleteChannelCall(found.channel.id)];
    }
    calls := calls + [PostClosureNoteCall(convo.id)];
    if !ok(PostClosureNoteCall(convo.id)) {
      return false, calls;
    }
    calls := calls + [DeleteConversationCall(convo.id)];
    posted := true;
  }

  /** The cleanup loop: the open requests in order, until a closure note is rejected. */
  method CloseEach(open: seq<Conversations.Conversation>, fetch: string -> Fetch, ok: Call -> bool)
    returns (failed: Option<nat>, calls: seq<Call>)
    ensures failed == FirstNoteFailure(open, ok)
    ensures failed.None? ==> calls == CloseAll(open, fetch)
    ensures failed.Some? ==>
      && failed.value < |open| && Conversations.BoundChannel(open[failed.value]).Some?
      && calls == CloseAll(open[..failed.value], fetch) + CloseCut(open[failed.value], fetch)
  {
    calls := [];
    var i := 0;
    while i < |open|
      invariant 0 <= i <= |open|
      invariant FirstNoteFailure(open[..i], ok).None?
      invariant calls == CloseAll(open[..i], fetch)
    {
      assert open[..i + 1][..i] == open[..i];
      assert open[..i + 1][i] == open[i];
      var posted, one := CloseRequest(open[i], fetch, ok);
      if !posted {
        FirstNoteFailureOfPrefix(open, i + 1, ok);
        return Some(i), calls + one;
      }
      calls := calls + one;
      i := i + 1;
    }
    assert open[..i] == open;
    failed := None;
  }

  /** The close-existing-requests button, given the listing it finds. Outside
      a guild it throws. Otherwise it defers, lists, and closes the open
      requests in order; a rejection of the deferral, the listing or a closure
      note abandons the rest, answers that the requests could not be removed,
      and opens nothing. When every request is closed it opens a new one with
      `zdmdCreateConversation`, which lists the conversations afresh. Its calls
      are new requests, so whether they resolve is given by `okAfter`, apart
      from `ok`, which answers the calls of the cleanup itself. */
  method CloseExistingRequests(ctx: Context, existing: seq<Conversations.Conversation>,
                               fetch: string -> Fetch, ok: Call -> bool, okAfter: Call -> bool)
    returns (end: ButtonEnd, calls: seq<Call>)
    ensures !ctx.inGuild ==> end == Failed && calls == []
    ensures ctx.inGuild && !ok(DeferReplyCall) ==>
      calls == [DeferReplyCall, EditReplyCall(UnableToRemoveExistingRequests)]
      && (end == Finished <==> ok(EditReplyCall(UnableToRemoveExistingRequests)))
    ensures ctx.inGuild && ok(DeferReplyCall) && !ok(ListConversationsCall(ExternalId(ctx.userId))) ==>
      calls == [DeferReplyCall, ListConversationsCall(ExternalId(ctx.userId)), EditReplyCall(UnableToRemoveExistingRequests)]
      && (end == Finished <==> ok(EditReplyCall(UnableToRemoveExistingRequests)))
    ensures ctx.inGuild && ok(DeferReplyCall) && ok(ListConversationsCall(ExternalId(ctx.userId))) ==>
      var prelude := [DeferReplyCall, ListConversationsCall(ExternalId(ctx.userId))];
      var open := OpenRequests(existing);
      match FirstNoteFailure(open, ok)
      case Some(k) =>
        k < |open| && Conversations.BoundChannel(open[k]).Some?
        && calls == prelude + CloseAll(open[..k], fetch) + CloseCut(open[k], fetch)
                    + [EditReplyCall(UnableToRemoveExistingRequests)]
        && (end == Finished <==> ok(EditReplyCall(UnableToRemoveExistingRequests)))
      case None =>
        calls == prelude + CloseAll(open, fetch) + [CreateRequestCall] + UpToFailure(CreationCalls(ctx), okAfter)
        && (end == Finished <==> AllOk(CreationCalls(ctx), okAfter)
                                  && (|OpenRequests(ctx.listing)| > 0 || RoomTopic(ctx).Ok?))
  {
    if !ctx.inGuild {
      return Failed, [];
    }
    var externalId := ExternalId(ctx.userId);
    var unable := EditReplyCall(UnableToRemoveExistingRequests);
    var answered := if ok(unable) then Finished else Failed;
    if !ok(DeferReplyCall) {
      return answered, [DeferReplyCall, unable];
    }
    if !ok(ListConversationsCall(externalId)) {
      return answered, [DeferReplyCall, ListConversationsCall(externalId), unable];
    }
    calls := [DeferReplyCall, ListConversationsCall(externalId)];
    var open := OpenRequests(existing);
    var failed, closing := CloseEach(open, fetch, ok);
    if failed.Some? {
      return answered, calls + closing + [unable];
    }
    var created, more := CreateRequest(ctx, okAfter);
    calls := calls + closing + [CreateRequestCall] + more;
    end := if created.Threw? then Failed else Finished;
  }

  /** Closing the requests makes no `zdmdCreateConversation` call, and
      opening one makes none either. */
  lemma {:induction false} NoCreationWhileClosing(cs: seq<Conversations.Conversation>, fetch: string -> Fetch)
    ensures CreateRequestCall !in CloseAll(cs, fetch)
  {
    if cs != [] {
      NoCreationWhileClosing(cs[..|cs| - 1], fetch);
    }
  }

  lemma NoCreationWhileOpening(ctx: Context, ok: Call -> bool)
    ensures CreateRequestCall !in UpToFailure(CreationCalls(ctx), ok)
  {
    var plan := CreationCalls(ctx);
    var opening := UpToFailure(plan, ok);
    UpToFailureStopsAtRejection(plan, ok);
    var after := AfterListing(ctx);
    if |OpenRequests(ctx.listing)| == 0 {
      match RoomTopic(ctx)
      case Err(_) =>
        assert after == [CreateConversationCall(ctx.userId)];
      case Ok(topic) =>
        var setup := RoomSetup(ctx, topic);
        assert after == [CreateConversationCall(ctx.userId)] + setup;
        assert CreateRequestCall !in setup;
    }
    assert CreateRequestCall !in after;
    assert plan == [UpsertUserCall(ExternalId(ctx.userId))] + ([ListConversationsCall(ExternalId(ctx.userId))] + after);
    forall i | 0 <= i < |opening| ensures opening[i] != CreateRequestCall {
      assert opening[i] == plan[i] && plan[i] in plan;
    }
  }

  /** After a complete cleanup a new request is opened exactly once. */
  lemma RecreatedExactlyOnce(ctx: Context, existing: seq<Conversations.Conversation>, fetch: string -> Fetch, ok: Call -> bool)
    ensures var prelude := [DeferReplyCall, ListConversationsCall(ExternalId(ctx.userId))];
      multiset(prelude + CloseAll(OpenRequests(existing), fetch) + [CreateRequestCall]
               + UpToFailure(CreationCalls(ctx), ok))[CreateRequestCall] == 1
  {
    var prelude := [DeferReplyCall, ListConversationsCall(ExternalId(ctx.userId))];
    var closing := CloseAll(OpenRequests(existing), fetch);
    var opening := UpToFailure(CreationCalls(ctx), ok);
    NoCreationWhileClosing(OpenRequests(existing), fetch);
    NoCreationWhileOpening(ctx, ok);
    CountOnce(prelude + closing, opening);
  }

  lemma CountOnce(before: seq<Call>, after: seq<Call>)
    requires CreateRequestCall !in before && CreateRequestCall !in after
    ensures multiset(before + [CreateRequestCall] + after)[CreateRequestCall] == 1
  {
    assert multiset(before)[CreateRequestCall] == 0;
    assert multiset(after)[CreateRequestCall] == 0;
    assert multiset(before + [CreateRequestCall] + after)
        == multiset(before) + multiset([CreateRequestCall]) + multiset(after);
  }

  /** A cleanup abandoned at a rejected closure note opens no new request. */
  lemma AbandonedCleanupOpensNothing(ctx: Context, existing: seq<Conversations.Conversation>, fetch: string -> Fetch, k: nat)
    requires k < |OpenRequests(existing)| && Conversations.BoundChannel(OpenRequests(existing)[k]).Some?
    ensures var open := OpenRequests(existing);
      CreateRequestCall !in [DeferReplyCall, ListConversationsCall(ExternalId(ctx.userId))]
        + CloseAll(open[..k], fetch) + CloseCut(open[k], fetch) + [EditReplyCall(UnableToRemoveExistingRequests)]
  {
    NoCreationWhileClosing(OpenRequests(existing)[..k], fetch);
  }
}
