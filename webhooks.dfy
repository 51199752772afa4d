/** The webhook server of src/webhooks.ts: the Zendesk webhook (ticket
    assigned / solved notices and the scheduled channel deletion), the
    Sunshine Conversations webhook (agent messages relayed into the room), the
    mention rewriting applied to relayed text, and the mapping of a handler's
    result to an HTTP status. Discord calls, the channel listing, the HMAC and
    `JSON.parse` of the body are parameters bundled in a `World`. */
module Webhooks {
  import opened Common
  import Topic
  import Conversations
  import DeleteRegistry

  type ChannelId = string

  const SignatureHeader: string := "x-zendesk-webhook-signature"
  const TimestampHeader: string := "x-zendesk-webhook-signature-timestamp"
  const ApiKeyHeader: string := "x-api-key"
  const ZendeskPath: string := "/zd"
  const AssignedEvent: string := "ticket:assigned"
  const SolvedEvent: string := "ticket:solved"
  const MessageEvent: string := "conversation:message"
  const BusinessAuthor: string := "business"
  const UserPattern: string := "@user"
  const CustomerPattern: string := "@customer"

  // ---------------------------------------------------------------------------
  // Requests, the outside world, and what a handler does

  /** A Node header value: a string, or an array for repeated headers. */
  datatype HeaderValue = Single(text: string) | Multiple(values: seq<string>)

  datatype HttpRequest = HttpRequest(verb: string, url: string, headers: map<string, HeaderValue>, body: string)

  function Header(req: HttpRequest, name: string): Option<HeaderValue>
  {
    if name in req.headers then Some(req.headers[name]) else None
  }

  /** JavaScript truthiness of a header: an array is truthy even when empty. */
  predicate HeaderTruthy(h: Option<HeaderValue>)
  {
    h.Some? && (h.value.Multiple? || h.value.text != "")
  }

  /** The Zendesk body as `JSON.parse` reads it: the event type and `requesterId`. */
  datatype ZendeskEvent = ZendeskEvent(kind: string, requesterId: Option<string>)

  /** The `content` of a Sunshine message, by `type`. */
  datatype Content =
    | TextContent(text: Option<string>)
    | ImageContent(text: Option<string>, mediaUrl: string)
    | FileContent(text: Option<string>, mediaUrl: string)
    | OtherContent(kind: string)

  datatype SunshineMessage = SunshineMessage(authorType: string, content: Content, metadata: Option<Metadata>)

  datatype SunshineEvent = SunshineEvent(kind: string, conversation: Conversations.Conversation, message: SunshineMessage)

  /** Everything the handlers learn from outside:
      `sign` is the base64 HMAC-SHA256 under the Zendesk webhook secret;
      `zendeskEvent` / `sunshineEvents` are the parsed bodies (`None` when
      parsing or reading a field throws); `listing` is the conversation list of
      the requester (`None` when the request throws); `fetch` is the Discord
      channel lookup; `sendSucceeds` says whether `channel.send` of a text to a
      room resolves; `editSucceeds` whether the permission edit resolves. */
  datatype World = World(
    sign: string -> string,
    conversationsSecret: string,
    zendeskEvent: Option<ZendeskEvent>,
    sunshineEvents: Option<seq<SunshineEvent>>,
    listing: Option<seq<Conversations.Conversation>>,
    fetch: ChannelId -> Fetch,
    sendSucceeds: (ChannelId, string) -> bool,
    editSucceeds: bool)

  /** Messages a handler sends into Discord rooms, and the permission lock-out
      of a solved request (the owner may read but not write; everyone else
      may not read). */
  datatype ChatEffect =
    | Notify(channel: ChannelId, notice: Notice)
    | Relay(channel: ChannelId, text: string)
    | LockOwnerOut(channel: ChannelId, owner: string)

  /** A handler returns normally, throws a number, or throws anything else. */
  datatype Outcome = Done | Threw(status: int) | Crashed

  /** A deletion the Zendesk handler asks to schedule: the room and its conversation. */
  datatype PendingDeletion = PendingDeletion(channel: ChannelId, conversation: string)

  // ---------------------------------------------------------------------------
  // Mention rewriting

  /** `<@owner>`, the Discord mention of the room's owner. */
  function Mention(owner: string): string
  {
    "<@" + owner + ">"
  }

  /** `applyTransformsToMessageContent`: a missing text is the empty string, and
      every `@user` and then every `@customer`, in any ASCII case, becomes the
      owner's mention. */
  function ApplyTransforms(content: Option<string>, owner: string): (r: string)
    ensures content.None? ==> r == ""
  {
    var text := if content.Some? then content.value else "";
    var users := ReplaceAll(text, UserPattern, Mention(owner), true);
    ReplaceAll(users, CustomerPattern, Mention(owner), true)
  }

  /** Text in which neither token occurs, in any case, is relayed unchanged. */
  lemma TransformWithoutTokens(s: string, owner: string)
    requires forall i :: 0 <= i < |s| ==> !MatchesPrefix(s[i..], UserPattern, true)
    requires forall i :: 0 <= i < |s| ==> !MatchesPrefix(s[i..], CustomerPattern, true)
    ensures ApplyTransforms(Some(s), owner) == s
  {
    ReplaceAllWithoutMatch(s, UserPattern, Mention(owner), true);
    ReplaceAllWithoutMatch(s, CustomerPattern, Mention(owner), true);
  }

  /** A Discord user id: decimal digits. */
  predicate IsSnowflake(id: string)
  {
    forall i :: 0 <= i < |id| ==> '0' <= id[i] <= '9'
  }

  /** The letters of the tokens after their `@`. */
  lemma TokenLetters()
    ensures UserPattern[0] == '@' && forall k :: 1 <= k < |UserPattern| ==> 'a' <= UserPattern[k] <= 'z'
    ensures CustomerPattern[0] == '@' && forall k :: 1 <= k < |CustomerPattern| ==> 'a' <= CustomerPattern[k] <= 'z'
  {
    assert UserPattern == ['@', 'u', 's', 'e', 'r'];
    assert CustomerPattern == ['@', 'c', 'u', 's', 't', 'o', 'm', 'e', 'r'];
  }

  /** Digits and `>` do not fold to `@` or `c`. */
  lemma MentionTailInert(owner: string)
    requires IsSnowflake(owner)
    ensures var tail := owner + ">";
      forall i :: 0 <= i < |tail| ==> LowerAscii(tail[i]) == tail[i] && tail[i] != '@' && tail[i] != 'c'
  {
    var tail := owner + ">";
    forall i | 0 <= i < |tail|
      ensures LowerAscii(tail[i]) == tail[i] && tail[i] != '@' && tail[i] != 'c'
    {
      if i < |owner| {
        assert tail[i] == owner[i];
      }
    }
  }

  /** An `@` whose next character is not a `c` starts no `@customer`. */
  lemma AtWithoutCustomer(x: string, m: string)
    requires x != [] && LowerAscii(x[0]) != 'c'
    ensures ReplaceAll(['@'] + x, CustomerPattern, m, true) == ['@'] + ReplaceAll(x, CustomerPattern, m, true)
  {
    TokenLetters();
    var ax := ['@'] + x;
    assert ax[1] == x[0];
    assert !SameChar(ax[1], CustomerPattern[1], true);
    assert ax[1..] == x;
  }

  lemma MentionShape(owner: string)
    ensures Mention(owner) == ['<'] + (['@'] + (owner + ">"))
  {
    var m := Mention(owner);
    var tail := owner + ">";
    forall k | 0 <= k < |m| ensures m[k] == (['<'] + (['@'] + tail))[k] {
      if 2 <= k < |m| - 1 {
        assert m[k] == owner[k - 2];
      }
    }
  }

  /** The mention contains no `@customer` and passes through the second pass. */
  lemma MentionPassesThrough(owner: string, rest: string)
    requires IsSnowflake(owner)
    ensures ReplaceAll(Mention(owner) + rest, CustomerPattern, Mention(owner), true)
         == Mention(owner) + ReplaceAll(rest, CustomerPattern, Mention(owner), true)
  {
    var m := Mention(owner);
    var tail := owner + ">";
    TokenLetters();
    MentionTailInert(owner);
    MentionShape(owner);
    calc {
      ReplaceAll(m + rest, CustomerPattern, m, true);
      { assert m + rest == ['<'] + (['@'] + (tail + rest)); }
      ReplaceAll(['<'] + (['@'] + (tail + rest)), CustomerPattern, m, true);
      { ReplaceAllSkipsPlain(['<'], ['@'] + (tail + rest), CustomerPattern, m, true); }
      ['<'] + ReplaceAll(['@'] + (tail + rest), CustomerPattern, m, true);
      { AtWithoutCustomer(tail + rest, m); }
      ['<'] + (['@'] + ReplaceAll(tail + rest, CustomerPattern, m, true));
      { ReplaceAllSkipsPlain(tail, rest, CustomerPattern, m, true); }
      ['<'] + (['@'] + (tail + ReplaceAll(rest, CustomerPattern, m, true)));
      m + ReplaceAll(rest, CustomerPattern, m, true);
    }
  }

  /** The rewrite `applyTransformsToMessageContent` means, in one left-to-right
      scan: at each position an `@user` or an `@customer`, in any ASCII case,
      becomes `m`, and any other character is copied. */
  function Mentions(s: string, m: string): string
    decreases |s|
  {
    if s == [] then []
    else if MatchesPrefix(s, UserPattern, true) then m + Mentions(s[|UserPattern|..], m)
    else if MatchesPrefix(s, CustomerPattern, true) then m + Mentions(s[|CustomerPattern|..], m)
    else [s[0]] + Mentions(s[1..], m)
  }

  /** Text free of `@` is copied by the reference rewrite. */
  lemma {:induction false} MentionsCopiesPlainText(a: string, b: string, m: string)
    requires forall i :: 0 <= i < |a| ==> a[i] != '@'
    ensures Mentions(a + b, m) == a + Mentions(b, m)
  {
    if a != [] {
      var ab := a + b;
      assert ab[0] == a[0] && LowerAscii(a[0]) != '@';
      assert !MatchesPrefix(ab, UserPattern, true) && !MatchesPrefix(ab, CustomerPattern, true) by {
        TokenLetters();
      }
      assert ab[1..] == a[1..] + b;
      MentionsCopiesPlainText(a[1..], b, m);
    } else {
      assert a + b == b;
    }
  }

  /** A token, of either kind and in any case, becomes `m` in the reference rewrite. */
  lemma MentionsReplacesToken(t: string, b: string, m: string)
    requires (|t| == |UserPattern| && MatchesPrefix(t, UserPattern, true))
          || (|t| == |CustomerPattern| && MatchesPrefix(t, CustomerPattern, true))
    ensures Mentions(t + b, m) == m + Mentions(b, m)
  {
    var tb := t + b;
    TokenLetters();
    if |t| == |UserPattern| && MatchesPrefix(t, UserPattern, true) {
      assert MatchesPrefix(tb, UserPattern, true) by {
        forall k | 0 <= k < |UserPattern| ensures SameChar(tb[k], UserPattern[k], true) {
          assert tb[k] == t[k];
        }
      }
      assert tb[|UserPattern|..] == b;
    } else {
      assert tb[1] == t[1] && SameChar(t[1], CustomerPattern[1], true);
      assert !MatchesPrefix(tb, UserPattern, true);
      assert MatchesPrefix(tb, CustomerPattern, true) by {
        forall k | 0 <= k < |CustomerPattern| ensures SameChar(tb[k], CustomerPattern[k], true) {
          assert tb[k] == t[k];
        }
      }
      assert tb[|CustomerPattern|..] == b;
    }
  }

  /** Only `@` itself folds to `@`, and no ASCII letter folds to `<`. */
  lemma FoldFacts(c: char)
    ensures LowerAscii(c) == '@' <==> c == '@'
    ensures LowerAscii(c) != '<' || c == '<'
  {
  }

  /** Where the `@user` pass leaves a run of lower-case letters, the input had
      that run: a mention starts with `<`, which no letter matches. */
  lemma {:induction false} FirstPassKeepsLetters(x: string, letters: string, m: string)
    requires m != [] && m[0] == '<'
    requires forall k :: 0 <= k < |letters| ==> 'a' <= letters[k] <= 'z'
    requires MatchesPrefix(ReplaceAll(x, UserPattern, m, true), letters, true)
    ensures MatchesPrefix(x, letters, true)
    decreases |letters|
  {
    if letters != [] && x != [] && !MatchesPrefix(x, UserPattern, true) {
      var p := ReplaceAll(x, UserPattern, m, true);
      var q := ReplaceAll(x[1..], UserPattern, m, true);
      assert p == [x[0]] + q;
      assert MatchesPrefix(q, letters[1..], true) by {
        forall k | 0 <= k < |letters[1..]| ensures SameChar(q[k], letters[1..][k], true) {
          assert q[k] == p[k + 1];
        }
      }
      FirstPassKeepsLetters(x[1..], letters[1..], m);
      forall k | 0 <= k < |letters| ensures SameChar(x[k], letters[k], true) {
        if k > 0 {
          assert x[k] == x[1..][k - 1];
        }
      }
    } else if letters != [] && x != [] {
      FoldFacts(letters[0]);
    }
  }

  /** The `@user` pass copies an `@customer` token as it stands. */
  lemma CustomerCopiedByFirstPass(s: string, m: string)
    requires MatchesPrefix(s, CustomerPattern, true)
    ensures ReplaceAll(s, UserPattern, m, true)
         == s[..|CustomerPattern|] + ReplaceAll(s[|CustomerPattern|..], UserPattern, m, true)
  {
    var n := |CustomerPattern|;
    TokenLetters();
    assert SameChar(s[1], CustomerPattern[1], true);
    assert !MatchesPrefix(s, UserPattern, true);
    var letters := s[1..n];
    forall i | 0 <= i < |letters| ensures !SameChar(letters[i], UserPattern[0], true) {
      assert letters[i] == s[i + 1];
      assert SameChar(s[i + 1], CustomerPattern[i + 1], true);
      FoldFacts(s[i + 1]);
    }
    assert s[1..] == letters + s[n..];
    ReplaceAllSkipsPlain(letters, s[n..], UserPattern, m, true);
    FoldFacts(s[0]);
    assert SameChar(s[0], CustomerPattern[0], true);
    assert s[..n] == [s[0]] + letters;
  }

  /** The two `/gi` passes agree with the one-pass rewrite on every text. */
  lemma {:induction false} PassesAreOnePass(s: string, owner: string)
    requires IsSnowflake(owner)
    ensures ReplaceAll(ReplaceAll(s, UserPattern, Mention(owner), true), CustomerPattern, Mention(owner), true)
         == Mentions(s, Mention(owner))
    decreases |s|
  {
    var m := Mention(owner);
    MentionShape(owner);
    if s == [] {
    } else if MatchesPrefix(s, UserPattern, true) {
      var rest := ReplaceAll(s[|UserPattern|..], UserPattern, m, true);
      MentionPassesThrough(owner, rest);
      PassesAreOnePass(s[|UserPattern|..], owner);
    } else if MatchesPrefix(s, CustomerPattern, true) {
      var n := |CustomerPattern|;
      var rest := ReplaceAll(s[n..], UserPattern, m, true);
      CustomerCopiedByFirstPass(s, m);
      ReplaceAllAtMatch(s[..n], rest, CustomerPattern, m, true);
      PassesAreOnePass(s[n..], owner);
    } else {
      var t := ReplaceAll(s[1..], UserPattern, m, true);
      var st := [s[0]] + t;
      assert ReplaceAll(s, UserPattern, m, true) == st;
      if MatchesPrefix(st, CustomerPattern, true) {
        TokenLetters();
        var letters := CustomerPattern[1..];
        assert MatchesPrefix(t, letters, true) by {
          forall k | 0 <= k < |letters| ensures SameChar(t[k], letters[k], true) {
            assert t[k] == st[k + 1];
          }
        }
        FirstPassKeepsLetters(s[1..], letters, m);
        forall k | 0 <= k < |CustomerPattern| ensures SameChar(s[k], CustomerPattern[k], true) {
          if k > 0 {
            assert s[k] == s[1..][k - 1];
          }
        }
        assert false;
      }
      assert st[1..] == t;
      PassesAreOnePass(s[1..], owner);
    }
  }

  /** `applyTransformsToMessageContent` rewrites every `@user` and `@customer`,
      in any case and wherever they stand, into the owner's mention, and keeps
      all other text. */
  lemma TransformRewritesMentions(s: string, owner: string)
    requires IsSnowflake(owner)
    ensures ApplyTransforms(Some(s), owner) == Mentions(s, Mention(owner))
  {
    PassesAreOnePass(s, owner);
  }

  /** `handleMessage`'s dispatch: the text a message becomes in the room, or
      nothing for an unsupported content type. */
  function MessageText(content: Content, owner: string): (r: Option<string>)
    ensures r.None? <==> content.OtherContent?
    ensures content.TextContent? ==> r == Some(ApplyTransforms(content.text, owner))
    ensures content.ImageContent? || content.FileContent? ==>
      r == Some(ApplyTransforms(content.text, owner) + "\n" + content.mediaUrl)
  {
    match content
    case TextContent(text) => Some(ApplyTransforms(text, owner))
    case ImageContent(text, url) => Some(ApplyTransforms(text, owner) + "\n" + url)
    case FileContent(text, url) => Some(ApplyTransforms(text, owner) + "\n" + url)
    case OtherContent(_) => None
  }

  // ---------------------------------------------------------------------------
  // The Zendesk webhook

  /** Both signature headers are non-empty strings and the body is non-empty. */
  predicate SignedShape(req: HttpRequest)
  {
    var sig := Header(req, SignatureHeader);
    var ts := Header(req, TimestampHeader);
    HeaderTruthy(sig) && HeaderTruthy(ts) && req.body != "" && sig.value.Single? && ts.value.Single?
  }

  /** The signature header equals the digest of timestamp and body. */
  predicate Authentic(req: HttpRequest, sign: string -> string)
  {
    SignedShape(req)
    && req.headers[SignatureHeader].text == sign(req.headers[TimestampHeader].text + req.body)
  }

  /** The event's requester is a Discord user of the bridge. */
  predicate FromDiscordUser(w: World)
  {
    w.zendeskEvent.Some? && w.zendeskEvent.value.requesterId.Some?
    && StartsWith(w.zendeskEvent.value.requesterId.value, Conversations.ExternalIdPrefix)
  }

  /** A room the Zendesk notices can go to. */
  predicate NoticeRoom(f: Fetch)
  {
    f.Fetched? && f.channel.sendable && f.channel.textBased && !f.channel.dmBased
  }

  /** A conversation of the requester whose bound room exists and takes notices. */
  predicate Qualifies(c: Conversations.Conversation, fetch: ChannelId -> Fetch)
  {
    !c.isDefault && Conversations.BoundChannel(c).Some? && NoticeRoom(fetch(Conversations.BoundChannel(c).value))
  }

  /** The last qualifying conversation, searched from the end of the list. */
  function LastQualifying(convos: seq<Conversations.Conversation>, fetch: ChannelId -> Fetch): (r: Option<nat>)
    ensures r.None? <==> forall i :: 0 <= i < |convos| ==> !Qualifies(convos[i], fetch)
    ensures r.Some? ==> r.value < |convos| && Qualifies(convos[r.value], fetch)
    ensures r.Some? ==> forall j :: r.value < j < |convos| ==> !Qualifies(convos[j], fetch)
  {
    if convos == [] then None
    else if Qualifies(convos[|convos| - 1], fetch) then Some(|convos| - 1)
    else LastQualifying(convos[..|convos| - 1], fetch)
  }

  /** The room and conversation the Zendesk event is about. */
  function Target(convos: seq<Conversations.Conversation>, fetch: ChannelId -> Fetch)
    : Option<(Channel, Conversations.Conversation)>
  {
    match LastQualifying(convos, fetch)
    case None => None
    case Some(i) => Some((fetch(Conversations.BoundChannel(convos[i]).value).channel, convos[i]))
  }

  /** The selection loop of `handleZendeskWebhook`: each qualifying
      conversation overwrites the previous choice, so the last one wins. */
  method SelectChannel(convos: seq<Conversations.Conversation>, fetch: ChannelId -> Fetch)
    returns (selected: Option<(Channel, Conversations.Conversation)>)
    ensures selected == Target(convos, fetch)
    ensures selected.None? <==> forall i :: 0 <= i < |convos| ==> !Qualifies(convos[i], fetch)
  {
    selected := None;
    var i := 0;
    while i < |convos|
      invariant 0 <= i <= |convos|
      invariant selected == Target(convos[..i], fetch)
    {
      var convo := convos[i];
      var channelId := Conversations.BoundChannel(convo);
      if !convo.isDefault && channelId.Some? {
        var f := fetch(channelId.value);
        if f.Fetched? && f.channel.sendable && f.channel.textBased && !f.channel.dmBased {
          selected := Some((f.channel, convo));
        }
      }
      assert convos[..i + 1][..i] == convos[..i];
      i := i + 1;
    }
    assert convos[..i] == convos;
  }

  /** `metadata.discordOwner` when it is a string. */
  function OwnerOf(c: Conversations.Conversation): Option<string>
  {
    AsString(Lookup(c.metadata, "discordOwner"))
  }

  /** What `handleZendeskWebhook` does: how it ends, the messages it sends in
      order, and the deletion it asks the registry for. */
  datatype ZendeskRun = ZendeskRun(outcome: Outcome, effects: seq<ChatEffect>, deletion: Option<PendingDeletion>)

  /** The run of `handleZendeskWebhook` for a request, as a value. */
  function ZendeskResult(req: HttpRequest, w: World): ZendeskRun
  {
    if !SignedShape(req) then ZendeskRun(Threw(400), [], None)
    else if !Authentic(req, w.sign) then ZendeskRun(Threw(401), [], None)
    else if w.zendeskEvent.None? || w.zendeskEvent.value.requesterId.None? then ZendeskRun(Crashed, [], None)
    else if !FromDiscordUser(w) then ZendeskRun(Threw(406), [], None)
    else if w.listing.None? then ZendeskRun(Crashed, [], None)
    else match Target(w.listing.value, w.fetch)
      case None => ZendeskRun(Threw(406), [], None)
      case Some((room, convo)) =>
        var kind := w.zendeskEvent.value.kind;
        if kind == AssignedEvent then ZendeskRun(Done, [Notify(room.id, SupportRequestAssigned)], None)
        else if kind != SolvedEvent then ZendeskRun(Done, [], None)
        else
          var resolved := [Notify(room.id, SupportRequestResolved)];
          var deletion := PendingDeletion(room.id, convo.id);
          match OwnerOf(convo)
          case None => ZendeskRun(Done, resolved, Some(deletion))
          case Some(owner) =>
            if w.editSucceeds then ZendeskRun(Done, resolved + [LockOwnerOut(room.id, owner)], Some(deletion))
            else ZendeskRun(Crashed, resolved, None)
  }

  /** `handleZendeskWebhook`. The checks run in order: signature shape (400),
      signature value (401), body, requester prefix (406), listing, a room to
      notify (406). Then an assignment is announced once; a resolution is
      announced, the owner locked out, and the room's deletion scheduled. */
  method HandleZendeskWebhook(req: HttpRequest, w: World)
    returns (outcome: Outcome, effects: seq<ChatEffect>, deletion: Option<PendingDeletion>)
    ensures ZendeskRun(outcome, effects, deletion) == ZendeskResult(req, w)
    ensures outcome == Threw(400) <==> !SignedShape(req)
    ensures outcome == Threw(401) <==> SignedShape(req) && !Authentic(req, w.sign)
    ensures Authentic(req, w.sign) && (w.zendeskEvent.None? || w.zendeskEvent.value.requesterId.None?)
      ==> outcome == Crashed
    ensures Authentic(req, w.sign) && w.zendeskEvent.Some? && w.zendeskEvent.value.requesterId.Some? && !FromDiscordUser(w)
      ==> outcome == Threw(406)
    ensures Authentic(req, w.sign) && FromDiscordUser(w) && w.listing.None? ==> outcome == Crashed
    ensures Authentic(req, w.sign) && FromDiscordUser(w) && w.listing.Some? && Target(w.listing.value, w.fetch).None?
      ==> outcome == Threw(406)
    ensures effects != [] || deletion.Some? || outcome == Done ==>
      Authentic(req, w.sign) && FromDiscordUser(w) && w.listing.Some? && Target(w.listing.value, w.fetch).Some?
    ensures outcome != Done && outcome != Crashed ==> effects == [] && deletion.None?
    ensures Authentic(req, w.sign) && FromDiscordUser(w) && w.listing.Some? && Target(w.listing.value, w.fetch).Some? ==>
      var (room, convo) := Target(w.listing.value, w.fetch).value;
      var kind := w.zendeskEvent.value.kind;
      && (kind == AssignedEvent ==> outcome == Done && effects == [Notify(room.id, SupportRequestAssigned)] && deletion.None?)
      && (kind == SolvedEvent ==>
            && |effects| >= 1 && effects[0] == Notify(room.id, SupportRequestResolved)
            && effects[1..] == (if OwnerOf(convo).Some? && w.editSucceeds then [LockOwnerOut(room.id, OwnerOf(convo).value)] else [])
            && (outcome == Done <==> OwnerOf(convo).None? || w.editSucceeds)
            && (outcome == Done || outcome == Crashed)
            && (deletion.Some? <==> outcome == Done)
            && (deletion.Some? ==> deletion.value == PendingDeletion(room.id, convo.id)))
      && (kind != AssignedEvent && kind != SolvedEvent ==> outcome == Done && effects == [] && deletion.None?)
  {
    effects, deletion := [], None;
    if !SignedShape(req) {
      return Threw(400), [], None;
    }
    var signature := req.headers[SignatureHeader].text;
    var timestamp := req.headers[TimestampHeader].text;
    if signature != w.sign(timestamp + req.body) {
      return Threw(401), [], None;
    }
    if w.zendeskEvent.None? || w.zendeskEvent.value.requesterId.None? {
      return Crashed, [], None;
    }
    var data := w.zendeskEvent.value;
    if !StartsWith(data.requesterId.value, Conversations.ExternalIdPrefix) {
      return Threw(406), [], None;
    }
    if w.listing.None? {
      return Crashed, [], None;
    }
    var selected := SelectChannel(w.listing.value, w.fetch);
    if selected.None? {
      return Threw(406), [], None;
    }
    var (room, convo) := selected.value;
    if data.kind == AssignedEvent {
      return Done, [Notify(room.id, SupportRequestAssigned)], None;
    }
    if data.kind != SolvedEvent {
      return Done, [], None;
    }
    effects := [Notify(room.id, SupportRequestResolved)];
    var owner := OwnerOf(convo);
    if owner.Some? {
      if !w.editSucceeds {
        return Crashed, effects, None;
      }
      effects := effects + [LockOwnerOut(room.id, owner.value)];
    }
    return Done, effects, Some(PendingDeletion(room.id, convo.id));
  }

  // ---------------------------------------------------------------------------
  // The Sunshine Conversations webhook

  /** A room agent messages may be relayed to: a guild text room, not a
      thread, voice room or direct message. */
  predicate RelayRoom(c: Channel)
  {
    c.sendable && c.textBased && !c.thread && !c.voiceBased && !c.dmBased
  }

  /** A message written by an agent and not marked hidden. */
  predicate FromAgent(m: SunshineMessage)
  {
    m.authorType == BusinessAuthor && !Truthy(Lookup(m.metadata, "discordHidden"))
  }

  /** What one event of the batch does: skipped, the batch aborted with an
      outcome, or delivered to a room with the text sent (none for an
      unsupported content type). */
  datatype Verdict = Skip | Reject(outcome: Outcome) | Deliver(channel: ChannelId, text: Option<string>)

  /** The checks of the batch loop and of `handleMessage` for one event. */
  function EventVerdict(e: SunshineEvent, w: World): (v: Verdict)
    ensures v.Skip? <==> e.kind != MessageEvent
    ensures v.Reject? ==> v.outcome != Done
  {
    if e.kind != MessageEvent then Skip
    else match Conversations.BoundChannel(e.conversation)
      case None => Reject(Threw(406))
      case Some(id) =>
        match w.fetch(id)
        case FetchRejected => Reject(Crashed)
        case FetchedNull => Reject(Threw(406))
        case Fetched(room) =>
          if !RelayRoom(room) then Reject(Threw(406))
          else if e.message.authorType != BusinessAuthor then Reject(Threw(406))
          else if Truthy(Lookup(e.message.metadata, "discordHidden")) then Reject(Threw(406))
          else match Topic.ParseTopic(room.topic)
            case NotBridged => Reject(Threw(400))
            case Malformed => Reject(Crashed)
            case Bound(p) =>
              var text := MessageText(e.message.content, p.owner);
              if text.Some? && !w.sendSucceeds(room.id, text.value) then Reject(Crashed)
              else Deliver(room.id, text)
  }

  /** Only agents' visible messages get through; anything else ends the batch. */
  lemma OnlyAgentMessagesPass(e: SunshineEvent, w: World)
    requires e.kind == MessageEvent && !FromAgent(e.message)
    ensures EventVerdict(e, w).Reject?
    ensures Conversations.BoundChannel(e.conversation).Some?
      && w.fetch(Conversations.BoundChannel(e.conversation).value).Fetched?
      && RelayRoom(w.fetch(Conversations.BoundChannel(e.conversation).value).channel)
      ==> EventVerdict(e, w) == Reject(Threw(406))
  {
  }

  /** A conversation without a string `discordChannel` answers 406. */
  lemma UnboundConversationRejected(e: SunshineEvent, w: World)
    requires e.kind == MessageEvent && Conversations.BoundChannel(e.conversation).None?
    ensures EventVerdict(e, w) == Reject(Threw(406))
  {
  }

  /** A bound conversation whose room cannot be fetched ends the batch with
      500, and one whose room is missing or unusable with 406. */
  lemma UnusableRoomRejected(e: SunshineEvent, w: World, id: ChannelId)
    requires e.kind == MessageEvent && Conversations.BoundChannel(e.conversation) == Some(id)
    ensures w.fetch(id).FetchRejected? ==> EventVerdict(e, w) == Reject(Crashed)
    ensures w.fetch(id).FetchedNull? || (w.fetch(id).Fetched? && !RelayRoom(w.fetch(id).channel))
      ==> EventVerdict(e, w) == Reject(Threw(406))
  {
  }

  /** A delivered event is an agent's visible message, sent to the relay room
      its conversation is bound to, as the dispatch renders it for the owner the
      room's topic names. */
  lemma DeliveryConditions(e: SunshineEvent, w: World)
    requires EventVerdict(e, w).Deliver?
    ensures FromAgent(e.message) && Conversations.BoundChannel(e.conversation).Some?
    ensures var f := w.fetch(Conversations.BoundChannel(e.conversation).value);
      && f.Fetched? && RelayRoom(f.channel) && EventVerdict(e, w).channel == f.channel.id
      && Topic.ParseTopic(f.channel.topic).Bound?
      && EventVerdict(e, w).text == MessageText(e.message.content, Topic.ParseTopic(f.channel.topic).payload.owner)
  {
  }

  /** 400 is reserved for a usable room whose topic carries no binding. */
  lemma UnboundTopicRejected(e: SunshineEvent, w: World)
    requires EventVerdict(e, w) == Reject(Threw(400))
    ensures Conversations.BoundChannel(e.conversation).Some?
    ensures var f := w.fetch(Conversations.BoundChannel(e.conversation).value);
      f.Fetched? && RelayRoom(f.channel) && FromAgent(e.message) && Topic.ParseTopic(f.channel.topic) == Topic.NotBridged
  {
  }

  /** The verdicts of a batch, event by event. */
  function Verdicts(events: seq<SunshineEvent>, w: World): (vs: seq<Verdict>)
    ensures |vs| == |events|
  {
    seq(|events|, i requires 0 <= i < |events| => EventVerdict(events[i], w))
  }

  /** The message one verdict sends, if any. */
  function Message(v: Verdict): seq<ChatEffect>
  {
    if v.Deliver? && v.text.Some? then [Relay(v.channel, v.text.value)] else []
  }

  /** The messages the delivered events of a batch send, in batch order. */
  function Relayed(vs: seq<Verdict>): seq<ChatEffect>
  {
    if vs == [] then [] else Relayed(vs[..|vs| - 1]) + Message(vs[|vs| - 1])
  }

  /** Extending a batch prefix by one event appends that event's message. */
  lemma RelayedStep(vs: seq<Verdict>, i: nat)
    requires i < |vs|
    ensures Relayed(vs[..i + 1]) == Relayed(vs[..i]) + Message(vs[i])
  {
    assert vs[..i + 1][..i] == vs[..i];
    assert vs[..i + 1][i] == vs[i];
  }

  /** Every relayed message is the text of a delivered verdict, sent to its room. */
  lemma {:induction false} RelayedFromDeliveries(vs: seq<Verdict>)
    ensures forall e :: e in Relayed(vs) ==>
      e.Relay? && exists i :: 0 <= i < |vs| && vs[i] == Deliver(e.channel, Some(e.text))
  {
    if vs != [] {
      var init := vs[..|vs| - 1];
      RelayedFromDeliveries(init);
      forall e | e in Relayed(vs)
        ensures e.Relay? && exists i :: 0 <= i < |vs| && vs[i] == Deliver(e.channel, Some(e.text))
      {
        if e in Relayed(init) {
          var i :| 0 <= i < |init| && init[i] == Deliver(e.channel, Some(e.text));
          assert vs[i] == init[i];
        } else {
          assert vs[|vs| - 1] == Deliver(e.channel, Some(e.text));
        }
      }
    }
  }

  /** Every message the bridge relays comes from an agent's visible message,
      sent to the room its conversation is bound to. */
  lemma RelayedOnlyFromAgents(events: seq<SunshineEvent>, w: World)
    ensures forall e :: e in Relayed(Verdicts(events, w)) ==>
      e.Relay? && exists i :: 0 <= i < |events| && EventVerdict(events[i], w) == Deliver(e.channel, Some(e.text))
                             && FromAgent(events[i].message)
  {
    var vs := Verdicts(events, w);
    RelayedFromDeliveries(vs);
    forall e | e in Relayed(vs)
      ensures e.Relay? && exists i :: 0 <= i < |events| && EventVerdict(events[i], w) == Deliver(e.channel, Some(e.text))
                                    && FromAgent(events[i].message)
    {
      var i :| 0 <= i < |vs| && vs[i] == Deliver(e.channel, Some(e.text));
      DeliveryConditions(events[i], w);
    }
  }

  /** The first rejected event of a batch, if any. */
  function FirstRejected(vs: seq<Verdict>): (r: Option<nat>)
    ensures r.Some? ==> r.value < |vs| && vs[r.value].Reject?
    ensures r.Some? ==> forall j :: 0 <= j < r.value ==> !vs[j].Reject?
    ensures r.None? ==> forall j :: 0 <= j < |vs| ==> !vs[j].Reject?
  {
    if vs == [] then None
    else match FirstRejected(vs[..|vs| - 1])
      case Some(k) => Some(k)
      case None => if vs[|vs| - 1].Reject? then Some(|vs| - 1) else None
  }

  /** Events after the first rejection do not change which one it is. */
  lemma {:induction false} FirstRejectedOfPrefix(vs: seq<Verdict>, n: nat)
    requires n <= |vs| && FirstRejected(vs[..n]).Some?
    ensures FirstRejected(vs) == FirstRejected(vs[..n])
    decreases |vs| - n
  {
    if n < |vs| {
      assert vs[..n + 1][..n] == vs[..n];
      FirstRejectedOfPrefix(vs, n + 1);
    } else {
      assert vs[..n] == vs;
    }
  }

  /** What `handleConversationsWebhook` ends with and the messages it sends. */
  function ConversationsResult(req: HttpRequest, w: World): (Outcome, seq<ChatEffect>)
  {
    if Header(req, ApiKeyHeader) != Some(Single(w.conversationsSecret)) then (Threw(401), [])
    else if w.sunshineEvents.None? then (Crashed, [])
    else
      var vs := Verdicts(w.sunshineEvents.value, w);
      match FirstRejected(vs)
      case None => (Done, Relayed(vs))
      case Some(k) => (vs[k].outcome, Relayed(vs[..k]))
  }

  /** `handleConversationsWebhook`: the API key is checked before the body is
      read; events are taken in order, and the first rejected event ends the
      batch with its outcome, after the earlier events' messages were sent. */
  method HandleConversationsWebhook(req: HttpRequest, w: World) returns (outcome: Outcome, effects: seq<ChatEffect>)
    ensures (outcome, effects) == ConversationsResult(req, w)
    ensures Header(req, ApiKeyHeader) != Some(Single(w.conversationsSecret)) ==> outcome == Threw(401) && effects == []
    ensures Header(req, ApiKeyHeader) == Some(Single(w.conversationsSecret)) && w.sunshineEvents.None?
      ==> outcome == Crashed && effects == []
    ensures Header(req, ApiKeyHeader) == Some(Single(w.conversationsSecret)) && w.sunshineEvents.Some? ==>
      var vs := Verdicts(w.sunshineEvents.value, w);
      match FirstRejected(vs)
      case None => outcome == Done && effects == Relayed(vs)
      case Some(k) => outcome == vs[k].outcome && effects == Relayed(vs[..k])
  {
    if Header(req, ApiKeyHeader) != Some(Single(w.conversationsSecret)) {
      return Threw(401), [];
    }
    if w.sunshineEvents.None? {
      return Crashed, [];
    }
    var events := w.sunshineEvents.value;
    var vs := Verdicts(events, w);
    effects := [];
    var i := 0;
    while i < |vs|
      invariant 0 <= i <= |vs|
      invariant FirstRejected(vs[..i]).None?
      invariant effects == Relayed(vs[..i])
    {
      var v := EventVerdict(events[i], w);
      assert v == vs[i];
      assert vs[..i + 1][..i] == vs[..i];
      if v.Reject? {
        FirstRejectedOfPrefix(vs, i + 1);
        return v.outcome, effects;
      }
      RelayedStep(vs, i);
      effects := effects + Message(v);
      i := i + 1;
    }
    assert vs[..i] == vs;
    return Done, effects;
  }

  // ---------------------------------------------------------------------------
  // The server

  /** The status the server answers: 200 on return, a thrown number as is, 500 otherwise. */
  function StatusOf(o: Outcome): (status: int)
    ensures o.Threw? ==> status == o.status
    ensures o.Done? ==> status == 200
    ensures o.Crashed? ==> status == 500
  {
    match o
    case Done => 200
    case Threw(n) => n
    case Crashed => 500
  }

  /** The request handler of the server: only POST is handled, a URL containing
      `/zd` goes to the Zendesk handler and any other to the conversations
      handler; a deletion the Zendesk handler asks for is recorded in the
      registry. */
  method Serve(req: HttpRequest, w: World, registry: DeleteRegistry.ChannelDeleteTimeouts)
    returns (outcome: Outcome, status: int, effects: seq<ChatEffect>, scheduled: Option<PendingDeletion>)
    requires registry.Valid()
    modifies registry
    ensures registry.Valid()
    ensures status == StatusOf(outcome)
    ensures req.verb != "POST" ==> outcome == Done && effects == [] && scheduled.None?
    ensures req.verb == "POST" && Contains(req.url, ZendeskPath) ==>
      ZendeskRun(outcome, effects, scheduled) == ZendeskResult(req, w)
    ensures req.verb == "POST" && !Contains(req.url, ZendeskPath) ==>
      (outcome, effects) == ConversationsResult(req, w) && scheduled.None?
    ensures req.verb == "POST" && Contains(req.url, ZendeskPath) && !SignedShape(req) ==> status == 400
    ensures req.verb == "POST" && Contains(req.url, ZendeskPath) && SignedShape(req) && !Authentic(req, w.sign)
      ==> status == 401
    ensures (req.verb == "POST" && !Contains(req.url, ZendeskPath)
             && Header(req, ApiKeyHeader) != Some(Single(w.conversationsSecret)))
      ==> status == 401 && effects == []
    ensures scheduled.Some? ==>
      req.verb == "POST" && Contains(req.url, ZendeskPath) && outcome == Done
      && w.zendeskEvent.Some? && w.zendeskEvent.value.kind == SolvedEvent
    ensures scheduled.None? ==> registry.Model() == old(registry.Model())
    ensures scheduled.Some? ==>
      registry.Model() == DeleteRegistry.Scheduled(old(registry.Model()), scheduled.value.channel, scheduled.value.conversation)
  {
    effects, scheduled := [], None;
    outcome := Done;
    if req.verb == "POST" {
      if Contains(req.url, ZendeskPath) {
        var deletion;
        outcome, effects, deletion := HandleZendeskWebhook(req, w);
        if deletion.Some? {
          var _ := registry.Schedule(deletion.value.channel, deletion.value.conversation);
          scheduled := deletion;
        }
      } else {
        outcome, effects := HandleConversationsWebhook(req, w);
      }
    }
    status := StatusOf(outcome);
  }
}
