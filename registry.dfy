/** The pending-deletion registry: `ChannelDeleteTimeouts` of
    src/commands/webhookcommand.ts, written when a ticket is solved
    (src/webhooks.ts), emptied by the timer when it fires and by the
    cancel-deletion button. Timers are not real: a `Timer` is the handle of a
    `setTimeout` callback, `armed` the callbacks the runtime will still run. */
module DeleteRegistry {
  import opened Common
  import Conversations

  type ChannelId = string

  /** Delay between a ticket being solved and its channel being deleted, in ms. */
  const DeletionDelayMs: nat := 60_000

  /** A scheduled deletion: its handle, the channel and the conversation it removes. */
  datatype Timer = Timer(handle: nat, channel: ChannelId, conversation: string)

  /** The registry map, the timers still armed, and the next fresh handle. */
  datatype State = State(entries: map<ChannelId, Timer>, armed: set<Timer>, nextHandle: nat)

  const Empty: State := State(map[], {}, 0)

  /** Every armed timer is the registry entry of its own channel, and the
      entries are exactly the armed timers. */
  ghost predicate Consistent(s: State)
  {
    && (forall ch :: ch in s.entries ==> s.entries[ch].channel == ch)
    && (forall t :: t in s.armed <==> t.channel in s.entries && s.entries[t.channel] == t)
    && (forall t :: t in s.armed ==> t.handle < s.nextHandle)
  }

  /** The channel has a timer armed. */
  ghost predicate Pending(s: State, ch: ChannelId)
  {
    exists t :: t in s.armed && t.channel == ch
  }

  /** The solve handler as written: `set` overwrites the entry, and the timer
      the entry held stays armed. */
  function ScheduledAsWritten(s: State, ch: ChannelId, conversation: string): (r: State)
    ensures r.entries == s.entries[ch := Timer(s.nextHandle, ch, conversation)]
    ensures s.armed <= r.armed
  {
    var t := Timer(s.nextHandle, ch, conversation);
    State(s.entries[ch := t], s.armed + {t}, s.nextHandle + 1)
  }

  /** The solve handler as intended: a second resolution replaces the pending
      deletion, so the timer the entry held is cleared first. */
  function Scheduled(s: State, ch: ChannelId, conversation: string): State
  {
    var t := Timer(s.nextHandle, ch, conversation);
    var kept := if ch in s.entries then s.armed - {s.entries[ch]} else s.armed;
    State(s.entries[ch := t], kept + {t}, s.nextHandle + 1)
  }

  /** The cancel button: clear and forget the channel's entry, if any. */
  function Cancelled(s: State, ch: ChannelId): (r: State)
    ensures ch !in r.entries
    ensures forall other :: other != ch ==> (other in r.entries <==> other in s.entries)
    ensures forall other :: other != ch && other in s.entries ==> r.entries[other] == s.entries[other]
    ensures ch !in s.entries ==> r == s
  {
    if ch in s.entries then State(s.entries - {ch}, s.armed - {s.entries[ch]}, s.nextHandle) else s
  }

  /** A timer firing: its callback deletes the map key of its channel, whatever
      timer the key holds, and the timer is spent. */
  function Fired(s: State, t: Timer): (r: State)
    requires t in s.armed
    ensures t.channel !in r.entries && t !in r.armed
  {
    State(s.entries - {t.channel}, s.armed - {t}, s.nextHandle)
  }

  // ---------------------------------------------------------------------------
  // Properties of the intended registry

  lemma ScheduledKeepsConsistent(s: State, ch: ChannelId, conversation: string)
    requires Consistent(s)
    ensures Consistent(Scheduled(s, ch, conversation))
    ensures var r := Scheduled(s, ch, conversation);
      forall t :: t in r.armed && t.channel == ch ==> t == Timer(s.nextHandle, ch, conversation)
  {
  }

  lemma CancelledKeepsConsistent(s: State, ch: ChannelId)
    requires Consistent(s)
    ensures Consistent(Cancelled(s, ch))
  {
  }

  lemma FiredKeepsConsistent(s: State, t: Timer)
    requires Consistent(s) && t in s.armed
    ensures Consistent(Fired(s, t))
  {
  }

  /** After a cancel no deletion of that channel is left to fire. */
  lemma CancelStopsDeletion(s: State, ch: ChannelId)
    requires Consistent(s)
    ensures !Pending(Cancelled(s, ch), ch)
  {
  }

  /** Cancelling twice is cancelling once. */
  lemma CancelIdempotent(s: State, ch: ChannelId)
    ensures Cancelled(Cancelled(s, ch), ch) == Cancelled(s, ch)
  {
  }

  /** Fire and cancel race on one channel: whichever comes first takes the
      entry, the other finds nothing. A cancel after the fire changes nothing,
      and after a cancel the timer can no longer fire. */
  lemma FireAndCancelExclusive(s: State, t: Timer)
    requires Consistent(s) && t in s.armed
    ensures Cancelled(Fired(s, t), t.channel) == Fired(s, t)
    ensures t !in Cancelled(s, t.channel).armed
  {
  }

  /** Solving the same ticket twice and then cancelling leaves nothing armed. */
  lemma RepeatedSolveThenCancel(s: State, ch: ChannelId, conversation: string)
    requires Consistent(s)
    ensures !Pending(Cancelled(Scheduled(Scheduled(s, ch, conversation), ch, conversation), ch), ch)
  {
    ScheduledKeepsConsistent(s, ch, conversation);
    ScheduledKeepsConsistent(Scheduled(s, ch, conversation), ch, conversation);
    CancelStopsDeletion(Scheduled(Scheduled(s, ch, conversation), ch, conversation), ch);
  }

  // ---------------------------------------------------------------------------
  // The registry as written

  /** As written, a second `ticket:solved` for a channel followed by a press of
      the cancel button still leaves a deletion armed for that channel. */
  lemma CancelAfterRepeatedSolveLeavesTimer(ch: ChannelId, conversation: string)
    ensures var twice := ScheduledAsWritten(ScheduledAsWritten(Empty, ch, conversation), ch, conversation);
      && Pending(Cancelled(twice, ch), ch)
      && !Consistent(twice)
  {
    var once := ScheduledAsWritten(Empty, ch, conversation);
    var twice := ScheduledAsWritten(once, ch, conversation);
    var first := Timer(0, ch, conversation);
    assert first in once.armed;
    assert first in Cancelled(twice, ch).armed;
    assert twice.entries[ch] != first;
  }

  // ---------------------------------------------------------------------------
  // The registry object

  /** What the channel's deletion did: the channel, then the conversation. */
  datatype Deletion = ChannelDeleted(channel: ChannelId) | ConversationDeleted(conversation: string)

  /** What the cancel button handler did: threw before anything else, replied
      with the notice, or threw because that reply was rejected. */
  datatype ButtonOutcome = MissingGuild | RepliedDeleteCancelled | ReplyRejected

  class ChannelDeleteTimeouts {
    var entries: map<ChannelId, Timer>
    var armed: set<Timer>
    var nextHandle: nat

    function Model(): State
      reads this
    {
      State(entries, armed, nextHandle)
    }

    ghost predicate Valid()
      reads this
    {
      Consistent(Model())
    }

    constructor ()
      ensures Valid() && Model() == Empty
    {
      entries, armed, nextHandle := map[], {}, 0;
    }

    /** Record the deletion of `ch` after `DeletionDelayMs`, replacing any pending one. */
    method Schedule(ch: ChannelId, conversation: string) returns (t: Timer)
      requires Valid()
      modifies this
      ensures Valid()
      ensures Model() == Scheduled(old(Model()), ch, conversation)
      ensures t == Timer(old(nextHandle), ch, conversation) && entries[ch] == t
      ensures forall u :: u in armed && u.channel == ch ==> u == t
    {
      ScheduledKeepsConsistent(Model(), ch, conversation);
      t := Timer(nextHandle, ch, conversation);
      if ch in entries {
        armed := armed - {entries[ch]};
      }
      entries := entries[ch := t];
      armed := armed + {t};
      nextHandle := nextHandle + 1;
    }

    /** The timer callback: take the entry, delete the channel, and only if that
        worked delete the conversation. */
    method Fire(t: Timer, channelDeleted: bool, conversationReply: Conversations.Reply)
      returns (done: seq<Deletion>)
      requires Valid() && t in armed
      modifies this
      ensures Valid()
      ensures Model() == Fired(old(Model()), t)
      ensures !channelDeleted ==> done == []
      ensures channelDeleted ==> 1 <= |done| <= 2 && done[0] == ChannelDeleted(t.channel)
      ensures channelDeleted ==>
        (|done| == 2 <==> Conversations.Accepted(conversationReply))
      ensures |done| == 2 ==> done[1] == ConversationDeleted(t.conversation)
    {
      FiredKeepsConsistent(Model(), t);
      entries := entries - {t.channel};
      armed := armed - {t};
      done := [];
      if !channelDeleted {
        return;
      }
      done := [ChannelDeleted(t.channel)];
      var deleted := Conversations.DeleteConversation(conversationReply);
      if deleted.Ok? {
        done := done + [ConversationDeleted(t.conversation)];
      }
    }

    /** The cancel-deletion button: outside a guild it throws before touching
        the registry; otherwise it clears any entry and then awaits its reply,
        whose rejection makes the handler throw with the entry already gone. */
    method CancelButton(inGuild: bool, ch: ChannelId, replySucceeds: bool) returns (outcome: ButtonOutcome)
      requires Valid()
      modifies this
      ensures Valid()
      ensures !inGuild ==> outcome == MissingGuild && Model() == old(Model())
      ensures inGuild ==> Model() == Cancelled(old(Model()), ch)
      ensures inGuild && replySucceeds ==> outcome == RepliedDeleteCancelled
      ensures inGuild && !replySucceeds ==> outcome == ReplyRejected
    {
      if !inGuild {
        return MissingGuild;
      }
      CancelledKeepsConsistent(Model(), ch);
      if ch in entries {
        armed := armed - {entries[ch]};
        entries := entries - {ch};
      }
      if !replySucceeds {
        return ReplyRejected;
      }
      return RepliedDeleteCancelled;
    }
  }
}
