/** The ticket bot: its configuration record, the guild's channel directory,
    the outbox of replies and sends, and the channel deletions scheduled by
    the close button. Each handler runs to completion before the next one
    starts. */
module Bot {
  import opened Platform
  import opened Access
  import opened Directory
  import opened Mentions

  /** The channel the open-ticket button asks the platform to create. */
  function TicketChannel(id: Id, guildId: Id, requester: Member, cfg: Config): (ch: Channel)
    ensures IsTicketOf(ch, requester.id, cfg.categoryId)
  {
    Channel(id, "ticket-" + requester.username, Some(requester.id), Some(cfg.categoryId),
            TicketOverwrites(guildId, requester.id, cfg.allowedRoles), true)
  }

  /** The requester the close button reads back from a channel's topic. A
      missing or empty topic is falsy, so the member lookup runs without an
      id and the handler faults: there is no requester. */
  function RequesterOf(ch: Channel): (r: Option<string>)
    ensures r.Some? <==> ch.topic.Some? && ch.topic.value != ""
    ensures r.Some? ==> ch.topic == Some(r.value)
  {
    if ch.topic.Some? && ch.topic.value != "" then ch.topic else None
  }

  /** What the close button sends, in order, once the closer passed the
      staff test, for a channel whose topic is `requester`: a direct message
      if the requester is still a member, a log entry if the log channel
      resolves to a text channel, and always, last, the closing reply. */
  function CloseNotices(closer: Id, requester: string, isMember: bool, log: Option<Channel>, channelName: string): (fx: seq<Effect>)
    ensures |fx| == 1 + (if isMember then 1 else 0) + (if log.Some? && log.value.textBased then 1 else 0)
    ensures fx[|fx| - 1] == Reply(ClosingTicket, true)
    ensures isMember <==> Direct(requester, TicketClosed) in fx
    ensures isMember ==> fx[0] == Direct(requester, TicketClosed)
    ensures log.Some? && log.value.textBased ==> fx[|fx| - 2] == Send(log.value.id, CloseEntry(closer, requester, channelName))
    ensures (exists i :: 0 <= i < |fx| && fx[i].Send?) <==> log.Some? && log.value.textBased
  {
    (if isMember then [Direct(requester, TicketClosed)] else [])
    + (if log.Some? && log.value.textBased then [Send(log.value.id, CloseEntry(closer, requester, channelName))] else [])
    + [Reply(ClosingTicket, true)]
  }

  /** Identity round trip: closing a channel the open-ticket button created
      reads the requester back from its topic, sends the direct message to
      that requester when it is a member, and logs the closer, that requester
      and the channel's name. */
  lemma CloseOfOpenedTicket(id: Id, guildId: Id, requester: Member, cfg: Config, closer: Id, members: set<Id>, log: Option<Channel>)
    requires requester.id != "" && log.Some? && log.value.textBased
    ensures RequesterOf(TicketChannel(id, guildId, requester, cfg)) == Some(requester.id)
    ensures var ch := TicketChannel(id, guildId, requester, cfg);
            var fx := CloseNotices(closer, RequesterOf(ch).value, RequesterOf(ch).value in members, log, ch.name);
            && Send(log.value.id, CloseEntry(closer, requester.id, "ticket-" + requester.username)) in fx
            && (requester.id in members <==> Direct(requester.id, TicketClosed) in fx)
  {
  }

  /** What the rate command sends: a rater without the rating role gets only
      the refusal; otherwise the thanks, then the rating entry if the
      feedback channel resolves to a text channel. The score is not checked
      against any range. */
  function RateNotices(cfg: Config, chs: seq<Channel>, rater: Member, score: int, feedback: string): (fx: seq<Effect>)
    ensures cfg.ratingAllowedRoleId !in rater.roles ==> fx == [Reply(NotAllowedToRate, true)]
    ensures cfg.ratingAllowedRoleId in rater.roles ==>
              && |fx| == 1 + (if Lookup(chs, cfg.feedbackChannelId).Some? && Lookup(chs, cfg.feedbackChannelId).value.textBased then 1 else 0)
              && fx[0] == Reply(ThanksForRating, true)
    ensures forall i :: 0 <= i < |fx| && fx[i].Send? ==>
              cfg.ratingAllowedRoleId in rater.roles && fx[i] == Send(cfg.feedbackChannelId, RatingEntry(rater.id, score, feedback))
    ensures cfg.ratingAllowedRoleId in rater.roles && Lookup(chs, cfg.feedbackChannelId).Some? && Lookup(chs, cfg.feedbackChannelId).value.textBased
            ==> fx[|fx| - 1] == Send(cfg.feedbackChannelId, RatingEntry(rater.id, score, feedback))
    ensures (exists i :: 0 <= i < |fx| && fx[i].Send?) <==>
              cfg.ratingAllowedRoleId in rater.roles && Lookup(chs, cfg.feedbackChannelId).Some? && Lookup(chs, cfg.feedbackChannelId).value.textBased
  {
    if cfg.ratingAllowedRoleId !in rater.roles then [Reply(NotAllowedToRate, true)]
    else
      var fb := Lookup(chs, cfg.feedbackChannelId);
      [Reply(ThanksForRating, true)]
      + (if fb.Some? && fb.value.textBased then [Send(fb.value.id, RatingEntry(rater.id, score, feedback))] else [])
  }

  class TicketBot {
    const guildId: Id
    var config: Config
    var channels: seq<Channel>
    var outbox: seq<Effect>
    /** Channels whose deletion timer is running, oldest first. */
    var pendingDeletes: seq<Id>

    ghost predicate Valid()
      reads this
    {
      DistinctIds(channels)
    }

    /** At most one ticket channel per requester under the configured category. */
    ghost predicate TicketsUnique()
      reads this
    {
      UniqueTickets(channels, config.categoryId)
    }

    /** `loaded` is the configuration read at start-up (DefaultConfig on a
        first start); `existing` is the guild's directory at that moment. */
    constructor (guildId: Id, loaded: Config, existing: seq<Channel>)
      requires DistinctIds(existing)
      ensures Valid()
      ensures this.guildId == guildId && config == loaded && channels == existing
      ensures outbox == [] && pendingDeletes == []
    {
      this.guildId := guildId;
      config := loaded;
      channels := existing;
      outbox := [];
      pendingDeletes := [];
    }

    /** setup_ticket_panel: records the panel channel, the ticket category and
        the single staff role, then posts the panel. The record is updated
        even when the panel channel cannot take messages; the failing send
        then ends in the generic failure reply. */
    method SetupTicketPanel(panel: Channel, category: Id, role: Id)
      requires Valid()
      modifies this
      ensures Valid()
      ensures config == old(config).(panelChannelId := panel.id, categoryId := category, allowedRoles := [role])
      ensures channels == old(channels) && pendingDeletes == old(pendingDeletes)
      ensures panel.textBased ==> outbox == old(outbox) + [Send(panel.id, PanelPrompt), Reply(PanelSent(panel.id), true)]
      ensures !panel.textBased ==> outbox == old(outbox) + [Reply(SomethingWentWrong, true)]
    {
      config := config.(panelChannelId := panel.id, categoryId := category, allowedRoles := [role]);
      if panel.textBased {
        outbox := outbox + [Send(panel.id, PanelPrompt)];
        outbox := outbox + [Reply(PanelSent(panel.id), true)];
      } else {
        outbox := outbox + [Reply(SomethingWentWrong, true)];
      }
    }

    method SetFeedbackChannel(channel: Id)
      requires Valid()
      modifies this
      ensures Valid() && TicketsUnique() == old(TicketsUnique())
      ensures config == old(config).(feedbackChannelId := channel)
      ensures channels == old(channels) && pendingDeletes == old(pendingDeletes)
      ensures outbox == old(outbox) + [Reply(FeedbackChannelSet, true)]
    {
      config := config.(feedbackChannelId := channel);
      outbox := outbox + [Reply(FeedbackChannelSet, true)];
    }

    method SetTicketLogChannel(channel: Id)
      requires Valid()
      modifies this
      ensures Valid() && TicketsUnique() == old(TicketsUnique())
      ensures config == old(config).(ticketLogChannelId := channel)
      ensures channels == old(channels) && pendingDeletes == old(pendingDeletes)
      ensures outbox == old(outbox) + [Reply(TicketLogChannelSet, true)]
    {
      config := config.(ticketLogChannelId := channel);
      outbox := outbox + [Reply(TicketLogChannelSet, true)];
    }

    method SetRatingRole(role: Id)
      requires Valid()
      modifies this
      ensures Valid() && TicketsUnique() == old(TicketsUnique())
      ensures config == old(config).(ratingAllowedRoleId := role)
      ensures channels == old(channels) && pendingDeletes == old(pendingDeletes)
      ensures outbox == old(outbox) + [Reply(RatingRoleSet, true)]
    {
      config := config.(ratingAllowedRoleId := role);
      outbox := outbox + [Reply(RatingRoleSet, true)];
    }

    /** The rate command. */
    method Rate(rater: Member, score: int, feedback: string)
      requires Valid()
      modifies this`outbox
      ensures outbox == old(outbox) + RateNotices(config, channels, rater, score, feedback)
    {
      if config.ratingAllowedRoleId !in rater.roles {
        outbox := outbox + [Reply(NotAllowedToRate, true)];
        return;
      }
      outbox := outbox + [Reply(ThanksForRating, true)];
      var fb := Lookup(channels, config.feedbackChannelId);
      if fb.Some? && fb.value.textBased {
        outbox := outbox + [Send(fb.value.id, RatingEntry(rater.id, score, feedback))];
      }
    }

    /** The open-ticket button. `newId` is the id the platform gives the
        channel it creates. Returns whether a ticket was created. */
    method OpenTicket(requester: Member, newId: Id) returns (created: bool)
      requires Valid() && Lookup(channels, newId).None?
      modifies this
      ensures Valid()
      ensures created <==> FindTicket(old(channels), requester.id, config.categoryId).None?
      ensures !created ==> channels == old(channels) && outbox == old(outbox) + [Reply(AlreadyHaveTicket, true)]
      ensures created ==> channels == old(channels) + [TicketChannel(newId, guildId, requester, config)]
      ensures created ==> outbox == old(outbox) + [Send(newId, TicketOpened(RoleMentions(config.allowedRoles))),
                                                   Reply(TicketCreated(newId), true)]
      ensures config == old(config) && pendingDeletes == old(pendingDeletes)
      ensures old(TicketsUnique()) ==> TicketsUnique()
      ensures FindTicket(channels, requester.id, config.categoryId).Some?
    {
      var existing := FindTicket(channels, requester.id, config.categoryId);
      if existing.Some? {
        outbox := outbox + [Reply(AlreadyHaveTicket, true)];
        return false;
      }
      var ch := TicketChannel(newId, guildId, requester, config);
      if TicketsUnique() {
        AddTicketKeepsUnique(channels, config.categoryId, ch);
      }
      AddedTicketIsFound(channels, config.categoryId, ch);
      channels := channels + [ch];
      outbox := outbox + [Send(newId, TicketOpened(RoleMentions(config.allowedRoles)))];
      outbox := outbox + [Reply(TicketCreated(newId), true)];
      created := true;
    }

    /** The claim button: an announcement by staff; nothing else changes. */
    method ClaimTicket(actor: Member)
      requires Valid()
      modifies this`outbox
      ensures IsStaff(config.allowedRoles, actor.roles) ==> outbox == old(outbox) + [Reply(ClaimedBy(actor.id), false)]
      ensures !IsStaff(config.allowedRoles, actor.roles) ==> outbox == old(outbox) + [Reply(NotStaff, true)]
    {
      if !IsStaff(config.allowedRoles, actor.roles) {
        outbox := outbox + [Reply(NotStaff, true)];
        return;
      }
      outbox := outbox + [Reply(ClaimedBy(actor.id), false)];
    }

    /** The close button, pressed in `channels[at]`. `members` are the ids the
        guild's member lookup resolves. A channel with a missing or empty
        topic makes the member lookup run without an id and the handler
        fault before it sends anything; only the generic failure reply
        follows. */
    method CloseTicket(actor: Member, at: nat, members: set<Id>)
      requires Valid() && at < |channels|
      modifies this`outbox, this`pendingDeletes
      ensures !IsStaff(config.allowedRoles, actor.roles) ==>
                outbox == old(outbox) + [Reply(NotStaff, true)] && pendingDeletes == old(pendingDeletes)
      ensures IsStaff(config.allowedRoles, actor.roles) && RequesterOf(channels[at]).None? ==>
                outbox == old(outbox) + [Reply(SomethingWentWrong, true)] && pendingDeletes == old(pendingDeletes)
      ensures IsStaff(config.allowedRoles, actor.roles) && RequesterOf(channels[at]).Some? ==>
                && outbox == old(outbox) + CloseNotices(actor.id, RequesterOf(channels[at]).value, RequesterOf(channels[at]).value in members,
                                                        Lookup(channels, config.ticketLogChannelId), channels[at].name)
                && pendingDeletes == old(pendingDeletes) + [channels[at].id]
    {
      if !IsStaff(config.allowedRoles, actor.roles) {
        outbox := outbox + [Reply(NotStaff, true)];
        return;
      }
      var ch := channels[at];
      var bound := RequesterOf(ch);
      if bound.None? {
        outbox := outbox + [Reply(SomethingWentWrong, true)];
        return;
      }
      var requester := bound.value;
      if requester in members {
        outbox := outbox + [Direct(requester, TicketClosed)];
      }
      var log := Lookup(channels, config.ticketLogChannelId);
      if log.Some? && log.value.textBased {
        outbox := outbox + [Send(log.value.id, CloseEntry(actor.id, requester, ch.name))];
      }
      outbox := outbox + [Reply(ClosingTicket, true)];
      pendingDeletes := pendingDeletes + [ch.id];
    }

    /** The oldest deletion timer fires: its channel leaves the directory,
        or nothing happens if it is already gone. */
    method FireDeletion()
      requires Valid() && pendingDeletes != []
      modifies this`channels, this`pendingDeletes
      ensures Valid()
      ensures channels == Without(old(channels), old(pendingDeletes)[0])
      ensures pendingDeletes == old(pendingDeletes)[1..]
      ensures old(TicketsUnique()) ==> TicketsUnique()
    {
      var id := pendingDeletes[0];
      WithoutKeepsDistinct(channels, id);
      if TicketsUnique() {
        WithoutKeepsUnique(channels, id, config.categoryId);
      }
      channels := Without(channels, id);
      pendingDeletes := pendingDeletes[1..];
    }
  }

  /** A requester opens a ticket, cannot open a second one, a staff member
      closes it, and once the deletion timer fires the requester may open a
      ticket again. */
  method OpenCloseScenario(guildId: Id, staffRole: Id, category: Id, logId: Id, user: Member, staff: Member, first: Id, second: Id)
    requires staffRole in staff.roles && user.id != ""
    requires logId != first && logId != second && first != second
  {
    var log := Channel(logId, "ticket-log", None, None, [], true);
    var bot := new TicketBot(guildId, Config("", category, [staffRole], "", logId, ""), [log]);
    var created := bot.OpenTicket(user, first);
    assert created;
    assert bot.channels[1].topic == Some(user.id);
    var again := bot.OpenTicket(user, second);
    assert !again && |bot.channels| == 2;
    bot.CloseTicket(staff, 1, {user.id});
    assert bot.outbox[|bot.outbox| - 3..] == [Direct(user.id, TicketClosed),
                                              Send(logId, CloseEntry(staff.id, user.id, "ticket-" + user.username)),
                                              Reply(ClosingTicket, true)];
    bot.FireDeletion();
    assert bot.channels == [log];
    assert FindTicket(bot.channels, user.id, category).None?;
  }
}
