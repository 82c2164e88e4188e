/** Values exchanged between the ticket handlers and the chat platform:
    identifiers, members, channels with their permission overwrites, the
    bot's configuration record, and the entries of the outbox that records
    every reply and send a handler makes. */
module Platform {

  /** Users, roles, channels and the guild are identified by snowflake strings. */
  type Id = string

  datatype Option<T> = None | Some(value: T)

  /** The member behind an interaction: its id, its user name and the ids in
      its role cache (which includes the guild's everyone-role). */
  datatype Member = Member(id: Id, username: string, roles: set<Id>)

  datatype Permission = ViewChannel | SendMessages

  /** A permission overwrite applies either to a role or to a single member. */
  datatype TargetKind = RoleTarget | MemberTarget

  datatype Overwrite = Overwrite(target: Id, kind: TargetKind, allow: set<Permission>, deny: set<Permission>)

  /** A guild channel. `topic` and `parentId` are absent (null on the platform)
      when the channel has no topic or no parent category; `textBased` says
      whether messages can be sent to it. */
  datatype Channel = Channel(
    id: Id,
    name: string,
    topic: Option<string>,
    parentId: Option<Id>,
    overwrites: seq<Overwrite>,
    textBased: bool)

  /** The persisted configuration record; the empty string and the empty list
      mean "not configured". */
  datatype Config = Config(
    panelChannelId: Id,
    categoryId: Id,
    allowedRoles: seq<Id>,
    feedbackChannelId: Id,
    ticketLogChannelId: Id,
    ratingAllowedRoleId: Id)

  /** The record written on first start, when no configuration exists yet. */
  const DefaultConfig := Config("", "", [], "", "", "")

  /** What a reply or a message says, abstracted from its embed and text. */
  datatype Notice =
    | PanelPrompt                                         // panel embed with the open-ticket button
    | PanelSent(panel: Id)
    | FeedbackChannelSet
    | TicketLogChannelSet
    | RatingRoleSet
    | NotAllowedToRate
    | ThanksForRating
    | RatingEntry(rater: Id, score: int, feedback: string)
    | AlreadyHaveTicket
    | TicketOpened(mentions: string)                      // role mentions, embed, claim and close buttons
    | TicketCreated(ticket: Id)
    | NotStaff
    | ClaimedBy(staff: Id)
    | TicketClosed                                        // direct message to the requester
    | CloseEntry(closedBy: Id, requester: string, channelName: string)
    | ClosingTicket
    | SomethingWentWrong                                  // the dispatcher's generic failure reply

  /** One outbox entry: a reply to the interaction, a message sent to a
      channel, or a direct message to a user. */
  datatype Effect =
    | Reply(notice: Notice, ephemeral: bool)
    | Send(channel: Id, notice: Notice)
    | Direct(user: Id, notice: Notice)
}
