# Ticket bot lifecycle model

A Dafny model of the ticket lifecycle of a small Discord support bot
(`index.js`). A requester presses the open-ticket button and gets a private
channel. Staff claim the ticket and later close it. Members holding a rating
role may rate the service. Four setup commands set the configuration; the
code does not restrict them to any role, so any member can run them. In
particular `setup_ticket_panel` with a role its caller holds makes that
caller staff, so the staff test on claim and close is only as strong as
that. On a first start the record is empty, so nobody is staff and nobody
can rate until the setup commands have run.

The platform is reduced to three pieces of state, held by the class
`Bot.TicketBot`:

- the **configuration record**: panel channel, ticket category, staff roles,
  feedback channel, ticket-log channel and rating role;
- the **channel directory**: a sequence of channels, each with an id, a name,
  a topic, a parent category, its permission overwrites and whether it takes
  messages;
- the **outbox**: every reply, channel send and direct message a handler
  makes, in order, as an abstract notice.

A fourth field, `pendingDeletes`, holds the channels whose post-close
deletion timer is running. `FireDeletion` is the timer firing. Each handler
is one atomic method.

A ticket has no record of its own. It is the channel whose topic is the
requester's id and whose parent is the configured category. The invariant
`Directory.UniqueTickets` says that at most one such channel exists per
requester. Opening a ticket and firing a deletion preserve it. Claiming,
closing, rating and the three single-field setters leave the directory and
the category untouched. `setup_ticket_panel` may move the category to one
where the invariant does not hold.

Modules:

- `Platform` (platform.dfy): identifiers, members, channels, overwrites,
  the configuration record, notices and outbox effects.
- `Access` (access.dfy): the staff test, the overwrite list of a new ticket,
  and the platform's resolution of overwrites into permissions.
- `Directory` (directory.dfy): the duplicate-ticket search, channel lookup,
  channel removal and the uniqueness invariant.
- `Mentions` (mentions.dfy): the staff-role mention line posted in a new ticket.
- `Bot` (bot.dfy): the handlers as methods of `TicketBot`, and the
  functions that specify what close and rate send.

Two behaviours of the code worth knowing:

- The score given to the rate command is not range-checked (index.js:58,
  index.js:110). Any integer is forwarded.
- The close handler does not catch a failure of its log-channel send
  (index.js:198). The log is skipped only when the log channel cannot be
  fetched or is not text-based.

## Model

| member | source | states |
|---|---|---|
| `Access.IsStaff` | index.js:173 | holds iff some configured staff role is among the member's roles |
| `Access.StaffOverwrites` | index.js:148-151 | one allow-ViewChannel role overwrite per staff role, in configured order |
| `Access.TicketOverwrites` | index.js:145-152 | the list is deny-ViewChannel for the guild id, then allow ViewChannel and SendMessages for the requester, then one entry per staff role; its length is 2 + the number of staff roles |
| `Access.TicketVisibility` | index.js:145-152 | with these overwrites a member can view the ticket iff it is the requester or is staff, whatever its guild-wide permissions; the requester can also send |
| `Mentions.RoleMentions` | index.js:162 | the mention line is empty iff no staff role is configured |
| `Mentions.RoleMentionsRoundTrip` | index.js:162 | splitting the mention line on spaces gives exactly one mention per staff role, in order |
| `Mentions.SplitJoin` | index.js:162 | splitting a space-joined non-empty list gives back its parts when no part contains a space (an empty list joins to "", which splits into one empty part) |
| `Directory.FindTicket` | index.js:137 | returns the first channel whose topic is the requester and whose parent is the category, or none iff no such channel exists |
| `Directory.Lookup` | index.js:196 | fetching a channel by id yields a channel of the directory with that id, or nothing iff no channel has it |
| `Directory.Without` | index.js:214 | deleting a channel keeps exactly the channels with other ids, and deleting an absent channel changes nothing |
| `Directory.AddTicketKeepsUnique` | index.js:137-153 | adding a ticket for a requester with no ticket under the category keeps at most one ticket per requester |
| `Directory.AddedTicketIsFound` | index.js:137-144 | after a ticket is created, the duplicate search finds it, so a second open is refused |
| `Directory.WithoutKeepsDistinct` | index.js:214 | deleting a channel keeps channel ids distinct |
| `Directory.WithoutKeepsUnique` | index.js:214 | deleting a channel keeps at most one ticket per requester |
| `Directory.DeletedTicketIsReleased` | index.js:214 | once a requester's ticket channel is deleted, the duplicate search finds no ticket for that requester |
| `Bot.TicketChannel` | index.js:140-153 | the created channel is a ticket of the requester under the configured category |
| `Bot.CloseNotices` | index.js:187-213 | sends in this order: the direct message, only if the requester is a member; the log entry naming closer, requester and channel, only if the log channel is text-based; then, always last, the closing reply |
| `Bot.CloseOfOpenedTicket` | index.js:143 | close reads back the (non-empty) requester id that open stored in the topic; the log entry names that requester, the closer and `ticket-<username>` |
| `Bot.RateNotices` | index.js:105-131 | a rater without the rating role gets only the refusal; a role holder gets the thanks first and nothing else but, at most, the rating entry; a rating entry naming the rater is sent, to the feedback channel, exactly when the rater holds the role and the feedback channel resolves to a text channel |
| `Bot.RequesterOf` | index.js:187-188 | the requester is read back from the topic, and there is none exactly when the topic is missing or empty |
| `Bot.TicketBot.constructor` | index.js:7-21 | starts with the loaded configuration, the given directory, an empty outbox and no pending deletion |
| `Bot.TicketBot.SetupTicketPanel` | index.js:64-85 | sets the panel channel and category and makes the staff roles exactly `[role]`; nothing else changes; posts the panel and replies, or gives the generic failure reply if the panel channel takes no messages |
| `Bot.TicketBot.SetFeedbackChannel` | index.js:87-91 | changes only the feedback channel, then replies |
| `Bot.TicketBot.SetTicketLogChannel` | index.js:93-97 | changes only the ticket-log channel, then replies |
| `Bot.TicketBot.SetRatingRole` | index.js:99-103 | changes only the rating role, then replies |
| `Bot.TicketBot.Rate` | index.js:105-131 | appends exactly what `RateNotices` states and changes nothing else |
| `Bot.TicketBot.OpenTicket` | index.js:135-169 | if the requester has a ticket under the category, only the warning reply is made; otherwise exactly one channel is appended and existing channels are unchanged; the new channel is named `ticket-<username>`, its topic is the requester and its parent is the category; then the staff mention is sent to it and the creation reply is made; tickets stay unique and a second open is refused |
| `Bot.TicketBot.ClaimTicket` | index.js:171-180 | non-staff get only the not-staff reply; staff get a public claim announcement; only the outbox changes |
| `Bot.TicketBot.CloseTicket` | index.js:182-216 | non-staff get only the not-staff reply, with no DM, log or deletion; for staff on a channel with a missing or empty topic, only the generic failure reply; otherwise the outbox gains exactly `CloseNotices` for the topic's requester, and the channel's deletion is scheduled after the reply; the directory and configuration do not change |
| `Bot.TicketBot.FireDeletion` | index.js:214 | the oldest scheduled channel leaves the directory (no change if it is already gone); ids stay distinct and tickets stay unique |

`Bot.OpenCloseScenario` walks through open, a refused second open, close and
deletion on a concrete directory. It shows that the handler contracts
compose as intended.

## Left out

- Client, gateway intents, login and presence (index.js:23-29, 236-243, 258-260): session plumbing.
- Slash-command definitions and their deployment (index.js:32-60, 245-255): declarative data and a remote call.
- Embed, button and message text, colours and timestamps: each message is an abstract `Notice` tag that keeps the ids and names it carries.
- Reading and writing config.json (index.js:2-3, 6-21): the constructor takes the loaded record, and `saveConfig` is not modelled.
- The 3000 ms timer and the interleaving of concurrent handlers at `await` points. Each handler is atomic, and a scheduled deletion is a later `FireDeletion` step. The race that lets two near-simultaneous opens both pass the duplicate search is therefore not represented.
- Platform failures that the code does not catch: a failed panel send to a text-based panel channel (index.js:83), which keeps the new configuration and gives the generic reply; a failed channel creation, a failed reply, a failed log send on close, and a failed first message into a new ticket (index.js:161), which leaves the channel created and gives the generic reply instead of the creation reply, so every later open by that requester is refused as a duplicate. These reach the dispatcher (index.js:217-234), which sends a generic reply if none was sent yet. This model includes only the two faults decided by the model's own state: a panel channel that takes no messages, and closing a channel whose topic is missing or empty. In both, no reply was sent before the fault.
- Bot.TicketBot.Rate: the rating send (index.js:117) is not awaited, so its failure never reaches the dispatcher; the outbox records it as an attempt. Under Node's default handling such an unhandled rejection ends the process, which loses every pending deletion timer; process termination is not modelled.
- Bot.TicketBot.CloseTicket: with a missing or empty topic, the member lookup runs without an id. This model assumes it returns the member list, so the handler faults. The case where that lookup itself fails (no DM, a log naming the topic, deletion) is not modelled.
- Bot.TicketBot.CloseTicket: a direct message is recorded as an attempt. Whether it was delivered is not modelled, because a failure is swallowed and changes nothing afterwards.
- Channel fetches by id (index.js:115, 196) look only in the guild's directory, although the client could also fetch channels of other guilds.
- The platform's normalisation of channel names (lower-casing `ticket-<username>`) and its rejection of an unconfigured (empty) category at creation.
- Access.TicketVisibility: does not model the Administrator permission or the guild owner, both of which bypass overwrites. The lemma also requires that the everyone-role is not itself a staff role.
- Mentions.RoleMentionsRoundTrip: stated for role ids without spaces, which holds for the platform's numeric ids.
