# Jira collaborative-task bot: a Dafny model of its create-only tick

The bot polls Jira for active issues ("To Do" or "In Progress"). An issue is
*collaborative* when its subtasks are assigned to more than one distinct
person. For every collaborative issue whose key the Supabase table
`jira_issues` does not yet hold, the bot sets up a private Discord channel:

- the channel's name is derived from the key and the start of the summary;
- the channel is readable by the bot and by every collaborator whose Jira
  e-mail maps, through `email_mappings`, to a fetchable guild member;
- the bot posts an announcement with the task, its link and mentions of
  those members;
- only after that does it record the issue in `jira_issues`.

The model has these modules:

- `JiraClient` (`jira_client.dfy`) is the qualifying filter. The search
  result and the outcome of every subtask fetch are inputs. Each may have
  raised.
- `Db` (`db.dfy`) is the Supabase store. It holds two sequences of rows and
  has the three calls with their error fallbacks:
  - a failed id lookup answers None;
  - a failed key read answers `[]`;
  - a failed insert is dropped.
- `Discord` (`discord.dfy`) is the guild as an oracle. It has a fixed member
  set, the channels created so far (ids increase, as snowflakes do) and the
  posts sent so far. Creating a channel or sending a message may fail.
- `Bot` (`bot.dfy`) holds the create flow (`create_issue_channel`) and the
  tick (`check_jira_issues`):
  - The pure parts are functions: the channel name, resolving collaborators
    to member ids, the overwrite map, the mentions and the announcement.
  - The loops are methods proved against those functions.
- `Text` (`text.dfy`) models `str(n)`, `int(s)`, `" ".join` and substring
  containment.
- `Seqs` (`seqs.dfy`) models the order-preserving filter both files use.
- `Wrappers` (`wrappers.dfy`) is `Option`.

**Ghost outcomes.** Creating a channel, sending, reading the keys and
inserting choose success or failure freely; the id lookup and the member
fetch are fixed lookups (see "## Left out"). The methods therefore return a ghost *outcome* and state the new
state exactly in terms of it. For one run of the create flow the outcome
is:

- `CreateRaised`: the channel creation raised;
- `SendRaised(id)`: the send raised;
- `SaveFailed(id)`: the insert failed;
- `Saved(id)`: the row was stored.

**How the state is described.** The method contracts describe the
guild's channels and posts and the store's rows through `StateOf`:

- one run adds `StepEffects(PlanFor(env, issue), issue, outcome)`;
- a tick adds `TickEffects(plans, processed, outcomes)`, the runs in order.

**What is proved about those effects.** The lemmas about
`TickEffects` prove these:

- which issues are processed;
- the store is written only after the channel exists and the announcement
  was posted;
- idempotence after a fully successful tick;
- convergence from an empty store;
- the at-least-once duplicate window after a partial failure.

The model has these behaviours of the code:

- The code only creates channels. It never retires channels or syncs
  membership, so the model has neither.
- A failed read of the stored keys does not abort the tick.
  `get_created_issues` swallows the error and returns `[]`. The tick then
  hands every snapshot issue to the create flow again, including issues that
  already have a channel (`StoreReadFallback`).
- A failed Jira search is not distinguished from an empty result. Both end
  the tick without changes.
- A raise from the send leaves the channel created but unannounced and
  unrecorded.
- A failed insert is only logged. The channel and the announcement stay, and
  the next tick creates a second channel (`PartialFailureRecreates`).
- The collaborators are `list(set(...))`, so their order, and the order of
  the mentions and grants, is whatever the set iteration gives.
  `JiraClient.ListOf` leaves that order open.

## Model

| member | source | states |
|---|---|---|
| JiraClient.GetCollaborativeActiveIssues | jira_client.py:10-52 | a raised search yields `[]`; otherwise the result is, in search order, exactly the qualifying issues, each with its key and summary and with collaborators forming a duplicate-free list of its distinct subtask assignees |
| JiraClient.CollectAssignees | jira_client.py:30-39 | the set built by the subtask loop is the set of e-mails of subtasks fetched with an assignee |
| JiraClient.ListOf | jira_client.py:44 | `list(unique_assignees)` has no duplicates, the same length, and exactly the set's members |
| JiraClient.AssigneesExactly | jira_client.py:33-37 | an e-mail is collected iff some subtask was fetched and has that e-mail as assignee |
| JiraClient.AssigneesConcat | jira_client.py:33-39 | subtasks contribute independently: the assignees of `a + b` are the union of those of `a` and `b` |
| JiraClient.IgnoredSubtask | jira_client.py:34-39 | a subtask whose fetch raised or that has no assignee changes nothing, wherever it sits |
| JiraClient.QualifyingExactly | jira_client.py:41-45 | an issue is returned iff it was in the search result and has more than one distinct assignee |
| JiraClient.NoneWithoutSubtasks | jira_client.py:27-28 | an issue without subtasks is never returned |
| JiraClient.QualifyingOrder | jira_client.py:21-48 | the result is a subsequence of the search result and each issue is decided on its own |
| JiraClient.AtLeastTwoCollaborators | jira_client.py:42-45 | every returned issue has at least two collaborators and comes from the search result with the same key and summary |
| Db.Store.GetDiscordIdByEmail | db.py:6-18 | the answer is the id of the first mapping row for the e-mail; None exactly when no row has that e-mail |
| Db.LookupFirstMatch | db.py:12-14 | the lookup is None iff no row has the e-mail; otherwise it is the id of the first such row |
| Db.Store.GetCreatedIssues | db.py:20-31 | the answer is the stored `issue_key` column in row order, or `[]` when the read fails |
| Db.Store.SaveCreatedIssue | db.py:33-45 | the store gains exactly the record `(key, channel id, summary)` when the insert succeeds and is unchanged otherwise |
| Discord.Guild.FetchMember | bot.py:66 | a member is returned iff the id is non-negative and a guild member, and it is that id |
| Discord.Guild.CreateTextChannel | bot.py:77 | on success exactly one channel with the given name and overwrites and a fresh, larger id is appended; on failure nothing changes |
| Discord.Guild.Send | bot.py:86 | on success exactly one post of the text to the channel is appended; channels are unchanged |
| Text.DecimalRoundTrip | bot.py:89 | `int(str(id)) == id`: the stored channel id reads back as the channel's id |
| Text.JoinContains | bot.py:83 | every mention occurs in the space-joined mention string |
| Bot.Normalize | bot.py:50 | lowering and replacing spaces keeps the length |
| Bot.NormalizeAt | bot.py:50 | each character of the normalised string is the lowered input character, or `-` where the input has a space |
| Bot.NormalizeChars | bot.py:50 | a normalised string holds no upper-case ASCII letter and no space |
| Bot.ChannelNameShape | bot.py:50-52 | the channel name uses only `a`-`z`, `0`-`9`, `-` and `_`; it is a subsequence of the lowered, dash-for-space `key-summary[:20]`; its length is at most `len(key) + 1 + min(20, len(summary))` |
| Bot.ChannelNameKeepsAllowed | bot.py:52 | a character is in the name iff it is in the raw name and is alphanumeric, `-` or `_` |
| Bot.ChannelNameStable | bot.py:50-52 | lowering, dash-for-space replacing and filtering a derived name again leaves it unchanged |
| Bot.Mentions | bot.py:59-69 | one mention per resolved member |
| Bot.ResolveCollaborators | bot.py:54-73 | the loop's overwrite map and mention list are those of the resolved ids of the collaborators, in order |
| Bot.OverwritesExactly | bot.py:54-68 | the default role is denied, the bot is granted, every other entry is a grant, and the principals with an entry are exactly the default role, the bot and the resolved ids |
| Bot.ResolvedIdsConcat | bot.py:62-73 | collaborators are resolved independently, so one that fails does not stop later ones |
| Bot.ResolvedIdsOne | bot.py:62-73 | a collaborator that does not resolve (no mapping, empty id, `int()` error, failed fetch) contributes nothing; one that resolves contributes its id once |
| Bot.ResolvedIdsComplete | bot.py:62-69 | every collaborator that resolves has its member id among the resolved ids |
| Bot.ResolvedIdsSound | bot.py:62-69 | every resolved id comes from a collaborator that resolves to it |
| Bot.ResolvedIdsExactly | bot.py:62-69 | an id is granted and mentioned iff some collaborator resolves to it |
| Bot.ResolveSound | bot.py:63-67 | a resolved id is a guild member whose mapping row for that e-mail parses to it; an e-mail without a mapping row resolves to nothing |
| Bot.AnnouncementContents | bot.py:81-85 | the announcement contains the key, the full summary, the link and the joined mentions |
| Bot.MentionedInAnnouncement | bot.py:69-85 | every resolved collaborator's mention occurs in the announcement |
| Bot.PlanForShape | bot.py:54-85 | the channel has an overwrite exactly for the default role, the bot and each resolving collaborator; the default role is denied and all others granted; the announcement contains the key and `JIRA_URL + "/browse/" + key` |
| Bot.CreateIssueChannel | bot.py:49-92 | the guild and store change by exactly the effects of the outcome: nothing if creation raised; the channel if the send raised; channel and post if the save failed; channel, post and record `(key, str(id), summary)` if saved; a new channel id exceeds all earlier ones |
| Bot.CreateMissing | bot.py:39-44 | the create flow runs for exactly the issues whose key is not among `created`, in order, and the state changes by the effects of those runs |
| Bot.CheckJiraIssues | bot.py:21-47 | the snapshot is the qualifying filter's result; `created` is the stored keys or `[]`; nothing is processed when the snapshot is empty or the guild missing (and then the store is unchanged); otherwise the processed issues are the unstored ones and the state changes by their effects |
| Bot.ToCreateExactly | bot.py:39-41 | an issue is processed iff it is in the snapshot and its key is not stored; processing keeps snapshot order |
| Bot.StoreReadFallback | bot.py:32 | with the `[]` fallback of a failed key read, every snapshot issue is processed |
| Bot.ChannelInTick | bot.py:77 | a channel created by one run is among the channels the tick created |
| Bot.PostInTick | bot.py:86 | a message posted by one run is among the posts of the tick |
| Bot.RecordFromSaved | bot.py:89 | every record the tick stored is `(key, str(id), summary)` of a processed issue whose run ended in `Saved` |
| Bot.RecordFollowsAnnouncement | bot.py:75-89 | each stored record belongs to a run that also created that channel with its name and overwrites and posted its announcement there; its channel id parses back to the channel's id |
| Bot.AllSavedKeys | bot.py:89 | when every run saved, the keys stored by the tick are exactly the processed keys, in order |
| Bot.SavedKeyFrom | bot.py:89 | a key stored by the tick belongs to a processed issue whose run saved |
| Bot.SnapshotKeysStored | bot.py:32-44 | after a tick whose runs all saved, every key of its snapshot is among the stored keys, whether it was stored before or saved by the tick |
| Bot.SecondTickCreatesNothing | bot.py:32-44 | after a tick whose runs all saved, a second tick that reads the store processes no issue, for any snapshot whose keys are among the first snapshot's (collaborator order may differ) |
| Bot.ConvergesFromEmpty | bot.py:39-44 | from an empty store, a tick whose runs all saved stores exactly the snapshot's keys |
| Bot.PartialFailureRecreates | bot.py:75-92 | a run that did not save leaves its channel if creation succeeded, and the next tick processes that issue again |

## Left out

- Scheduling and the Discord client are not modelled. This covers `tasks.loop(seconds=60)`, `setup_hook`, `on_ready`, `before_loop`, the intents and `async`/`await`. The tick is one sequential method call.
- Logging (`print`) is not modelled.
- The network calls are inputs or oracles. `jira.search_issues`, `jira.issue`, `create_text_channel`, `send`, `fetch_member` and the Supabase queries are not modelled as code.
- The JQL text and `maxResults=100` are not modelled. The search result is an input, so an installation with more than 100 active issues is not distinguished.
- `Db.Store.GetDiscordIdByEmail`: a lookup whose query raises returns None, as a missing row does. The model folds that transient failure into absence: it answers the same for the same mappings.
- `Discord.Guild.FetchMember`: a fetch that raises for a transient reason is likewise folded into "not a member".
- `Bot.Lower`, `Bot.IsAsciiAlnum`: `str.lower()` and `str.isalnum()` are modelled on ASCII only. Non-ASCII letters and digits are treated as neither letters nor digits, and no case mapping is applied to them.
- `Text.ParseInt`: accepts an optional sign and ASCII digits only. It does not accept the surrounding whitespace, digit-group underscores or non-ASCII digits that Python's `int()` accepts.
- The Jira fields are modelled as required values. A missing summary or an absent `emailAddress` on an assignee is not modelled: the summary is always a string and an assignee always has an e-mail.
- Because of that, the outer `try`/`except` of `check_jira_issues` has no modelled exception to catch. Every failure the model has is caught in its own flow, so the rest of the tick always continues.
- Attaching `collaborators` to the Jira issue object in place is not modelled. The model returns a new `Issue` value carrying key, summary and collaborators.
- The `discord_id` column is a string. An empty string stands for NULL, which `if discord_id:` rejects like a missing row.
- Retiring channels and syncing membership are not modelled, because no code for them exists.
- `setup_db.py`, `debug_jira.py`, `test_jira.py` and `config.py` are not part of this model. They are diagnostic or configuration scripts without logic of the tick.
