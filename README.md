# joinery, modelled in Dafny

joinery is a Discord bot that routes the members of a voice-chat community to a voice
channel named after the game they are playing, and back to a shared voice channel named
`Lobby` when no such channel exists. This project models the bot's core and proves
properties of that model:

- **Watch registry and channel directory.** The bot keeps two Mongo collections: the
  watched users, each with the game last seen, and the known voice channels of each guild.
  They are the `watches` and `channels` sequences of `Store.Connector`, and every connector
  method is a Dafny method over them. `WatchRegistry` and `ChannelDirectory` hold the pure
  functions that describe each update and the lemmas about them: idempotent watch, one
  record removed by unwatch, upsert leaving one record per channel id, uniqueness kept.
- **Event handlers.** `Handlers.Bot` handles presence updates, voice-state updates, channel
  creation and deletion, guild creation (seeding the directory) and the text commands. It is
  proved against the decision functions of `Routing` and the reply texts of `Replies`. The
  bot's calls back to the platform are appended to `outbox` as `Move` and `Send` records.
- **Configuration.** `Config` covers the run-mode and logger checks, the
  default-connection check, the `name=uri,database,collection;...` connection-set parser
  (with its round trip) and the filling of a connection's empty fields from `default`.

The platform is a parameter. A `Session` carries the bot's user id and the channels a
fetch succeeds for, and every other fetch fails. Guild channel listings arrive as
`Option<seq<GuildChannel>>`, where `None` means the lookup failed. A failed database round
trip is a parameter too: `fail` on a connector method (`lookupFail` and `saveFail` on the
channel upsert, which makes two round trips), and the set `failing` of failing calls on a
handler.

Where the code differs from the written description of the bot, the model follows the code:

- The presence handler keeps the **last** directory entry named after the game or `Lobby`,
  because its scan never breaks (app/bot.go:106-112). The voice handler keeps the first.
- The presence handler matches directory names against the game even when the game is
  empty.
- The voice handler moves a user who arrives in `Lobby` to the game channel without
  checking that the target differs from the Lobby itself (app/bot.go:256-269).
- The guild handler does not upsert the Lobby it creates. The directory learns of it only
  when the channel-created event arrives (app/bot.go:197-219).

## Model

| member | source | states |
|---|---|---|
| Store.Connector.WatchesList | app/models_watches.go:22-29 | returns every watch record in store order, or the transport error |
| Store.Connector.WatchesByUserId | app/models_watches.go:31-43 | not-found for no record, too-many for several, else the user's only record |
| Store.Connector.WatchesWatching | app/models_watches.go:45-52 | true exactly when some record has the user id |
| Store.Connector.WatchesWatch | app/models_watches.go:54-69 | idempotent watch: no error and no change for a watched user, else one record with an empty game appended; a failed round trip changes nothing |
| Store.Connector.WatchesUnwatch | app/models_watches.go:71-83 | deletes the user's first record; an absent user is not an error |
| Store.Connector.WatchesGame | app/models_watches.go:85-103 | no record is a silent no-op, several records an error naming the user, one record gets the game and nothing else changes |
| Store.Connector.ChannelsList | app/models_channels.go:22-29 | exactly the directory entries of the guild, in store order |
| Store.Connector.ChannelsByChannelId | app/models_channels.go:31-44 | not-found, too-many, or the channel's only record |
| Store.Connector.ChannelsCreateUpdate | app/models_channels.go:46-57 | a failed save changes nothing; otherwise, with a successful lookup of exactly one record for the id, that record is overwritten in place, and in every other case (none, several, or a failed lookup, since the lookup error is discarded) a new record is appended |
| Store.Connector.ChannelsDelete | app/models_channels.go:59-62 | deletes the first record with the id; an absent id is not an error |
| WatchRegistry.UserRecords | app/models_watches.go:32 | a record is returned exactly when it is in the collection and has the user id |
| WatchRegistry.UserRecordsCounts | app/models_watches.go:32 | each record with the user id is returned as many times as the collection holds it, and no other record is returned |
| WatchRegistry.WithGame | app/models_watches.go:97-98 | same length; every record keeps its user and name; only the user's records take the new game |
| WatchRegistry.AfterWatch | app/models_watches.go:54-69 | the user has at least one record afterwards; the old records are kept as a prefix and at most one is appended |
| WatchRegistry.AfterUnwatch | app/models_watches.go:71-83 | no record for the user changes nothing; otherwise exactly one record is removed, and nothing is added |
| WatchRegistry.UniqueUsersAtMostOne | app/models_watches.go:31-43 | with unique user ids the lookup never reports too many users |
| WatchRegistry.WatchIdempotent | app/models_watches.go:54-69 | watching twice equals watching once, whatever name the second call gives |
| WatchRegistry.WatchAddsOne | app/models_watches.go:60-68 | watching an unwatched user leaves exactly one record for them, with an empty game |
| WatchRegistry.UnwatchRemovesOne | app/models_watches.go:71-83 | unwatch removes one of the user's records and no other user's |
| WatchRegistry.WatchThenUnwatch | app/models_watches.go:54-83 | watch then unwatch of a new user leaves no record for them |
| WatchRegistry.WithGameKeepsRecords | app/models_watches.go:85-103 | a game write never adds or drops a record for anyone |
| WatchRegistry.WithGameSingle | app/models_watches.go:97-98 | with one record, that record changes in its game only; other users' records are unchanged |
| WatchRegistry.WithGameOthers | app/models_watches.go:97-98 | other users' records are unchanged by a game write |
| WatchRegistry.UniqueUsersAfterWatch | app/models_watches.go:54-69 | watch keeps user ids unique |
| WatchRegistry.UniqueUsersAfterUnwatch | app/models_watches.go:71-83 | unwatch keeps user ids unique |
| WatchRegistry.UniqueUsersAfterGame | app/models_watches.go:85-103 | a game write keeps user ids unique |
| ChannelDirectory.ChannelRecords | app/models_channels.go:32 | a record is returned exactly when it is in the directory and has the channel id |
| ChannelDirectory.ChannelRecordsCounts | app/models_channels.go:32 | each record with the channel id is returned as many times as the directory holds it, and no other record is returned |
| ChannelDirectory.InGuild | app/models_channels.go:23 | a record is returned exactly when it is in the directory and belongs to the guild |
| ChannelDirectory.InGuildCounts | app/models_channels.go:23 | each record of the guild is returned as many times as the directory holds it, and no other record is returned |
| ChannelDirectory.Upserted | app/models_channels.go:46-57 | the new record is present afterwards; the length is kept when the id had exactly one record, else it grows by one |
| ChannelDirectory.AfterDelete | app/models_channels.go:59-62 | no record with the id changes nothing; otherwise exactly one record is removed, and nothing is added |
| ChannelDirectory.UniqueChannelsAtMostOne | app/models_channels.go:31-44 | with unique channel ids the lookup never reports too many channels |
| ChannelDirectory.SingleAt | app/models_channels.go:46-54 | the one record with the id sits at the first matching index |
| ChannelDirectory.UpsertLeavesOne | app/models_channels.go:46-57 | from at most one record, upsert leaves exactly the new record for the id; an update keeps the length, an insert appends |
| ChannelDirectory.UpsertWithDuplicates | app/models_channels.go:46-57 | with duplicates already present, upsert adds one more record for the id |
| ChannelDirectory.UpsertOtherIds | app/models_channels.go:46-57 | upsert leaves the records of every other id unchanged |
| ChannelDirectory.DeleteRemovesOne | app/models_channels.go:59-62 | delete removes one record of the id and none of any other id |
| ChannelDirectory.UpsertThenDelete | app/models_channels.go:46-62 | upsert then delete of an id leaves no record for it |
| ChannelDirectory.UniqueChannelsAfterUpsert | app/models_channels.go:46-57 | an upsert after a successful lookup keeps channel ids unique |
| ChannelDirectory.UniqueChannelsAfterDelete | app/models_channels.go:59-62 | delete keeps channel ids unique |
| ChannelDirectory.FailedLookupDuplicates | app/models_channels.go:46-56 | when the lookup fails but the save succeeds for an id already present, the id gets one more record and ids are no longer unique |
| Routing.GameOf | app/bot.go:82-88 | empty exactly when no activity is a named game |
| Routing.GameOfFirst | app/bot.go:82-88 | a non-empty result is the name of the first activity that is a named game |
| Routing.LastIdNamedIsLast | app/bot.go:106-112 | the overwriting scan ends with the id of the last entry with the name, or "" when there is none |
| Routing.FirstIdNamedIsFirst | app/bot.go:256-262 | the breaking scan ends with the id of the first entry with the name, or "" when there is none |
| Routing.PresenceTargetNamed | app/bot.go:102-142 | a presence move happens only when every listed channel was fetched and the user is in none of them, and it targets a listed channel named after the game or Lobby |
| Routing.PresencePrefersGame | app/bot.go:130-136 | an unplaced user is moved to the last entry named after the game |
| Routing.PresenceFallsBackToLobby | app/bot.go:137-142 | with no entry named after the game, the last entry named Lobby is the target |
| Routing.PresenceNoMove | app/bot.go:113-127 | a user in any listed voice channel, or an unfetchable listed channel, means no move |
| Routing.PresenceTarget | app/bot.go:102-142 | a target is a non-empty id, and one is chosen only when every listed channel was fetched and the user is in none of them |
| Routing.VoiceMoveConditions | app/bot.go:222-271 | a voice move implies: non-empty channel, one watch record, arrival in a voice channel named Lobby, a non-empty stored game, and the first guild entry named after it as the target |
| Routing.VoiceMovesWhenAllHold | app/bot.go:222-271 | conversely, when all of those hold the user is moved to that first entry |
| Routing.VoiceTarget | app/bot.go:222-271 | a target is a non-empty id, chosen only when the watch lookup and the directory listing succeeded and the user arrived in a fetched voice channel named Lobby |
| Routing.GuildLobby | app/bot.go:184-189 | a recorded Lobby is the id of some listed voice channel named Lobby |
| Routing.GuildLobbyIsLast | app/bot.go:184-189 | the recorded Lobby is the last voice channel named Lobby, or "" when there is none |
| Routing.Seeded | app/bot.go:184-195 | seeding never removes a record and adds at most one per listed channel |
| Routing.SeededFailedLookups | app/bot.go:184-195 | when every lookup fails, seeding appends one fresh record per listed voice channel, in listing order, whatever the directory already held |
| Routing.SeededCovers | app/bot.go:184-195 | with successful lookups, seeding keeps ids unique, leaves exactly one record, in the guild, for each listed voice channel, and leaves every other id as it was |
| Replies.CommandFor | app/bot.go:155-170 | a command is recognised exactly when the body is one of its spellings; any other body matches none |
| Replies.ListReply | app/bot.go:339-353 | the fixed no-users text exactly when nobody is watched, else a text that starts with the header |
| Replies.ChannelsReply | app/bot.go:364-374 | the fixed no-channels text exactly when there are no entries, else a text that starts with the header |
| ReplyTexts.UsersHeaderOneLine | app/bot.go:344 | the users header is a single line |
| ReplyTexts.ChannelsHeaderOneLine | app/bot.go:369 | the channels header is a single line |
| Replies.ListReplyLines | app/bot.go:339-353 | the fixed text for no users, else a header line, then one line per user in order with the game or `nothing` |
| Replies.ChannelsReplyLines | app/bot.go:364-374 | the fixed text for no entries, else a header line, then one line per entry in order |
| Handlers.InVoiceChannel | app/bot.go:119-127 | true exactly when the fetched channel is a voice channel with the user among its members |
| Handlers.PresenceScan | app/bot.go:102-142 | the directory scan's outcome is `Routing.PresenceTarget`: no move on a failed fetch or when the user is placed, else game channel, else Lobby |
| Handlers.Bot.PresenceUpdate | app/bot.go:75-143 | when the lookup and the game write succeed, the user's record gets the game and the move to the presence target is issued; otherwise nothing changes and nothing is sent |
| Handlers.Bot.VoiceChannelUpdate | app/bot.go:222-271 | exactly the move `Routing.VoiceTarget` names is issued, and the database is left as it was |
| Handlers.Bot.ChannelCreated | app/bot.go:273-281 | a new voice channel is upserted into the directory, or appended when its lookup fails; a failed save and other channel types change nothing |
| Handlers.Bot.ChannelDeleted | app/bot.go:283-291 | a deleted voice channel is deleted from the directory; other channel types change nothing |
| Handlers.Bot.SyncChannels | app/bot.go:184-195 | every voice channel of the listing is upserted in order (appended when lookups fail); a failed save stops the loop and reports the incomplete run |
| Handlers.Bot.GuildCreate | app/bot.go:174-197 | a failed guild lookup changes nothing; otherwise the directory is seeded; a Lobby is created exactly when seeding completed and no voice channel named Lobby was listed |
| Handlers.Bot.WatchCommand | app/bot.go:293-316 | error reply and no change on a failed save; otherwise the author is watched, confirmed by name, and the directory re-seeded from the guild's channels |
| Handlers.Bot.UnwatchCommand | app/bot.go:318-326 | error reply on a failed delete; otherwise the author is unwatched and the confirmation names them |
| Handlers.Bot.ListCommand | app/bot.go:331-354 | one reply: the error text, or the list reply for every watch record |
| Handlers.Bot.ChannelsCommand | app/bot.go:356-375 | one reply: the error text, or the channels reply for the guild's directory entries |
| Handlers.Bot.MessageCreate | app/bot.go:147-171 | the bot's own messages and unknown bodies change nothing; each command sends its reply and makes its store change, and no other |
| Strings.Split | app/app_config.go:133 | there is always at least one piece, and no piece holds the separator |
| Strings.Join | app/bot.go:353 | the text starts with the first part, followed by the separator when there are more parts |
| Strings.JoinSplit | app/app_config.go:133 | joining the pieces of a split gives back the text |
| Config.Fields | app/app_config.go:132-138 | the three fields read from a text hold no comma |
| Config.FieldsOfText | app/app_config.go:132-138 | a rendered connection reads back as the same three fields |
| Config.TextOfFields | app/app_config.go:132-138 | a three-field text is the rendering of the fields read from it |
| Config.Connection.UnmarshalText | app/app_config.go:132-138 | the connection's settings become the first three comma-separated fields |
| Config.PaddedFields | app/app_config.go:146 | the two padding commas add exactly two empty trailing fields |
| Config.ParseEntry | app/app_config.go:144-151 | the parsed name holds no `=`, and no field holds a comma |
| Config.ParseEntries | app/app_config.go:143-152 | every parsed name is free of `=` and every parsed connection's fields are free of commas |
| Config.ParseConnectionSet | app/app_config.go:141-154 | the same for a whole `;`-separated text |
| Config.ParsedNamesListed | app/app_config.go:142-154 | every parsed name comes from some entry |
| Config.LastEntryWins | app/app_config.go:142-154 | a name maps to the settings of its last entry |
| Config.ParseEntryText | app/app_config.go:144-151 | a rendered entry parses back to the same name and settings |
| Config.EqualsInUriCuts | app/app_config.go:145-146 | an `=` inside a URI cuts it there and leaves database and collection empty |
| Config.RenderParse | app/app_config.go:142-154 | rendering a list of plain entries and parsing it yields the map the list denotes |
| Config.Config.UnmarshalConnectionSet | app/app_config.go:142-154 | the set is replaced by the parsed map, one fresh and distinct connection per name |
| Config.Filled | app/app_config.go:167-177 | a field comes out empty exactly when both the connection's and the default's are empty |
| Config.FilledIdempotent | app/app_config.go:167-177 | filling twice from the same default equals filling once |
| Config.FilledFields | app/app_config.go:167-177 | non-empty fields are kept, empty ones take the default's, and the default fills itself unchanged |
| Config.Config.ConnectionFor | app/app_config.go:156-178 | error without a lowercase `default`, then error without the name; otherwise the named connection is filled in place from the default, which is left unchanged |
| Config.ChosenDefault | app/app_config.go:106-111 | the chosen key is a `default` or `Default` name of the order; none exactly when the order has neither |
| Config.ChosenDefaultOrderFree | app/app_config.go:106-111 | unless both spellings are present, the iteration order does not change the choice |
| Config.Config.ValidateMode | app/app_config.go:79-86 | passes exactly for `dev` and `release` |
| Config.Config.ValidateLogger | app/app_config.go:88-95 | passes exactly for `dev` and `release` |
| Config.Config.DefaultConnectionError | app/app_config.go:100-124 | no error exactly when the chosen default names a database and a URI; no connections at all is reported as such |
| Config.Config.ValidateDefaultConnection | app/app_config.go:100-124 | no connections, then no default, then no database, then no URI; passes exactly when the chosen default has both |
| Config.Config.Validate | app/app_config.go:58-77 | reports the first failing check in the order mode, logger, default connection; passes exactly when all three pass |

## Left out

- Discord gateway I/O, session setup, `NewBot`, `Start` and the `ready` handler's status update are not modelled. A handler's calls to the platform are recorded in `outbox` instead.
- Handlers.Bot.PresenceUpdate: a move the platform rejects is still recorded. In the code the rejection only ends the handler, and nothing follows the move anyway.
- Handlers.Bot.GuildCreate: returns whether the Lobby would be created. The three creation calls (category, voice channel, reparenting) and their failures are not modelled.
- Handlers.Bot.SyncChannels: the transport failures of the lookup and of the save are one flag each for the whole loop. Either every lookup fails or none does, and likewise for every save.
- Concurrent handler invocations and their interleavings are not modelled. Each handler runs as one atomic step.
- The Mongo driver, queries, ids and timestamps of stored documents are not modelled. `WatchesGet` and `ChannelsGet` (lookups by document id) are not used by the handlers and are not modelled.
- The help text's content is a constructor parameter of the bot. The empty `playing` stub has no behaviour to model.
- Environment parsing into `Config` (`setupConfig`, token and port) and all logging are not modelled. Go's random map iteration order is the `order` parameter of `Validate`.
- Config.Connection.UnmarshalText and Config.Config.UnmarshalConnectionSet require the input that would otherwise make the code panic on an index: at least three fields, and an `=` in every entry.
- app.go, app_bot.go and the generated model definitions are not part of this model.
