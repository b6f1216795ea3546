/**
 * The bot's event handlers, each one atomic step against the Connector's two
 * collections. What the platform would be asked to do is appended to
 * `outbox`: member moves and channel messages, in the order issued.
 */
module Handlers {
  import opened Wrappers
  import opened WatchRegistry
  import opened ChannelDirectory
  import opened Store
  import opened Routing
  import opened Replies
  import opened ReplyTexts

  /** Whether a fetched channel is a voice channel with the user among its members. */
  method InVoiceChannel(info: ChannelInfo, userId: string) returns (present: bool)
    ensures present <==> Hosts(info, userId)
  {
    if info.kind != GuildVoice {
      return false;
    }
    present := false;
    var j := 0;
    while j < |info.members|
      invariant 0 <= j <= |info.members|
      invariant present <==> userId in info.members[..j]
    {
      assert info.members[..j + 1] == info.members[..j] + [info.members[j]];
      if info.members[j] == userId {
        present := true;
      }
      j := j + 1;
    }
    assert info.members[..j] == info.members;
  }

  /** The presence handler's walk over the guild's directory listing: remembers the last
      channel named after the game and the last named Lobby, fetches each listed channel
      (a failed fetch abandons the move) and notes whether the user is already in one. */
  method PresenceScan(dir: seq<Channel>, game: string, userId: string, fetch: map<string, ChannelInfo>)
    returns (target: Option<string>)
    ensures target == PresenceTarget(dir, game, userId, fetch)
  {
    var gameChannel, lobbyChannel, move := "", "", true;
    var i := 0;
    while i < |dir|
      invariant 0 <= i <= |dir|
      invariant gameChannel == LastIdNamed(dir[..i], game)
      invariant lobbyChannel == LastIdNamed(dir[..i], Lobby)
      invariant AllFetched(dir[..i], fetch)
      invariant move <==> !Placed(dir[..i], userId, fetch)
    {
      var c := dir[i];
      assert dir[..i + 1][..i] == dir[..i];
      assert dir[..i + 1][i] == c;
      if c.name == game {
        gameChannel := c.channelId;
      }
      if c.name == Lobby {
        lobbyChannel := c.channelId;
      }
      if c.channelId !in fetch {
        assert !AllFetched(dir, fetch) by {
          assert dir[i].channelId !in fetch;
        }
        return None;
      }
      var here := InVoiceChannel(fetch[c.channelId], userId);
      if here {
        move := false;
      }
      PlacedStep(dir, i, userId, fetch);
      i := i + 1;
    }
    assert dir[..i] == dir;
    if move && gameChannel != "" {
      return Some(gameChannel);
    }
    if move && lobbyChannel != "" {
      return Some(lobbyChannel);
    }
    return None;
  }

  /** Extending the scanned prefix by one fetched channel. */
  lemma PlacedStep(dir: seq<Channel>, i: nat, userId: string, fetch: map<string, ChannelInfo>)
    requires i < |dir| && dir[i].channelId in fetch
    ensures Placed(dir[..i + 1], userId, fetch) <==>
            Placed(dir[..i], userId, fetch) || Hosts(fetch[dir[i].channelId], userId)
    ensures AllFetched(dir[..i], fetch) ==> AllFetched(dir[..i + 1], fetch)
  {
    assert dir[..i + 1][i] == dir[i];
    if Placed(dir[..i + 1], userId, fetch) && !Hosts(fetch[dir[i].channelId], userId) {
      var k :| 0 <= k < i + 1 && dir[..i + 1][k].channelId in fetch && Hosts(fetch[dir[..i + 1][k].channelId], userId);
      assert k < i && dir[..i][k] == dir[..i + 1][k];
    }
    if Placed(dir[..i], userId, fetch) {
      var k :| 0 <= k < i && dir[..i][k].channelId in fetch && Hosts(fetch[dir[..i][k].channelId], userId);
      assert dir[..i + 1][k] == dir[..i][k];
    }
  }

  class Bot {
    const db: Connector
    const helpText: string
    var outbox: seq<Outbound>

    constructor (db: Connector, helpText: string)
      ensures this.db == db && this.helpText == helpText && outbox == []
    {
      this.db := db;
      this.helpText := helpText;
      outbox := [];
    }

    /** A user's activities changed: store the game, then move the user to the game channel,
        else to the Lobby, unless they are already in a voice channel of the guild. */
    method PresenceUpdate(s: Session, ev: PresenceEvent, failing: set<DbCall>)
      modifies this, db
      ensures db.channels == old(db.channels)
      ensures var game := GameOf(ev.activities);
        if PresenceWrites(old(db.watches), ev.userId, failing) then
          db.watches == WithGame(old(db.watches), ev.userId, game) &&
          outbox == old(outbox) +
            (if ListDirectory in failing then []
             else MoveTo(ev.guildId, ev.userId, PresenceTarget(InGuild(db.channels, ev.guildId), game, ev.userId, s.channels)))
        else
          db.watches == old(db.watches) && outbox == old(outbox)
    {
      var watch := db.WatchesByUserId(ev.userId, FindWatch in failing);
      if watch.Failure? {
        return;
      }
      var game := GameOf(ev.activities);
      var err := db.WatchesGame(ev.userId, game, WriteGame in failing);
      if err.Some? {
        return;
      }
      var listed := db.ChannelsList(ev.guildId, ListDirectory in failing);
      if listed.Failure? {
        return;
      }
      var target := PresenceScan(listed.value, game, ev.userId, s.channels);
      if target.Some? {
        outbox := outbox + [Move(ev.guildId, ev.userId, target.value)];
      }
    }

    /** A user joined a voice channel: a watched user who arrives in the Lobby while playing is
        moved on to the first directory channel named after the game. */
    method VoiceChannelUpdate(s: Session, ev: VoiceEvent, failing: set<DbCall>)
      modifies this
      ensures outbox == old(outbox) + MoveTo(ev.guildId, ev.userId, VoiceTarget(db.watches, db.channels, ev, s.channels, failing))
    {
      if ev.channelId == "" {
        return;
      }
      var watch := db.WatchesByUserId(ev.userId, FindWatch in failing);
      if watch.Failure? {
        return;
      }
      if ev.channelId !in s.channels {
        return;
      }
      var channel := s.channels[ev.channelId];
      if channel.kind != GuildVoice {
        return;
      }
      if channel.name == Lobby {
        var game := watch.value.game;
        if game == "" {
          return;
        }
        var listed := db.ChannelsList(ev.guildId, ListDirectory in failing);
        if listed.Failure? {
          return;
        }
        var dir := listed.value;
        var gameChannel := "";
        var i := 0;
        while i < |dir|
          invariant 0 <= i <= |dir|
          invariant gameChannel == ""
          invariant FirstIdNamed(dir[i..], game) == FirstIdNamed(dir, game)
        {
          if dir[i].name == game {
            assert dir[i..][0] == dir[i];
            gameChannel := dir[i].channelId;
            break;
          }
          assert dir[i..][1..] == dir[i + 1..];
          i := i + 1;
        }
        assert gameChannel == FirstIdNamed(dir, game);
        if gameChannel != "" {
          outbox := outbox + [Move(ev.guildId, ev.userId, gameChannel)];
        }
      }
    }

    /** A channel was created: voice channels are upserted into the directory; a failed lookup
        makes the upsert append. */
    method ChannelCreated(ev: GuildChannel, guildId: string, failing: set<DbCall>)
      modifies db
      ensures db.watches == old(db.watches)
      ensures db.channels ==
        if ev.kind != GuildVoice || UpsertChannel in failing then old(db.channels)
        else if FindChannel in failing then old(db.channels) + [Channel(ev.id, ev.name, guildId)]
        else Upserted(old(db.channels), Channel(ev.id, ev.name, guildId))
    {
      if ev.kind == GuildVoice {
        var err := db.ChannelsCreateUpdate(ev.id, ev.name, guildId, FindChannel in failing, UpsertChannel in failing);
      }
    }

    /** A channel was deleted: voice channels are deleted from the directory. */
    method ChannelDeleted(ev: GuildChannel, failing: set<DbCall>)
      modifies db
      ensures db.watches == old(db.watches)
      ensures db.channels ==
        if ev.kind == GuildVoice && DeleteChannel !in failing
        then AfterDelete(old(db.channels), ev.id)
        else old(db.channels)
    {
      if ev.kind == GuildVoice {
        var err := db.ChannelsDelete(ev.id, DeleteChannel in failing);
      }
    }

    /** Upserts every voice channel of a guild listing into the directory, stopping at the first
        failed write; also reports the id of the last voice channel named Lobby. */
    method SyncChannels(chans: seq<GuildChannel>, guildId: string, lookupFail: bool, fail: bool)
      returns (lobby: string, completed: bool)
      modifies db
      ensures db.watches == old(db.watches)
      ensures db.channels == if fail then old(db.channels) else Seeded(old(db.channels), chans, guildId, lookupFail)
      ensures completed <==> !(fail && exists i :: 0 <= i < |chans| && chans[i].kind == GuildVoice)
      ensures completed ==> lobby == GuildLobby(chans)
    {
      lobby := "";
      var i := 0;
      while i < |chans|
        invariant 0 <= i <= |chans|
        invariant db.watches == old(db.watches)
        invariant db.channels == Seeded(old(db.channels), chans[..i], guildId, lookupFail)
        invariant fail ==> db.channels == old(db.channels)
        invariant fail ==> forall k :: 0 <= k < i ==> chans[k].kind != GuildVoice
        invariant lobby == GuildLobby(chans[..i])
      {
        var c := chans[i];
        assert chans[..i + 1][..i] == chans[..i];
        if c.kind == GuildVoice {
          if c.name == Lobby {
            lobby := c.id;
          }
          var err := db.ChannelsCreateUpdate(c.id, c.name, guildId, lookupFail, fail);
          if err.Some? {
            return lobby, false;
          }
        }
        i := i + 1;
      }
      assert chans[..i] == chans;
      completed := true;
    }

    /** The bot joined a guild: seed the directory from the guild's channels. Returns whether
        the handler goes on to create a Lobby (no voice channel named Lobby was seen). */
    method GuildCreate(guildId: string, guild: Option<seq<GuildChannel>>, failing: set<DbCall>)
      returns (createsLobby: bool)
      modifies db
      ensures db.watches == old(db.watches)
      ensures guild.None? ==> db.channels == old(db.channels) && !createsLobby
      ensures guild.Some? ==>
                db.channels == if UpsertChannel in failing then old(db.channels)
                               else Seeded(old(db.channels), guild.value, guildId, FindChannel in failing)
      ensures createsLobby <==>
        guild.Some? && GuildLobby(guild.value) == "" &&
        !(UpsertChannel in failing && exists i :: 0 <= i < |guild.value| && guild.value[i].kind == GuildVoice)
    {
      if guild.None? {
        return false;
      }
      var lobby, completed := SyncChannels(guild.value, guildId, FindChannel in failing, UpsertChannel in failing);
      createsLobby := completed && lobby == "";
    }

    /** `!joinery watch`: watch the author, confirm, then re-seed the directory from the
        guild's current channels. */
    method WatchCommand(m: Message, guildChannels: Option<seq<GuildChannel>>, failing: set<DbCall>)
      modifies this, db
      ensures SaveWatch in failing ==>
        db.watches == old(db.watches) && db.channels == old(db.channels) &&
        outbox == old(outbox) + [Send(m.channelId, "Error watching user.")]
      ensures SaveWatch !in failing ==>
        db.watches == AfterWatch(old(db.watches), m.authorId, m.authorName) &&
        outbox == old(outbox) + [Send(m.channelId, "Joinery is now watching " + m.authorName + " for games.")] &&
        db.channels ==
          if guildChannels.None? || UpsertChannel in failing then old(db.channels)
          else Seeded(old(db.channels), guildChannels.value, m.guildId, FindChannel in failing)
    {
      var err := db.WatchesWatch(m.authorId, m.authorName, SaveWatch in failing);
      if err.Some? {
        outbox := outbox + [Send(m.channelId, "Error watching user.")];
        return;
      }
      outbox := outbox + [Send(m.channelId, "Joinery is now watching " + m.authorName + " for games.")];
      if guildChannels.None? {
        return;
      }
      var _, _ := SyncChannels(guildChannels.value, m.guildId, FindChannel in failing, UpsertChannel in failing);
    }

    /** `!joinery stop`: unwatch the author and confirm. */
    method UnwatchCommand(m: Message, failing: set<DbCall>)
      modifies this, db
      ensures db.channels == old(db.channels)
      ensures DeleteWatch in failing ==>
        db.watches == old(db.watches) && outbox == old(outbox) + [Send(m.channelId, "Error unwatching user.")]
      ensures DeleteWatch !in failing ==>
        db.watches == AfterUnwatch(old(db.watches), m.authorId) &&
        outbox == old(outbox) + [Send(m.channelId, "Joinery is no longer watching " + m.authorName + " for games.")]
    {
      var err := db.WatchesUnwatch(m.authorId, DeleteWatch in failing);
      if err.Some? {
        outbox := outbox + [Send(m.channelId, "Error unwatching user.")];
        return;
      }
      outbox := outbox + [Send(m.channelId, "Joinery is no longer watching " + m.authorName + " for games.")];
    }

    /** `!joinery who`: reply with every watched user and their game. */
    method ListCommand(m: Message, failing: set<DbCall>)
      modifies this
      ensures outbox == old(outbox) +
        [Send(m.channelId, if ListWatches in failing then "Error listing users." else ListReply(db.watches))]
    {
      var users := db.WatchesList(ListWatches in failing);
      if users.Failure? {
        outbox := outbox + [Send(m.channelId, "Error listing users.")];
        return;
      }
      outbox := outbox + [Send(m.channelId, ListReply(users.value))];
    }

    /** `!joinery channels`: reply with the names of the guild's directory entries. */
    method ChannelsCommand(m: Message, failing: set<DbCall>)
      modifies this
      ensures outbox == old(outbox) +
        [Send(m.channelId, if ListDirectory in failing then "Error listing channels." else ChannelsReply(InGuild(db.channels, m.guildId)))]
    {
      var chans := db.ChannelsList(m.guildId, ListDirectory in failing);
      if chans.Failure? {
        outbox := outbox + [Send(m.channelId, "Error listing channels.")];
        return;
      }
      outbox := outbox + [Send(m.channelId, ChannelsReply(chans.value))];
    }

    /** A message was posted: the bot's own messages and any body that is not exactly a
        command are ignored; otherwise the command runs. */
    method MessageCreate(s: Session, m: Message, guildChannels: Option<seq<GuildChannel>>, failing: set<DbCall>)
      modifies this, db
      ensures m.authorId == s.botUserId || CommandFor(m.content).None? ==>
        db.watches == old(db.watches) && db.channels == old(db.channels) && outbox == old(outbox)
      ensures m.authorId != s.botUserId && CommandFor(m.content) == Some(Ping) ==>
        db.watches == old(db.watches) && db.channels == old(db.channels) &&
        outbox == old(outbox) + [Send(m.channelId, "Pong!")]
      ensures m.authorId != s.botUserId && CommandFor(m.content) == Some(Help) ==>
        db.watches == old(db.watches) && db.channels == old(db.channels) &&
        outbox == old(outbox) + [Send(m.channelId, helpText)]
      ensures m.authorId != s.botUserId && CommandFor(m.content) == Some(WatchMe) ==>
        if SaveWatch in failing then
          db.watches == old(db.watches) && db.channels == old(db.channels) &&
          outbox == old(outbox) + [Send(m.channelId, "Error watching user.")]
        else
          db.watches == AfterWatch(old(db.watches), m.authorId, m.authorName) &&
          outbox == old(outbox) + [Send(m.channelId, "Joinery is now watching " + m.authorName + " for games.")] &&
          db.channels ==
            if guildChannels.None? || UpsertChannel in failing then old(db.channels)
            else Seeded(old(db.channels), guildChannels.value, m.guildId, FindChannel in failing)
      ensures m.authorId != s.botUserId && CommandFor(m.content) == Some(StopWatching) ==>
        db.channels == old(db.channels) &&
        if DeleteWatch in failing then
          db.watches == old(db.watches) && outbox == old(outbox) + [Send(m.channelId, "Error unwatching user.")]
        else
          db.watches == AfterUnwatch(old(db.watches), m.authorId) &&
          outbox == old(outbox) + [Send(m.channelId, "Joinery is no longer watching " + m.authorName + " for games.")]
      ensures m.authorId != s.botUserId && CommandFor(m.content) == Some(WhoIsWatched) ==>
        db.watches == old(db.watches) && db.channels == old(db.channels) &&
        outbox == old(outbox) +
          [Send(m.channelId, if ListWatches in failing then "Error listing users." else ListReply(db.watches))]
      ensures m.authorId != s.botUserId && CommandFor(m.content) == Some(ListChannels) ==>
        db.watches == old(db.watches) && db.channels == old(db.channels) &&
        outbox == old(outbox) +
          [Send(m.channelId, if ListDirectory in failing then "Error listing channels." else ChannelsReply(InGuild(db.channels, m.guildId)))]
    {
      if m.authorId == s.botUserId {
        return;
      }
      var command := CommandFor(m.content);
      match command {
        case None =>
        case Some(Ping) =>
          outbox := outbox + [Send(m.channelId, "Pong!")];
        case Some(Help) =>
          outbox := outbox + [Send(m.channelId, helpText)];
        case Some(WatchMe) =>
          WatchCommand(m, guildChannels, failing);
        case Some(StopWatching) =>
          UnwatchCommand(m, failing);
        case Some(WhoIsWatched) =>
          ListCommand(m, failing);
        case Some(ListChannels) =>
          ChannelsCommand(m, failing);
      }
    }
  }
}
