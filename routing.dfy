/**
 * The inputs the bot's handlers receive from the platform, the calls they
 * make back, and the decisions they take, as functions of the stored state
 * and the event. The handler methods in module Handlers are specified by these.
 */
module Routing {
  import opened Wrappers
  import opened Seqs
  import opened WatchRegistry
  import opened ChannelDirectory

  /** The reserved name of the fallback voice channel. */
  const Lobby: string := "Lobby"

  datatype ActivityType = Game | Streaming | Listening | Watching | Custom | Competing

  datatype Activity = Activity(kind: ActivityType, name: string)

  datatype ChannelType = GuildText | GuildVoice | GuildCategory | OtherChannelType

  /** What fetching one channel from the platform returns: type, name and the ids of the
      users currently in it. */
  datatype ChannelInfo = ChannelInfo(kind: ChannelType, name: string, members: seq<string>)

  /** A channel as the platform lists it for a guild, or announces it created or deleted. */
  datatype GuildChannel = GuildChannel(id: string, name: string, kind: ChannelType)

  /** The platform as a handler sees it: the bot's own user id, and the channels a fetch
      succeeds for (a fetch of any other id fails). */
  datatype Session = Session(botUserId: string, channels: map<string, ChannelInfo>)

  datatype PresenceEvent = PresenceEvent(guildId: string, userId: string, activities: seq<Activity>)

  datatype VoiceEvent = VoiceEvent(guildId: string, userId: string, channelId: string)

  datatype Message = Message(authorId: string, authorName: string, channelId: string, guildId: string, content: string)

  /** The calls a handler makes to the platform. */
  datatype Outbound =
    | Move(guildId: string, userId: string, channelId: string)
    | Send(channelId: string, text: string)

  /** The database round trips the handlers make; a handler is told which of its calls fail. */
  datatype DbCall =
    | FindWatch | WriteGame | ListDirectory | SaveWatch | DeleteWatch | ListWatches
    | FindChannel | UpsertChannel | DeleteChannel

  function MoveTo(guildId: string, userId: string, target: Option<string>): seq<Outbound>
  {
    if target.Some? then [Move(guildId, userId, target.value)] else []
  }

  // ----- game extraction -----

  predicate IsGame(a: Activity)
  {
    a.kind == Game && a.name != ""
  }

  /** The name of the first activity that is a game with a non-empty name, or "" if none is. */
  function GameOf(acts: seq<Activity>): (game: string)
    ensures game == "" <==> forall i :: 0 <= i < |acts| ==> !IsGame(acts[i])
  {
    if acts == [] then ""
    else if IsGame(acts[0]) then acts[0].name
    else
      assert forall i :: 1 <= i < |acts| ==> acts[i] == acts[1..][i - 1];
      GameOf(acts[1..])
  }

  /** A non-empty game is the name of the first activity that is a named game. */
  lemma {:induction false} GameOfFirst(acts: seq<Activity>)
    ensures GameOf(acts) != "" ==>
      exists k :: 0 <= k < |acts| && IsGame(acts[k]) && acts[k].name == GameOf(acts) &&
        forall j :: 0 <= j < k ==> !IsGame(acts[j])
  {
    if acts != [] && !IsGame(acts[0]) && GameOf(acts) != "" {
      GameOfFirst(acts[1..]);
      var k :| 0 <= k < |acts| - 1 && IsGame(acts[1..][k]) && acts[1..][k].name == GameOf(acts) &&
        forall j :: 0 <= j < k ==> !IsGame(acts[1..][j]);
      forall j | 1 <= j < k + 1 ensures !IsGame(acts[j]) {
        assert acts[j] == acts[1..][j - 1];
      }
      assert acts[k + 1] == acts[1..][k];
    }
  }

  // ----- directory scans -----

  /** The id a scan that overwrites on every entry named `name` ends with: the last such
      entry's id, or "" when there is none. */
  function LastIdNamed(dir: seq<Channel>, name: string): string
  {
    if dir == [] then ""
    else if dir[|dir| - 1].name == name then dir[|dir| - 1].channelId
    else LastIdNamed(dir[..|dir| - 1], name)
  }

  lemma {:induction false} LastIdNamedIsLast(dir: seq<Channel>, name: string)
    ensures (forall i :: 0 <= i < |dir| ==> dir[i].name != name) ==> LastIdNamed(dir, name) == ""
    ensures forall k :: (0 <= k < |dir| && dir[k].name == name &&
      forall j :: k < j < |dir| ==> dir[j].name != name) ==> LastIdNamed(dir, name) == dir[k].channelId
    ensures LastIdNamed(dir, name) != "" ==>
      exists k :: 0 <= k < |dir| && dir[k].name == name && dir[k].channelId == LastIdNamed(dir, name)
  {
    if dir != [] {
      var init := dir[..|dir| - 1];
      LastIdNamedIsLast(init, name);
      if dir[|dir| - 1].name != name {
        assert forall i :: 0 <= i < |init| ==> init[i] == dir[i];
      }
    }
  }

  /** The id a scan that stops at the first entry named `name` ends with: the first such entry's
      id, or "" when there is none. */
  function FirstIdNamed(dir: seq<Channel>, name: string): string
  {
    if dir == [] then ""
    else if dir[0].name == name then dir[0].channelId
    else FirstIdNamed(dir[1..], name)
  }

  lemma {:induction false} FirstIdNamedIsFirst(dir: seq<Channel>, name: string)
    ensures (forall i :: 0 <= i < |dir| ==> dir[i].name != name) ==> FirstIdNamed(dir, name) == ""
    ensures forall k :: (0 <= k < |dir| && dir[k].name == name &&
      forall j :: 0 <= j < k ==> dir[j].name != name) ==> FirstIdNamed(dir, name) == dir[k].channelId
    ensures FirstIdNamed(dir, name) != "" ==>
      exists k :: 0 <= k < |dir| && dir[k].name == name && dir[k].channelId == FirstIdNamed(dir, name) &&
        forall j :: 0 <= j < k ==> dir[j].name != name
  {
    if dir != [] {
      FirstIdNamedIsFirst(dir[1..], name);
      if dir[0].name != name {
        assert forall i :: 1 <= i < |dir| ==> dir[i] == dir[1..][i - 1];
        if FirstIdNamed(dir, name) != "" {
          var k :| 0 <= k < |dir| - 1 && dir[1..][k].name == name &&
            dir[1..][k].channelId == FirstIdNamed(dir, name) &&
            forall j :: 0 <= j < k ==> dir[1..][j].name != name;
          assert dir[k + 1] == dir[1..][k];
        }
      }
    }
  }

  // ----- presence update -----

  predicate Hosts(info: ChannelInfo, userId: string)
  {
    info.kind == GuildVoice && userId in info.members
  }

  /** Every entry of the directory listing can be fetched from the platform. */
  predicate AllFetched(dir: seq<Channel>, fetch: map<string, ChannelInfo>)
  {
    forall k :: 0 <= k < |dir| ==> dir[k].channelId in fetch
  }

  /** The user is in some voice channel of the directory listing (any one, not necessarily
      the right one). */
  predicate Placed(dir: seq<Channel>, userId: string, fetch: map<string, ChannelInfo>)
  {
    exists k :: 0 <= k < |dir| && dir[k].channelId in fetch && Hosts(fetch[dir[k].channelId], userId)
  }

  /** Whether a presence update gets as far as writing the game: the lookup found exactly one
      record and the write went through. */
  predicate PresenceWrites(watches: seq<Watch>, userId: string, failing: set<DbCall>)
  {
    FindWatch !in failing && |UserRecords(watches, userId)| == 1 && WriteGame !in failing
  }

  /** Where a presence update moves the user, given the guild's directory listing: nowhere if a
      fetch fails or the user is already in a voice channel; else the game channel; else the
      Lobby; else nowhere. */
  function PresenceTarget(dir: seq<Channel>, game: string, userId: string, fetch: map<string, ChannelInfo>): (r: Option<string>)
    ensures r.Some? ==> r.value != "" && AllFetched(dir, fetch) && !Placed(dir, userId, fetch)
  {
    if !AllFetched(dir, fetch) || Placed(dir, userId, fetch) then None
    else if LastIdNamed(dir, game) != "" then Some(LastIdNamed(dir, game))
    else if LastIdNamed(dir, Lobby) != "" then Some(LastIdNamed(dir, Lobby))
    else None
  }

  /** A presence move always targets a listed channel named after the game or the Lobby. */
  lemma PresenceTargetNamed(dir: seq<Channel>, game: string, userId: string, fetch: map<string, ChannelInfo>, t: string)
    requires PresenceTarget(dir, game, userId, fetch) == Some(t)
    ensures t != "" && AllFetched(dir, fetch) && !Placed(dir, userId, fetch)
    ensures exists k :: 0 <= k < |dir| && dir[k].channelId == t && (dir[k].name == game || dir[k].name == Lobby)
  {
    LastIdNamedIsLast(dir, game);
    LastIdNamedIsLast(dir, Lobby);
  }

  /** The game channel wins: the last listed entry named after the game, when its id is set. */
  lemma PresencePrefersGame(dir: seq<Channel>, game: string, userId: string, fetch: map<string, ChannelInfo>, k: nat)
    requires AllFetched(dir, fetch) && !Placed(dir, userId, fetch)
    requires k < |dir| && dir[k].name == game && dir[k].channelId != ""
    requires forall j :: k < j < |dir| ==> dir[j].name != game
    ensures PresenceTarget(dir, game, userId, fetch) == Some(dir[k].channelId)
  {
    LastIdNamedIsLast(dir, game);
  }

  /** Without any entry named after the game, the last entry named Lobby is the target. */
  lemma PresenceFallsBackToLobby(dir: seq<Channel>, game: string, userId: string, fetch: map<string, ChannelInfo>, k: nat)
    requires AllFetched(dir, fetch) && !Placed(dir, userId, fetch)
    requires forall j :: 0 <= j < |dir| ==> dir[j].name != game
    requires k < |dir| && dir[k].name == Lobby && dir[k].channelId != ""
    requires forall j :: k < j < |dir| ==> dir[j].name != Lobby
    ensures PresenceTarget(dir, game, userId, fetch) == Some(dir[k].channelId)
  {
    LastIdNamedIsLast(dir, game);
    LastIdNamedIsLast(dir, Lobby);
  }

  /** A user already in any voice channel of the listing is not moved, nor is anyone when a
      listed channel cannot be fetched. */
  lemma PresenceNoMove(dir: seq<Channel>, game: string, userId: string, fetch: map<string, ChannelInfo>, k: nat)
    requires k < |dir|
    requires dir[k].channelId !in fetch || Hosts(fetch[dir[k].channelId], userId)
    ensures PresenceTarget(dir, game, userId, fetch) == None
  {
  }

  // ----- voice state update -----

  /** Where a voice-state update moves the user: only on arrival in a voice channel named Lobby
      of a user with exactly one record whose stored game is non-empty, to the first directory
      entry of the guild named after that game. */
  function VoiceTarget(watches: seq<Watch>, dir: seq<Channel>, ev: VoiceEvent,
                       fetch: map<string, ChannelInfo>, failing: set<DbCall>): (r: Option<string>)
    ensures r.Some? ==> r.value != "" && FindWatch !in failing && ListDirectory !in failing
    ensures r.Some? ==> ev.channelId in fetch && fetch[ev.channelId].kind == GuildVoice &&
                        fetch[ev.channelId].name == Lobby
  {
    if ev.channelId == "" || FindWatch in failing || |UserRecords(watches, ev.userId)| != 1 then None
    else if ev.channelId !in fetch then None
    else if fetch[ev.channelId].kind != GuildVoice || fetch[ev.channelId].name != Lobby then None
    else
      var game := UserRecords(watches, ev.userId)[0].game;
      if game == "" || ListDirectory in failing then None
      else
        var t := FirstIdNamed(InGuild(dir, ev.guildId), game);
        if t == "" then None else Some(t)
  }

  /** A voice-state move happens only when every condition holds, and targets the first of the
      guild's directory entries named after the stored game. */
  lemma VoiceMoveConditions(watches: seq<Watch>, dir: seq<Channel>, ev: VoiceEvent,
                            fetch: map<string, ChannelInfo>, failing: set<DbCall>, t: string)
    requires VoiceTarget(watches, dir, ev, fetch, failing) == Some(t)
    ensures ev.channelId != "" && |UserRecords(watches, ev.userId)| == 1
    ensures ev.channelId in fetch && fetch[ev.channelId].kind == GuildVoice && fetch[ev.channelId].name == Lobby
    ensures var game := UserRecords(watches, ev.userId)[0].game;
      var listing := InGuild(dir, ev.guildId);
      game != "" && t != "" &&
      exists k :: 0 <= k < |listing| && listing[k].name == game && listing[k].channelId == t &&
        listing[k] in dir && listing[k].guildId == ev.guildId &&
        forall j :: 0 <= j < k ==> listing[j].name != game
  {
    var game := UserRecords(watches, ev.userId)[0].game;
    FirstIdNamedIsFirst(InGuild(dir, ev.guildId), game);
  }

  /** Conversely, when every condition holds the user is moved to the first matching entry. */
  lemma VoiceMovesWhenAllHold(watches: seq<Watch>, dir: seq<Channel>, ev: VoiceEvent,
                              fetch: map<string, ChannelInfo>, failing: set<DbCall>, k: nat)
    requires ev.channelId != "" && FindWatch !in failing && ListDirectory !in failing
    requires |UserRecords(watches, ev.userId)| == 1
    requires ev.channelId in fetch && fetch[ev.channelId].kind == GuildVoice && fetch[ev.channelId].name == Lobby
    requires var game := UserRecords(watches, ev.userId)[0].game;
      var listing := InGuild(dir, ev.guildId);
      game != "" && k < |listing| && listing[k].name == game && listing[k].channelId != "" &&
      forall j :: 0 <= j < k ==> listing[j].name != game
    ensures VoiceTarget(watches, dir, ev, fetch, failing) == Some(InGuild(dir, ev.guildId)[k].channelId)
  {
    FirstIdNamedIsFirst(InGuild(dir, ev.guildId), UserRecords(watches, ev.userId)[0].game);
  }

  // ----- directory seeding -----

  /** The directory after upserting, in order, every voice channel of `chans` into guild
      `guildId`; other channel types are skipped. */
  function Seeded(dir: seq<Channel>, chans: seq<GuildChannel>, guildId: string, lookupFails: bool): (r: seq<Channel>)
    ensures |dir| <= |r| <= |dir| + |chans|
  {
    if chans == [] then dir
    else
      var d := Seeded(dir, chans[..|chans| - 1], guildId, lookupFails);
      var c := chans[|chans| - 1];
      var rec := Channel(c.id, c.name, guildId);
      if c.kind != GuildVoice then d
      else if lookupFails then d + [rec]
      else Upserted(d, rec)
  }

  /** The directory records of a listing's voice channels, in listing order. */
  function VoiceRecords(chans: seq<GuildChannel>, guildId: string): seq<Channel>
  {
    if chans == [] then []
    else
      var c := chans[|chans| - 1];
      VoiceRecords(chans[..|chans| - 1], guildId) +
        (if c.kind == GuildVoice then [Channel(c.id, c.name, guildId)] else [])
  }

  /** When every lookup fails, seeding appends a fresh record per voice channel, whatever the
      directory already holds for its id. */
  lemma {:induction false} SeededFailedLookups(dir: seq<Channel>, chans: seq<GuildChannel>, guildId: string)
    ensures Seeded(dir, chans, guildId, true) == dir + VoiceRecords(chans, guildId)
  {
    if chans != [] {
      SeededFailedLookups(dir, chans[..|chans| - 1], guildId);
    }
  }

  /** The id of the last voice channel named Lobby in a guild listing, or "". */
  function GuildLobby(chans: seq<GuildChannel>): (r: string)
    ensures r != "" ==> exists k :: 0 <= k < |chans| && chans[k].kind == GuildVoice && chans[k].name == Lobby &&
                                    chans[k].id == r
  {
    if chans == [] then ""
    else
      var c := chans[|chans| - 1];
      if c.kind == GuildVoice && c.name == Lobby then c.id else GuildLobby(chans[..|chans| - 1])
  }

  /** The Lobby a guild listing reports is the last voice channel named Lobby; there is none
      exactly when no voice channel carries that name (or the one found has an empty id). */
  lemma {:induction false} GuildLobbyIsLast(chans: seq<GuildChannel>)
    ensures (forall i :: 0 <= i < |chans| ==> !(chans[i].kind == GuildVoice && chans[i].name == Lobby)) ==>
      GuildLobby(chans) == ""
    ensures GuildLobby(chans) != "" ==>
      exists k :: 0 <= k < |chans| && chans[k].kind == GuildVoice && chans[k].name == Lobby &&
        chans[k].id == GuildLobby(chans) &&
        forall j :: k < j < |chans| ==> !(chans[j].kind == GuildVoice && chans[j].name == Lobby)
  {
    if chans != [] {
      var init := chans[..|chans| - 1];
      var c := chans[|chans| - 1];
      GuildLobbyIsLast(init);
      assert forall i :: 0 <= i < |init| ==> init[i] == chans[i];
      if !(c.kind == GuildVoice && c.name == Lobby) && GuildLobby(init) != "" {
        var k :| 0 <= k < |init| && init[k].kind == GuildVoice && init[k].name == Lobby &&
          init[k].id == GuildLobby(init) &&
          forall j :: k < j < |init| ==> !(init[j].kind == GuildVoice && init[j].name == Lobby);
        assert chans[k] == init[k];
      }
    }
  }

  /** From a directory with unique ids, seeding keeps ids unique, leaves exactly one entry for
      every voice channel of the listing, in the given guild, and touches no other id. */
  lemma {:induction false} SeededCovers(dir: seq<Channel>, chans: seq<GuildChannel>, guildId: string)
    requires UniqueChannels(dir)
    ensures UniqueChannels(Seeded(dir, chans, guildId, false))
    ensures forall i :: 0 <= i < |chans| && chans[i].kind == GuildVoice ==>
      |ChannelRecords(Seeded(dir, chans, guildId, false), chans[i].id)| == 1 &&
      ChannelRecords(Seeded(dir, chans, guildId, false), chans[i].id)[0].guildId == guildId
    ensures forall id :: (forall i :: 0 <= i < |chans| && chans[i].kind == GuildVoice ==> chans[i].id != id) ==>
      ChannelRecords(Seeded(dir, chans, guildId, false), id) == ChannelRecords(dir, id)
  {
    if chans != [] {
      var init := chans[..|chans| - 1];
      var d := Seeded(dir, init, guildId, false);
      var c := chans[|chans| - 1];
      SeededCovers(dir, init, guildId);
      if c.kind == GuildVoice {
        var rec := Channel(c.id, c.name, guildId);
        UniqueChannelsAfterUpsert(d, rec);
        UniqueChannelsAtMostOne(d, c.id);
        UpsertLeavesOne(d, rec);
        forall id | id != c.id ensures ChannelRecords(Upserted(d, rec), id) == ChannelRecords(d, id) {
          UpsertOtherIds(d, rec, id);
        }
      }
      assert forall i :: 0 <= i < |init| ==> init[i] == chans[i];
    }
  }
}
