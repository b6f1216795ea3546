/**
 * The database connector: the Watches and Channels collections, each a
 * sequence of records that the Connector's methods read and reassign. A
 * round trip to the database that fails (network or server error) is the
 * `fail` parameter: the method then returns `Unavailable` and changes nothing.
 */
module Store {
  import opened Wrappers
  import opened Seqs
  import opened WatchRegistry
  import opened ChannelDirectory

  datatype DbError =
    | Unavailable
    | UserNotFound           // "user not found"
    | TooManyUsers           // "too many users found"
    | MoreThanOneWatch(userId: string) // "found more than one watch for user %s"
    | ChannelNotFound        // "channel not found"
    | TooManyChannels        // "too many channels found"

  class Connector {
    var watches: seq<Watch>
    var channels: seq<Channel>

    constructor ()
      ensures watches == [] && channels == []
    {
      watches := [];
      channels := [];
    }

    /** Every watch record, unfiltered, in store order. */
    method WatchesList(fail: bool) returns (r: Result<seq<Watch>, DbError>)
      ensures fail ==> r == Failure(Unavailable)
      ensures !fail ==> r == Success(watches)
    {
      if fail {
        return Failure(Unavailable);
      }
      return Success(watches);
    }

    /** The user's one record; not-found and too-many are distinct errors. */
    method WatchesByUserId(userId: string, fail: bool) returns (r: Result<Watch, DbError>)
      ensures fail ==> r == Failure(Unavailable)
      ensures !fail && UserRecords(watches, userId) == [] ==> r == Failure(UserNotFound)
      ensures !fail && |UserRecords(watches, userId)| > 1 ==> r == Failure(TooManyUsers)
      ensures !fail && |UserRecords(watches, userId)| == 1 ==>
        r.Success? && r.value in watches && r.value.userId == userId &&
        r.value == UserRecords(watches, userId)[0]
    {
      if fail {
        return Failure(Unavailable);
      }
      var list := UserRecords(watches, userId);
      if |list| == 0 {
        return Failure(UserNotFound);
      }
      if |list| > 1 {
        return Failure(TooManyUsers);
      }
      return Success(list[0]);
    }

    /** Whether the user has at least one record. */
    method WatchesWatching(userId: string, fail: bool) returns (r: Result<bool, DbError>)
      ensures fail ==> r == Failure(Unavailable)
      ensures !fail ==> r.Success? && (r.value <==> exists i :: 0 <= i < |watches| && watches[i].userId == userId)
    {
      if fail {
        return Failure(Unavailable);
      }
      var count := |UserRecords(watches, userId)|;
      FilterNone(watches, HasUser(userId));
      return Success(count > 0);
    }

    /** Idempotent watch: a user who has a record is left as is and no error is returned;
        otherwise one record with an empty game is saved. */
    method WatchesWatch(userId: string, username: string, fail: bool) returns (err: Option<DbError>)
      modifies this
      ensures channels == old(channels)
      ensures fail ==> err == Some(Unavailable) && watches == old(watches)
      ensures !fail ==> err == None && watches == AfterWatch(old(watches), userId, username)
    {
      var watching := WatchesWatching(userId, fail);
      if watching.Failure? {
        return Some(watching.error);
      }
      FilterNone(watches, HasUser(userId));
      if watching.value {
        return None;
      }
      watches := watches + [Watch(userId, username, "")];
      return None;
    }

    /** Deletes the first record of the user; an absent user is not an error. */
    method WatchesUnwatch(userId: string, fail: bool) returns (err: Option<DbError>)
      modifies this
      ensures channels == old(channels)
      ensures fail ==> err == Some(Unavailable) && watches == old(watches)
      ensures !fail ==> err == None && watches == AfterUnwatch(old(watches), userId)
    {
      if fail {
        return Some(Unavailable);
      }
      watches := AfterUnwatch(watches, userId);
      return None;
    }

    /** Stores the user's current game: a no-op without a record, an error with several,
        and otherwise a write of that one record's game. */
    method WatchesGame(userId: string, game: string, fail: bool) returns (err: Option<DbError>)
      modifies this
      ensures channels == old(channels)
      ensures fail ==> err == Some(Unavailable) && watches == old(watches)
      ensures !fail && UserRecords(old(watches), userId) == [] ==> err == None && watches == old(watches)
      ensures !fail && |UserRecords(old(watches), userId)| > 1 ==>
        err == Some(MoreThanOneWatch(userId)) && watches == old(watches)
      ensures !fail && |UserRecords(old(watches), userId)| == 1 ==>
        err == None && watches == WithGame(old(watches), userId, game)
    {
      if fail {
        return Some(Unavailable);
      }
      var list := UserRecords(watches, userId);
      if |list| == 0 {
        return None;
      }
      if |list| > 1 {
        return Some(MoreThanOneWatch(userId));
      }
      watches := WithGame(watches, userId, game);
      return None;
    }

    /** The directory entries of one guild, in store order. */
    method ChannelsList(guildId: string, fail: bool) returns (r: Result<seq<Channel>, DbError>)
      ensures fail ==> r == Failure(Unavailable)
      ensures !fail ==> r.Success? && r.value == InGuild(channels, guildId)
      ensures !fail ==> forall c :: c in r.value <==> c in channels && c.guildId == guildId
    {
      if fail {
        return Failure(Unavailable);
      }
      var list := InGuild(channels, guildId);
      forall c | c in channels && c.guildId == guildId ensures c in list {
        var i :| 0 <= i < |channels| && channels[i] == c;
      }
      return Success(list);
    }

    /** The channel's one record; not-found and too-many are distinct errors. */
    method ChannelsByChannelId(channelId: string, fail: bool) returns (r: Result<Channel, DbError>)
      ensures fail ==> r == Failure(Unavailable)
      ensures !fail && ChannelRecords(channels, channelId) == [] ==> r == Failure(ChannelNotFound)
      ensures !fail && |ChannelRecords(channels, channelId)| > 1 ==> r == Failure(TooManyChannels)
      ensures !fail && |ChannelRecords(channels, channelId)| == 1 ==>
        r.Success? && r.value in channels && r.value.channelId == channelId &&
        r.value == ChannelRecords(channels, channelId)[0]
    {
      if fail {
        return Failure(Unavailable);
      }
      var list := ChannelRecords(channels, channelId);
      if |list| == 0 {
        return Failure(ChannelNotFound);
      }
      if |list| > 1 {
        return Failure(TooManyChannels);
      }
      return Success(list[0]);
    }

    /** Create-or-update keyed by channel id. The lookup's error is discarded: on not-found,
        on too-many and on a failed lookup round trip alike a fresh record is saved. */
    method ChannelsCreateUpdate(channelId: string, name: string, guildId: string, lookupFail: bool, saveFail: bool)
      returns (err: Option<DbError>)
      modifies this
      ensures watches == old(watches)
      ensures saveFail ==> err == Some(Unavailable) && channels == old(channels)
      ensures !saveFail && lookupFail ==>
        err == None && channels == old(channels) + [Channel(channelId, name, guildId)]
      ensures !saveFail && !lookupFail ==>
        err == None && channels == Upserted(old(channels), Channel(channelId, name, guildId))
    {
      var found := ChannelsByChannelId(channelId, lookupFail);
      if saveFail {
        return Some(Unavailable);
      }
      var record := Channel(channelId, name, guildId);
      if found.Success? {
        SingleAt(channels, channelId);
        channels := channels[FirstIndex(channels, HasChannel(channelId)) := record];
      } else {
        channels := channels + [record];
      }
      return None;
    }

    /** Deletes the first record with the channel id; an absent id is not an error. */
    method ChannelsDelete(channelId: string, fail: bool) returns (err: Option<DbError>)
      modifies this
      ensures watches == old(watches)
      ensures fail ==> err == Some(Unavailable) && channels == old(channels)
      ensures !fail ==> err == None && channels == AfterDelete(old(channels), channelId)
    {
      if fail {
        return Some(Unavailable);
      }
      channels := AfterDelete(channels, channelId);
      return None;
    }
  }
}
