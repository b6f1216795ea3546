/**
 * The Channels collection as a sequence of records in store order, and the
 * state `ChannelsCreateUpdate` and `ChannelsDelete` leave behind, with the
 * lemmas that say what they promise about lookups by channel id.
 */
module ChannelDirectory {
  import opened Seqs

  /** A known voice channel of a guild. */
  datatype Channel = Channel(channelId: string, name: string, guildId: string)

  /** The filter `channel_id == channelId`. */
  function HasChannel(channelId: string): Channel -> bool
  {
    (c: Channel) => c.channelId == channelId
  }

  /** The filter `guild_id == guildId`. */
  function OfGuild(guildId: string): Channel -> bool
  {
    (c: Channel) => c.guildId == guildId
  }

  /** What the query `Where("channel_id", channelId)` returns. */
  function ChannelRecords(s: seq<Channel>, channelId: string): (r: seq<Channel>)
    ensures forall i :: 0 <= i < |r| ==> r[i] in s && r[i].channelId == channelId
    ensures forall i :: 0 <= i < |s| && s[i].channelId == channelId ==> s[i] in r
  {
    Filter(s, HasChannel(channelId))
  }

  /** The query returns each record with the id as often as it is stored, and nothing else. */
  lemma ChannelRecordsCounts(s: seq<Channel>, channelId: string)
    ensures forall x: Channel :: multiset(ChannelRecords(s, channelId))[x] ==
                                 if x.channelId == channelId then multiset(s)[x] else 0
  {
    FilterCounts(s, HasChannel(channelId));
  }

  /** What the query `Where("guild_id", guildId)` returns: the guild's channels in store order. */
  function InGuild(s: seq<Channel>, guildId: string): (r: seq<Channel>)
    ensures forall i :: 0 <= i < |r| ==> r[i] in s && r[i].guildId == guildId
    ensures forall i :: 0 <= i < |s| && s[i].guildId == guildId ==> s[i] in r
  {
    Filter(s, OfGuild(guildId))
  }

  /** The guild listing holds each of the guild's records as often as it is stored, and no
      record of another guild. */
  lemma InGuildCounts(s: seq<Channel>, guildId: string)
    ensures forall x: Channel :: multiset(InGuild(s, guildId))[x] == if x.guildId == guildId then multiset(s)[x] else 0
  {
    FilterCounts(s, OfGuild(guildId));
  }

  /** The collection's intended invariant: at most one record per channel id. */
  ghost predicate UniqueChannels(s: seq<Channel>)
  {
    forall i, j :: 0 <= i < j < |s| ==> s[i].channelId != s[j].channelId
  }

  /** The collection after `ChannelsCreateUpdate(c)` succeeds: when the lookup finds exactly one
      record, that record is overwritten in place; otherwise (none, or a discarded
      "too many" error) a fresh record is saved at the end. */
  function Upserted(s: seq<Channel>, c: Channel): (r: seq<Channel>)
    ensures c in r
    ensures |r| == if |ChannelRecords(s, c.channelId)| == 1 then |s| else |s| + 1
  {
    if |ChannelRecords(s, c.channelId)| == 1 then
      var k := FirstIndex(s, HasChannel(c.channelId));
      assert ChannelRecords(s, c.channelId)[0] in s;
      assert s[k := c][k] == c;
      s[k := c]
    else s + [c]
  }

  /** The collection after `ChannelsDelete` succeeds (DeleteOne on `channel_id`). */
  function AfterDelete(s: seq<Channel>, channelId: string): (r: seq<Channel>)
    ensures ChannelRecords(s, channelId) == [] ==> r == s
    ensures ChannelRecords(s, channelId) != [] ==> |r| == |s| - 1
    ensures multiset(r) <= multiset(s)
  {
    FilterNone(s, HasChannel(channelId));
    var k := FirstIndex(s, HasChannel(channelId));
    assert k < |s| ==> s == s[..k] + [s[k]] + s[k + 1..];
    RemoveFirst(s, HasChannel(channelId))
  }

  /** Under the invariant, a lookup never finds more than one record. */
  lemma {:induction false} UniqueChannelsAtMostOne(s: seq<Channel>, channelId: string)
    requires UniqueChannels(s)
    ensures |ChannelRecords(s, channelId)| <= 1
  {
    if s != [] {
      assert UniqueChannels(s[1..]);
      UniqueChannelsAtMostOne(s[1..], channelId);
      if s[0].channelId == channelId {
        FilterNone(s[1..], HasChannel(channelId));
      }
    }
  }

  /** The record a lookup finds when it finds exactly one sits at the first matching index. */
  lemma SingleAt(s: seq<Channel>, channelId: string)
    requires |ChannelRecords(s, channelId)| == 1
    ensures var k := FirstIndex(s, HasChannel(channelId));
      k < |s| && s[k] == ChannelRecords(s, channelId)[0] &&
      forall j :: 0 <= j < |s| && j != k ==> s[j].channelId != channelId
  {
    var p := HasChannel(channelId);
    var k := FirstIndex(s, p);
    assert ChannelRecords(s, channelId)[0] in s;
    assert k < |s|;
    assert s == s[..k] + [s[k]] + s[k + 1..];
    FilterAppend(s[..k] + [s[k]], s[k + 1..], p);
    FilterAppend(s[..k], [s[k]], p);
    FilterNone(s[..k], p);
    FilterNone(s[k + 1..], p);
    forall j | 0 <= j < |s| && j != k ensures s[j].channelId != channelId {
      if j > k {
        assert s[j] == s[k + 1..][j - k - 1];
      }
    }
  }

  /** If at most one record had the id, exactly one has it afterwards, and it carries the
      three given values (an update overwrites name and guild; an insert adds one record). */
  lemma UpsertLeavesOne(s: seq<Channel>, c: Channel)
    requires |ChannelRecords(s, c.channelId)| <= 1
    ensures ChannelRecords(Upserted(s, c), c.channelId) == [c]
    ensures |ChannelRecords(s, c.channelId)| == 1 ==> |Upserted(s, c)| == |s|
    ensures ChannelRecords(s, c.channelId) == [] ==> Upserted(s, c) == s + [c]
  {
    var p := HasChannel(c.channelId);
    if |ChannelRecords(s, c.channelId)| == 1 {
      SingleAt(s, c.channelId);
      FilterReplaceOnly(s, p, FirstIndex(s, p), c);
    } else {
      FilterAppend(s, [c], p);
    }
  }

  /** With duplicates already present the lookup error is discarded and one more record with
      the id is saved: the duplicates grow rather than being repaired. */
  lemma UpsertWithDuplicates(s: seq<Channel>, c: Channel)
    requires |ChannelRecords(s, c.channelId)| > 1
    ensures |ChannelRecords(Upserted(s, c), c.channelId)| == |ChannelRecords(s, c.channelId)| + 1
  {
    FilterAppend(s, [c], HasChannel(c.channelId));
  }

  /** When the lookup itself fails, its error is discarded like any other and a fresh record is
      saved: an id that already had a record now has one more, and ids are no longer unique. */
  lemma FailedLookupDuplicates(s: seq<Channel>, c: Channel)
    requires ChannelRecords(s, c.channelId) != []
    ensures |ChannelRecords(s + [c], c.channelId)| == |ChannelRecords(s, c.channelId)| + 1
    ensures !UniqueChannels(s + [c])
  {
    FilterAppend(s, [c], HasChannel(c.channelId));
    var i :| 0 <= i < |s| && s[i] == ChannelRecords(s, c.channelId)[0];
    assert (s + [c])[i].channelId == (s + [c])[|s|].channelId;
  }

  /** An upsert leaves the records of every other channel id as they were. */
  lemma UpsertOtherIds(s: seq<Channel>, c: Channel, other: string)
    requires other != c.channelId
    ensures ChannelRecords(Upserted(s, c), other) == ChannelRecords(s, other)
  {
    var q := HasChannel(other);
    if |ChannelRecords(s, c.channelId)| == 1 {
      SingleAt(s, c.channelId);
      FilterReplaceOther(s, q, FirstIndex(s, HasChannel(c.channelId)), c);
    } else {
      FilterAppend(s, [c], q);
    }
  }

  /** Delete removes at most one record with the id, none with another id, and nothing at all
      when the id is absent. */
  lemma DeleteRemovesOne(s: seq<Channel>, channelId: string, other: string)
    requires other != channelId
    ensures ChannelRecords(AfterDelete(s, channelId), channelId) ==
      if ChannelRecords(s, channelId) == [] then [] else ChannelRecords(s, channelId)[1..]
    ensures ChannelRecords(AfterDelete(s, channelId), other) == ChannelRecords(s, other)
    ensures ChannelRecords(s, channelId) == [] ==> AfterDelete(s, channelId) == s
  {
    FilterRemoveFirst(s, HasChannel(channelId));
    FilterRemoveFirstDisjoint(s, HasChannel(channelId), HasChannel(other));
    FilterNone(s, HasChannel(channelId));
  }

  /** Create-or-update then delete of the same id, from at most one record with it, leaves the
      lookup not-found. */
  lemma UpsertThenDelete(s: seq<Channel>, c: Channel)
    requires |ChannelRecords(s, c.channelId)| <= 1
    ensures ChannelRecords(AfterDelete(Upserted(s, c), c.channelId), c.channelId) == []
  {
    UpsertLeavesOne(s, c);
    FilterRemoveFirst(Upserted(s, c), HasChannel(c.channelId));
  }

  /** Upsert keeps the at-most-one-record-per-id invariant. */
  lemma UniqueChannelsAfterUpsert(s: seq<Channel>, c: Channel)
    requires UniqueChannels(s)
    ensures UniqueChannels(Upserted(s, c))
  {
    UniqueChannelsAtMostOne(s, c.channelId);
    if |ChannelRecords(s, c.channelId)| == 1 {
      SingleAt(s, c.channelId);
    } else {
      FilterNone(s, HasChannel(c.channelId));
    }
  }

  /** Dropping one record keeps the invariant. */
  lemma UniqueChannelsWithout(s: seq<Channel>, k: nat)
    requires UniqueChannels(s) && k < |s|
    ensures UniqueChannels(s[..k] + s[k + 1..])
  {
    var r := s[..k] + s[k + 1..];
    forall i, j | 0 <= i < j < |r| ensures r[i].channelId != r[j].channelId {
      var i' := if i < k then i else i + 1;
      var j' := if j < k then j else j + 1;
      assert r[i] == s[i'] && r[j] == s[j'];
    }
  }

  /** Delete keeps the invariant. */
  lemma UniqueChannelsAfterDelete(s: seq<Channel>, channelId: string)
    requires UniqueChannels(s)
    ensures UniqueChannels(AfterDelete(s, channelId))
  {
    var k := FirstIndex(s, HasChannel(channelId));
    if k < |s| {
      UniqueChannelsWithout(s, k);
    }
  }
}
