/**
 * The Watches collection as a sequence of records in store order, and the
 * state each Connector operation on it leaves behind. The Connector methods
 * that change the collection (module Store) are specified by these functions;
 * the lemmas below state what the operations promise about lookups.
 */
module WatchRegistry {
  import opened Seqs

  /** A watched user: presence of a record is what "being watched" means. */
  datatype Watch = Watch(userId: string, username: string, game: string)

  /** The filter `user_id == userId`. */
  function HasUser(userId: string): Watch -> bool
  {
    (w: Watch) => w.userId == userId
  }

  /** What the query `Where("user_id", userId)` returns. */
  function UserRecords(s: seq<Watch>, userId: string): (r: seq<Watch>)
    ensures forall i :: 0 <= i < |r| ==> r[i] in s && r[i].userId == userId
    ensures forall i :: 0 <= i < |s| && s[i].userId == userId ==> s[i] in r
  {
    Filter(s, HasUser(userId))
  }

  /** The query returns each of the user's records as often as it is stored, and nothing else. */
  lemma UserRecordsCounts(s: seq<Watch>, userId: string)
    ensures forall x: Watch :: multiset(UserRecords(s, userId))[x] == if x.userId == userId then multiset(s)[x] else 0
  {
    FilterCounts(s, HasUser(userId));
  }

  /** The collection's intended invariant: at most one record per user. */
  ghost predicate UniqueUsers(s: seq<Watch>)
  {
    forall i, j :: 0 <= i < j < |s| ==> s[i].userId != s[j].userId
  }

  /** The collection after `WatchesWatch` succeeds: unchanged when the user has a record,
      otherwise one new record with an empty game saved at the end. */
  function AfterWatch(s: seq<Watch>, userId: string, username: string): (r: seq<Watch>)
    ensures |UserRecords(r, userId)| >= 1
    ensures |s| <= |r| <= |s| + 1 && r[..|s|] == s
  {
    if UserRecords(s, userId) != [] then s
    else
      var r := s + [Watch(userId, username, "")];
      assert r[|s|] in UserRecords(r, userId);
      r
  }

  /** The collection after `WatchesUnwatch` succeeds (DeleteOne on `user_id`). */
  function AfterUnwatch(s: seq<Watch>, userId: string): (r: seq<Watch>)
    ensures UserRecords(s, userId) == [] ==> r == s
    ensures UserRecords(s, userId) != [] ==> |r| == |s| - 1
    ensures multiset(r) <= multiset(s)
  {
    FilterNone(s, HasUser(userId));
    var k := FirstIndex(s, HasUser(userId));
    assert k < |s| ==> s == s[..k] + [s[k]] + s[k + 1..];
    RemoveFirst(s, HasUser(userId))
  }

  /** The collection with `game` stored on every record of `userId`; `WatchesGame` applies it
      only when there is exactly one such record. */
  function WithGame(s: seq<Watch>, userId: string, game: string): (r: seq<Watch>)
    ensures |r| == |s|
    ensures forall i :: 0 <= i < |s| ==>
      r[i].userId == s[i].userId && r[i].username == s[i].username &&
      (s[i].userId != userId ==> r[i] == s[i]) &&
      (s[i].userId == userId ==> r[i].game == game)
  {
    if s == [] then []
    else [if s[0].userId == userId then s[0].(game := game) else s[0]] + WithGame(s[1..], userId, game)
  }

  /** Under the invariant, a lookup never finds more than one record. */
  lemma {:induction false} UniqueUsersAtMostOne(s: seq<Watch>, userId: string)
    requires UniqueUsers(s)
    ensures |UserRecords(s, userId)| <= 1
  {
    if s != [] {
      assert UniqueUsers(s[1..]);
      UniqueUsersAtMostOne(s[1..], userId);
      if s[0].userId == userId {
        FilterNone(s[1..], HasUser(userId));
      }
    }
  }

  /** Watching is idempotent: a second watch of the same user changes nothing. */
  lemma WatchIdempotent(s: seq<Watch>, userId: string, username: string, username': string)
    ensures AfterWatch(AfterWatch(s, userId, username), userId, username') == AfterWatch(s, userId, username)
  {
    var s1 := AfterWatch(s, userId, username);
    if UserRecords(s, userId) == [] {
      assert s1[|s|].userId == userId;
      assert s1[|s|] in UserRecords(s1, userId);
    }
  }

  /** Watching an unwatched user adds exactly one record, with an empty game. */
  lemma WatchAddsOne(s: seq<Watch>, userId: string, username: string)
    requires UserRecords(s, userId) == []
    ensures UserRecords(AfterWatch(s, userId, username), userId) == [Watch(userId, username, "")]
    ensures AfterWatch(s, userId, username) == s + [Watch(userId, username, "")]
  {
    FilterAppend(s, [Watch(userId, username, "")], HasUser(userId));
  }

  /** Unwatch deletes at most one record of the user and no record of anyone else. */
  lemma UnwatchRemovesOne(s: seq<Watch>, userId: string, other: string)
    requires other != userId
    ensures UserRecords(AfterUnwatch(s, userId), userId) ==
      if UserRecords(s, userId) == [] then [] else UserRecords(s, userId)[1..]
    ensures UserRecords(AfterUnwatch(s, userId), other) == UserRecords(s, other)
    ensures UserRecords(s, userId) == [] ==> AfterUnwatch(s, userId) == s
  {
    FilterRemoveFirst(s, HasUser(userId));
    FilterRemoveFirstDisjoint(s, HasUser(userId), HasUser(other));
    FilterNone(s, HasUser(userId));
  }

  /** Watch then unwatch of a previously unwatched user leaves the lookup not-found. */
  lemma WatchThenUnwatch(s: seq<Watch>, userId: string, username: string)
    requires UserRecords(s, userId) == []
    ensures UserRecords(AfterUnwatch(AfterWatch(s, userId, username), userId), userId) == []
  {
    WatchAddsOne(s, userId, username);
    FilterRemoveFirst(AfterWatch(s, userId, username), HasUser(userId));
  }

  /** Storing a game never creates or deletes a record of any user. */
  lemma {:induction false} WithGameKeepsRecords(s: seq<Watch>, userId: string, game: string, anyone: string)
    ensures |UserRecords(WithGame(s, userId, game), anyone)| == |UserRecords(s, anyone)|
  {
    if s != [] {
      WithGameKeepsRecords(s[1..], userId, game, anyone);
    }
  }

  /** With exactly one record, storing a game changes only that record's game, and leaves every
      other user's records as they were. */
  lemma {:induction false} WithGameSingle(s: seq<Watch>, userId: string, game: string, other: string)
    requires |UserRecords(s, userId)| == 1
    requires other != userId
    ensures UserRecords(WithGame(s, userId, game), userId) == [UserRecords(s, userId)[0].(game := game)]
    ensures UserRecords(WithGame(s, userId, game), other) == UserRecords(s, other)
  {
    if s != [] {
      var r := WithGame(s, userId, game);
      assert r[1..] == WithGame(s[1..], userId, game);
      if s[0].userId == userId {
        FilterNone(s[1..], HasUser(userId));
        WithGameKeepsRecords(s[1..], userId, game, userId);
        assert UserRecords(r[1..], userId) == [];
        WithGameOthers(s[1..], userId, game, other);
      } else {
        WithGameSingle(s[1..], userId, game, other);
      }
    }
  }

  /** Storing a game for one user leaves the records of another user as they were. */
  lemma {:induction false} WithGameOthers(s: seq<Watch>, userId: string, game: string, other: string)
    requires other != userId
    ensures UserRecords(WithGame(s, userId, game), other) == UserRecords(s, other)
  {
    if s != [] {
      var r := WithGame(s, userId, game);
      assert r[1..] == WithGame(s[1..], userId, game);
      WithGameOthers(s[1..], userId, game, other);
    }
  }

  /** Watching keeps the at-most-one-record-per-user invariant. */
  lemma UniqueUsersAfterWatch(s: seq<Watch>, userId: string, username: string)
    requires UniqueUsers(s)
    ensures UniqueUsers(AfterWatch(s, userId, username))
  {
    if UserRecords(s, userId) == [] {
      FilterNone(s, HasUser(userId));
    }
  }

  /** Dropping one record keeps the invariant. */
  lemma UniqueUsersWithout(s: seq<Watch>, k: nat)
    requires UniqueUsers(s) && k < |s|
    ensures UniqueUsers(s[..k] + s[k + 1..])
  {
    var r := s[..k] + s[k + 1..];
    forall i, j | 0 <= i < j < |r| ensures r[i].userId != r[j].userId {
      var i' := if i < k then i else i + 1;
      var j' := if j < k then j else j + 1;
      assert r[i] == s[i'] && r[j] == s[j'];
    }
  }

  /** Unwatching keeps the invariant. */
  lemma UniqueUsersAfterUnwatch(s: seq<Watch>, userId: string)
    requires UniqueUsers(s)
    ensures UniqueUsers(AfterUnwatch(s, userId))
  {
    var k := FirstIndex(s, HasUser(userId));
    if k < |s| {
      UniqueUsersWithout(s, k);
    }
  }

  /** Storing a game keeps the invariant. */
  lemma UniqueUsersAfterGame(s: seq<Watch>, userId: string, game: string)
    requires UniqueUsers(s)
    ensures UniqueUsers(WithGame(s, userId, game))
  {
  }
}
