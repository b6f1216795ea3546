/** The fixed reply texts of the `list` and `channels` commands. */
module ReplyTexts {
  const NoUsersReply: string := "Joinery is not watching anyone for games."
  const UsersHeader: string := "Joinery is" + " watching the" + " following" + " users for" + " games:"
  const NoChannelsReply: string := "Joinery is not watching any voice channels."
  const ChannelsHeader: string := "Joinery is" + " watching the" + " following" + " voice" + " channels:"

  /** Each header is a single line. */
  lemma UsersHeaderOneLine()
    ensures '\n' !in UsersHeader
  {
    assert '\n' !in "Joinery is";
    assert '\n' !in " watching the";
    assert '\n' !in " following";
    assert '\n' !in " users for";
    assert '\n' !in " games:";
  }

  lemma ChannelsHeaderOneLine()
    ensures '\n' !in ChannelsHeader
  {
    assert '\n' !in "Joinery is";
    assert '\n' !in " watching the";
    assert '\n' !in " following";
    assert '\n' !in " voice";
    assert '\n' !in " channels:";
  }
}

/**
 * The text-command surface: exact-match dispatch of a message body to a
 * command, and the rendering of the `list` and `channels` replies (one
 * line per record, joined with newlines).
 */
module Replies {
  import opened Wrappers
  import opened Strings
  import opened WatchRegistry
  import opened ChannelDirectory
  import opened ReplyTexts

  datatype Command = Ping | Help | WatchMe | StopWatching | WhoIsWatched | ListChannels

  /** The message bodies each command answers to (case-sensitive, exact). */
  function Spellings(c: Command): set<string>
  {
    match c
    case Ping => {"!joinery ping"}
    case Help => {"!joinery", "!joinery help"}
    case WatchMe => {"!joinery watch", "!joinery me"}
    case StopWatching => {"!joinery unwatch", "!joinery stop"}
    case WhoIsWatched => {"!joinery who", "!joinery list"}
    case ListChannels => {"!joinery channels"}
  }

  /** The switch on the message body. */
  function CommandFor(content: string): (r: Option<Command>)
    ensures r.Some? ==> content in Spellings(r.value)
    ensures r.None? ==> forall c: Command :: content !in Spellings(c)
  {
    if content == "!joinery ping" then Some(Ping)
    else if content == "!joinery" || content == "!joinery help" then Some(Help)
    else if content == "!joinery watch" || content == "!joinery me" then Some(WatchMe)
    else if content == "!joinery unwatch" || content == "!joinery stop" then Some(StopWatching)
    else if content == "!joinery who" || content == "!joinery list" then Some(WhoIsWatched)
    else if content == "!joinery channels" then Some(ListChannels)
    else None
  }

  function UserLine(w: Watch): string
  {
    "* `" + w.username + "` playing: `" + (if w.game == "" then "nothing" else w.game) + "`"
  }

  function ChannelLine(c: Channel): string
  {
    "* `" + c.name + "`"
  }

  /** The `list` reply: a fixed text when nobody is watched, else a header and one line per
      watched user. */
  function ListReply(users: seq<Watch>): (r: string)
    ensures users == [] <==> r == NoUsersReply
    ensures users != [] ==> |r| >= |UsersHeader| && r[..|UsersHeader|] == UsersHeader
  {
    if users == [] then NoUsersReply
    else Join([UsersHeader] + seq(|users|, i requires 0 <= i < |users| => UserLine(users[i])), '\n')
  }

  /** The `channels` reply: a fixed text when the guild has no directory entry, else a header
      and one line per entry. */
  function ChannelsReply(chans: seq<Channel>): (r: string)
    ensures chans == [] <==> r == NoChannelsReply
    ensures chans != [] ==> |r| >= |ChannelsHeader| && r[..|ChannelsHeader|] == ChannelsHeader
  {
    if chans == [] then NoChannelsReply
    else Join([ChannelsHeader] + seq(|chans|, i requires 0 <= i < |chans| => ChannelLine(chans[i])), '\n')
  }

  /** Read back line by line, the `list` reply is the fixed text, or the header followed by one
      line per user in store order, showing `nothing` for an empty game. */
  lemma ListReplyLines(users: seq<Watch>)
    requires forall i :: 0 <= i < |users| ==> '\n' !in users[i].username && '\n' !in users[i].game
    ensures users == [] ==> ListReply(users) == NoUsersReply
    ensures users != [] ==>
      var lines := Split(ListReply(users), '\n');
      |lines| == |users| + 1 && lines[0] == UsersHeader &&
      forall i :: 0 <= i < |users| ==>
        lines[i + 1] == "* `" + users[i].username + "` playing: `" +
                        (if users[i].game == "" then "nothing" else users[i].game) + "`"
  {
    if users != [] {
      var lines := [UsersHeader] + seq(|users|, i requires 0 <= i < |users| => UserLine(users[i]));
      forall i | 0 <= i < |lines| ensures '\n' !in lines[i] {
        if i == 0 {
          UsersHeaderOneLine();
        } else {
          var w := users[i - 1];
          var game := if w.game == "" then "nothing" else w.game;
          assert '\n' !in game;
          assert lines[i] == "* `" + w.username + "` playing: `" + game + "`";
        }
      }
      SplitJoin(lines, '\n');
    }
  }

  /** Read back line by line, the `channels` reply is the fixed text, or the header followed by
      one line per directory entry. */
  lemma ChannelsReplyLines(chans: seq<Channel>)
    requires forall i :: 0 <= i < |chans| ==> '\n' !in chans[i].name
    ensures chans == [] ==> ChannelsReply(chans) == NoChannelsReply
    ensures chans != [] ==>
      var lines := Split(ChannelsReply(chans), '\n');
      |lines| == |chans| + 1 && lines[0] == ChannelsHeader &&
      forall i :: 0 <= i < |chans| ==> lines[i + 1] == "* `" + chans[i].name + "`"
  {
    if chans != [] {
      var lines := [ChannelsHeader] + seq(|chans|, i requires 0 <= i < |chans| => ChannelLine(chans[i]));
      forall i | 0 <= i < |lines| ensures '\n' !in lines[i] {
        if i == 0 {
          ChannelsHeaderOneLine();
        } else {
          assert lines[i] == "* `" + chans[i - 1].name + "`";
        }
      }
      SplitJoin(lines, '\n');
    }
  }
}
