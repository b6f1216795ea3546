/**
 * The bot's configuration: the run mode, the logger kind and a named set of database
 * connections, read from a `name=uri,database,collection;...` text. Validation reports the
 * first failing check; a connection looked up by name has its empty fields filled from the
 * connection named "default".
 */
module Config {
  import opened Wrappers
  import opened Strings

  datatype ConfigError =
    | InvalidMode
    | InvalidLogger
    | NoConnections
    | NoDefaultConnection
    | DefaultWithoutDatabase
    | DefaultWithoutUri
    | NoDefaultFor(name: string)
    | NoConnectionNamed(name: string)

  /** The three settings of one connection, as values. */
  datatype ConnectionValue = ConnectionValue(uri: string, database: string, collection: string)

  /** One parsed `name=uri,database,collection` entry. */
  datatype Entry = Entry(name: string, conn: ConnectionValue)

  // ----- one connection -----

  /** The first three comma-separated fields of a connection text; later ones are ignored. */
  function Fields(text: string): (r: ConnectionValue)
    requires |Split(text, ',')| >= 3
    ensures ',' !in r.uri && ',' !in r.database && ',' !in r.collection
  {
    var vals := Split(text, ',');
    ConnectionValue(vals[0], vals[1], vals[2])
  }

  function ConnectionText(v: ConnectionValue): string
  {
    v.uri + "," + v.database + "," + v.collection
  }

  predicate PlainField(f: string)
  {
    ',' !in f && ';' !in f && '=' !in f
  }

  predicate PlainValue(v: ConnectionValue)
  {
    PlainField(v.uri) && PlainField(v.database) && PlainField(v.collection)
  }

  lemma SplitConnectionText(v: ConnectionValue)
    requires ',' !in v.uri && ',' !in v.database && ',' !in v.collection
    ensures Split(ConnectionText(v), ',') == [v.uri, v.database, v.collection]
  {
    var rest := v.database + [','] + v.collection;
    assert ConnectionText(v) == v.uri + [','] + rest;
    SplitHead(v.uri, ',', rest);
    SplitHead(v.database, ',', v.collection);
    SplitNoSep(v.collection, ',');
  }

  /** Reading back a rendered connection gives the same three fields. */
  lemma FieldsOfText(v: ConnectionValue)
    requires ',' !in v.uri && ',' !in v.database && ',' !in v.collection
    ensures |Split(ConnectionText(v), ',')| == 3
    ensures Fields(ConnectionText(v)) == v
  {
    SplitConnectionText(v);
  }

  /** A connection text with exactly three fields is the rendering of what is read from it. */
  lemma TextOfFields(text: string)
    requires |Split(text, ',')| == 3
    ensures ConnectionText(Fields(text)) == text
  {
    var vals := Split(text, ',');
    JoinSplit(text, ',');
    assert vals[1..][1..] == [vals[2]];
    assert Join(vals[1..][1..], ',') == vals[2];
    assert Join(vals[1..], ',') == vals[1] + [','] + vals[2];
    assert Join(vals, ',') == vals[0] + [','] + (vals[1] + [','] + vals[2]);
  }

  /** A connection's empty fields taken from the default connection. */
  function Filled(c: ConnectionValue, def: ConnectionValue): (r: ConnectionValue)
    ensures r.uri == "" <==> c.uri == "" && def.uri == ""
    ensures r.database == "" <==> c.database == "" && def.database == ""
    ensures r.collection == "" <==> c.collection == "" && def.collection == ""
  {
    ConnectionValue(
      if c.uri == "" then def.uri else c.uri,
      if c.database == "" then def.database else c.database,
      if c.collection == "" then def.collection else c.collection)
  }

  /** Filling twice from the same default changes nothing more. */
  lemma FilledIdempotent(c: ConnectionValue, def: ConnectionValue)
    ensures Filled(Filled(c, def), def) == Filled(c, def)
  {
  }

  /** Non-empty fields are kept; empty ones become the default's; the default fills itself
      with no change. */
  lemma FilledFields(c: ConnectionValue, def: ConnectionValue)
    ensures c.uri != "" ==> Filled(c, def).uri == c.uri
    ensures c.uri == "" ==> Filled(c, def).uri == def.uri
    ensures c.database != "" ==> Filled(c, def).database == c.database
    ensures c.database == "" ==> Filled(c, def).database == def.database
    ensures c.collection != "" ==> Filled(c, def).collection == c.collection
    ensures c.collection == "" ==> Filled(c, def).collection == def.collection
    ensures Filled(def, def) == def
  {
  }

  class Connection {
    var uri: string
    var database: string
    var collection: string

    constructor (v: ConnectionValue)
      ensures Value() == v
    {
      uri := v.uri;
      database := v.database;
      collection := v.collection;
    }

    function Value(): ConnectionValue
      reads this
    {
      ConnectionValue(uri, database, collection)
    }

    /** Overwrites the three settings from `uri,database,collection`; the text must have at
        least three fields (fewer is an index panic). */
    method UnmarshalText(text: string)
      requires |Split(text, ',')| >= 3
      modifies this
      ensures Value() == Fields(text)
    {
      var vals := Split(text, ',');
      uri := vals[0];
      database := vals[1];
      collection := vals[2];
    }
  }

  // ----- a set of connections -----

  /** Every `;`-separated entry names its connection before an `=`. */
  predicate WellFormedSet(text: string)
  {
    forall i :: 0 <= i < |Split(text, ';')| ==> '=' in Split(text, ';')[i]
  }

  /** No field holds a comma. */
  predicate PlainFields(v: ConnectionValue)
  {
    ',' !in v.uri && ',' !in v.database && ',' !in v.collection
  }

  /** Two padding commas make every value text split into at least three fields. */
  lemma PaddedFields(x: string)
    ensures Split(x + ",,", ',') == Split(x, ',') + ["", ""]
  {
    assert x + ",," == (x + [',']) + [','];
    SplitTrailingSep(x + [','], ',');
    SplitTrailingSep(x, ',');
  }

  /** One entry: the name before the first `=`, then the text up to the second `=` read as
      three fields, missing ones empty. */
  function ParseEntry(e: string): (r: Entry)
    requires '=' in e
    ensures '=' !in r.name
    ensures ',' !in r.conn.uri && ',' !in r.conn.database && ',' !in r.conn.collection
  {
    SplitAtSep(e, '=');
    var kv := Split(e, '=');
    PaddedFields(kv[1]);
    var vals := Split(kv[1] + ",,", ',');
    Entry(kv[0], ConnectionValue(vals[0], vals[1], vals[2]))
  }

  /** The entries in order, a later entry replacing an earlier one of the same name. */
  function ParseEntries(es: seq<string>): (r: map<string, ConnectionValue>)
    requires forall i :: 0 <= i < |es| ==> '=' in es[i]
    ensures forall k :: k in r ==> '=' !in k && PlainFields(r[k])
  {
    if es == [] then map[]
    else
      var e := ParseEntry(es[|es| - 1]);
      ParseEntries(es[..|es| - 1])[e.name := e.conn]
  }

  /** A whole connection-set text: its `;`-separated entries, parsed in order. */
  function ParseConnectionSet(text: string): (r: map<string, ConnectionValue>)
    requires WellFormedSet(text)
    ensures forall k :: k in r ==> '=' !in k && PlainFields(r[k])
  {
    ParseEntries(Split(text, ';'))
  }

  /** Every parsed name comes from some entry. */
  lemma {:induction false} ParsedNamesListed(es: seq<string>, name: string)
    requires forall i :: 0 <= i < |es| ==> '=' in es[i]
    requires name in ParseEntries(es)
    ensures exists i :: 0 <= i < |es| && ParseEntry(es[i]).name == name
  {
    var n := |es| - 1;
    if ParseEntry(es[n]).name != name {
      ParsedNamesListed(es[..n], name);
      var i :| 0 <= i < n && ParseEntry(es[..n][i]).name == name;
      assert es[..n][i] == es[i];
    }
  }

  /** A name maps to the settings of its last entry. */
  lemma {:induction false} LastEntryWins(es: seq<string>, i: nat)
    requires forall j :: 0 <= j < |es| ==> '=' in es[j]
    requires i < |es|
    requires forall j :: i < j < |es| ==> ParseEntry(es[j]).name != ParseEntry(es[i]).name
    ensures ParseEntry(es[i]).name in ParseEntries(es)
    ensures ParseEntries(es)[ParseEntry(es[i]).name] == ParseEntry(es[i]).conn
  {
    var n := |es| - 1;
    if i < n {
      assert forall j :: i < j < n ==> es[..n][j] == es[j];
      LastEntryWins(es[..n], i);
      assert es[..n][i] == es[i];
    }
  }

  function EntryText(e: Entry): string
  {
    e.name + "=" + ConnectionText(e.conn)
  }

  predicate PlainEntry(e: Entry)
  {
    ';' !in e.name && '=' !in e.name && PlainValue(e.conn)
  }

  lemma EntryTextOneEntry(e: Entry)
    requires PlainEntry(e)
    ensures ';' !in EntryText(e)
  {
    var v := e.conn;
    assert EntryText(e) == e.name + ['='] + v.uri + [','] + v.database + [','] + v.collection;
  }

  /** A rendered entry reads back as itself. */
  lemma ParseEntryText(e: Entry)
    requires PlainEntry(e)
    ensures '=' in EntryText(e)
    ensures ParseEntry(EntryText(e)) == e
  {
    var rest := ConnectionText(e.conn);
    assert EntryText(e) == e.name + ['='] + rest;
    SplitHead(e.name, '=', rest);
    SplitNoSep(rest, '=');
    PaddedFields(rest);
    SplitConnectionText(e.conn);
  }

  /** The connection a URI with an `=` in it ends up with: the URI is cut at the `=` and the
      database and collection come out empty, whatever the text says after it. */
  lemma EqualsInUriCuts(name: string, head: string, tail: string, v: ConnectionValue)
    requires '=' !in name && '=' !in head && ',' !in head
    ensures '=' in name + "=" + head + "=" + tail
    ensures ParseEntry(name + "=" + head + "=" + tail) == Entry(name, ConnectionValue(head, "", ""))
  {
    var e := name + "=" + head + "=" + tail;
    assert e == name + ['='] + (head + ['='] + tail);
    SplitHead(name, '=', head + ['='] + tail);
    SplitHead(head, '=', tail);
    PaddedFields(head);
    SplitNoSep(head, ',');
  }

  function Texts(es: seq<Entry>): (r: seq<string>)
    ensures |r| == |es|
    ensures forall i :: 0 <= i < |es| ==> r[i] == EntryText(es[i])
  {
    if es == [] then [] else Texts(es[..|es| - 1]) + [EntryText(es[|es| - 1])]
  }

  /** The whole set as text. */
  function Render(es: seq<Entry>): string
  {
    Join(Texts(es), ';')
  }

  /** The map a list of entries denotes, a later name replacing an earlier one. */
  function ToMap(es: seq<Entry>): map<string, ConnectionValue>
  {
    if es == [] then map[] else ToMap(es[..|es| - 1])[es[|es| - 1].name := es[|es| - 1].conn]
  }

  lemma {:induction false} ParseTexts(es: seq<Entry>)
    requires forall i :: 0 <= i < |es| ==> PlainEntry(es[i])
    ensures forall i :: 0 <= i < |es| ==> '=' in Texts(es)[i]
    ensures ParseEntries(Texts(es)) == ToMap(es)
  {
    forall i | 0 <= i < |es|
      ensures '=' in Texts(es)[i]
    {
      ParseEntryText(es[i]);
    }
    if es != [] {
      var n := |es| - 1;
      ParseTexts(es[..n]);
      assert Texts(es)[..n] == Texts(es[..n]);
      ParseEntryText(es[n]);
    }
  }

  /** Rendering a non-empty list of plain entries and parsing it back gives the map the
      entries denote. */
  lemma RenderParse(es: seq<Entry>)
    requires es != []
    requires forall i :: 0 <= i < |es| ==> PlainEntry(es[i])
    ensures WellFormedSet(Render(es))
    ensures ParseConnectionSet(Render(es)) == ToMap(es)
  {
    forall i | 0 <= i < |es|
      ensures ';' !in Texts(es)[i]
    {
      EntryTextOneEntry(es[i]);
    }
    SplitJoin(Texts(es), ';');
    ParseTexts(es);
  }

  // ----- validation -----

  predicate IsDefaultName(n: string)
  {
    n == "default" || n == "Default"
  }

  /** The first name in the iteration order that is "default" or "Default". */
  function ChosenDefault(order: seq<string>): (r: Option<string>)
    ensures r.Some? ==> r.value in order && IsDefaultName(r.value)
    ensures r.None? <==> forall i :: 0 <= i < |order| ==> !IsDefaultName(order[i])
  {
    if order == [] then None
    else if IsDefaultName(order[0]) then Some(order[0])
    else ChosenDefault(order[1..])
  }

  /** The iteration order only matters when both spellings are present. */
  lemma ChosenDefaultOrderFree(o1: seq<string>, o2: seq<string>)
    requires forall k :: k in o1 <==> k in o2
    requires !("default" in o1 && "Default" in o1)
    ensures ChosenDefault(o1) == ChosenDefault(o2)
  {
  }

  class Config {
    var mode: string
    var logger: string
    var connections: map<string, Connection>

    constructor (mode: string, logger: string, connections: map<string, Connection>)
      ensures this.mode == mode && this.logger == logger && this.connections == connections
    {
      this.mode := mode;
      this.logger := logger;
      this.connections := connections;
    }

    function ValidateMode(): (err: Option<ConfigError>)
      reads this
      ensures err.None? <==> mode == "dev" || mode == "release"
      ensures err.Some? ==> err.value == InvalidMode
    {
      if mode == "dev" || mode == "release" then None else Some(InvalidMode)
    }

    function ValidateLogger(): (err: Option<ConfigError>)
      reads this
      ensures err.None? <==> logger == "dev" || logger == "release"
      ensures err.Some? ==> err.value == InvalidLogger
    {
      if logger == "dev" || logger == "release" then None else Some(InvalidLogger)
    }

    /** `order` is an iteration order of the connection names. */
    predicate Lists(order: seq<string>)
      reads this
    {
      (forall k :: k in connections ==> k in order) && (forall k :: k in order ==> k in connections)
    }

    /** The default connection exists and names both a database and a URI. */
    predicate UsableDefault(order: seq<string>)
      requires Lists(order)
      reads this, connections.Values
    {
      ChosenDefault(order).Some? &&
      connections[ChosenDefault(order).value].database != "" &&
      connections[ChosenDefault(order).value].uri != ""
    }

    /** The outcome of the default-connection check: no error exactly when the default is usable. */
    function DefaultConnectionError(order: seq<string>): (err: Option<ConfigError>)
      requires Lists(order)
      reads this, connections.Values
      ensures err.None? <==> UsableDefault(order)
      ensures |connections| == 0 ==> err == Some(NoConnections)
    {
      if |connections| == 0 then Some(NoConnections)
      else if ChosenDefault(order).None? then Some(NoDefaultConnection)
      else if connections[ChosenDefault(order).value].database == "" then Some(DefaultWithoutDatabase)
      else if connections[ChosenDefault(order).value].uri == "" then Some(DefaultWithoutUri)
      else None
    }

    /** Looks for "default" or "Default" in the given iteration order, stopping at the first,
        then checks its database before its URI. */
    method ValidateDefaultConnection(order: seq<string>) returns (err: Option<ConfigError>)
      requires Lists(order)
      ensures err == DefaultConnectionError(order)
      ensures err.None? <==> UsableDefault(order)
      ensures connections == map[] ==> err == Some(NoConnections)
      ensures connections != map[] && "default" !in connections && "Default" !in connections ==>
                err == Some(NoDefaultConnection)
    {
      if |connections| == 0 {
        return Some(NoConnections);
      }
      var def: Option<Connection> := None;
      var i := 0;
      while i < |order|
        invariant 0 <= i <= |order|
        invariant ChosenDefault(order[i..]) == ChosenDefault(order)
      {
        if order[i] == "default" || order[i] == "Default" {
          assert order[i..][0] == order[i];
          def := Some(connections[order[i]]);
          break;
        }
        assert order[i..][1..] == order[i + 1..];
        i := i + 1;
      }
      if def.None? {
        return Some(NoDefaultConnection);
      }
      if def.value.database == "" {
        return Some(DefaultWithoutDatabase);
      }
      if def.value.uri == "" {
        return Some(DefaultWithoutUri);
      }
      return None;
    }

    /** Runs the mode, logger and default-connection checks in that order and reports the
        first failure; no failure means all three passed. */
    method Validate(order: seq<string>) returns (err: Option<ConfigError>)
      requires Lists(order)
      ensures ValidateMode().Some? ==> err == Some(InvalidMode)
      ensures ValidateMode().None? && ValidateLogger().Some? ==> err == Some(InvalidLogger)
      ensures ValidateMode().None? && ValidateLogger().None? ==> err == DefaultConnectionError(order)
      ensures err.None? <==> ValidateMode().None? && ValidateLogger().None? && UsableDefault(order)
    {
      err := ValidateMode();
      if err.Some? {
        return;
      }
      err := ValidateLogger();
      if err.Some? {
        return;
      }
      err := ValidateDefaultConnection(order);
    }

    /** Replaces the connection set with the parsed text, one new connection per name. */
    method UnmarshalConnectionSet(text: string)
      requires WellFormedSet(text)
      modifies this
      ensures mode == old(mode) && logger == old(logger)
      ensures connections.Keys == ParseConnectionSet(text).Keys
      ensures forall k :: k in connections ==>
                fresh(connections[k]) && connections[k].Value() == ParseConnectionSet(text)[k]
      ensures forall k, k' :: k in connections && k' in connections && k != k' ==>
                connections[k] != connections[k']
    {
      var es := Split(text, ';');
      var m: map<string, Connection> := map[];
      var i := 0;
      while i < |es|
        invariant 0 <= i <= |es|
        invariant mode == old(mode) && logger == old(logger)
        invariant m.Keys == ParseEntries(es[..i]).Keys
        invariant forall k :: k in m ==> fresh(m[k]) && m[k].Value() == ParseEntries(es[..i])[k]
        invariant forall k, k' :: k in m && k' in m && k != k' ==> m[k] != m[k']
      {
        assert es[..i + 1][..i] == es[..i];
        assert es[..i + 1][i] == es[i];
        SplitAtSep(es[i], '=');
        var kv := Split(es[i], '=');
        PaddedFields(kv[1]);
        var vals := Split(kv[1] + ",,", ',');
        var conn := new Connection(ConnectionValue(vals[0], vals[1], vals[2]));
        m := m[kv[0] := conn];
        i := i + 1;
      }
      assert es[..i] == es;
      connections := m;
    }

    /** The named connection with its empty fields filled, in place, from "default". */
    method ConnectionFor(name: string) returns (r: Result<Connection, ConfigError>)
      modifies if name in connections then {connections[name]} else {}
      ensures "default" !in connections ==> r == Failure(NoDefaultFor(name))
      ensures "default" in connections && name !in connections ==> r == Failure(NoConnectionNamed(name))
      ensures "default" in connections && name in connections ==>
                r == Success(connections[name]) &&
                connections[name].Value() ==
                  Filled(old(connections[name].Value()), old(connections["default"].Value())) &&
                connections["default"].Value() == old(connections["default"].Value())
    {
      if "default" !in connections {
        return Failure(NoDefaultFor(name));
      }
      var def := connections["default"];
      if name !in connections {
        return Failure(NoConnectionNamed(name));
      }
      var conn := connections[name];
      if conn.uri == "" {
        conn.uri := def.uri;
      }
      if conn.database == "" {
        conn.database := def.database;
      }
      if conn.collection == "" {
        conn.collection := def.collection;
      }
      return Success(conn);
    }
  }
}
