/** The Redis connection node: the `INFO keyspace` parse behind its children, its
    label and description, the server-version capture and the terminal's tokenising. */
module RedisNode {
  import opened Wrappers
  import opened Strings
  import opened NodeCommon
  import RedisConnection

  // ---------------------------------------------------------------------------
  // INFO keyspace

  /** One database entry: the members of `{ name, ...Object.fromEntries(infoList) }`.
      A value `None` is an entry whose `=` part was missing (undefined). */
  datatype DbEntry = DbEntry(fields: map<string, Option<string>>)

  /** The entry `{ name }` the node adds for its configured database. */
  function NameOnly(name: string): DbEntry {
    DbEntry(map["name" := Some(name)])
  }

  /** `i.split('=')` read as a `[key, value]` entry. */
  function InfoPair(p: string): (string, Option<string>) {
    var kv := Split(p, '=');
    (kv[0], if |kv| >= 2 then Some(kv[1]) else None)
  }

  /** `Object.fromEntries`: every key of the list, with the value of its last entry. */
  function FromEntries(pieces: seq<string>): (r: map<string, Option<string>>)
    ensures r.Keys == set i | 0 <= i < |pieces| :: InfoPair(pieces[i]).0
  {
    if pieces == [] then map[]
    else
      var n := |pieces| - 1;
      var front := pieces[..n];
      var r := FromEntries(front);
      var e := InfoPair(pieces[n]);
      assert (set i | 0 <= i < |pieces| :: InfoPair(pieces[i]).0) ==
             (set i | 0 <= i < n :: InfoPair(front[i]).0) + {e.0} by {
        forall i | 0 <= i < n ensures front[i] == pieces[i] { }
      }
      r[e.0 := e.1]
  }

  /** A key takes the value of its last entry. */
  lemma {:induction false} FromEntriesLastWins(pieces: seq<string>, i: nat)
    requires i < |pieces|
    requires forall j :: i < j < |pieces| ==> InfoPair(pieces[j]).0 != InfoPair(pieces[i]).0
    ensures InfoPair(pieces[i]).0 in FromEntries(pieces)
    ensures FromEntries(pieces)[InfoPair(pieces[i]).0] == InfoPair(pieces[i]).1
  {
    var n := |pieces| - 1;
    if i < n {
      var front := pieces[..n];
      assert front[i] == pieces[i];
      forall j | i < j < n ensures InfoPair(front[j]).0 != InfoPair(front[i]).0 {
        assert front[j] == pieces[j];
      }
      FromEntriesLastWins(front, i);
    }
  }

  const MissingInfos: string := "TypeError: Cannot read properties of undefined (reading 'split')"

  /** The map callback on a trimmed `db` line: the name is the text before the first
      `:` with its first `db` removed, the fields come from the text between the first
      and the second `:` (`split(':', 2)`). A line without `:` has no `infos`, and
      splitting undefined throws. */
  function ParseEntry(t: string): (r: Result<DbEntry>)
    ensures r.Ok? <==> ':' in t
  {
    var pieces := Split(t, ':');
    SplitSingleIff(t, ':');
    if |pieces| < 2 then Err(MissingInfos)
    else Ok(DbEntry(map["name" := Some(RemoveFirst(pieces[0], "db"))] + FromEntries(Split(pieces[1], ','))))
  }

  /** The filter: lines whose trimmed form starts with `db`. */
  predicate IsDbLine(line: string) {
    StartsWith(Trim(line), "db")
  }

  function DbLines(lines: seq<string>): (r: seq<string>)
    ensures forall l :: l in r <==> l in lines && IsDbLine(l)
  {
    if lines == [] then []
    else
      var rest := DbLines(lines[1..]);
      assert forall l :: l in lines <==> l == lines[0] || l in lines[1..];
      (if IsDbLine(lines[0]) then [lines[0]] else []) + rest
  }

  /** The filter keeps the order of the lines: filtering a concatenation filters each part. */
  lemma {:induction false} DbLinesConcat(a: seq<string>, b: seq<string>)
    ensures DbLines(a + b) == DbLines(a) + DbLines(b)
  {
    if a != [] {
      assert (a + b)[0] == a[0];
      assert (a + b)[1..] == a[1..] + b;
      DbLinesConcat(a[1..], b);
    } else {
      assert a + b == b;
    }
  }

  /** The outcome of a `map` whose callback may throw: the first error aborts it. */
  function Collect(rs: seq<Result<DbEntry>>): (r: Result<seq<DbEntry>>)
    ensures r.Ok? <==> forall i :: 0 <= i < |rs| ==> rs[i].Ok?
    ensures r.Ok? ==> |r.value| == |rs| && forall i :: 0 <= i < |rs| ==> rs[i] == Ok(r.value[i])
    ensures r.Err? ==> exists i :: 0 <= i < |rs| && rs[i] == Err(r.message) &&
                                   (forall j :: 0 <= j < i ==> rs[j].Ok?)
  {
    if rs == [] then Ok([])
    else
      var rest := Collect(rs[1..]);
      assert forall i :: 1 <= i < |rs| ==> rs[1..][i - 1] == rs[i];
      if rs[0].Err? then Err(rs[0].message)
      else if rest.Err? then
        var i :| 0 <= i < |rs| - 1 && rs[1..][i] == Err(rest.message) &&
          forall j :: 0 <= j < i ==> rs[1..][j].Ok?;
        assert rs[i + 1] == Err(rest.message);
        Err(rest.message)
      else
        var r := [rs[0].value] + rest.value;
        assert forall i :: 1 <= i < |rs| ==> r[i] == rest.value[i - 1];
        Ok(r)
  }

  /** The databases `INFO keyspace` reports, in reply order: the map callback applied
      to every kept line. */
  function ParseKeyspace(keyspace: string): Result<seq<DbEntry>> {
    var lines := DbLines(Split(keyspace, '\n'));
    Collect(seq(|lines|, i requires 0 <= i < |lines| => ParseEntry(Trim(lines[i]))))
  }

  /** A `db` line names the text after `db` up to the first `:`, unless its fields
      carry a `name` of their own (the spread comes last). */
  lemma {:induction false} EntryName(t: string)
    requires StartsWith(t, "db") && ':' in t
    ensures ParseEntry(t).Ok?
    ensures "name" in ParseEntry(t).value.fields
    ensures |Split(t, ':')[0]| >= 2 && Split(t, ':')[0][..2] == "db"
    ensures "name" !in FromEntries(Split(Split(t, ':')[1], ',')) ==>
      ParseEntry(t).value.fields["name"] == Some(Split(t, ':')[0][2..])
  {
    var rest := t[2..];
    assert t == "db" + rest;
    SplitPrefix("db", rest, ':');
    var first := Split(t, ':')[0];
    assert first == "db" + Split(rest, ':')[0];
    assert StartsWith(first, "db");
    RemoveFirstOfPrefix(first, "db");
  }

  /** `split(':', 2)` keeps two pieces: whatever follows a second `:` is ignored. */
  lemma {:induction false} SecondColonIgnored(a: string, b: string, c: string)
    requires ':' !in a && ':' !in b
    ensures ParseEntry(a + ":" + b + ":" + c) == ParseEntry(a + ":" + b)
  {
    var long := a + ":" + b + ":" + c;
    var short := a + ":" + b;
    assert long == a + ([':'] + (b + ([':'] + c)));
    assert short == a + ([':'] + (b + ""));
    SplitPrefix(a, [':'] + (b + ([':'] + c)), ':');
    SplitAtSeparator(':', b + ([':'] + c));
    SplitPrefix(b, [':'] + c, ':');
    SplitAtSeparator(':', c);
    SplitPrefix(a, [':'] + (b + ""), ':');
    SplitAtSeparator(':', b + "");
    SplitPrefix(b, "", ':');
    assert Split(long, ':')[0] == a && Split(long, ':')[1] == b;
    assert Split(short, ':')[0] == a && Split(short, ':')[1] == b;
  }

  /** Splitting `a<c>b` on `c`, neither part holding `c`, gives the two parts. */
  lemma {:induction false} SplitTwo(a: string, b: string, c: char)
    requires c !in a && c !in b
    ensures Split(a + [c] + b, c) == [a, b]
  {
    SplitJoin([a, b], c);
    assert Join([a, b], c) == a + [c] + b;
  }

  /** A `k=v` piece is the entry `[k, v]`. */
  lemma {:induction false} InfoPairOf(k: string, v: string)
    requires '=' !in k && '=' !in v
    ensures InfoPair(k + "=" + v) == (k, Some(v))
  {
    SplitTwo(k, v, '=');
  }

  /** Two pieces: the later one is entered last. */
  lemma {:induction false} FromEntriesTwo(p1: string, p2: string)
    ensures FromEntries([p1, p2]) == map[InfoPair(p1).0 := InfoPair(p1).1][InfoPair(p2).0 := InfoPair(p2).1]
  {
    var pieces := [p1, p2];
    assert pieces[..1] == [p1];
    assert pieces[..1][..0] == [];
  }

  /** A line `db<n>:<k1>=<v1>,<k2>=<v2>` gives the name `<n>` and the two fields, the
      later one winning on a repeated key and either one overriding the name. */
  lemma {:induction false} TwoFieldEntry(n: string, k1: string, v1: string, k2: string, v2: string)
    requires ':' !in n && ':' !in k1 && ':' !in v1 && ':' !in k2 && ':' !in v2
    requires ',' !in k1 && ',' !in v1 && ',' !in k2 && ',' !in v2
    requires '=' !in k1 && '=' !in v1 && '=' !in k2 && '=' !in v2
    ensures ParseEntry("db" + n + ":" + k1 + "=" + v1 + "," + k2 + "=" + v2) ==
      Ok(DbEntry(map["name" := Some(n)][k1 := Some(v1)][k2 := Some(v2)]))
  {
    var p1 := k1 + "=" + v1;
    var p2 := k2 + "=" + v2;
    var infos := p1 + "," + p2;
    var t := "db" + n + ":" + infos;
    assert "db" + n + ":" + k1 + "=" + v1 + "," + k2 + "=" + v2 == t;
    assert ':' !in infos && ':' !in "db" + n;
    SplitTwo("db" + n, infos, ':');
    SplitTwo(p1, p2, ',');
    InfoPairOf(k1, v1);
    InfoPairOf(k2, v2);
    FromEntriesTwo(p1, p2);
    RemoveFirstOfPrefix("db" + n, "db");
    assert ("db" + n)[2..] == n;
    assert map["name" := Some(n)] + map[k1 := Some(v1)][k2 := Some(v2)] ==
           map["name" := Some(n)][k1 := Some(v1)][k2 := Some(v2)];
  }

  /** The figures of `db3:keys=5,expires=0`. */
  lemma {:induction false} KeyspaceLineExample()
    ensures ParseEntry("db" + "3" + ":" + "keys" + "=" + "5" + "," + "expires" + "=" + "0") ==
      Ok(DbEntry(map["name" := Some("3"), "keys" := Some("5"), "expires" := Some("0")]))
  {
    TwoFieldEntry("3", "keys", "5", "expires", "0");
  }

  /** Some entry is named `n`. */
  predicate HasName(dbs: seq<DbEntry>, n: string) {
    exists i :: 0 <= i < |dbs| && "name" in dbs[i].fields && dbs[i].fields["name"] == Some(n)
  }

  // ---------------------------------------------------------------------------
  // server version

  predicate IsLineTerminator(c: char) {
    c == '\n' || c == '\r' || c as int == 0x2028 || c as int == 0x2029
  }

  const VersionMarker: string := "redis_version:"

  /** The text up to the end of the line (what `.+` captures greedily). */
  function RestOfLine(s: string): (r: string)
    ensures |r| <= |s| && r == s[..|r|]
    ensures forall i :: 0 <= i < |r| ==> !IsLineTerminator(r[i])
    ensures |r| == |s| || IsLineTerminator(s[|r|])
  {
    if s == [] || IsLineTerminator(s[0]) then [] else [s[0]] + RestOfLine(s[1..])
  }

  /** `/redis_version:(.+)/` can match at `i`: the marker followed by at least one
      character on the same line. */
  predicate MatchesAt(s: string, i: nat) {
    i + |VersionMarker| < |s| && s[i..i + |VersionMarker|] == VersionMarker &&
    !IsLineTerminator(s[i + |VersionMarker|])
  }

  /** `i` is the leftmost match and `v` its capture. */
  predicate LeftmostMatch(s: string, i: nat, v: string) {
    i < |s| && MatchesAt(s, i) && (forall j :: 0 <= j < i ==> !MatchesAt(s, j)) &&
    v == RestOfLine(s[i + |VersionMarker|..])
  }

  /** The capture group of the leftmost match, or `None` when the regex does not match. */
  function MatchVersion(s: string): (r: Option<string>)
    decreases |s|
  {
    if s == [] then None
    else if MatchesAt(s, 0) then Some(RestOfLine(s[|VersionMarker|..]))
    else MatchVersion(s[1..])
  }

  lemma {:induction false} MatchesAtShift(s: string, i: nat)
    requires s != []
    ensures MatchesAt(s[1..], i) <==> MatchesAt(s, i + 1)
  {
    if i + 1 + |VersionMarker| < |s| {
      assert s[1..][i..i + |VersionMarker|] == s[i + 1..i + 1 + |VersionMarker|];
    }
  }

  /** `MatchVersion` finds no capture exactly when the regex matches nowhere, and
      otherwise returns the non-empty rest of the line after the leftmost marker. */
  lemma {:induction false} MatchVersionIsLeftmost(s: string)
    ensures MatchVersion(s).None? <==> forall i :: 0 <= i < |s| ==> !MatchesAt(s, i)
    ensures MatchVersion(s).Some? ==> exists i :: LeftmostMatch(s, i, MatchVersion(s).value)
    ensures MatchVersion(s).Some? ==> MatchVersion(s).value != []
    decreases |s|
  {
    if s == [] {
    } else if MatchesAt(s, 0) {
      assert LeftmostMatch(s, 0, RestOfLine(s[|VersionMarker|..]));
    } else {
      var t := s[1..];
      MatchVersionIsLeftmost(t);
      forall i | 0 <= i < |t| ensures MatchesAt(t, i) <==> MatchesAt(s, i + 1) {
        MatchesAtShift(s, i);
      }
      var r := MatchVersion(t);
      if r.Some? {
        var i: nat :| LeftmostMatch(t, i, r.value);
        assert t[i + |VersionMarker|..] == s[i + 1 + |VersionMarker|..];
        forall j | 0 <= j < i + 1 ensures !MatchesAt(s, j) {
          if j > 0 { MatchesAtShift(s, j - 1); }
        }
        assert LeftmostMatch(s, i + 1, r.value);
      } else {
        forall j | 0 <= j < |s| ensures !MatchesAt(s, j) {
          if j > 0 { MatchesAtShift(s, j - 1); }
        }
      }
    }
  }

  // ---------------------------------------------------------------------------
  // terminal

  /** The terminal's `exec` handler: nothing for empty input, else the tokenised command. */
  function Exec(content: string): (r: Option<RedisConnection.Command>)
    ensures r.None? <==> content == ""
    ensures r.Some? ==> r.value == RedisConnection.Tokenise(content)
  {
    if content == "" then None else Some(RedisConnection.Tokenise(content))
  }

  // ---------------------------------------------------------------------------
  // the node

  /** Label and description before the disabled and version rules; a tunnelled
      descriptor without SSH settings throws while the label is built. */
  function InitialDisplay(node: NodeConfig, parentName: string, preferName: bool): (r: Result<Display>)
    ensures r.Err? <==> !SshReadable(node)
    ensures r.Err? ==> r.message == NoSshHostError
    ensures r.Ok? ==> r.value == NamedDisplay(Display(EndpointLabel(node).value, None), parentName, preferName)
  {
    match EndpointLabel(node)
    case Err(e) => Err(e)
    case Ok(l) => Ok(NamedDisplay(Display(l, None), parentName, preferName))
  }

  class RedisConnectionNode {
    const key: string
    const node: NodeConfig
    var labelText: string
    var description: Option<string>
    /** Whether the item can be expanded; the base class's own state otherwise. */
    var collapsible: bool
    /** Whether construction started a version request (`getVerison` past its cache check). */
    var versionRequested: bool

    /** The state a construction that gets past the label leaves: the label and
        description of `InitialDisplay`, then ` closed` and an early return for a
        disabled connection, otherwise a cached version appended or a request. */
    predicate Initial(key: string, node: NodeConfig, parentName: string, preferName: bool, versions: VersionMap)
      reads this, versions
    {
      && InitialDisplay(node, parentName, preferName).Ok?
      && this.key == key && this.node == node
      && var shown := InitialDisplay(node, parentName, preferName).value;
      && labelText == shown.labelText
      && (node.disable ==>
            description == Some(AppendDescription(shown.description, " closed")) &&
            !collapsible && !versionRequested)
      && (!node.disable && versions.Cached(key).Some? ==>
            description == Some(AppendDescription(shown.description, " " + versions.Cached(key).value)) &&
            collapsible && !versionRequested)
      && (!node.disable && versions.Cached(key).None? ==>
            description == shown.description && collapsible && versionRequested)
    }

    /** The constructor past the label, which only a descriptor with readable SSH
        settings reaches (`Create` is the whole `new`); `versions` is the class's
        static version map. */
    constructor (key: string, node: NodeConfig, parentName: string, preferName: bool, versions: VersionMap)
      requires SshReadable(node)
      ensures Initial(key, node, parentName, preferName, versions)
    {
      this.key := key;
      this.node := node;
      collapsible := true;
      versionRequested := false;
      labelText := if node.usingSSH then HostAtPort(node.ssh.value.host, node.ssh.value.port)
                   else HostAtPort(node.host, node.port);
      description := None;
      new;
      if parentName != "" {
        if preferName {
          labelText := parentName;
        } else {
          description := Some(parentName);
        }
      }
      if node.disable {
        collapsible := false;
        description := Some(description.GetOr("") + " closed");
      } else {
        var version := versions.Cached(key);
        if version.Some? {
          description := Some(description.GetOr("") + (" " + version.value));
        }
        versionRequested := version.None?;
      }
    }

    /** `new RedisConnectionNode(key, parent)`: throws reading `ssh.host` when the
        descriptor is tunnelled without SSH settings, and otherwise is the node the
        constructor builds. */
    static method Create(key: string, node: NodeConfig, parentName: string, preferName: bool, versions: VersionMap)
      returns (r: Result<RedisConnectionNode>)
      ensures r.Err? <==> !SshReadable(node)
      ensures r.Err? ==> r.message == NoSshHostError
      ensures r.Ok? ==> fresh(r.value) && r.value.Initial(key, node, parentName, preferName, versions)
    {
      if node.usingSSH && node.ssh.None? {
        return Err(NoSshHostError);
      }
      var n := new RedisConnectionNode(key, node, parentName, preferName, versions);
      r := Ok(n);
    }

    /** The reply to the version request: the captured version becomes the whole
        description and is stored under the node's key. Without a match, reading
        the capture of `null` throws and nothing changes. */
    method VersionArrived(serverInfo: string, versions: VersionMap) returns (outcome: Result<string>)
      requires versionRequested
      modifies this`description, versions
      ensures MatchVersion(serverInfo).None? ==>
        outcome.Err? && description == old(description) && versions.versions == old(versions.versions)
      ensures MatchVersion(serverInfo).Some? ==>
        outcome == Ok(MatchVersion(serverInfo).value) &&
        description == Some(" " + MatchVersion(serverInfo).value) &&
        versions.versions == old(versions.versions)[key := Some(MatchVersion(serverInfo).value)]
    {
      var m := MatchVersion(serverInfo);
      if m.None? {
        return Err("TypeError: Cannot read properties of null (reading '1')");
      }
      description := Some(" " + m.value);
      versions.versions := versions.versions[key := Some(m.value)];
      outcome := Ok(m.value);
    }

    /** `getChildren` on the reply to `INFO keyspace`: the parsed entries; a single
        entry for the configured database (or `0`) when none are reported; and the
        configured database put in front when it is set but not reported. */
    method GetChildren(keyspace: string) returns (children: Result<seq<DbEntry>>)
      ensures ParseKeyspace(keyspace).Err? ==> children == ParseKeyspace(keyspace)
      ensures ParseKeyspace(keyspace).Ok? && ParseKeyspace(keyspace).value == [] ==>
        children == Ok([NameOnly(if node.database != "" then node.database else "0")])
      ensures ParseKeyspace(keyspace).Ok? && ParseKeyspace(keyspace).value != [] ==>
        children.Ok? &&
        (if node.database != "" && !HasName(ParseKeyspace(keyspace).value, node.database)
         then children.value == [NameOnly(node.database)] + ParseKeyspace(keyspace).value
         else children.value == ParseKeyspace(keyspace).value)
      ensures children.Ok? && node.database != "" ==> HasName(children.value, node.database)
    {
      var parsed := ParseKeyspace(keyspace);
      if parsed.Err? {
        return parsed;
      }
      var dbs := parsed.value;
      if |dbs| == 0 {
        var only := NameOnly(if node.database != "" then node.database else "0");
        assert only.fields["name"] == Some(if node.database != "" then node.database else "0");
        assert node.database != "" ==> HasName([only], node.database) by {
          if node.database != "" { assert [only][0] == only; }
        }
        return Ok([only]);
      }
      if node.database != "" && !HasName(dbs, node.database) {
        dbs := [NameOnly(node.database)] + dbs;
        assert dbs[0].fields["name"] == Some(node.database);
      }
      children := Ok(dbs);
    }
  }
}
