/** An Elasticsearch connection node: its label (which depends on the extension
    version), description and icon, its fixed children, and the file name of a
    new query. */
module EsConnection {
  import opened Wrappers
  import opened Strings
  import opened NodeCommon
  import opened Files

  const Http: string := "http://"
  const Https: string := "https://"

  /** Whether `http://` or `https://` starts at position `i` of `s`. */
  predicate SchemeAt(s: string, i: nat)
    requires i <= |s|
  {
    StartsWith(s[i..], Http) || StartsWith(s[i..], Https)
  }

  /** `s.replace(/(http:\/\/|https:\/\/)/, '')`: the leftmost scheme is removed. */
  function RemoveScheme(s: string): (r: string)
    decreases |s|
  {
    if StartsWith(s, Http) then s[|Http|..]
    else if StartsWith(s, Https) then s[|Https|..]
    else if s == [] then []
    else [s[0]] + RemoveScheme(s[1..])
  }

  /** The two schemes cannot both start a text (they differ at position 4). */
  lemma {:induction false} SchemesExclusive(s: string)
    ensures StartsWith(s, Https) ==> !StartsWith(s, Http)
  {
    if StartsWith(s, Https) {
      assert s[4] == Https[4] != Http[4];
    }
  }

  /** The length of the scheme that starts `t`. */
  function SchemeLength(t: string): nat {
    if StartsWith(t, Http) then |Http| else |Https|
  }

  /** Dropping the first character shifts scheme positions down by one. */
  lemma {:induction false} SchemeShift(s: string, j: nat)
    requires s != [] && j <= |s| - 1
    ensures SchemeAt(s[1..], j) == SchemeAt(s, j + 1)
  {
    assert s[1..][j..] == s[j + 1..];
  }

  /** Without any scheme in it the text is unchanged. */
  lemma {:induction false} RemoveSchemeAbsent(s: string)
    requires forall i :: 0 <= i <= |s| ==> !SchemeAt(s, i)
    ensures RemoveScheme(s) == s
    decreases |s|
  {
    assert s[0..] == s;
    assert !SchemeAt(s, 0);
    if s != [] {
      var t := s[1..];
      forall i | 0 <= i <= |t| ensures !SchemeAt(t, i) {
        SchemeShift(s, i);
        assert !SchemeAt(s, i + 1);
      }
      RemoveSchemeAbsent(t);
      assert s == [s[0]] + t;
    }
  }

  /** A scheme at the very start is what is removed. */
  lemma {:induction false} RemoveSchemeAtStart(s: string)
    requires StartsWith(s, Http) || StartsWith(s, Https)
    ensures SchemeLength(s) <= |s|
    ensures RemoveScheme(s) == s[SchemeLength(s)..]
  {
    SchemesExclusive(s);
  }

  /** Without a scheme at the start, the first character is kept and the search
      goes on in the rest. */
  lemma {:induction false} RemoveSchemeStep(s: string)
    requires s != [] && !SchemeAt(s, 0)
    ensures RemoveScheme(s) == [s[0]] + RemoveScheme(s[1..])
  {
    assert s[0..] == s;
  }

  /** No scheme before `i + 1` in `s` means none before `i` in its tail. */
  lemma {:induction false} NoSchemeBeforeShift(s: string, i: nat)
    requires s != [] && i + 1 <= |s|
    requires forall j :: 0 <= j < i + 1 ==> !SchemeAt(s, j)
    ensures forall j :: 0 <= j < i ==> !SchemeAt(s[1..], j)
  {
    forall j | 0 <= j < i ensures !SchemeAt(s[1..], j) {
      SchemeShift(s, j);
    }
  }

  /** A front part without any scheme starting in it is kept as it is. */
  lemma {:induction false} RemoveSchemePrefix(s: string, i: nat)
    requires i <= |s|
    requires forall j :: 0 <= j < i ==> !SchemeAt(s, j)
    ensures RemoveScheme(s) == s[..i] + RemoveScheme(s[i..])
    decreases i
  {
    if i == 0 {
      assert s[..0] == [] && s[0..] == s;
    } else {
      var t := s[1..];
      RemoveSchemeStep(s);
      NoSchemeBeforeShift(s, i - 1);
      RemoveSchemePrefix(t, i - 1);
      assert t[i - 1..] == s[i..];
      ConsSlices(s, i, RemoveScheme(s), RemoveScheme(t), RemoveScheme(s[i..]));
    }
  }

  /** Putting the first character back in front of a split of the tail. */
  lemma {:induction false} ConsSlices(s: string, i: nat, r: string, rt: string, rest: string)
    requires 0 < i <= |s|
    requires r == [s[0]] + rt && rt == s[1..][..i - 1] + rest
    ensures r == s[..i] + rest
  {
    assert s[..i] == [s[0]] + s[1..][..i - 1];
  }

  /** The leftmost scheme, at `i`, is cut out and the text around it is kept. */
  lemma {:induction false} RemoveSchemeLeftmost(s: string, i: nat)
    requires i <= |s| && SchemeAt(s, i)
    requires forall j :: 0 <= j < i ==> !SchemeAt(s, j)
    ensures i + SchemeLength(s[i..]) <= |s|
    ensures RemoveScheme(s) == s[..i] + s[i + SchemeLength(s[i..])..]
  {
    RemoveSchemePrefix(s, i);
    var t := s[i..];
    RemoveSchemeAtStart(t);
    var n := SchemeLength(t);
    assert t[n..] == s[i + n..];
  }

  /** A host written as a URL loses its scheme and keeps the rest. */
  lemma {:induction false} RemoveSchemeOfUrl(scheme: string, rest: string)
    requires scheme == Http || scheme == Https
    ensures RemoveScheme(scheme + rest) == rest
  {
    var s := scheme + rest;
    assert s[..|scheme|] == scheme;
    SchemesExclusive(s);
    assert s[|scheme|..] == rest;
  }

  /** The label with the version test expressed as the boolean `newer` (the extension
      version is above 3.6.6): the SSH endpoint whenever the connection is tunnelled;
      otherwise the host without its scheme when newer, `host@port` when not. In both
      branches a tunnelled descriptor without SSH settings throws reading `ssh.host`. */
  function EsLabel(node: NodeConfig, newer: bool): (r: Result<string>)
    ensures r.Err? <==> !SshReadable(node)
    ensures r.Err? ==> r.message == NoSshHostError
    ensures node.usingSSH && node.ssh.Some? ==> r == Ok(HostAtPort(node.ssh.value.host, node.ssh.value.port))
    ensures !node.usingSSH && newer ==> r == Ok(RemoveScheme(node.host))
    ensures !node.usingSSH && !newer ==> r == Ok(HostAtPort(node.host, node.port))
  {
    if !newer then EndpointLabel(node)
    else if !node.usingSSH then Ok(RemoveScheme(node.host))
    else if node.ssh.None? then Err(NoSshHostError)
    else Ok(HostAtPort(node.ssh.value.host, node.ssh.value.port))
  }

  /** `http:` and `https:` cannot both start a text. */
  lemma {:induction false} PrefixesExclusive(s: string)
    ensures StartsWith(s, "https:") ==> !StartsWith(s, "http:")
  {
    if StartsWith(s, "https:") {
      assert s[4] == "https:"[4] != "http:"[4];
    }
  }

  /** `host.replace(/^(http|https):/, '')`: a leading `http:` or `https:` is removed. */
  function StripLeadingScheme(host: string): (r: string)
    ensures StartsWith(host, "http:") ==> r == host[5..]
    ensures StartsWith(host, "https:") ==> r == host[6..]
    ensures !StartsWith(host, "http:") && !StartsWith(host, "https:") ==> r == host
  {
    PrefixesExclusive(host);
    if StartsWith(host, "http:") then host[5..]
    else if StartsWith(host, "https:") then host[6..]
    else host
  }

  /** The file name of a new query: the host without a leading scheme and without
      any `/`, followed by `.es`. */
  function QueryFileName(host: string): (r: string)
    ensures |r| >= 3 && r[|r| - 3..] == ".es"
    ensures forall i :: 0 <= i < |r| - 3 ==> r[i] != '/'
  {
    RemoveChars(StripLeadingScheme(host), {'/'}) + ".es"
  }

  /** For a URL `scheme://rest`, the file name is `rest` with its slashes removed,
      followed by `.es` (`http://localhost:9200` gives `localhost:9200.es`). */
  lemma {:induction false} QueryFileNameOfUrl(scheme: string, rest: string)
    requires scheme == "http" || scheme == "https"
    ensures QueryFileName(scheme + "://" + rest) == RemoveChars(rest, {'/'}) + ".es"
  {
    var h := scheme + "://" + rest;
    var stripped := h[|scheme| + 1..];
    assert h[..|scheme| + 1] == scheme + ":";
    PrefixesExclusive(h);
    assert StripLeadingScheme(h) == stripped;
    assert stripped == "//" + rest;
    RemoveCharsConcat("//", rest, {'/'});
    assert RemoveChars("//", {'/'}) == [];
  }

  /** A host without scheme or slash names its file directly. */
  lemma {:induction false} QueryFileNameOfPlainHost(host: string)
    requires !StartsWith(host, "http:") && !StartsWith(host, "https:")
    requires forall i :: 0 <= i < |host| ==> host[i] != '/'
    ensures QueryFileName(host) == host + ".es"
  {
    RemoveCharsClean(host, {'/'});
  }

  /** The children of a connection: the index group and the query group. */
  datatype EsChild = EsIndexGroup(parentKey: string) | QueryGroup(parentKey: string)

  /** Label and description before the disabled and version rules; a tunnelled
      descriptor without SSH settings throws while the label is built. */
  function InitialDisplay(node: NodeConfig, newer: bool, parentName: string, preferName: bool): (r: Result<Display>)
    ensures r.Err? <==> !SshReadable(node)
    ensures r.Err? ==> r.message == NoSshHostError
    ensures r.Ok? ==> r.value == NamedDisplay(Display(EsLabel(node, newer).value, None), parentName, preferName)
  {
    match EsLabel(node, newer)
    case Err(e) => Err(e)
    case Ok(l) => Ok(NamedDisplay(Display(l, None), parentName, preferName))
  }

  const IconFile: string := "icon/elasticsearch.svg"
  const ServerIconDir: string := "/icon/server/"

  /** The server icon: the active variant when the connection is the active one. */
  function ServerIcon(resPath: string, active: bool): (r: string)
    ensures active ==> r == resPath + ServerIconDir + "elasticsearch_active.svg"
    ensures !active ==> r == resPath + ServerIconDir + "elasticsearch.svg"
  {
    resPath + ServerIconDir + (if active then "elasticsearch_active.svg" else "elasticsearch.svg")
  }

  class EsConnectionNode {
    const key: string
    const node: NodeConfig
    var labelText: string
    var description: Option<string>
    var iconPath: string
    /** Whether the item can be expanded; the base class's own state otherwise. */
    var collapsible: bool
    /** Whether construction sent the `get /` version request. */
    var versionRequested: bool

    /** The state a construction that gets past the label leaves: the label and
        description of `InitialDisplay`; ` closed` and an early return for a disabled
        connection; otherwise a cached version as the description or a request, and
        the server icon. */
    predicate Initial(key: string, node: NodeConfig, parentName: string, preferName: bool,
                      newer: bool, active: bool, resPath: string, versions: VersionMap)
      reads this, versions
    {
      && InitialDisplay(node, newer, parentName, preferName).Ok?
      && this.key == key && this.node == node
      && var shown := InitialDisplay(node, newer, parentName, preferName).value;
      && labelText == shown.labelText
      && (node.disable ==>
            description == Some(AppendDescription(shown.description, " closed")) &&
            iconPath == resPath + "/" + IconFile && !collapsible && !versionRequested)
      && (!node.disable && versions.Cached(key).Some? ==>
            description == versions.Cached(key) && !versionRequested)
      && (!node.disable && versions.Cached(key).None? ==>
            description == shown.description && versionRequested)
      && (!node.disable ==> collapsible && iconPath == ServerIcon(resPath, active))
    }

    /** The constructor past the label, which only a descriptor with readable SSH
        settings reaches (`Create` is the whole `new`). `newer` is the
        extension-version test, `active` whether the connection is the active one,
        `resPath` the resource directory and `versions` the class's static version map. */
    constructor (key: string, node: NodeConfig, parentName: string, preferName: bool,
                 newer: bool, active: bool, resPath: string, versions: VersionMap)
      requires SshReadable(node)
      ensures Initial(key, node, parentName, preferName, newer, active, resPath, versions)
    {
      this.key := key;
      this.node := node;
      iconPath := resPath + "/" + IconFile;
      collapsible := true;
      versionRequested := false;
      var shown := InitialDisplay(node, newer, parentName, preferName).value;
      labelText := shown.labelText;
      description := shown.description;
      new;
      if node.disable {
        collapsible := false;
        description := Some(description.GetOr("") + " closed");
      } else {
        var version := versions.Cached(key);
        if version.Some? {
          description := version;
        } else {
          versionRequested := true;
        }
        iconPath := resPath + ServerIconDir + (if active then "elasticsearch_active.svg" else "elasticsearch.svg");
      }
    }

    /** `new EsConnectionNode(key, parent)`: throws reading `ssh.host` when the
        descriptor is tunnelled without SSH settings, and otherwise is the node the
        constructor builds. */
    static method Create(key: string, node: NodeConfig, parentName: string, preferName: bool,
                         newer: bool, active: bool, resPath: string, versions: VersionMap)
      returns (r: Result<EsConnectionNode>)
      ensures r.Err? <==> !SshReadable(node)
      ensures r.Err? ==> r.message == NoSshHostError
      ensures r.Ok? ==> fresh(r.value) && r.value.Initial(key, node, parentName, preferName, newer, active, resPath, versions)
    {
      if node.usingSSH && node.ssh.None? {
        return Err(NoSshHostError);
      }
      var n := new EsConnectionNode(key, node, parentName, preferName, newer, active, resPath, versions);
      r := Ok(n);
    }

    /** The reply to `get /`: `number` is `res.version.number` (`Some(None)` when the
        version has no number), or `None` when reading it throws (the error is only
        logged). The number, defined or not, becomes the whole description and is
        stored under the node's key. */
    method VersionArrived(number: Option<Option<string>>, versions: VersionMap)
      requires versionRequested
      modifies this`description, versions
      ensures number.None? ==> description == old(description) && versions.versions == old(versions.versions)
      ensures number.Some? ==>
        description == number.value && versions.versions == old(versions.versions)[key := number.value]
    {
      if number.Some? {
        description := number.value;
        versions.versions := versions.versions[key := description];
      }
    }

    /** `getChildren`: always the index group followed by the query group. */
    method GetChildren() returns (children: seq<EsChild>)
      ensures children == [EsIndexGroup(key), QueryGroup(key)]
    {
      children := [EsIndexGroup(key), QueryGroup(key)];
    }

    /** `newQuery`: the query template (`query`) opened through `showSQLTextDocument`
        under the host's file name, in write mode; `uidFor` is the node's `getUid`. */
    method NewQuery(fm: FileManager, uidFor: bool -> string, query: string) returns (r: Result<string>)
      modifies fm`files, fm`dirs
      ensures var o := fm.RecordOutcome(old(fm.files), old(fm.dirs),
                                        fm.SqlDocumentName(node.dbType, uidFor, Some(QueryFileName(node.host))),
                                        query, Some(Write));
        r == o.result && fm.files == o.files && fm.dirs == o.dirs
    {
      r := fm.ShowSqlTextDocument(node.dbType, uidFor, query, Some(QueryFileName(node.host)), None);
    }

    /** `copyName`: the SSH host when tunnelled, the backend host otherwise; a
        tunnelled descriptor without SSH settings throws reading `ssh.host`. */
    function CopyName(): (r: Result<string>)
      ensures r.Err? <==> !SshReadable(node)
      ensures r.Err? ==> r.message == NoSshHostError
      ensures node.usingSSH && node.ssh.Some? ==> r == Ok(node.ssh.value.host)
      ensures !node.usingSSH ==> r == Ok(node.host)
    {
      if !node.usingSSH then Ok(node.host)
      else if node.ssh.None? then Err(NoSshHostError)
      else Ok(node.ssh.value.host)
    }
  }
}
