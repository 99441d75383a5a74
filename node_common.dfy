/** What the tree nodes of every backend share: the backend type, the SSH part of a
    connection descriptor, the label rules of connection nodes and the process-wide
    cache of reported server versions. */
module NodeCommon {
  import opened Wrappers
  import opened Strings

  /** The backend families the core distinguishes. `wrapByDb` compares against the
      display names 'PostgreSQL', 'SqlServer' and 'MongoDB'; the enumeration's other
      values only matter as "something else", which `Other` stands for. */
  datatype DatabaseType =
    | MySQL | PostgreSQL | SqlServer | SQLite | MongoDB | ClickHouse
    | Redis | ElasticSearch | SSH | Other

  datatype SshAlgorithms = SshAlgorithms(cipher: seq<string>)

  /** The SSH part of a connection descriptor (the members the core reads or writes). */
  datatype SshConfig = SshConfig(
    host: string,
    port: nat,
    key: string,
    tunnelPort: Option<nat>,
    algorithms: Option<SshAlgorithms>)

  /** The members of a connection descriptor that the core reads. Strings the core
      only tests for truthiness use "" for both unset and empty; a `connectTimeout`
      of 0 likewise stands for unset. */
  datatype NodeConfig = NodeConfig(
    key: string,
    dbType: DatabaseType,
    host: string,
    port: nat,
    user: string,
    password: string,
    database: string,
    connectTimeout: nat,
    useSSL: bool,
    caPath: string,
    clientCertPath: string,
    clientKeyPath: string,
    isCluster: bool,
    usingSSH: bool,
    ssh: Option<SshConfig>,
    disable: bool,
    global: bool)

  /** The SSH endpoint is readable whenever the descriptor says it is tunnelled. */
  predicate SshReadable(node: NodeConfig) {
    node.usingSSH ==> node.ssh.Some?
  }

  /** What reading `this.ssh.host` throws when the descriptor is tunnelled but carries
      no SSH settings. */
  const NoSshHostError: string := "TypeError: Cannot read properties of undefined (reading 'host')"

  /** `${host}@${port}`. */
  function HostAtPort(host: string, port: nat): string {
    host + "@" + NatToString(port)
  }

  /** The default label of a connection node: the SSH endpoint when the connection is
      tunnelled, the backend endpoint otherwise; a tunnelled descriptor without SSH
      settings throws instead. */
  function EndpointLabel(node: NodeConfig): (r: Result<string>)
    ensures r.Err? <==> !SshReadable(node)
    ensures r.Err? ==> r.message == NoSshHostError
    ensures node.usingSSH && node.ssh.Some? ==> r == Ok(HostAtPort(node.ssh.value.host, node.ssh.value.port))
    ensures !node.usingSSH ==> r == Ok(HostAtPort(node.host, node.port))
  {
    if !node.usingSSH then Ok(HostAtPort(node.host, node.port))
    else if node.ssh.None? then Err(NoSshHostError)
    else Ok(HostAtPort(node.ssh.value.host, node.ssh.value.port))
  }

  /** The two texts a tree item shows. */
  datatype Display = Display(labelText: string, description: Option<string>)

  /** The parent-name rule of connection nodes: a non-empty connection name replaces
      the label when `preferConnectionName` is on and becomes the description otherwise. */
  function NamedDisplay(d: Display, parentName: string, preferName: bool): (r: Display)
    ensures parentName == "" ==> r == d
    ensures parentName != "" && preferName ==> r == Display(parentName, d.description)
    ensures parentName != "" && !preferName ==> r == Display(d.labelText, Some(parentName))
  {
    if parentName == "" then d
    else if preferName then d.(labelText := parentName)
    else d.(description := Some(parentName))
  }

  /** `(description || '') + suffix`. */
  function AppendDescription(description: Option<string>, suffix: string): (r: string)
    ensures description.Some? ==> r == description.value + suffix
    ensures description.None? ==> r == suffix
  {
    description.GetOr("") + suffix
  }

  /** The static `versionMap` of a node class: connection key to reported version;
      `None` is an entry that holds `undefined`. */
  class VersionMap {
    var versions: map<string, Option<string>>

    constructor ()
      ensures versions == map[]
    {
      versions := map[];
    }

    /** `versionMap[key]` when it is truthy (present, defined and not empty). */
    function Cached(key: string): (r: Option<string>)
      reads this
      ensures r.Some? <==> key in versions && versions[key].Some? && versions[key].value != ""
      ensures r.Some? ==> Some(r.value) == versions[key]
    {
      if key in versions && versions[key].Some? && versions[key].value != "" then versions[key] else None
    }
  }
}
