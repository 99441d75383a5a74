/** The connection service: the key filter used when the connection configuration
    is serialised, the SQLite availability and install-command rules, the order of
    the connection-manager calls in `connect`, and the preparation of a node for the
    edit form. */
module ConnectService {
  import opened Wrappers
  import opened Json
  import opened NodeCommon

  // ---------------------------------------------------------------------------
  // the `trim` replacer

  /** The keys whose values `trim` drops. `descriptionz` is spelled that way, so
      `description` is not among them. */
  const TrimmedKeys: set<string> := {
    "iconPath", "contextValue", "parent", "key", "label", "id", "resourceUri",
    "pattern", "level", "tooltip", "descriptionz", "collapsibleState",
    "terminalService", "forwardService", "file", "parentName", "connectionKey",
    "sshConfig", "fullPath", "uid", "command", "dialect", "provider", "context",
    "isGlobal"}

  /** `description` is kept and its misspelling dropped. */
  lemma {:induction false} TrimmedKeysFacts()
    ensures "description" !in TrimmedKeys && "descriptionz" in TrimmedKeys
  {
  }

  /** `trim(key, value)`: `None` (undefined, so the member is left out) for a listed
      key, the value unchanged for any other. */
  function Trim(key: string, value: Json): (r: Option<Json>)
    ensures r.None? <==> key in TrimmedKeys
    ensures r.Some? ==> r.value == value
  {
    if key in TrimmedKeys then None else Some(value)
  }

  /** `JSON.stringify` with `trim` as replacer, on the value level: every object, at
      every depth, loses its members with a listed key; array elements are visited
      with their index as key, which is never listed. */
  function Filter(v: Json): Json
    decreases v, 1
  {
    match v
    case JArray(items) => JArray(FilterItems(items))
    case JObject(ms) => JObject(FilterMembers(ms))
    case _ => v
  }

  function FilterItems(items: seq<Json>): (r: seq<Json>)
    ensures |r| == |items|
    decreases items, 0
  {
    if items == [] then [] else [Filter(items[0])] + FilterItems(items[1..])
  }

  function FilterMembers(ms: seq<(string, Json)>): (r: seq<(string, Json)>)
    ensures forall i :: 0 <= i < |r| ==> r[i].0 !in TrimmedKeys
    decreases ms, 0
  {
    if ms == [] then []
    else
      var front := FilterMembers(ms[..|ms| - 1]);
      var m := ms[|ms| - 1];
      if Trim(m.0, m.1).None? then front else front + [FilterMember(m)]
  }

  /** A kept member, with its value filtered. */
  function FilterMember(m: (string, Json)): (r: (string, Json))
    ensures r.0 == m.0
    decreases m, 0
  {
    (m.0, Filter(m.1))
  }

  /** No object inside the value has a listed key. */
  predicate Clean(v: Json)
    decreases v, 1
  {
    match v
    case JArray(items) => CleanItems(items)
    case JObject(ms) => CleanMembers(ms)
    case _ => true
  }

  predicate CleanItems(items: seq<Json>)
    decreases items, 0
  {
    items == [] || (Clean(items[0]) && CleanItems(items[1..]))
  }

  predicate CleanMembers(ms: seq<(string, Json)>)
    decreases ms, 0
  {
    forall i :: 0 <= i < |ms| ==> CleanMember(ms[i])
  }

  predicate CleanMember(m: (string, Json))
    decreases m, 0
  {
    m.0 !in TrimmedKeys && Clean(m.1)
  }

  /** The filtered value is clean, and a clean value is left as it is. */
  lemma {:induction false} FilterCleans(v: Json)
    ensures Clean(Filter(v))
    ensures Clean(v) ==> Filter(v) == v
    decreases v, 1
  {
    match v
    case JArray(items) => FilterCleansItems(items);
    case JObject(ms) => FilterCleansMembers(ms);
    case _ =>
  }

  lemma {:induction false} FilterCleansItems(items: seq<Json>)
    ensures CleanItems(FilterItems(items))
    ensures CleanItems(items) ==> FilterItems(items) == items
    decreases items, 0
  {
    if items != [] {
      FilterCleans(items[0]);
      FilterCleansItems(items[1..]);
      var r := FilterItems(items);
      assert r[0] == Filter(items[0]) && r[1..] == FilterItems(items[1..]);
      if CleanItems(items) {
        assert items == [items[0]] + items[1..];
      }
    }
  }

  lemma {:induction false} FilterCleansMembers(ms: seq<(string, Json)>)
    ensures CleanMembers(FilterMembers(ms))
    ensures CleanMembers(ms) ==> FilterMembers(ms) == ms
    decreases ms, 0
  {
    if ms != [] {
      var front := ms[..|ms| - 1];
      var m := ms[|ms| - 1];
      FilterCleansMember(m);
      FilterCleansMembers(front);
      assert ms == front + [m];
      if CleanMembers(ms) {
        assert forall i :: 0 <= i < |front| ==> front[i] == ms[i];
        assert CleanMember(ms[|ms| - 1]);
      }
    }
  }

  lemma {:induction false} FilterCleansMember(m: (string, Json))
    ensures m.0 !in TrimmedKeys ==> CleanMember(FilterMember(m))
    ensures CleanMember(m) ==> FilterMember(m) == m
    decreases m, 0
  {
    FilterCleans(m.1);
  }

  /** Filtering twice is filtering once. */
  lemma {:induction false} FilterIdempotent(v: Json)
    ensures Filter(Filter(v)) == Filter(v)
  {
    FilterCleans(v);
    FilterCleans(Filter(v));
  }

  /** A key that is not listed keeps its value, itself filtered. */
  lemma {:induction false} FilterKeepsOthers(ms: seq<(string, Json)>, k: string)
    requires k !in TrimmedKeys
    ensures Lookup(FilterMembers(ms), k) ==
      if Lookup(ms, k).None? then None else Some(Filter(Lookup(ms, k).value))
    decreases ms
  {
    if ms != [] {
      var front := ms[..|ms| - 1];
      var m := ms[|ms| - 1];
      FilterKeepsOthers(front, k);
      var f := FilterMembers(front);
      if m.0 !in TrimmedKeys {
        assert (f + [FilterMember(m)])[..|f|] == f;
      }
    }
  }

  // ---------------------------------------------------------------------------
  // SQLite

  /** `sqliteState`: always on Windows, elsewhere when `sqlite` or `sqlite3` is an
      available command. */
  function SqliteState(platform: string, available: set<string>): (r: bool)
    ensures platform == "win32" ==> r
    ensures platform != "win32" ==> (r <==> "sqlite" in available || "sqlite3" in available)
  {
    if platform == "win32" then true else "sqlite" in available || "sqlite3" in available
  }

  /** The `installSqlite` handler: the command sent to a new terminal, or `None` when
      the platform has no installer (no terminal is opened). On Linux the package
      managers are tried in the order apt, yum, dnf, with pkg as the fallback. */
  method InstallSqlite(platform: string, available: set<string>) returns (command: Option<string>)
    ensures platform == "darwin" ==> command == Some("brew install sqlite3")
    ensures platform == "linux" && "apt" in available ==> command == Some("sudo apt -y install sqlite")
    ensures platform == "linux" && "apt" !in available && "yum" in available ==>
      command == Some("sudo yum -y install sqlite3")
    ensures platform == "linux" && "apt" !in available && "yum" !in available && "dnf" in available ==>
      command == Some("sudo dnf install sqlite")
    ensures platform == "linux" && "apt" !in available && "yum" !in available && "dnf" !in available ==>
      command == Some("sudo pkg install -y sqlite3")
    ensures command.None? <==> platform != "darwin" && platform != "linux"
  {
    var chosen: string;
    if platform == "darwin" {
      chosen := "brew install sqlite3";
    } else if platform == "linux" {
      if "apt" in available {
        chosen := "sudo apt -y install sqlite";
      } else if "yum" in available {
        chosen := "sudo yum -y install sqlite3";
      } else if "dnf" in available {
        chosen := "sudo dnf install sqlite";
      } else {
        chosen := "sudo pkg install -y sqlite3";
      }
    } else {
      return None;
    }
    command := Some(chosen);
  }

  // ---------------------------------------------------------------------------
  // connect

  /** The calls `connect` makes on the SSH client manager and the connection manager. */
  datatype ManagerCall =
    | GetSsh(ssh: SshConfig, withSftp: bool)
    | RemoveConnection(connectId: string)
    | GetConnection(key: string)

  const NoSshError: string := "TypeError: Cannot set properties of undefined (setting 'key')"

  /** `connect`: an SSH node gets its key copied into its SSH settings and only opens
      the SSH client; any other node has its connection removed and then requested
      again. `connectId` is what `getConnectId` returns for the node. */
  method Connect(node: NodeConfig, connectId: string)
    returns (updated: NodeConfig, calls: seq<ManagerCall>, error: Option<string>)
    ensures node.dbType == SSH && node.ssh.None? ==>
      error == Some(NoSshError) && updated == node && calls == []
    ensures node.dbType == SSH && node.ssh.Some? ==>
      error.None? && updated == node.(ssh := Some(node.ssh.value.(key := node.key))) &&
      calls == [GetSsh(updated.ssh.value, false)]
    ensures node.dbType != SSH ==>
      error.None? && updated == node &&
      calls == [RemoveConnection(connectId), GetConnection(node.key)]
  {
    updated := node;
    calls := [];
    error := None;
    if node.dbType == SSH {
      if node.ssh.None? {
        return node, [], Some(NoSshError);
      }
      updated := updated.(ssh := Some(node.ssh.value.(key := node.key)));
      calls := calls + [GetSsh(updated.ssh.value, false)];
      return;
    }
    calls := calls + [RemoveConnection(connectId)];
    calls := calls + [GetConnection(node.key)];
  }

  // ---------------------------------------------------------------------------
  // the edit form

  /** The object handed to the edit form: a shallow copy of the node plus `isGlobal`. */
  datatype EditNode = EditNode(config: NodeConfig, isGlobal: bool)

  /** `openConnect`'s preparation of an existing node. The copy is shallow, so the SSH
      settings are shared: the node in the tree sees the same changes, which
      `nodeAfter` records. */
  method PrepareEdit(connectionNode: Option<NodeConfig>)
    returns (edit: Option<EditNode>, nodeAfter: Option<NodeConfig>)
    ensures connectionNode.None? ==> edit.None? && nodeAfter.None?
    ensures connectionNode.Some? ==>
      var n := connectionNode.value;
      edit.Some? && nodeAfter.Some? &&
      edit.value.isGlobal == n.global &&
      edit.value.config == nodeAfter.value &&
      (n.ssh.None? ==> nodeAfter.value == n) &&
      (n.ssh.Some? ==>
        nodeAfter.value == n.(ssh := Some(n.ssh.value.(
          tunnelPort := None,
          algorithms := if n.ssh.value.algorithms.None? then Some(SshAlgorithms([])) else n.ssh.value.algorithms))))
    ensures edit.Some? && edit.value.config.ssh.Some? ==>
      edit.value.config.ssh.value.tunnelPort.None? && edit.value.config.ssh.value.algorithms.Some?
  {
    if connectionNode.None? {
      return None, None;
    }
    var node := connectionNode.value;
    if node.ssh.Some? {
      var ssh := node.ssh.value.(tunnelPort := None);
      if ssh.algorithms.None? {
        ssh := ssh.(algorithms := Some(SshAlgorithms([])));
      }
      node := node.(ssh := Some(ssh));
    }
    edit := Some(EditNode(node, connectionNode.value.global));
    nodeAfter := Some(node);
  }
}
