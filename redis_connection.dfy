/** The Redis connection: the client options built from a connection descriptor,
    command-line tokenising, the cluster rejection of raw commands and the
    single-report guard of `connect`. */
module RedisConnection {
  import opened Wrappers
  import opened Strings
  import opened NodeCommon

  const DefaultConnectTimeout: nat := 5000
  const TimeoutMessage: string := "Connect to redis server time out."
  const ClusterRejection: string := "Redis cluster not support send command!"

  /** `node.connectTimeout || 5000`. */
  function ConnectTimeout(t: nat): (r: nat)
    ensures r > 0
    ensures t != 0 ==> r == t
    ensures t == 0 ==> r == DefaultConnectTimeout
  {
    if t != 0 then t else DefaultConnectTimeout
  }

  /** A certificate file named by a truthy path; the file is identified by its path,
      its contents are not modelled. */
  function CertificateFile(path: string): (r: Option<string>)
    ensures r.Some? <==> path != ""
    ensures r.Some? ==> r.value == path
  {
    if path != "" then Some(path) else None
  }

  datatype TlsOptions = TlsOptions(
    rejectUnauthorized: bool,
    ca: Option<string>,
    cert: Option<string>,
    key: Option<string>,
    minVersion: string)

  /** The options handed to the client. `reconnectOnError` is the constant answer of
      the callback of that name. */
  datatype RedisOptions = RedisOptions(
    port: nat,
    host: string,
    username: Option<string>,
    password: string,
    connectTimeout: nat,
    db: string,
    family: nat,
    reconnectOnError: bool,
    tls: Option<TlsOptions>)

  /** The TLS block added when the descriptor asks for SSL. */
  function TlsFor(node: NodeConfig): (r: TlsOptions)
    ensures !r.rejectUnauthorized && r.minVersion == "TLSv1"
    ensures r.ca == CertificateFile(node.caPath)
    ensures r.cert == CertificateFile(node.clientCertPath)
    ensures r.key == CertificateFile(node.clientKeyPath)
  {
    TlsOptions(false, CertificateFile(node.caPath), CertificateFile(node.clientCertPath),
               CertificateFile(node.clientKeyPath), "TLSv1")
  }

  /** The client options: the user name only when the user is truthy, the timeout
      defaulted, IPv4, no reconnect on error, and TLS exactly when SSL is on. */
  function Options(node: NodeConfig): (r: RedisOptions)
    ensures r.host == node.host && r.port == node.port
    ensures r.password == node.password && r.db == node.database
    ensures r.username.None? <==> node.user == ""
    ensures r.username.Some? ==> r.username.value == node.user
    ensures r.connectTimeout == ConnectTimeout(node.connectTimeout)
    ensures r.family == 4 && !r.reconnectOnError
    ensures r.tls.Some? <==> node.useSSL
    ensures node.useSSL ==> r.tls.value == TlsFor(node)
  {
    RedisOptions(node.port, node.host, if node.user != "" then Some(node.user) else None,
                 node.password, ConnectTimeout(node.connectTimeout), node.database, 4, false,
                 if node.useSSL then Some(TlsFor(node)) else None)
  }

  /** A client: a single server or a cluster seeded with one endpoint. */
  datatype Client =
    | Standalone(options: RedisOptions)
    | ClusterClient(seeds: seq<(string, nat)>, options: RedisOptions)

  // ---------------------------------------------------------------------------
  // command lines

  /** A command as `send_command` receives it. */
  datatype Command = Command(name: string, args: seq<string>)

  /** `sql.replace(/ +/g, " ").split(' ')`, with `shift()` taking the command name. */
  function Tokenise(line: string): Command {
    var tokens := Split(CollapseSpaces(line), ' ');
    Command(tokens[0], tokens[1..])
  }

  /** Tokenising keeps the text: the name and the arguments, joined by single
      spaces, are the line with its space runs collapsed; no token holds a space,
      and only the last argument can be empty (a trailing space). Only spaces are
      lost. */
  lemma {:induction false} TokeniseKeepsText(line: string)
    ensures Join([Tokenise(line).name] + Tokenise(line).args, ' ') == CollapseSpaces(line)
    ensures NonSpace(Join([Tokenise(line).name] + Tokenise(line).args, ' ')) == NonSpace(line)
    ensures ' ' !in Tokenise(line).name
    ensures forall i :: 0 <= i < |Tokenise(line).args| ==> ' ' !in Tokenise(line).args[i]
    ensures forall i :: 0 <= i < |Tokenise(line).args| - 1 ==> Tokenise(line).args[i] != ""
  {
    var collapsed := CollapseSpaces(line);
    var tokens := Split(collapsed, ' ');
    assert [tokens[0]] + tokens[1..] == tokens;
    JoinSplit(collapsed, ' ');
    SplitInteriorNonEmpty(collapsed, ' ');
    CollapseKeepsNonSpace(line);
    var c := Tokenise(line);
    forall i | 0 <= i < |c.args| - 1 ensures c.args[i] != "" {
      assert c.args[i] == tokens[i + 1];
    }
  }

  /** Sending the rejoined command line sends the same command. */
  lemma {:induction false} TokeniseRejoined(line: string)
    ensures Tokenise(Join([Tokenise(line).name] + Tokenise(line).args, ' ')) == Tokenise(line)
  {
    TokeniseKeepsText(line);
    CollapseIdempotent(line);
  }

  /** Tokenising a command whose words are separated by space runs gives back the words. */
  lemma {:induction false} TokeniseWords(name: string, args: seq<string>, line: string)
    requires name != "" && ' ' !in name
    requires forall i :: 0 <= i < |args| ==> args[i] != "" && ' ' !in args[i]
    requires CollapseSpaces(line) == Join([name] + args, ' ')
    ensures Tokenise(line) == Command(name, args)
  {
    var words := [name] + args;
    assert forall i :: 0 <= i < |words| ==> ' ' !in words[i];
    SplitJoin(words, ' ');
  }

  // ---------------------------------------------------------------------------
  // connect

  /** What reaches the handlers of `connect`, in arrival order: a client error, the
      timer, or the ping reply (with its error, if any). */
  datatype ConnectEvent = ClientError(error: string) | TimerFired | PingReply(pingError: Option<string>)

  /** The argument a handler would pass to the callback; `None` is a ping without error. */
  function Report(e: ConnectEvent): Option<string> {
    match e
    case ClientError(err) => Some(err)
    case TimerFired => Some(TimeoutMessage)
    case PingReply(err) => err
  }

  class RedisConnection {
    const node: NodeConfig
    const config: RedisOptions
    const client: Client
    /** The `conneted` field, which no method assigns. */
    const conneted: Option<bool> := None
    /** Commands handed to the client, oldest first. */
    var sent: seq<Command>

    constructor (node: NodeConfig)
      ensures this.node == node && config == Options(node)
      ensures node.isCluster ==> client == ClusterClient([(node.host, node.port)], config)
      ensures !node.isCluster ==> client == Standalone(config)
      ensures sent == []
    {
      var c := RedisOptions(node.port, node.host, if node.user != "" then Some(node.user) else None,
                            node.password, ConnectTimeout(node.connectTimeout), node.database, 4, false,
                            None);
      if node.useSSL {
        c := c.(tls := Some(TlsFor(node)));
      }
      this.node := node;
      config := c;
      client := if node.isCluster then ClusterClient([(c.host, c.port)], c) else Standalone(c);
      sent := [];
    }

    /** `query`: a single server receives the tokenised command; a cluster refuses it. */
    method Query(sql: string) returns (outcome: Result<Command>)
      modifies this`sent
      ensures client.Standalone? ==> outcome == Ok(Tokenise(sql)) && sent == old(sent) + [Tokenise(sql)]
      ensures client.ClusterClient? ==> outcome == Err(ClusterRejection) && sent == old(sent)
    {
      var param := Split(CollapseSpaces(sql), ' ');
      var command := param[0];
      param := param[1..];
      if client.Standalone? {
        sent := sent + [Command(command, param)];
        outcome := Ok(Command(command, param));
      } else {
        outcome := Err(ClusterRejection);
      }
    }

    /** `connect`: whatever the order of the events, the callback runs once, with the
        report of the first event, as soon as there is an event. The timer is set to
        the same timeout the client options carry. */
    method Connect(events: seq<ConnectEvent>) returns (reports: seq<Option<string>>, timerDelay: nat)
      ensures timerDelay == ConnectTimeout(node.connectTimeout)
      ensures |reports| == if events == [] then 0 else 1
      ensures events != [] ==> reports[0] == Report(events[0])
    {
      var occurError := false;
      reports := [];
      timerDelay := if node.connectTimeout != 0 then node.connectTimeout else DefaultConnectTimeout;
      for i := 0 to |events|
        invariant occurError <==> i > 0
        invariant |reports| == if i == 0 then 0 else 1
        invariant i > 0 ==> reports[0] == Report(events[0])
      {
        if !occurError {
          occurError := true;
          reports := reports + [Report(events[i])];
        }
      }
    }

    /** `isAlive` reads a field that is never set, so it is never true. */
    function IsAlive(): (alive: bool)
      ensures !alive
    {
      conneted == Some(true)
    }
  }

  /** The timeout is reported only when the timer is the first event. */
  lemma {:induction false} TimeoutOnlyWhenFirst(events: seq<ConnectEvent>)
    requires events != []
    requires forall i :: 0 <= i < |events| ==> events[i].ClientError? ==> events[i].error != TimeoutMessage
    requires forall i :: 0 <= i < |events| ==> events[i].PingReply? ==> events[i].pingError != Some(TimeoutMessage)
    ensures Report(events[0]) == Some(TimeoutMessage) <==> events[0] == TimerFired
  {
  }
}
