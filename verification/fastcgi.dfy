/**
 * The FastCGI adapter: connection-string parsing and client configuration at
 * construction, the request procedure with its single retry and temp-file cleanup,
 * and the classification of the response by status code.
 */
module FastCGIAdapter {
  import opened Outcomes
  import opened PhpStrings
  import opened Collaborators

  /** The socket tried when no host is given. */
  const DefaultSocket := "/var/run/php5-fpm.sock"
  /** The address used when no host is given and the socket does not exist. */
  const DefaultAddress := "127.0.0.1:9000"
  const ReadWriteTimeoutMs := 60 * 1000
  const ConnectFailurePrefix := "Could not connect to FastCGI server: "

  /** The two arguments the client is constructed with. */
  datatype Endpoint = Endpoint(host: string, port: Port)

  /** The host string after defaulting a null host. */
  function ResolveHost(host: Option<string>, socketExists: bool): (h: string)
    ensures host.Some? ==> h == host.value
    ensures host.None? ==> (h == DefaultSocket <==> socketExists)
    ensures host.None? && !socketExists ==> h == DefaultAddress
  {
    if host.None? then
      if socketExists then DefaultSocket else DefaultAddress
    else host.value
  }

  /** "host:port" is a TCP endpoint, anything else the path of a unix socket. */
  function Target(h: string): (e: Endpoint)
    ensures e.port.PortText? <==> ':' in h
    ensures ':' in h ==> ':' !in e.host && ':' !in e.port.text
    ensures ':' !in h ==> e.host == "unix://" + h && e.port.number == -1
  {
    if ':' in h then
      var fields := Explode(h, ':');
      assert |fields| >= 2;
      Endpoint(fields[0], PortText(fields[1]))
    else Endpoint("unix://" + h, PortNumber(-1))
  }

  /**
   * A TCP host string starts with the endpoint's host, a colon and its port, and
   * either ends there or goes on with another colon (whatever follows is dropped).
   */
  lemma TcpTargetIsPrefix(h: string)
    requires ':' in h
    ensures var e := Target(h);
      && e.port.PortText?
      && var prefix := e.host + [':'] + e.port.text;
      && prefix <= h
      && (|prefix| == |h| || h[|prefix|] == ':')
  {
    var fields := Explode(h, ':');
    assert |fields| >= 2 by {
      JoinExplode(h, ':');
    }
    JoinExplode(h, ':');
    var rest := fields[2..];
    if |rest| == 0 {
      assert fields == [fields[0], fields[1]];
    } else {
      assert fields[1..][1..] == rest;
      assert Join(fields, ':') == fields[0] + [':'] + (fields[1] + [':'] + Join(rest, ':'));
    }
  }

  /** Conversely, "host:port" with colon-free parts connects to exactly that host and port. */
  lemma TargetOfHostPort(host: string, port: string)
    requires ':' !in host && ':' !in port
    ensures Target(host + [':'] + port) == Endpoint(host, PortText(port))
  {
    var h := host + [':'] + port;
    assert h[|host|] == ':';
    ExplodeJoin([host, port], ':');
    assert Join([host, port], ':') == h;
  }

  /** With no host given and the default socket present, the client connects to that socket. */
  lemma DefaultSocketEndpoint()
    ensures Target(ResolveHost(None, true)) == Endpoint("unix://" + DefaultSocket, PortNumber(-1))
  {
    var h := ResolveHost(None, true);
    assert h == DefaultSocket;
    assert ':' !in h by {
      forall i | 0 <= i < |h| ensures h[i] != ':' {
      }
    }
  }

  /** With no host given and no default socket, the client connects to 127.0.0.1 port 9000. */
  lemma DefaultAddressEndpoint()
    ensures Target(ResolveHost(None, false)) == Endpoint("127.0.0.1", PortText("9000"))
  {
    var h := ResolveHost(None, false);
    assert h == "127.0.0.1" + [':'] + "9000";
    TargetOfHostPort("127.0.0.1", "9000");
  }

  /** The FastCGI parameters of every request: POST to "/", running the staged file. */
  function RequestEnvironment(file: string): (env: Environment)
    ensures |env| == 3
    ensures forall i, j :: 0 <= i < j < |env| ==> env[i].0 != env[j].0
    ensures env[0] == ("REQUEST_METHOD", "POST") && env[1] == ("REQUEST_URI", "/")
    ensures env[2] == ("SCRIPT_FILENAME", file)
  {
    [("REQUEST_METHOD", "POST"), ("REQUEST_URI", "/"), ("SCRIPT_FILENAME", file)]
  }

  /** What one run of the request procedure does. */
  datatype Trace = Trace(calls: seq<Call>, unlinked: bool, outcome: Outcome<Response>)

  /**
   * The request procedure, given the outcome of writing the code to the staged file
   * and the client's replies to a first and (if made) a second request.
   */
  function Exchange(file: string, writeFault: Option<string>, first: Reply, second: Reply): (t: Trace)
    // at most two requests, both with the same environment and an empty body,
    // and a second one only after the first was forbidden and the client closed
    ensures var sent := Sent(RequestEnvironment(file), "");
      t.calls == [] || t.calls == [sent] || t.calls == [sent, Closed, sent]
    ensures t.calls == [] <==> writeFault.Some?
    ensures |t.calls| == 3 <==> writeFault.None? && first.Forbidden?
    // the file is removed exactly when the procedure returns or raises its own RuntimeException
    ensures t.unlinked <==> t.outcome.Returned? || t.outcome.exception.RuntimeException?
    // success: the response of whichever attempt was answered
    ensures t.outcome.Returned? <==>
      writeFault.None? && (first.Answered? || (first.Forbidden? && second.Answered?))
    ensures t.outcome.Returned? ==>
      t.outcome.value == (if first.Answered? then first.response else second.response)
    // two forbidden attempts: wrapped into a RuntimeException with the second one's message and code
    ensures t.outcome.Threw? && t.outcome.exception.RuntimeException? <==>
      writeFault.None? && first.Forbidden? && second.Forbidden?
    ensures t.outcome.Threw? && t.outcome.exception.RuntimeException? ==>
      t.outcome.exception == RuntimeException(ConnectFailurePrefix + second.message, second.code)
    // anything else escapes unchanged
    ensures t.outcome.Threw? && t.outcome.exception.Propagated? ==>
      t.outcome.exception.message ==
        if writeFault.Some? then writeFault.value
        else if first.Failed? then first.message
        else second.message
  {
    if writeFault.Some? then Trace([], false, Threw(Propagated(writeFault.value)))
    else
      var sent := Sent(RequestEnvironment(file), "");
      match first
      case Answered(response) => Trace([sent], true, Returned(response))
      case Failed(message) => Trace([sent], false, Threw(Propagated(message)))
      case Forbidden(_, _) =>
        var calls := [sent, Closed, sent];
        match second
        case Answered(response) => Trace(calls, true, Returned(response))
        case Forbidden(message, code) =>
          Trace(calls, true, Threw(RuntimeException(ConnectFailurePrefix + message, code)))
        case Failed(message) => Trace(calls, false, Threw(Propagated(message)))
  }

  /** doRun's decision: the body when the status is exactly 200, otherwise "<stderr>: <body>" as an error. */
  function Classify(response: Response): (r: Outcome<string>)
    ensures r.Returned? <==> response.statusCode == 200
    ensures r.Returned? ==> r.value == response.body
    ensures r.Threw? ==> r.exception == RuntimeException(response.stderr + ": " + response.body, 0)
  {
    if response.statusCode == 200 then Returned(response.body)
    else Threw(RuntimeException(response.stderr + ": " + response.body, 0))
  }

  /** On success stderr is not looked at. */
  lemma SuccessIgnoresStderr(response: Response, stderr: string)
    requires response.statusCode == 200
    ensures Classify(response.(stderr := stderr)) == Classify(response)
  {
  }

  /** doRun: a failed request passes its exception on, a response is classified. */
  function RunOutcome(request: Outcome<Response>): (r: Outcome<string>)
    ensures request.Threw? ==> r == Threw(request.exception)
    ensures request.Returned? ==> r == Classify(request.value)
  {
    match request
    case Returned(response) => Classify(response)
    case Threw(e) => Threw(e)
  }

  class FastCGI {
    const client: Client
    /** The temporary-file store of the adapter base class. */
    const files: Filesystem

    ghost predicate Valid()
      reads this, files
    {
      files.Valid()
    }

    /** The state the constructor leaves: a fresh client for the resolved host, configured. */
    ghost predicate ConfiguredFor(host: Option<string>, fs: Filesystem, server: nat -> Reply)
      reads this, client
    {
      && files == fs
      && Endpoint(client.host, client.port) == Target(ResolveHost(host, fs.FileExists(DefaultSocket)))
      && client.readWriteTimeout == ReadWriteTimeoutMs
      && !client.persistentSocket
      && client.keepAlive
      && client.server == server
      && client.requests == 0 && client.calls == []
    }

    /** tempDir is accepted and not used. */
    constructor (host: Option<string>, tempDir: Option<string>, fs: Filesystem, server: nat -> Reply)
      ensures fresh(client)
      ensures ConfiguredFor(host, fs, server)
      // a store whose invariant holds gives an adapter ready for Request and DoRun
      ensures Valid() <==> fs.Valid()
    {
      var h: string;
      if host.None? {
        if fs.FileExists(DefaultSocket) {
          h := DefaultSocket;
        } else {
          h := DefaultAddress;
        }
      } else {
        h := host.value;
      }
      var c: Client;
      if ':' in h {
        var fields := Explode(h, ':');
        assert |fields| >= 2;
        c := new Client(fields[0], PortText(fields[1]), server);
      } else {
        c := new Client("unix://" + h, PortNumber(-1), server);
      }
      c.SetReadWriteTimeout(ReadWriteTimeoutMs);
      c.SetPersistentSocket(false);
      c.SetKeepAlive(true);
      client := c;
      files := fs;
    }

    /** The path the next temporary file will get. */
    ghost function NextTempName(): string
      reads this, files
    {
      files.tempNames(files.created)
    }

    /** The trace of a request made from the current state. */
    ghost function NextExchange(): Trace
      reads this, files, client
    {
      var file := NextTempName();
      Exchange(file, files.writeFaults(file), client.server(client.requests), client.server(client.requests + 1))
    }

    /** What the staged file holds while it exists: the code, or nothing if writing it failed. */
    ghost function StagedText(code: Code): string
      reads this, files
    {
      if files.writeFaults(NextTempName()).None? then code.text else ""
    }

    method Request(code: Code) returns (response: Outcome<Response>)
      requires Valid()
      modifies client`requests, client`calls, files`created, files`staged
      ensures Valid()
      ensures response == old(NextExchange()).outcome
      ensures client.calls == old(client.calls) + old(NextExchange()).calls
      ensures client.requests == old(client.requests) + (if |old(NextExchange()).calls| == 3 then 2 else |old(NextExchange()).calls|)
      ensures files.created == old(files.created) + 1
      // the staged file is gone on the covered paths and left behind on the others
      ensures files.staged ==
        if old(NextExchange()).unlinked then old(files.staged)
        else old(files.staged)[old(NextTempName()) := old(StagedText(code))]
    {
      var file := files.CreateTemporaryFile();
      var fault := files.WriteCode(file, code);
      if fault.Some? {
        response := Threw(Propagated(fault.value));
        return;
      }
      var env := RequestEnvironment(file);
      var reply := client.Request(env, "");
      if reply.Forbidden? {
        client.Close();
        reply := client.Request(env, "");
      }
      match reply {
        case Answered(r) =>
          files.Unlink(file);
          response := Returned(r);
        case Forbidden(message, c) =>
          files.Unlink(file);
          response := Threw(RuntimeException(ConnectFailurePrefix + message, c));
        case Failed(message) =>
          response := Threw(Propagated(message));
      }
    }

    method DoRun(code: Code) returns (result: Outcome<string>)
      requires Valid()
      modifies client`requests, client`calls, files`created, files`staged
      ensures Valid()
      ensures result == RunOutcome(old(NextExchange()).outcome)
      ensures client.calls == old(client.calls) + old(NextExchange()).calls
      ensures client.requests == old(client.requests) + (if |old(NextExchange()).calls| == 3 then 2 else |old(NextExchange()).calls|)
      ensures files.created == old(files.created) + 1
      ensures files.staged ==
        if old(NextExchange()).unlinked then old(files.staged)
        else old(files.staged)[old(NextTempName()) := old(StagedText(code))]
    {
      var response := Request(code);
      if response.Returned? {
        result := Classify(response.value);
      } else {
        result := Threw(response.exception);
      }
    }
  }
}
