/**
 * The collaborators the adapter talks to but whose code is not part of this model:
 * the FastCGI client library (Adoy\FastCGI\Client), the temporary-file helper of the
 * adapter base class, and CacheTool\Code::writeTo. Each is an oracle: what it answers
 * is fixed by a constant of the object, so the adapter's code can be stated against it.
 */
module Collaborators {
  import opened Outcomes

  /** The code snippet to run; only the text written to the staged file matters here. */
  datatype Code = Code(text: string)

  /** The response array of the client, reduced to the three keys the adapter reads. */
  datatype Response = Response(statusCode: int, body: string, stderr: string)

  /** What one call of the client's request does. */
  datatype Reply =
      /** returns a response */
    | Answered(response: Response)
      /** raises Adoy\FastCGI\ForbiddenException (imported as CommunicationException) */
    | Forbidden(message: string, code: int)
      /** raises any other exception */
    | Failed(message: string)

  /** The FastCGI parameters of a request, in order. */
  type Environment = seq<(string, string)>

  /** One call made on the client, as seen by the server side. */
  datatype Call = Sent(env: Environment, stdin: string) | Closed

  /** The port argument of the client's constructor: a string for TCP, the integer -1 for a socket. */
  datatype Port = PortText(text: string) | PortNumber(number: int)

  class Client {
    const host: string
    const port: Port
    /** The reply the server gives to the n-th request on this client. */
    const server: nat -> Reply
    var readWriteTimeout: int
    var persistentSocket: bool
    var keepAlive: bool
    /** Number of request calls so far. */
    var requests: nat
    /** Every request and close, in order. */
    var calls: seq<Call>

    /** The library's own defaults for timeout, persistence and keep-alive are left unknown. */
    constructor (host: string, port: Port, server: nat -> Reply)
      ensures this.host == host && this.port == port && this.server == server
      ensures requests == 0 && calls == []
    {
      this.host := host;
      this.port := port;
      this.server := server;
      requests := 0;
      calls := [];
    }

    method SetReadWriteTimeout(ms: int)
      modifies this`readWriteTimeout
      ensures readWriteTimeout == ms
    {
      readWriteTimeout := ms;
    }

    method SetPersistentSocket(persistent: bool)
      modifies this`persistentSocket
      ensures persistentSocket == persistent
    {
      persistentSocket := persistent;
    }

    method SetKeepAlive(keep: bool)
      modifies this`keepAlive
      ensures keepAlive == keep
    {
      keepAlive := keep;
    }

    method Request(env: Environment, stdin: string) returns (reply: Reply)
      modifies this`requests, this`calls
      ensures reply == server(old(requests))
      ensures requests == old(requests) + 1
      ensures calls == old(calls) + [Sent(env, stdin)]
    {
      reply := server(requests);
      requests := requests + 1;
      calls := calls + [Sent(env, stdin)];
    }

    method Close()
      modifies this`calls
      ensures calls == old(calls) + [Closed]
    {
      calls := calls + [Closed];
    }
  }

  /** The files the adapter can see and the temporary files it stages. */
  class Filesystem {
    /** Paths that exist independently of the adapter (file_exists answers from this). */
    const existing: set<string>
    /** The path the n-th createTemporaryFile returns. */
    const tempNames: nat -> string
    /** Some(m) when Code::writeTo on that path raises with message m. */
    const writeFaults: string -> Option<string>
    /** Number of temporary files created so far. */
    var created: nat
    /** Temporary files that exist, with their contents. */
    ghost var staged: map<string, string>

    /** Temporary names are unique, and none still to be handed out exists yet. */
    ghost predicate Valid()
      reads this
    {
      && (forall i: nat, j: nat :: i != j ==> tempNames(i) != tempNames(j))
      && (forall k: nat :: created <= k ==> tempNames(k) !in staged)
    }

    constructor (existing: set<string>, tempNames: nat -> string, writeFaults: string -> Option<string>)
      requires forall i: nat, j: nat :: i != j ==> tempNames(i) != tempNames(j)
      ensures Valid()
      ensures this.existing == existing && this.tempNames == tempNames && this.writeFaults == writeFaults
      ensures created == 0 && staged == map[]
    {
      this.existing := existing;
      this.tempNames := tempNames;
      this.writeFaults := writeFaults;
      created := 0;
      staged := map[];
    }

    function FileExists(path: string): bool
    {
      path in existing
    }

    /** Creates an empty file under a name that does not exist yet. */
    method CreateTemporaryFile() returns (path: string)
      requires Valid()
      modifies this`created, this`staged
      ensures Valid()
      ensures path == tempNames(old(created)) && path !in old(staged)
      ensures created == old(created) + 1
      ensures staged == old(staged)[path := ""]
    {
      path := tempNames(created);
      created := created + 1;
      staged := staged[path := ""];
    }

    /** Code::writeTo: stores the code's text, or raises and leaves the file as it was. */
    method WriteCode(path: string, code: Code) returns (fault: Option<string>)
      requires Valid() && path in staged
      modifies this`staged
      ensures Valid()
      ensures fault == writeFaults(path)
      ensures staged == if fault.None? then old(staged)[path := code.text] else old(staged)
    {
      fault := writeFaults(path);
      if fault.None? {
        staged := staged[path := code.text];
      }
    }

    /** @unlink: removes the file; a failure is silenced. */
    method Unlink(path: string)
      requires Valid()
      modifies this`staged
      ensures Valid()
      ensures staged == old(staged) - {path}
    {
      staged := staged - {path};
    }
  }
}
