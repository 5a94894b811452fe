# CacheTool FastCGI adapter and adapter selection, in Dafny

CacheTool runs small PHP snippets inside a running PHP process to query or clear its
APC and OPcache caches. This project models two pieces of it:

- **The FastCGI adapter** (`fastcgi.dfy`, module `FastCGIAdapter`). It sends a snippet to a
  PHP-FPM pool. Its constructor turns a connection string into the client's host and
  port. A null host defaults to `/var/run/php5-fpm.sock` when that file exists and to
  `127.0.0.1:9000` otherwise. `host:port` selects TCP; anything else is a unix socket.
  The constructor also fixes the client's timeout (60000 ms), turns the persistent socket
  off and keep-alive on. `request` writes the code to a temporary file and sends one request
  with a fixed three-entry FastCGI environment. On a `ForbiddenException` it closes the
  client and retries exactly once. It removes the file on success and on the
  communication-failure path. A second communication failure becomes a `RuntimeException`.
  `doRun` returns the body only when the status code is exactly 200.
- **The console application's adapter selection** (`application.dfy`, module `Console`).
  `buildContainer` rewrites the `adapter` and `fastcgi` configuration entries from the
  `--cli` and `--fcgi` options. It then builds a `Cli` or `FastCGI` adapter, or raises for
  any other adapter name, and fills a container with the CacheTool service and the
  application's logger. `doRunCommand` injects such a container only into container-aware
  commands. `getDefaultCommands` appends the application's fifteen commands.

Supporting modules:

- `outcomes.dfy` (`Outcomes`): PHP's null, the exceptions, and the return-or-throw outcome.
- `php_strings.dfy` (`PhpStrings`): `strpos` and `explode` on one character, with `implode`
  as the partner of `explode`.
- `collaborators.dfy` (`Collaborators`): the code the adapter calls but that is not part of
  this model, written as oracles.
  - The FastCGI client's `request` answers the n-th call with `server(n)`. The client logs
    every request and close.
  - `createTemporaryFile` hands out unique names. A ghost map records which temporary files
    exist and what they hold.
  - `Code::writeTo` either writes the code's text or raises.
  - `file_exists` answers from a fixed set of paths.

`FastCGI.Request` and `FastCGI.DoRun` are proved against the specification function
`Exchange`. Its contract states the retry, cleanup and error-wrapping behaviour for every
combination of write result and client replies. `Application.BuildContainer` is proved
against `ApplyOptions` and `SelectAdapter`.

Behaviour of the code that the model keeps:

- The temporary file is removed only on success and when both attempts were forbidden. Some
  exceptions escape the procedure and leave the file behind: one raised while writing the
  code, and a non-forbidden exception from the client on either attempt.
- A 200 response is a success even when stderr is not empty. Stderr is never inspected on
  that path.
- The client is configured with keep-alive on. Only the socket's persistence is off.
- Only the forbidden class of client exception is retried. The retry re-uses the same client
  object after `close()`.

## Model

| member | source | states |
|---|---|---|
| `PhpStrings.FirstIndex` | src/CacheTool/Adapter/FastCGI.php:41 | the first occurrence of the separator, where explode cuts the first field: that position holds the character and no earlier one does |
| `PhpStrings.Explode` | src/CacheTool/Adapter/FastCGI.php:41 | explode yields at least one field, and no field contains the separator |
| `PhpStrings.JoinExplode` | src/CacheTool/Adapter/FastCGI.php:41 | joining the exploded fields with the separator gives the original string back |
| `PhpStrings.ExplodeJoin` | src/CacheTool/Adapter/FastCGI.php:41 | exploding a join of separator-free fields gives the fields back |
| `FastCGIAdapter.ResolveHost` | src/CacheTool/Adapter/FastCGI.php:31-38 | a given host is kept; a null host becomes the FPM socket exactly when it exists, else 127.0.0.1:9000 |
| `FastCGIAdapter.Target` | src/CacheTool/Adapter/FastCGI.php:40-46 | the port is a string exactly when the host contains ':' (TCP), and then host and port are colon-free; otherwise the client gets 'unix://' + host and port -1 |
| `FastCGIAdapter.TcpTargetIsPrefix` | src/CacheTool/Adapter/FastCGI.php:40-42 | for a TCP string, host ':' port is a prefix of it that ends at the end or at another ':' (the text before the first ':' and the next field; anything after is dropped) |
| `FastCGIAdapter.TargetOfHostPort` | src/CacheTool/Adapter/FastCGI.php:40-42 | "h:p" with colon-free h and p connects to host h, port p |
| `FastCGIAdapter.DefaultSocketEndpoint` | src/CacheTool/Adapter/FastCGI.php:32-46 | no host and the socket exists: the client targets unix:///var/run/php5-fpm.sock with port -1 |
| `FastCGIAdapter.DefaultAddressEndpoint` | src/CacheTool/Adapter/FastCGI.php:32-42 | no host and no socket: the client targets host 127.0.0.1, port "9000" |
| `FastCGIAdapter.FastCGI.constructor` | src/CacheTool/Adapter/FastCGI.php:29-50 | a fresh client for Target(ResolveHost(host)), with read/write timeout 60000 ms, persistent socket off, keep-alive on, and nothing sent yet; the adapter is Valid (ready for Request) exactly when its temp-file store is |
| `FastCGIAdapter.RequestEnvironment` | src/CacheTool/Adapter/FastCGI.php:75-79 | exactly three entries with distinct names: REQUEST_METHOD=POST, REQUEST_URI=/, SCRIPT_FILENAME=the staged file |
| `FastCGIAdapter.Exchange` | src/CacheTool/Adapter/FastCGI.php:66-99 | at most two requests, with identical environment and empty body; the second only after a forbidden first and a close. A write failure sends nothing. The file is unlinked exactly on return or on the wrapped RuntimeException. The answered attempt's response is returned. Two forbidden attempts give "Could not connect to FastCGI server: <message>" with the original code. Any other exception escapes unchanged |
| `FastCGIAdapter.FastCGI.Request` | src/CacheTool/Adapter/FastCGI.php:66-99 | the result and the client's call log are those of Exchange for the next temp name and the server's next two replies; the staged files are as before on the covered paths and keep the new file on the escaping ones |
| `FastCGIAdapter.Classify` | src/CacheTool/Adapter/FastCGI.php:59-63 | the body is returned exactly when statusCode is 200; otherwise a RuntimeException "<stderr>: <body>" |
| `FastCGIAdapter.SuccessIgnoresStderr` | src/CacheTool/Adapter/FastCGI.php:59-60 | on status 200 the result does not depend on stderr |
| `FastCGIAdapter.RunOutcome` | src/CacheTool/Adapter/FastCGI.php:55-64 | an exception from the request passes through unchanged; a response is classified |
| `FastCGIAdapter.FastCGI.DoRun` | src/CacheTool/Adapter/FastCGI.php:55-64 | the result is RunOutcome of the request's Exchange, with the same effect on client and files as Request |
| `Console.ApplyOptions` | src/CacheTool/Console/Application.php:123-128 | cli wins: adapter becomes 'cli' and fastcgi is untouched. Otherwise fcgi sets adapter 'fastcgi' and fastcgi to the option value. Neither: config unchanged. No other entry changes |
| `Console.CliWins` | src/CacheTool/Console/Application.php:123-124 | when hasOption('cli') holds, the resulting configuration does not depend on the fcgi option at all |
| `Console.SelectAdapter` | src/CacheTool/Console/Application.php:130-141 | succeeds exactly for 'cli' or 'fastcgi': 'cli' gives Cli, 'fastcgi' a FastCGI adapter on the fastcgi entry; any other value is a RuntimeException naming it |
| `Console.Application.constructor` | src/CacheTool/Console/Application.php:47-53 | keeps the configuration and creates its own logger named 'cachetool' |
| `Console.Application.DefaultCommands` | src/CacheTool/Console/Application.php:58-80 | the inherited list, unchanged, followed by exactly the fifteen CacheTool commands in order, pairwise distinct and none a framework command |
| `Console.Application.BuildContainer` | src/CacheTool/Console/Application.php:121-148 | config becomes ApplyOptions(config, input), also when it then raises. The result is SelectAdapter's error, or a fresh container holding exactly 'cachetool' (the chosen adapter, with the application's logger) and 'logger' (the application's own logger). A FastCGI adapter is constructed from the fastcgi entry |
| `Console.Application.DoRunCommand` | src/CacheTool/Console/Application.php:107-115 | a command that is not container-aware gets no container and the config is untouched; a container-aware one gets exactly what BuildContainer returns: a fresh container whose 'cachetool' entry holds the adapter SelectAdapter chose (a FastCGI one configured from the fastcgi entry) with the application's logger, and whose 'logger' entry is that logger; or the build's exception stops it |

## Left out

- FastCGI wire framing (records, name-value pairs, end-of-request statuses) lives in the client library (Adoy\FastCGI\Client), which is not part of this model. The client is an oracle whose n-th request returns a response, raises ForbiddenException or raises something else.
- CacheTool\Code, AbstractAdapter::createTemporaryFile, the Cli adapter, CacheTool::factory and the Config class are not part of this model. Code is reduced to the text written to the file, temporary names are unique names from an oracle, the Cli adapter and the CacheTool service record only how they were built, and the configuration is a map whose missing entries read as null.
- file_exists is the membership of a path in a fixed set; whether the FastCGI server answers, and what, is a parameter of the adapter (the server function).
- Response.statusCode is an int: PHP's strict `=== 200` would also reject a string "200", a type distinction this model does not make.
- The switch in buildContainer compares loosely; since configuration values here are strings or null, that coincides with string equality for 'cli' and 'fastcgi'.
- Values with colons beyond the second field (an IPv6 address, say) are parsed exactly as the code does: only the first two explode fields are used.
- Logging: the info and debug lines in request, the Monolog console handler pushed in doRun (src/CacheTool/Console/Application.php:97-102) and the logger's contents.
- The input definition that adds --fcgi and --cli (src/CacheTool/Console/Application.php:85-92): whether hasOption holds is an input of the model, since hasOption reports that an option is defined, not that it was passed.
- The constructor's tempDir argument is accepted and, as in the code, unused.
- What the framework's doRunCommand and the commands then do (running the snippet remotely, formatting tables, self-update, ensureExtensionLoaded, the file checks of apc:bin:dump).
- The local-subprocess adapter and the decoding of stdout into values belong to code outside these two files.
- An unlink that fails is silenced by `@`; the model always removes the file.
- A createTemporaryFile that fails (it is called before the try block) and a close() that throws are not modelled: both collaborators always succeed here.
