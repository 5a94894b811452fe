/**
 * The console application: how the --cli and --fcgi options rewrite the configuration,
 * which adapter is then built, what the service container holds, when a command gets
 * one, and the list of commands the application registers.
 */
module Console {
  import opened Outcomes
  import opened Collaborators
  import FastCGIAdapter

  class Logger {
    const name: string

    constructor (name: string)
      ensures this.name == name
    {
      this.name := name;
    }
  }

  /**
   * What the console input reports: hasOption('cli'), hasOption('fcgi') and
   * getOption('fcgi'). hasOption says whether the option is defined for the input,
   * which is not the same as the user having passed it; both are taken as given.
   */
  datatype Input = Input(hasCli: bool, hasFcgi: bool, fcgi: Option<string>)

  /** The configuration entries; every value is a string or null. */
  type Config = map<string, Option<string>>

  /** Reading an entry that is not there gives null. */
  function Get(config: Config, key: string): Option<string>
  {
    if key in config then config[key] else None
  }

  /** String interpolation of a string or null. */
  function Interpolate(value: Option<string>): string
  {
    if value.Some? then value.value else ""
  }

  /** The configuration after the two options have been looked at. */
  function ApplyOptions(config: Config, input: Input): (c: Config)
    // --cli wins over --fcgi and leaves the fastcgi entry alone
    ensures input.hasCli ==> Get(c, "adapter") == Some("cli") && Get(c, "fastcgi") == Get(config, "fastcgi")
    ensures !input.hasCli && input.hasFcgi ==>
      Get(c, "adapter") == Some("fastcgi") && Get(c, "fastcgi") == input.fcgi
    ensures !input.hasCli && !input.hasFcgi ==> c == config
    // no other entry changes
    ensures forall k :: k != "adapter" && k != "fastcgi" ==> Get(c, k) == Get(config, k)
  {
    if input.hasCli then config["adapter" := Some("cli")]
    else if input.hasFcgi then config["adapter" := Some("fastcgi")]["fastcgi" := input.fcgi]
    else config
  }

  /** When --cli is defined, nothing about --fcgi matters. */
  lemma CliWins(config: Config, input: Input, hasFcgi: bool, fcgi: Option<string>)
    requires input.hasCli
    ensures ApplyOptions(config, input) == ApplyOptions(config, input.(hasFcgi := hasFcgi, fcgi := fcgi))
  {
  }

  /** Which adapter the switch picks, with the host argument of a FastCGI adapter. */
  datatype AdapterChoice = UseCli | UseFastCGI(host: Option<string>)

  function UnknownAdapterMessage(adapter: Option<string>): string
  {
    "Adapter `" + Interpolate(adapter) + "` is not one of cli or fastcgi"
  }

  /** The switch on the adapter entry: cli, fastcgi, or an error naming the value. */
  function SelectAdapter(config: Config): (r: Outcome<AdapterChoice>)
    ensures r.Returned? <==> Get(config, "adapter") == Some("cli") || Get(config, "adapter") == Some("fastcgi")
    ensures r == Returned(UseCli) <==> Get(config, "adapter") == Some("cli")
    ensures r.Returned? && r.value.UseFastCGI? ==> r.value.host == Get(config, "fastcgi")
    ensures r.Threw? ==> r.exception == RuntimeException(UnknownAdapterMessage(Get(config, "adapter")), 0)
  {
    var adapter := Get(config, "adapter");
    if adapter == Some("cli") then Returned(UseCli)
    else if adapter == Some("fastcgi") then Returned(UseFastCGI(Get(config, "fastcgi")))
    else Threw(RuntimeException(UnknownAdapterMessage(adapter), 0))
  }

  /** The Cli adapter is not part of this model; only that it was chosen is recorded. */
  datatype Adapter = Cli | FastCGI(fastcgi: FastCGIAdapter.FastCGI)

  /** A container service: the CacheTool built by CacheTool::factory from its two arguments, or the logger. */
  datatype Service = CacheTool(adapter: Adapter, logger: Logger) | LoggerService(logger: Logger)

  class Container {
    var services: map<string, Service>

    constructor ()
      ensures services == map[]
    {
      services := map[];
    }

    method Set(id: string, service: Service)
      modifies this
      ensures services == old(services)[id := service]
    {
      services := services[id := service];
    }
  }

  class Command {
    /** Whether the command implements ContainerAwareInterface. */
    const containerAware: bool
    var container: Option<Container>

    constructor (containerAware: bool)
      ensures this.containerAware == containerAware && container == None
    {
      this.containerAware := containerAware;
      container := None;
    }

    method SetContainer(c: Container)
      modifies this`container
      ensures container == Some(c)
    {
      container := Some(c);
    }
  }

  /** The commands registered on top of the framework's own. */
  datatype CommandKind =
    | Framework(name: string)
    | SelfUpdate
    | ApcBinDump | ApcBinLoad | ApcCacheClear | ApcCacheInfo | ApcCacheInfoFile
    | ApcKeyDelete | ApcKeyExists | ApcKeyFetch | ApcKeyStore | ApcSmaInfo
    | OpcacheConfiguration | OpcacheReset | OpcacheStatus | OpcacheStatusScripts

  /** The fifteen commands the application adds, in order. */
  const CacheToolCommands: seq<CommandKind> := [
    SelfUpdate,
    ApcBinDump, ApcBinLoad, ApcCacheClear, ApcCacheInfo, ApcCacheInfoFile,
    ApcKeyDelete, ApcKeyExists, ApcKeyFetch, ApcKeyStore, ApcSmaInfo,
    OpcacheConfiguration, OpcacheReset, OpcacheStatus, OpcacheStatusScripts
  ]

  class Application {
    var config: Config
    const logger: Logger

    constructor (config: Config)
      ensures this.config == config
      ensures fresh(logger) && logger.name == "cachetool"
    {
      this.config := config;
      logger := new Logger("cachetool");
    }

    /** The framework's commands followed by the application's fifteen, none of which is a framework command. */
    method DefaultCommands(inherited: seq<CommandKind>) returns (commands: seq<CommandKind>)
      ensures |commands| == |inherited| + 15
      ensures commands[..|inherited|] == inherited
      ensures commands[|inherited|..] == CacheToolCommands
      ensures forall i, j :: |inherited| <= i < j < |commands| ==> commands[i] != commands[j]
      ensures forall i :: |inherited| <= i < |commands| ==> !commands[i].Framework?
    {
      commands := inherited;
      commands := commands + [SelfUpdate];

      commands := commands + [ApcBinDump];
      commands := commands + [ApcBinLoad];
      commands := commands + [ApcCacheClear];
      commands := commands + [ApcCacheInfo];
      commands := commands + [ApcCacheInfoFile];
      commands := commands + [ApcKeyDelete];
      commands := commands + [ApcKeyExists];
      commands := commands + [ApcKeyFetch];
      commands := commands + [ApcKeyStore];
      commands := commands + [ApcSmaInfo];

      commands := commands + [OpcacheConfiguration];
      commands := commands + [OpcacheReset];
      commands := commands + [OpcacheStatus];
      commands := commands + [OpcacheStatusScripts];
      assert commands[|inherited|..] == CacheToolCommands;
    }

    /**
     * Rewrites the configuration from the options, then builds the chosen adapter and a
     * container holding the CacheTool and the application's own logger. file_exists and
     * the FastCGI server are the host's, passed as fs and server.
     */
    method BuildContainer(input: Input, fs: Filesystem, server: nat -> Reply) returns (result: Outcome<Container>)
      modifies this`config
      ensures config == ApplyOptions(old(config), input)
      ensures result.Returned? <==> SelectAdapter(config).Returned?
      ensures result.Threw? ==> result.exception == SelectAdapter(config).exception
      ensures result.Returned? ==>
        var c := result.value;
        && fresh(c)
        && c.services.Keys == {"cachetool", "logger"}
        && c.services["logger"] == LoggerService(logger)
        && c.services["cachetool"].CacheTool?
        && c.services["cachetool"].logger == logger
        && match SelectAdapter(config).value
           case UseCli => c.services["cachetool"].adapter == Cli
           case UseFastCGI(host) =>
             && c.services["cachetool"].adapter.FastCGI?
             && fresh(c.services["cachetool"].adapter.fastcgi)
             && c.services["cachetool"].adapter.fastcgi.ConfiguredFor(host, fs, server)
    {
      if input.hasCli {
        config := config["adapter" := Some("cli")];
      } else if input.hasFcgi {
        config := config["adapter" := Some("fastcgi")];
        config := config["fastcgi" := input.fcgi];
      }

      var adapter: Adapter;
      var selected := Get(config, "adapter");
      if selected == Some("cli") {
        adapter := Cli;
      } else if selected == Some("fastcgi") {
        var a := new FastCGIAdapter.FastCGI(Get(config, "fastcgi"), None, fs, server);
        adapter := FastCGI(a);
      } else {
        result := Threw(RuntimeException(UnknownAdapterMessage(selected), 0));
        return;
      }

      var container := new Container();
      container.Set("cachetool", CacheTool(adapter, logger));
      container.Set("logger", LoggerService(logger));
      result := Returned(container);
    }

    /**
     * Gives a container-aware command its container before handing it to the framework;
     * None means the command is then run (by code not modelled here), Some an exception
     * that stops it.
     */
    method DoRunCommand(command: Command, input: Input, fs: Filesystem, server: nat -> Reply)
      returns (raised: Option<Exception>)
      modifies this`config, command`container
      ensures !command.containerAware ==>
        raised == None && config == old(config) && command.container == old(command.container)
      ensures command.containerAware ==> config == ApplyOptions(old(config), input)
      ensures command.containerAware ==>
        match SelectAdapter(config)
        case Threw(e) => raised == Some(e) && command.container == old(command.container)
        case Returned(_) =>
          && raised == None
          && command.container.Some?
          && fresh(command.container.value)
          && command.container.value.services.Keys == {"cachetool", "logger"}
          && command.container.value.services["logger"] == LoggerService(logger)
          && command.container.value.services["cachetool"].CacheTool?
          && command.container.value.services["cachetool"].logger == logger
          && match SelectAdapter(config).value
             case UseCli => command.container.value.services["cachetool"].adapter == Cli
             case UseFastCGI(host) =>
               && command.container.value.services["cachetool"].adapter.FastCGI?
               && fresh(command.container.value.services["cachetool"].adapter.fastcgi)
               && command.container.value.services["cachetool"].adapter.fastcgi.ConfiguredFor(host, fs, server)
    {
      raised := None;
      if command.containerAware {
        var built := BuildContainer(input, fs, server);
        if built.Threw? {
          raised := Some(built.exception);
          return;
        }
        command.SetContainer(built.value);
      }
    }
  }
}
