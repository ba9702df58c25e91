/** The command-line validation of the zktreeutil tool: given the values the flags
    were parsed to and the positional arguments, either the options to run with or
    the reason the command line is refused. Flag parsing and usage text are not part
    of this model; the parsed values are inputs. */
module ZkTreeUtil {

  /** The values of the -zookeeper, -xmlfile, -path, -depth and -force flags. */
  datatype Flags = Flags(zkHosts: string, xmlFile: string, znodePath: string, depth: int, force: bool)

  /** The flag values when none is given on the command line. */
  const DefaultFlags: Flags := Flags("localhost:2181", "", "/", -1, false)

  /** The options the tool runs with. */
  datatype Options = Options(
    cmd: string,
    args: seq<string>,
    zkHosts: string,
    xmlFile: string,
    znodePath: string,
    depth: int,
    force: bool)

  /** The ways the command line can be refused. */
  datatype ParseError = MissingCommand | MissingParams | UnknownCommand(cmd: string)

  /** The text of each error. */
  function Message(e: ParseError): string
  {
    match e
    case MissingCommand => "missing command"
    case MissingParams => "missing params"
    case UnknownCommand(cmd) => "unknown command: " + cmd
  }

  datatype ParseResult = Parsed(opts: Options) | Failed(error: ParseError)

  /** The commands that read both a ZooKeeper ensemble and an XML file. */
  const TreeAndFileCommands: set<string> := {"import", "update", "diff"}

  /** The commands that need only a ZooKeeper ensemble. */
  const TreeOnlyCommands: set<string> := {"export", "dump"}

  /** When a command line is accepted: a known command, a ZooKeeper ensemble, and an
      XML file for the commands that read one. */
  predicate Accepted(positional: seq<string>, flags: Flags)
  {
    && |positional| > 0
    && (positional[0] in TreeAndFileCommands || positional[0] in TreeOnlyCommands)
    && flags.zkHosts != ""
    && (positional[0] in TreeAndFileCommands ==> flags.xmlFile != "")
  }

  /** Validates a parsed command line. Every input gets exactly one outcome: the
      options to run with, or one of the three errors. */
  function ParseCmdLine(positional: seq<string>, flags: Flags): (r: ParseResult)
    ensures r.Parsed? <==> Accepted(positional, flags)
    ensures r.Parsed? ==>
      r.opts == Options(positional[0], positional[1..], flags.zkHosts, flags.xmlFile,
                        flags.znodePath, flags.depth, flags.force)
  {
    if |positional| == 0 then Failed(MissingCommand)
    else
      var cmd := positional[0];
      if cmd == "import" || cmd == "update" || cmd == "diff" then
        if |flags.zkHosts| == 0 || |flags.xmlFile| == 0 then Failed(MissingParams)
        else Parsed(Options(cmd, positional[1..], flags.zkHosts, flags.xmlFile,
                            flags.znodePath, flags.depth, flags.force))
      else if cmd == "export" || cmd == "dump" then
        if |flags.zkHosts| == 0 then Failed(MissingParams)
        else Parsed(Options(cmd, positional[1..], flags.zkHosts, flags.xmlFile,
                            flags.znodePath, flags.depth, flags.force))
      else Failed(UnknownCommand(cmd))
  }

  /** No positional argument: the command is missing. */
  lemma NoArgumentsMissingCommand(flags: Flags)
    ensures ParseCmdLine([], flags) == Failed(MissingCommand)
    ensures Message(ParseCmdLine([], flags).error) == "missing command"
  {
  }

  /** import, update and diff need both an ensemble and an XML file; missing either
      is "missing params". */
  lemma TreeAndFileCommandsNeedBoth(positional: seq<string>, flags: Flags)
    requires |positional| > 0 && positional[0] in TreeAndFileCommands
    ensures ParseCmdLine(positional, flags).Failed?
            <==> flags.zkHosts == "" || flags.xmlFile == ""
    ensures ParseCmdLine(positional, flags).Failed? ==>
            ParseCmdLine(positional, flags).error == MissingParams
    ensures ParseCmdLine(positional, flags).Failed? ==>
            Message(ParseCmdLine(positional, flags).error) == "missing params"
  {
  }

  /** export and dump need only an ensemble; the XML file is optional. */
  lemma TreeOnlyCommandsNeedHosts(positional: seq<string>, flags: Flags)
    requires |positional| > 0 && positional[0] in TreeOnlyCommands
    ensures ParseCmdLine(positional, flags).Failed? <==> flags.zkHosts == ""
    ensures ParseCmdLine(positional, flags).Failed? ==>
            ParseCmdLine(positional, flags).error == MissingParams
    ensures ParseCmdLine(positional, flags).Failed? ==>
            Message(ParseCmdLine(positional, flags).error) == "missing params"
  {
  }

  /** Any other first argument is an unknown command, reported by name. */
  lemma OtherCommandsUnknown(positional: seq<string>, flags: Flags)
    requires |positional| > 0
    requires positional[0] !in TreeAndFileCommands && positional[0] !in TreeOnlyCommands
    ensures ParseCmdLine(positional, flags) == Failed(UnknownCommand(positional[0]))
    ensures Message(ParseCmdLine(positional, flags).error) == "unknown command: " + positional[0]
  {
  }

  /** With the -zookeeper flag left at its default ensemble and only -xmlfile given,
      export and dump are always accepted, and import, update and diff are refused,
      for missing params, exactly when no XML file is given. */
  lemma DefaultEnsembleOutcomes(positional: seq<string>, xmlFile: string)
    requires |positional| > 0
    ensures var flags := DefaultFlags.(xmlFile := xmlFile);
            && (positional[0] in TreeOnlyCommands ==> ParseCmdLine(positional, flags).Parsed?)
            && (positional[0] in TreeAndFileCommands ==>
                  (ParseCmdLine(positional, flags) == Failed(MissingParams) <==> xmlFile == ""))
  {
    var flags := DefaultFlags.(xmlFile := xmlFile);
    if positional[0] in TreeOnlyCommands {
      TreeOnlyCommandsNeedHosts(positional, flags);
    }
    if positional[0] in TreeAndFileCommands {
      TreeAndFileCommandsNeedBoth(positional, flags);
    }
  }

  /** Where the dump command takes its tree from: the live ensemble when one is given,
      otherwise the XML file when one is given, otherwise no tree at all. */
  datatype DumpSource = LiveTree(zkHosts: string) | LoadedTree(xmlFile: string) | NoTree

  function DumpSourceOf(opts: Options): DumpSource
  {
    if |opts.zkHosts| > 0 then LiveTree(opts.zkHosts)
    else if |opts.xmlFile| > 0 then LoadedTree(opts.xmlFile)
    else NoTree
  }

  /** Every dump command the validation accepts has an ensemble, so dump always reads
      the live tree: its XML-file branch (and its no-tree case) cannot be reached
      through the validation. */
  lemma AcceptedDumpReadsLiveTree(positional: seq<string>, flags: Flags)
    requires ParseCmdLine(positional, flags).Parsed?
    requires ParseCmdLine(positional, flags).opts.cmd == "dump"
    ensures DumpSourceOf(ParseCmdLine(positional, flags).opts) == LiveTree(flags.zkHosts)
  {
  }
}
