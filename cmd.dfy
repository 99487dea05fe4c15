/**
 * The command-line front end: a manager holding commands by name, the
 * dispatch of an argument list to a command or one of its subcommands, and
 * the help command's text. Stdout and stderr are the strings written so far.
 */
module Cmd {
  import opened Wrappers

  datatype Info = Info(name: string, usage: string, desc: string)

  /** A command that stores the arguments it was last run with. */
  class Recorder {
    var args: seq<string>

    constructor ()
      ensures args == []
    {
      args := [];
    }
  }

  /**
   * What running a command does. A command's own run writes `out` to stdout,
   * stores its arguments when it has a `recorder`, and returns `error`.
   */
  datatype Action =
    | Act(out: string, error: Option<string>, recorder: Option<Recorder>)
    | ShowHelp                      // the built-in help command
    | NoRun                         // has subcommands but no Run of its own

  datatype SubCommand = SubCommand(info: Info, action: Action)

  datatype Command = Command(info: Info, action: Action, subcommands: map<string, SubCommand>)

  const HelpName := "help"

  const HelpUsage := "glb command [args]"

  /** The help command every new manager holds. */
  function HelpCommand(): Command
  {
    Command(Info(HelpName, HelpUsage, ""), ShowHelp, map[])
  }

  function AlreadyRegistered(name: string): string { "command already registered: " + name }

  function UnknownCommand(name: string): string { "command " + name + " does not exist\n" }

  /** The usage line and description help prints for one command. */
  function Describe(info: Info): string
  {
    "Usage: " + info.usage + "\n\n" + info.desc + "\n"
  }

  /** A command picked for running, with the arguments it receives. */
  datatype Target = Target(info: Info, action: Action, args: seq<string>)

  /**
   * The command an argument list names: the registered command `args[0]`, or
   * its subcommand `args[1]` when it has one by that name. The arguments after
   * the names are passed on unchanged.
   */
  function Resolve(commands: map<string, Command>, args: seq<string>): (r: Option<Target>)
    requires args != []
    ensures r.None? <==> args[0] !in commands
    ensures r.Some? ==> |r.value.args| < |args| && r.value.args == args[|args| - |r.value.args|..]
    ensures args[0] in commands && |args| > 1 && args[1] in commands[args[0]].subcommands ==>
      var sub := commands[args[0]].subcommands[args[1]];
      r == Some(Target(sub.info, sub.action, args[2..]))
    ensures args[0] in commands && (|args| == 1 || args[1] !in commands[args[0]].subcommands) ==>
      r == Some(Target(commands[args[0]].info, commands[args[0]].action, args[1..]))
  {
    if args[0] !in commands then None
    else
      var c := commands[args[0]];
      if |args| > 1 && args[1] in c.subcommands then
        var sub := c.subcommands[args[1]];
        Some(Target(sub.info, sub.action, args[2..]))
      else
        Some(Target(c.info, c.action, args[1..]))
  }

  /**
   * What help prints: the general usage line without arguments, otherwise the
   * usage and description of the command or subcommand the arguments name;
   * nothing for a name that is not registered.
   */
  function HelpText(commands: map<string, Command>, args: seq<string>): (r: Option<string>)
    ensures r.None? <==> args != [] && args[0] !in commands
    ensures args == [] ==> r == Some("Usage: " + HelpUsage + "\n")
  {
    if args == [] then Some("Usage: " + HelpUsage + "\n")
    else
      match Resolve(commands, args)
      case None => None
      case Some(t) => Some(Describe(t.info))
  }

  /** What a run writes to stdout and stderr, whose arguments it records, and whether it crashed. */
  datatype Effect = Effect(out: string, err: string, recorded: Option<(Recorder, seq<string>)>, crashed: bool)

  /** The effect of running a picked command. */
  function Perform(commands: map<string, Command>, t: Target): Effect
  {
    match t.action
    case Act(out, error, recorder) =>
      Effect(out,
             if error.Some? then error.value else "",
             if recorder.Some? then Some((recorder.value, t.args)) else None,
             false)
    case ShowHelp =>
      (match HelpText(commands, t.args)
       case Some(text) => Effect(text, "", None, false)
       case None => Effect("", UnknownCommand(t.args[0]), None, false))
    case NoRun => Effect("", "", None, true)
  }

  /**
   * The effect of running an argument list; an empty one means help. A run
   * that crashes writes and records nothing, and a command records only the
   * arguments that follow its name.
   */
  function Outcome(commands: map<string, Command>, args: seq<string>): (r: Effect)
    ensures r.crashed ==> r.out == "" && r.err == "" && r.recorded.None?
    ensures r.recorded.Some? ==>
      var passed := r.recorded.value.1;
      |passed| <= |args| && passed == args[|args| - |passed|..] && (args != [] ==> |passed| < |args|)
  {
    var argv := if args == [] then [HelpName] else args;
    match Resolve(commands, argv)
    case None => Effect("", UnknownCommand(argv[0]), None, false)
    case Some(t) => Perform(commands, t)
  }

  class Manager {
    var commands: map<string, Command>
    var stdout: string
    var stderr: string

    /** A manager that already holds the help command. */
    constructor ()
      ensures commands == map[HelpName := HelpCommand()]
      ensures stdout == "" && stderr == ""
    {
      commands := map[HelpName := HelpCommand()];
      stdout, stderr := "", "";
    }

    /** Adds a command under its name; a name can be registered once only. */
    method Register(c: Command) returns (err: Option<string>)
      modifies this`commands
      ensures c.info.name in old(commands) ==>
        err == Some(AlreadyRegistered(c.info.name)) && commands == old(commands)
      ensures c.info.name !in old(commands) ==>
        err == None && commands == old(commands)[c.info.name := c]
    {
      if c.info.name in commands {
        return Some(AlreadyRegistered(c.info.name));
      }
      commands := commands[c.info.name := c];
      return None;
    }

    /** The objects a run of `args` changes besides the manager's output. */
    function Touched(args: seq<string>): set<object>
      reads this
    {
      var e := Outcome(commands, args);
      if e.recorded.Some? then {e.recorded.value.0} else {}
    }

    /** Runs the command `args` names, appending what it writes to stdout and its error to stderr. */
    method Run(args: seq<string>) returns (crashed: bool)
      modifies this`stdout, this`stderr, Touched(args)
      ensures stdout == old(stdout) + Outcome(commands, args).out
      ensures stderr == old(stderr) + Outcome(commands, args).err
      ensures crashed == Outcome(commands, args).crashed
      ensures Outcome(commands, args).recorded.Some? ==>
        var (recorder, passed) := Outcome(commands, args).recorded.value;
        recorder.args == passed
    {
      var argv := if args == [] then [HelpName] else args;
      var target := Resolve(commands, argv);
      crashed := false;
      if target.None? {
        stderr := stderr + UnknownCommand(argv[0]);
        return;
      }
      var t := target.value;
      match t.action {
        case Act(out, error, recorder) =>
          stdout := stdout + out;
          if recorder.Some? {
            recorder.value.args := t.args;
          }
          if error.Some? {
            stderr := stderr + error.value;
          }
        case ShowHelp =>
          var text := HelpText(commands, t.args);
          if text.Some? {
            stdout := stdout + text.value;
          } else {
            stderr := stderr + UnknownCommand(t.args[0]);
          }
        case NoRun =>
          crashed := true;
      }
    }
  }

  // ------------------------------------------------------------ properties

  /** With no arguments, a manager holding the help command prints the general usage line. */
  lemma RunWithoutArgsShowsUsage(commands: map<string, Command>)
    requires HelpName in commands && commands[HelpName].action == ShowHelp
    ensures Outcome(commands, []) == Effect("Usage: glb command [args]\n", "", None, false)
  {
  }

  /** An unregistered name is reported on stderr and nothing else happens. */
  lemma UnknownCommandReported(commands: map<string, Command>, name: string, rest: seq<string>)
    requires name !in commands
    ensures Outcome(commands, [name] + rest) == Effect("", "command " + name + " does not exist\n", None, false)
  {
  }

  /** A command's error reaches stderr verbatim, after whatever it wrote to stdout. */
  lemma CommandErrorOnStderr(commands: map<string, Command>, name: string, rest: seq<string>,
                             out: string, message: string)
    requires name in commands && commands[name].action == Act(out, Some(message), None)
    requires rest == [] || rest[0] !in commands[name].subcommands
    ensures Outcome(commands, [name] + rest) == Effect(out, message, None, false)
  {
  }

  /** A registered command runs with the arguments after its name. */
  lemma RegisteredCommandRuns(commands: map<string, Command>, name: string, rest: seq<string>)
    requires name in commands
    requires rest == [] || rest[0] !in commands[name].subcommands
    ensures Outcome(commands, [name] + rest) ==
      Perform(commands, Target(commands[name].info, commands[name].action, rest))
  {
  }

  /** Naming a subcommand runs it, and the arguments after its name reach it unchanged. */
  lemma SubcommandGetsRemainingArgs(commands: map<string, Command>, name: string, sub: string, rest: seq<string>)
    requires name in commands && sub in commands[name].subcommands
    ensures Outcome(commands, [name, sub] + rest) ==
      Perform(commands, Target(commands[name].subcommands[sub].info, commands[name].subcommands[sub].action, rest))
  {
  }

  /** Help for a command, or for one of its subcommands, prints that one's usage and description. */
  lemma HelpDescribesCommand(commands: map<string, Command>, name: string, sub: string)
    requires name in commands
    ensures HelpText(commands, [name]) == Some("Usage: " + commands[name].info.usage + "\n\n" + commands[name].info.desc + "\n")
    ensures sub in commands[name].subcommands ==>
      var info := commands[name].subcommands[sub].info;
      HelpText(commands, [name, sub]) == Some("Usage: " + info.usage + "\n\n" + info.desc + "\n")
  {
  }
}
