/** The command dispatcher of the `task-cli` binary.

    The binary reads its argument vector, checks that a command is present,
    matches on the command word, checks that command's argument count, and
    writes exactly one message: a confirmation on standard output, or a usage
    or unknown-command error on standard error. Nothing else happens: no task
    is stored, numbered or parsed.

    `Dispatch` is that decision as a total function from the argument vector
    (program name first, as the process receives it) to an `Outcome`; `Run`
    turns the outcome into the text written on each stream. The command table
    (`ParseCommand`, `Name`, `MinArgs`, `Usage`) is an independent description
    of the same command line interface, and the lemma `DispatchFollowsTable`
    ties the two together. */
module TaskCli {

  /** The single message a run writes. `Out` is written with a line break
      (`println!`); `Err` is written on standard error, with a line break
      (`eprintln!`) or without one (`eprint!`). */
  datatype Outcome =
    | Out(msg: string)
    | Err(msg: string, newline: bool)

  /** Text written on each of the two output streams. */
  datatype Streams = Streams(stdout: string, stderr: string)

  /** The commands the dispatcher recognises, and the catch-all for any other word. */
  datatype Command =
    | Add
    | Update
    | Delete
    | MarkInProgress
    | MarkDone
    | List
    | Unknown(word: string)

  /** The words the dispatcher recognises as commands. */
  const CommandWords: set<string> := {"add", "update", "delete", "mark-in-progress", "mark-done", "list"}

  /** Usage banner printed when no command is given. */
  const Banner: string := "Usage: task-cli <command> [arguments...]"

  /** The word that selects a recognised command. */
  function Name(c: Command): (w: string)
    requires !c.Unknown?
    ensures w in CommandWords
  {
    match c
    case Add => "add"
    case Update => "update"
    case Delete => "delete"
    case MarkInProgress => "mark-in-progress"
    case MarkDone => "mark-done"
    case List => "list"
  }

  /** Reads a command word; any word that is not recognised is kept as `Unknown`. */
  function ParseCommand(w: string): (c: Command)
    ensures c.Unknown? <==> w !in CommandWords
    ensures c.Unknown? ==> c.word == w
    ensures !c.Unknown? ==> Name(c) == w
  {
    if w == "add" then Add
    else if w == "update" then Update
    else if w == "delete" then Delete
    else if w == "mark-in-progress" then MarkInProgress
    else if w == "mark-done" then MarkDone
    else if w == "list" then List
    else Unknown(w)
  }

  /** The length the argument vector must reach (program name and command
      word included) for a command to be carried out. */
  function MinArgs(c: Command): (n: nat)
    ensures 2 <= n <= 4
  {
    match c
    case Update => 4
    case Add | Delete | MarkInProgress | MarkDone => 3
    case List | Unknown(_) => 2
  }

  /** The usage message a recognised command gives when its arguments are missing. */
  function Usage(c: Command): (u: string)
    requires !c.Unknown? && !c.List?
    // The usage line starts like the banner: 16 is the length of "Usage: task-cli ".
    ensures |u| > 16 && u[..16] == Banner[..16]
    // It is what the command typed on its own reports, with a line break.
    ensures Dispatch(["task-cli", Name(c)]) == Err(u, true)
  {
    match c
    case Add => "Usage: task-cli add <description>"
    case Update => "Usage: task-cli update <id> <description>"
    case Delete => "Usage: task-cli delete <id>"
    case MarkInProgress => "Usage: task-cli mark-in-progress <id>"
    case MarkDone => "Usage: task-cli mark-done <id>"
  }

  /** True when the arguments select a recognised command and supply all it needs. */
  predicate Accepted(args: seq<string>)
    ensures Accepted(args) ==> |args| >= 2 && args[1] in CommandWords
    // `list` needs nothing after it; four words satisfy every recognised command.
    ensures |args| >= 2 && args[1] == "list" ==> Accepted(args)
    ensures |args| >= 4 && args[1] in CommandWords ==> Accepted(args)
    // Only `list` is accepted without an argument after the command word.
    ensures Accepted(args) && |args| < 3 ==> args[1] == "list"
  {
    |args| >= 2 && args[1] in CommandWords && |args| >= MinArgs(ParseCommand(args[1]))
  }

  /** The dispatcher: what a run with argument vector `args` writes. */
  function Dispatch(args: seq<string>): (o: Outcome)
    ensures o.msg != []
  {
    if |args| < 2 then
      Err(Banner, false)
    else
      match args[1]
      case "add" =>
        if |args| < 3 then Err("Usage: task-cli add <description>", true)
        else Out("Adding task: " + args[2])
      case "update" =>
        if |args| < 4 then Err("Usage: task-cli update <id> <description>", true)
        else Out("Updating task " + args[2] + ": " + args[3])
      case "delete" =>
        if |args| < 3 then Err("Usage: task-cli delete <id>", true)
        else Out("Deleting task: " + args[2])
      case "mark-in-progress" =>
        if |args| < 3 then Err("Usage: task-cli mark-in-progress <id>", true)
        else Out("Marking task in progress: " + args[2])
      case "mark-done" =>
        if |args| < 3 then Err("Usage: task-cli mark-done <id>", true)
        else Out("Marking task done: " + args[2])
      case "list" =>
        Out("Listing tasks")
      case _ =>
        Err("Unknown command: " + args[1], false)
  }

  /** What writing an outcome puts on each stream. */
  function Render(o: Outcome): (s: Streams)
    // At most one stream receives text, and it is the message, terminated as asked.
    ensures s.stdout == [] || s.stderr == []
    ensures s.stdout + s.stderr == o.msg + (if o.Out? || o.newline then "\n" else "")
    // A non-empty message goes to standard output exactly for `Out`.
    ensures o.msg != [] ==> (s.stdout != [] <==> o.Out?)
  {
    match o
    case Out(m) => Streams(m + "\n", "")
    case Err(m, nl) => Streams("", if nl then m + "\n" else m)
  }

  /** The whole program: dispatch, then write the one message. */
  function Run(args: seq<string>): (s: Streams)
    // Exactly one of the two streams receives text.
    ensures (s.stdout != []) != (s.stderr != [])
    ensures s.stdout != [] <==> Accepted(args)
    // Every message of a recognised command ends with a line break.
    ensures (|args| >= 2 && args[1] in CommandWords)
              ==> var text := s.stdout + s.stderr; |text| > 0 && text[|text| - 1] == '\n'
  {
    DispatchFollowsTable(args);
    Render(Dispatch(args))
  }

  /** The dispatcher agrees with the command table: which stream, which
      message for a missing command, an unknown word or missing arguments. */
  lemma DispatchFollowsTable(args: seq<string>)
    // One stream: standard output exactly when a recognised command has its arguments.
    ensures Dispatch(args).Out? <==> Accepted(args)
    // The banner and the unknown-command error are the unterminated messages.
    ensures Dispatch(args).Err? && !Dispatch(args).newline <==> (|args| < 2 || args[1] !in CommandWords)
    ensures |args| < 2 ==> Dispatch(args) == Err(Banner, false)
    ensures (|args| >= 2 && args[1] !in CommandWords) ==> Dispatch(args) == Err("Unknown command: " + args[1], false)
    // A recognised command short of arguments reports its own usage.
    ensures (|args| >= 2 && args[1] in CommandWords && !Accepted(args))
              ==> Dispatch(args) == Err(Usage(ParseCommand(args[1])), true)
  {
    if |args| >= 2 {
      match ParseCommand(args[1])
      case Add => AddCommand(args);
      case Update => UpdateCommand(args);
      case Delete => DeleteCommand(args);
      case MarkInProgress => MarkInProgressCommand(args);
      case MarkDone => MarkDoneCommand(args);
      case List => ListCommand(args);
      case Unknown(_) => UnknownCommand(args);
    }
  }

  /** Without a command word the banner is reported, unterminated. */
  lemma NoCommand(args: seq<string>)
    requires |args| < 2
    ensures Dispatch(args) == Err("Usage: task-cli <command> [arguments...]", false)
  {
  }

  /** `add` needs a description word and echoes only the first one. */
  lemma AddCommand(args: seq<string>)
    requires |args| >= 2 && args[1] == "add"
    ensures |args| < 3 ==> Dispatch(args) == Err("Usage: task-cli add <description>", true)
    ensures |args| >= 3 ==> Dispatch(args) == Out("Adding task: " + args[2])
  {
  }

  /** `update` needs an id and a description and echoes both verbatim. */
  lemma UpdateCommand(args: seq<string>)
    requires |args| >= 2 && args[1] == "update"
    ensures |args| < 4 ==> Dispatch(args) == Err("Usage: task-cli update <id> <description>", true)
    ensures |args| >= 4 ==> Dispatch(args) == Out("Updating task " + args[2] + ": " + args[3])
  {
  }

  /** `delete` needs an id and echoes it verbatim. */
  lemma DeleteCommand(args: seq<string>)
    requires |args| >= 2 && args[1] == "delete"
    ensures |args| < 3 ==> Dispatch(args) == Err("Usage: task-cli delete <id>", true)
    ensures |args| >= 3 ==> Dispatch(args) == Out("Deleting task: " + args[2])
  {
  }

  /** `mark-in-progress` needs an id and echoes it verbatim. */
  lemma MarkInProgressCommand(args: seq<string>)
    requires |args| >= 2 && args[1] == "mark-in-progress"
    ensures |args| < 3 ==> Dispatch(args) == Err("Usage: task-cli mark-in-progress <id>", true)
    ensures |args| >= 3 ==> Dispatch(args) == Out("Marking task in progress: " + args[2])
  {
  }

  /** `mark-done` needs an id and echoes it verbatim. */
  lemma MarkDoneCommand(args: seq<string>)
    requires |args| >= 2 && args[1] == "mark-done"
    ensures |args| < 3 ==> Dispatch(args) == Err("Usage: task-cli mark-done <id>", true)
    ensures |args| >= 3 ==> Dispatch(args) == Out("Marking task done: " + args[2])
  {
  }

  /** `list` always succeeds, whatever follows it. */
  lemma ListCommand(args: seq<string>)
    requires |args| >= 2 && args[1] == "list"
    ensures Dispatch(args) == Out("Listing tasks")
  {
  }

  /** Any other word is reported, unterminated, as an unknown command. */
  lemma UnknownCommand(args: seq<string>)
    requires |args| >= 2 && args[1] !in CommandWords
    ensures Dispatch(args) == Err("Unknown command: " + args[1], false)
  {
  }
}
