# task-cli command dispatcher

`task-cli` is meant to be a command-line task tracker. The code that exists today is only its
command dispatcher, `main` in `src/main.rs`. It collects the argument vector. If no command word
is present, it prints a usage banner. Otherwise it matches on the command word (`add`, `update`,
`delete`, `mark-in-progress`, `mark-done`, `list`, or anything else) and checks that command's
argument count. Then it writes exactly one message: an echo of the arguments on standard output,
or a usage or unknown-command error on standard error.

The model is pure, as the source is: one `if` guard and one `match`, with no state and no loop.

- `TaskCli` (`task_cli.dfy`) holds the model.
  - `Dispatch` maps the argument vector to an `Outcome`. The vector includes the program name,
    as the process receives it. An outcome is `Out(msg)` (printed with `println!`) or
    `Err(msg, newline)` (printed with `eprintln!` or `eprint!`).
  - `Render` and `Run` turn the outcome into the text each stream receives.
  - The command table is an independent description of the command line interface: `ParseCommand`,
    `Name`, `MinArgs` and `Usage`. `DispatchFollowsTable` proves that the dispatcher agrees with it.
- `TaskCliProperties` (`task_cli_properties.dfy`) proves which arguments the outcome depends on.
  Only the command word and the arguments the command needs matter. The program name and any
  extra words are ignored. It also reads a stdout message back: the message names its command
  and, for the one-word commands, gives back the echoed word. `update` is the exception, because
  its id and description are joined by `: `, which can also occur inside the id.

The usage lines describe a task tracker, but the code only echoes its arguments, and the model follows the code:
- `add` echoes only the first description word; it does not join the words.
- No command stores, numbers or looks up a task.
- `update` does not check that its id is a number.
- `list` prints the fixed line `Listing tasks`.
- "No command" means an argument vector shorter than 2, i.e. the program name alone, or nothing.
- The banner and the unknown-command error are written without a trailing line break.

## Model

| member | source | states |
|---|---|---|
| `TaskCli.Dispatch` | src/main.rs:6-53 | Every argument vector gives exactly one outcome, and its message is never empty |
| `TaskCli.DispatchFollowsTable` | src/main.rs:6-53 | The message goes to stdout iff the command word is recognised and the vector reaches that command's minimum length. The message lacks a line break iff no command was given or the word is unknown. Those two cases give the banner and `Unknown command: <word>`. A recognised command that is short of arguments gives that command's own usage line |
| `TaskCli.NoCommand` | src/main.rs:6-9 | A vector shorter than 2 gives the unterminated banner `Usage: task-cli <command> [arguments...]` on stderr |
| `TaskCli.AddCommand` | src/main.rs:12-17 | `add` with fewer than 3 arguments gives its usage line on stderr. Otherwise stdout gets `Adding task: ` followed by `args[2]` alone |
| `TaskCli.UpdateCommand` | src/main.rs:19-25 | `update` needs 4 arguments, else it gives its usage line. It then echoes `args[2]` as the id and `args[3]` as the description, verbatim and for any id text |
| `TaskCli.DeleteCommand` | src/main.rs:26-32 | `delete` needs 3 arguments, else it gives its usage line. It then echoes `args[2]` after `Deleting task: ` |
| `TaskCli.MarkInProgressCommand` | src/main.rs:33-39 | `mark-in-progress` needs 3 arguments, else it gives its usage line. It then echoes `args[2]` after `Marking task in progress: ` |
| `TaskCli.MarkDoneCommand` | src/main.rs:40-46 | `mark-done` needs 3 arguments, else it gives its usage line. It then echoes `args[2]` after `Marking task done: ` |
| `TaskCli.ListCommand` | src/main.rs:47-49 | `list` always gives `Listing tasks` on stdout, whatever follows it |
| `TaskCli.UnknownCommand` | src/main.rs:50-52 | Any word outside the six commands gives `Unknown command: ` followed by that word on stderr, with no line break |
| `TaskCli.ParseCommand` | src/main.rs:11 | A word is recognised iff it is one of the six command words. A recognised word is the name of the command it selects. An unrecognised word is kept unchanged |
| `TaskCli.Name` | src/main.rs:12-47 | Each recognised command has one of the six command words as its name |
| `TaskCli.Usage` | src/main.rs:14-42 | Each short command's usage line starts like the banner. It is exactly what that command, typed with no argument, reports on stderr with a line break (lines 14, 21, 28, 35, 42) |
| `TaskCli.Accepted` | src/main.rs:6-48 | The stdout condition: a recognised word at index 1 and at least `MinArgs` words. `list` is always accepted, four words satisfy every recognised command, and `list` is the only command accepted with nothing after it |
| `TaskCli.MinArgs` | src/main.rs:13-47 | Every command needs a vector of length 2 to 4, program name and command word included |
| `TaskCliProperties.NameRoundTrip` | src/main.rs:11-47 | Reading a recognised command's name gives that command back |
| `TaskCli.Render` | src/main.rs:7-51 | At most one stream gets text. The text written is the message, followed by a line break for `println!` and `eprintln!` and by nothing for `eprint!`. A non-empty message goes to stdout exactly when the outcome is `Out` |
| `TaskCli.Run` | src/main.rs:3-54 | Every run writes text on exactly one stream, and that stream is stdout iff the command is accepted. Every message of a recognised command ends with a line break |
| `TaskCliProperties.Window` | src/main.rs:11-44 | The words the dispatcher reads form a slice of the vector that starts at the command word. That slice is shorter than the command's minimum length and is empty iff no command was given |
| `TaskCliProperties.OnlyWindowMatters` | src/main.rs:11-52 | Two vectors that agree on the words the dispatcher reads give the same outcome |
| `TaskCliProperties.ExtraArgumentsIgnored` | src/main.rs:13-44 | Appending words beyond a command's minimum never changes the outcome |
| `TaskCliProperties.ProgramNameIgnored` | src/main.rs:4-11 | Replacing the program name never changes the outcome |
| `TaskCliProperties.ConfirmedCommand` | src/main.rs:16-48 | Reads back which command a stdout message confirms, or reports that the message is no confirmation. A recognised command is returned only when the message starts with that command's fixed text, and `list` exactly for `Listing tasks` |
| `TaskCliProperties.EchoedWord` | src/main.rs:16-44 | For a one-word confirmation, the message is the command's fixed text followed by the returned word |
| `TaskCliProperties.ConfirmationRoundTrip` | src/main.rs:12-49 | For every accepted vector, the stdout message reads back as the command that was given. For `add`, `delete`, `mark-in-progress` and `mark-done` it also gives back exactly `args[2]` |
| `TaskCliProperties.ConfirmationIdentifiesCommand` | src/main.rs:12-49 | Two accepted vectors with the same outcome have the same command word. For the one-word commands they also have the same `args[2]` |
| `TaskCliProperties.UpdateConfirmationAmbiguous` | src/main.rs:23 | The `update` echo can be ambiguous: id `1: a` with description `b` prints the same line as id `1` with description `a: b` |

## Left out

- Collecting the process arguments (`env::args()`) is left out; the argument vector is a parameter of `Dispatch` and `Run`.
- Printing is left out. The text each stream receives is returned as a value, and the order of writes is not modelled because each run writes once.
- Arguments that are not valid Unicode are left out. The model takes the vector as strings, so the case where `env::args()` panics on such an argument is not modelled.
- The exit status is left out. Every run that returns from `main` exits with status 0, including usage and unknown-command errors. A panic (a non-Unicode argument, or a failed write by `println!`, `eprintln!` or `eprint!`) exits with status 101. Neither status is modelled.
- The task collection, its JSON persistence, timestamps, id assignment, id parsing and status changes are left out. The code implements none of them; every branch only echoes its arguments.
