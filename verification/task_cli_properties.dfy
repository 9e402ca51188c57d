/** Which parts of the argument vector the dispatcher depends on.

    The dispatcher indexes the vector at 1 (the command word) and, for a
    recognised command, at positions below that command's minimum length.
    It never looks at the program name, and never at words past the minimum. */
module TaskCliProperties {
  import opened TaskCli

  function Min(x: nat, y: nat): (m: nat)
  {
    if x < y then x else y
  }

  /** The words the dispatcher reads: the command word and the arguments the
      command needs, cut short when the vector is shorter than that. */
  function Window(args: seq<string>): (w: seq<string>)
    ensures |args| < 2 <==> w == []
    ensures |args| >= 2 ==> |w| < MinArgs(ParseCommand(args[1]))
    ensures forall i :: 0 <= i < |w| ==> i + 1 < |args| && w[i] == args[i + 1]
  {
    if |args| < 2 then [] else args[1..Min(|args|, MinArgs(ParseCommand(args[1])))]
  }

  /** Two argument vectors that agree on what the dispatcher reads lead to
      the same outcome. */
  lemma {:induction false} OnlyWindowMatters(a: seq<string>, b: seq<string>)
    requires Window(a) == Window(b)
    ensures Dispatch(a) == Dispatch(b)
  {
    if |a| < 2 {
      NoCommand(a);
      NoCommand(b);
    } else {
      var w := Window(a);
      assert |b| >= 2 && b[1] == w[0] == a[1];
      match ParseCommand(a[1])
      case Add =>
        AddCommand(a); AddCommand(b);
        if |a| >= 3 { assert a[2] == w[1] == b[2]; }
      case Update =>
        UpdateCommand(a); UpdateCommand(b);
        if |a| >= 4 { assert a[2] == w[1] == b[2] && a[3] == w[2] == b[3]; }
      case Delete =>
        DeleteCommand(a); DeleteCommand(b);
        if |a| >= 3 { assert a[2] == w[1] == b[2]; }
      case MarkInProgress =>
        MarkInProgressCommand(a); MarkInProgressCommand(b);
        if |a| >= 3 { assert a[2] == w[1] == b[2]; }
      case MarkDone =>
        MarkDoneCommand(a); MarkDoneCommand(b);
        if |a| >= 3 { assert a[2] == w[1] == b[2]; }
      case List =>
        ListCommand(a); ListCommand(b);
      case Unknown(_) =>
        UnknownCommand(a); UnknownCommand(b);
    }
  }

  /** Words appended beyond a command's minimum never change the outcome. */
  lemma {:induction false} ExtraArgumentsIgnored(args: seq<string>, extra: seq<string>)
    requires |args| >= 2 && |args| >= MinArgs(ParseCommand(args[1]))
    ensures Dispatch(args + extra) == Dispatch(args)
  {
    var c := ParseCommand(args[1]);
    assert (args + extra)[1] == args[1];
    assert (args + extra)[1..MinArgs(c)] == args[1..MinArgs(c)];
    OnlyWindowMatters(args + extra, args);
  }

  /** The program name never changes the outcome. */
  lemma {:induction false} ProgramNameIgnored(args: seq<string>, name: string)
    requires |args| >= 1
    ensures Dispatch(args[0 := name]) == Dispatch(args)
  {
    if |args| >= 2 {
      assert args[0 := name][1..] == args[1..];
      assert Window(args[0 := name]) == Window(args);
    }
    OnlyWindowMatters(args[0 := name], args);
  }

  /** The fixed text a confirmation starts with, before the echoed words. */
  function ConfirmationPrefix(c: Command): (p: string)
    requires !c.Unknown? && !c.List?
  {
    match c
    case Add => "Adding task: "
    case Update => "Updating task "
    case Delete => "Deleting task: "
    case MarkInProgress => "Marking task in progress: "
    case MarkDone => "Marking task done: "
  }

  /** Commands whose confirmation echoes a single word, the one at index 2. */
  predicate EchoesOneWord(c: Command)
  {
    c.Add? || c.Delete? || c.MarkInProgress? || c.MarkDone?
  }

  /** What a standard-output message reads as: the confirmation of a
      recognised command, or no confirmation at all. */
  datatype Reading = Confirms(cmd: Command) | NotAConfirmation

  /** Reads back which command a standard-output message confirms. */
  function ConfirmedCommand(m: string): (r: Reading)
    ensures r.Confirms? ==> !r.cmd.Unknown?
    ensures r.Confirms? && !r.cmd.List? ==> ConfirmationPrefix(r.cmd) <= m
    ensures r == Confirms(List) <==> m == "Listing tasks"
  {
    if m == "Listing tasks" then Confirms(List)
    else if ConfirmationPrefix(Add) <= m then Confirms(Add)
    else if ConfirmationPrefix(Update) <= m then Confirms(Update)
    else if ConfirmationPrefix(Delete) <= m then Confirms(Delete)
    else if ConfirmationPrefix(MarkInProgress) <= m then Confirms(MarkInProgress)
    else if ConfirmationPrefix(MarkDone) <= m then Confirms(MarkDone)
    else NotAConfirmation
  }

  /** The word a one-word confirmation echoes: what follows its prefix. */
  function EchoedWord(m: string): (w: string)
    requires ConfirmedCommand(m).Confirms? && EchoesOneWord(ConfirmedCommand(m).cmd)
    ensures m == ConfirmationPrefix(ConfirmedCommand(m).cmd) + w
  {
    m[|ConfirmationPrefix(ConfirmedCommand(m).cmd)|..]
  }

  /** A confirmation names the command that produced it and, for the
      one-word commands, gives back exactly the word at index 2. */
  lemma {:induction false} ConfirmationRoundTrip(args: seq<string>)
    requires Accepted(args)
    ensures Dispatch(args).Out?
    ensures ConfirmedCommand(Dispatch(args).msg) == Confirms(ParseCommand(args[1]))
    ensures EchoesOneWord(ParseCommand(args[1])) ==> EchoedWord(Dispatch(args).msg) == args[2]
  {
    var m := Dispatch(args).msg;
    match ParseCommand(args[1])
    case Add =>
      AddCommand(args);
      assert m[0] == 'A';
    case Update =>
      UpdateCommand(args);
      assert m[0] == 'U';
    case Delete =>
      DeleteCommand(args);
      assert m[0] == 'D';
    case MarkInProgress =>
      MarkInProgressCommand(args);
      assert m[0] == 'M' && m[13] == 'i';
    case MarkDone =>
      MarkDoneCommand(args);
      assert m[0] == 'M' && m[13] == 'd';
    case List =>
      ListCommand(args);
  }

  /** Equal confirmations come from the same command and, for the one-word
      commands, from the same word. */
  lemma ConfirmationIdentifiesCommand(a: seq<string>, b: seq<string>)
    requires Accepted(a) && Accepted(b) && Dispatch(a) == Dispatch(b)
    ensures ParseCommand(a[1]) == ParseCommand(b[1])
    ensures a[1] == b[1]
    ensures EchoesOneWord(ParseCommand(a[1])) ==> a[2] == b[2]
  {
    ConfirmationRoundTrip(a);
    ConfirmationRoundTrip(b);
  }

  /** The `update` confirmation does not separate the id from the
      description: an id containing ": " reads like a shorter id. */
  lemma UpdateConfirmationAmbiguous()
    ensures Dispatch(["task-cli", "update", "1: a", "b"]) == Dispatch(["task-cli", "update", "1", "a: b"])
  {
    UpdateCommand(["task-cli", "update", "1: a", "b"]);
    UpdateCommand(["task-cli", "update", "1", "a: b"]);
  }

  /** Reading a recognised command's name gives the command back. */
  lemma NameRoundTrip(c: Command)
    requires !c.Unknown?
    ensures ParseCommand(Name(c)) == c
  {
  }
}
