/**
 What happens to one stripped command line once it has been accepted:
 classification by prefix, then the directory-change state machine, the
 expression path or the shell path, each producing the replies that are
 appended to the transcript (`run_command` in cmd2.py).
 */
module Dispatch {
  import opened PyStr
  import opened Session

  /** The three execution paths, with what each one hands to the outside
      world: the directory argument, the program given to `python3 -c`, or
      the full command line given to the shell. */
  datatype Command = Cd(target: string) | Python(program: string) | Shell(line: string)

  /** The directory pair after a command, and the replies it appended. */
  datatype Reply = Reply(dirs: Dirs, entries: seq<Entry>)

  const GoBack := ".."
  const NoPrevious := "No previous directory to go back."
  const NoOutput := "No output returned."

  function ChangedTo(path: string): string {
    "Changed directory to " + path
  }

  function NotFound(target: string): string {
    "Directory '" + target + "' not found."
  }

  /** Prefix dispatch, first match wins: `"cd "` before `"python"`, and
      everything else goes to the shell unchanged. The directory argument
      is what follows `"cd "`, stripped; the expression is what follows
      `"python"`, stripped and wrapped in `print(...)`. */
  function Classify(command: string): (r: Command)
    ensures r.Cd? <==> StartsWith(command, "cd ")
    ensures r.Python? <==> !StartsWith(command, "cd ") && StartsWith(command, "python")
    ensures r.Shell? ==> r.line == command
    ensures r.Cd? ==> r.target == Strip(command[3..])
    ensures r.Python? ==> r.program == "print(" + Strip(command[6..]) + ")"
  {
    if StartsWith(command, "cd ") then
      Cd(Strip(command[3..]))
    else if StartsWith(command, "python") then
      Python("print(" + Strip(command[6..]) + ")")
    else
      Shell(command)
  }

  /** The directory-change state machine. `..` swaps the pair when a
      previous directory is recorded and otherwise reports that there is
      none; any other argument is joined onto the current directory and
      entered only if the result is a directory. Exactly one reply is
      produced, and an error reply leaves the pair untouched. */
  function CdStep(d: Dirs, target: string, w: World): (r: Reply)
    ensures |r.entries| == 1
    ensures r.entries[0].tag == System || r.entries[0].tag == SystemError
    ensures r.entries[0].tag == SystemError ==> r.dirs == d
    ensures r.entries[0].tag == System ==>
              r.dirs.previous == Some(d.current) && r.entries[0].text == ChangedTo(r.dirs.current)
    ensures target == GoBack ==>
              && (r.entries[0].tag == System <==> Truthy(d.previous))
              && (Truthy(d.previous) ==> r.dirs.current == d.previous.value)
              && (!Truthy(d.previous) ==> r.entries[0].text == NoPrevious)
    ensures target != GoBack ==>
              && (r.entries[0].tag == System <==> w.isDir(w.join(d.current, target)))
              && (w.isDir(w.join(d.current, target)) ==> r.dirs.current == w.join(d.current, target))
              && (!w.isDir(w.join(d.current, target)) ==> r.entries[0].text == NotFound(target))
  {
    if target == GoBack then
      if Truthy(d.previous) then
        var swapped := Dirs(d.previous.value, Some(d.current));
        Reply(swapped, [Entry(System, ChangedTo(swapped.current))])
      else
        Reply(d, [Entry(SystemError, NoPrevious)])
    else
      var full := w.join(d.current, target);
      if w.isDir(full) then
        Reply(Dirs(full, Some(d.current)), [Entry(System, ChangedTo(full))])
      else
        Reply(d, [Entry(SystemError, NotFound(target))])
  }

  /** The reply to an expression: the interpreter's standard output
      verbatim when there is any, an error reply when there is none, and
      the exception's message when running it raised. Its standard error is
      never looked at. */
  function PythonReply(o: PyOutcome): (r: seq<Entry>)
    ensures |r| == 1
    ensures r[0].tag == System <==> o.PyExited? && o.stdout != ""
    ensures r[0].tag == System ==> r[0].text == o.stdout
    ensures r[0].tag == SystemError <==> o.PyExited? && o.stdout == ""
    ensures r[0].tag == SystemError ==> r[0].text == NoOutput
    ensures r[0].tag == Error <==> o.PyRaised?
    ensures o.PyRaised? ==> r[0].text == o.message
  {
    match o
    case PyExited(out) =>
      if out != "" then [Entry(System, out)] else [Entry(SystemError, NoOutput)]
    case PyRaised(msg) => [Entry(Error, msg)]
  }

  /** The reply to a shell command: its standard-output lines in the order
      they were emitted, then its standard error as one error reply if it
      wrote any; or, when an exception interrupted it, the lines read so far
      followed by one reply carrying the exception's message. */
  function ShellReply(o: ShellOutcome): (r: seq<Entry>)
    ensures o.ShellExited? ==> |r| == |o.lines| + (if o.stderr != "" then 1 else 0)
    ensures o.ShellExited? ==> forall i :: 0 <= i < |o.lines| ==> r[i] == Entry(System, o.lines[i])
    ensures o.ShellExited? && o.stderr != "" ==> r[|r| - 1] == Entry(SystemError, o.stderr)
    ensures o.ShellRaised? ==> |r| == |o.emitted| + 1
    ensures o.ShellRaised? ==> forall i :: 0 <= i < |o.emitted| ==> r[i] == Entry(System, o.emitted[i])
    ensures o.ShellRaised? ==> r[|r| - 1] == Entry(Error, o.message)
  {
    match o
    case ShellExited(lines, err) =>
      seq(|lines|, i requires 0 <= i < |lines| => Entry(System, lines[i]))
      + (if err != "" then [Entry(SystemError, err)] else [])
    case ShellRaised(emitted, msg) =>
      seq(|emitted|, i requires 0 <= i < |emitted| => Entry(System, emitted[i]))
      + [Entry(Error, msg)]
  }

  /** `run_command`: classify, then run the chosen path. Only the directory
      path touches the directory pair; the interpreter is handed the wrapped
      expression; the shell is handed the whole line with the current
      directory as its working directory. No reply is ever tagged as user
      input, and a well-formed pair stays well-formed. */
  function RunCommand(d: Dirs, command: string, w: World): (r: Reply)
    ensures !StartsWith(command, "cd ") ==> r.dirs == d
    ensures StartsWith(command, "cd ") ==> r == CdStep(d, Strip(command[3..]), w)
    ensures StartsWith(command, "cd ") ==> |r.entries| == 1
    ensures !StartsWith(command, "cd ") && StartsWith(command, "python") ==>
              r.entries == PythonReply(w.python(Classify(command).program))
    ensures !StartsWith(command, "cd ") && !StartsWith(command, "python") ==>
              r.entries == ShellReply(w.shell(command, d.current))
    ensures forall i :: 0 <= i < |r.entries| ==> r.entries[i].tag != User
    ensures Valid(d) && Sane(w) ==> Valid(r.dirs)
  {
    match Classify(command)
    case Cd(target) => CdStep(d, target, w)
    case Python(program) => Reply(d, PythonReply(w.python(program)))
    case Shell(line) => Reply(d, ShellReply(w.shell(line, d.current)))
  }

  /** Whitespace between `cd` and its argument does not matter:
      `cd    ..` behaves as `cd ..`. */
  lemma CdPadding(pad: string, arg: string)
    requires AllSpace(pad)
    ensures Classify("cd " + pad + arg) == Classify("cd " + arg)
  {
    var padded, plain := "cd " + pad + arg, "cd " + arg;
    assert padded[..3] == "cd " && padded[3..] == pad + arg;
    assert plain[..3] == "cd " && plain[3..] == arg;
    StripPadding(pad, arg);
  }

  /** A line that has already been stripped and starts with `"cd "` always
      carries a non-empty directory argument, so the state machine is never
      asked about the empty path by the window. */
  lemma StrippedCdHasTarget(command: string)
    requires Trimmed(command) && StartsWith(command, "cd ")
    ensures Classify(command).target != ""
  {
    var rest := command[3..];
    assert rest[|rest| - 1] == command[|command| - 1];
  }

  /** `cd ..` twice is the identity on a well-formed pair that has a
      previous directory: going back is an involution. */
  lemma GoBackInvolution(d: Dirs, w1: World, w2: World)
    requires Valid(d) && d.previous.Some?
    ensures CdStep(CdStep(d, GoBack, w1).dirs, GoBack, w2).dirs == d
  {
  }

  /** Entering a directory and then going back returns to the starting
      directory, and remembers the one just left. */
  lemma EnterThenGoBack(d: Dirs, target: string, w1: World, w2: World)
    requires d.current != "" && target != GoBack
    requires w1.isDir(w1.join(d.current, target))
    ensures CdStep(CdStep(d, target, w1).dirs, GoBack, w2).dirs
              == Dirs(d.current, Some(w1.join(d.current, target)))
  {
  }

  /** Without a previous directory, `cd ..` changes nothing and reports
      exactly one error. */
  lemma GoBackWithoutPrevious(d: Dirs, w: World)
    requires !Truthy(d.previous)
    ensures CdStep(d, GoBack, w) == Reply(d, [Entry(SystemError, NoPrevious)])
  {
  }
}
