/**
 The state of one chat window and the outside world it consults.

 The window tracks a current and a previous working directory and keeps an
 append-only transcript of tagged lines. Everything the program asks of the
 operating system (directory checks, path joining, running a child process)
 is an oracle carried in a `World`: the model fixes which questions are asked
 and what is done with the answers, not what the answers are.
 */
module Session {

  /** Who or what a transcript line is attributed to: the user's own input,
      a normal system reply, an error reply from a command path, or the
      catch-all report of an exception raised while dispatching. */
  datatype Tag = User | System | SystemError | Error

  /** One transcript line. The source renders the tag as coloured HTML;
      only the tag and the text are kept. */
  datatype Entry = Entry(tag: Tag, text: string)

  /** The directory pair: `previous` is absent until the first successful
      directory change. */
  datatype Dirs = Dirs(current: string, previous: Option<string>)

  /** An optional value, as Python's `None` or a value. */
  datatype Option<T> = None | Some(value: T)

  /** Python truthiness of the previous directory: `None` and the empty
      string are both false. */
  predicate Truthy(o: Option<string>) {
    o.Some? && o.value != ""
  }

  /** Truthiness as `if self.previous_directory:` sees it: `None` and the
      empty string are false, and every other path is true. */
  lemma TruthyCases(path: string)
    ensures !Truthy(None) && !Truthy(Some(""))
    ensures Truthy(Some(path)) <==> path != ""
  {
  }

  /** A well-formed directory pair: no path in it is the empty string, so
      truthiness of `previous` coincides with its presence. */
  predicate Valid(d: Dirs) {
    d.current != "" && (d.previous.None? || d.previous.value != "")
  }

  /** In a well-formed pair, a previous directory is truthy exactly when it
      is recorded at all. */
  lemma TruthyWhenValid(d: Dirs)
    requires Valid(d)
    ensures Truthy(d.previous) <==> d.previous.Some?
  {
  }

  /** What running the expression interpreter gives back: the text it wrote
      to standard output, or the message of an exception raised while
      starting or talking to it. */
  datatype PyOutcome = PyExited(stdout: string) | PyRaised(message: string)

  /** What running a shell command gives back: its standard output as the
      lines it emitted, in order, and its whole standard error; or the lines
      already read when an exception interrupted the run, and its message. */
  datatype ShellOutcome =
    | ShellExited(lines: seq<string>, stderr: string)
    | ShellRaised(emitted: seq<string>, message: string)

  /** The oracles a submission is evaluated against: `isDir` and `join`
      stand for `os.path.isdir` and `os.path.join`, `python` for running
      `python3 -c <program>`, and `shell` for running a command line with
      a given working directory. */
  datatype World = World(
    isDir: string -> bool,
    join: (string, string) -> string,
    python: string -> PyOutcome,
    shell: (string, string) -> ShellOutcome)

  /** The oracle never calls the empty path a directory (true of
      `os.path.isdir("")`). */
  predicate Sane(w: World) {
    !w.isDir("")
  }
}
