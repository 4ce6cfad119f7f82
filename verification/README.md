# Command-line chat window: dispatch and directory tracking

A Dafny model of the logic inside `CommandLineChatApp` (cmd2.py), a desktop
window where each submitted line is either a directory change, a Python
expression, or a shell command, and every reply is appended to a
chat-style transcript.

The window is modelled as a sequential state machine over an `App` value:
a directory pair (`current`, and `previous`, absent until the first
successful change) and an append-only transcript of tagged entries
(`User`, `System`, `SystemError`, `Error`). Submissions are processed one at
a time. What the program asks of the operating system is carried in a
`World` of oracles: `isDir` and `join` stand for `os.path.isdir` and
`os.path.join`; `python` maps the program handed to `python3 -c` to its
standard output or to a raised exception; `shell` maps a command line and a
working directory to the standard-output lines the process emitted, in
order, and its standard error, or to the lines read before an exception and
the exception's message. The home directory the window starts in is a
parameter of `Init`.

Files:
- `text.dfy` (`PyStr`): Python's `str.strip()` (with the `str.isspace()`
  character set) and `str.startswith()`.
- `session.dfy` (`Session`): tags, entries, the directory pair, the
  outcome types and the `World` of oracles.
- `dispatch.dfy` (`Dispatch`): prefix classification, the `cd` state
  machine, the expression and shell replies, `run_command`.
- `app.dfy` (`ChatApp`): the window state, one submission, a whole session,
  and the properties that span several submissions.
- `examples.dfy` (`Examples`): how particular shapes of line are classified,
  and what the window does with a few concrete submissions.

Details of cmd2.py that the model keeps:
- The user entry holds the stripped line, not the raw input (cmd2.py:78, 83).
- The expression path reads only the interpreter's standard output, not a
  combined stream; its standard error is discarded (cmd2.py:121).
- Every standard-output line of a shell command becomes its own entry
  (cmd2.py:134-135).
- The check for a previous directory is Python truthiness, so an empty
  string counts as absent (cmd2.py:98). `Session.Truthy` models this.
  `Session.Valid` is the invariant that no recorded path is empty. Under it,
  truthiness and presence agree. It holds whenever the `isDir` oracle never
  accepts the empty path (`ChatApp.RunAllKeepsValid`).
- `cd ..` means "go back to the previous directory", not "go to the
  parent"; a second `cd ..` goes forward again (cmd2.py:96-99).
- Only the six letters of `python` are removed, so `python3 1+1` runs the
  program `print(3 1+1)` (cmd2.py:114-117, `Examples.PythonPrefix`).

## Model

| member | source | states |
|---|---|---|
| PyStr.Strip | cmd2.py:78 | The result has no whitespace at either end, is a contiguous piece of the input with only whitespace cut off around it, and is empty exactly when the input is all whitespace |
| PyStr.StripUnique | cmd2.py:78 | Any trimmed piece of a string surrounded only by whitespace is what `strip()` returns, so `Strip` is fully determined |
| PyStr.StripIdempotent | cmd2.py:78 | Stripping twice gives the same result as stripping once |
| PyStr.StripPadding | cmd2.py:95 | Leading whitespace does not change the result of `strip()` |
| Session.TruthyCases | cmd2.py:98 | `None` and the empty string are false as a previous directory; every other path is true |
| Session.TruthyWhenValid | cmd2.py:98 | In a well-formed pair, the previous directory is truthy exactly when one is recorded |
| Dispatch.Classify | cmd2.py:93-130 | Prefix tests are `str.startswith`, modelled by `PyStr.StartsWith`. First match wins: a line is a `cd` exactly when it starts with `"cd "`; it is an expression exactly when it does not and starts with `"python"`; everything else goes to the shell unchanged |
| Dispatch.CdStep | cmd2.py:95-111 | Exactly one reply. An error reply leaves the pair unchanged. A success remembers the old current directory and reports the new one. `..` succeeds iff a truthy previous directory exists, and then moves to it. Any other target succeeds iff its join onto the current directory is a directory, and then moves there. Each error carries its own message |
| Dispatch.PythonReply | cmd2.py:116-125 | One reply: the interpreter's non-empty output verbatim, "No output returned." when the output is empty, or the exception message |
| Dispatch.ShellReply | cmd2.py:129-143 | One system reply per standard-output line, in emission order, then one error reply with standard error when it is non-empty. After an exception, the lines read so far come first, then one reply with its message |
| Dispatch.RunCommand | cmd2.py:91-143 | Only a `cd` line can change the directory pair. A `cd` produces exactly one reply. The interpreter gets the wrapped expression. The shell gets the whole line with the current directory as its working directory. A `cd` line's result is exactly the `cd` state machine applied to the stripped argument. No reply is tagged as user input. A well-formed pair stays well-formed when the `isDir` oracle rejects the empty path |
| Dispatch.CdPadding | cmd2.py:95-96 | Whitespace between `cd ` and its argument does not change the classification (`cd    ..` is `cd ..`) |
| Dispatch.StrippedCdHasTarget | cmd2.py:78-95 | A stripped line starting with `"cd "` always has a non-empty directory argument |
| Dispatch.GoBackInvolution | cmd2.py:96-99 | On a well-formed pair with a previous directory, `cd ..` twice restores the pair |
| Dispatch.EnterThenGoBack | cmd2.py:96-108 | Entering a directory, then `cd ..`, returns to the starting directory and records the one just left as previous |
| Dispatch.GoBackWithoutPrevious | cmd2.py:96-102 | Without a truthy previous directory (absent or empty), `cd ..` leaves the pair unchanged and produces exactly the one "no previous directory" error |
| ChatApp.Init | cmd2.py:72-74 | A fresh window is in the home directory with no previous directory and an empty transcript; it is well-formed when the home path is non-empty |
| ChatApp.Submit | cmd2.py:76-89 | Blank input changes nothing. Otherwise the old transcript is kept as a prefix and one user entry with the stripped line is appended first. After it come exactly the replies of running the stripped line, and the directory pair becomes the one that run leaves. No entry after the user entry is a user entry. Only a `cd` line can move the directory pair. Well-formedness is kept when the `isDir` oracle rejects the empty path |
| ChatApp.RunAll | cmd2.py:76-89 | Over any sequence of presses of the send button (wired at cmd2.py:62), the starting transcript stays a prefix of the final one |
| ChatApp.SubmitCountsOneUser | cmd2.py:78-83 | One submission adds exactly one user entry if it is not blank, and none if it is |
| ChatApp.RunAllCountsUsers | cmd2.py:78-89 | Over a session, the number of user entries grows by exactly the number of non-blank submissions |
| ChatApp.RunAllKeepsValid | cmd2.py:73-108 | If no oracle accepts the empty path as a directory, a session that starts well-formed stays well-formed |
| ChatApp.BlankSessionIsNoop | cmd2.py:78-80 | A session of whitespace-only submissions leaves the window exactly as it was |
| ChatApp.GoBackTwice | cmd2.py:96-99 | Submitting a go-back line twice restores the directory pair of a well-formed window that has a previous directory |
| ChatApp.FreshGoBackFails | cmd2.py:73-102 | In a fresh window, a go-back line stays in the home directory. The transcript is then exactly the user entry followed by the "no previous directory" error |
| PyStr.StripKeepsTrimmed | cmd2.py:95 | A string with no whitespace at either end is unchanged by `strip()` |
| Examples.PaddedGoBack | cmd2.py:95-96 | `cd `, any whitespace, then `..` is classified as a go-back |
| Examples.BareCdGoesToShell | cmd2.py:93 | A bare `cd` is a shell command |
| Examples.CdBeatsPython | cmd2.py:93-114 | Every line starting with `"cd "` is a directory change, whatever follows, including `python` |
| Examples.GoBackLine | cmd2.py:93-96 | The literal line `cd ..` is unchanged by stripping and is classified as a go-back |
| Examples.EnterThenGoBackSubmitted | cmd2.py:96-108 | Submitting `cd X` for a directory `X`, then `cd ..`, returns the window to its starting directory and adds exactly four entries: the user entry `cd X`, a system reply, the user entry `cd ..`, and a system reply |
| Examples.PythonPrefix | cmd2.py:114-117 | Every line starting with `python` is an expression. The interpreter gets `print(` + the stripped rest after six letters + `)` |

## Left out

- Qt window construction, stylesheets, layout, clearing the input box and
  scrolling to the bottom (cmd2.py:8-70, 86, 148): user-interface effects
  with no logic to state.
- The worker thread per submission (cmd2.py:89) and the unsynchronised race
  between concurrent directory changes and shell commands: submissions are
  processed one at a time.
- Running processes (cmd2.py:118-121, 129-138): the interpreter and the
  shell are oracles in `World`. Their output is input to the model.
- Commands that never finish (cmd2.py:121, 134-138): each process oracle
  returns a finished outcome, but cmd2.py has no timeout. A command that
  runs forever, or one that fills its standard-error pipe before closing
  standard output (standard error is read only after standard output ends),
  blocks for good. The transcript then keeps only the lines shown so far and
  never gets the error entry `Dispatch.ShellReply` describes. Endless output
  cannot be a finite `lines` sequence either.
- What `os.path.isdir` and `os.path.join` compute (cmd2.py:105-106): they
  are uninterpreted oracles. `Session.Sane` is the one fact the model uses
  about them: the empty path is not a directory.
- `os.path.expanduser("~")` (cmd2.py:73): the home directory is a parameter
  of `ChatApp.Init`.
- HTML markup and colours (cmd2.py:83, 100-143): entries keep only a tag
  and the text. The green replies of the `cd` path and the black replies of
  the other paths share the `System` tag.
- Exceptions on the `cd` path (cmd2.py:142-143): `os.path.join` and
  `os.path.isdir` on strings do not raise, so only the process oracles can
  report an exception.
- The `__main__` start-up code (cmd2.py:150-159).
