/**
 How particular shapes of command line are classified, and what the window
 does with a few concrete submissions.
 */
module Examples {
  import opened PyStr
  import opened Session
  import opened Dispatch
  import opened ChatApp

  /** Any amount of whitespace after `cd ` still makes a go-back line. */
  lemma PaddedGoBack(pad: string)
    requires AllSpace(pad)
    ensures Classify("cd " + pad + GoBack) == Cd(GoBack)
  {
    CdPadding(pad, GoBack);
    assert ("cd " + GoBack)[3..] == GoBack;
    StripKeepsTrimmed(GoBack);
  }

  /** A bare `cd` has lost its trailing space to stripping, so it is run
      by the shell. */
  lemma BareCdGoesToShell()
    ensures Classify("cd") == Shell("cd")
  {
  }

  /** `"cd "` wins over `"python"`, whatever follows it. */
  lemma CdBeatsPython(rest: string)
    ensures Classify("cd " + rest).Cd?
  {
    assert ("cd " + rest)[..3] == "cd ";
  }

  /** Every line starting with `python` is an expression, and only those six
      letters are removed: `python3 1+1` hands `print(3 1+1)` to the
      interpreter. */
  lemma PythonPrefix(rest: string)
    ensures Classify("python" + rest) == Python("print(" + Strip(rest) + ")")
  {
    var line := "python" + rest;
    assert line[..6] == "python";
    assert line[..3][0] == 'p';
    assert !StartsWith(line, "cd ");
    assert line[6..] == rest;
  }

  /** The literal line `cd ..` survives stripping and is a go-back. */
  lemma GoBackLine()
    ensures Strip("cd ..") == "cd .."
    ensures Classify(Strip("cd ..")) == Cd(GoBack)
  {
    StripKeepsTrimmed("cd ..");
    assert "cd .."[3..] == GoBack;
    StripKeepsTrimmed(GoBack);
  }

  /** Submitting `cd X` for a directory `X`, then `cd ..`, returns the
      window to the directory it started in, with one user entry and one
      reply per submission. */
  lemma EnterThenGoBackSubmitted(app: App, x: string, w1: World, w2: World)
    requires x != "" && Trimmed(x) && x != GoBack
    requires app.dirs.current != ""
    requires w1.isDir(w1.join(app.dirs.current, x))
    ensures var r := Submit(Submit(app, "cd " + x, w1), "cd ..", w2);
            r.dirs.current == app.dirs.current
            && |r.transcript| == |app.transcript| + 4
            && r.transcript[|app.transcript|] == Entry(User, "cd " + x)
            && r.transcript[|app.transcript| + 1].tag == System
            && r.transcript[|app.transcript| + 2] == Entry(User, "cd ..")
            && r.transcript[|app.transcript| + 3].tag == System
  {
    var line := "cd " + x;
    assert line[0] == 'c' && line[|line| - 1] == x[|x| - 1];
    StripKeepsTrimmed(line);
    assert line[..3] == "cd " && line[3..] == x;
    StripKeepsTrimmed(x);
    GoBackLine();
    EnterThenGoBack(app.dirs, x, w1, w2);
  }
}
