/**
 The chat window as a sequential state machine over its directory pair and
 its transcript (`CommandLineChatApp` in cmd2.py). Each submission is
 processed to completion before the next one starts.
 */
module ChatApp {
  import opened PyStr
  import opened Session
  import opened Dispatch

  /** Everything the window remembers between submissions. */
  datatype App = App(dirs: Dirs, transcript: seq<Entry>)

  /** One press of the send button: the text in the input box, and the
      world the resulting command runs against. */
  datatype Submission = Submission(text: string, world: World)

  /** A fresh window: in the home directory, with no previous directory and
      an empty transcript. */
  function Init(home: string): (r: App)
    ensures r.transcript == []
    ensures r.dirs.current == home && r.dirs.previous == None
    ensures home != "" ==> Valid(r.dirs)
  {
    App(Dirs(home, None), [])
  }

  /** `execute_command` followed by `run_command`: the input is stripped;
      blank input changes nothing; otherwise exactly one user entry holding
      the stripped text is appended, followed by the replies of its
      dispatch, none of which is a user entry. Only a directory change can
      move the directory pair. */
  function Submit(app: App, text: string, w: World): (r: App)
    ensures AllSpace(text) ==> r == app
    ensures !AllSpace(text) ==>
              && |r.transcript| > |app.transcript|
              && r.transcript[..|app.transcript|] == app.transcript
              && r.transcript[|app.transcript|] == Entry(User, Strip(text))
              && (forall i :: |app.transcript| < i < |r.transcript| ==> r.transcript[i].tag != User)
    ensures !AllSpace(text) ==>
              && r.dirs == RunCommand(app.dirs, Strip(text), w).dirs
              && r.transcript[|app.transcript| + 1..] == RunCommand(app.dirs, Strip(text), w).entries
    ensures !StartsWith(Strip(text), "cd ") ==> r.dirs == app.dirs
    ensures Valid(app.dirs) && Sane(w) ==> Valid(r.dirs)
  {
    var command := Strip(text);
    if command == "" then
      app
    else
      var reply := RunCommand(app.dirs, command, w);
      App(reply.dirs, app.transcript + [Entry(User, command)] + reply.entries)
  }

  /** A whole session: the submissions processed one after another. The
      transcript only ever grows at its end. */
  function RunAll(app: App, subs: seq<Submission>): (r: App)
    ensures app.transcript <= r.transcript
    decreases |subs|
  {
    if subs == [] then app
    else RunAll(Submit(app, subs[0].text, subs[0].world), subs[1..])
  }

  /** Number of user entries in a transcript. */
  function UserCount(t: seq<Entry>): nat {
    if t == [] then 0
    else (if t[0].tag == User then 1 else 0) + UserCount(t[1..])
  }

  /** Number of submissions that are not blank. */
  function Accepted(subs: seq<Submission>): nat {
    if subs == [] then 0
    else (if AllSpace(subs[0].text) then 0 else 1) + Accepted(subs[1..])
  }

  /** Counting user entries distributes over concatenation. */
  lemma {:induction false} UserCountAppend(a: seq<Entry>, b: seq<Entry>)
    ensures UserCount(a + b) == UserCount(a) + UserCount(b)
  {
    if a != [] {
      assert (a + b)[1..] == a[1..] + b;
      UserCountAppend(a[1..], b);
    } else {
      assert a + b == b;
    }
  }

  /** A transcript piece with no user-tagged entry has a count of zero. */
  lemma {:induction false} UserCountNone(t: seq<Entry>)
    requires forall i :: 0 <= i < |t| ==> t[i].tag != User
    ensures UserCount(t) == 0
  {
    if t != [] {
      UserCountNone(t[1..]);
    }
  }

  /** A submission adds one user entry when it is not blank and none when
      it is. */
  lemma SubmitCountsOneUser(app: App, text: string, w: World)
    ensures UserCount(Submit(app, text, w).transcript)
              == UserCount(app.transcript) + (if AllSpace(text) then 0 else 1)
  {
    if !AllSpace(text) {
      var command := Strip(text);
      var reply := RunCommand(app.dirs, command, w);
      UserCountNone(reply.entries);
      UserCountAppend(app.transcript + [Entry(User, command)], reply.entries);
      UserCountAppend(app.transcript, [Entry(User, command)]);
    }
  }

  /** Over a whole session the transcript gains exactly one user entry per
      non-blank submission. */
  lemma {:induction false} RunAllCountsUsers(app: App, subs: seq<Submission>)
    ensures UserCount(RunAll(app, subs).transcript) == UserCount(app.transcript) + Accepted(subs)
    decreases |subs|
  {
    if subs != [] {
      var next := Submit(app, subs[0].text, subs[0].world);
      SubmitCountsOneUser(app, subs[0].text, subs[0].world);
      RunAllCountsUsers(next, subs[1..]);
    }
  }

  /** Starting well-formed, a session whose oracles never call the empty
      path a directory never records an empty path, so `cd ..` fails
      exactly when no previous directory exists. */
  lemma {:induction false} RunAllKeepsValid(app: App, subs: seq<Submission>)
    requires Valid(app.dirs)
    requires forall i :: 0 <= i < |subs| ==> Sane(subs[i].world)
    ensures Valid(RunAll(app, subs).dirs)
    decreases |subs|
  {
    if subs != [] {
      assert Sane(subs[0].world);
      RunAllKeepsValid(Submit(app, subs[0].text, subs[0].world), subs[1..]);
    }
  }

  /** A session of blank submissions leaves the window exactly as it was. */
  lemma {:induction false} BlankSessionIsNoop(app: App, subs: seq<Submission>)
    requires forall i :: 0 <= i < |subs| ==> AllSpace(subs[i].text)
    ensures RunAll(app, subs) == app
    decreases |subs|
  {
    if subs != [] {
      assert AllSpace(subs[0].text);
      BlankSessionIsNoop(app, subs[1..]);
    }
  }

  /** Submitting a go-back line twice restores the directory pair of a
      well-formed window that has a previous directory. */
  lemma GoBackTwice(app: App, text: string, w1: World, w2: World)
    requires Classify(Strip(text)) == Cd(GoBack)
    requires Valid(app.dirs) && app.dirs.previous.Some?
    ensures Submit(Submit(app, text, w1), text, w2).dirs == app.dirs
  {
    GoBackInvolution(app.dirs, w1, w2);
  }

  /** In a fresh window, going back reports that there is no previous
      directory and stays in the home directory. */
  lemma FreshGoBackFails(home: string, text: string, w: World)
    requires Classify(Strip(text)) == Cd(GoBack)
    ensures var r := Submit(Init(home), text, w);
            r.dirs == Init(home).dirs
            && r.transcript == [Entry(User, Strip(text)), Entry(SystemError, NoPrevious)]
  {
  }
}
