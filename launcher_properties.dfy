/** What process() promises about the settings it leaves behind, proved
    about the specification in module Launcher. */
module LauncherProperties {
  import opened Common
  import opened Launcher

  /** A token the loop accepts without ending the program. */
  predicate TokenAccepted(t: Token, fs: FileSystem) {
    match t
    case Word(a) => IsPlainFlag(a) || !StartsWith(a, "-")
    case ReportDirOption(d) => Usable(fs(d))
  }

  predicate Accepted(ts: seq<Token>, fs: FileSystem) {
    forall t :: t in ts ==> TokenAccepted(t, fs)
  }

  /** The positional arguments, in command-line order. */
  function Positionals(ts: seq<Token>): seq<string>
    decreases |ts|
  {
    if ts == [] then []
    else (if ts[0].Word? && !StartsWith(ts[0].text, "-") then [ts[0].text] else []) + Positionals(ts[1..])
  }

  /** The value of the last -reportdir on the command line, if any. */
  function LastReportDir(ts: seq<Token>): Option<string>
    decreases |ts|
  {
    if ts == [] then None
    else if LastReportDir(ts[1..]).Some? then LastReportDir(ts[1..])
    else if ts[0].ReportDirOption? then Some(ts[0].dir)
    else None
  }

  lemma Unfold(ts: seq<Token>)
    requires ts != []
    ensures ts == [ts[0]] + ts[1..]
    ensures forall t :: t in ts <==> t == ts[0] || t in ts[1..]
  {
  }

  /** One loop step goes on exactly for an accepted token. */
  lemma StepDoneIffAccepted(s: Settings, t: Token, fs: FileSystem)
    ensures Step(s, t, fs).Done? <==> TokenAccepted(t, fs)
  {
    if t.Word? {
      var a := t.text;
      if IsHelpFlag(a) || a == ReportDirFlag {
        assert a[..1] == "-";
      }
    }
  }

  /** One loop step on the boolean options. */
  lemma StepFlags(s: Settings, t: Token, fs: FileSystem)
    requires Step(s, t, fs).Done?
    ensures var r := Step(s, t, fs).value;
      && r.batchMode == (s.batchMode || t == Word("-b") || t == Word("-batch"))
      && r.showSplash == (s.showSplash && t != Word("-nosplash"))
      && r.acceptChecklists == (s.acceptChecklists || t == Word("-acceptchecklists"))
      && r.capture == (s.capture || t == Word("-capture"))
      && r.consoleLogOff == (s.consoleLogOff || t == Word("-noconsolelog"))
  {
    match t
    case ReportDirOption(d) =>
    case Word(a) =>
      var r := Step(s, t, fs).value;
      if IsBatchFlag(a) {
        assert r == s.(batchMode := true);
      } else if IsIgnoreFlag(a) {
        assert r == s;
      } else if a == "-nosplash" {
        assert r == s.(showSplash := false);
      } else if a == "-acceptchecklists" {
        assert r == s.(acceptChecklists := true);
      } else if a == "-noconsolelog" {
        assert r == s.(consoleLogOff := true);
      } else if a == "-capture" {
        assert r == s.(capture := true);
      } else {
        assert r.batchMode == s.batchMode && r.showSplash == s.showSplash;
        assert r.acceptChecklists == s.acceptChecklists && r.capture == s.capture;
        assert r.consoleLogOff == s.consoleLogOff;
      }
  }

  /** Tokenising loses nothing: the tokens written back are the arguments. */
  lemma {:induction false} FlattenTokens(args: seq<string>)
    ensures Flatten(Tokens(args)) == args
    decreases |args|
  {
    if args == [] {
    } else if args[0] == ReportDirFlag && |args| >= 2 {
      FlattenTokens(args[2..]);
      assert args == [args[0], args[1]] + args[2..];
    } else {
      FlattenTokens(args[1..]);
      assert args == [args[0]] + args[1..];
    }
  }

  /** An argument after the command line is its own token unless a dangling
      -reportdir would swallow it. */
  lemma {:induction false} TokensSnoc(args: seq<string>, x: string)
    requires Word(ReportDirFlag) !in Tokens(args)
    ensures Tokens(args + [x]) == Tokens(args) + [Word(x)]
    decreases |args|
  {
    if args == [] {
      assert args + [x] == [x];
    } else if args[0] == ReportDirFlag && |args| >= 2 {
      assert (args + [x])[2..] == args[2..] + [x];
      TokensSnoc(args[2..], x);
    } else {
      assert args[0] != ReportDirFlag;
      assert (args + [x])[1..] == args[1..] + [x];
      TokensSnoc(args[1..], x);
    }
  }

  /** The loop over a concatenation is the loop over the first part followed,
      if that did not end the program, by the loop over the second. */
  lemma {:induction false} ScanAppend(s: Settings, ts1: seq<Token>, ts2: seq<Token>, fs: FileSystem)
    ensures Scan(s, ts1 + ts2, fs) ==
      match Scan(s, ts1, fs)
      case Halted(h) => Halted(h)
      case Done(s1) => Scan(s1, ts2, fs)
    decreases |ts1|
  {
    if ts1 == [] {
      assert ts1 + ts2 == ts2;
    } else {
      assert (ts1 + ts2)[0] == ts1[0];
      assert (ts1 + ts2)[1..] == ts1[1..] + ts2;
      match Step(s, ts1[0], fs)
      case Halted(h) =>
      case Done(s') => ScanAppend(s', ts1[1..], ts2, fs);
    }
  }

  /** The loop finishes exactly when every word is a recognised flag or a
      positional argument and every report directory is usable. */
  lemma {:induction false} ScanDoneIffAccepted(s: Settings, ts: seq<Token>, fs: FileSystem)
    ensures Scan(s, ts, fs).Done? <==> Accepted(ts, fs)
    decreases |ts|
  {
    if ts != [] {
      Unfold(ts);
      StepDoneIffAccepted(s, ts[0], fs);
      match Step(s, ts[0], fs)
      case Halted(h) =>
      case Done(s') => ScanDoneIffAccepted(s', ts[1..], fs);
    }
  }

  /** The boolean options: each is set exactly when its flag occurs as a
      word, the value of -reportdir never counts, and nothing resets them. */
  lemma {:induction false} ScanFlags(s: Settings, ts: seq<Token>, fs: FileSystem)
    requires Scan(s, ts, fs).Done?
    ensures var r := Scan(s, ts, fs).value;
      && r.batchMode == (s.batchMode || Word("-b") in ts || Word("-batch") in ts)
      && r.showSplash == (s.showSplash && Word("-nosplash") !in ts)
      && r.acceptChecklists == (s.acceptChecklists || Word("-acceptchecklists") in ts)
      && r.capture == (s.capture || Word("-capture") in ts)
      && r.consoleLogOff == (s.consoleLogOff || Word("-noconsolelog") in ts)
    decreases |ts|
  {
    if ts != [] {
      Unfold(ts);
      StepFlags(s, ts[0], fs);
      ScanFlags(Step(s, ts[0], fs).value, ts[1..], fs);
    }
  }

  /** One loop step on the positional arguments. */
  lemma StepPositional(s: Settings, t: Token, fs: FileSystem)
    requires Step(s, t, fs).Done?
    ensures var r := Step(s, t, fs).value;
      if t.Word? && !StartsWith(t.text, "-") then
        if s.projectDir.None? then r.projectDir == Some(t.text) && r.tests == s.tests
        else r.projectDir == s.projectDir && r.tests == s.tests + [t.text]
      else r.projectDir == s.projectDir && r.tests == s.tests
  {
    match t
    case ReportDirOption(d) =>
    case Word(a) =>
      var r := Step(s, t, fs).value;
      if IsBatchFlag(a) || IsIgnoreFlag(a) || a == "-nosplash" || a == "-acceptchecklists" {
        assert StartsWith(a, "-") by { assert a[..1] == "-"; }
      } else if a == "-noconsolelog" || a == "-capture" {
        assert StartsWith(a, "-") by { assert a[..1] == "-"; }
      }
  }

  /** The first positional argument becomes the project directory; every
      later one is appended to the tests, in order. */
  lemma {:induction false} ScanPositionals(s: Settings, ts: seq<Token>, fs: FileSystem)
    requires Scan(s, ts, fs).Done?
    ensures var r, p := Scan(s, ts, fs).value, Positionals(ts);
      && r.projectDir == (if s.projectDir.Some? then s.projectDir else if p == [] then None else Some(p[0]))
      && r.tests == s.tests + (if s.projectDir.Some? then p else if p == [] then [] else p[1..])
    decreases |ts|
  {
    if ts != [] {
      var s' := Step(s, ts[0], fs).value;
      StepPositional(s, ts[0], fs);
      ScanPositionals(s', ts[1..], fs);
      var p' := Positionals(ts[1..]);
      if ts[0].Word? && !StartsWith(ts[0].text, "-") {
        assert Positionals(ts) == [ts[0].text] + p';
        if s.projectDir.Some? {
          assert s.tests + [ts[0].text] + p' == s.tests + ([ts[0].text] + p');
        }
      } else {
        assert Positionals(ts) == p';
      }
    }
  }

  /** One loop step on the report directory: only -reportdir sets it. */
  lemma StepReportDir(s: Settings, t: Token, fs: FileSystem)
    requires Step(s, t, fs).Done?
    ensures Step(s, t, fs).value.reportDir == if t.ReportDirOption? then Some(t.dir) else s.reportDir
  {
  }

  /** The report directory is the value of the last -reportdir. */
  lemma {:induction false} ScanReportDir(s: Settings, ts: seq<Token>, fs: FileSystem)
    requires Scan(s, ts, fs).Done?
    ensures Scan(s, ts, fs).value.reportDir ==
      if LastReportDir(ts).Some? then LastReportDir(ts) else s.reportDir
    decreases |ts|
  {
    if ts != [] {
      var s' := Step(s, ts[0], fs).value;
      StepReportDir(s, ts[0], fs);
      ScanReportDir(s', ts[1..], fs);
      assert Scan(s, ts, fs) == Scan(s', ts[1..], fs);
    }
  }

  /** The first unrecognised dash argument ends processing with help. */
  lemma UnknownOptionHelps(s: Settings, pre: seq<Token>, a: string, post: seq<Token>, fs: FileSystem)
    requires Scan(s, pre, fs).Done?
    requires StartsWith(a, "-") && !IsPlainFlag(a) && !IsHelpFlag(a) && a != ReportDirFlag
    ensures Scan(s, pre + [Word(a)] + post, fs) == Halted(Help(InvalidArgument(a)))
  {
    ScanAppend(s, pre, [Word(a)] + post, fs);
    assert pre + [Word(a)] + post == pre + ([Word(a)] + post);
  }

  /** -help, -? and -h end processing with the plain usage message. */
  lemma HelpFlagHelps(s: Settings, pre: seq<Token>, a: string, post: seq<Token>, fs: FileSystem)
    requires Scan(s, pre, fs).Done?
    requires IsHelpFlag(a)
    ensures Scan(s, pre + [Word(a)] + post, fs) == Halted(Help(Requested))
  {
    ScanAppend(s, pre, [Word(a)] + post, fs);
    assert pre + [Word(a)] + post == pre + ([Word(a)] + post);
  }

  /** -i and -ignore change nothing: dropping one leaves the outcome as it is. */
  lemma IgnoreIsNoOp(s: Settings, pre: seq<Token>, a: string, post: seq<Token>, fs: FileSystem)
    requires IsIgnoreFlag(a)
    ensures Scan(s, pre + [Word(a)] + post, fs) == Scan(s, pre + post, fs)
  {
    ScanAppend(s, pre, [Word(a)] + post, fs);
    ScanAppend(s, pre, post, fs);
    assert pre + [Word(a)] + post == pre + ([Word(a)] + post);
    assert ([Word(a)] + post)[1..] == post;
  }

  /** A -reportdir with nothing after it ends processing with help. */
  lemma DanglingReportDirHelps(args: seq<string>, fs: FileSystem, home: DirState)
    requires Scan(Initial, Tokens(args), fs).Done?
    ensures Run(Initial, args + [ReportDirFlag], fs, home) == Halted(Help(MissingValue))
  {
    ScanDoneIffAccepted(Initial, Tokens(args), fs);
    assert !TokenAccepted(Word(ReportDirFlag), fs);
    TokensSnoc(args, ReportDirFlag);
    ScanAppend(Initial, Tokens(args), [Word(ReportDirFlag)], fs);
  }

  /** Everything a completed process() leaves behind, in terms of the
      command line read as tokens. */
  lemma RunSettings(args: seq<string>, fs: FileSystem, home: DirState)
    requires Run(Initial, args, fs, home).Done?
    ensures var r, ts := Run(Initial, args, fs, home).value, Tokens(args);
      var p := Positionals(ts);
      && r.batchMode == (Word("-b") in ts || Word("-batch") in ts)
      && r.showSplash == (Word("-nosplash") !in ts)
      && r.acceptChecklists == (Word("-acceptchecklists") in ts)
      && r.capture == (Word("-capture") in ts)
      && r.consoleLogOff == (Word("-noconsolelog") in ts)
      && r.projectDir == (if p == [] then None else Some(p[0]))
      && r.tests == (if |p| <= 1 then [DefaultTest] else p[1..])
      && r.reportDir == (if LastReportDir(ts).Some? then LastReportDir(ts)
                         else if r.batchMode then Some(DefaultReportDir) else None)
      && home.Directory?
  {
    var ts := Tokens(args);
    ScanFlags(Initial, ts, fs);
    ScanPositionals(Initial, ts, fs);
    ScanReportDir(Initial, ts, fs);
  }

  /** After a completed process() there is always at least one test, and the
      report directory, when there is one, passed the existence check. */
  lemma RunInvariants(args: seq<string>, fs: FileSystem, home: DirState)
    requires Run(Initial, args, fs, home).Done?
    ensures var r := Run(Initial, args, fs, home).value;
      && |r.tests| > 0
      && (r.tests == [DefaultTest] <==> |Positionals(Tokens(args))| <= 1 || Positionals(Tokens(args))[1..] == [DefaultTest])
      && (r.reportDir.Some? ==> Usable(fs(r.reportDir.value)))
      && (r.batchMode ==> r.reportDir.Some?)
  {
    var ts := Tokens(args);
    RunSettings(args, fs, home);
    ScanDoneIffAccepted(Initial, ts, fs);
    LastReportDirUsable(ts, fs);
    var scanned := Scan(Initial, ts, fs).value;
    ScanReportDir(Initial, ts, fs);
    assert Run(Initial, args, fs, home) == Finish(scanned, fs, home);
    if scanned.batchMode && scanned.reportDir.None? {
      assert Usable(fs(DefaultReportDir));
    }
  }

  lemma {:induction false} LastReportDirUsable(ts: seq<Token>, fs: FileSystem)
    requires Accepted(ts, fs)
    ensures LastReportDir(ts).Some? ==> Usable(fs(LastReportDir(ts).value))
    decreases |ts|
  {
    if ts != [] {
      assert ts[0] in ts;
      assert forall t :: t in ts[1..] ==> t in ts;
      LastReportDirUsable(ts[1..], fs);
    }
  }

  /** process() returns normally exactly when the command line is accepted,
      the default report directory (if needed) is usable and the home folder
      is a directory. */
  lemma RunDoneIff(args: seq<string>, fs: FileSystem, home: DirState)
    ensures var ts := Tokens(args);
      var needsDefault := (Word("-b") in ts || Word("-batch") in ts) && LastReportDir(ts).None?;
      Run(Initial, args, fs, home).Done? <==>
        Accepted(ts, fs) && (needsDefault ==> Usable(fs(DefaultReportDir))) && home.Directory?
  {
    var ts := Tokens(args);
    ScanDoneIffAccepted(Initial, ts, fs);
    if Scan(Initial, ts, fs).Done? {
      ScanFlags(Initial, ts, fs);
      ScanReportDir(Initial, ts, fs);
    }
  }

  /** In batch mode all four report files have names. */
  lemma BatchReportFiles(args: seq<string>, fs: FileSystem, home: DirState, cwd: string)
    requires Run(Initial, args, fs, home).Done?
    requires Run(Initial, args, fs, home).value.batchMode
    ensures var d := Run(Initial, args, fs, home).value.reportDir;
      && ReportFile(d, HtmlReport, cwd).Some? && ReportFile(d, TextReport, cwd).Some?
      && ReportFile(d, XmlReport, cwd).Some? && ReportFile(d, TestLinkReport, cwd).Some?
  {
    RunInvariants(args, fs, home);
  }

  /** An illustration on one command line: `-reportdir -nosplash project`
      keeps the splash screen and names the directory "-nosplash". The
      general fact follows from FlattenTokens and ScanFlags, since only
      Word tokens count as flags. */
  lemma ReportDirValueIsNotAFlag(fs: FileSystem, home: DirState)
    requires Usable(fs("-nosplash")) && home.Directory?
    ensures Run(Initial, [ReportDirFlag, "-nosplash", "project"], fs, home) ==
      Done(Initial.(projectDir := Some("project"), reportDir := Some("-nosplash"), tests := [DefaultTest]))
  {
    assert Tokens([ReportDirFlag, "-nosplash", "project"]) == [ReportDirOption("-nosplash"), Word("project")] by {
      assert [ReportDirFlag, "-nosplash", "project"][2..] == ["project"];
      assert ["project"][1..] == [];
    }
    var ts := [ReportDirOption("-nosplash"), Word("project")];
    var afterDir := Initial.(reportDir := Some("-nosplash"));
    assert Step(Initial, ts[0], fs) == Done(afterDir);
    assert !StartsWith("project", "-") by { assert "project"[..1] == "p"; }
    assert Step(afterDir, ts[1], fs) == Done(afterDir.(projectDir := Some("project")));
    assert ts[1..][1..] == [];
    assert Scan(Initial, ts, fs) == Done(afterDir.(projectDir := Some("project")));
  }
}
