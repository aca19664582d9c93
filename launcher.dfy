/** The launcher's command-line processing (class ArgumentProcessor).

    The specification reads the command line as a sequence of tokens, where
    `-reportdir` together with the argument after it is one token, folds one
    loop step per token over the settings (Scan) and then applies the
    post-processing that fills in defaults (Finish). The class below is the
    loop itself, with its index that skips over the value of `-reportdir`,
    and is proved to compute exactly Run. */
module Launcher {
  import opened Common

  /** What java.io.File reports about a directory name: it is a directory,
      it exists but is not a directory, or it is missing (and mkdirs would
      or would not create it). The file system is an oracle from names to
      these answers. */
  datatype DirState = Directory | NotDirectory | Missing(creatable: bool)

  type FileSystem = string -> DirState

  /** Why help() was called; each help call ends the program with status 0. */
  datatype HelpReason =
    | Requested                 // -help, -? or -h
    | InvalidArgument(arg: string)
    | MissingValue              // -reportdir without a following argument
    | HomeMissing
    | HomeNotFolder

  /** The two ways process() ends the program instead of returning. */
  datatype Halt = Help(reason: HelpReason) | Exit(code: int)

  datatype Outcome<T> = Done(value: T) | Halted(halt: Halt)

  /** The fields of ArgumentProcessor, plus the console-log toggle that
      -noconsolelog switches off in AbstractFileConsole. */
  datatype Settings = Settings(
    tests: seq<string>,
    projectDir: Option<string>,
    batchMode: bool,
    showSplash: bool,
    acceptChecklists: bool,
    reportDir: Option<string>,
    capture: bool,
    consoleLogOff: bool)

  /** The field initialisers of ArgumentProcessor. */
  const Initial := Settings([], None, false, true, false, None, false, false)

  const DefaultTest := "AllTests"
  const DefaultReportDir := "marathon-reports"
  const ReportDirFlag := "-reportdir"

  const HtmlReport := "results.html"
  const TextReport := "results.txt"
  const XmlReport := "results.xml"
  const TestLinkReport := "testlink-results.xml"

  predicate IsHelpFlag(a: string) { a == "-help" || a == "-?" || a == "-h" }
  predicate IsBatchFlag(a: string) { a == "-b" || a == "-batch" }
  predicate IsIgnoreFlag(a: string) { a == "-i" || a == "-ignore" }

  /** The flags that the loop accepts without consuming a further argument
      and without calling help. */
  predicate IsPlainFlag(a: string) {
    IsBatchFlag(a) || IsIgnoreFlag(a) || a == "-nosplash" || a == "-acceptchecklists"
    || a == "-noconsolelog" || a == "-capture"
  }

  /** mkdirs is only tried for a missing directory; an existing non-directory
      or a failed mkdirs makes process() call System.exit(1). */
  predicate Usable(d: DirState) {
    d.Directory? || (d.Missing? && d.creatable)
  }

  /** One unit of the command line as the loop sees it. */
  datatype Token = Word(text: string) | ReportDirOption(dir: string)

  function Tokens(args: seq<string>): seq<Token>
    decreases |args|
  {
    if args == [] then []
    else if args[0] == ReportDirFlag && |args| >= 2 then [ReportDirOption(args[1])] + Tokens(args[2..])
    else [Word(args[0])] + Tokens(args[1..])
  }

  /** The inverse of Tokens: writes the tokens back as arguments. */
  function Flatten(ts: seq<Token>): seq<string>
    decreases |ts|
  {
    if ts == [] then []
    else match ts[0]
      case Word(a) => [a] + Flatten(ts[1..])
      case ReportDirOption(d) => [ReportDirFlag, d] + Flatten(ts[1..])
  }

  /** One pass of the loop body of process(): exit 1 only for an unusable
      report directory, a project directory once set is kept, and the tests
      only grow, by at most one. */
  function Step(s: Settings, t: Token, fs: FileSystem): (r: Outcome<Settings>)
    ensures r == Halted(Exit(1)) <==> t.ReportDirOption? && !Usable(fs(t.dir))
    ensures r.Done? && s.projectDir.Some? ==> r.value.projectDir == s.projectDir
    ensures r.Done? ==> |s.tests| <= |r.value.tests| <= |s.tests| + 1 && r.value.tests[..|s.tests|] == s.tests
  {
    match t
    case ReportDirOption(d) =>
      if Usable(fs(d)) then Done(s.(reportDir := Some(d))) else Halted(Exit(1))
    case Word(a) =>
      if IsHelpFlag(a) then Halted(Help(Requested))
      else if IsBatchFlag(a) then Done(s.(batchMode := true))
      else if IsIgnoreFlag(a) then Done(s)
      else if a == "-nosplash" then Done(s.(showSplash := false))
      else if a == "-acceptchecklists" then Done(s.(acceptChecklists := true))
      else if a == "-noconsolelog" then Done(s.(consoleLogOff := true))
      else if a == "-capture" then Done(s.(capture := true))
      else if a == ReportDirFlag then Halted(Help(MissingValue))
      else if StartsWith(a, "-") then Halted(Help(InvalidArgument(a)))
      else if s.projectDir.None? then Done(s.(projectDir := Some(a)))
      else Done(s.(tests := s.tests + [a]))
  }

  /** The loop of process() over the whole command line: a project
      directory once set is kept and the earlier tests stay in front. */
  function Scan(s: Settings, ts: seq<Token>, fs: FileSystem): (r: Outcome<Settings>)
    ensures r.Done? && s.projectDir.Some? ==> r.value.projectDir == s.projectDir
    ensures r.Done? ==> |s.tests| <= |r.value.tests| && r.value.tests[..|s.tests|] == s.tests
    decreases |ts|
  {
    if ts == [] then Done(s)
    else match Step(s, ts[0], fs)
      case Halted(h) => Halted(h)
      case Done(s') => Scan(s', ts[1..], fs)
  }

  /** What process() does after its loop: the default test, the default
      report directory in batch mode and the home-folder check. */
  function Finish(s: Settings, fs: FileSystem, home: DirState): (r: Outcome<Settings>)
    ensures r.Done? <==> (s.batchMode && s.reportDir.None? ==> Usable(fs(DefaultReportDir))) && home.Directory?
    ensures r.Done? ==> r.value.tests == (if s.tests == [] then [DefaultTest] else s.tests)
    ensures r.Done? ==> r.value.reportDir == (if s.batchMode && s.reportDir.None? then Some(DefaultReportDir) else s.reportDir)
    ensures r.Done? ==> r.value.(tests := s.tests, reportDir := s.reportDir) == s
  {
    var withTests := if s.tests == [] then s.(tests := [DefaultTest]) else s;
    var needsDefault := withTests.batchMode && withTests.reportDir.None?;
    if needsDefault && !Usable(fs(DefaultReportDir)) then Halted(Exit(1))
    else
      var withDir := if needsDefault then withTests.(reportDir := Some(DefaultReportDir)) else withTests;
      if home.Missing? then Halted(Help(HomeMissing))
      else if home.NotDirectory? then Halted(Help(HomeNotFolder))
      else Done(withDir)
  }

  /** process(args) started from the settings s. */
  function Run(s: Settings, args: seq<string>, fs: FileSystem, home: DirState): (r: Outcome<Settings>)
    ensures r.Done? ==> |r.value.tests| > 0 && (r.value.batchMode ==> r.value.reportDir.Some?)
    ensures r.Done? ==> home.Directory?
  {
    match Scan(s, Tokens(args), fs)
    case Halted(h) => Halted(h)
    case Done(s') => Finish(s', fs, home)
  }

  /** `new File(parent, child)` on a Unix file system, without java.io.File's
      removal of duplicate and trailing separators. */
  function Join(parent: string, child: string): string {
    parent + "/" + child
  }

  /** getAbsolutePath: a relative path is resolved against the working
      directory `cwd` (the user.dir property). */
  function Absolute(cwd: string, path: string): (r: string)
    ensures EndsWith(r, path)
    ensures StartsWith(path, "/") ==> r == path
    ensures !StartsWith(path, "/") ==> r == cwd + "/" + path
    ensures StartsWith(cwd, "/") ==> StartsWith(r, "/")
  {
    if StartsWith(path, "/") then path
    else
      EndsWithAppended(cwd + "/", path);
      cwd + "/" + path
  }

  /** With an absolute working directory the result is absolute, so
      resolving it again changes nothing. */
  lemma AbsoluteIdempotent(cwd: string, path: string)
    requires StartsWith(cwd, "/")
    ensures Absolute(cwd, Absolute(cwd, path)) == Absolute(cwd, path)
  {
  }

  /** The report-file getters: null without a report directory, otherwise
      the absolute name of the fixed file inside it. */
  function ReportFile(reportDir: Option<string>, name: string, cwd: string): (r: Option<string>)
    ensures r.None? <==> reportDir.None?
    ensures r.Some? ==> EndsWith(r.value, "/" + name)
    ensures r.Some? ==> r.value == Absolute(cwd, reportDir.value + "/" + name)
  {
    if reportDir.None? then None
    else
      EndsWithAppended(reportDir.value, "/" + name);
      assert reportDir.value + "/" + name == reportDir.value + ("/" + name);
      Some(Absolute(cwd, Join(reportDir.value, name)))
  }

  /** The value process() gives to the report-directory system property. */
  function ReportDirProperty(s: Settings, cwd: string): (r: Option<string>)
    ensures r.None? <==> s.reportDir.None?
    ensures r.Some? ==> EndsWith(r.value, s.reportDir.value)
  {
    if s.reportDir.None? then None else Some(Absolute(cwd, s.reportDir.value))
  }

  /** The value process() gives to the image-capture-directory system
      property: set only with a report directory and -capture or
      -acceptchecklists. */
  function ImageCaptureDirProperty(s: Settings, cwd: string): (r: Option<string>)
    ensures r.Some? <==> s.reportDir.Some? && (s.capture || s.acceptChecklists)
    ensures r.Some? ==> r == ReportDirProperty(s, cwd)
  {
    if s.capture || s.acceptChecklists then ReportDirProperty(s, cwd) else None
  }

  lemma TokensAt(args: seq<string>, i: nat)
    requires i < |args|
    ensures args[i] == ReportDirFlag && i + 1 < |args| ==>
      Tokens(args[i..]) == [ReportDirOption(args[i + 1])] + Tokens(args[i + 2..])
    ensures !(args[i] == ReportDirFlag && i + 1 < |args|) ==>
      Tokens(args[i..]) == [Word(args[i])] + Tokens(args[i + 1..])
  {
    assert args[i..][0] == args[i];
    assert args[i..][1..] == args[i + 1..];
    if i + 1 < |args| {
      assert args[i..][1] == args[i + 1];
      assert args[i..][2..] == args[i + 2..];
    }
  }

  class ArgumentProcessor {
    var tests: seq<string>
    var projectDirName: Option<string>
    var batchMode: bool
    var showSplash: bool
    var acceptChecklists: bool
    var reportDir: Option<string>
    var capture: bool
    /** Stands for AbstractFileConsole.setConsoleLogNeeded(false) having been called. */
    var consoleLogOff: bool

    function State(): Settings
      reads this
    {
      Settings(tests, projectDirName, batchMode, showSplash, acceptChecklists, reportDir, capture, consoleLogOff)
    }

    constructor ()
      ensures State() == Initial
    {
      tests := [];
      projectDirName := None;
      batchMode := false;
      showSplash := true;
      acceptChecklists := false;
      reportDir := None;
      capture := false;
      consoleLogOff := false;
    }

    /** The existence check on a report directory: true when the program
        goes on, false when it calls System.exit(1). */
    static method CheckReportDir(st: DirState) returns (ok: bool)
      ensures ok == Usable(st)
    {
      var b := true;
      if st.Missing? {
        b := st.creatable;
      } else if st.NotDirectory? {
        return false;
      }
      ok := b;
    }

    /** process(args): on a normal return `halt` is None and the fields hold
        the settings Run computes; otherwise `halt` says how the program
        ended. */
    method Process(args: seq<string>, fs: FileSystem, home: DirState) returns (halt: Option<Halt>)
      modifies this
      ensures Run(old(State()), args, fs, home) == if halt.None? then Done(State()) else Halted(halt.value)
    {
      halt := ScanArguments(args, fs);
      if halt.None? {
        halt := ApplyDefaults(fs, home);
      }
    }

    /** The for loop of process(); the index skips the value of -reportdir. */
    method ScanArguments(args: seq<string>, fs: FileSystem) returns (halt: Option<Halt>)
      modifies this
      ensures Scan(old(State()), Tokens(args), fs) == if halt.None? then Done(State()) else Halted(halt.value)
    {
      var i := 0;
      while i < |args|
        invariant 0 <= i <= |args|
        invariant Scan(old(State()), Tokens(args), fs) == Scan(State(), Tokens(args[i..]), fs)
      {
        TokensAt(args, i);
        var a := args[i];
        if IsHelpFlag(a) {
          return Some(Help(Requested));
        }
        if IsBatchFlag(a) {
          batchMode := true;
        } else if IsIgnoreFlag(a) {
          // accepted and ignored
        } else if a == "-nosplash" {
          showSplash := false;
        } else if a == "-acceptchecklists" {
          acceptChecklists := true;
        } else if a == "-noconsolelog" {
          consoleLogOff := true;
        } else if a == "-capture" {
          capture := true;
        } else if a == ReportDirFlag {
          i := i + 1;
          if i == |args| {
            return Some(Help(MissingValue));
          }
          reportDir := Some(args[i]);
          var ok := CheckReportDir(fs(args[i]));
          if !ok {
            return Some(Exit(1));
          }
        } else if StartsWith(a, "-") {
          return Some(Help(InvalidArgument(a)));
        } else {
          if projectDirName.None? {
            projectDirName := Some(a);
          } else {
            tests := tests + [a];
          }
        }
        i := i + 1;
      }
      assert args[i..] == [];
      halt := None;
    }

    /** What process() does after its loop. */
    method ApplyDefaults(fs: FileSystem, home: DirState) returns (halt: Option<Halt>)
      modifies this
      ensures Finish(old(State()), fs, home) == if halt.None? then Done(State()) else Halted(halt.value)
    {
      if |tests| == 0 {
        tests := tests + [DefaultTest];
        assert tests == [DefaultTest];
      }
      if batchMode && reportDir.None? {
        reportDir := Some(DefaultReportDir);
        var ok := CheckReportDir(fs(DefaultReportDir));
        if !ok {
          return Some(Exit(1));
        }
      }
      if home.Missing? {
        return Some(Help(HomeMissing));
      }
      if !home.Directory? {
        return Some(Help(HomeNotFolder));
      }
      halt := None;
    }

    function HtmlFileName(cwd: string): (r: Option<string>)
      reads this
      ensures r.None? <==> reportDir.None?
      ensures r.Some? ==> EndsWith(r.value, "/" + HtmlReport)
    {
      ReportFile(reportDir, HtmlReport, cwd)
    }

    function TextFileName(cwd: string): (r: Option<string>)
      reads this
      ensures r.None? <==> reportDir.None?
      ensures r.Some? ==> EndsWith(r.value, "/" + TextReport)
    {
      ReportFile(reportDir, TextReport, cwd)
    }

    function XmlFileName(cwd: string): (r: Option<string>)
      reads this
      ensures r.None? <==> reportDir.None?
      ensures r.Some? ==> EndsWith(r.value, "/" + XmlReport)
    {
      ReportFile(reportDir, XmlReport, cwd)
    }

    function TestLinkXmlFileName(cwd: string): (r: Option<string>)
      reads this
      ensures r.None? <==> reportDir.None?
      ensures r.Some? ==> EndsWith(r.value, "/" + TestLinkReport)
    {
      ReportFile(reportDir, TestLinkReport, cwd)
    }
  }
}
