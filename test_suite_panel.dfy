/** The test-suite tree panel (TestSuitePanel): how a test is labelled and
    decorated from the results recorded so far, the suite built from the
    selected tree rows, the forwarding of test-run events into the result
    model, and the tree path a changed test is scrolled to. The tree model
    itself (TestTreeModel) is not part of this model; its results are three
    sets of tests, and its tree search is an input. */
module TestSuiteView {
  import opened Common

  /** A JUnit test as the tree shows it: `text` is its toString(). */
  datatype Test = Case(text: string) | Suite(text: string, tests: seq<Test>)

  /** The results the tree model records for the tests of one run. */
  datatype ResultModel = ResultModel(root: Test, failures: set<Test>, errors: set<Test>, run: set<Test>)

  /** A JTree path: never empty. */
  type TreePath = p: seq<Test> | |p| > 0 witness [Case("")]

  datatype Status = Failed | Errored | Passed | NotRun

  datatype Icon = FailIcon | ErrorIcon | OkIcon | TestIcon | SuiteIcon

  /** What the renderer puts into a tree cell. */
  datatype Cell = Cell(title: string, tooltip: string, icon: Icon)

  /** String.indexOf(c): the first index of c, or -1. */
  function IndexOf(s: string, c: char): (r: int)
    ensures -1 <= r < |s|
    ensures r == -1 <==> c !in s
    ensures r >= 0 ==> s[r] == c && c !in s[..r]
    decreases |s|
  {
    if s == [] then -1
    else if s[0] == c then 0
    else
      var k := IndexOf(s[1..], c);
      assert forall j :: 0 <= j < |s| - 1 ==> s[1..][j] == s[j + 1];
      if k == -1 then -1
      else
        assert s[..k + 1] == [s[0]] + s[1..][..k];
        k + 1
  }

  /** TestTreeCellRenderer.stripParenthesis: the text up to its first '(',
      unless there is none or it is the first character. */
  function StripParenthesis(text: string): (r: string)
    ensures '(' !in text || text[0] == '(' ==> r == text
    ensures '(' in text && text[0] != '(' ==>
      0 < |r| < |text| && r == text[..|r|] && text[|r|] == '(' && '(' !in r
  {
    var pos := IndexOf(text, '(');
    if pos < 1 then text else text[..pos]
  }

  lemma StripParenthesisIdempotent(text: string)
    ensures StripParenthesis(StripParenthesis(text)) == StripParenthesis(text)
  {
  }

  /** The status the renderer shows: a failure outranks an error, an error
      outranks a completed run. */
  function StatusOf(m: ResultModel, t: Test): (r: Status)
    ensures r == Failed <==> t in m.failures
    ensures r == Errored <==> t !in m.failures && t in m.errors
    ensures r == Passed <==> t !in m.failures && t !in m.errors && t in m.run
    ensures r == NotRun <==> t !in m.failures && t !in m.errors && t !in m.run
  {
    if t in m.failures then Failed
    else if t in m.errors then Errored
    else if t in m.run then Passed
    else NotRun
  }

  function Suffix(st: Status): string {
    match st
    case Failed => " - Failed"
    case Errored => " - Error"
    case Passed => " - Passed"
    case NotRun => " - Not run"
  }

  /** getTreeCellRendererComponent for a tree whose model is the result model. */
  function Render(m: ResultModel, t: Test): (c: Cell)
    ensures c.title == StripParenthesis(t.text)
    ensures c.tooltip == t.text + Suffix(StatusOf(m, t))
    ensures StatusOf(m, t) == NotRun ==> (c.icon == SuiteIcon <==> t.Suite?)
    ensures StatusOf(m, t) == NotRun <==> c.icon in {TestIcon, SuiteIcon}
    ensures StatusOf(m, t) == Failed <==> c.icon == FailIcon
    ensures StatusOf(m, t) == Errored <==> c.icon == ErrorIcon
    ensures StatusOf(m, t) == Passed <==> c.icon == OkIcon
  {
    var st := StatusOf(m, t);
    var icon := match st
      case Failed => FailIcon
      case Errored => ErrorIcon
      case Passed => OkIcon
      case NotRun => if t.Suite? then SuiteIcon else TestIcon;
    Cell(StripParenthesis(t.text), t.text + Suffix(st), icon)
  }

  /** Recording a failure makes the test show as failed and leaves every
      other test as it was. */
  lemma FailureShows(m: ResultModel, t: Test)
    ensures var m' := m.(failures := m.failures + {t});
      StatusOf(m', t) == Failed && forall u :: u != t ==> StatusOf(m', u) == StatusOf(m, u)
  {
  }

  /** Recording an error shows unless the test has also failed. */
  lemma ErrorShows(m: ResultModel, t: Test)
    ensures var m' := m.(errors := m.errors + {t});
      (StatusOf(m', t) == Errored <==> t !in m.failures)
      && forall u :: u != t ==> StatusOf(m', u) == StatusOf(m, u)
  {
  }

  /** A completed test shows as passed unless it has failed or erred. */
  lemma RunShows(m: ResultModel, t: Test)
    ensures var m' := m.(run := m.run + {t});
      (StatusOf(m', t) == Passed <==> t !in m.failures && t !in m.errors)
      && forall u :: u != t ==> StatusOf(m', u) == StatusOf(m, u)
  {
  }

  /** The row repaint fireTestChanged requests: the found path and index are
      reported changed, and with `expand` the path extended by the child at
      that index is scrolled into view. */
  datatype Repaint = Repaint(changed: seq<Test>, index: int, scrollTo: Option<seq<Test>>)

  /** What fireTestChanged(test, expand) does, given the index and path that
      TestTreeModel.findTest reported and the tree model's getChild. */
  predicate Repaints(r: Option<Repaint>, index: int, vpath: seq<Test>, expand: bool, child: (Test, int) -> Test) {
    if index >= 0 && |vpath| > 0 then
      r == Some(Repaint(vpath, index,
                        if expand then Some(vpath + [child(vpath[|vpath| - 1], index)]) else None))
    else r == None
  }

  /** Vector.copyInto: the first elements of the array become the vector's. */
  method CopyInto(v: seq<Test>, a: array<Test>)
    requires |v| <= a.Length
    modifies a
    ensures a[..|v|] == v
    ensures a[|v|..] == old(a[|v|..])
  {
    var k := 0;
    while k < |v|
      invariant 0 <= k <= |v|
      invariant a[..k] == v[..k]
      invariant a[|v|..] == old(a[|v|..])
    {
      a[k] := v[k];
      k := k + 1;
    }
  }

  /** The body of the runnable fireTestChanged posts. */
  method FireTestChanged(index: int, vpath: seq<Test>, expand: bool, child: (Test, int) -> Test)
    returns (r: Option<Repaint>)
    ensures Repaints(r, index, vpath, expand, child)
    ensures r.Some? ==> r.value.changed != [] && r.value.index >= 0
    ensures r.Some? && expand ==> |r.value.scrollTo.value| == |vpath| + 1
  {
    if index >= 0 && |vpath| > 0 {
      var path := new Test[|vpath|];
      CopyInto(vpath, path);
      assert path[..] == vpath;
      var scroll: Option<seq<Test>> := None;
      if expand {
        var fullPath := new Test[|vpath| + 1];
        CopyInto(vpath, fullPath);
        fullPath[|vpath|] := child(path[path.Length - 1], index);
        assert fullPath[..] == vpath + [child(vpath[|vpath| - 1], index)];
        scroll := Some(fullPath[..]);
      }
      r := Some(Repaint(path[..], index, scroll));
    } else {
      r := None;
    }
  }

  /** getSelectedTest: null without a selection, otherwise a suite named
      "SelectedTests" holding the last component of each selected path, in
      selection order. */
  method GetSelectedTest(paths: Option<seq<TreePath>>) returns (r: Option<Test>)
    ensures r.None? <==> paths.None?
    ensures r.Some? ==> r.value.Suite? && r.value.text == "SelectedTests"
    ensures r.Some? ==> |r.value.tests| == |paths.value|
    ensures r.Some? ==>
      forall k :: 0 <= k < |paths.value| ==> r.value.tests[k] == paths.value[k][|paths.value[k]| - 1]
  {
    if paths.None? {
      return None;
    }
    var ps := paths.value;
    var added: seq<Test> := [];
    for i := 0 to |ps|
      invariant |added| == i
      invariant forall k :: 0 <= k < i ==> added[k] == ps[k][|ps[k]| - 1]
    {
      added := added + [ps[i][|ps[i]| - 1]];
    }
    r := Some(Suite("SelectedTests", added));
  }

  class TestSuitePanel {
    /** The tree model; null until showTestTree. */
    var model: Option<ResultModel>

    constructor ()
      ensures model == None
    {
      model := None;
    }

    method ShowTestTree(root: Test)
      modifies this
      ensures model == Some(ResultModel(root, {}, {}, {}))
    {
      model := Some(ResultModel(root, {}, {}, {}));
    }

    /** addError: records the error and repaints the test's row. `index`
        and `vpath` are what the tree model's search finds for the test. */
    method AddError(test: Test, index: int, vpath: seq<Test>, child: (Test, int) -> Test)
      returns (r: Option<Repaint>)
      requires model.Some?
      modifies this
      ensures model == Some(old(model.value).(errors := old(model.value.errors) + {test}))
      ensures Repaints(r, index, vpath, true, child)
    {
      model := Some(model.value.(errors := model.value.errors + {test}));
      r := FireTestChanged(index, vpath, true, child);
    }

    /** addFailure: records the failure and repaints the test's row. */
    method AddFailure(test: Test, index: int, vpath: seq<Test>, child: (Test, int) -> Test)
      returns (r: Option<Repaint>)
      requires model.Some?
      modifies this
      ensures model == Some(old(model.value).(failures := old(model.value.failures) + {test}))
      ensures Repaints(r, index, vpath, true, child)
    {
      model := Some(model.value.(failures := model.value.failures + {test}));
      r := FireTestChanged(index, vpath, true, child);
    }

    /** endTest: records the test as run and repaints its row. */
    method EndTest(test: Test, index: int, vpath: seq<Test>, child: (Test, int) -> Test)
      returns (r: Option<Repaint>)
      requires model.Some?
      modifies this
      ensures model == Some(old(model.value).(run := old(model.value.run) + {test}))
      ensures Repaints(r, index, vpath, true, child)
    {
      model := Some(model.value.(run := model.value.run + {test}));
      r := FireTestChanged(index, vpath, true, child);
    }

    /** startTest: does nothing. */
    method StartTest(test: Test)
      ensures model == old(model)
    {
    }
  }
}
