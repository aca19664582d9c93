# Marathon launcher arguments, test-suite tree and checklist dialog, in Dafny

This project models three parts of Marathon, a desktop GUI test tool:

- The launcher's command-line processing (`ArgumentProcessor`). `process` walks the arguments once.
  - Some flags set options.
  - `-reportdir` takes the next argument as the report directory.
  - Any other dash argument, and `-help`, end the program with the usage help.
  - The first plain argument is the project directory; the later ones are the tests.
  - After the loop come the defaults: the test `AllTests`, and `marathon-reports` as the report directory in batch mode.
  - The report-file getters name fixed files inside the report directory.
- The logic inside the test-suite tree panel (`TestSuitePanel`): the cell label and status, the suite of selected tests, the forwarding of test events into the result model, and the row repaint after a change.
- The logic inside the checklist dialog (`MarathonCheckList`): the listing of `.xml` checklists, their shown names, the save handlers' name fix-up and overwrite question, and the dialog state (`ok`, selection, form, Edit and OK button enablement).

Files:

- `common.dfy`: `Option` for Java's null, and `StartsWith`/`EndsWith`.
- `launcher.dfy`, module `Launcher`: the specification and the class.
  - The command line is read as tokens; `-reportdir` and its value form one token.
  - `Step` is one pass of the loop body, `Scan` the loop, `Finish` the post-processing and `Run` the whole of `process`.
  - Class `ArgumentProcessor` has the same fields. Its `Process` is the index-skipping loop, proved to compute `Run`.
- `launcher_properties.dfy`, module `LauncherProperties`: what a run promises, proved about `Run`.
- `test_suite_panel.dfy`, module `TestSuiteView`: the panel.
- `checklist.dfy`, module `CheckLists`: the dialog.

`process` can end the program instead of returning. `System.exit(1)` after a failed report-directory check is `Exit(1)`. Each call of `help`, which always ends with `System.exit(0)`, is `Help(reason)`. After either, the fields are not specified, because the program has ended.

External inputs are parameters:
- The file system's answers for a directory name are a function to `Directory`, `NotDirectory` or `Missing(creatable)`.
- The state of the home folder is a `DirState`.
- The working directory that `getAbsolutePath` uses is a string.
- In the panel, what the tree model's `findTest` and `getChild` return are parameters.
- In the dialog, the directory's entries, whether a checklist file can be read or written, whether it exists, and the user's answer are parameters.

One point of the code deserves care: the test list is `["AllTests"]` when no test was given, and also when the single test given is `AllTests`. `LauncherProperties.RunInvariants` states both.

## Model

| member | source | states |
|---|---|---|
| Launcher.Step | marathon-core/src/main/java/net/sourceforge/marathon/ArgumentProcessor.java:120-157 | one loop pass ends with exit 1 exactly for a `-reportdir` whose directory is unusable; a project directory once set is kept; the tests only grow, by at most one, keeping the earlier ones in front |
| Launcher.Scan | marathon-core/src/main/java/net/sourceforge/marathon/ArgumentProcessor.java:119-158 | after the whole loop a project directory set earlier is kept and the tests given earlier stay in front |
| Launcher.Finish | marathon-core/src/main/java/net/sourceforge/marathon/ArgumentProcessor.java:159-194 | the post-loop code returns exactly when the default report directory is usable where batch mode needs it and the home folder is a directory; it then adds `AllTests` to an empty test list, sets `marathon-reports` in batch mode without a report directory, and changes nothing else |
| Launcher.Run | marathon-core/src/main/java/net/sourceforge/marathon/ArgumentProcessor.java:118-195 | after a normal return there is at least one test, batch mode has a report directory, and the home folder is a directory |
| Launcher.ArgumentProcessor.constructor | marathon-core/src/main/java/net/sourceforge/marathon/ArgumentProcessor.java:36-42 | the fields start as no tests, no project directory, no batch mode, splash shown, no checklists accepted, no report directory, no capture |
| Launcher.ArgumentProcessor.CheckReportDir | marathon-core/src/main/java/net/sourceforge/marathon/ArgumentProcessor.java:138-149 | the program goes on exactly when the directory exists as a directory or is missing and can be created; otherwise it exits with status 1 |
| Launcher.ArgumentProcessor.Process | marathon-core/src/main/java/net/sourceforge/marathon/ArgumentProcessor.java:118-195 | on a normal return the fields hold the settings `Run` computes from the old fields and the arguments; otherwise the returned halt is the help call or exit that `Run` predicts |
| Launcher.ArgumentProcessor.ScanArguments | marathon-core/src/main/java/net/sourceforge/marathon/ArgumentProcessor.java:119-158 | the index-skipping for loop computes exactly `Scan` over the tokenised command line, including where it stops |
| Launcher.ArgumentProcessor.ApplyDefaults | marathon-core/src/main/java/net/sourceforge/marathon/ArgumentProcessor.java:159-194 | the post-loop code computes exactly `Finish`: the default test, the default report directory in batch mode with its check, and the home-folder check |
| Launcher.ReportFile | marathon-core/src/main/java/net/sourceforge/marathon/ArgumentProcessor.java:48-96 | a report file is null exactly when there is no report directory; otherwise it is the absolute form of the directory joined with the fixed name, and it ends with `/` and that name |
| Launcher.ArgumentProcessor.HtmlFileName | marathon-core/src/main/java/net/sourceforge/marathon/ArgumentProcessor.java:48-52 | null exactly when there is no report directory; otherwise a path ending in `/results.html` |
| Launcher.ArgumentProcessor.TextFileName | marathon-core/src/main/java/net/sourceforge/marathon/ArgumentProcessor.java:72-76 | null exactly when there is no report directory; otherwise a path ending in `/results.txt` |
| Launcher.ArgumentProcessor.XmlFileName | marathon-core/src/main/java/net/sourceforge/marathon/ArgumentProcessor.java:82-86 | null exactly when there is no report directory; otherwise a path ending in `/results.xml` |
| Launcher.ArgumentProcessor.TestLinkXmlFileName | marathon-core/src/main/java/net/sourceforge/marathon/ArgumentProcessor.java:92-96 | null exactly when there is no report directory; otherwise a path ending in `/testlink-results.xml` |
| Launcher.ReportDirProperty | marathon-core/src/main/java/net/sourceforge/marathon/ArgumentProcessor.java:176-177 | the report-directory property is set exactly when there is a report directory, to a path ending with it |
| Launcher.ImageCaptureDirProperty | marathon-core/src/main/java/net/sourceforge/marathon/ArgumentProcessor.java:178-179 | the image-capture property is set exactly when there is a report directory and `-capture` or `-acceptchecklists` was given, to the report directory's value |
| Launcher.Absolute | marathon-core/src/main/java/net/sourceforge/marathon/ArgumentProcessor.java:51 | a name starting with `/` is kept; any other name becomes the working directory, `/`, then the name; with an absolute working directory the result is absolute |
| Launcher.AbsoluteIdempotent | marathon-core/src/main/java/net/sourceforge/marathon/ArgumentProcessor.java:177 | with an absolute working directory, resolving an already resolved name again changes nothing |
| LauncherProperties.FlattenTokens | marathon-core/src/main/java/net/sourceforge/marathon/ArgumentProcessor.java:134-137 | reading `-reportdir` together with its value as one token loses nothing: writing the tokens back gives the arguments |
| LauncherProperties.StepDoneIffAccepted | marathon-core/src/main/java/net/sourceforge/marathon/ArgumentProcessor.java:120-157 | one loop step goes on exactly for a recognised flag, a non-dash argument, or a `-reportdir` whose directory is usable |
| LauncherProperties.ScanDoneIffAccepted | marathon-core/src/main/java/net/sourceforge/marathon/ArgumentProcessor.java:119-158 | the loop finishes exactly when every token is accepted (both directions) |
| LauncherProperties.ScanAppend | marathon-core/src/main/java/net/sourceforge/marathon/ArgumentProcessor.java:119-158 | the loop over a concatenation is the loop over the first part, then, unless that ended the program, over the second |
| LauncherProperties.StepFlags | marathon-core/src/main/java/net/sourceforge/marathon/ArgumentProcessor.java:122-133 | one step sets each boolean option only for its own flag, and never clears `batchMode`, `acceptchecklists` or `capture` |
| LauncherProperties.ScanFlags | marathon-core/src/main/java/net/sourceforge/marathon/ArgumentProcessor.java:38-42 | after the loop, `batchMode` is set iff `-b`/`-batch` occurs as a word, `showSplash` is cleared iff `-nosplash` does, and likewise `acceptchecklists`, `capture` and the console-log toggle; a `-reportdir` value never counts |
| LauncherProperties.StepPositional | marathon-core/src/main/java/net/sourceforge/marathon/ArgumentProcessor.java:152-156 | one step on a non-dash argument sets the project directory if unset and otherwise appends the argument to the tests; other tokens leave both alone |
| LauncherProperties.ScanPositionals | marathon-core/src/main/java/net/sourceforge/marathon/ArgumentProcessor.java:152-156 | the first positional argument becomes the project directory and the later ones are the tests, in command-line order |
| LauncherProperties.StepReportDir | marathon-core/src/main/java/net/sourceforge/marathon/ArgumentProcessor.java:134-137 | one step sets the report directory exactly for a `-reportdir` token, to its value, and otherwise leaves it alone |
| LauncherProperties.ScanReportDir | marathon-core/src/main/java/net/sourceforge/marathon/ArgumentProcessor.java:134-137 | the report directory after the loop is the value of the last `-reportdir`, or the old one if there is none |
| LauncherProperties.LastReportDirUsable | marathon-core/src/main/java/net/sourceforge/marathon/ArgumentProcessor.java:138-149 | on an accepted command line the last `-reportdir` value passed the directory check |
| LauncherProperties.UnknownOptionHelps | marathon-core/src/main/java/net/sourceforge/marathon/ArgumentProcessor.java:150-151 | the first unrecognised dash argument ends processing with help reporting that argument, whatever follows |
| LauncherProperties.HelpFlagHelps | marathon-core/src/main/java/net/sourceforge/marathon/ArgumentProcessor.java:120-121 | `-help`, `-?` or `-h` ends processing with the plain usage help, whatever follows |
| LauncherProperties.IgnoreIsNoOp | marathon-core/src/main/java/net/sourceforge/marathon/ArgumentProcessor.java:124-125 | removing a `-i`/`-ignore` from anywhere in the command line does not change the outcome |
| LauncherProperties.DanglingReportDirHelps | marathon-core/src/main/java/net/sourceforge/marathon/ArgumentProcessor.java:203-206 | a `-reportdir` with no argument after it ends with help |
| LauncherProperties.ReportDirValueIsNotAFlag | marathon-core/src/main/java/net/sourceforge/marathon/ArgumentProcessor.java:134-137 | in `-reportdir -nosplash project` the value `-nosplash` names the directory and keeps the splash screen |
| LauncherProperties.RunSettings | marathon-core/src/main/java/net/sourceforge/marathon/ArgumentProcessor.java:118-162 | a completed run from the initial fields: each option in terms of the words given, the project directory is the first positional, the tests are the later ones or `["AllTests"]`, and the report directory is the last `-reportdir`, else `marathon-reports` in batch mode, else null |
| LauncherProperties.RunInvariants | marathon-core/src/main/java/net/sourceforge/marathon/ArgumentProcessor.java:159-162 | after a completed run there is at least one test, the tests are `["AllTests"]` exactly when no test, or only the test `AllTests`, was given, batch mode always has a report directory, and the report directory passed the directory check |
| LauncherProperties.RunDoneIff | marathon-core/src/main/java/net/sourceforge/marathon/ArgumentProcessor.java:118-195 | process returns normally exactly when the command line is accepted, the default report directory is usable if batch mode needs it, and the home folder is a directory |
| LauncherProperties.BatchReportFiles | marathon-core/src/main/java/net/sourceforge/marathon/ArgumentProcessor.java:161-162 | in batch mode all four report-file getters return a name |
| TestSuiteView.IndexOf | marathon-core/src/main/java/net/sourceforge/marathon/editor/suite/TestSuitePanel.java:72 | the first index of the character, or -1 exactly when it is absent |
| TestSuiteView.StripParenthesis | marathon-core/src/main/java/net/sourceforge/marathon/editor/suite/TestSuitePanel.java:70-76 | the text comes back unchanged when it has no `(` or starts with one; otherwise the result is the non-empty prefix before the first `(`, strictly shorter than the text and free of `(` |
| TestSuiteView.StripParenthesisIdempotent | marathon-core/src/main/java/net/sourceforge/marathon/editor/suite/TestSuitePanel.java:70-76 | stripping twice strips once |
| TestSuiteView.StatusOf | marathon-core/src/main/java/net/sourceforge/marathon/editor/suite/TestSuitePanel.java:86-105 | exactly one status, by priority: Failed iff recorded as a failure, Error iff an error and not a failure, Passed iff run and neither, else Not run |
| TestSuiteView.Render | marathon-core/src/main/java/net/sourceforge/marathon/editor/suite/TestSuitePanel.java:78-111 | the cell text is the stripped name and the tooltip is the full name plus the status suffix; the icon is the failure, error or passed icon exactly for those statuses, and a not-run test gets the suite icon exactly when it is a suite |
| TestSuiteView.FailureShows | marathon-core/src/main/java/net/sourceforge/marathon/editor/suite/TestSuitePanel.java:131-134 | after a failure is recorded the test shows as failed and every other test shows as before |
| TestSuiteView.ErrorShows | marathon-core/src/main/java/net/sourceforge/marathon/editor/suite/TestSuitePanel.java:126-129 | after an error is recorded the test shows an error exactly when it has not failed; no other test changes |
| TestSuiteView.RunShows | marathon-core/src/main/java/net/sourceforge/marathon/editor/suite/TestSuitePanel.java:139-142 | after a test ends it shows as passed exactly when it has neither failed nor erred; no other test changes |
| TestSuiteView.CopyInto | marathon-core/src/main/java/net/sourceforge/marathon/editor/suite/TestSuitePanel.java:189 | the vector is copied into the front of the array and the rest of the array is left as it was |
| TestSuiteView.FireTestChanged | marathon-core/src/main/java/net/sourceforge/marathon/editor/suite/TestSuitePanel.java:182-202 | nothing happens unless the found index is at least 0 and the found path is non-empty; then that path and index are reported changed, and the scrolled-to path is the found path extended by exactly the child at that index |
| TestSuiteView.GetSelectedTest | marathon-core/src/main/java/net/sourceforge/marathon/editor/suite/TestSuitePanel.java:153-164 | null exactly when there are no selection paths; otherwise a suite named `SelectedTests` holding the last component of each path, in selection order |
| TestSuiteView.TestSuitePanel.constructor | marathon-core/src/main/java/net/sourceforge/marathon/editor/suite/TestSuitePanel.java:114-124 | the panel starts without a tree model |
| TestSuiteView.TestSuitePanel.ShowTestTree | marathon-core/src/main/java/net/sourceforge/marathon/editor/suite/TestSuitePanel.java:176-180 | a fresh result model with no results is installed for the root |
| TestSuiteView.TestSuitePanel.AddError | marathon-core/src/main/java/net/sourceforge/marathon/editor/suite/TestSuitePanel.java:126-129 | the test is added to the errors and nothing else in the model changes; the row repaint is that of fireTestChanged with expansion |
| TestSuiteView.TestSuitePanel.AddFailure | marathon-core/src/main/java/net/sourceforge/marathon/editor/suite/TestSuitePanel.java:131-134 | the test is added to the failures and nothing else in the model changes; the row repaint is that of fireTestChanged with expansion |
| TestSuiteView.TestSuitePanel.EndTest | marathon-core/src/main/java/net/sourceforge/marathon/editor/suite/TestSuitePanel.java:139-142 | the test is added to the tests run and nothing else in the model changes; the row repaint is that of fireTestChanged with expansion |
| TestSuiteView.TestSuitePanel.StartTest | marathon-core/src/main/java/net/sourceforge/marathon/editor/suite/TestSuitePanel.java:147-148 | the model is unchanged |
| CheckLists.XmlFiles | marathon-core/src/main/java/net/sourceforge/marathon/checklist/MarathonCheckList.java:62-68 | the listing holds only files in the checklist directory whose names end in `.xml` and appear in the directory, every such name appears, and a directory without repeated names gives a list without repeated rows |
| CheckLists.Listing | marathon-core/src/main/java/net/sourceforge/marathon/checklist/MarathonCheckList.java:60-71 | a null directory gives an empty list; otherwise the listing is exactly the `.xml` entries of the directory, one row per distinct name |
| CheckLists.DisplayName | marathon-core/src/main/java/net/sourceforge/marathon/checklist/MarathonCheckList.java:330-331 | the shown name is the file name less its last four characters |
| CheckLists.ListedDisplayName | marathon-core/src/main/java/net/sourceforge/marathon/checklist/MarathonCheckList.java:330-331 | for every listed file the shown name plus `.xml` is the file name |
| CheckLists.Normalise | marathon-core/src/main/java/net/sourceforge/marathon/checklist/MarathonCheckList.java:129-131 | the saved name always ends with `.xml`, an `.xml` name is left unchanged, otherwise `.xml` is appended once, and the parent directory is kept |
| CheckLists.NormaliseIdempotent | marathon-core/src/main/java/net/sourceforge/marathon/checklist/MarathonCheckList.java:129-131 | normalising twice normalises once, so there is never a double suffix |
| CheckLists.SaveAsWritten | marathon-core/src/main/java/net/sourceforge/marathon/checklist/MarathonCheckList.java:126-148 | as written: nothing without an approved choice; an existing target with the answer No or Cancel is declined and the dialog stays open; otherwise the normalised file is saved exactly when it can be opened for writing, and the failure is reported exactly when it cannot |
| CheckLists.ClosingConfirmationOverwrites | marathon-core/src/main/java/net/sourceforge/marathon/checklist/MarathonCheckList.java:132-138 | as written, closing the overwrite question without answering overwrites the existing file |
| CheckLists.SaveAs | marathon-core/src/main/java/net/sourceforge/marathon/checklist/MarathonCheckList.java:179-201 | corrected: an existing target is overwritten only on the answer Yes; otherwise, as written, the normalised file is saved exactly when it can be opened for writing and the failure is reported exactly when it cannot |
| CheckLists.SaveAsAgrees | marathon-core/src/main/java/net/sourceforge/marathon/checklist/MarathonCheckList.java:185-191 | the corrected save agrees with the written one for every answer except a closed question window |
| CheckLists.MarathonCheckList.constructor | marathon-core/src/main/java/net/sourceforge/marathon/checklist/MarathonCheckList.java:101-113 | `ok` starts false, the list is the directory listing, nothing is selected, the Edit button starts disabled and the OK button starts disabled exactly in insert mode |
| CheckLists.MarathonCheckList.Reset | marathon-core/src/main/java/net/sourceforge/marathon/checklist/MarathonCheckList.java:81-84 | the items are the directory listing again |
| CheckLists.MarathonCheckList.GetSelectedCheckListForm | marathon-core/src/main/java/net/sourceforge/marathon/checklist/MarathonCheckList.java:301-318 | null when nothing is selected, and then nothing changes; otherwise the selected file is the item at the index, the form panel becomes that file's form, or stays the previous one if the file cannot be read, and the form panel is returned |
| CheckLists.MarathonCheckList.SelectionChanged | marathon-core/src/main/java/net/sourceforge/marathon/checklist/MarathonCheckList.java:274-343 | both selection listeners, the list's own (274-289) before the selection model's (335-343): after a non-adjusting event the OK button is enabled iff the index is not -1 and the Edit button iff a form is shown; with index -1 the selected file and form panel stay as they were; an adjusting event changes only the index |
| CheckLists.MarathonCheckList.EditPressed | marathon-core/src/main/java/net/sourceforge/marathon/checklist/MarathonCheckList.java:170-174 | with nothing selected there is nothing to edit and nothing changes; otherwise the selected file becomes the item at the index, the form panel becomes that file's form in edit mode, or stays the form read last when the file cannot be read, and that form panel is what is edited |
| CheckLists.MarathonCheckList.PressOk | marathon-core/src/main/java/net/sourceforge/marathon/checklist/MarathonCheckList.java:240-245 | `ok` becomes true and the dialog is disposed |
| CheckLists.MarathonCheckList.PressCancel | marathon-core/src/main/java/net/sourceforge/marathon/checklist/MarathonCheckList.java:247-252 | `ok` becomes false and the dialog is disposed |
| CheckLists.MarathonCheckList.SelectedChecklist | marathon-core/src/main/java/net/sourceforge/marathon/checklist/MarathonCheckList.java:353-355 | null exactly when nothing is selected; otherwise the item at the selected index, a listed `.xml` file of the checklist directory |

## Left out

- The text and display of the usage help and the logger messages are not modelled. `Help(reason)` keeps only why help was called; the exit status is always 0.
- The file system is an oracle fixed for one run. A successful `mkdirs` cannot change its answers for other names.
- How the home folder is found (`System.getProperty`, `ClassPathHelper`) is not modelled; its state is an input. Setting the home property is not modelled.
- The two `System.setProperty` calls for the report directory are modelled as functions of the final settings (`ReportDirProperty`, `ImageCaptureDirProperty`), not as a global property store.
- `AbstractFileConsole.setConsoleLogNeeded(false)` is the field `consoleLogOff`. That class is not part of this model.
- `Join` and `Absolute` use the Unix separator. They do not remove the duplicate or trailing separators that `java.io.File` removes.
- `getTests`, `getProjectDirectory`, `isBatchMode`, `showSplash`, `getReportDir` and `getAcceptChecklists` only return a field. They are the public fields of `ArgumentProcessor`.
- `TestTreeModel` is not part of this model.
  - Its results are the sets in `ResultModel`; `addRunTest` is taken to add to the tests run.
  - `isTestSuite` is taken to be "is a `Suite` value".
  - `findTest` and `getChild` are inputs. `fireNodeChanged` and `scrollPathToVisible` become the returned `Repaint`.
- Tests are values: two tree nodes with the same text (and, for suites, the same children) are one test to the result sets. JUnit's `TestCase` and `TestSuite` compare by identity, so `FailureShows`, `ErrorShows` and `RunShows` keep "every other test shows as before" only for tests that differ as values. A suite that holds the same test twice would show both nodes failed here.
- The comment on `getSelectedTest` (TestSuitePanel.java:151) says it returns null when several tests or none are selected. The code returns a `SelectedTests` suite for every non-null selection, including several tests or an empty array, and `GetSelectedTest` follows the code.
- `SwingUtilities.invokeLater` is not modelled: the repaint is computed at once.
- Icons, the null checks on them, cell-renderer defaults, layout, tooltips registration and the split-pane divider are not modelled. So is the renderer for a tree whose model is not a `TestTreeModel`.
- `CheckList.read`/`save`, `CheckListForm` and `CheckListDialog` are not part of this model. A form is known by its file and mode.
- Several dialog flows are not modelled: the dirty-check on cancelling an edit (MarathonCheckList.java:154-160, 222-228), the edit dialog's Save in place (205-217), and the file chooser. So are `list.setSelectedValue` after a save, and the new-checklist and edit dialogs themselves.
- `listFiles` returning null for an unreadable directory is not modelled; the directory's entries are an input.
- TestSuiteView.TestSuitePanel.AddError: requires a tree model, that is, a prior `showTestTree`. Called before that, Java throws a NullPointerException at `model.addError`; the model does not cover that error path.
- TestSuiteView.TestSuitePanel.AddFailure: requires a tree model. Called before `showTestTree`, Java throws a NullPointerException at `model.addFailure`; not modelled.
- TestSuiteView.TestSuitePanel.EndTest: requires a tree model. Called before `showTestTree`, Java throws a NullPointerException at `model.addRunTest`; not modelled.
- CheckLists.MarathonCheckList.EditPressed: requires the selected index to be a row of the current items. After a reset that shrinks the list, the stale index makes Java throw an index exception in `getElementAt`; that error path is not modelled.
- CheckLists.MarathonCheckList.SelectedChecklist: requires the selected index to be a row of the current items. With a stale index after a shrinking reset, Java's `getSelectedValue` throws an index exception; not modelled.
- CheckLists.MarathonCheckList.GetSelectedCheckListForm: requires the selected index to be a row of the current items. After a reset that shrinks the list, Java would fail with an index exception instead.
- `getOKButton` and `getCloseButton` only return a widget and are not modelled. MarathonInputDialog is not part of this model.

## Findings

| source | as written | input that shows it | evidently intended | confidence | as-written member | corrected member |
|---|---|---|---|---|---|---|
| marathon-core/src/main/java/net/sourceforge/marathon/checklist/MarathonCheckList.java:132-138 | only `NO_OPTION` and `CANCEL_OPTION` stop the save, so closing the "Exists. Do you want to overwrite" window (`CLOSED_OPTION`) overwrites the file | a target file that exists, and the user closes the question window instead of answering | a closed question is treated like No or Cancel; overwrite only on Yes | medium; not executed | CheckLists.ClosingConfirmationOverwrites | CheckLists.SaveAs |
