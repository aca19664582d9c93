/** The checklist dialog (MarathonCheckList): the listing of checklist files,
    the names shown for them, the `.xml` normalisation and overwrite
    confirmation of the save handlers, and the dialog's own state (the `ok`
    flag, the selection, the form shown and the enablement of its buttons).
    Reading and writing checklist XML and the forms themselves are not part
    of this model: a form is identified by the file and mode it was opened
    with, and whether a file can be read or written is an input. */
module CheckLists {
  import opened Common

  const XmlSuffix := ".xml"

  /** A java.io.File as its parent directory (null for none) and its name. */
  datatype File = File(parent: Option<string>, name: string)

  datatype Mode = Display | Edit

  /** A CheckListForm, known by the checklist file it shows and its mode. */
  datatype Form = Form(file: File, mode: Mode)

  /** The FilenameFilter of CheckListFileModel.initItems. */
  predicate Accepts(checklistDir: string, dir: string, name: string) {
    dir == checklistDir && EndsWith(name, XmlSuffix)
  }

  predicate Distinct<T(==)>(s: seq<T>) {
    forall i, j :: 0 <= i < j < |s| ==> s[i] != s[j]
  }

  /** checklistDir.listFiles(filter), given the names in the directory:
      one row per accepted name. */
  function XmlFiles(dir: string, entries: seq<string>): (items: seq<File>)
    ensures forall f :: f in items ==> f.parent == Some(dir) && EndsWith(f.name, XmlSuffix) && f.name in entries
    ensures forall n :: n in entries && EndsWith(n, XmlSuffix) ==> File(Some(dir), n) in items
    ensures |items| <= |entries|
    ensures Distinct(entries) ==> Distinct(items)
    decreases |entries|
  {
    if entries == [] then []
    else
      var rest := XmlFiles(dir, entries[1..]);
      assert forall n :: n in entries <==> n == entries[0] || n in entries[1..];
      if Accepts(dir, dir, entries[0]) then [File(Some(dir), entries[0])] + rest else rest
  }

  /** CheckListFileModel.initItems: no directory gives an empty list. */
  function Listing(checklistDir: Option<string>, entries: seq<string>): (items: seq<File>)
    ensures checklistDir.None? ==> items == []
    ensures forall f :: f in items ==> f.parent == checklistDir && EndsWith(f.name, XmlSuffix) && f.name in entries
    ensures checklistDir.Some? ==>
      forall n :: n in entries && EndsWith(n, XmlSuffix) ==> File(checklistDir, n) in items
    ensures Distinct(entries) ==> Distinct(items)
  {
    if checklistDir.None? then [] else XmlFiles(checklistDir.value, entries)
  }

  /** The list cell renderer: the file name without its last four characters. */
  function DisplayName(f: File): (r: string)
    requires |f.name| >= 4
    ensures |r| == |f.name| - 4 && r == f.name[..|r|]
  {
    f.name[..|f.name| - 4]
  }

  /** For every listed file the shown name is the file name less ".xml". */
  lemma ListedDisplayName(checklistDir: Option<string>, entries: seq<string>, f: File)
    requires f in Listing(checklistDir, entries)
    ensures |f.name| >= 4 && DisplayName(f) + XmlSuffix == f.name
  {
    assert f.name == f.name[..|f.name| - 4] + f.name[|f.name| - 4..];
  }

  /** The save handlers' name fix-up: ".xml" is appended unless already there. */
  function Normalise(f: File): (r: File)
    ensures EndsWith(r.name, XmlSuffix)
    ensures r.parent == f.parent
    ensures EndsWith(f.name, XmlSuffix) ==> r == f
    ensures !EndsWith(f.name, XmlSuffix) ==> r.name == f.name + XmlSuffix
  {
    if EndsWith(f.name, XmlSuffix) then f
    else
      EndsWithAppended(f.name, XmlSuffix);
      File(f.parent, f.name + XmlSuffix)
  }

  lemma NormaliseIdempotent(f: File)
    ensures Normalise(Normalise(f)) == Normalise(f)
  {
  }

  /** The answer to the "Exists. Do you want to overwrite" question;
      Closed is JOptionPane.CLOSED_OPTION, the window closed without an answer. */
  datatype Answer = Yes | No | Cancel | Closed

  datatype SaveResult =
    | NotChosen                // the file chooser was not approved
    | Declined                 // overwrite refused: nothing saved, dialog stays open
    | SaveFailed(file: File)   // "Unable to save the file": dialog stays open
    | Saved(file: File)        // saved: dialog disposed, list reloaded

  /** The Save (new checklist) and Save As (edited checklist) handlers as
      written: only No and Cancel stop an overwrite. `chosen` is the file
      the chooser returned (None when not approved), `present` and
      `writable` answer for the file system, and `answer` is what the user
      replies when asked. */
  function SaveAsWritten(chosen: Option<File>, present: File -> bool, answer: Answer, writable: File -> bool): (r: SaveResult)
    ensures chosen.None? <==> r == NotChosen
    ensures r.Saved? || r.SaveFailed? ==> r.file == Normalise(chosen.value) && EndsWith(r.file.name, XmlSuffix)
    ensures r == Declined <==> chosen.Some? && present(Normalise(chosen.value)) && answer in {No, Cancel}
    ensures r.SaveFailed? <==> chosen.Some? && r != Declined && !writable(Normalise(chosen.value))
    ensures r.Saved? <==> chosen.Some? && r != Declined && writable(Normalise(chosen.value))
  {
    if chosen.None? then NotChosen
    else
      var file := Normalise(chosen.value);
      if present(file) && (answer == Cancel || answer == No) then Declined
      else if !writable(file) then SaveFailed(file)
      else Saved(file)
  }

  /** Closing the confirmation window overwrites an existing checklist. */
  lemma ClosingConfirmationOverwrites(chosen: File, present: File -> bool, writable: File -> bool)
    requires present(Normalise(chosen)) && writable(Normalise(chosen))
    ensures SaveAsWritten(Some(chosen), present, Closed, writable) == Saved(Normalise(chosen))
  {
  }

  /** The save handlers with an existing file overwritten only on Yes. */
  function SaveAs(chosen: Option<File>, present: File -> bool, answer: Answer, writable: File -> bool): (r: SaveResult)
    ensures chosen.None? <==> r == NotChosen
    ensures r.Saved? || r.SaveFailed? ==> r.file == Normalise(chosen.value) && EndsWith(r.file.name, XmlSuffix)
    ensures r == Declined <==> chosen.Some? && present(Normalise(chosen.value)) && answer != Yes
    ensures r.Saved? && present(r.file) ==> answer == Yes
    ensures r.SaveFailed? <==> chosen.Some? && r != Declined && !writable(Normalise(chosen.value))
    ensures r.Saved? <==> chosen.Some? && r != Declined && writable(Normalise(chosen.value))
  {
    if chosen.None? then NotChosen
    else
      var file := Normalise(chosen.value);
      if present(file) && answer != Yes then Declined
      else if !writable(file) then SaveFailed(file)
      else Saved(file)
  }

  /** The two agree on every answer but a closed confirmation window. */
  lemma SaveAsAgrees(chosen: Option<File>, present: File -> bool, answer: Answer, writable: File -> bool)
    requires answer != Closed
    ensures SaveAs(chosen, present, answer, writable) == SaveAsWritten(chosen, present, answer, writable)
  {
  }

  class MarathonCheckList {
    const checklistDir: Option<string>
    const insert: bool
    /** The list model's items. */
    var items: seq<File>
    /** The list's selected index, -1 for none. */
    var selectedIndex: int
    var selectedFile: Option<File>
    var formPanel: Option<Form>
    /** The form in the right half of the split pane. */
    var shownForm: Option<Form>
    var ok: bool
    var okEnabled: bool
    var editEnabled: bool
    var disposed: bool

    predicate Valid()
      reads this
    {
      && -1 <= selectedIndex
      && forall f :: f in items ==> f.parent == checklistDir && EndsWith(f.name, XmlSuffix)
    }

    /** new MarathonCheckList(parent, checkListDir, insert); `entries` are
        the names in the checklist directory. */
    constructor (dir: Option<string>, entries: seq<string>, insert: bool)
      ensures Valid()
      ensures checklistDir == dir && this.insert == insert
      ensures items == Listing(dir, entries)
      ensures selectedIndex == -1 && selectedFile == None && formPanel == None && shownForm == None
      ensures !ok && !disposed
      ensures !editEnabled && okEnabled == !insert
    {
      checklistDir := dir;
      this.insert := insert;
      items := Listing(dir, entries);
      selectedIndex := -1;
      selectedFile := None;
      formPanel := None;
      shownForm := None;
      ok := false;
      okEnabled := !insert;
      editEnabled := false;
      disposed := false;
    }

    /** CheckListFileModel.reset: the checklist directory is listed again. */
    method Reset(entries: seq<string>)
      requires Valid()
      modifies this`items
      ensures Valid()
      ensures items == Listing(checklistDir, entries)
    {
      items := Listing(checklistDir, entries);
    }

    /** getSelectedCheckListForm: null without a selection; otherwise the
        selected file is remembered and its form read, and the form panel
        keeps its previous form when `readable` says the file cannot be read. */
    method GetSelectedCheckListForm(mode: Mode, readable: File -> bool) returns (form: Option<Form>)
      requires Valid() && selectedIndex < |items|
      modifies this`selectedFile, this`formPanel
      ensures Valid()
      ensures selectedIndex == -1 ==>
        form == None && selectedFile == old(selectedFile) && formPanel == old(formPanel)
      ensures selectedIndex != -1 ==> selectedFile == Some(items[selectedIndex])
      ensures selectedIndex != -1 ==>
        formPanel == (if readable(items[selectedIndex]) then Some(Form(items[selectedIndex], mode)) else old(formPanel))
      ensures selectedIndex != -1 ==> form == formPanel
    {
      if selectedIndex == -1 {
        return None;
      }
      selectedFile := Some(items[selectedIndex]);
      if readable(items[selectedIndex]) {
        formPanel := Some(Form(items[selectedIndex], mode));
      }
      form := formPanel;
    }

    /** A selection event: both list-selection listeners run, the list's own
        one first (showing the form and setting both buttons) and then the
        selection model's (setting the OK button from the index). */
    method SelectionChanged(index: int, adjusting: bool, readable: File -> bool)
      requires Valid() && -1 <= index < |items|
      modifies this`selectedIndex, this`selectedFile, this`formPanel, this`shownForm,
               this`okEnabled, this`editEnabled
      ensures Valid() && selectedIndex == index
      ensures adjusting ==>
        && selectedFile == old(selectedFile) && formPanel == old(formPanel) && shownForm == old(shownForm)
        && okEnabled == old(okEnabled) && editEnabled == old(editEnabled)
      ensures !adjusting && index == -1 ==> selectedFile == old(selectedFile) && formPanel == old(formPanel)
      ensures !adjusting ==> okEnabled == (index != -1)
      ensures !adjusting ==> editEnabled == (index != -1 && formPanel.Some?)
      ensures !adjusting && index != -1 ==> selectedFile == Some(items[index])
      ensures !adjusting && index != -1 ==>
        formPanel == (if readable(items[index]) then Some(Form(items[index], Display)) else old(formPanel))
      ensures !adjusting ==> shownForm == if editEnabled then formPanel else old(shownForm)
    {
      selectedIndex := index;
      if adjusting {
        return;
      }
      var form := GetSelectedCheckListForm(Display, readable);
      if form.None? {
        editEnabled := false;
        okEnabled := false;
      } else {
        editEnabled := true;
        okEnabled := true;
        shownForm := form;
      }
      okEnabled := selectedIndex != -1;
    }

    /** The Edit button: the selected checklist's form in edit mode, or
        nothing to edit; when the selected file cannot be read, the form
        read last (possibly another file's, in display mode) is edited. */
    method EditPressed(readable: File -> bool) returns (form: Option<Form>)
      requires Valid() && selectedIndex < |items|
      modifies this`selectedFile, this`formPanel
      ensures Valid()
      ensures selectedIndex == -1 ==>
        form == None && selectedFile == old(selectedFile) && formPanel == old(formPanel)
      ensures selectedIndex != -1 ==> selectedFile == Some(items[selectedIndex])
      ensures selectedIndex != -1 ==>
        formPanel == (if readable(items[selectedIndex]) then Some(Form(items[selectedIndex], Edit)) else old(formPanel))
      ensures selectedIndex != -1 ==> form == formPanel
      ensures form.None? <==> selectedIndex == -1 || (!readable(items[selectedIndex]) && old(formPanel).None?)
    {
      form := GetSelectedCheckListForm(Edit, readable);
    }

    /** The OK (Done or Insert) button. */
    method PressOk()
      modifies this`ok, this`disposed
      ensures ok && disposed
    {
      ok := true;
      disposed := true;
    }

    /** The Cancel button. */
    method PressCancel()
      modifies this`ok, this`disposed
      ensures !ok && disposed
    {
      ok := false;
      disposed := true;
    }

    /** getSelectedChecklist: the selected list value, null without a selection. */
    function SelectedChecklist(): (r: Option<File>)
      reads this
      requires Valid() && selectedIndex < |items|
      ensures r.None? <==> selectedIndex == -1
      ensures r.Some? ==> r.value == items[selectedIndex]
      ensures r.Some? ==> r.value in items && r.value.parent == checklistDir && EndsWith(r.value.name, XmlSuffix)
    {
      if selectedIndex == -1 then None else Some(items[selectedIndex])
    }
  }
}
