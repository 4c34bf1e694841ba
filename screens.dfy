/** ScreenDetails.java: the object that, each time the screen changes, looks
    at its field list and records what kind of ISPF screen it is, the command
    field, the data sets or members listed, the data set being edited or
    browsed, and the user id and TSO prefix. Each method updates the fields
    the Java method updates and is proved against the functions of
    ScreenFields and ScreenPanels. */
module Screens {
  import opened JavaLang
  import opened ScreenFields
  import opened DatasetColumns
  import opened ScreenPanels

  /** Whether the menu bar read is the expected one: the same number of
      labels, and equal label by label. */
  method MatchesMenuBar(menus: seq<string>, bar: seq<string>) returns (same: bool)
    ensures same <==> menus == bar
  {
    if |menus| != |bar| {
      return false;
    }
    var i := 0;
    while i < |menus|
      invariant 0 <= i <= |menus|
      invariant menus[..i] == bar[..i]
    {
      if bar[i] != menus[i] {
        return false;
      }
      i := i + 1;
    }
    assert menus == menus[..i] && bar == bar[..i];
    return true;
  }

  lemma AppendAssociates<T>(a: seq<T>, b: seq<T>, c: seq<T>)
    ensures (a + b) + c == a + (b + c)
  {
  }

  /** The loop of checkDatasetList over a field list: append to list, one
      by one, the data sets read from count entries of rows from screen row
      nextLine on, until one throws. */
  method AppendDatasets(fs: seq<Field>, columns: Columns, kind: ListKind, linesPerDataset: nat,
                        nextLine: int, count: int, list: seq<Dataset>)
    returns (list': seq<Dataset>, thrown: Option<Failure>)
    ensures var s := ScrapeRows(fs, columns, kind, linesPerDataset, nextLine, count);
      list' == list + s.datasets && thrown == s.thrown
  {
    list', thrown := list, None;
    var line := nextLine;
    var datasetsToProcess := count;
    ghost var added: seq<Dataset> := [];
    assert [] + ScrapeRows(fs, columns, kind, linesPerDataset, nextLine, count).datasets ==
      ScrapeRows(fs, columns, kind, linesPerDataset, nextLine, count).datasets;
    while datasetsToProcess > 0
      invariant list' == list + added
      invariant Splits(ScrapeRows(fs, columns, kind, linesPerDataset, nextLine, count), added,
                       ScrapeRows(fs, columns, kind, linesPerDataset, line, datasetsToProcess))
      decreases datasetsToProcess
    {
      var rowFields := RowFields(fs, columns, line, linesPerDataset);
      var step := ScrapeRow(kind, rowFields);
      ScrapeRowsAdvance(fs, columns, kind, linesPerDataset, nextLine, count, line, datasetsToProcess, added);
      AppendAssociates(list, added, step.datasets);
      list' := list' + step.datasets;
      added := added + step.datasets;
      if step.thrown.Some? {
        thrown := step.thrown;
        return;
      }
      datasetsToProcess := datasetsToProcess - 1;
      line := NextLine(kind, linesPerDataset, rowFields, line);
    }
    assert added + [] == added;
  }

  /** The loop of checkMemberList over a field list: append to list, one by
      one, the members read from screen rows 5 .. end - 1, until one throws. */
  method AppendMembers(fs: seq<Field>, columns: Columns, h: MemberHeader, end: int, list: seq<Dataset>)
    returns (list': seq<Dataset>, thrown: Option<Failure>)
    ensures var s := ScrapeMembers(fs, columns, h, 5, end);
      list' == list + s.datasets && thrown == s.thrown
  {
    list', thrown := list, None;
    ghost var added: seq<Dataset> := [];
    assert [] + ScrapeMembers(fs, columns, h, 5, end).datasets == ScrapeMembers(fs, columns, h, 5, end).datasets;
    var row := 5;
    while row < end
      invariant list' == list + added
      invariant Splits(ScrapeMembers(fs, columns, h, 5, end), added, ScrapeMembers(fs, columns, h, row, end))
      decreases end - row
    {
      var rowFields := FieldsOnRow(fs, columns, row);
      var step := ScrapeMember(rowFields, h.datasetName, h.headings);
      ScrapeMembersAdvance(fs, columns, h, 5, row, end, added);
      AppendAssociates(list, added, step.datasets);
      list' := list' + step.datasets;
      added := added + step.datasets;
      if step.thrown.Some? {
        thrown := step.thrown;
        return;
      }
      row := row + 1;
    }
    assert added + [] == added;
  }

  /** The loop of hasPromptField over the fields of rows 2 and 3: the input
      field after the first prompt label whose input field is accepted. */
  method FirstPrompt(rowFields: seq<Field>, columns: Columns) returns (command: Option<Field>)
    ensures command == CommandField(rowFields, columns)
  {
    command := None;
    var i := 0;
    while i < |rowFields|
      invariant 0 <= i <= |rowFields|
      invariant PromptIndex(rowFields, columns, 0) == PromptIndex(rowFields, columns, i)
    {
      var field := rowFields[i];
      var text := field.text;
      var column := field.firstLocation % columns;
      var nextFieldNo := i + 1;
      if nextFieldNo < |rowFields| && column == 1 && (text == "Command ===>" || text == "Option ===>") {
        var nextField := rowFields[nextFieldNo];
        var length := nextField.displayLength;
        var modifiable := nextField.IsUnprotected();
        var hidden := nextField.IsHidden();
        if length == 66 || (length == 48 && !hidden && modifiable) {
          assert PromptAt(rowFields, columns, i);
          return Some(nextField);
        }
      }
      i := i + 1;
    }
  }

  class ScreenDetails {
    const columns: Columns

    var fields: seq<Field>
    var datasets: seq<Dataset>
    var members: seq<Dataset>
    var datasetsMatching: string
    var datasetsOnVolume: string
    var tsoCommandField: Option<Field>
    var isTsoCommandScreen: bool
    var isDatasetList: bool
    var isMemberList: bool
    var currentDataset: string
    var userid: string
    var prefix: string

    /** All the state at once. */
    function Snapshot(): Details
      reads this
    {
      Details(fields, datasets, members, datasetsMatching, datasetsOnVolume, tsoCommandField,
              isTsoCommandScreen, isDatasetList, isMemberList, currentDataset, userid, prefix)
    }

    /** Nothing is known before the first check. */
    constructor(columns: Columns)
      ensures this.columns == columns
      ensures Snapshot() == Details([], [], [], "", "", None, false, false, false, "", "", "")
    {
      this.columns := columns;
      fields := [];
      datasets := [];
      members := [];
      datasetsMatching := "";
      datasetsOnVolume := "";
      tsoCommandField := None;
      isTsoCommandScreen := false;
      isDatasetList := false;
      isMemberList := false;
      currentDataset := "";
      userid := "";
      prefix := "";
    }

    /** check: clear what belongs to the previous screen and read the new
      one, as CheckScreen describes. */
    method Check(newFields: seq<Field>) returns (thrown: Option<Failure>)
      modifies this
      ensures Checked(Snapshot(), thrown) == CheckScreen(columns, old(Snapshot()), newFields)
    {
      tsoCommandField := None;
      isTsoCommandScreen := false;
      datasets := [];
      members := [];
      fields := newFields;
      thrown := None;
      if |fields| > 2 {
        var promptFound := HasPromptField();
        if promptFound {
          IdentifyScreen();
          thrown := ReadLists();
        }
      }
    }

    /** The first steps of check on a screen with a command prompt, as
      Identified describes. */
    method IdentifyScreen()
      modifies this
      ensures Snapshot() == Identified(columns, old(Snapshot()))
    {
      isTsoCommandScreen := CheckTsoCommandScreen();
      if prefix == "" {
        CheckPrefixScreen();
      }
      currentDataset := "";
    }

    /** The lists of check, as ListsRead describes. */
    method ReadLists() returns (thrown: Option<Failure>)
      modifies this
      ensures Checked(Snapshot(), thrown) == ListsRead(columns, old(Snapshot()))
    {
      var isList;
      isList, thrown := CheckDatasetList();
      if thrown.Some? {
        return;
      }
      isDatasetList := isList;
      if !isDatasetList {
        thrown := ReadPanel();
      }
    }

    /** The panels of check that are not a data set list, as PanelRead
      describes. */
    method ReadPanel() returns (thrown: Option<Failure>)
      modifies this
      ensures Checked(Snapshot(), thrown) == PanelRead(columns, old(Snapshot()))
    {
      CheckOpenDataset();
      var isMembers;
      isMembers, thrown := CheckMemberList();
      if thrown.Some? {
        return;
      }
      isMemberList := isMembers;
    }

    /** getFields: the fields starting in [firstLocation, lastLocation] that
      show something, scanning until the first field past the range. */
    method GetFields(firstLocation: int, lastLocation: int) returns (rowFields: seq<Field>)
      ensures rowFields == ScanFields(fields, firstLocation, lastLocation)
    {
      rowFields := [];
      var i := 0;
      while i < |fields|
        invariant 0 <= i <= |fields|
        invariant ScanFields(fields, firstLocation, lastLocation) ==
          rowFields + ScanFields(fields[i..], firstLocation, lastLocation)
      {
        var field := fields[i];
        assert fields[i..][1..] == fields[i + 1..];
        var location := field.firstLocation;
        if location < firstLocation {
          i := i + 1;
          continue;
        }
        if location > lastLocation {
          break;
        }
        if field.displayLength > 0 {
          rowFields := rowFields + [field];
        }
        i := i + 1;
      }
    }

    /** getFieldsOnRow. */
    method GetFieldsOnRow(requestedRow: int) returns (rowFields: seq<Field>)
      ensures rowFields == FieldsOnRow(fields, columns, requestedRow)
    {
      var firstLocation := requestedRow * columns;
      var lastLocation := firstLocation + columns - 1;
      rowFields := GetFields(firstLocation, lastLocation);
    }

    /** getRowFields. */
    method GetRowFields(requestedRowFrom: int, rows: int) returns (rowFields: seq<Field>)
      ensures rowFields == RowFields(fields, columns, requestedRowFrom, rows)
    {
      var firstLocation := requestedRowFrom * columns;
      var lastLocation := (requestedRowFrom + rows) * columns - 1;
      rowFields := GetFields(firstLocation, lastLocation);
    }

    /** getMenus: the labels of the menu bar, read until the first field past
      the first row. */
    method GetMenus() returns (menus: seq<string>)
      ensures menus == Menus(fields, columns)
    {
      menus := [];
      var i := 0;
      while i < |fields|
        invariant 0 <= i <= |fields|
        invariant Menus(fields, columns) == menus + Menus(fields[i..], columns)
      {
        var field := fields[i];
        assert fields[i..][1..] == fields[i + 1..];
        if field.firstLocation >= columns {
          break;
        }
        if field.IsProtected() && field.IsVisible() && field.displayLength > 1 {
          var text := Trim(field.text);
          if text != [] {
            menus := menus + [text];
          }
        }
        i := i + 1;
      }
    }

    /** hasPromptField: look on rows 2 and 3 for a command or option prompt
      followed by an input field it accepts, and keep that input field as the
      TSO command field. */
    method HasPromptField() returns (found: bool)
      modifies this
      ensures tsoCommandField == CommandField(RowFields(fields, columns, 2, 2), columns)
      ensures found <==> tsoCommandField.Some?
      ensures Snapshot() == old(Snapshot()).(tsoCommandField := tsoCommandField)
    {
      var rowFields := GetRowFields(2, 2);
      var command := FirstPrompt(rowFields, columns);
      tsoCommandField := command;
      found := command.Some?;
    }

    /** checkTSOCommandScreen, reading fields 14 and 18 or 19 only when they
      are there. */
    method CheckTsoCommandScreen() returns (isShell: bool)
      ensures isShell == IsTsoCommandScreen(fields, columns)
    {
      if |fields| < 14 {
        return false;
      }
      var field := fields[10];
      if field.text != ISPF_SHELL {
        return false;
      }
      var workstationFieldNo := 13;
      field := fields[workstationFieldNo];
      if field.text != WORKSTATION_PROMPT {
        workstationFieldNo := workstationFieldNo + 1;
        if workstationFieldNo >= |fields| {
          return false;
        }
        field := fields[workstationFieldNo];
        if field.text != WORKSTATION_PROMPT {
          return false;
        }
      }
      assert workstationFieldNo == WorkstationFieldNo(fields);
      var menus := GetMenus();
      var same := MatchesMenuBar(menus, TSO_MENUS);
      if !same {
        return false;
      }
      if workstationFieldNo + 5 >= |fields| {
        return false;
      }
      field := fields[workstationFieldNo + 5];
      return field.displayLength == 234;
    }

    /** checkPrefixScreen, reading field 73 only when it is there. */
    method CheckPrefixScreen()
      modifies this
      ensures Ids(userid, prefix) == PrefixScreen(fields, old(Ids(userid, prefix)))
      ensures Snapshot() == old(Snapshot()).(userid := userid, prefix := prefix)
    {
      if |fields| < 73 {
        return;
      }
      var field := fields[10];
      var heading := field.text;
      if heading != ISPF_SCREEN && heading != ZOS_SCREEN {
        return;
      }
      field := fields[23];
      if field.text != USER_ID_LABEL || field.firstLocation != 457 {
        return;
      }
      field := fields[24];
      if field.firstLocation != 470 {
        return;
      }
      userid := Trim(field.text);
      field := fields[72];
      if field.text != PREFIX_LABEL || field.firstLocation != 1017 {
        return;
      }
      if |fields| < 74 {
        return;
      }
      field := fields[73];
      if field.firstLocation != 1030 {
        return;
      }
      prefix := Trim(field.text);
    }

    /** checkEditOrViewDataset, then checkBrowseDataset when that leaves the
      open data set empty. */
    method CheckOpenDataset()
      modifies this
      ensures Snapshot() == old(Snapshot()).(currentDataset := OpenDataset(fields, old(currentDataset)))
    {
      CheckEditOrViewDataset();
      if currentDataset == "" {
        CheckBrowseDataset();
      }
    }

    /** checkEditOrViewDataset. */
    method CheckEditOrViewDataset()
      modifies this
      ensures currentDataset == match EditOrViewDatasetName(fields)
                                case Some(name) => name
                                case None => old(currentDataset)
      ensures Snapshot() == old(Snapshot()).(currentDataset := currentDataset)
    {
      if |fields| < 13 {
        return;
      }
      var field := fields[11];
      var location := field.firstLocation;
      if location != 161 {
        return;
      }
      var text := Trim(field.text);
      if text != "EDIT" && text != "VIEW" {
        return;
      }
      field := fields[12];
      location := field.firstLocation;
      if location != 172 {
        return;
      }
      text := Trim(field.text);
      var pos := IndexOf(text, " ");
      if pos > 0 {
        currentDataset := text[..pos];
      }
    }

    /** checkBrowseDataset. */
    method CheckBrowseDataset()
      modifies this
      ensures currentDataset == match BrowseDatasetName(fields)
                                case Some(name) => name
                                case None => old(currentDataset)
      ensures Snapshot() == old(Snapshot()).(currentDataset := currentDataset)
    {
      if |fields| < 9 {
        return;
      }
      var field := fields[7];
      var location := field.firstLocation;
      if location != 161 {
        return;
      }
      var text := field.text;
      if text != "BROWSE   " {
        return;
      }
      field := fields[8];
      location := field.firstLocation;
      if location != 171 {
        return;
      }
      text := Trim(field.text);
      var pos := IndexOf(text, " ");
      if pos > 0 {
        currentDataset := text[..pos];
      }
    }

    /** checkDatasetList: reset the volume and pattern, read the header and
      the layout, then add the data sets of the rows to the list one by one. */
    method CheckDatasetList() returns (isList: bool, thrown: Option<Failure>)
      modifies this
      ensures var scan := DatasetList(fields, columns);
        isList == scan.isList && thrown == scan.thrown &&
        datasetsOnVolume == scan.onVolume && datasetsMatching == scan.matching &&
        datasets == old(datasets) + scan.datasets
      ensures Snapshot() == old(Snapshot()).(datasetsOnVolume := datasetsOnVolume,
                                             datasetsMatching := datasetsMatching, datasets := datasets)
    {
      datasetsOnVolume := "";
      datasetsMatching := "";
      isList, thrown := false, None;
      if |fields| < 21 {
        return;
      }
      var title := GetRowFields(2, 2);
      if |title| == 0 {
        return;
      }
      var text := title[0].text;
      if !StartsWith(text, DSLIST_TITLE) {
        return;
      }
      var header := DslistHeader(text);
      if header.Err? {
        thrown := Some(header.failure);
        return;
      }
      datasetsOnVolume := header.value.onVolume;
      datasetsMatching := header.value.matching;
      var headings := GetRowFields(5, 2);
      var layout := ListLayout(headings, datasetsOnVolume, header.value.maxRows);
      if layout.None? {
        return;
      }
      thrown := AddDatasets(layout.value.kind, layout.value.linesPerDataset,
                            layout.value.firstLine, layout.value.toProcess);
      isList := thrown.None?;
    }

    /** The loop of checkDatasetList: from screen row nextLine on, add count
      data sets to the list, each read from the fields of its rows, until one
      throws. */
    method AddDatasets(kind: ListKind, linesPerDataset: nat, nextLine: int, count: int)
      returns (thrown: Option<Failure>)
      modifies this
      ensures var s := ScrapeRows(fields, columns, kind, linesPerDataset, nextLine, count);
        datasets == old(datasets) + s.datasets && thrown == s.thrown
      ensures Snapshot() == old(Snapshot()).(datasets := datasets)
    {
      datasets, thrown := AppendDatasets(fields, columns, kind, linesPerDataset, nextLine, count, datasets);
    }

    /** The heading tests of checkMemberList: the menu bar, the fields at
      addresses 161, 179, 221 and 231, and the row numbers of fields 11 and
      13, which throw when they do not parse. */
    method ReadMemberHeader() returns (header: Result<Option<MemberHeader>>)
      ensures header == MemberListHeader(fields, columns)
    {
      if |fields| < 14 {
        return Ok(None);
      }
      var menus := GetMenus();
      var same := MatchesMenuBar(menus, PDS_MENUS);
      if !same {
        return Ok(None);
      }
      var field := fields[8];
      if field.firstLocation != 161 {
        return Ok(None);
      }
      field := fields[9];
      if field.firstLocation != 179 {
        return Ok(None);
      }
      var datasetName := Trim(field.text);
      field := fields[10];
      if field.firstLocation != 221 || Trim(field.text) != "Row" {
        return Ok(None);
      }
      field := fields[12];
      if field.firstLocation != 231 || Trim(field.text) != "of" {
        return Ok(None);
      }
      var rowFrom := ParseInt(Trim(fields[11].text));
      if rowFrom.Err? {
        return Err(rowFrom.failure);
      }
      var rowTo := ParseInt(Trim(fields[13].text));
      if rowTo.Err? {
        return Err(rowTo.failure);
      }
      var headings := GetFieldsOnRow(4);
      return Ok(Some(MemberHeader(datasetName, rowFrom.value, rowTo.value, |headings|)));
    }

    /** checkMemberList: test the member-list heading, then add the member of
      each row to the list one by one. */
    method CheckMemberList() returns (isList: bool, thrown: Option<Failure>)
      modifies this
      ensures var scan := MemberList(fields, columns);
        isList == scan.isList && thrown == scan.thrown && members == old(members) + scan.members
      ensures Snapshot() == old(Snapshot()).(members := members)
    {
      isList, thrown := false, None;
      var header := ReadMemberHeader();
      if header.Err? {
        thrown := Some(header.failure);
        return;
      }
      if header.value.None? {
        return;
      }
      var h := header.value.value;
      members, thrown := AppendMembers(fields, columns, h, MemberRowsEnd(h), members);
      isList := thrown.None?;
    }
  }
}
