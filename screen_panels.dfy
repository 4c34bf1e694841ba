/** What ScreenDetails.java recognises on an ISPF screen, stated on the field
    list of the screen: the ISPF command shell, the primary option menu with
    the user id and TSO prefix, the data set open in an edit, view or browse
    panel, the DSLIST data set list with its header and its rows, and the
    member list of a partitioned data set. ScreenDetails.check puts these
    together into the details of the current screen. */
module ScreenPanels {
  import opened JavaLang
  import opened ScreenFields
  import opened DatasetColumns

  const TSO_MENUS: seq<string> := ["Menu", "List", "Mode", "Functions", "Utilities", "Help"]
  const PDS_MENUS: seq<string> := ["Menu", "Functions", "Confirm", "Utilities", "Help"]
  const ISPF_SCREEN: string := "ISPF Primary Option Menu"
  const ZOS_SCREEN: string := "z/OS Primary Option Menu"
  const ISPF_SHELL: string := "ISPF Command Shell"
  const WORKSTATION_PROMPT: string := "Enter TSO or Workstation commands below:"
  const USER_ID_LABEL: string := " User ID . :"
  const PREFIX_LABEL: string := " TSO prefix:"
  const DSLIST_TITLE: string := "DSLIST - Data Sets "

  // ---------------------------------------------------------------------------
  // checkTSOCommandScreen

  /** The field holding "Enter TSO or Workstation commands below:": field 13,
      else field 14; -1 when neither does (or field 14 is missing). */
  function WorkstationFieldNo(fs: seq<Field>): (k: int)
    requires |fs| >= 14
    ensures k == -1 || k == 13 || k == 14
    ensures k != -1 <==> (fs[13].text == WORKSTATION_PROMPT || (|fs| > 14 && fs[14].text == WORKSTATION_PROMPT))
    ensures k != -1 ==> k < |fs| && fs[k].text == WORKSTATION_PROMPT
  {
    if fs[13].text == WORKSTATION_PROMPT then 13
    else if |fs| > 14 && fs[14].text == WORKSTATION_PROMPT then 14
    else -1
  }

  /** The ISPF command shell: heading "ISPF Command Shell" in field 10, the
      workstation prompt in field 13 or 14, the menu bar of the shell, and a
      234-cell command area five fields after the prompt. A field that is not
      there makes the screen something else. */
  predicate IsTsoCommandScreen(fs: seq<Field>, columns: Columns)
    ensures IsTsoCommandScreen(fs, columns) ==>
      |fs| >= 19 && fs[10].text == ISPF_SHELL && Menus(fs, columns) == TSO_MENUS &&
      (fs[13].text == WORKSTATION_PROMPT || fs[14].text == WORKSTATION_PROMPT)
  {
    |fs| >= 14 && fs[10].text == ISPF_SHELL &&
    var wfn := WorkstationFieldNo(fs);
    wfn != -1 && Menus(fs, columns) == TSO_MENUS && wfn + 5 < |fs| && fs[wfn + 5].displayLength == 234
  }

  /** checkTSOCommandScreen as written: it guards only against fewer than 14
      fields, but reads field 14 when field 13 is not the prompt, and field
      18 or 19 for the command area; List.get throws when they are missing. */
  function TsoCommandScreenAsWritten(fs: seq<Field>, columns: Columns): (r: Result<bool>)
    ensures r.Err? ==> r.failure == IndexOutOfBounds && |fs| >= 14 && fs[10].text == ISPF_SHELL
    ensures |fs| < 14 ==> r == Ok(false)
  {
    if |fs| < 14 || fs[10].text != ISPF_SHELL then Ok(false)
    else if fs[13].text == WORKSTATION_PROMPT then ShellAsWritten(fs, columns, 13)
    else
      var field :- Get(fs, 14);
      if field.text == WORKSTATION_PROMPT then ShellAsWritten(fs, columns, 14) else Ok(false)
  }

  function ShellAsWritten(fs: seq<Field>, columns: Columns, wfn: nat): (r: Result<bool>)
  {
    if Menus(fs, columns) != TSO_MENUS then Ok(false)
    else
      var field :- Get(fs, wfn + 5);
      Ok(field.displayLength == 234)
  }

  /** Where the code as written returns, it agrees with the corrected test; it
      throws exactly when the prompt or the command area it looks for lies
      past the end of the list. */
  lemma TsoCommandScreenAgrees(fs: seq<Field>, columns: Columns)
    ensures TsoCommandScreenAsWritten(fs, columns).Ok? ==>
      TsoCommandScreenAsWritten(fs, columns).value == IsTsoCommandScreen(fs, columns)
    ensures TsoCommandScreenAsWritten(fs, columns).Err? <==>
      |fs| >= 14 && fs[10].text == ISPF_SHELL &&
      ((fs[13].text != WORKSTATION_PROMPT && |fs| == 14) ||
       (WorkstationFieldNo(fs) != -1 && Menus(fs, columns) == TSO_MENUS && WorkstationFieldNo(fs) + 5 >= |fs|))
  {
  }

  /** Fourteen fields, the shell heading in field 10 and something other than
      the prompt in field 13. */
  function ShortShellScreen(): (fs: seq<Field>)
    ensures |fs| == 14 && fs[10].text == ISPF_SHELL && fs[13].text != WORKSTATION_PROMPT
  {
    seq(14, i => if i == 10 then Field(801, 18, ISPF_SHELL, true, false) else Field(900, 1, "", true, false))
  }

  /** On that screen the code as written throws IndexOutOfBoundsException,
      where the screen is simply not the command shell. */
  lemma ShortShellScreenThrows()
    ensures TsoCommandScreenAsWritten(ShortShellScreen(), 80) == Err(IndexOutOfBounds)
    ensures !IsTsoCommandScreen(ShortShellScreen(), 80)
  {
  }

  // ---------------------------------------------------------------------------
  // checkPrefixScreen

  /** The user id and the TSO prefix ScreenDetails remembers. */
  datatype Ids = Ids(userid: string, prefix: string)

  /** A value, and the exception that cut its computation short, if any. */
  datatype Outcome<T> = Outcome(value: T, thrown: Option<Failure>)

  predicate IsPrimaryMenuHeading(text: string)
  {
    text == ISPF_SCREEN || text == ZOS_SCREEN
  }

  /** Fields 10, 23 and 24 show the primary option menu and its user id. */
  predicate ShowsUserid(fs: seq<Field>)
    requires |fs| >= 25
  {
    IsPrimaryMenuHeading(fs[10].text) && fs[23].text == USER_ID_LABEL &&
    fs[23].firstLocation == 457 && fs[24].firstLocation == 470
  }

  /** Field 72 is the label of the TSO prefix. */
  predicate ShowsPrefixLabel(fs: seq<Field>)
    requires |fs| >= 73
  {
    fs[72].text == PREFIX_LABEL && fs[72].firstLocation == 1017
  }

  /** checkPrefixScreen as written: it guards only against fewer than 73
      fields, stores the user id, and then reads field 73, which a list of 73
      fields does not have. */
  function PrefixScreenAsWritten(fs: seq<Field>, ids: Ids): (r: Outcome<Ids>)
    ensures r.thrown.Some? ==> r.thrown == Some(IndexOutOfBounds) && |fs| == 73
    ensures r.value.prefix != ids.prefix ==> |fs| >= 74
  {
    if |fs| < 73 || !ShowsUserid(fs) then Outcome(ids, None)
    else
      var found := ids.(userid := Trim(fs[24].text));
      if !ShowsPrefixLabel(fs) then Outcome(found, None)
      else
        match Get(fs, 73)
        case Err(e) => Outcome(found, Some(e))
        case Ok(field) =>
          Outcome(if field.firstLocation == 1030 then found.(prefix := Trim(field.text)) else found, None)
  }

  /** checkPrefixScreen reading field 73 only when it is there. The user id
      changes only on a primary option menu, to the trimmed text of field 24;
      the prefix changes only when field 73 is the prefix, to its trimmed
      text. */
  function PrefixScreen(fs: seq<Field>, ids: Ids): (r: Ids)
    ensures r.userid != ids.userid ==> |fs| >= 73 && ShowsUserid(fs) && r.userid == Trim(fs[24].text)
    ensures r.prefix != ids.prefix ==>
      |fs| >= 74 && ShowsUserid(fs) && ShowsPrefixLabel(fs) && fs[73].firstLocation == 1030 &&
      r.prefix == Trim(fs[73].text)
  {
    if |fs| < 73 || !ShowsUserid(fs) then ids
    else
      var found := ids.(userid := Trim(fs[24].text));
      if !ShowsPrefixLabel(fs) || |fs| < 74 || fs[73].firstLocation != 1030 then found
      else found.(prefix := Trim(fs[73].text))
  }

  /** The code as written stores what the corrected one stores, and throws
      exactly on a primary option menu of 73 fields whose field 72 is the
      prefix label. */
  lemma PrefixScreenAgrees(fs: seq<Field>, ids: Ids)
    ensures PrefixScreenAsWritten(fs, ids).value == PrefixScreen(fs, ids)
    ensures PrefixScreenAsWritten(fs, ids).thrown.Some? <==>
      |fs| == 73 && ShowsUserid(fs) && ShowsPrefixLabel(fs)
  {
  }

  /** A primary option menu: the heading in field 10, the user id label and
      value in fields 23 and 24, the prefix label and value in fields 72 and
      73, over any other fields. */
  function PrimaryOptionMenu(fs: seq<Field>, heading: string, userid: string, prefix: string): (r: seq<Field>)
    requires |fs| >= 74
    ensures |r| == |fs|
  {
    fs[10 := fs[10].(text := heading)]
      [23 := Field(457, |USER_ID_LABEL|, USER_ID_LABEL, true, false)]
      [24 := Field(470, |userid|, userid, true, false)]
      [72 := Field(1017, |PREFIX_LABEL|, PREFIX_LABEL, true, false)]
      [73 := Field(1030, |prefix|, prefix, true, false)]
  }

  /** checkPrefixScreen reads back the user id and the prefix a primary option
      menu shows. */
  lemma PrimaryOptionMenuIds(fs: seq<Field>, heading: string, userid: string, prefix: string, ids: Ids)
    requires |fs| >= 74 && IsPrimaryMenuHeading(heading)
    requires Trimmed(userid) && Trimmed(prefix)
    ensures PrefixScreen(PrimaryOptionMenu(fs, heading, userid, prefix), ids) == Ids(userid, prefix)
  {
    TrimOfTrimmed(userid);
    TrimOfTrimmed(prefix);
  }

  /** A primary option menu cut off after field 72. */
  function ShortPrimaryMenu(): (fs: seq<Field>)
    ensures |fs| == 73 && ShowsUserid(fs) && ShowsPrefixLabel(fs)
  {
    seq(73, i => Field(0, 0, "", true, false))
      [10 := Field(0, |ISPF_SCREEN|, ISPF_SCREEN, true, false)]
      [23 := Field(457, |USER_ID_LABEL|, USER_ID_LABEL, true, false)]
      [24 := Field(470, 7, "IBMUSER", true, false)]
      [72 := Field(1017, |PREFIX_LABEL|, PREFIX_LABEL, true, false)]
  }

  /** On it the code as written stores the user id and then throws
      IndexOutOfBoundsException. */
  lemma ShortPrimaryMenuThrows()
    ensures PrefixScreenAsWritten(ShortPrimaryMenu(), Ids("", "")) ==
      Outcome(Ids("IBMUSER", ""), Some(IndexOutOfBounds))
  {
    TrimOfTrimmed("IBMUSER");
  }

  // ---------------------------------------------------------------------------
  // checkEditOrViewDataset, checkBrowseDataset

  lemma OccursSpace(text: string)
    ensures forall k :: OccursAt(text, " ", k) <==> 0 <= k < |text| && text[k] == ' '
  {
    forall k | 0 <= k < |text|
      ensures OccursAt(text, " ", k) <==> text[k] == ' '
    {
      assert text[k..k + 1] == [text[k]];
    }
  }

  /** The data set name a panel title starts with: the text before the first
      space, when there is one and it is not the first character. */
  function LeadingName(text: string): (r: Option<string>)
    ensures r.Some? <==> ' ' in text && text[0] != ' '
    ensures r.Some? ==> r.value != [] && ' ' !in r.value && StartsWith(text, r.value + " ")
  {
    OccursSpace(text);
    IndexOfFirst(text, " ");
    var pos := IndexOf(text, " ");
    if pos > 0 then
      assert text[..pos + 1] == text[..pos] + " ";
      Some(text[..pos])
    else
      assert pos == -1 ==> ' ' !in text;
      None
  }

  /** checkEditOrViewDataset: field 11 at address 161 reads EDIT or VIEW and
      field 12 at address 172 is the title; the name is at the start of the
      trimmed title. */
  function EditOrViewDatasetName(fs: seq<Field>): (r: Option<string>)
    ensures r.Some? ==> r.value != [] && ' ' !in r.value && !IsSpace(r.value[0])
    ensures r.Some? ==>
      |fs| >= 13 && fs[11].firstLocation == 161 && (Trim(fs[11].text) == "EDIT" || Trim(fs[11].text) == "VIEW") &&
      fs[12].firstLocation == 172 && r == LeadingName(Trim(fs[12].text))
  {
    if |fs| < 13 || fs[11].firstLocation != 161 then None
    else if Trim(fs[11].text) != "EDIT" && Trim(fs[11].text) != "VIEW" then None
    else if fs[12].firstLocation != 172 then None
    else
      var title := Trim(fs[12].text);
      var r := LeadingName(title);
      assert r.Some? ==> r.value[0] == title[0];
      r
  }

  /** checkBrowseDataset: field 7 at address 161 reads exactly "BROWSE   " and
      field 8 at address 171 is the title. */
  function BrowseDatasetName(fs: seq<Field>): (r: Option<string>)
    ensures r.Some? ==> r.value != [] && ' ' !in r.value && !IsSpace(r.value[0])
    ensures r.Some? ==>
      |fs| >= 9 && fs[7].firstLocation == 161 && fs[7].text == "BROWSE   " &&
      fs[8].firstLocation == 171 && r == LeadingName(Trim(fs[8].text))
  {
    if |fs| < 9 || fs[7].firstLocation != 161 || fs[7].text != "BROWSE   " then None
    else if fs[8].firstLocation != 171 then None
    else
      var title := Trim(fs[8].text);
      var r := LeadingName(title);
      assert r.Some? ==> r.value[0] == title[0];
      r
  }

  /** A panel title: a data set name, a space, and more text. */
  function Title(name: string, rest: string): string
  {
    name + " " + rest
  }

  lemma TitleName(name: string, rest: string)
    requires name != [] && Trimmed(name) && ' ' !in name
    requires rest != [] && Trimmed(rest)
    ensures Trim(Title(name, rest)) == Title(name, rest)
    ensures LeadingName(Title(name, rest)) == Some(name)
  {
    var t := Title(name, rest);
    assert t[0] == name[0] && t[|t| - 1] == rest[|rest| - 1];
    TrimOfTrimmed(t);
    FirstSpace(name, rest);
    assert t[..|name|] == name;
  }

  /** The first space of a title is the one after the name. */
  lemma FirstSpace(name: string, rest: string)
    requires ' ' !in name
    ensures IndexOf(Title(name, rest), " ") == |name|
  {
    var t := Title(name, rest);
    OccursSpace(t);
    IndexOfFirst(t, " ");
    assert t[|name|] == ' ';
    assert forall k :: 0 <= k < |name| ==> t[k] == name[k];
  }

  /** An edit or view panel: the mode in field 11 and the title in field 12. */
  function EditPanel(fs: seq<Field>, mode: string, name: string, rest: string): (r: seq<Field>)
    requires |fs| >= 13
    ensures |r| == |fs|
  {
    fs[11 := Field(161, |mode|, mode, true, false)]
      [12 := Field(172, |name| + 1 + |rest|, Title(name, rest), true, false)]
  }

  /** checkEditOrViewDataset reads back the name an edit or view panel shows. */
  lemma EditPanelName(fs: seq<Field>, mode: string, name: string, rest: string)
    requires |fs| >= 13 && (mode == "EDIT" || mode == "VIEW")
    requires name != [] && Trimmed(name) && ' ' !in name
    requires rest != [] && Trimmed(rest)
    ensures EditOrViewDatasetName(EditPanel(fs, mode, name, rest)) == Some(name)
  {
    TitleName(name, rest);
    TrimOfTrimmed(mode);
  }

  /** A browse panel: "BROWSE   " in field 7 and the title in field 8. */
  function BrowsePanel(fs: seq<Field>, name: string, rest: string): (r: seq<Field>)
    requires |fs| >= 9
    ensures |r| == |fs|
  {
    fs[7 := Field(161, 9, "BROWSE   ", true, false)]
      [8 := Field(171, |name| + 1 + |rest|, Title(name, rest), true, false)]
  }

  /** checkBrowseDataset reads back the name a browse panel shows. */
  lemma BrowsePanelName(fs: seq<Field>, name: string, rest: string)
    requires |fs| >= 9
    requires name != [] && Trimmed(name) && ' ' !in name
    requires rest != [] && Trimmed(rest)
    ensures BrowseDatasetName(BrowsePanel(fs, name, rest)) == Some(name)
  {
    TitleName(name, rest);
  }

  // ---------------------------------------------------------------------------
  // checkDatasetList: the header line

  /** What the header of a DSLIST panel says: the volume listed, or the
      pattern the names match, and the number of rows from the first shown to
      the last of the list. */
  datatype ListHeader = ListHeader(onVolume: string, matching: string, maxRows: int)

  /** The volume or pattern a location text names; the text is recovered from
      either by putting its keyword back. */
  function LocationHeader(location: string, maxRows: int): (h: ListHeader)
    ensures h.maxRows == maxRows
    ensures h.onVolume == "" || h.matching == ""
    ensures StartsWith(location, "on volume ") ==> location == "on volume " + h.onVolume
    ensures h.onVolume != "" ==> location == "on volume " + h.onVolume
    ensures h.matching != "" ==> location == "Matching " + h.matching
    ensures StartsWith(location, "on volume ") ==> h.onVolume == location[10..] && h.matching == ""
    ensures !StartsWith(location, "on volume ") && StartsWith(location, "Matching ") ==>
      h.matching == location[9..] && h.onVolume == ""
    ensures !StartsWith(location, "on volume ") && !StartsWith(location, "Matching ") ==>
      h.onVolume == "" && h.matching == ""
  {
    if StartsWith(location, "on volume ") then
      assert location == location[..10] + location[10..];
      ListHeader(location[10..], "", maxRows)
    else if StartsWith(location, "Matching ") then
      assert location == location[..9] + location[9..];
      ListHeader("", location[9..], maxRows)
    else ListHeader("", "", maxRows)
  }

  lemma NoRInTitle(k: int)
    requires 0 <= k < |DSLIST_TITLE|
    ensures DSLIST_TITLE[k] != 'R'
  {
    assert 'R' !in DSLIST_TITLE;
    assert DSLIST_TITLE[k] in DSLIST_TITLE;
  }

  /** "Row " cannot start inside "DSLIST - Data Sets ". */
  lemma RowFollowsTitle(text: string, pos: int)
    requires StartsWith(text, DSLIST_TITLE) && OccursAt(text, "Row ", pos)
    ensures pos >= |DSLIST_TITLE|
  {
    assert text[pos] == text[pos..pos + 4][0] == 'R';
    if pos < |DSLIST_TITLE| {
      assert text[pos] == DSLIST_TITLE[pos];
      NoRInTitle(pos);
      assert false;
    }
  }

  /** The row count of "<first> of <total>" from the two numbers as parsed:
      total - first + 1 in int arithmetic, or the exception of the first
      number that did not parse. */
  function RowCount(first: Result<int>, total: Result<int>): (r: Result<int>)
    ensures r.Ok? <==> first.Ok? && total.Ok?
    ensures r.Err? ==> r == first || r == total
  {
    if first.Err? then Err(first.failure)
    else if total.Err? then Err(total.failure)
    else Ok(Wrap32(total.value - first.value + 1))
  }

  /** The header parse of checkDatasetList, on a line that starts with
      "DSLIST - Data Sets ": the location is the trimmed text between the
      title and "Row ", the row count follows "Row " as "<first> of <total>".
      Without "Row " nothing is known; without " of " the count is 0. */
  function DslistHeader(text: string): (r: Result<ListHeader>)
    requires StartsWith(text, DSLIST_TITLE)
    ensures r.Err? ==> r.failure == NumberFormat
    ensures r.Ok? ==> r.value.onVolume == "" || r.value.matching == ""
    ensures IndexOf(text, "Row ") == -1 ==> r == Ok(ListHeader("", "", 0))
  {
    var pos := IndexOf(text, "Row ");
    if pos <= 0 then Ok(ListHeader("", "", 0))
    else
      RowFollowsTitle(text, pos);
      var location := Trim(text[|DSLIST_TITLE|..pos]);
      var rowText := text[pos + 4..];
      var of := IndexOf(rowText, " of ");
      if of <= 0 then Ok(LocationHeader(location, 0))
      else
        match RowCount(ParseInt(Trim(rowText[..of])), ParseInt(Trim(rowText[of + 4..])))
        case Err(e) => Err(e)
        case Ok(maxRows) => Ok(LocationHeader(location, maxRows))
  }

  /** A header line naming a location and the rows shown. */
  function HeaderLine(location: string, firstRow: nat, totalRows: nat): string
  {
    DSLIST_TITLE + location + " Row " + Digits(firstRow) + " of " + Digits(totalRows)
  }

  /** The first "Row " of a header line is the one after the location, when
      the location (followed by its space) shows none. */
  lemma RowMarker(location: string, tail: string)
    requires IndexOf(location + " ", "Row ") == -1
    requires StartsWith(tail, "Row ")
    ensures IndexOf(DSLIST_TITLE + location + " " + tail, "Row ") == |DSLIST_TITLE| + |location| + 1
  {
    var text := DSLIST_TITLE + location + " " + tail;
    var p := |DSLIST_TITLE| + |location| + 1;
    assert text[p..p + 4] == tail[..4] == "Row ";
    assert OccursAt(text, "Row ", p);
    NoRowBefore(location, tail);
    IndexOfFirst(text, "Row ");
  }

  /** No "Row " starts within the title, the location or its space. */
  lemma NoRowBefore(location: string, tail: string)
    requires IndexOf(location + " ", "Row ") == -1
    ensures var text := DSLIST_TITLE + location + " " + tail;
      forall k :: 0 <= k < |DSLIST_TITLE| + |location| + 1 ==> !OccursAt(text, "Row ", k)
  {
    var text := DSLIST_TITLE + location + " " + tail;
    var p := |DSLIST_TITLE| + |location| + 1;
    IndexOfFirst(location + " ", "Row ");
    forall k | 0 <= k < p
      ensures !OccursAt(text, "Row ", k)
    {
      if k < |DSLIST_TITLE| {
        assert text[k] == DSLIST_TITLE[k];
        NoRInTitle(k);
      } else if k + 4 <= p {
        var j := k - |DSLIST_TITLE|;
        assert text[k..k + 4] == (location + " ")[j..j + 4];
        assert !OccursAt(location + " ", "Row ", j);
      } else {
        assert text[p - 1] == ' ';
        assert "Row "[p - 1 - k] != ' ';
      }
    }
  }

  /** The first " of " of "<first> of <total>" follows the first number. */
  lemma OfMarker(first: string, rest: string)
    requires AllDigits(first) && first != []
    ensures IndexOf(first + " of " + rest, " of ") == |first|
  {
    var text := first + " of " + rest;
    IndexOfFirst(text, " of ");
    assert text[|first|..|first| + 4] == " of ";
    assert OccursAt(text, " of ", |first|);
    forall k | 0 <= k < |first|
      ensures !OccursAt(text, " of ", k)
    {
      assert text[k] == first[k];
    }
  }

  lemma TrimDigits(ds: string)
    requires AllDigits(ds) && ds != []
    ensures Trim(ds) == ds
  {
    TrimOfTrimmed(ds);
  }

  /** The header parse of a line whose "Row " and " of " markers are found,
      and whose row numbers parse. */
  lemma DslistHeaderOf(text: string, location: string, rowText: string, first: int, total: int)
    requires StartsWith(text, DSLIST_TITLE)
    requires IndexOf(text, "Row ") > 0
    requires IndexOf(text, "Row ") >= |DSLIST_TITLE|
    requires Trim(text[|DSLIST_TITLE|..IndexOf(text, "Row ")]) == location
    requires text[IndexOf(text, "Row ") + 4..] == rowText
    requires IndexOf(rowText, " of ") > 0
    requires ParseInt(Trim(rowText[..IndexOf(rowText, " of ")])) == Ok(first)
    requires ParseInt(Trim(rowText[IndexOf(rowText, " of ") + 4..])) == Ok(total)
    ensures DslistHeader(text) == Ok(LocationHeader(location, Wrap32(total - first + 1)))
  {
    RowCountOfNumbers(ParseInt(Trim(rowText[..IndexOf(rowText, " of ")])), ParseInt(Trim(rowText[IndexOf(rowText, " of ") + 4..])), first, total);
  }

  lemma RowCountOfNumbers(a: Result<int>, b: Result<int>, first: int, total: int)
    requires a == Ok(first) && b == Ok(total)
    ensures RowCount(a, b) == Ok(Wrap32(total - first + 1))
  {
  }

  /** The title, the location and the "Row " marker of a header line. */
  lemma HeaderLineMarkers(location: string, rowText: string)
    requires Trimmed(location) && IndexOf(location + " ", "Row ") == -1
    ensures var text := DSLIST_TITLE + location + " Row " + rowText;
      var pos := |DSLIST_TITLE| + |location| + 1;
      StartsWith(text, DSLIST_TITLE) && IndexOf(text, "Row ") == pos &&
      Trim(text[|DSLIST_TITLE|..pos]) == location && text[pos + 4..] == rowText
  {
    var text := DSLIST_TITLE + location + " Row " + rowText;
    var pos := |DSLIST_TITLE| + |location| + 1;
    assert text == DSLIST_TITLE + location + " " + ("Row " + rowText);
    assert text[..|DSLIST_TITLE|] == DSLIST_TITLE;
    RowMarker(location, "Row " + rowText);
    assert text[|DSLIST_TITLE|..pos] == location + " ";
    TrimTrailingSpace(location);
    assert text[pos + 4..] == rowText;
  }

  /** The row numbers of "<first> of <total>". */
  lemma RowTextNumbers(firstRow: nat, totalRows: nat)
    requires IsInt32(firstRow) && IsInt32(totalRows)
    ensures var rowText := Digits(firstRow) + " of " + Digits(totalRows);
      var of := |Digits(firstRow)|;
      IndexOf(rowText, " of ") == of &&
      ParseInt(Trim(rowText[..of])) == Ok(firstRow) && ParseInt(Trim(rowText[of + 4..])) == Ok(totalRows)
  {
    var first := Digits(firstRow);
    var total := Digits(totalRows);
    var rowText := first + " of " + total;
    OfMarker(first, total);
    assert rowText[..|first|] == first;
    assert rowText[|first| + 4..] == total;
    TrimDigits(first);
    TrimDigits(total);
    ParseDecimal(firstRow);
    ParseDecimal(totalRows);
  }

  /** The header parse reads back the location and the row count a header
      line shows. */
  lemma HeaderLineRoundTrip(location: string, firstRow: nat, totalRows: nat)
    requires Trimmed(location) && IndexOf(location + " ", "Row ") == -1
    requires IsInt32(firstRow) && IsInt32(totalRows)
    ensures StartsWith(HeaderLine(location, firstRow, totalRows), DSLIST_TITLE)
    ensures DslistHeader(HeaderLine(location, firstRow, totalRows)) ==
      Ok(LocationHeader(location, Wrap32(totalRows - firstRow + 1)))
  {
    var rowText := Digits(firstRow) + " of " + Digits(totalRows);
    var text := HeaderLine(location, firstRow, totalRows);
    assert text == DSLIST_TITLE + location + " Row " + rowText;
    HeaderLineMarkers(location, rowText);
    RowTextNumbers(firstRow, totalRows);
    DslistHeaderOf(text, location, rowText, firstRow, totalRows);
  }

  // ---------------------------------------------------------------------------
  // checkDatasetList: the layout of the list and its rows

  /** The five layouts of a DSLIST panel: space, disposition or volume
      columns one line per data set, or all attributes over three lines
      (two when the list is of one volume). */
  datatype ListKind = Space | Disposition | Volume | Full | OnVolume

  /** How a data set list is read: its layout, the screen rows per data set,
      the first row, and the number of data sets to read. */
  datatype Layout = Layout(kind: ListKind, linesPerDataset: nat, firstLine: nat, toProcess: int)

  /** The most data sets one screen of a layout holds. */
  function ScreenCapacity(kind: ListKind): nat
  {
    match kind
    case Space => 17
    case Disposition => 17
    case Volume => 17
    case Full => 4
    case OnVolume => 6
  }

  /** The layout of a data set list, from the fields on rows 5 and 6: the
      command line and the column headings. None when the panel is not a
      list the scraper knows. At most a screenful of the rows the header
      counts is read. */
  function ListLayout(headings: seq<Field>, onVolume: string, maxRows: int): (r: Option<Layout>)
    ensures r.Some? ==> |headings| > 0 && StartsWith(headings[0].text, "Command - Enter")
    ensures r.Some? ==> r.value.toProcess == Min(maxRows, ScreenCapacity(r.value.kind))
    ensures r.Some? ==> 1 <= r.value.linesPerDataset <= 3
    ensures r.Some? && r.value.kind == OnVolume ==> onVolume != ""
    ensures r.Some? && r.value.kind == Full ==> onVolume == ""
  {
    if |headings| == 0 || !StartsWith(headings[0].text, "Command - Enter") then None
    else if |headings| == 3 then
      var heading := Trim(headings[1].text);
      if StartsWith(heading, "Tracks") then Some(Layout(Space, 1, 7, Min(maxRows, 17)))
      else if StartsWith(heading, "Dsorg") then Some(Layout(Disposition, 1, 7, Min(maxRows, 17)))
      else None
    else if |headings| == 4 then
      if Trim(headings[2].text) == "Volume" then Some(Layout(Volume, 1, 7, Min(maxRows, 17))) else None
    else if |headings| == 6 then
      if onVolume != "" then Some(Layout(OnVolume, 2, 8, Min(maxRows, 6)))
      else Some(Layout(Full, 3, 9, Min(maxRows, 4)))
    else None
  }

  /** The data sets read so far, and the exception that stopped the reading,
      if one did. */
  datatype Scraped = Scraped(datasets: seq<Dataset>, thrown: Option<Failure>)

  function Single(p: Parsed): Scraped
  {
    Scraped([p.dataset], p.thrown)
  }

  /** setSpace1, setDisposition1 and setDates one after the other, stopping at
      the first exception. */
  function SpaceDispositionDates(d: Dataset, space: string, disposition: string, dates: string): (r: Parsed)
    ensures r.dataset.name == d.name
  {
    var p1 := SetSpace1(d, space);
    if p1.thrown.Some? then p1
    else
      var p2 := SetDisposition1(p1.dataset, disposition);
      if p2.thrown.Some? then p2
      else SetDates(p2.dataset, dates)
  }

  /** One data set read from the fields of its screen rows. The data set goes
      into the list as soon as it is created, and the setters that follow
      update it there, so an exception leaves it in the list as far as it was
      filled in. A row of the wrong shape adds nothing, except in the volume
      layouts, which index the row without checking its size. */
  function ScrapeRow(kind: ListKind, row: seq<Field>): (r: Scraped)
    ensures |r.datasets| <= 1
    ensures r.datasets != [] ==> |row| > 0 && r.datasets[0].name == Trim(row[0].text)
    ensures r.thrown.Some? && kind == Volume ==> |row| < 3
    ensures r.thrown.None? && (kind == Volume || kind == OnVolume) ==> |r.datasets| == 1
  {
    match kind
    case Space =>
      if |row| != 2 then Scraped([], None)
      else Single(SetSpace2(NewDataset(Trim(row[0].text)), row[1].text))
    case Disposition =>
      if |row| != 2 then Scraped([], None)
      else Single(SetDisposition2(NewDataset(Trim(row[0].text)), row[1].text))
    case Volume =>
      if |row| == 0 then Scraped([], Some(IndexOutOfBounds))
      else
        var d := NewDataset(Trim(row[0].text));
        if |row| < 3 then Scraped([d], Some(IndexOutOfBounds))
        else Scraped([d.(volume := Trim(row[2].text))], None)
    case Full =>
      if |row| != 7 then Scraped([], None)
      else
        var d := NewDataset(Trim(row[0].text)).(volume := Trim(row[2].text));
        var p := SpaceDispositionDates(d, row[3].text, row[4].text, row[5].text);
        if p.thrown.Some? then Single(p)
        else Scraped([p.dataset.(catalog := Trim(row[6].text))], None)
    case OnVolume =>
      if |row| == 0 then Scraped([], Some(IndexOutOfBounds))
      else
        var d := NewDataset(Trim(row[0].text));
        if |row| < 3 then Scraped([d], Some(IndexOutOfBounds))
        else
          var d' := d.(volume := Trim(row[2].text));
          if |row| >= 6 then Single(SpaceDispositionDates(d', row[3].text, row[4].text, row[5].text))
          else Scraped([d'], None)
  }

  /** The screen rows the next data set starts after: its own rows, and the
      row of hyphens the two full layouts put under a data set they read. */
  function NextLine(kind: ListKind, linesPerDataset: nat, row: seq<Field>, line: int): (next: int)
    ensures next - line == if (kind == Full && |row| == 7) || kind == OnVolume then linesPerDataset + 1 else linesPerDataset
  {
    if (kind == Full && |row| == 7) || kind == OnVolume then line + linesPerDataset + 1 else line + linesPerDataset
  }

  /** The loop of checkDatasetList: count data sets from screen row nextLine
      on, stopping at the first exception. It reads no more data sets than it
      is asked for; in the volume layouts, where every row read gives a data
      set, it reads exactly that many unless an exception stops it. */
  function ScrapeRows(fs: seq<Field>, columns: Columns, kind: ListKind, linesPerDataset: nat,
                      nextLine: int, count: int): (r: Scraped)
    ensures |r.datasets| <= if count > 0 then count else 0
    decreases count
  {
    if count <= 0 then Scraped([], None)
    else
      var row := RowFields(fs, columns, nextLine, linesPerDataset);
      var step := ScrapeRow(kind, row);
      if step.thrown.Some? then step
      else
        var rest := ScrapeRows(fs, columns, kind, linesPerDataset,
                               NextLine(kind, linesPerDataset, row, nextLine), count - 1);
        Scraped(step.datasets + rest.datasets, rest.thrown)
  }

  /** One turn of the loop of checkDatasetList. */
  lemma {:induction false} ScrapeRowsStep(fs: seq<Field>, columns: Columns, kind: ListKind, linesPerDataset: nat,
                                          nextLine: int, count: int)
    requires count > 0
    ensures var row := RowFields(fs, columns, nextLine, linesPerDataset);
      var step := ScrapeRow(kind, row);
      var rest := ScrapeRows(fs, columns, kind, linesPerDataset, NextLine(kind, linesPerDataset, row, nextLine), count - 1);
      ScrapeRows(fs, columns, kind, linesPerDataset, nextLine, count) ==
        if step.thrown.Some? then step else Scraped(step.datasets + rest.datasets, rest.thrown)
  {
  }

  /** total is what was added so far followed by what rest reads. */
  predicate Splits(total: Scraped, added: seq<Dataset>, rest: Scraped)
  {
    total == Scraped(added + rest.datasets, rest.thrown)
  }

  /** The bookkeeping of a reading loop: when the items added so far and
      those still to come make up total, and the next step either throws or
      is followed by rest, then the items added after the step, and those of
      rest if it did not throw, make up total too. */
  lemma Regroup(total: Scraped, added: seq<Dataset>, step: Scraped, rest: Scraped, remaining: Scraped)
    requires remaining == if step.thrown.Some? then step else Scraped(step.datasets + rest.datasets, rest.thrown)
    requires Splits(total, added, remaining)
    ensures step.thrown.Some? ==> total == Scraped(added + step.datasets, step.thrown)
    ensures step.thrown.None? ==> Splits(total, added + step.datasets, rest)
  {
    assert added + (step.datasets + rest.datasets) == (added + step.datasets) + rest.datasets;
  }

  /** The loop of checkDatasetList keeps its invariant: the data sets added
      so far and those read from row line on make up the whole list. */
  lemma ScrapeRowsAdvance(fs: seq<Field>, columns: Columns, kind: ListKind, linesPerDataset: nat,
                          nextLine: int, count: int, line: int, n: int, added: seq<Dataset>)
    requires n > 0
    requires Splits(ScrapeRows(fs, columns, kind, linesPerDataset, nextLine, count), added,
                    ScrapeRows(fs, columns, kind, linesPerDataset, line, n))
    ensures var step := ScrapeRow(kind, RowFields(fs, columns, line, linesPerDataset));
      step.thrown.Some? ==>
      ScrapeRows(fs, columns, kind, linesPerDataset, nextLine, count) == Scraped(added + step.datasets, step.thrown)
    ensures var row := RowFields(fs, columns, line, linesPerDataset);
      var step := ScrapeRow(kind, row);
      step.thrown.None? ==>
      Splits(ScrapeRows(fs, columns, kind, linesPerDataset, nextLine, count), added + step.datasets,
             ScrapeRows(fs, columns, kind, linesPerDataset, NextLine(kind, linesPerDataset, row, line), n - 1))
  {
    var row := RowFields(fs, columns, line, linesPerDataset);
    var rest := ScrapeRows(fs, columns, kind, linesPerDataset, NextLine(kind, linesPerDataset, row, line), n - 1);
    ScrapeRowsStep(fs, columns, kind, linesPerDataset, line, n);
    Regroup(ScrapeRows(fs, columns, kind, linesPerDataset, nextLine, count), added, ScrapeRow(kind, row), rest,
            ScrapeRows(fs, columns, kind, linesPerDataset, line, n));
  }

  /** In the two volume layouts every row read gives a data set, so unless an
      exception stops it, the loop of checkDatasetList reads exactly as many
      data sets as it is asked for. */
  lemma {:induction false} VolumeRowsComplete(fs: seq<Field>, columns: Columns, kind: ListKind, linesPerDataset: nat,
                                              nextLine: int, count: int)
    requires kind == Volume || kind == OnVolume
    ensures var r := ScrapeRows(fs, columns, kind, linesPerDataset, nextLine, count);
      r.thrown.None? ==> |r.datasets| == if count > 0 then count else 0
    decreases count
  {
    var r := ScrapeRows(fs, columns, kind, linesPerDataset, nextLine, count);
    if count <= 0 {
      assert r == Scraped([], None);
    } else {
      var row := RowFields(fs, columns, nextLine, linesPerDataset);
      var step := ScrapeRow(kind, row);
      var next := NextLine(kind, linesPerDataset, row, nextLine);
      var rest := ScrapeRows(fs, columns, kind, linesPerDataset, next, count - 1);
      ScrapeRowsStep(fs, columns, kind, linesPerDataset, nextLine, count);
      VolumeRowsComplete(fs, columns, kind, linesPerDataset, next, count - 1);
      if r.thrown.None? {
        assert step.thrown.None? && r == Scraped(step.datasets + rest.datasets, rest.thrown);
        assert |step.datasets| == 1;
        assert rest.thrown.None?;
        assert |rest.datasets| == if count - 1 > 0 then count - 1 else 0;
        assert |rest.datasets| == count - 1;
        assert |r.datasets| == |step.datasets| + |rest.datasets|;
      }
    }
  }

  /** What checkDatasetList finds: whether the screen is a data set list, the
      volume or pattern its header names, the data sets read, and the
      exception that stopped it, if any. */
  datatype ListScan = ListScan(isList: bool, onVolume: string, matching: string,
                               datasets: seq<Dataset>, thrown: Option<Failure>)

  /** checkDatasetList: a screen of at least 21 fields whose rows 2 and 3
      start with a DSLIST title, and whose rows 5 and 6 show a layout it
      knows. The volume and pattern are reset first. Only a data set list
      yields data sets, at most a screenful of them. */
  function DatasetList(fs: seq<Field>, columns: Columns): (r: ListScan)
    ensures r.isList ==> r.thrown.None?
    ensures !r.isList && r.thrown.None? ==> r.datasets == []
    ensures r.datasets != [] ==> |fs| >= 21
    ensures |r.datasets| <= 17
    ensures r.onVolume == "" || r.matching == ""
  {
    if |fs| < 21 then ListScan(false, "", "", [], None)
    else
      var title := RowFields(fs, columns, 2, 2);
      if |title| == 0 || !StartsWith(title[0].text, DSLIST_TITLE) then ListScan(false, "", "", [], None)
      else
        match DslistHeader(title[0].text)
        case Err(e) => ListScan(false, "", "", [], Some(e))
        case Ok(h) =>
          match ListLayout(RowFields(fs, columns, 5, 2), h.onVolume, h.maxRows)
          case None => ListScan(false, h.onVolume, h.matching, [], None)
          case Some(layout) =>
            var s := ScrapeRows(fs, columns, layout.kind, layout.linesPerDataset, layout.firstLine, layout.toProcess);
            ListScan(s.thrown.None?, h.onVolume, h.matching, s.datasets, s.thrown)
  }

  // ---------------------------------------------------------------------------
  // checkMemberList

  /** What the heading of a member list says: the data set, the rows shown
      and the number of column headings on row 4. */
  datatype MemberHeader = MemberHeader(datasetName: string, rowFrom: int, rowTo: int, headings: nat)

  /** The member-list tests of checkMemberList: at least 14 fields, the menu
      bar of a partitioned data set, the mode at address 161, the data set
      name at 179, "Row" at 221 and "of" at 231. The row numbers in fields 11
      and 13 must parse, or NumberFormatException is thrown. */
  function MemberListHeader(fs: seq<Field>, columns: Columns): (r: Result<Option<MemberHeader>>)
    ensures r.Err? ==> r.failure == NumberFormat
    ensures r.Ok? && r.value.Some? ==>
      |fs| >= 14 && Menus(fs, columns) == PDS_MENUS && r.value.value.datasetName == Trim(fs[9].text)
  {
    if |fs| < 14 || Menus(fs, columns) != PDS_MENUS then Ok(None)
    else if fs[8].firstLocation != 161 || fs[9].firstLocation != 179 then Ok(None)
    else if fs[10].firstLocation != 221 || Trim(fs[10].text) != "Row" then Ok(None)
    else if fs[12].firstLocation != 231 || Trim(fs[12].text) != "of" then Ok(None)
    else
      var rowFrom :- ParseInt(Trim(fs[11].text));
      var rowTo :- ParseInt(Trim(fs[13].text));
      Ok(Some(MemberHeader(Trim(fs[9].text), rowFrom, rowTo, |FieldsOnRow(fs, columns, 4)|)))
  }

  /** The screen row after the last member row: five heading rows, then as
      many rows as the heading counts (in int arithmetic), at most 19. */
  function MemberRowsEnd(h: MemberHeader): (end: int)
    ensures end <= 24
  {
    Min(19, Wrap32(h.rowTo - h.rowFrom + 1)) + 5
  }

  /** The name checkMemberList gives a member: the data set name with the
      member name in parentheses. */
  function MemberName(datasetName: string, memberName: string): string
  {
    datasetName + "(" + memberName + ")"
  }

  /** A member name starts with the data set name and an opening parenthesis,
      ends with a closing one, and holds the member name in between, so both
      names can be read back from it. */
  lemma MemberNameParts(datasetName: string, memberName: string)
    ensures var name := MemberName(datasetName, memberName);
      StartsWith(name, datasetName + "(") && name[|name| - 1] == ')' &&
      name[|datasetName| + 1..|name| - 1] == memberName
  {
    var name := MemberName(datasetName, memberName);
    assert name[..|datasetName| + 1] == datasetName + "(";
    assert name[|datasetName| + 1..|name| - 1] == memberName;
  }

  /** One member read from the fields of its row: the member name in field
      1 and the statistics in field 3. With seven column headings the created
      and changed dates are taken untrimmed from columns 11-20 and 23-32; with
      seven or thirteen headings a statistics text shorter than 44 throws. The
      member is in the list before anything can throw. */
  function ScrapeMember(row: seq<Field>, datasetName: string, headings: nat): (r: Scraped)
    ensures |r.datasets| <= 1
    ensures r.datasets != [] ==>
      |row| >= 2 && r.datasets[0].name == MemberName(datasetName, Trim(row[1].text))
    ensures r.thrown.None? ==> |r.datasets| == 1
  {
    if |row| < 2 then Scraped([], Some(IndexOutOfBounds))
    else
      var member := NewDataset(MemberName(datasetName, Trim(row[1].text)));
      if |row| < 4 then Scraped([member], Some(IndexOutOfBounds))
      else
        var details := row[3].text;
        if headings != 7 && headings != 13 then Scraped([member], None)
        else if |details| < 44 then Scraped([member], Some(StringIndexOutOfBounds))
        else if headings == 7 then Scraped([member.(created := details[11..21], referred := details[23..33])], None)
        else Scraped([member], None)
  }

  /** The loop of checkMemberList over screen rows row .. end - 1, stopping at
      the first exception. */
  function ScrapeMembers(fs: seq<Field>, columns: Columns, h: MemberHeader, row: int, end: int): (r: Scraped)
    ensures |r.datasets| <= if row < end then end - row else 0
    decreases end - row
  {
    if row >= end then Scraped([], None)
    else
      var step := ScrapeMember(FieldsOnRow(fs, columns, row), h.datasetName, h.headings);
      if step.thrown.Some? then step
      else
        var rest := ScrapeMembers(fs, columns, h, row + 1, end);
        Scraped(step.datasets + rest.datasets, rest.thrown)
  }

  /** The member loop reads at most one member per row, and exactly one
      per row when nothing throws. */
  lemma {:induction false} ScrapeMembersCount(fs: seq<Field>, columns: Columns, h: MemberHeader, row: int, end: int)
    ensures var r := ScrapeMembers(fs, columns, h, row, end);
      |r.datasets| <= (if row < end then end - row else 0) &&
      (r.thrown.None? ==> |r.datasets| == if row < end then end - row else 0)
    decreases end - row
  {
    if row < end {
      ScrapeMembersCount(fs, columns, h, row + 1, end);
    }
  }

  /** Every data set of ds is named with the given prefix. */
  predicate NamedAfter(ds: seq<Dataset>, prefix: string)
  {
    forall i :: 0 <= i < |ds| ==> StartsWith(ds[i].name, prefix)
  }

  lemma NamedAfterAppend(a: seq<Dataset>, b: seq<Dataset>, prefix: string)
    requires NamedAfter(a, prefix) && NamedAfter(b, prefix)
    ensures NamedAfter(a + b, prefix)
  {
    forall i | 0 <= i < |a + b|
      ensures StartsWith((a + b)[i].name, prefix)
    {
      if i >= |a| {
        assert (a + b)[i] == b[i - |a|];
      }
    }
  }

  /** The member read from one row is named after the data set. */
  lemma MemberNamedAfter(row: seq<Field>, datasetName: string, headings: nat)
    ensures NamedAfter(ScrapeMember(row, datasetName, headings).datasets, datasetName + "(")
  {
    var step := ScrapeMember(row, datasetName, headings);
    if step.datasets != [] {
      MemberNameParts(datasetName, Trim(row[1].text));
    }
  }

  /** Every member the loop of checkMemberList reads is named after the data
      set of the list. */
  lemma {:induction false} ScrapedMembersNamed(fs: seq<Field>, columns: Columns, h: MemberHeader, row: int, end: int)
    ensures NamedAfter(ScrapeMembers(fs, columns, h, row, end).datasets, h.datasetName + "(")
    decreases end - row
  {
    if row < end {
      var step := ScrapeMember(FieldsOnRow(fs, columns, row), h.datasetName, h.headings);
      var rest := ScrapeMembers(fs, columns, h, row + 1, end);
      MemberNamedAfter(FieldsOnRow(fs, columns, row), h.datasetName, h.headings);
      if step.thrown.None? {
        ScrapedMembersNamed(fs, columns, h, row + 1, end);
        NamedAfterAppend(step.datasets, rest.datasets, h.datasetName + "(");
      }
    }
  }

  /** The loop of checkMemberList keeps its invariant: the members added so
      far and those read from row on make up the whole list. */
  lemma ScrapeMembersAdvance(fs: seq<Field>, columns: Columns, h: MemberHeader, first: int, row: int, end: int,
                             added: seq<Dataset>)
    requires row < end
    requires Splits(ScrapeMembers(fs, columns, h, first, end), added, ScrapeMembers(fs, columns, h, row, end))
    ensures var step := ScrapeMember(FieldsOnRow(fs, columns, row), h.datasetName, h.headings);
      step.thrown.Some? ==> ScrapeMembers(fs, columns, h, first, end) == Scraped(added + step.datasets, step.thrown)
    ensures var step := ScrapeMember(FieldsOnRow(fs, columns, row), h.datasetName, h.headings);
      step.thrown.None? ==>
      Splits(ScrapeMembers(fs, columns, h, first, end), added + step.datasets, ScrapeMembers(fs, columns, h, row + 1, end))
  {
    var step := ScrapeMember(FieldsOnRow(fs, columns, row), h.datasetName, h.headings);
    var rest := ScrapeMembers(fs, columns, h, row + 1, end);
    assert ScrapeMembers(fs, columns, h, row, end) ==
      if step.thrown.Some? then step else Scraped(step.datasets + rest.datasets, rest.thrown);
    Regroup(ScrapeMembers(fs, columns, h, first, end), added, step, rest, ScrapeMembers(fs, columns, h, row, end));
  }

  /** What checkMemberList finds: whether the screen is a member list, the
      members read, and the exception that stopped it, if any. */
  datatype MemberScan = MemberScan(isList: bool, members: seq<Dataset>, thrown: Option<Failure>)

  /** checkMemberList: the members on rows 5 on of a member list, at most 19,
      each named after the data set. */
  function MemberList(fs: seq<Field>, columns: Columns): (r: MemberScan)
    ensures r.isList ==> r.thrown.None?
    ensures !r.isList && r.thrown.None? ==> r.members == []
    ensures |r.members| <= 19
    ensures r.members != [] ==> |fs| >= 14
  {
    match MemberListHeader(fs, columns)
    case Err(e) => MemberScan(false, [], Some(e))
    case Ok(None) => MemberScan(false, [], None)
    case Ok(Some(h)) =>
      var s := ScrapeMembers(fs, columns, h, 5, MemberRowsEnd(h));
      ScrapeMembersCount(fs, columns, h, 5, MemberRowsEnd(h));
      MemberScan(s.thrown.None?, s.datasets, s.thrown)
  }

  /** Every member of a member list is named after the data set in field 9,
      with the member name in parentheses. */
  lemma MemberListNamed(fs: seq<Field>, columns: Columns)
    ensures var r := MemberList(fs, columns);
      r.members != [] ==> NamedAfter(r.members, Trim(fs[9].text) + "(")
  {
    var header := MemberListHeader(fs, columns);
    if header.Ok? && header.value.Some? {
      var h := header.value.value;
      ScrapedMembersNamed(fs, columns, h, 5, MemberRowsEnd(h));
    }
  }

  // ---------------------------------------------------------------------------
  // check

  /** What ScreenDetails knows about the current screen. */
  datatype Details = Details(
    fields: seq<Field>,
    datasets: seq<Dataset>,
    members: seq<Dataset>,
    datasetsMatching: string,
    datasetsOnVolume: string,
    tsoCommandField: Option<Field>,
    isTsoCommandScreen: bool,
    isDatasetList: bool,
    isMemberList: bool,
    currentDataset: string,
    userid: string,
    prefix: string)

  /** The details after a check, and the exception that cut it short, if
      any. */
  datatype Checked = Checked(details: Details, thrown: Option<Failure>)

  /** The open data set after checkEditOrViewDataset and, when that leaves
      it empty, checkBrowseDataset: the one an edit or view panel shows, else
      the current one if any, else the one a browse panel shows. */
  function OpenDataset(fs: seq<Field>, current: string): (name: string)
    ensures EditOrViewDatasetName(fs).Some? ==> name == EditOrViewDatasetName(fs).value
    ensures EditOrViewDatasetName(fs).None? && current != "" ==> name == current
  {
    var afterEdit := match EditOrViewDatasetName(fs)
                     case Some(name) => name
                     case None => current;
    if afterEdit != "" then afterEdit
    else match BrowseDatasetName(fs)
         case Some(name) => name
         case None => afterEdit
  }

  /** The first steps of check on a screen with a command prompt: the
      command shell is recognised, the user id and prefix are read from a
      primary option menu until a prefix is known, and the open data set is
      forgotten. */
  function Identified(columns: Columns, d: Details): (r: Details)
    ensures r == d.(isTsoCommandScreen := r.isTsoCommandScreen, userid := r.userid, prefix := r.prefix,
                    currentDataset := "")
    ensures r.isTsoCommandScreen == IsTsoCommandScreen(d.fields, columns)
    ensures d.prefix != "" ==> r.prefix == d.prefix && r.userid == d.userid
  {
    var ids := if d.prefix == "" then PrefixScreen(d.fields, Ids(d.userid, d.prefix)) else Ids(d.userid, d.prefix);
    d.(isTsoCommandScreen := IsTsoCommandScreen(d.fields, columns),
       userid := ids.userid, prefix := ids.prefix, currentDataset := "")
  }

  /** The panels of check that are not a data set list: the open data set
      of an edit, view or browse panel, then the members of a member list,
      added to those d holds. */
  function PanelRead(columns: Columns, d: Details): (r: Checked)
    ensures r.details == d.(currentDataset := r.details.currentDataset, members := r.details.members,
                            isMemberList := r.details.isMemberList)
    ensures r.details.currentDataset == OpenDataset(d.fields, d.currentDataset)
    ensures r.details.members == d.members + MemberList(d.fields, columns).members
  {
    var m := MemberList(d.fields, columns);
    var examined := d.(currentDataset := OpenDataset(d.fields, d.currentDataset), members := d.members + m.members);
    if m.thrown.Some? then Checked(examined, m.thrown)
    else Checked(examined.(isMemberList := m.isList), None)
  }

  /** The lists of check: the data sets of a data set list, added to those d
      holds, or else the panel as PanelRead reads it. */
  function ListsRead(columns: Columns, d: Details): (r: Checked)
    ensures r.details.fields == d.fields && r.details.tsoCommandField == d.tsoCommandField
    ensures r.details.isTsoCommandScreen == d.isTsoCommandScreen
    ensures r.details.prefix == d.prefix && r.details.userid == d.userid
    ensures r.details.datasets == d.datasets + DatasetList(d.fields, columns).datasets
    ensures r.details.datasets == d.datasets || r.details.members == d.members
  {
    var list := DatasetList(d.fields, columns);
    var listed := d.(datasetsOnVolume := list.onVolume, datasetsMatching := list.matching,
                     datasets := d.datasets + list.datasets);
    if list.thrown.Some? then Checked(listed, list.thrown)
    else if list.isList then Checked(listed.(isDatasetList := true), None)
    else
      assert list.datasets == [] && listed.datasets == d.datasets;
      PanelRead(columns, listed.(isDatasetList := false))
  }

  /** ScreenDetails.check on a new field list. The command field, the
      command-shell flag and both lists are cleared first. Only a screen of
      more than two fields with a command prompt on rows 2 and 3 is looked at
      further: it is identified, then read for its lists. An exception from
      the list readers ends the check with the details as far as they got. */
  function CheckScreen(columns: Columns, d: Details, fs: seq<Field>): (r: Checked)
    ensures r.details.fields == fs
  {
    var cleared := d.(fields := fs, tsoCommandField := None, isTsoCommandScreen := false,
                      datasets := [], members := []);
    if |fs| <= 2 then Checked(cleared, None)
    else
      var command := CommandField(RowFields(fs, columns, 2, 2), columns);
      if command.None? then Checked(cleared, None)
      else ListsRead(columns, Identified(columns, cleared.(tsoCommandField := command)))
  }

  /** What a check leaves behind: the new fields; the command field of rows 2
      and 3; the command-shell flag only with a command field and on a
      command shell; a known prefix and user id kept; the open data set
      changed only on a screen with a command field; never both a data set
      list and a member list, at most 17 data sets and 19 members; and data
      sets only on a screen with a command field and at least 21 fields. */
  lemma CheckScreenFacts(columns: Columns, d: Details, fs: seq<Field>)
    ensures var r := CheckScreen(columns, d, fs);
      r.details.fields == fs &&
      r.details.tsoCommandField == (if |fs| <= 2 then None else CommandField(RowFields(fs, columns, 2, 2), columns)) &&
      (r.details.isTsoCommandScreen ==> r.details.tsoCommandField.Some? && IsTsoCommandScreen(fs, columns)) &&
      (d.prefix != "" ==> r.details.prefix == d.prefix && r.details.userid == d.userid) &&
      (r.details.currentDataset != d.currentDataset ==> r.details.tsoCommandField.Some?) &&
      (r.details.datasets == [] || r.details.members == []) &&
      |r.details.datasets| <= 17 && |r.details.members| <= 19 &&
      (r.details.datasets != [] ==> r.details.tsoCommandField.Some? && |fs| >= 21)
  {
    var cleared := d.(fields := fs, tsoCommandField := None, isTsoCommandScreen := false,
                      datasets := [], members := []);
    if |fs| > 2 {
      var command := CommandField(RowFields(fs, columns, 2, 2), columns);
      if command.Some? {
        ListsReadBounds(columns, Identified(columns, cleared.(tsoCommandField := command)));
      }
    }
  }

  /** Reading the lists of a screen into empty lists gives never both kinds,
      at most 17 data sets and 19 members, and data sets only from a screen of
      at least 21 fields. */
  lemma ListsReadBounds(columns: Columns, d: Details)
    requires d.datasets == [] && d.members == []
    ensures var r := ListsRead(columns, d);
      (r.details.datasets == [] || r.details.members == []) &&
      |r.details.datasets| <= 17 && |r.details.members| <= 19 &&
      (r.details.datasets != [] ==> |d.fields| >= 21)
  {
    var list := DatasetList(d.fields, columns);
    assert [] + list.datasets == list.datasets;
    if list.thrown.None? && !list.isList {
      var m := MemberList(d.fields, columns);
      assert [] + m.members == m.members;
    }
  }

  /** A screen of at most two fields changes nothing but what check clears
      first. */
  lemma FewFieldsOnlyClear(columns: Columns, d: Details, fs: seq<Field>)
    requires |fs| <= 2
    ensures var r := CheckScreen(columns, d, fs);
      r.thrown.None? && r.details.tsoCommandField.None? && !r.details.isTsoCommandScreen &&
      r.details.datasets == [] && r.details.members == [] &&
      r.details.isDatasetList == d.isDatasetList && r.details.isMemberList == d.isMemberList &&
      r.details.currentDataset == d.currentDataset && r.details.userid == d.userid &&
      r.details.prefix == d.prefix && r.details.datasetsMatching == d.datasetsMatching &&
      r.details.datasetsOnVolume == d.datasetsOnVolume
  {
  }
}
