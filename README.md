# dm3270 screen details and file transfer, in Dafny

This project models two parts of the dm3270 TN3270 terminal emulator and
proves properties of them.

- **The file-transfer session** (`Transfer.java`). An IND$FILE transfer has
  three parts:
  - the transfer type and contents, taken from the first outbound structured
    field that supplies them;
  - a list of data records with no duplicates, and its running byte count;
  - an upload slicer that hands out an inbound buffer in chunks of at most
    2048 bytes.

  A download is reassembled by packing the stored records back to back. The
  class `FileTransfer.Transfer` keeps the fields of the Java object. Its
  invariant `Valid()` says three things:
  - the byte count equals the size of the stored records;
  - no record is stored twice;
  - the upload cursor sits on a chunk boundary, with the chunks handed out so
    far followed by the chunks left being the chunking of the whole buffer.

- **The screen details** (`ScreenDetails.java`). Each time the screen
  changes, `check` reads the field list and records what kind of ISPF screen
  it shows:
  - the TSO command field behind a `Command ===>` or `Option ===>` prompt;
  - whether the screen is the ISPF command shell;
  - the user id and TSO prefix from the primary option menu;
  - the data set open in an edit, view or browse panel;
  - the data sets of a DSLIST panel: the header, five list layouts, and the
    fixed-column detail parsers `setSpace1/2`, `setDisposition1/2` and
    `setDates`;
  - the members of a member list.

  The class `Screens.ScreenDetails` keeps the fields of the Java object. Each
  of its methods is proved against a function on the field list. These
  functions are in `ScreenFields` (the range scan, the menu bar, the prompt),
  `ScreenPanels` (the panel recognisers, the list readers and `CheckScreen`)
  and `DatasetColumns` (the column parsers). Lemmas relate each function to a
  reference definition, an inverse (a line or panel built from values and
  read back), or an invariant.

Java's unchecked exceptions have explicit models:
- `IndexOutOfBoundsException` from `List.get`;
- `StringIndexOutOfBoundsException` from `substring`;
- `NumberFormatException` from `Integer.parseInt`.

An exception that escapes `check` is returned as `thrown`, together with the
state as far as it got. `JavaLang` models the library behaviour the code
relies on: `trim`, `indexOf`, `startsWith`, `parseInt`, 32-bit wrap-around
and `String.format("%,7d")`.

## Model

| member | source | states |
|---|---|---|
| FileTransfer.Transfer.constructor | src/com/bytezone/dm3270/filetransfer/Transfer.java:36-39 | a new session has seen one structured field, latches its type and contents, and holds no data and no buffer |
| FileTransfer.Transfer.AddOutbound | src/com/bytezone/dm3270/filetransfer/Transfer.java:43-51 | the field is appended; type and contents are set only while unset; a download-data session stays one; nothing else changes; the invariant is kept |
| FileTransfer.FirstContentsAppend | src/com/bytezone/dm3270/filetransfer/Transfer.java:47-48 | a field added last decides the contents only when no earlier field set them, so the latched contents are always those of the first field that sets any |
| FileTransfer.FirstTypeAppend | src/com/bytezone/dm3270/filetransfer/Transfer.java:49-50 | a field added last decides the direction only when no earlier field set it, so the latched direction is always that of the first field that sets one |
| FileTransfer.Transfer.AddDataRecord | src/com/bytezone/dm3270/filetransfer/Transfer.java:54-63 | a record already stored changes nothing, and the 1-based position of its first copy is returned; a new record is appended, counted in dataLength, and its position (the list size) returned; no duplicates ever |
| FileTransfer.Transfer.CombineDataBuffers | src/com/bytezone/dm3270/filetransfer/Transfer.java:72-85 | a fresh array of dataLength bytes holding the stored records' bytes back to back, in storing order |
| FileTransfer.Transfer.IsDownloadData | src/com/bytezone/dm3270/filetransfer/Transfer.java:65-69 | in a valid session, true exactly when the first contents any structured field supplied are DATA and the first direction any supplied is DOWNLOAD |
| FileTransfer.PackBuffer | src/com/bytezone/dm3270/filetransfer/Transfer.java:79 | the record's bytes are copied at ptr and the position after them is returned; the rest of the array is unchanged |
| FileTransfer.Transfer.SetTransferBuffer | src/com/bytezone/dm3270/filetransfer/Transfer.java:88-92 | the buffer becomes the upload source with the cursor at 0, and all of it is left to send |
| FileTransfer.Transfer.GetDataHeader | src/com/bytezone/dm3270/filetransfer/Transfer.java:94-105 | the next min(2048, bytes left) bytes at the cursor, i.e. the first chunk of what is left; the cursor moves past them; the record is stored as add does; the structured fields, header values, transfer command and buffer are unchanged; the chunk-boundary invariant is kept |
| FileTransfer.Transfer.Size | src/com/bytezone/dm3270/filetransfer/Transfer.java:107-110 | the number of stored records |
| FileTransfer.Transfer.HasMoreData | src/com/bytezone/dm3270/filetransfer/Transfer.java:127-130 | true exactly when a buffer is set and the cursor is before its end |
| FileTransfer.Transfer.GetBytesLeft | src/com/bytezone/dm3270/filetransfer/Transfer.java:132-137 | 0 without a buffer, else the buffer length minus the cursor, which is the size of the bytes of all chunks still to be sent |
| FileTransfer.Transfer.SetTransferCommand | src/com/bytezone/dm3270/filetransfer/Transfer.java:139-142 | the command is stored |
| FileTransfer.Transfer.GetFileName | src/com/bytezone/dm3270/filetransfer/Transfer.java:144-147 | the file name of the stored command |
| FileTransfer.Transfer.HasTlq | src/com/bytezone/dm3270/filetransfer/Transfer.java:149-152 | the TLQ flag of the stored command |
| FileTransfer.ChunkSizes | src/com/bytezone/dm3270/filetransfer/Transfer.java:94-105 | every chunk the slicer hands out has 1 to 2048 bytes, all but the last exactly 2048, and a buffer of n bytes gives n/2048 chunks rounded up |
| FileTransfer.ChunksRoundTrip | src/com/bytezone/dm3270/filetransfer/Transfer.java:94-105 | the chunks joined in order are the buffer |
| FileTransfer.NextChunk | src/com/bytezone/dm3270/filetransfer/Transfer.java:98-101 | the slice getDataHeader cuts is the first chunk of the rest, and sent chunks plus remaining chunks still make the whole chunking |
| FileTransfer.UploadRoundTrip | src/com/bytezone/dm3270/filetransfer/Transfer.java:94-137 | once hasMoreData is false, the chunks handed out are the chunking of the buffer and join back into it |
| JavaLang.Get | src/com/bytezone/dm3270/display/ScreenDetails.java:180 | List.get gives the element inside the list and IndexOutOfBoundsException exactly outside it |
| JavaLang.TrimShape | src/com/bytezone/dm3270/display/ScreenDetails.java:172 | trim gives the part of the string between its leading and its trailing white space (all that precedes and all that follows it is white space), empty exactly when the string is blank, otherwise with non-blank ends |
| JavaLang.TrimIdempotent | src/com/bytezone/dm3270/display/ScreenDetails.java:678 | trimming twice is trimming once |
| JavaLang.IndexOfFirst | src/com/bytezone/dm3270/display/ScreenDetails.java:245 | indexOf is -1 exactly when the pattern does not occur, otherwise the first position where it occurs |
| JavaLang.Substring | src/com/bytezone/dm3270/display/ScreenDetails.java:435-438 | substring(b, e) is the slice when 0 <= b <= e <= length, and StringIndexOutOfBoundsException otherwise |
| JavaLang.ParseInt | src/com/bytezone/dm3270/display/ScreenDetails.java:254-255 | parseInt gives an int in range or NumberFormatException |
| JavaLang.Wrap32 | src/com/bytezone/dm3270/display/ScreenDetails.java:256 | int arithmetic: the result is an int, and equals the exact value whenever that fits |
| JavaLang.Wrap32Congruent | src/com/bytezone/dm3270/display/ScreenDetails.java:256 | wrap-around changes the exact value by a multiple of 2^32 only |
| JavaLang.FormatThenParse | src/com/bytezone/dm3270/display/ScreenDetails.java:479-480 | parseInt reads back any int that "%,7d" printed, once the padding is trimmed and the separators dropped |
| ScreenFields.FieldsInSelects | src/com/bytezone/dm3270/display/ScreenDetails.java:701-715 | the reference filter keeps exactly the fields that start in the range and show something, in list order |
| ScreenFields.ScanFields | src/com/bytezone/dm3270/display/ScreenDetails.java:701-715 | getFields returns no more fields than the list holds (which ones: ScanFieldsFilters) |
| ScreenFields.ScanEnd | src/com/bytezone/dm3270/display/ScreenDetails.java:704-710 | the scan stops at the first field past the range that was not skipped, or at the end of the list |
| ScreenFields.ScanFieldsFilters | src/com/bytezone/dm3270/display/ScreenDetails.java:701-715 | getFields is the reference filter over the list up to where the scan stops, a subsequence of the list, every field selected |
| ScreenFields.ScanOfSortedFields | src/com/bytezone/dm3270/display/ScreenDetails.java:701-715 | on a list sorted by location the early exit loses nothing: getFields is the reference filter over the whole list |
| ScreenFields.FieldsOnRowAreOnRow | src/com/bytezone/dm3270/display/ScreenDetails.java:687-692 | every field getFieldsOnRow returns starts on that row and shows something |
| ScreenFields.RowFieldsAreOnRows | src/com/bytezone/dm3270/display/ScreenDetails.java:694-699 | every field getRowFields returns starts on one of the rows asked for and shows something |
| ScreenFields.OneRowIsFieldsOnRow | src/com/bytezone/dm3270/display/ScreenDetails.java:687-699 | getRowFields over one row equals getFieldsOnRow |
| ScreenFields.Menus | src/com/bytezone/dm3270/display/ScreenDetails.java:667-685 | every menu label is non-empty and already trimmed |
| ScreenFields.MenusOfSortedFields | src/com/bytezone/dm3270/display/ScreenDetails.java:667-685 | on a sorted list, stopping at the first field past row 0 loses no menu label of the reference definition |
| ScreenFields.PromptIndex | src/com/bytezone/dm3270/display/ScreenDetails.java:125-145 | the index found is -1 or a prompt label, at column 1, followed by an accepted input field |
| ScreenFields.PromptIndexFirst | src/com/bytezone/dm3270/display/ScreenDetails.java:125-145 | -1 exactly when there is no prompt, otherwise no prompt stands before the one found |
| ScreenFields.CommandField | src/com/bytezone/dm3270/display/ScreenDetails.java:122-149 | the command field found is an accepted input field: 66 long, or 48 long, visible and unprotected |
| ScreenFields.CommandFieldOfFirstPrompt | src/com/bytezone/dm3270/display/ScreenDetails.java:122-149 | no command field exactly when there is no prompt, otherwise the input field after the first prompt |
| DatasetColumns.SetSpace1 | src/com/bytezone/dm3270/display/ScreenDetails.java:431-446 | a blank line changes nothing; a line shorter than 15 throws with the data set unchanged; otherwise only tracks, percent used, extents and device change |
| DatasetColumns.SpaceLine1RoundTrip | src/com/bytezone/dm3270/display/ScreenDetails.java:431-446 | setSpace1 reads back the four values a space line of that layout shows |
| DatasetColumns.SetSpace2 | src/com/bytezone/dm3270/display/ScreenDetails.java:448-463 | as SetSpace1, with the second layout's columns and a minimum length of 17 |
| DatasetColumns.SpaceLine2RoundTrip | src/com/bytezone/dm3270/display/ScreenDetails.java:448-463 | setSpace2 reads back the four values a space line of that layout shows |
| DatasetColumns.BlockSize | src/com/bytezone/dm3270/display/ScreenDetails.java:479-480 | succeeds exactly when the trimmed text parses, and the stored text parses back to the same number |
| DatasetColumns.SetDisposition1 | src/com/bytezone/dm3270/display/ScreenDetails.java:465-489 | blank: no change; shorter than 16: throws, unchanged; a bad block size throws with organisation, format and length already stored; otherwise only those four attributes change |
| DatasetColumns.DispositionLine1RoundTrip | src/com/bytezone/dm3270/display/ScreenDetails.java:465-489 | setDisposition1 reads back organisation, format and length, and the block size reprinted with "%,7d" |
| DatasetColumns.SetDisposition2 | src/com/bytezone/dm3270/display/ScreenDetails.java:491-509 | as SetDisposition1, with the second layout's columns and a minimum length of 19 |
| DatasetColumns.DispositionLine2RoundTrip | src/com/bytezone/dm3270/display/ScreenDetails.java:491-509 | setDisposition2 reads back what a disposition line of that layout shows |
| DatasetColumns.SetDates | src/com/bytezone/dm3270/display/ScreenDetails.java:511-519 | blank: no change; it throws exactly on a non-blank line shorter than 22, keeping the dates cut out before; otherwise only the three dates change |
| DatasetColumns.DatesLineRoundTrip | src/com/bytezone/dm3270/display/ScreenDetails.java:511-519 | setDates reads back the three dates a dates line shows |
| ScreenPanels.WorkstationFieldNo | src/com/bytezone/dm3270/display/ScreenDetails.java:196-204 | the prompt is field 13, else field 14, and -1 exactly when neither holds it |
| ScreenPanels.IsTsoCommandScreen | src/com/bytezone/dm3270/display/ScreenDetails.java:187-220 | the shell is recognised only on a screen of at least 19 fields with "ISPF Command Shell" in field 10, the shell's menu bar, and the prompt in field 13 or 14 |
| ScreenPanels.TsoCommandScreenAsWritten | src/com/bytezone/dm3270/display/ScreenDetails.java:187-220 | the code as written: fewer than 14 fields is "not the shell"; the only exception is IndexOutOfBoundsException, and only with the shell heading in field 10 |
| ScreenPanels.TsoCommandScreenAgrees | src/com/bytezone/dm3270/display/ScreenDetails.java:187-220 | where the code as written returns, it agrees with the corrected test; it throws exactly when field 14 or the command area is past the end |
| ScreenPanels.ShortShellScreenThrows | src/com/bytezone/dm3270/display/ScreenDetails.java:189-201 | on a 14-field shell screen without the prompt in field 13, the code as written throws, though the screen is not the shell |
| ScreenPanels.PrefixScreen | src/com/bytezone/dm3270/display/ScreenDetails.java:151-185 | the user id changes only on a primary option menu, to trimmed field 24; the prefix changes only when field 73 is the prefix at 1030, to its trimmed text |
| ScreenPanels.PrefixScreenAsWritten | src/com/bytezone/dm3270/display/ScreenDetails.java:151-185 | the code as written: the only exception is IndexOutOfBoundsException, on exactly 73 fields; the prefix changes only with at least 74 |
| ScreenPanels.PrefixScreenAgrees | src/com/bytezone/dm3270/display/ScreenDetails.java:151-185 | the code as written stores the same ids as the corrected one, and throws exactly on a 73-field menu whose field 72 is the prefix label |
| ScreenPanels.PrimaryOptionMenuIds | src/com/bytezone/dm3270/display/ScreenDetails.java:151-185 | checkPrefixScreen reads back the user id and prefix a primary option menu shows |
| ScreenPanels.ShortPrimaryMenuThrows | src/com/bytezone/dm3270/display/ScreenDetails.java:154-180 | on a menu cut off after field 72, the code as written stores the user id, then throws IndexOutOfBoundsException |
| ScreenPanels.LeadingName | src/com/bytezone/dm3270/display/ScreenDetails.java:631-636 | a name exactly when the title has a space and does not start with one; the name holds no space and, followed by a space, begins the title |
| ScreenPanels.EditOrViewDatasetName | src/com/bytezone/dm3270/display/ScreenDetails.java:611-637 | a name is found only when there are at least 13 fields, field 11 at 161 reads EDIT or VIEW once trimmed and field 12 is at 172, and it is then the text of field 12, trimmed, up to its first space; it is non-empty, holds no space and starts with non-blank |
| ScreenPanels.EditPanelName | src/com/bytezone/dm3270/display/ScreenDetails.java:611-637 | checkEditOrViewDataset reads back the name an edit or view panel's title starts with |
| ScreenPanels.BrowseDatasetName | src/com/bytezone/dm3270/display/ScreenDetails.java:639-665 | a name is found only when there are at least 9 fields, field 7 at 161 reads "BROWSE   " and field 8 is at 171, and it is then the text of field 8, trimmed, up to its first space; it is non-empty, holds no space and starts with non-blank |
| ScreenPanels.BrowsePanelName | src/com/bytezone/dm3270/display/ScreenDetails.java:639-665 | checkBrowseDataset reads back the name a browse panel's title starts with |
| ScreenPanels.LocationHeader | src/com/bytezone/dm3270/display/ScreenDetails.java:260-263 | a location starting "on volume " gives the volume after those 10 characters; otherwise one starting "Matching " gives the pattern after those 9; otherwise neither is set; at most one is set, and the location is recovered from it by putting its keyword back |
| ScreenPanels.RowFollowsTitle | src/com/bytezone/dm3270/display/ScreenDetails.java:245-249 | "Row " cannot start inside the DSLIST title, so substring(19, pos) cannot throw |
| ScreenPanels.RowCount | src/com/bytezone/dm3270/display/ScreenDetails.java:254-256 | a row count exactly when both numbers parse, else the exception of the first that did not |
| ScreenPanels.DslistHeaderOf | src/com/bytezone/dm3270/display/ScreenDetails.java:234-263 | a DSLIST header line whose "Row " and " of " are found and whose numbers parse gives the location trimmed from column 19 to "Row " and the row count total - first + 1 in int arithmetic |
| ScreenPanels.DslistHeader | src/com/bytezone/dm3270/display/ScreenDetails.java:234-263 | only NumberFormatException can be thrown; never both volume and pattern; without "Row " nothing is known |
| ScreenPanels.HeaderLineRoundTrip | src/com/bytezone/dm3270/display/ScreenDetails.java:234-263 | the header parse reads back the location and the row count total - first + 1 of a header line |
| ScreenPanels.ListLayout | src/com/bytezone/dm3270/display/ScreenDetails.java:273-326 | a layout only under a "Command - Enter" row; at most a screenful, min(maxRows, capacity), is read; 1 to 3 rows per data set; the volume layouts only for a list of one volume |
| ScreenPanels.ScrapeRow | src/com/bytezone/dm3270/display/ScreenDetails.java:344-422 | at most one data set, named by trimmed field 0; the volume layout throws only on a short row; the volume layouts always give a data set when nothing throws |
| ScreenPanels.ScrapeRows | src/com/bytezone/dm3270/display/ScreenDetails.java:342-426 | no more data sets than asked for |
| ScreenPanels.ScrapeRowsAdvance | src/com/bytezone/dm3270/display/ScreenDetails.java:342-426 | one turn of the loop keeps "added so far, then read from here on, is the whole list" |
| ScreenPanels.VolumeRowsComplete | src/com/bytezone/dm3270/display/ScreenDetails.java:342-426 | in the volume layouts, unless something throws, exactly as many data sets as asked for |
| ScreenPanels.DatasetList | src/com/bytezone/dm3270/display/ScreenDetails.java:222-429 | a list never throws; a non-list that did not throw has no data sets; data sets only from 21 fields up; at most 17; never both volume and pattern |
| ScreenPanels.MemberListHeader | src/com/bytezone/dm3270/display/ScreenDetails.java:521-569 | only NumberFormatException can be thrown; a header only with 14 fields and the PDS menu bar, naming the trimmed field 9 |
| ScreenPanels.MemberRowsEnd | src/com/bytezone/dm3270/display/ScreenDetails.java:570 | the member rows end by screen row 24 |
| ScreenPanels.MemberNameParts | src/com/bytezone/dm3270/display/ScreenDetails.java:577 | a member's name is the data set name, "(", the member name, ")", and both parts are read back from it |
| ScreenPanels.ScrapeMember | src/com/bytezone/dm3270/display/ScreenDetails.java:574-605 | at most one member, named after the data set and field 1; exactly one when nothing throws |
| ScreenPanels.ScrapeMembers | src/com/bytezone/dm3270/display/ScreenDetails.java:572-606 | the member loop reads no more members than it has rows |
| ScreenPanels.ScrapeMembersCount | src/com/bytezone/dm3270/display/ScreenDetails.java:572-606 | at most one member per row, and exactly one per row when nothing throws |
| ScreenPanels.ScrapedMembersNamed | src/com/bytezone/dm3270/display/ScreenDetails.java:572-606 | every member read is named after the data set with an opening parenthesis |
| ScreenPanels.ScrapeMembersAdvance | src/com/bytezone/dm3270/display/ScreenDetails.java:572-606 | one turn of the member loop keeps "added so far, then read from here on, is the whole list" |
| ScreenPanels.MemberList | src/com/bytezone/dm3270/display/ScreenDetails.java:521-609 | a list never throws; a non-list that did not throw has no members; at most 19 members; members only from 14 fields up |
| ScreenPanels.MemberListNamed | src/com/bytezone/dm3270/display/ScreenDetails.java:521-609 | every member is named after the data set in field 9 |
| ScreenPanels.OpenDataset | src/com/bytezone/dm3270/display/ScreenDetails.java:63-68 | the edit or view name when there is one, else the current name when set |
| ScreenPanels.Identified | src/com/bytezone/dm3270/display/ScreenDetails.java:55-60 | only the shell flag, ids and open data set change: the flag is the shell test, a known prefix keeps both ids, the open data set is forgotten |
| ScreenPanels.PanelRead | src/com/bytezone/dm3270/display/ScreenDetails.java:63-71 | only open data set, members and member-list flag change; the open data set is as OpenDataset; the members are appended |
| ScreenPanels.ListsRead | src/com/bytezone/dm3270/display/ScreenDetails.java:61-71 | fields, command field, shell flag and ids are kept; the list's data sets are appended; data sets and members are not both added |
| ScreenPanels.CheckScreen | src/com/bytezone/dm3270/display/ScreenDetails.java:41-75 | check keeps the new field list (everything else it leaves: CheckScreenFacts) |
| ScreenPanels.CheckScreenFacts | src/com/bytezone/dm3270/display/ScreenDetails.java:41-75 | after check: the new fields; the command field of rows 2-3; the shell flag only with one and on a shell; known ids kept; the open data set changes only with a command field; never both lists; at most 17 data sets and 19 members; data sets only from 21 fields up |
| ScreenPanels.ListsReadBounds | src/com/bytezone/dm3270/display/ScreenDetails.java:61-71 | reading into empty lists gives never both kinds, at most 17 data sets and 19 members |
| ScreenPanels.FewFieldsOnlyClear | src/com/bytezone/dm3270/display/ScreenDetails.java:41-50 | a screen of at most two fields changes only what check clears |
| Screens.MatchesMenuBar | src/com/bytezone/dm3270/display/ScreenDetails.java:206-213 | true exactly when the menus read equal the expected bar |
| Screens.AppendDatasets | src/com/bytezone/dm3270/display/ScreenDetails.java:342-426 | the loop appends exactly the data sets of the reference ScrapeRows and returns its exception |
| Screens.AppendMembers | src/com/bytezone/dm3270/display/ScreenDetails.java:572-606 | the loop appends exactly the members of the reference ScrapeMembers and returns its exception |
| Screens.FirstPrompt | src/com/bytezone/dm3270/display/ScreenDetails.java:124-148 | the loop returns the input field of the first prompt, as CommandField |
| Screens.ScreenDetails.constructor | src/com/bytezone/dm3270/display/ScreenDetails.java:32-39 | nothing is known, ids and open data set are empty |
| Screens.ScreenDetails.Check | src/com/bytezone/dm3270/display/ScreenDetails.java:41-75 | the new state and exception are those of CheckScreen on the old state |
| Screens.ScreenDetails.IdentifyScreen | src/com/bytezone/dm3270/display/ScreenDetails.java:55-60 | the new state is Identified of the old |
| Screens.ScreenDetails.ReadLists | src/com/bytezone/dm3270/display/ScreenDetails.java:61-71 | the new state and exception are ListsRead of the old |
| Screens.ScreenDetails.ReadPanel | src/com/bytezone/dm3270/display/ScreenDetails.java:63-71 | the new state and exception are PanelRead of the old |
| Screens.ScreenDetails.GetFields | src/com/bytezone/dm3270/display/ScreenDetails.java:701-715 | the loop returns ScanFields over the current fields |
| Screens.ScreenDetails.GetFieldsOnRow | src/com/bytezone/dm3270/display/ScreenDetails.java:687-692 | the fields of one row, as FieldsOnRow |
| Screens.ScreenDetails.GetRowFields | src/com/bytezone/dm3270/display/ScreenDetails.java:694-699 | the fields of a band of rows, as RowFields |
| Screens.ScreenDetails.GetMenus | src/com/bytezone/dm3270/display/ScreenDetails.java:667-685 | the loop returns Menus over the current fields |
| Screens.ScreenDetails.HasPromptField | src/com/bytezone/dm3270/display/ScreenDetails.java:122-149 | the command field becomes CommandField of rows 2-3, found exactly when there is one, nothing else changes |
| Screens.ScreenDetails.CheckTsoCommandScreen | src/com/bytezone/dm3270/display/ScreenDetails.java:187-220 | the result is the corrected shell test IsTsoCommandScreen |
| Screens.ScreenDetails.CheckPrefixScreen | src/com/bytezone/dm3270/display/ScreenDetails.java:151-185 | the ids become PrefixScreen of the old ids; nothing else changes |
| Screens.ScreenDetails.CheckOpenDataset | src/com/bytezone/dm3270/display/ScreenDetails.java:63-68 | the open data set becomes OpenDataset of the old one; nothing else changes |
| Screens.ScreenDetails.CheckEditOrViewDataset | src/com/bytezone/dm3270/display/ScreenDetails.java:611-637 | the open data set becomes the edit or view name when there is one; nothing else changes |
| Screens.ScreenDetails.CheckBrowseDataset | src/com/bytezone/dm3270/display/ScreenDetails.java:639-665 | the open data set becomes the browse name when there is one; nothing else changes |
| Screens.ScreenDetails.CheckDatasetList | src/com/bytezone/dm3270/display/ScreenDetails.java:222-429 | flag, exception, volume and pattern are DatasetList's, its data sets are appended, nothing else changes |
| Screens.ScreenDetails.AddDatasets | src/com/bytezone/dm3270/display/ScreenDetails.java:342-426 | the data sets of ScrapeRows are appended and its exception returned |
| Screens.ScreenDetails.ReadMemberHeader | src/com/bytezone/dm3270/display/ScreenDetails.java:521-569 | the result is MemberListHeader over the current fields |
| Screens.ScreenDetails.CheckMemberList | src/com/bytezone/dm3270/display/ScreenDetails.java:521-609 | flag and exception are MemberList's, its members are appended, nothing else changes |

## Left out

- Printing: `toString` of both classes, every `System.out` call, and the two
  `if (false)` blocks of `checkDatasetList`. They only print.
- The getters of both classes are left out. The Dafny classes expose their
  fields directly.
- `Transfer.cancelled` always returns false, and the modelled code never
  calls it.
- Several files are not part of this model: `DataRecord.java`,
  `FileTransferOutboundSF.java`, `IndFileCommand.java`, `Field.java`,
  `FieldManager.java`, `Screen.java` and `Dataset.java`. Each is modelled by
  a value type holding only what the core reads.
  - Two data records are taken to be equal when their bytes and direction
    are equal.
  - `packBuffer` is taken to copy the record's bytes and return the position
    after them.
- FileTransfer.Transfer.GetDataHeader: it requires `hasMoreData()`, which the
  source asserts. What happens with assertions disabled and nothing left is
  not modelled.
- FileTransfer.Transfer.GetFileName and FileTransfer.Transfer.HasTlq require
  a command to be set. The NullPointerException the source throws otherwise
  is not modelled.
- The Java `int dataLength` could overflow past 2 GB of stored data. This is
  not modelled: the count is unbounded.
- The upload buffer is kept by reference in Java, so a caller that changes it
  afterwards changes the chunks. The model holds an immutable copy.
- Screens.ScreenDetails.CheckTsoCommandScreen and
  Screens.ScreenDetails.CheckPrefixScreen model the corrected behaviour (see
  Findings). The as-written behaviour, including its exception, is modelled
  as a function on the field list.
- `datasetsMatching` and `datasetsOnVolume` start as null in Java and are
  modelled as "". Only `toString` reads them before `checkDatasetList` sets
  them.
- In Java a `Dataset` is added to its list first and then filled in by the
  setters. The model adds the finished value. This is the same list contents,
  including when a setter throws part-way.
- An exception inside `check` propagates to its caller in Java. The model
  returns it as `thrown`, with the state as far as it got.
- `check` is modelled in stages: the identification, the lists and the
  panels, each a method proved against its own function. The Java method is
  one body.
- Strings are sequences of Unicode scalar values; Java indexes UTF-16 units,
  which differ only for characters outside the Basic Multilingual Plane. Every
  length, index and column position in the model counts scalar values, so a
  string holding such a character is measured differently from Java.
- JavaLang.ParseInt accepts only ASCII digits. `Integer.parseInt` also
  accepts other Unicode decimal digits.
- JavaLang.FormatThenParse uses ',' as the group separator of "%,7d", as in
  an English locale. Other locales are not modelled.
- The member statistics the source cuts out and only prints (size, times,
  ids, version) are not stored. Only the substring bounds they need are
  modelled.

## Findings

| source | as written | input that shows it | evidently intended | confidence | as-written member | corrected member |
|---|---|---|---|---|---|---|
| src/com/bytezone/dm3270/display/ScreenDetails.java:154-180 | returns early only for fewer than 73 fields, then reads field 73 | a primary option menu of exactly 73 fields whose field 72 is the " TSO prefix:" label at 1017: the user id is stored, then `get(73)` throws IndexOutOfBoundsException out of `checkPrefixScreen`; `check` calls it, and the exception leaves `check`, when rows 2-3 hold a command prompt and no prefix is known yet | read the prefix only when field 73 exists (a guard of 74) | high; not executed | ScreenPanels.ShortPrimaryMenuThrows | ScreenPanels.PrefixScreenAgrees |
| src/com/bytezone/dm3270/display/ScreenDetails.java:189-215 | returns early only for fewer than 14 fields, then reads field 14 when field 13 is not the prompt, and field 18 or 19 for the command area | 14 fields with "ISPF Command Shell" in field 10 and something else in field 13: `get(14)` throws IndexOutOfBoundsException out of `checkTSOCommandScreen`; `check` calls it, and the exception leaves `check`, when rows 2-3 hold a command prompt | a screen without those fields is not the command shell | medium; not executed | ScreenPanels.ShortShellScreenThrows | ScreenPanels.TsoCommandScreenAgrees |
