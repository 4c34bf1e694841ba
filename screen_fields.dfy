/** The field queries ScreenDetails.java runs over the field list of the current
    screen: the early-exit range scan behind getFields, getFieldsOnRow and
    getRowFields, the menu-bar labels of getMenus, and the command prompt that
    hasPromptField looks for. Each scan is stated against a reference
    definition that reads the whole list. */
module ScreenFields {
  import opened JavaLang

  /** A field of the screen: the address of its attribute byte, the number of
      cells it displays, its text, and its protection and visibility bits. */
  datatype Field = Field(
    firstLocation: nat,
    displayLength: nat,
    text: string,
    protected: bool,
    hidden: bool)
  {
    predicate IsProtected() { protected }
    predicate IsUnprotected() { !protected }
    predicate IsHidden() { hidden }
    predicate IsVisible() { !hidden }
  }

  /** The number of columns of a screen. */
  type Columns = c: int | c > 0 witness 80

  /** The order the field manager keeps its fields in. */
  predicate SortedByLocation(fs: seq<Field>)
  {
    forall i, j :: 0 <= i < j < |fs| ==> fs[i].firstLocation <= fs[j].firstLocation
  }

  /** a is a subsequence of b: b with some elements left out, order kept. */
  predicate SubsequenceOf<T(==)>(a: seq<T>, b: seq<T>)
    decreases |b|
  {
    a == [] || (b != [] && ((a[0] == b[0] && SubsequenceOf(a[1..], b[1..])) || SubsequenceOf(a, b[1..])))
  }

  // ---------------------------------------------------------------------------
  // getFields, getFieldsOnRow, getRowFields

  /** A field getFields returns: it starts inside [first, last] and shows
      something. */
  predicate Selected(f: Field, first: int, last: int)
  {
    first <= f.firstLocation <= last && f.displayLength > 0
  }

  /** A field at which getFields stops: it is not before first (those are
      skipped) and starts after last. */
  predicate EndsScan(f: Field, first: int, last: int)
  {
    first <= f.firstLocation && f.firstLocation > last
  }

  /** Reference definition: every selected field of the list, in list order. */
  function FieldsIn(fs: seq<Field>, first: int, last: int): seq<Field>
  {
    if fs == [] then []
    else
      var rest := FieldsIn(fs[1..], first, last);
      if Selected(fs[0], first, last) then [fs[0]] + rest else rest
  }

  /** The reference filter keeps exactly the selected fields, in list order. */
  lemma {:induction false} FieldsInSelects(fs: seq<Field>, first: int, last: int)
    ensures var r := FieldsIn(fs, first, last);
      (forall f :: f in r <==> f in fs && Selected(f, first, last)) && SubsequenceOf(r, fs)
  {
    if fs != [] {
      FieldsInSelects(fs[1..], first, last);
      assert forall f :: f in fs <==> f == fs[0] || f in fs[1..];
    }
  }

  /** The index at which getFields stops scanning: the first field that ends
      the scan, or the length of the list. */
  function ScanEnd(fs: seq<Field>, first: int, last: int): (k: nat)
    ensures k <= |fs|
    ensures forall i :: 0 <= i < k ==> !EndsScan(fs[i], first, last)
    ensures k < |fs| ==> EndsScan(fs[k], first, last)
  {
    if fs == [] then 0
    else if EndsScan(fs[0], first, last) then 0
    else 1 + ScanEnd(fs[1..], first, last)
  }

  /** getFields(first, last) as its loop computes it: skip fields before first,
      stop at the first field after last, keep those that show something. The
      result is the reference filter applied to the part of the list before the
      stop, and so a subsequence of the list. */
  function ScanFields(fs: seq<Field>, first: int, last: int): (r: seq<Field>)
    ensures |r| <= |fs|
  {
    if fs == [] then []
    else if fs[0].firstLocation < first then ScanFields(fs[1..], first, last)
    else if fs[0].firstLocation > last then []
    else
      var rest := ScanFields(fs[1..], first, last);
      if fs[0].displayLength > 0 then [fs[0]] + rest else rest
  }

  /** The scan is the reference filter applied to the part of the list
      before the stop, and so a subsequence of the list whose every field is
      selected. */
  lemma {:induction false} ScanFieldsFilters(fs: seq<Field>, first: int, last: int)
    ensures var r := ScanFields(fs, first, last);
      r == FieldsIn(fs[..ScanEnd(fs, first, last)], first, last) &&
      SubsequenceOf(r, fs) &&
      forall i :: 0 <= i < |r| ==> Selected(r[i], first, last)
  {
    if fs != [] && !EndsScan(fs[0], first, last) {
      ScanFieldsFilters(fs[1..], first, last);
      assert fs[..ScanEnd(fs, first, last)][1..] == fs[1..][..ScanEnd(fs[1..], first, last)];
    }
  }

  lemma {:induction false} NothingSelectedBeyond(fs: seq<Field>, first: int, last: int, bound: int)
    requires SortedByLocation(fs)
    requires bound > last
    requires forall i :: 0 <= i < |fs| ==> fs[i].firstLocation >= bound
    ensures FieldsIn(fs, first, last) == []
  {
    if fs != [] {
      NothingSelectedBeyond(fs[1..], first, last, bound);
    }
  }

  /** On a list sorted by location, as the field manager keeps it, the early
      exit loses nothing: getFields returns every selected field. */
  lemma {:induction false} ScanOfSortedFields(fs: seq<Field>, first: int, last: int)
    requires SortedByLocation(fs)
    ensures ScanFields(fs, first, last) == FieldsIn(fs, first, last)
  {
    if fs != [] {
      if fs[0].firstLocation < first || fs[0].firstLocation <= last {
        ScanOfSortedFields(fs[1..], first, last);
      } else {
        NothingSelectedBeyond(fs[1..], first, last, fs[0].firstLocation);
      }
    }
  }

  /** getFieldsOnRow: the fields getFields finds between the first and the
      last address of screen row row. */
  function FieldsOnRow(fs: seq<Field>, columns: Columns, row: int): seq<Field>
  {
    ScanFields(fs, row * columns, row * columns + columns - 1)
  }

  /** getRowFields: the fields getFields finds between the first address of row
      from and the last address of row from + rows - 1. */
  function RowFields(fs: seq<Field>, columns: Columns, from: int, rows: int): seq<Field>
  {
    ScanFields(fs, from * columns, (from + rows) * columns - 1)
  }

  /** Every field getFieldsOnRow returns starts on that row and shows something. */
  lemma FieldsOnRowAreOnRow(fs: seq<Field>, columns: Columns, row: int)
    ensures var r := FieldsOnRow(fs, columns, row);
      forall i :: 0 <= i < |r| ==> r[i].firstLocation / columns == row && r[i].displayLength > 0
  {
    var r := FieldsOnRow(fs, columns, row);
    ScanFieldsFilters(fs, row * columns, row * columns + columns - 1);
    forall i | 0 <= i < |r|
      ensures r[i].firstLocation / columns == row
    {
      OnRow(r[i].firstLocation, columns, row);
    }
  }

  /** Every field getRowFields returns starts on one of the rows asked for. */
  lemma RowFieldsAreOnRows(fs: seq<Field>, columns: Columns, from: int, rows: int)
    ensures var r := RowFields(fs, columns, from, rows);
      forall i :: 0 <= i < |r| ==> from <= r[i].firstLocation / columns < from + rows && r[i].displayLength > 0
  {
    var r := RowFields(fs, columns, from, rows);
    ScanFieldsFilters(fs, from * columns, (from + rows) * columns - 1);
    forall i | 0 <= i < |r|
      ensures from <= r[i].firstLocation / columns < from + rows
    {
      OnRows(r[i].firstLocation, columns, from, rows);
    }
  }

  /** The row of an address is the quotient by the number of columns. */
  lemma OnRow(location: nat, columns: Columns, row: int)
    requires row * columns <= location <= row * columns + columns - 1
    ensures location / columns == row
  {
    QuotientBounds(location, columns, row, row + 1);
  }

  lemma OnRows(location: nat, columns: Columns, from: int, rows: int)
    requires from * columns <= location <= (from + rows) * columns - 1
    ensures from <= location / columns < from + rows
  {
    QuotientBounds(location, columns, from, from + rows);
  }

  /** An address between the starts of rows lo and hi lies on a row in between. */
  lemma QuotientBounds(location: nat, columns: Columns, lo: int, hi: int)
    requires lo * columns <= location < hi * columns
    ensures lo <= location / columns < hi
  {
    var q := location / columns;
    assert location == q * columns + location % columns;
    assert q * columns - (lo - 1) * columns == (q - lo + 1) * columns;
    PositiveFactor(q - lo + 1, columns);
    assert hi * columns - q * columns == (hi - q) * columns;
    PositiveFactor(hi - q, columns);
  }

  lemma PositiveFactor(x: int, c: Columns)
    requires x * c > 0
    ensures x > 0
  {
  }

  /** getRowFields over one row is getFieldsOnRow. */
  lemma OneRowIsFieldsOnRow(fs: seq<Field>, columns: Columns, row: int)
    ensures RowFields(fs, columns, row, 1) == FieldsOnRow(fs, columns, row)
  {
    assert (row + 1) * columns - 1 == row * columns + columns - 1;
  }

  // ---------------------------------------------------------------------------
  // getMenus

  /** A field whose text getMenus takes as a menu label. */
  predicate IsMenuField(f: Field)
  {
    f.IsProtected() && f.IsVisible() && f.displayLength > 1 && Trim(f.text) != []
  }

  /** Reference definition: the trimmed labels of every menu field on the first
      row, in list order. */
  function MenuLabels(fs: seq<Field>, columns: Columns): (labels: seq<string>)
  {
    if fs == [] then []
    else
      var rest := MenuLabels(fs[1..], columns);
      if fs[0].firstLocation < columns && IsMenuField(fs[0]) then [Trim(fs[0].text)] + rest else rest
  }

  /** getMenus as its loop computes it: stop at the first field that is not on
      the first row. Every label is non-empty and already trimmed. */
  function Menus(fs: seq<Field>, columns: Columns): (labels: seq<string>)
    ensures forall i :: 0 <= i < |labels| ==> labels[i] != [] && Trim(labels[i]) == labels[i]
  {
    if fs == [] || fs[0].firstLocation >= columns then []
    else
      var rest := Menus(fs[1..], columns);
      if IsMenuField(fs[0]) then
        TrimIdempotent(fs[0].text);
        [Trim(fs[0].text)] + rest
      else rest
  }

  lemma {:induction false} NoMenusBeyond(fs: seq<Field>, columns: Columns)
    requires forall i :: 0 <= i < |fs| ==> fs[i].firstLocation >= columns
    ensures MenuLabels(fs, columns) == []
  {
    if fs != [] {
      NoMenusBeyond(fs[1..], columns);
    }
  }

  /** On a sorted list, stopping at the first field past the first row loses no
      menu label. */
  lemma {:induction false} MenusOfSortedFields(fs: seq<Field>, columns: Columns)
    requires SortedByLocation(fs)
    ensures Menus(fs, columns) == MenuLabels(fs, columns)
  {
    if fs != [] {
      if fs[0].firstLocation < columns {
        MenusOfSortedFields(fs[1..], columns);
      } else {
        NoMenusBeyond(fs, columns);
      }
    }
  }

  // ---------------------------------------------------------------------------
  // hasPromptField

  /** A field at column 1 labelled as the ISPF command or option prompt. */
  predicate IsPromptLabel(f: Field, columns: Columns)
  {
    f.firstLocation % columns == 1 && (f.text == "Command ===>" || f.text == "Option ===>")
  }

  /** The input field after a prompt label that hasPromptField accepts: 66 long,
      or 48 long and visible and unprotected (Java's && binds tighter than ||). */
  predicate IsCommandInput(f: Field)
  {
    f.displayLength == 66 || (f.displayLength == 48 && !f.IsHidden() && f.IsUnprotected())
  }

  /** fs[i] is a prompt label followed by an accepted input field. */
  predicate PromptAt(fs: seq<Field>, columns: Columns, i: int)
  {
    0 <= i && i + 1 < |fs| && IsPromptLabel(fs[i], columns) && IsCommandInput(fs[i + 1])
  }

  /** The first position at or after from where a prompt stands, or -1. */
  function PromptIndex(fs: seq<Field>, columns: Columns, from: nat): (k: int)
    ensures k == -1 || (from <= k && PromptAt(fs, columns, k))
    decreases |fs| - from
  {
    if from + 1 >= |fs| then -1
    else if PromptAt(fs, columns, from) then from
    else PromptIndex(fs, columns, from + 1)
  }

  /** PromptIndex finds the first prompt: -1 only when there is none from
      the given position on, and no prompt before the one it finds. */
  lemma {:induction false} PromptIndexFirst(fs: seq<Field>, columns: Columns, from: nat)
    ensures var k := PromptIndex(fs, columns, from);
      (k == -1 <==> forall i :: from <= i ==> !PromptAt(fs, columns, i)) &&
      (k != -1 ==> forall i :: from <= i < k ==> !PromptAt(fs, columns, i))
    decreases |fs| - from
  {
    if from + 1 < |fs| && !PromptAt(fs, columns, from) {
      PromptIndexFirst(fs, columns, from + 1);
    }
  }

  /** The TSO command field hasPromptField settles on among the given fields:
      the input field of the first prompt, or none. */
  function CommandField(fs: seq<Field>, columns: Columns): (r: Option<Field>)
    ensures r.Some? ==> IsCommandInput(r.value)
  {
    var k := PromptIndex(fs, columns, 0);
    if k == -1 then None else Some(fs[k + 1])
  }

  /** The command field is absent exactly when no prompt is there, and is
      otherwise the input field after the first prompt. */
  lemma CommandFieldOfFirstPrompt(fs: seq<Field>, columns: Columns)
    ensures var r := CommandField(fs, columns);
      (r.None? <==> forall i :: 0 <= i ==> !PromptAt(fs, columns, i)) &&
      (r.Some? ==> exists i :: PromptAt(fs, columns, i) && r.value == fs[i + 1] &&
                               forall j :: 0 <= j < i ==> !PromptAt(fs, columns, j))
  {
    PromptIndexFirst(fs, columns, 0);
  }
}
