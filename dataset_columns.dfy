/** The data sets a DSLIST or member-list panel lists, and the fixed-column
    parsers of ScreenDetails.java (setSpace1, setSpace2, setDisposition1,
    setDisposition2, setDates) that read one detail line of such a panel into
    a data set. */
module DatasetColumns {
  import opened JavaLang

  /** A data set as the scraper fills it in: every attribute is the text read
      from the screen. */
  datatype Dataset = Dataset(
    name: string,
    volume: string,
    catalog: string,
    tracks: string,
    percentUsed: string,
    extents: string,
    device: string,
    dsorg: string,
    recfm: string,
    lrecl: string,
    blksize: string,
    created: string,
    expires: string,
    referred: string)

  /** new Dataset(name): a data set of which only the name is known. */
  function NewDataset(name: string): (d: Dataset)
    ensures d.name == name
  {
    Dataset(name, "", "", "", "", "", "", "", "", "", "", "", "", "")
  }

  /** The data set as far as a parser's setters got, and the exception that
      stopped them, if one did. */
  datatype Parsed = Parsed(dataset: Dataset, thrown: Option<Failure>)

  /** setSpace1: tracks in columns 0-5, percent used in 7-9, extents in 10-13,
      the device from 15 on; a blank line leaves the data set alone. */
  function SetSpace1(d: Dataset, details: string): (r: Parsed)
    ensures r.dataset.name == d.name
    ensures Blank(details) ==> r == Parsed(d, None)
    ensures !Blank(details) && |details| < 15 ==> r == Parsed(d, Some(StringIndexOutOfBounds))
    ensures r.thrown.None? ==> r.dataset.(tracks := d.tracks, percentUsed := d.percentUsed,
                                          extents := d.extents, device := d.device) == d
  {
    if Blank(details) then Parsed(d, None)
    else if |details| < 15 then Parsed(d, Some(StringIndexOutOfBounds))
    else
      Parsed(d.(tracks := Trim(details[0..6]), percentUsed := Trim(details[7..10]),
                extents := Trim(details[10..14]), device := Trim(details[15..])), None)
  }

  /** setSpace2: tracks in columns 0-5, percent used in 8-10, extents in 11-14,
      the device from 17 on. */
  function SetSpace2(d: Dataset, details: string): (r: Parsed)
    ensures r.dataset.name == d.name
    ensures Blank(details) ==> r == Parsed(d, None)
    ensures !Blank(details) && |details| < 17 ==> r == Parsed(d, Some(StringIndexOutOfBounds))
    ensures r.thrown.None? ==> r.dataset.(tracks := d.tracks, percentUsed := d.percentUsed,
                                          extents := d.extents, device := d.device) == d
  {
    if Blank(details) then Parsed(d, None)
    else if |details| < 17 then Parsed(d, Some(StringIndexOutOfBounds))
    else
      Parsed(d.(tracks := Trim(details[0..6]), percentUsed := Trim(details[8..11]),
                extents := Trim(details[11..15]), device := Trim(details[17..])), None)
  }

  /** The block size as the panels show it: parsed as an int and printed again
      with "%,7d"; NumberFormatException when it is not a number. */
  function BlockSize(text: string): (r: Result<string>)
    ensures r.Ok? <==> ParseInt(Trim(text)).Ok?
    ensures r.Ok? ==> ParseInt(WithoutCommas(Trim(r.value))) == ParseInt(Trim(text))
  {
    var bls :- ParseInt(Trim(text));
    FormatThenParse(bls);
    Ok(FormatGrouped7(bls))
  }

  /** setDisposition1: data set organisation in columns 0-4, record format in
      5-9, record length in 10-15, the block size from 16 on. The first three
      are stored before the block size is parsed, so a block size that is not
      a number leaves them set. */
  function SetDisposition1(d: Dataset, details: string): (r: Parsed)
    ensures r.dataset.name == d.name
    ensures Blank(details) ==> r == Parsed(d, None)
    ensures !Blank(details) && |details| < 16 ==> r == Parsed(d, Some(StringIndexOutOfBounds))
    ensures r.thrown == Some(NumberFormat) ==>
      r.dataset == d.(dsorg := Trim(details[0..5]), recfm := Trim(details[5..10]), lrecl := Trim(details[10..16]))
    ensures r.thrown.None? ==> r.dataset.(dsorg := d.dsorg, recfm := d.recfm, lrecl := d.lrecl,
                                          blksize := d.blksize) == d
  {
    if Blank(details) then Parsed(d, None)
    else if |details| < 16 then Parsed(d, Some(StringIndexOutOfBounds))
    else
      var d' := d.(dsorg := Trim(details[0..5]), recfm := Trim(details[5..10]), lrecl := Trim(details[10..16]));
      match BlockSize(details[16..])
      case Ok(b) => Parsed(d'.(blksize := b), None)
      case Err(e) => Parsed(d', Some(e))
  }

  /** setDisposition2: data set organisation in columns 0-4, record format in
      6-10, record length in 12-17, the block size from 19 on. */
  function SetDisposition2(d: Dataset, details: string): (r: Parsed)
    ensures r.dataset.name == d.name
    ensures Blank(details) ==> r == Parsed(d, None)
    ensures !Blank(details) && |details| < 19 ==> r == Parsed(d, Some(StringIndexOutOfBounds))
    ensures r.thrown == Some(NumberFormat) ==>
      r.dataset == d.(dsorg := Trim(details[0..5]), recfm := Trim(details[6..11]), lrecl := Trim(details[12..18]))
    ensures r.thrown.None? ==> r.dataset.(dsorg := d.dsorg, recfm := d.recfm, lrecl := d.lrecl,
                                          blksize := d.blksize) == d
  {
    if Blank(details) then Parsed(d, None)
    else if |details| < 19 then Parsed(d, Some(StringIndexOutOfBounds))
    else
      var d' := d.(dsorg := Trim(details[0..5]), recfm := Trim(details[6..11]), lrecl := Trim(details[12..18]));
      match BlockSize(details[19..])
      case Ok(b) => Parsed(d'.(blksize := b), None)
      case Err(e) => Parsed(d', Some(e))
  }

  /** setDates: created in columns 0-9, expires in 11-19, last referred from 22
      on. Each date is stored as soon as it is cut out, so a short line keeps
      the dates before the column where it ends. */
  function SetDates(d: Dataset, details: string): (r: Parsed)
    ensures r.dataset.name == d.name
    ensures Blank(details) ==> r == Parsed(d, None)
    ensures r.thrown.Some? <==> !Blank(details) && |details| < 22
    ensures r.thrown.Some? ==> r.thrown == Some(StringIndexOutOfBounds)
    ensures !Blank(details) && |details| < 10 ==> r.dataset == d
    ensures r.thrown.None? ==> r.dataset.(created := d.created, expires := d.expires,
                                          referred := d.referred) == d
  {
    if Blank(details) then Parsed(d, None)
    else if |details| < 10 then Parsed(d, Some(StringIndexOutOfBounds))
    else
      var d1 := d.(created := Trim(details[0..10]));
      if |details| < 20 then Parsed(d1, Some(StringIndexOutOfBounds))
      else
        var d2 := d1.(expires := Trim(details[11..20]));
        if |details| < 22 then Parsed(d2, Some(StringIndexOutOfBounds))
        else Parsed(d2.(referred := Trim(details[22..])), None)
  }

  // ---------------------------------------------------------------------------
  // Detail lines laid out in fixed columns, and the parsers reading them back

  /** A value as a column shows it: no white space at either end. */
  predicate Trimmed(s: string)
  {
    s == [] || (!IsSpace(s[0]) && !IsSpace(s[|s| - 1]))
  }

  /** A value right-justified in a column of the given width. */
  function Column(s: string, width: nat): (r: string)
    requires |s| <= width
    ensures |r| == width
  {
    PadLeft(s, width)
  }

  lemma TrimColumn(s: string, width: nat)
    requires Trimmed(s) && |s| <= width
    ensures Trim(Column(s, width)) == s
  {
    var pad := seq(width - |s|, _ => ' ');
    assert Column(s, width) == pad + s;
    if s == [] {
      assert pad + s == pad;
      assert Blank(pad);
    } else {
      TrimPadded(pad, s);
    }
  }

  /** A space line of the first layout: tracks, percent used, extents, device. */
  function SpaceLine1(tracks: string, pct: string, extents: string, device: string): string
    requires |tracks| <= 6 && |pct| <= 3 && |extents| <= 4
  {
    Column(tracks, 6) + " " + Column(pct, 3) + Column(extents, 4) + " " + device
  }

  /** setSpace1 reads back the values a space line of the first layout shows. */
  lemma SpaceLine1RoundTrip(d: Dataset, tracks: string, pct: string, extents: string, device: string)
    requires |tracks| <= 6 && |pct| <= 3 && |extents| <= 4
    requires Trimmed(tracks) && Trimmed(pct) && Trimmed(extents) && Trimmed(device)
    requires device != []
    ensures SetSpace1(d, SpaceLine1(tracks, pct, extents, device)) ==
      Parsed(d.(tracks := tracks, percentUsed := pct, extents := extents, device := device), None)
  {
    var line := SpaceLine1(tracks, pct, extents, device);
    assert line[0..6] == Column(tracks, 6);
    assert line[7..10] == Column(pct, 3);
    assert line[10..14] == Column(extents, 4);
    assert line[15..] == device;
    assert !IsSpace(line[|line| - 1]);
    TrimColumn(tracks, 6);
    TrimColumn(pct, 3);
    TrimColumn(extents, 4);
    TrimOfTrimmed(device);
  }

  /** A space line of the second layout. */
  function SpaceLine2(tracks: string, pct: string, extents: string, device: string): string
    requires |tracks| <= 6 && |pct| <= 3 && |extents| <= 4
  {
    Column(tracks, 6) + "  " + Column(pct, 3) + Column(extents, 4) + "  " + device
  }

  /** setSpace2 reads back the values a space line of the second layout shows. */
  lemma SpaceLine2RoundTrip(d: Dataset, tracks: string, pct: string, extents: string, device: string)
    requires |tracks| <= 6 && |pct| <= 3 && |extents| <= 4
    requires Trimmed(tracks) && Trimmed(pct) && Trimmed(extents) && Trimmed(device)
    requires device != []
    ensures SetSpace2(d, SpaceLine2(tracks, pct, extents, device)) ==
      Parsed(d.(tracks := tracks, percentUsed := pct, extents := extents, device := device), None)
  {
    var line := SpaceLine2(tracks, pct, extents, device);
    assert line[0..6] == Column(tracks, 6);
    assert line[8..11] == Column(pct, 3);
    assert line[11..15] == Column(extents, 4);
    assert line[17..] == device;
    assert !IsSpace(line[|line| - 1]);
    TrimColumn(tracks, 6);
    TrimColumn(pct, 3);
    TrimColumn(extents, 4);
    TrimOfTrimmed(device);
  }

  /** The digits of a block size as a panel shows it, optionally signed. */
  function Decimal(n: int): (s: string)
    ensures s != [] && Trimmed(s)
  {
    if n < 0 then "-" + Digits(-n) else Digits(n)
  }

  lemma BlockSizeOfDecimal(text: string, n: int)
    requires IsInt32(n) && Trim(text) == Decimal(n)
    ensures BlockSize(text) == Ok(FormatGrouped7(n))
  {
    ParseDecimal(n);
  }

  /** A disposition line of the first layout: organisation, record format,
      record length, block size. */
  function DispositionLine1(dsorg: string, recfm: string, lrecl: string, blksize: int): string
    requires |dsorg| <= 5 && |recfm| <= 5 && |lrecl| <= 6
  {
    Column(dsorg, 5) + Column(recfm, 5) + Column(lrecl, 6) + " " + Decimal(blksize)
  }

  /** setDisposition1 reads back the values a disposition line of the first
      layout shows, the block size reprinted with "%,7d". */
  lemma DispositionLine1RoundTrip(d: Dataset, dsorg: string, recfm: string, lrecl: string, blksize: int)
    requires |dsorg| <= 5 && |recfm| <= 5 && |lrecl| <= 6 && IsInt32(blksize)
    requires Trimmed(dsorg) && Trimmed(recfm) && Trimmed(lrecl)
    ensures SetDisposition1(d, DispositionLine1(dsorg, recfm, lrecl, blksize)) ==
      Parsed(d.(dsorg := dsorg, recfm := recfm, lrecl := lrecl, blksize := FormatGrouped7(blksize)), None)
  {
    var line := DispositionLine1(dsorg, recfm, lrecl, blksize);
    Line1Columns(dsorg, recfm, lrecl, blksize);
    assert BlockSize(line[16..]) == Ok(FormatGrouped7(blksize)) by {
      assert line[16..] == Column(Decimal(blksize), |Decimal(blksize)| + 1);
      TrimColumn(Decimal(blksize), |Decimal(blksize)| + 1);
      BlockSizeOfDecimal(line[16..], blksize);
    }
    Disposition1Of(d, line, FormatGrouped7(blksize));
  }

  lemma Line1Columns(dsorg: string, recfm: string, lrecl: string, blksize: int)
    requires |dsorg| <= 5 && |recfm| <= 5 && |lrecl| <= 6
    requires Trimmed(dsorg) && Trimmed(recfm) && Trimmed(lrecl)
    ensures var line := DispositionLine1(dsorg, recfm, lrecl, blksize);
      |line| > 16 && !Blank(line) &&
      Trim(line[0..5]) == dsorg && Trim(line[5..10]) == recfm && Trim(line[10..16]) == lrecl
  {
    var line := DispositionLine1(dsorg, recfm, lrecl, blksize);
    assert line[0..5] == Column(dsorg, 5);
    TrimColumn(dsorg, 5);
    assert line[5..10] == Column(recfm, 5);
    TrimColumn(recfm, 5);
    assert line[10..16] == Column(lrecl, 6);
    TrimColumn(lrecl, 6);
    assert !IsSpace(line[|line| - 1]);
  }

  lemma Disposition1Of(d: Dataset, details: string, blksize: string)
    requires !Blank(details) && |details| >= 16 && BlockSize(details[16..]) == Ok(blksize)
    ensures SetDisposition1(d, details) ==
      Parsed(d.(dsorg := Trim(details[0..5]), recfm := Trim(details[5..10]), lrecl := Trim(details[10..16]),
                blksize := blksize), None)
  {
  }

  /** A disposition line of the second layout. */
  function DispositionLine2(dsorg: string, recfm: string, lrecl: string, blksize: int): string
    requires |dsorg| <= 5 && |recfm| <= 5 && |lrecl| <= 6
  {
    Column(dsorg, 5) + " " + Column(recfm, 5) + " " + Column(lrecl, 6) + " " + Decimal(blksize)
  }

  /** setDisposition2 reads back the values a disposition line of the second
      layout shows. */
  lemma DispositionLine2RoundTrip(d: Dataset, dsorg: string, recfm: string, lrecl: string, blksize: int)
    requires |dsorg| <= 5 && |recfm| <= 5 && |lrecl| <= 6 && IsInt32(blksize)
    requires Trimmed(dsorg) && Trimmed(recfm) && Trimmed(lrecl)
    ensures SetDisposition2(d, DispositionLine2(dsorg, recfm, lrecl, blksize)) ==
      Parsed(d.(dsorg := dsorg, recfm := recfm, lrecl := lrecl, blksize := FormatGrouped7(blksize)), None)
  {
    var line := DispositionLine2(dsorg, recfm, lrecl, blksize);
    Line2Columns(dsorg, recfm, lrecl, blksize);
    assert BlockSize(line[19..]) == Ok(FormatGrouped7(blksize)) by {
      assert line[19..] == Decimal(blksize);
      TrimOfTrimmed(Decimal(blksize));
      BlockSizeOfDecimal(line[19..], blksize);
    }
    Disposition2Of(d, line, FormatGrouped7(blksize));
  }

  lemma Line2Columns(dsorg: string, recfm: string, lrecl: string, blksize: int)
    requires |dsorg| <= 5 && |recfm| <= 5 && |lrecl| <= 6
    requires Trimmed(dsorg) && Trimmed(recfm) && Trimmed(lrecl)
    ensures var line := DispositionLine2(dsorg, recfm, lrecl, blksize);
      |line| > 19 && !Blank(line) &&
      Trim(line[0..5]) == dsorg && Trim(line[6..11]) == recfm && Trim(line[12..18]) == lrecl
  {
    var line := DispositionLine2(dsorg, recfm, lrecl, blksize);
    assert line[0..5] == Column(dsorg, 5);
    TrimColumn(dsorg, 5);
    assert line[6..11] == Column(recfm, 5);
    TrimColumn(recfm, 5);
    assert line[12..18] == Column(lrecl, 6);
    TrimColumn(lrecl, 6);
    assert !IsSpace(line[|line| - 1]);
  }

  lemma Disposition2Of(d: Dataset, details: string, blksize: string)
    requires !Blank(details) && |details| >= 19 && BlockSize(details[19..]) == Ok(blksize)
    ensures SetDisposition2(d, details) ==
      Parsed(d.(dsorg := Trim(details[0..5]), recfm := Trim(details[6..11]), lrecl := Trim(details[12..18]),
                blksize := blksize), None)
  {
  }

  /** A dates line: created, expires, last referred. */
  function DatesLine(created: string, expires: string, referred: string): string
    requires |created| <= 10 && |expires| <= 9
  {
    Column(created, 10) + " " + Column(expires, 9) + "  " + referred
  }

  /** setDates reads back the dates a dates line shows. */
  lemma DatesLineRoundTrip(d: Dataset, created: string, expires: string, referred: string)
    requires |created| <= 10 && |expires| <= 9
    requires Trimmed(created) && Trimmed(expires) && Trimmed(referred)
    requires referred != []
    ensures SetDates(d, DatesLine(created, expires, referred)) ==
      Parsed(d.(created := created, expires := expires, referred := referred), None)
  {
    var line := DatesLine(created, expires, referred);
    assert line[0..10] == Column(created, 10);
    assert line[11..20] == Column(expires, 9);
    assert line[22..] == referred;
    assert !IsSpace(line[|line| - 1]);
    TrimColumn(created, 10);
    TrimColumn(expires, 9);
    TrimOfTrimmed(referred);
  }
}
