/** One IND$FILE transfer session (Transfer.java): the header values latched from
    the outbound structured fields, the deduplicated list of data records with
    its running byte count, the upload slicer and the reassembly of a download. */
module FileTransfer {
  import opened JavaLang

  /** A Java byte. */
  type Byte = b: int | -128 <= b < 128

  datatype TransferContents = Msg | Data

  datatype TransferType =
    | Download  // mainframe -> terminal
    | Upload    // terminal -> mainframe

  /** What a transfer takes from an outbound structured field: its contents and
      its direction, each of which the field may leave unset (null). */
  datatype OutboundRecord = OutboundRecord(
    transferContents: Option<TransferContents>,
    transferType: Option<TransferType>)

  /** One chunk of transfer payload. Two records are equal when their bytes and
      their direction flag are equal. */
  datatype DataRecord = DataRecord(buffer: seq<Byte>, outbound: bool)

  /** The user's transfer command, as far as a transfer reads it. */
  datatype IndFileCommand = IndFileCommand(fileName: string, tlq: bool)

  /** The contents the earliest record that sets any supplies. */
  function FirstContents(rs: seq<OutboundRecord>): Option<TransferContents>
  {
    if rs == [] then None
    else if rs[0].transferContents.Some? then rs[0].transferContents
    else FirstContents(rs[1..])
  }

  /** The direction the earliest record that sets any supplies. */
  function FirstType(rs: seq<OutboundRecord>): Option<TransferType>
  {
    if rs == [] then None
    else if rs[0].transferType.Some? then rs[0].transferType
    else FirstType(rs[1..])
  }

  /** A record added at the end decides the contents only when no earlier
      record set them. */
  lemma {:induction false} FirstContentsAppend(rs: seq<OutboundRecord>, r: OutboundRecord)
    ensures FirstContents(rs + [r]) ==
      if FirstContents(rs).Some? then FirstContents(rs) else r.transferContents
  {
    if rs != [] {
      assert (rs + [r])[1..] == rs[1..] + [r];
      FirstContentsAppend(rs[1..], r);
    }
  }

  /** A record added at the end decides the direction only when no earlier
      record set it. */
  lemma {:induction false} FirstTypeAppend(rs: seq<OutboundRecord>, r: OutboundRecord)
    ensures FirstType(rs + [r]) ==
      if FirstType(rs).Some? then FirstType(rs) else r.transferType
  {
    if rs != [] {
      assert (rs + [r])[1..] == rs[1..] + [r];
      FirstTypeAppend(rs[1..], r);
    }
  }

  /** The largest chunk the upload slicer hands out. */
  const INBOUND_MAX_BUFFER_SIZE: nat := 2048

  /** The total number of payload bytes in a list of records. */
  function TotalLength(rs: seq<DataRecord>): nat
  {
    if rs == [] then 0 else TotalLength(rs[..|rs| - 1]) + |rs[|rs| - 1].buffer|
  }

  /** The payload of a list of records, in list order. */
  function Concat(rs: seq<DataRecord>): (r: seq<Byte>)
    ensures |r| == TotalLength(rs)
  {
    if rs == [] then [] else Concat(rs[..|rs| - 1]) + rs[|rs| - 1].buffer
  }

  /** No two records of the list are equal. */
  predicate Distinct(rs: seq<DataRecord>)
  {
    forall i, j :: 0 <= i < j < |rs| ==> rs[i] != rs[j]
  }

  /** The chunks an upload buffer is cut into: INBOUND_MAX_BUFFER_SIZE bytes at a
      time, the last one shorter. */
  function Chunks(b: seq<Byte>): (cs: seq<seq<Byte>>)
    decreases |b|
  {
    if b == [] then []
    else
      var n := Min(INBOUND_MAX_BUFFER_SIZE, |b|);
      [b[..n]] + Chunks(b[n..])
  }

  /** Every chunk holds between 1 and INBOUND_MAX_BUFFER_SIZE bytes, all but
      the last exactly INBOUND_MAX_BUFFER_SIZE, so a buffer of n bytes gives
      n / INBOUND_MAX_BUFFER_SIZE chunks, rounded up. */
  lemma {:induction false} ChunkSizes(b: seq<Byte>)
    ensures var cs := Chunks(b);
      (forall i :: 0 <= i < |cs| ==> 1 <= |cs[i]| <= INBOUND_MAX_BUFFER_SIZE) &&
      (forall i :: 0 <= i < |cs| - 1 ==> |cs[i]| == INBOUND_MAX_BUFFER_SIZE) &&
      |cs| == (|b| + INBOUND_MAX_BUFFER_SIZE - 1) / INBOUND_MAX_BUFFER_SIZE
    decreases |b|
  {
    if b != [] {
      var n := Min(INBOUND_MAX_BUFFER_SIZE, |b|);
      ChunkSizes(b[n..]);
      var cs := Chunks(b);
      assert cs[1..] == Chunks(b[n..]);
      if |b| <= INBOUND_MAX_BUFFER_SIZE {
        assert b[n..] == [];
      }
    }
  }

  /** The chunks joined back together. */
  function Flatten(cs: seq<seq<Byte>>): seq<Byte>
  {
    if cs == [] then [] else cs[0] + Flatten(cs[1..])
  }

  /** Cutting a buffer into chunks loses and reorders nothing. */
  lemma {:induction false} ChunksRoundTrip(b: seq<Byte>)
    ensures Flatten(Chunks(b)) == b
    decreases |b|
  {
    if b != [] {
      var n := Min(INBOUND_MAX_BUFFER_SIZE, |b|);
      ChunksRoundTrip(b[n..]);
      assert Chunks(b)[1..] == Chunks(b[n..]);
      assert b[..n] + b[n..] == b;
    }
  }

  /** packBuffer: copies the record's bytes into buffer at ptr and returns the
      position after them. */
  method PackBuffer(record: DataRecord, buffer: array<Byte>, ptr: nat) returns (next: nat)
    requires ptr + |record.buffer| <= buffer.Length
    modifies buffer
    ensures next == ptr + |record.buffer|
    ensures buffer[..] == old(buffer[..ptr]) + record.buffer + old(buffer[next..])
  {
    next := ptr + |record.buffer|;
    forall k | 0 <= k < |record.buffer| {
      buffer[ptr + k] := record.buffer[k];
    }
    assert buffer[..] == old(buffer[..ptr]) + record.buffer + old(buffer[next..]);
  }

  class Transfer {
    var transferContents: Option<TransferContents>
    var transferType: Option<TransferType>
    var indFileCommand: Option<IndFileCommand>

    var outboundRecords: seq<OutboundRecord>
    var dataRecords: seq<DataRecord>
    var dataLength: int

    var inboundBuffer: Option<seq<Byte>>
    var inboundBufferPtr: int

    /** The chunks getDataHeader has handed out since the buffer was set. */
    ghost var sent: seq<seq<Byte>>

    /** The session invariant: the contents and direction are the first ones
        the structured fields supplied, the byte count is the size of the
        stored records, no record is stored twice, and the upload cursor sits
        inside the buffer at the boundary after the chunks already handed out. */
    ghost predicate Valid()
      reads this
    {
      && transferContents == FirstContents(outboundRecords)
      && transferType == FirstType(outboundRecords)
      && dataLength == TotalLength(dataRecords)
      && Distinct(dataRecords)
      && (inboundBuffer.None? ==> inboundBufferPtr == 0 && sent == [])
      && (inboundBuffer.Some? ==>
            && 0 <= inboundBufferPtr <= |inboundBuffer.value|
            && sent + Chunks(inboundBuffer.value[inboundBufferPtr..]) == Chunks(inboundBuffer.value))
    }

    /** new Transfer(outboundRecord): an empty session that has seen one
        structured field. */
    constructor (outboundRecord: OutboundRecord)
      ensures Valid()
      ensures outboundRecords == [outboundRecord]
      ensures transferContents == outboundRecord.transferContents
      ensures transferType == outboundRecord.transferType
      ensures dataRecords == [] && dataLength == 0
      ensures inboundBuffer == None && indFileCommand == None
    {
      transferContents := None;
      transferType := None;
      indFileCommand := None;
      outboundRecords := [];
      dataRecords := [];
      dataLength := 0;
      inboundBuffer := None;
      inboundBufferPtr := 0;
      sent := [];
      new;
      AddOutbound(outboundRecord);
    }

    /** add(FileTransferOutboundSF): records the structured field and latches
        the contents and direction it supplies, unless they are already set. */
    method AddOutbound(outboundRecord: OutboundRecord)
      requires Valid()
      modifies this
      ensures Valid()
      ensures outboundRecords == old(outboundRecords) + [outboundRecord]
      ensures transferContents ==
        if old(transferContents).None? then outboundRecord.transferContents else old(transferContents)
      ensures transferType ==
        if old(transferType).None? then outboundRecord.transferType else old(transferType)
      ensures old(IsDownloadData()) ==> IsDownloadData()
      ensures dataRecords == old(dataRecords) && dataLength == old(dataLength)
      ensures inboundBuffer == old(inboundBuffer) && inboundBufferPtr == old(inboundBufferPtr)
      ensures sent == old(sent) && indFileCommand == old(indFileCommand)
    {
      FirstContentsAppend(outboundRecords, outboundRecord);
      FirstTypeAppend(outboundRecords, outboundRecord);
      outboundRecords := outboundRecords + [outboundRecord];
      if transferContents == None {
        transferContents := outboundRecord.transferContents;
      }
      if transferType == None {
        transferType := outboundRecord.transferType;
      }
    }

    /** add(DataRecord): a record equal to one already stored is not stored
        again and the 1-based position of the stored copy is returned; a new
        record is appended, counted in dataLength, and its position returned. */
    method AddDataRecord(dataRecord: DataRecord) returns (position: int)
      requires Valid()
      modifies this
      ensures Valid()
      ensures 1 <= position <= |dataRecords| && dataRecords[position - 1] == dataRecord
      ensures dataRecord in old(dataRecords) ==>
        && dataRecords == old(dataRecords)
        && dataLength == old(dataLength)
        && forall j :: 0 <= j < position - 1 ==> dataRecords[j] != dataRecord
      ensures dataRecord !in old(dataRecords) ==>
        && dataRecords == old(dataRecords) + [dataRecord]
        && dataLength == old(dataLength) + |dataRecord.buffer|
        && position == |dataRecords|
      ensures outboundRecords == old(outboundRecords)
      ensures transferContents == old(transferContents) && transferType == old(transferType)
      ensures inboundBuffer == old(inboundBuffer) && inboundBufferPtr == old(inboundBufferPtr)
      ensures sent == old(sent) && indFileCommand == old(indFileCommand)
    {
      // dataRecords.contains / dataRecords.indexOf
      var i := 0;
      while i < |dataRecords|
        invariant 0 <= i <= |dataRecords|
        invariant forall j :: 0 <= j < i ==> dataRecords[j] != dataRecord
      {
        if dataRecords[i] == dataRecord {
          return i + 1;
        }
        i := i + 1;
      }

      dataRecords := dataRecords + [dataRecord];
      assert dataRecords[..|dataRecords| - 1] == old(dataRecords);
      dataLength := dataLength + |dataRecord.buffer|;
      position := |dataRecords|;
    }

    /** isDownloadData: a data (not message) transfer from the host. */
    predicate IsDownloadData()
      reads this
      ensures Valid() ==>
        (IsDownloadData() <==>
          FirstContents(outboundRecords) == Some(Data) && FirstType(outboundRecords) == Some(Download))
    {
      transferContents == Some(Data) && transferType == Some(Download)
    }

    /** combineDataBuffers: the stored records packed back to back, in the order
        they were stored, into a new array of dataLength bytes. */
    method CombineDataBuffers() returns (fullBuffer: array<Byte>)
      requires Valid()
      ensures fresh(fullBuffer)
      ensures fullBuffer.Length == dataLength
      ensures fullBuffer[..] == Concat(dataRecords)
    {
      fullBuffer := new Byte[dataLength](_ => 0);
      var ptr := 0;
      for i := 0 to |dataRecords|
        invariant ptr == TotalLength(dataRecords[..i]) <= dataLength
        invariant fullBuffer[..ptr] == Concat(dataRecords[..i])
      {
        TotalLengthPrefix(dataRecords, i + 1);
        TotalLengthPrefixBound(dataRecords, i + 1);
        ptr := PackBuffer(dataRecords[i], fullBuffer, ptr);
      }
      assert dataRecords[..|dataRecords|] == dataRecords;
    }

    /** setTransferBuffer: the upload source; the cursor goes back to its start. */
    method SetTransferBuffer(buffer: seq<Byte>)
      requires Valid()
      modifies this
      ensures Valid()
      ensures inboundBuffer == Some(buffer) && inboundBufferPtr == 0 && sent == []
      ensures GetBytesLeft() == |buffer|
      ensures dataRecords == old(dataRecords) && dataLength == old(dataLength)
      ensures outboundRecords == old(outboundRecords)
      ensures transferContents == old(transferContents) && transferType == old(transferType)
      ensures indFileCommand == old(indFileCommand)
    {
      inboundBuffer := Some(buffer);
      inboundBufferPtr := 0;
      sent := [];
      assert buffer[0..] == buffer;
    }

    /** getDataHeader: the next chunk of the upload buffer, at most
        INBOUND_MAX_BUFFER_SIZE bytes from the cursor, as an inbound record that
        is also stored with add; the cursor moves past it. */
    method GetDataHeader() returns (dataHeader: DataRecord)
      requires Valid() && HasMoreData()
      modifies this
      ensures Valid()
      ensures inboundBuffer == old(inboundBuffer)
      ensures var n := Min(INBOUND_MAX_BUFFER_SIZE, old(GetBytesLeft()));
        && 1 <= n <= INBOUND_MAX_BUFFER_SIZE
        && inboundBufferPtr == old(inboundBufferPtr) + n
        && dataHeader == DataRecord(inboundBuffer.value[old(inboundBufferPtr)..inboundBufferPtr], false)
      ensures dataHeader.buffer == Chunks(inboundBuffer.value[old(inboundBufferPtr)..])[0]
      ensures sent == old(sent) + [dataHeader.buffer]
      ensures dataHeader in dataRecords
      ensures dataHeader in old(dataRecords) ==>
        dataRecords == old(dataRecords) && dataLength == old(dataLength)
      ensures dataHeader !in old(dataRecords) ==>
        dataRecords == old(dataRecords) + [dataHeader] &&
        dataLength == old(dataLength) + |dataHeader.buffer|
      ensures outboundRecords == old(outboundRecords)
      ensures transferContents == old(transferContents) && transferType == old(transferType)
      ensures indFileCommand == old(indFileCommand)
    {
      var buffer := inboundBuffer.value;
      var buflen := Min(INBOUND_MAX_BUFFER_SIZE, GetBytesLeft());
      NextChunk(buffer, inboundBufferPtr, sent);
      dataHeader := DataRecord(buffer[inboundBufferPtr..inboundBufferPtr + buflen], false);
      inboundBufferPtr := inboundBufferPtr + buflen;
      sent := sent + [dataHeader.buffer];
      var _ := AddDataRecord(dataHeader);
    }

    /** size: the number of records stored. */
    function Size(): (n: nat)
      reads this
      ensures n == |dataRecords|
    {
      |dataRecords|
    }

    /** hasMoreData: some of the upload buffer has not been handed out yet. */
    predicate HasMoreData()
      reads this
      requires Valid()
      ensures HasMoreData() <==> inboundBuffer.Some? && inboundBufferPtr < |inboundBuffer.value|
    {
      GetBytesLeft() > 0
    }

    /** getBytesLeft: what remains of the upload buffer after the cursor; 0 when
        no buffer is set. */
    function GetBytesLeft(): (n: int)
      reads this
      requires Valid()
      ensures 0 <= n
      ensures inboundBuffer.None? ==> n == 0
      ensures inboundBuffer.Some? ==> n == |inboundBuffer.value| - inboundBufferPtr
      ensures inboundBuffer.Some? ==> n == |Flatten(Chunks(inboundBuffer.value[inboundBufferPtr..]))|
    {
      if inboundBuffer.None? then 0
      else
        ChunksRoundTrip(inboundBuffer.value[inboundBufferPtr..]);
        |inboundBuffer.value| - inboundBufferPtr
    }

    /** setTransferCommand. */
    method SetTransferCommand(command: IndFileCommand)
      modifies this`indFileCommand
      ensures indFileCommand == Some(command)
    {
      indFileCommand := Some(command);
    }

    /** getFileName: the file name of the transfer command (which must be set). */
    function GetFileName(): (name: string)
      reads this
      requires indFileCommand.Some?
      ensures name == indFileCommand.value.fileName
    {
      indFileCommand.value.fileName
    }

    /** hasTLQ: whether the transfer command's data set name takes the TSO
        prefix. */
    function HasTlq(): (tlq: bool)
      reads this
      requires indFileCommand.Some?
      ensures tlq == indFileCommand.value.tlq
    {
      indFileCommand.value.tlq
    }
  }

  lemma SuffixSlices<T>(s: seq<T>, p: nat, n: nat)
    requires p + n <= |s|
    ensures s[p..][..n] == s[p..p + n] && s[p..][n..] == s[p + n..]
  {
  }

  lemma SentThenLeft<T>(sent: seq<T>, c: T, left: seq<T>)
    ensures (sent + [c]) + left == sent + ([c] + left)
  {
  }

  /** Handing out the chunk at the cursor keeps the chunks sent and the
      chunks left together equal to the chunks of the whole buffer. */
  lemma NextChunk(buffer: seq<Byte>, ptr: int, sent: seq<seq<Byte>>)
    requires 0 <= ptr < |buffer|
    requires sent + Chunks(buffer[ptr..]) == Chunks(buffer)
    ensures var n := Min(INBOUND_MAX_BUFFER_SIZE, |buffer| - ptr);
      buffer[ptr..ptr + n] == Chunks(buffer[ptr..])[0] &&
      (sent + [buffer[ptr..ptr + n]]) + Chunks(buffer[ptr + n..]) == Chunks(buffer)
  {
    var n := Min(INBOUND_MAX_BUFFER_SIZE, |buffer| - ptr);
    SuffixSlices(buffer, ptr, n);
    SentThenLeft(sent, buffer[ptr..ptr + n], Chunks(buffer[ptr + n..]));
  }

  lemma TotalLengthPrefix(rs: seq<DataRecord>, i: nat)
    requires 0 < i <= |rs|
    ensures TotalLength(rs[..i]) == TotalLength(rs[..i - 1]) + |rs[i - 1].buffer|
    ensures Concat(rs[..i]) == Concat(rs[..i - 1]) + rs[i - 1].buffer
  {
    assert rs[..i][..i - 1] == rs[..i - 1];
  }

  lemma {:induction false} TotalLengthPrefixBound(rs: seq<DataRecord>, i: nat)
    requires i <= |rs|
    ensures TotalLength(rs[..i]) <= TotalLength(rs)
    decreases |rs|
  {
    if i < |rs| {
      var init := rs[..|rs| - 1];
      TotalLengthPrefixBound(init, i);
      assert init[..i] == rs[..i];
    } else {
      assert rs[..i] == rs;
    }
  }

  /** Upload round trip: once a buffer has been handed out chunk by chunk until
      no data is left, the chunks, joined in order, are the buffer. */
  lemma UploadRoundTrip(t: Transfer)
    requires t.Valid() && t.inboundBuffer.Some? && !t.HasMoreData()
    ensures t.sent == Chunks(t.inboundBuffer.value)
    ensures Flatten(t.sent) == t.inboundBuffer.value
  {
    var b := t.inboundBuffer.value;
    assert b[t.inboundBufferPtr..] == [];
    assert t.sent + [] == t.sent;
    ChunksRoundTrip(b);
  }
}
