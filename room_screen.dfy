/**
  The list reducers of the video-call screen (client/src/screens/Room.jsx):
  the chat log, the list of files being received over the data channel and
  the list of files being sent. Each React updater takes the previous list
  and returns the next one; all are functions here except the chunk
  branch of the received-file handler, which copies the array and writes
  its last slot, and is a method over an array.

  Progress percentages use exact integer rounding in place of JavaScript's
  `Math.round(a / b * 100)`.
*/
module RoomScreen {

  datatype Option<T> = None | Some(value: T)

  type Byte = bv8
  type Chunk = seq<Byte>   // an ArrayBuffer; its byteLength is |chunk|

  datatype Message = Message(text: string, fromSelf: bool)

  datatype ReceivedFile = ReceivedFile(
    url: Option<string>,
    name: string,
    size: nat,
    receivedData: seq<Chunk>,
    receivedSize: nat,
    progress: nat)

  datatype SendingFile = SendingFile(name: string, size: nat, sentBytes: nat, progress: nat)

  /** The fields read from the parsed metadata object; an absent field is `None`. */
  datatype Metadata = Metadata(fileName: Option<string>, fileSize: Option<nat>)

  /** What arrives on the data channel: a string, an ArrayBuffer, or anything else. */
  datatype ChannelData = Text(s: string) | Binary(chunk: Chunk) | OtherData

  /** A file picked in the file input. */
  datatype PickedFile = PickedFile(name: string, size: nat)

  // ------------------------------------------------------------- percentages

  /**
    `Math.round(part / whole * 100)`: the integer nearest to 100 * part / whole,
    halves rounded up.
  */
  function Percent(part: nat, whole: nat): (p: nat)
    requires whole > 0
    ensures whole * (2 * p - 1) <= 200 * part < whole * (2 * p + 1)
  {
    var p := (200 * part + whole) / (2 * whole);
    DivBounds(200 * part + whole, 2 * whole);
    p
  }

  lemma DivBounds(n: nat, d: nat)
    requires d > 0
    ensures d * (n / d) <= n < d * (n / d) + d
  {
  }

  /** Nothing received is 0%, everything is 100%, and the percentage never exceeds 100 before that. */
  lemma PercentRange(part: nat, whole: nat)
    requires whole > 0
    ensures Percent(0, whole) == 0
    ensures Percent(whole, whole) == 100
    ensures part <= whole ==> Percent(part, whole) <= 100
  {
    var z: int := Percent(0, whole);
    assert whole * (2 * z - 1) <= 0 < whole * (2 * z + 1);
    PositiveFactor(whole, 2 * z + 1);
    NonPositiveFactor(whole, 2 * z - 1);
    var f: int := Percent(whole, whole);
    assert whole * (2 * f - 1) <= whole * 200 < whole * (2 * f + 1);
    MultiplyLess(whole, 2 * f - 1, 201);
    MultiplyLess(whole, 199, 2 * f + 1);
    if part <= whole {
      var p: int := Percent(part, whole);
      assert whole * (2 * p - 1) <= 200 * part <= 200 * whole;
      MultiplyLess(whole, 2 * p - 1, 201);
    }
  }

  lemma PositiveFactor(a: int, b: int)
    requires a > 0 && a * b > 0
    ensures b > 0
  {
  }

  lemma NonPositiveFactor(a: int, b: int)
    requires a > 0 && a * b <= 0
    ensures b <= 0
  {
  }

  lemma MultiplyLess(a: int, b: int, c: int)
    requires a > 0 && a * b < a * c
    ensures b < c
  {
  }

  // ------------------------------------------------------------ chat messages

  /** `addMessage(text, fromSelf)`: the message goes at the end, the log before it is kept. */
  function AddMessage(prev: seq<Message>, text: string, fromSelf: bool): (r: seq<Message>)
    ensures |r| == |prev| + 1
    ensures r[..|prev|] == prev
    ensures r[|prev|] == Message(text, fromSelf)
  {
    prev + [Message(text, fromSelf)]
  }

  /** `handleReceivedMessage(text)`: a message from the peer, appended as not from self. */
  function ReceivedMessage(prev: seq<Message>, text: string): (r: seq<Message>)
    ensures |r| == |prev| + 1
    ensures r[..|prev|] == prev
    ensures r[|prev|].text == text && !r[|prev|].fromSelf
  {
    AddMessage(prev, text, false)
  }

  // ---------------------------------------------------------- received files

  /** The sum of the byte lengths of the chunks. */
  function TotalBytes(chunks: seq<Chunk>): nat
  {
    if chunks == [] then 0 else |chunks[0]| + TotalBytes(chunks[1..])
  }

  lemma {:induction false} TotalBytesAppend(chunks: seq<Chunk>, c: Chunk)
    ensures TotalBytes(chunks + [c]) == TotalBytes(chunks) + |c|
  {
    if chunks != [] {
      assert (chunks + [c])[1..] == chunks[1..] + [c];
      TotalBytesAppend(chunks[1..], c);
    }
  }

  /** Both JavaScript truthiness tests of the metadata: a non-empty name and a non-zero size. */
  predicate Announces(m: Option<Metadata>)
  {
    && m.Some?
    && m.value.fileName.Some? && m.value.fileName.value != ""
    && m.value.fileSize.Some? && m.value.fileSize.value != 0
  }

  /** Every entry has a positive size, so progress is always defined. */
  predicate Sized(files: seq<ReceivedFile>)
  {
    forall i :: 0 <= i < |files| ==> files[i].size > 0
  }

  /** An entry whose counters agree with its chunks and whose progress agrees with its counters. */
  predicate Consistent(f: ReceivedFile)
  {
    && f.size > 0
    && f.receivedSize == TotalBytes(f.receivedData)
    && f.progress == Percent(f.receivedSize, f.size)
  }

  /** Every entry of the list is consistent. */
  predicate AllConsistent(files: seq<ReceivedFile>)
  {
    forall i :: 0 <= i < |files| ==> Consistent(files[i])
  }

  /**
    The string branch: metadata with a truthy `fileName` and `fileSize`
    opens one new, empty entry at the end; a string that does not parse, or
    parses to anything else, leaves the list as it was.
  */
  function ReceiveText(prev: seq<ReceivedFile>, parsed: Option<Metadata>): (r: seq<ReceivedFile>)
    ensures |r| == |prev| + (if Announces(parsed) then 1 else 0)
    ensures r[..|prev|] == prev
    ensures Announces(parsed) ==>
      r[|prev|] == ReceivedFile(None, parsed.value.fileName.value, parsed.value.fileSize.value, [], 0, 0)
  {
    if Announces(parsed) then
      prev + [ReceivedFile(None, parsed.value.fileName.value, parsed.value.fileSize.value, [], 0, 0)]
    else
      prev
  }

  /**
    The binary branch: the chunk goes to the LAST entry, whose byte count
    grows by the chunk's length and whose progress is recomputed; every
    other entry and the length stay as they were; an empty list stays empty.
  */
  function AddChunk(files: seq<ReceivedFile>, chunk: Chunk): (r: seq<ReceivedFile>)
    requires Sized(files)
    ensures |r| == |files|
    ensures forall i :: 0 <= i < |files| - 1 ==> r[i] == files[i]
    ensures files != [] ==>
      var f, g := files[|files| - 1], r[|files| - 1];
      && g.url == f.url && g.name == f.name && g.size == f.size
      && g.receivedData == f.receivedData + [chunk]
      && g.receivedSize == f.receivedSize + |chunk|
      && g.progress == Percent(g.receivedSize, g.size)
  {
    if files == [] then files
    else
      var last := files[|files| - 1];
      var size' := last.receivedSize + |chunk|;
      files[|files| - 1 := last.(receivedData := last.receivedData + [chunk],
                                 receivedSize := size',
                                 progress := Percent(size', last.size))]
  }

  /**
    `handleReceivedFile(data)` as one reducer step; `parse` stands for
    `JSON.parse`, `None` for a string it rejects.
  */
  function ReceiveData(prev: seq<ReceivedFile>, data: ChannelData, parse: string -> Option<Metadata>): (r: seq<ReceivedFile>)
    requires Sized(prev)
    ensures Sized(r)
    ensures data.OtherData? ==> r == prev
    ensures data.Binary? && prev == [] ==> r == prev
    ensures data.Text? && !Announces(parse(data.s)) ==> r == prev
  {
    match data
    case Text(s) => ReceiveText(prev, parse(s))
    case Binary(chunk) => AddChunk(prev, chunk)
    case OtherData => prev
  }

  /** Every entry stays consistent across one channel message: byte counts and progress never drift. */
  lemma ReceiveDataConsistent(prev: seq<ReceivedFile>, data: ChannelData, parse: string -> Option<Metadata>)
    requires AllConsistent(prev)
    ensures Sized(prev)
    ensures AllConsistent(ReceiveData(prev, data, parse))
  {
    var r := ReceiveData(prev, data, parse);
    match data
    case Text(s) =>
      if Announces(parse(s)) {
        PercentRange(0, parse(s).value.fileSize.value);
        assert r[|prev|].receivedData == [];
      }
    case Binary(chunk) =>
      if prev != [] {
        TotalBytesAppend(prev[|prev| - 1].receivedData, chunk);
      }
    case OtherData =>
  }

  /** The handler applied to the channel messages in arrival order. */
  function ReceiveAll(prev: seq<ReceivedFile>, datas: seq<ChannelData>, parse: string -> Option<Metadata>): (r: seq<ReceivedFile>)
    requires Sized(prev)
    ensures Sized(r)
    ensures |prev| <= |r|
    decreases |datas|
  {
    if datas == [] then prev
    else ReceiveAll(ReceiveData(prev, datas[0], parse), datas[1..], parse)
  }

  /** Every entry stays consistent under any sequence of channel messages, each handled once. */
  lemma {:induction false} ReceiveAllConsistent(prev: seq<ReceivedFile>, datas: seq<ChannelData>, parse: string -> Option<Metadata>)
    requires AllConsistent(prev)
    ensures Sized(prev)
    ensures AllConsistent(ReceiveAll(prev, datas, parse))
    decreases |datas|
  {
    if datas != [] {
      var next := ReceiveData(prev, datas[0], parse);
      ReceiveDataConsistent(prev, datas[0], parse);
      ReceiveAllConsistent(next, datas[1..], parse);
      assert ReceiveAll(prev, datas, parse) == ReceiveAll(next, datas[1..], parse);
    }
  }

  /**
    `[...prev]`, then a copy of the last record with the chunk added:
    returns a fresh array holding AddChunk of the old contents, or the
    very same array when there is no entry to add to.
  */
  method ReceiveChunk(prev: array<ReceivedFile>, chunk: Chunk) returns (next: array<ReceivedFile>)
    requires Sized(prev[..])
    ensures next[..] == AddChunk(prev[..], chunk)
    ensures prev.Length == 0 ==> next == prev
    ensures prev.Length > 0 ==> next != prev
  {
    var lastFileIndex := prev.Length - 1;
    if lastFileIndex >= 0 {
      var updatedFiles := new ReceivedFile[prev.Length](i reads prev requires 0 <= i < prev.Length => prev[i]);
      var lastFile := updatedFiles[lastFileIndex];
      lastFile := lastFile.(receivedData := lastFile.receivedData + [chunk]);
      var chunkSize := |chunk|;
      lastFile := lastFile.(receivedSize := lastFile.receivedSize + chunkSize);
      lastFile := lastFile.(progress := Percent(lastFile.receivedSize, lastFile.size));
      updatedFiles[lastFileIndex] := lastFile;
      next := updatedFiles;
    } else {
      next := prev;
    }
  }

  // ------------------------------------------------------ download trigger

  /** The render step's test for building the download: no URL yet and progress shows 100. */
  predicate ShowsComplete(f: ReceivedFile)
  {
    f.url.None? && f.progress == 100
  }

  /** The intended test: no URL yet and every announced byte has arrived. */
  predicate HasAllBytes(f: ReceivedFile)
  {
    f.url.None? && f.receivedSize >= f.size
  }

  /**
    As written, the download is built too early: a 1000-byte file with 995
    bytes received already shows 100%, because 99.5 rounds up.
  */
  lemma EarlyCompletion()
    ensures var f := ReceivedFile(None, "f", 1000, [seq(995, _ => 0 as Byte)], 995, 100);
      Consistent(f) && ShowsComplete(f) && f.receivedSize < f.size
  {
  }

  /**
    With the intended test the download holds every byte, and a consistent
    entry that passes it also shows at least 100%.
  */
  lemma CompleteOnlyWithAllBytes(f: ReceivedFile)
    requires Consistent(f)
    ensures HasAllBytes(f) <==> f.url.None? && TotalBytes(f.receivedData) >= f.size
    ensures HasAllBytes(f) ==> f.progress >= 100
  {
    if HasAllBytes(f) {
      var p: int := f.progress;
      assert f.size * (2 * p + 1) > 200 * f.receivedSize >= 200 * f.size;
      MultiplyLess(f.size, 199, 2 * p + 1);
    }
  }

  // ----------------------------------------------------------- sending files

  /** `prev.findIndex(f => f.name === name)`: the first entry with that name, or -1. */
  function FindIndex(files: seq<SendingFile>, name: string): (i: int)
    ensures -1 <= i < |files|
    ensures i >= 0 ==> files[i].name == name
    ensures forall j :: 0 <= j < |files| && (i < 0 || j < i) ==> files[j].name != name
  {
    if files == [] then -1
    else if files[0].name == name then 0
    else
      var k := FindIndex(files[1..], name);
      if k < 0 then -1 else k + 1
  }

  /**
    `handleFileSendProgress(fileName, sentBytes, totalBytes)`: the first
    entry named `fileName` takes the new byte count and progress (keeping
    its own size); if there is none, a new entry is appended.
  */
  function SendProgress(prev: seq<SendingFile>, fileName: string, sentBytes: nat, totalBytes: nat): (r: seq<SendingFile>)
    requires totalBytes > 0
    ensures var k := FindIndex(prev, fileName);
      k >= 0 ==>
        && |r| == |prev|
        && r[k] == prev[k].(sentBytes := sentBytes, progress := Percent(sentBytes, totalBytes))
        && (forall j :: 0 <= j < |prev| && j != k ==> r[j] == prev[j])
    ensures FindIndex(prev, fileName) < 0 ==>
      r == prev + [SendingFile(fileName, totalBytes, sentBytes, Percent(sentBytes, totalBytes))]
  {
    var fileIndex := FindIndex(prev, fileName);
    if fileIndex >= 0 then
      prev[fileIndex := prev[fileIndex].(sentBytes := sentBytes, progress := Percent(sentBytes, totalBytes))]
    else
      prev + [SendingFile(fileName, totalBytes, sentBytes, Percent(sentBytes, totalBytes))]
  }

  /** Two lists whose names agree place by place have the same first match. */
  lemma FindIndexSameNames(a: seq<SendingFile>, b: seq<SendingFile>, name: string)
    requires |a| == |b|
    requires forall j :: 0 <= j < |a| ==> a[j].name == b[j].name
    ensures FindIndex(a, name) == FindIndex(b, name)
  {
  }

  /**
    After a progress report the file is listed, and its first entry carries
    exactly the reported byte count and percentage.
  */
  lemma SendProgressRecords(prev: seq<SendingFile>, fileName: string, sentBytes: nat, totalBytes: nat)
    requires totalBytes > 0
    ensures var r := SendProgress(prev, fileName, sentBytes, totalBytes);
      var k := FindIndex(r, fileName);
      k >= 0 && r[k].sentBytes == sentBytes && r[k].progress == Percent(sentBytes, totalBytes)
  {
    var r := SendProgress(prev, fileName, sentBytes, totalBytes);
    var i := FindIndex(prev, fileName);
    if i >= 0 {
      FindIndexSameNames(prev, r, fileName);
    } else {
      var k := FindIndex(r, fileName);
      assert r[|prev|].name == fileName;
      assert k == |prev|;
    }
  }

  /** Reporting the same progress twice has the effect of reporting it once. */
  lemma SendProgressIdempotent(prev: seq<SendingFile>, fileName: string, sentBytes: nat, totalBytes: nat)
    requires totalBytes > 0
    ensures var once := SendProgress(prev, fileName, sentBytes, totalBytes);
      SendProgress(once, fileName, sentBytes, totalBytes) == once
  {
    var once := SendProgress(prev, fileName, sentBytes, totalBytes);
    var twice := SendProgress(once, fileName, sentBytes, totalBytes);
    SendProgressRecords(prev, fileName, sentBytes, totalBytes);
    var k := FindIndex(once, fileName);
    assert twice == once[k := once[k]];
  }

  /**
    `handleFileSelect`: when a file was picked it is listed at the end at 0%
    (whether or not its name is already listed); otherwise nothing changes.
  */
  function SelectFile(prev: seq<SendingFile>, file: Option<PickedFile>): (r: seq<SendingFile>)
    ensures file.None? ==> r == prev
    ensures file.Some? ==>
      && |r| == |prev| + 1
      && r[..|prev|] == prev
      && r[|prev|] == SendingFile(file.value.name, file.value.size, 0, 0)
  {
    if file.Some? then prev + [SendingFile(file.value.name, file.value.size, 0, 0)] else prev
  }

  /**
    A file selected while another entry already has its name never gets
    progress: reports go to the earlier entry, and the new one stays at 0%.
  */
  lemma DuplicateSelectionShadowed(prev: seq<SendingFile>, file: PickedFile, sentBytes: nat, totalBytes: nat)
    requires totalBytes > 0
    requires FindIndex(prev, file.name) >= 0
    ensures var listed := SelectFile(prev, Some(file));
      var r := SendProgress(listed, file.name, sentBytes, totalBytes);
      r[|prev|] == SendingFile(file.name, file.size, 0, 0)
  {
  }
}
