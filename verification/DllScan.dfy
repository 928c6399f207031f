/** executeDLLScan: one event per module, and what the backend reads back from those events. */
module DllScan {
  import opened Wrappers
  import opened Events
  import opened Channels
  import opened TextCodec
  import EventImage

  datatype ModuleInfo = ModuleInfo(name: Text, path: Text, base: UInt64, size: UInt32)

  const SCAN_TYPE: Text := [0x44, 0x4C, 0x4C, 0x53, 0x63, 0x61, 0x6E]   // "DLLScan"

  /** A string of ASCII characters as the runes ranging over it yields. */
  function Ascii(s: string): (t: Text)
    requires forall i :: 0 <= i < |s| ==> s[i] as int < 0x80
    ensures |t| == |s| && forall i :: 0 <= i < |s| ==> t[i] == s[i] as int
  {
    seq(|s|, i requires 0 <= i < |s| => s[i] as int)
  }

  lemma ScanTypeIs()
    ensures SCAN_TYPE == Ascii("DLLScan")
  {
  }

  /** The event for one module. */
  function ScanEvent(m: ModuleInfo): ACEvent {
    ACEvent(1, Packed16(SCAN_TYPE, 260), 0, 0, 0, Packed32(m.path, 260), Packed16([], 1024), 0, m.base, m.size)
  }

  function ScanEvents(mods: seq<ModuleInfo>): (evs: seq<ACEvent>)
    ensures |evs| == |mods| && forall i :: 0 <= i < |mods| ==> evs[i] == ScanEvent(mods[i])
  {
    seq(|mods|, i requires 0 <= i < |mods| => ScanEvent(mods[i]))
  }

  /** executeDLLScan, with the answer of GetProcessModules as a parameter; an error leaves no modules. */
  method ExecuteDLLScan(answer: Result<seq<ModuleInfo>, string>, channel: EventChannel)
    modifies channel
    ensures channel.sent == old(channel.sent) + (if answer.Success? then ScanEvents(answer.value) else [])
  {
    var mods := match answer case Success(ms) => ms case Failure(_) => [];
    var i := 0;
    while i < |mods|
      invariant 0 <= i <= |mods|
      invariant channel.sent == old(channel.sent) + ScanEvents(mods[..i])
    {
      var m := mods[i];
      var kind := StringZ260U16(SCAN_TYPE);
      var path := StringZ260I32(m.path);
      var line := StringZ1024U16([]);
      var dllEvent := ACEvent(1, kind, 0, 0, 0, path, line, 0, m.base, m.size);
      channel.Send(dllEvent);
      assert ScanEvents(mods[..i + 1]) == ScanEvents(mods[..i]) + [dllEvent];
      i := i + 1;
    }
    assert mods[..i] == mods;
  }

  /** What ToJSON of the backend reads from an event. */
  datatype Report = Report(
    src: Int32, eventType: Text, callerPid: Int32, targetPid: Int32, threadId: Int32,
    imageFileName: Text, commandLine: Text, isCreate: Int32, imageBase: UInt64, imageSize: UInt32)

  function ToReport(e: ACEvent): Report {
    Report(e.src, Read16(e.eventType), e.callerPid, e.targetPid, e.threadId,
           Read32(e.imageFileName), Read16(e.commandLine), e.isCreate, e.imageBase, e.imageSize)
  }

  lemma ScanTypeReadsBack()
    ensures Read16(Packed16(SCAN_TYPE, 260)) == SCAN_TYPE
    ensures Read16(Packed16([], 1024)) == []
  {
    assert |Encode(SCAN_TYPE)| <= 14 by { EncodeLength(SCAN_TYPE); }
    var k := RoundTrip16(SCAN_TYPE, 260);
    var j := RoundTrip16([], 1024);
  }

  lemma {:induction false} EncodeLength(s: Text)
    ensures |s| <= |Encode(s)| <= 2 * |s|
  {
    if s != [] {
      EncodeLength(s[1..]);
    }
  }

  /** One module through the bytes: everything is reported as scanned, and the path exactly as kept by
      the 260-cell buffer if and only if what was kept lies in the BMP. */
  lemma ScanReport(m: ModuleInfo, padding: seq<Byte>)
    requires |padding| == EventImage.SIZE
    ensures
      var r := ToReport(EventImage.Decode(EventImage.Image(ScanEvent(m), padding)));
      && r == Report(1, SCAN_TYPE, 0, 0, 0, r.imageFileName, [], 0, m.base, m.size)
      && (r.imageFileName == Kept32(m.path, 260) <==> Bmp(Kept32(m.path, 260)))
  {
    EventImage.DecodeImage(ScanEvent(m), padding);
    ScanTypeReadsBack();
    RoundTrip32Iff(m.path, 260);
  }

  /** What the backend reports for the events it is sent, whatever their padding holds. */
  function Received(evs: seq<ACEvent>, paddings: seq<seq<Byte>>): (rs: seq<Report>)
    requires |paddings| == |evs| && forall j :: 0 <= j < |evs| ==> |paddings[j]| == EventImage.SIZE
    ensures |rs| == |evs|
    ensures forall i :: 0 <= i < |rs| ==> rs[i] == ToReport(EventImage.Decode(EventImage.Image(evs[i], paddings[i])))
  {
    seq(|evs|, i requires 0 <= i < |evs| => ToReport(EventImage.Decode(EventImage.Image(evs[i], paddings[i]))))
  }

  /** A faithful report of a list of modules. */
  function Faithful(mods: seq<ModuleInfo>): (rs: seq<Report>)
    ensures |rs| == |mods|
    ensures forall i :: 0 <= i < |rs| ==>
      rs[i] == Report(1, SCAN_TYPE, 0, 0, 0, mods[i].path, [], 0, mods[i].base, mods[i].size)
  {
    seq(|mods|, i requires 0 <= i < |mods| =>
      Report(1, SCAN_TYPE, 0, 0, 0, mods[i].path, [], 0, mods[i].base, mods[i].size))
  }

  /** Composed scan theorem: when every path is NUL-free and fits the buffer, decoding the bytes of the
      emitted events gives back the exact list of paths, bases and sizes, in order, each of type
      "DLLScan", if and only if every path lies in the BMP. */
  lemma ScanRoundTripIff(mods: seq<ModuleInfo>, paddings: seq<seq<Byte>>)
    requires |paddings| == |mods| && forall j :: 0 <= j < |mods| ==> |paddings[j]| == EventImage.SIZE
    requires forall i :: 0 <= i < |mods| ==> NulFree(mods[i].path) && |mods[i].path| <= 259
    ensures Received(ScanEvents(mods), paddings) == Faithful(mods) <==> forall i :: 0 <= i < |mods| ==> Bmp(mods[i].path)
  {
    var rs := Received(ScanEvents(mods), paddings);
    forall i | 0 <= i < |mods|
      ensures rs[i] == Faithful(mods)[i] <==> Bmp(mods[i].path)
    {
      ScanReport(mods[i], paddings[i]);
      RoundTrip32Iff(mods[i].path, 260);
    }
  }
}
