/**
  The per-device report, the stream insertion of an `hc::accelerator`
  (hc-info.cpp lines 74-101): twelve lines, each a label left-justified in a
  25-column field followed by the attribute's text.
 */
module Report {
  import opened Decimal
  import opened Text
  import opened Accelerator
  import opened Streams

  /** The field width that `std::setw(25)` gives each label. */
  const LABEL_WIDTH: nat := 25

  /** The labels of the report, in the order they are written. */
  const LABELS: seq<string> := [
    "device path:", "description:", "version:", "has display:",
    "dedicated memory:", "double precision:", "debug:", "emulated:",
    "CPU shared memory:", "access type:", "HSA Profile:", "peers:"]

  /** One report line without its terminator: the padded label, then the value. */
  function Field(key: string, value: string): string {
    PadRight(key, LABEL_WIDTH) + value
  }

  /** The text after the "peers:" label: each peer's path and a blank, or "-" when there is none. */
  function PeersText(peers: seq<string>): (s: string)
    ensures s == "-" <==> peers == []
    ensures peers != [] ==> s == JoinTerminated(peers, ' ')
  {
    if peers == [] then "-"
    else
      var s := JoinTerminated(peers, ' ');
      assert s[|peers[0]|] == ' ';
      s
  }

  /**
    The text after each label, in report order. None holds a line break
    unless the device's free text (path, description, peer paths) does.
   */
  function FieldValues(d: Device): (values: seq<string>)
    ensures |values| == |LABELS|
    ensures Printable(d) ==> NoneContains(values, '\n')
  {
    var values := [
      d.path,
      d.description,
      VersionString(d.version),
      BoolStr(d.hasDisplay),
      NatToString(d.dedicatedMemory) + " KB",
      DoublePrecisionStr(d),
      BoolStr(d.debug),
      BoolStr(d.emulated),
      BoolDigit(d.cpuSharedMemory),
      AccessTypeName(d.accessType),
      ProfileName(d.profile),
      PeersText(d.peers) ];
    assert Printable(d) ==> NoneContains(values, '\n') by {
      if Printable(d) {
        RenderedValuesPrintable(d);
        FixedValuesPrintable(d);
        assert '\n' !in values[0] && '\n' !in values[1] && '\n' !in values[2];
        assert '\n' !in values[3] && '\n' !in values[4] && '\n' !in values[5];
        assert '\n' !in values[6] && '\n' !in values[7] && '\n' !in values[8];
        assert '\n' !in values[9] && '\n' !in values[10] && '\n' !in values[11];
      }
    }
    values
  }

  /** Each label paired with its value, as report lines. */
  function Fields(keys: seq<string>, values: seq<string>): (lines: seq<string>)
    requires |keys| == |values|
    ensures |lines| == |keys|
    ensures forall k :: 0 <= k < |keys| ==> lines[k] == Field(keys[k], values[k])
  {
    if keys == [] then [] else [Field(keys[0], values[0])] + Fields(keys[1..], values[1..])
  }

  /**
    The lines of the report, without their '\n' terminators: twelve of them,
    none holding a line break unless the device's free text does.
   */
  function ReportLines(d: Device): (lines: seq<string>)
    ensures |lines| == 12
    ensures Printable(d) ==> NoneContains(lines, '\n')
  {
    var lines := Fields(LABELS, FieldValues(d));
    assert Printable(d) ==> NoneContains(lines, '\n') by {
      if Printable(d) {
        LabelsPrintable();
        forall k | 0 <= k < 12
          ensures '\n' !in lines[k]
        {
          assert lines[k] == PadRight(LABELS[k], LABEL_WIDTH) + FieldValues(d)[k];
          assert '\n' !in LABELS[k];
          assert '\n' !in Spaces(LABEL_WIDTH - |LABELS[k]|);
        }
      }
    }
    lines
  }

  /**
    The text the report inserts into the stream. Unless the device's free
    text holds a line break, it splits back into exactly the twelve report
    lines, in the fixed order of the labels.
   */
  function ReportText(d: Device): (s: string)
    ensures Printable(d) ==> SplitTerminated(s, '\n') == ReportLines(d)
  {
    var s := JoinTerminated(ReportLines(d), '\n');
    assert Printable(d) ==> SplitTerminated(s, '\n') == ReportLines(d) by {
      if Printable(d) {
        SplitJoinTerminated(ReportLines(d), '\n');
      }
    }
    s
  }

  /**
    Every line starts with its label, blank-padded to the 25-column field
    (every label is narrower than the field), and the attribute's text follows.
   */
  lemma ReportLayout(d: Device, k: nat)
    requires k < 12
    ensures |ReportLines(d)| == |LABELS| == 12
    ensures |LABELS[k]| < LABEL_WIDTH
    ensures ReportLines(d)[k] == LABELS[k] + Spaces(LABEL_WIDTH - |LABELS[k]|) + FieldValues(d)[k]
    ensures ReportLines(d)[k][LABEL_WIDTH..] == FieldValues(d)[k]
  {
  }

  /** The attributes a device gives as free text hold no line break. */
  predicate Printable(d: Device) {
    '\n' !in d.path && '\n' !in d.description && NoneContains(d.peers, '\n')
  }

  /** The text the program renders for an attribute holds no line break unless the device's free text does. */
  lemma RenderedValuesPrintable(d: Device)
    requires Printable(d)
    ensures '\n' !in VersionString(d.version) && '\n' !in NatToString(d.dedicatedMemory) + " KB"
    ensures '\n' !in PeersText(d.peers)
  {
    var (major, minor) := VersionParts(d.version);
    DigitsAvoid(NatToString(major), '\n');
    DigitsAvoid(NatToString(minor), '\n');
    DigitsAvoid(NatToString(d.dedicatedMemory), '\n');
    if d.peers != [] {
      JoinTerminatedAvoids(d.peers, ' ', '\n');
    }
  }

  /** None of the fixed texts an attribute can be rendered as holds a line break. */
  lemma FixedValuesPrintable(d: Device)
    ensures '\n' !in BoolStr(d.hasDisplay) && '\n' !in BoolStr(d.debug) && '\n' !in BoolStr(d.emulated)
    ensures '\n' !in BoolDigit(d.cpuSharedMemory) && '\n' !in DoublePrecisionStr(d)
    ensures '\n' !in AccessTypeName(d.accessType) && '\n' !in ProfileName(d.profile)
  {
  }

  lemma DigitsAvoid(s: string, c: char)
    requires IsDigits(s) && !IsDigit(c)
    ensures c !in s
  {
  }

  /** The labels hold no line break. */
  lemma LabelsPrintable()
    ensures NoneContains(LABELS, '\n')
  {
  }

  /** Two fields with the same label are equal only when their values are. */
  lemma FieldInjective(key: string, v: string, w: string)
    ensures Field(key, v) == Field(key, w) ==> v == w
  {
    if Field(key, v) == Field(key, w) {
      var n := |PadRight(key, LABEL_WIDTH)|;
      assert v == Field(key, v)[n..];
      assert w == Field(key, w)[n..];
    }
  }

  /** Two devices with the same report lines have the same attribute texts. */
  lemma SameLinesSameValues(d: Device, e: Device)
    requires ReportLines(d) == ReportLines(e)
    ensures FieldValues(d) == FieldValues(e)
  {
    var v, w := FieldValues(d), FieldValues(e);
    forall k | 0 <= k < 12
      ensures v[k] == w[k]
    {
      assert ReportLines(d)[k] == ReportLines(e)[k];
      FieldInjective(LABELS[k], v[k], w[k]);
    }
  }

  /**
    The report determines every attribute it shows: two devices with the
    same report agree on path, description, version, flags, memory, access
    type, profile and, when no peer path holds a blank, on the peer list.
    The limited-precision flag shows only when full precision is absent.
   */
  lemma ReportDeterminesDevice(d: Device, e: Device)
    requires ReportLines(d) == ReportLines(e)
    requires NoneContains(d.peers, ' ') && NoneContains(e.peers, ' ')
    ensures d.path == e.path && d.description == e.description
    ensures d.version == e.version && d.dedicatedMemory == e.dedicatedMemory
    ensures d.hasDisplay == e.hasDisplay && d.debug == e.debug && d.emulated == e.emulated
    ensures d.cpuSharedMemory == e.cpuSharedMemory
    ensures d.fullDouble == e.fullDouble && (!d.fullDouble ==> d.limitedDouble == e.limitedDouble)
    ensures d.accessType == e.accessType && d.profile == e.profile
    ensures d.peers == e.peers
  {
    SameLinesSameValues(d, e);
    var v, w := FieldValues(d), FieldValues(e);
    assert v[2] == w[2] && v[4] == w[4] && v[9] == w[9] && v[10] == w[10] && v[11] == w[11];
    VersionStringInjective(d.version, e.version);
    var m, n := NatToString(d.dedicatedMemory), NatToString(e.dedicatedMemory);
    assert m == v[4][..|v[4]| - 3] && n == w[4][..|w[4]| - 3];
    NatToStringInjective(d.dedicatedMemory, e.dedicatedMemory);
    AccessTypeNameInjective(d.accessType, e.accessType);
    ProfileNameInjective(d.profile, e.profile);
    if d.peers != [] {
      SplitJoinTerminated(d.peers, ' ');
      SplitJoinTerminated(e.peers, ' ');
    }
  }

  /** Why the peer list needs blank-free paths: "a b" and the pair "a", "b" give the same line. */
  lemma PeersTextAmbiguousWithBlanks()
    ensures PeersText(["a b"]) == PeersText(["a", "b"])
  {
    assert JoinTerminated(["a", "b"], ' ') == "a" + " " + JoinTerminated(["b"], ' ');
  }

  /**
    One `out << setw() << key << value << '\n'` statement, writing line `k`
    of `lines` after the lines before it.
   */
  method WriteField(out: OutStream, key: string, value: string,
                    ghost lines: seq<string>, ghost k: nat, ghost start: string)
    requires k < |lines| && lines[k] == Field(key, value)
    requires out.text == start + JoinTerminated(lines[..k], '\n')
    modifies out
    ensures out.text == start + JoinTerminated(lines[..k + 1], '\n')
  {
    out.Write(PadRight(key, LABEL_WIDTH));
    out.Write(value);
    out.Write("\n");
    JoinTerminatedPrefix(lines, k, '\n');
  }

  /** The stream insertion of an accelerator: appends its report to `out`. */
  method WriteReport(out: OutStream, d: Device)
    modifies out
    ensures out.text == old(out.text) + ReportText(d)
  {
    var v := FieldValues(d);
    ghost var lines := ReportLines(d);
    ghost var start := out.text;
    assert lines[..0] == [];
    WriteField(out, LABELS[0], v[0], lines, 0, start);
    WriteField(out, LABELS[1], v[1], lines, 1, start);
    WriteField(out, LABELS[2], v[2], lines, 2, start);
    WriteField(out, LABELS[3], v[3], lines, 3, start);
    WriteField(out, LABELS[4], v[4], lines, 4, start);
    WriteField(out, LABELS[5], v[5], lines, 5, start);
    WriteField(out, LABELS[6], v[6], lines, 6, start);
    WriteField(out, LABELS[7], v[7], lines, 7, start);
    WriteField(out, LABELS[8], v[8], lines, 8, start);
    WriteField(out, LABELS[9], v[9], lines, 9, start);
    WriteField(out, LABELS[10], v[10], lines, 10, start);
    WritePeers(out, d.peers, lines, 11, start);
    assert lines[..12] == lines;
  }

  /**
    The "peers:" line, line `k` of `lines`: each peer's path followed by a
    blank, or "-" when there is none.
   */
  method WritePeers(out: OutStream, peers: seq<string>,
                    ghost lines: seq<string>, ghost k: nat, ghost start: string)
    requires k < |lines| && lines[k] == Field("peers:", PeersText(peers))
    requires out.text == start + JoinTerminated(lines[..k], '\n')
    modifies out
    ensures out.text == start + JoinTerminated(lines[..k + 1], '\n')
  {
    out.Write(PadRight("peers:", LABEL_WIDTH));
    ghost var mark := out.text;
    var i := 0;
    while i < |peers|
      invariant 0 <= i <= |peers|
      invariant out.text == mark + JoinTerminated(peers[..i], ' ')
    {
      out.Write(peers[i]);
      out.Write(" ");
      JoinTerminatedPrefix(peers, i, ' ');
      i := i + 1;
    }
    assert peers[..i] == peers;
    if peers == [] {
      out.Write("-");
    }
    out.Write("\n");
    JoinTerminatedPrefix(lines, k, '\n');
  }
}
