/**
  The accelerator as the report sees it: the attributes the runtime's getters
  return, and the renderers that turn each of them into text
  (hc-info.cpp lines 9-72).
 */
module Accelerator {
  import opened Wrappers
  import opened Decimal
  import opened Text

  /** The values of a C++ `unsigned int`. */
  type uint32 = x: int | 0 <= x < 0x1_0000_0000

  /** `hc::access_type`, the default CPU access mode of a device. */
  datatype AccessType = AccessAuto | AccessNone | AccessRead | AccessWrite | AccessReadWrite

  /** `hc::hcAgentProfile`, the execution profile of a device. */
  datatype Profile = ProfileBase | ProfileFull | ProfileNone

  /**
    A snapshot of one accelerator: what its getters return. Dedicated memory
    is the `size_t` count of kilobytes; each peer is given by its device path.
   */
  datatype Device = Device(
    path: string,
    description: string,
    version: uint32,
    hasDisplay: bool,
    dedicatedMemory: nat,
    fullDouble: bool,
    limitedDouble: bool,
    debug: bool,
    emulated: bool,
    cpuSharedMemory: bool,
    accessType: AccessType,
    profile: Profile,
    peers: seq<string>)

  /** The stream insertion of an `hc::access_type`. */
  function AccessTypeName(t: AccessType): (s: string)
    ensures s == "auto" <==> t == AccessAuto
    ensures s == "none" <==> t == AccessNone
    ensures s == "read" <==> t == AccessRead
    ensures s == "write" <==> t == AccessWrite
    ensures s == "read write" <==> t == AccessReadWrite
  {
    match t
    case AccessAuto => "auto"
    case AccessNone => "none"
    case AccessRead => "read"
    case AccessWrite => "write"
    case AccessReadWrite => "read write"
  }

  /** The stream insertion of an `hc::hcAgentProfile`. */
  function ProfileName(p: Profile): (s: string)
    ensures s == "base" <==> p == ProfileBase
    ensures s == "full" <==> p == ProfileFull
    ensures s == "none" <==> p == ProfileNone
  {
    match p
    case ProfileBase => "base"
    case ProfileFull => "full"
    case ProfileNone => "none"
  }

  /** Every access type is rendered, and no two alike. */
  lemma AccessTypeNameInjective(s: AccessType, t: AccessType)
    ensures AccessTypeName(s) == AccessTypeName(t) <==> s == t
  {
  }

  /** Every profile is rendered, and no two alike. */
  lemma ProfileNameInjective(p: Profile, q: Profile)
    ensures ProfileName(p) == ProfileName(q) <==> p == q
  {
  }

  /** `bool_str`. */
  function BoolStr(b: bool): (s: string)
    ensures s == "true" <==> b
    ensures s == "false" <==> !b
  {
    if b then "true" else "false"
  }

  /** A `bool` inserted into a stream without `std::boolalpha`. */
  function BoolDigit(b: bool): (s: string)
    ensures s == "1" <==> b
    ensures s == "0" <==> !b
  {
    if b then "1" else "0"
  }

  /** `double_precision_str`: full support wins over limited support. */
  function DoublePrecisionStr(d: Device): (s: string)
    ensures s == "yes" <==> d.fullDouble
    ensures s == "limited" <==> !d.fullDouble && d.limitedDouble
    ensures s == "none" <==> !d.fullDouble && !d.limitedDouble
  {
    if d.fullDouble then "yes"
    else if d.limitedDouble then "limited"
    else "none"
  }

  /**
    The major and minor numbers packed in a version: the bits above the low
    16, and the low 16 bits.
   */
  function VersionParts(version: uint32): (parts: (nat, nat))
    ensures parts.0 * 0x1_0000 + parts.1 == version
    ensures parts.0 < 0x1_0000 && parts.1 < 0x1_0000
  {
    // on an unsigned value, masking with (1 << 16) - 1 is the remainder by
    // 2^16 and shifting right by 16 is the quotient by 2^16
    var minor := version % 0x1_0000;
    var major := version / 0x1_0000;
    (major, minor)
  }

  /** `version_string`: "<major>.<minor>", decimal digits on both sides of one dot. */
  function VersionString(version: uint32): (s: string)
    ensures exists k :: 0 < k < |s| - 1 && s[k] == '.' && IsDigits(s[..k]) && IsDigits(s[k + 1..])
  {
    var (major, minor) := VersionParts(version);
    var ma, mi := NatToString(major), NatToString(minor);
    var s := ma + "." + mi;
    assert s[|ma|] == '.' && s[..|ma|] == ma && s[|ma| + 1..] == mi;
    s
  }

  /** Reads "<major>.<minor>" back into the packed version, if it is one. */
  function ParseVersion(s: string): Option<uint32> {
    var k := FirstIndex(s, '.');
    if k < |s| && IsDigits(s[..k]) && IsDigits(s[k + 1..]) then
      var major := StringToNat(s[..k]);
      var minor := StringToNat(s[k + 1..]);
      if major < 0x1_0000 && minor < 0x1_0000 then Some(major * 0x1_0000 + minor) else None
    else
      None
  }

  /** The version text always reads back as the version it was made from. */
  lemma VersionStringRoundTrip(version: uint32)
    ensures ParseVersion(VersionString(version)) == Some(version)
  {
    var (major, minor) := VersionParts(version);
    var ma, mi := NatToString(major), NatToString(minor);
    var s := ma + "." + mi;
    assert s == VersionString(version);
    assert forall j :: 0 <= j < |ma| ==> s[j] == ma[j] && IsDigit(ma[j]);
    assert s[|ma|] == '.';
    var k := FirstIndex(s, '.');
    assert k == |ma|;
    assert s[..k] == ma && s[k + 1..] == mi;
    StringToNatOfNatToString(major);
    StringToNatOfNatToString(minor);
  }

  /** Distinct versions are rendered differently. */
  lemma VersionStringInjective(v: uint32, w: uint32)
    ensures VersionString(v) == VersionString(w) <==> v == w
  {
    VersionStringRoundTrip(v);
    VersionStringRoundTrip(w);
  }

  /** Version 2.3, packed as 0x00020003, is rendered "2.3". */
  lemma VersionStringExample()
    ensures VersionString(0x0002_0003) == "2.3"
  {
    assert VersionParts(0x0002_0003) == (2, 3);
  }
}
