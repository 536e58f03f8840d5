// The analytics log service: device and application information gathered
// once at construction, and the layout of the exception reports it sends.

module AnalyticsLog {
  import opened Wrappers
  import opened Text

  // ---------------------------------------------------------------------
  // The system version: a ulong holding four 16-bit fields.

  type UShort = n: nat | n < 0x1_0000

  datatype VersionFields = VersionFields(v1: bv64, v2: bv64, v3: bv64, v4: bv64)

  predicate FieldsInRange(f: VersionFields)
  {
    f.v1 < 0x1_0000 && f.v2 < 0x1_0000 && f.v3 < 0x1_0000 && f.v4 < 0x1_0000
  }

  /** Packs four 16-bit fields, the first in the most significant position. */
  function EncodeVersion(f: VersionFields): bv64
  {
    (f.v1 << 48) | (f.v2 << 32) | (f.v3 << 16) | f.v4
  }

  /** Masks out each 16-bit field and shifts it down. */
  function DecodeVersion(v: bv64): (f: VersionFields)
    ensures FieldsInRange(f)
    ensures EncodeVersion(f) == v
  {
    VersionFields(
      (v & 0xFFFF_0000_0000_0000) >> 48,
      (v & 0x0000_FFFF_0000_0000) >> 32,
      (v & 0x0000_0000_FFFF_0000) >> 16,
      v & 0x0000_0000_0000_FFFF)
  }

  /** Fields in range survive packing and unpacking. */
  lemma DecodeEncodeVersion(f: VersionFields)
    requires FieldsInRange(f)
    ensures DecodeVersion(EncodeVersion(f)) == f
  {
  }

  /** The decimal form "v1.v2.v3.v4" of the four fields. */
  function VersionText(f: VersionFields): string
  {
    DottedQuad(f.v1 as nat, f.v2 as nat, f.v3 as nat, f.v4 as nat)
  }

  // ---------------------------------------------------------------------
  // What the platform reports, as it reaches the constructor.

  /** The values of Windows.System.ProcessorArchitecture. */
  datatype ProcessorArchitecture = X86 | Arm | X64 | Neutral | Arm64 | X86OnArm64 | Unknown

  /** The enum's ToString: the member's name. */
  function ArchitectureName(a: ProcessorArchitecture): (s: string)
    ensures s != []
  {
    match a
    case X86 => "X86"
    case Arm => "Arm"
    case X64 => "X64"
    case Neutral => "Neutral"
    case Arm64 => "Arm64"
    case X86OnArm64 => "X86OnArm64"
    case Unknown => "Unknown"
  }

  /** Different architectures are reported under different names. */
  lemma ArchitectureNameInjective(a: ProcessorArchitecture, b: ProcessorArchitecture)
    requires ArchitectureName(a) == ArchitectureName(b)
    ensures a == b
  {
  }

  datatype PackageVersion = PackageVersion(Major: UShort, Minor: UShort, Build: UShort, Revision: UShort)

  /**
   * The readings of AnalyticsInfo.VersionInfo, Package.Current and
   * EasClientDeviceInformation the constructor takes.
   */
  datatype Platform = Platform(
    DeviceFamily: string,
    DeviceFamilyVersion: string,
    Architecture: ProcessorArchitecture,
    DisplayName: string,
    Version: PackageVersion,
    SystemManufacturer: string,
    SystemProductName: string)

  /** The seven properties the service exposes. */
  datatype DeviceInfo = DeviceInfo(
    SystemFamily: string,
    SystemVersion: string,
    SystemArchitecture: string,
    ApplicationName: string,
    ApplicationVersion: string,
    DeviceManufacturer: string,
    DeviceModel: string)

  /** "Major.Minor.Build.Revision". */
  function ApplicationVersionText(pv: PackageVersion): (s: string)
    ensures ParseDottedQuad(s) == Some((pv.Major as nat, pv.Minor as nat, pv.Build as nat, pv.Revision as nat))
  {
    ParseDottedQuadOfDottedQuad(pv.Major, pv.Minor, pv.Build, pv.Revision);
    DottedQuad(pv.Major, pv.Minor, pv.Build, pv.Revision)
  }

  /**
   * The properties the constructor computes; it fails exactly when
   * ulong.Parse throws on the device family version.
   */
  function ReadDeviceInfo(p: Platform): (r: Result<DeviceInfo, NumberError>)
    ensures r.Failure? <==> ParseULong(p.DeviceFamilyVersion).Failure?
    ensures r.Failure? ==> r.error == ParseULong(p.DeviceFamilyVersion).error
    ensures r.Success? ==>
              && r.value.SystemFamily == p.DeviceFamily
              && r.value.SystemArchitecture == ArchitectureName(p.Architecture)
              && r.value.ApplicationName == p.DisplayName
              && r.value.DeviceManufacturer == p.SystemManufacturer
              && r.value.DeviceModel == p.SystemProductName
  {
    match ParseULong(p.DeviceFamilyVersion)
    case Failure(e) => Failure(e)
    case Success(v) =>
      Success(DeviceInfo(
        p.DeviceFamily,
        VersionText(DecodeVersion(v as bv64)),
        ArchitectureName(p.Architecture),
        p.DisplayName,
        ApplicationVersionText(p.Version),
        p.SystemManufacturer,
        p.SystemProductName))
  }

  /**
   * The decimal text of a version reads back as its four fields, each below
   * 65536, which pack, most significant first, into that version.
   */
  lemma VersionTextRecoversVersion(v: bv64)
    ensures var f := DecodeVersion(v);
            && ParseDottedQuad(VersionText(f)) == Some((f.v1 as nat, f.v2 as nat, f.v3 as nat, f.v4 as nat))
            && f.v1 as nat < 0x1_0000 && f.v2 as nat < 0x1_0000 && f.v3 as nat < 0x1_0000 && f.v4 as nat < 0x1_0000
            && EncodeVersion(f) == v
  {
    var f := DecodeVersion(v);
    ParseDottedQuadOfDottedQuad(f.v1 as nat, f.v2 as nat, f.v3 as nat, f.v4 as nat);
  }

  /** SystemVersion reads back as the four fields of the parsed device family version. */
  lemma SystemVersionRecoversVersion(p: Platform)
    requires ReadDeviceInfo(p).Success?
    ensures var f := DecodeVersion(ParseULong(p.DeviceFamilyVersion).value as bv64);
            && ParseDottedQuad(ReadDeviceInfo(p).value.SystemVersion) == Some((f.v1 as nat, f.v2 as nat, f.v3 as nat, f.v4 as nat))
            && EncodeVersion(f) == ParseULong(p.DeviceFamilyVersion).value as bv64
  {
    VersionTextRecoversVersion(ParseULong(p.DeviceFamilyVersion).value as bv64);
  }

  /** Text that is not a ulong makes construction fail. */
  lemma ConstructionFailsOnStrayCharacter(p: Platform, k: nat)
    requires k < |p.DeviceFamilyVersion| && !IsDigit(p.DeviceFamilyVersion[k]) && !IsWhite(p.DeviceFamilyVersion[k])
    requires p.DeviceFamilyVersion[k] != '+' && p.DeviceFamilyVersion[k] != '-' && p.DeviceFamilyVersion[k] != '\0'
    ensures ReadDeviceInfo(p) == Failure(FormatException)
  {
    ParseULongRejectsStrayCharacter(p.DeviceFamilyVersion, k);
  }

  // ---------------------------------------------------------------------
  // The report an exception is sent as.

  /** The block of lines AppendDeviceInfo adds. */
  function DeviceInfoLines(info: DeviceInfo): (lines: seq<string>)
    ensures |lines| == 5 && lines[0] == "****" && lines[4] == "****"
  {
    ["****",
     info.SystemFamily + " - " + info.SystemVersion,
     info.ApplicationName + " - " + info.ApplicationVersion,
     info.DeviceManufacturer + " - " + info.DeviceModel,
     "****"]
  }

  /** The lines of the report for one exception: title, device block, message. */
  function ExceptionLines(info: DeviceInfo, title: string, message: string): (lines: seq<string>)
    ensures |lines| == 7 && lines[0] == title && lines[6] == message
    ensures lines[1..6] == DeviceInfoLines(info)
  {
    [title] + DeviceInfoLines(info) + [message]
  }

  predicate LineSafe(info: DeviceInfo)
  {
    && NoCrLf(info.SystemFamily) && NoCrLf(info.SystemVersion)
    && NoCrLf(info.ApplicationName) && NoCrLf(info.ApplicationVersion)
    && NoCrLf(info.DeviceManufacturer) && NoCrLf(info.DeviceModel)
  }

  /** Joining two line-break-free texts with " - " adds no line break. */
  lemma DashJoinedHasNoCrLf(a: string, b: string)
    requires NoCrLf(a) && NoCrLf(b)
    ensures NoCrLf(a + " - " + b)
  {
    var s := a + " - " + b;
    forall i | 0 <= i < |s| ensures !CrLfAt(s, i) {
      if i + 1 < |a| {
        assert s[i] == a[i] && s[i + 1] == a[i + 1];
        assert !CrLfAt(a, i);
      } else if i < |a| {
        assert s[i + 1] == ' ';
      } else if i < |a| + 3 {
        assert s[i] == " - "[i - |a|];
      } else if i + 1 < |s| {
        assert s[i] == b[i - |a| - 3] && s[i + 1] == b[i + 1 - |a| - 3];
        assert !CrLfAt(b, i - |a| - 3);
      }
    }
  }

  /**
   * When no part carries a line break of its own, the sent report splits
   * back into exactly the seven lines, in order.
   */
  lemma ExceptionReportLines(info: DeviceInfo, title: string, message: string)
    requires LineSafe(info) && NoCrLf(title) && NoCrLf(message)
    ensures SplitLines(Joined(ExceptionLines(info, title, message))) == ExceptionLines(info, title, message)
  {
    var lines := ExceptionLines(info, title, message);
    DashJoinedHasNoCrLf(info.SystemFamily, info.SystemVersion);
    DashJoinedHasNoCrLf(info.ApplicationName, info.ApplicationVersion);
    DashJoinedHasNoCrLf(info.DeviceManufacturer, info.DeviceModel);
    assert NoCrLf("****") by {
      forall i | 0 <= i < 4 ensures !CrLfAt("****", i) { assert "****"[i] == '*'; }
    }
    SplitLinesOfJoined(lines);
  }

  /** The report starts with the title on a line of its own. */
  lemma ExceptionReportStartsWithTitle(info: DeviceInfo, title: string, message: string)
    ensures Joined(ExceptionLines(info, title, message))[..|title| + 2] == title + NewLine
  {
  }

  // ---------------------------------------------------------------------
  // The service.

  /** The calls made on the analytics tracker. */
  datatype TrackerCall =
    | SendEvent(category: string, action: string, eventLabel: string, value: int)
    | SendException(description: string, fatal: bool)

  class GoogleAnalyticsLogService {
    const SystemFamily: string
    const SystemVersion: string
    const SystemArchitecture: string
    const ApplicationName: string
    const ApplicationVersion: string
    const DeviceManufacturer: string
    const DeviceModel: string

    /** The lines appended to the shared message builder since it was last cleared. */
    var builder: seq<string>
    /** What the tracker has been sent, oldest first. */
    var sent: seq<TrackerCall>

    function Info(): DeviceInfo
    {
      DeviceInfo(SystemFamily, SystemVersion, SystemArchitecture, ApplicationName,
                 ApplicationVersion, DeviceManufacturer, DeviceModel)
    }

    constructor (info: DeviceInfo)
      ensures Info() == info && builder == [] && sent == []
    {
      SystemFamily := info.SystemFamily;
      SystemVersion := info.SystemVersion;
      SystemArchitecture := info.SystemArchitecture;
      ApplicationName := info.ApplicationName;
      ApplicationVersion := info.ApplicationVersion;
      DeviceManufacturer := info.DeviceManufacturer;
      DeviceModel := info.DeviceModel;
      builder := [];
      sent := [];
    }

    /** Reads the platform as the constructor does; fails where ulong.Parse throws. */
    static method Create(platform: Platform) returns (r: Result<GoogleAnalyticsLogService, NumberError>)
      ensures r.Success? <==> ReadDeviceInfo(platform).Success?
      ensures r.Failure? ==> r.error == ReadDeviceInfo(platform).error
      ensures r.Success? ==>
                && fresh(r.value) && r.value.Info() == ReadDeviceInfo(platform).value
                && r.value.builder == [] && r.value.sent == []
    {
      var parsed := ParseULong(platform.DeviceFamilyVersion);
      if parsed.Failure? {
        return Failure(parsed.error);
      }
      var v := parsed.value as bv64;
      var v1 := (v & 0xFFFF_0000_0000_0000) >> 48;
      var v2 := (v & 0x0000_FFFF_0000_0000) >> 32;
      var v3 := (v & 0x0000_0000_FFFF_0000) >> 16;
      var v4 := v & 0x0000_0000_0000_FFFF;
      var pv := platform.Version;
      var service := new GoogleAnalyticsLogService(DeviceInfo(
        platform.DeviceFamily,
        DottedQuad(v1 as nat, v2 as nat, v3 as nat, v4 as nat),
        ArchitectureName(platform.Architecture),
        platform.DisplayName,
        DottedQuad(pv.Major, pv.Minor, pv.Build, pv.Revision),
        platform.SystemManufacturer,
        platform.SystemProductName));
      return Success(service);
    }

    /** The builder's text: every line followed by a line break. */
    function Message(): string
      reads this`builder
    {
      Joined(builder)
    }

    method Clear()
      modifies this`builder
      ensures builder == []
    {
      builder := [];
    }

    method AppendLine(line: string)
      modifies this`builder
      ensures builder == old(builder) + [line]
    {
      builder := builder + [line];
    }

    /** An event goes to the tracker unchanged, with value 0. */
    method Log(category: string, action: string, eventLabel: string)
      modifies this`sent
      ensures sent == old(sent) + [SendEvent(category, action, eventLabel, 0)]
    {
      sent := sent + [SendEvent(category, action, eventLabel, 0)];
    }

    /**
     * The builder is cleared first, so the report depends on the title, the
     * message and the device only, never on an earlier report; it is sent
     * as a non-fatal exception.
     */
    method LogException(title: string, message: string)
      modifies this`builder, this`sent
      ensures builder == ExceptionLines(Info(), title, message)
      ensures sent == old(sent) + [SendException(Joined(ExceptionLines(Info(), title, message)), false)]
    {
      Clear();
      AppendLine(title);
      AppendDeviceInfo();
      AppendLine(message);
      sent := sent + [SendException(Message(), false)];
    }

    method AppendDeviceInfo()
      modifies this`builder
      ensures builder == old(builder) + DeviceInfoLines(Info())
    {
      AppendLine("****");
      AppendLine(SystemFamily + " - " + SystemVersion);
      AppendLine(ApplicationName + " - " + ApplicationVersion);
      AppendLine(DeviceManufacturer + " - " + DeviceModel);
      AppendLine("****");
    }
  }
}
