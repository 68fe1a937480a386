/** HardwareData (src/sealium/utils/fetch/hardwaredata.py): eight host
    identifiers collected once at construction. Every Windows API call,
    registry read, subprocess run, environment lookup and `platform` call is
    an input here, given as its outcome (the value returned or the exception
    raised); what is modelled is the decision logic applied to those outcomes. */
module Hardware {
  import opened PyBase
  import opened PyStr
  import opened HexFormat

  /* ---------------------------------------------------------------------
     Volume serial and volume name (GetVolumeInformationW on C:\)
     --------------------------------------------------------------------- */

  /** One call of GetVolumeInformationW: it raised (or ctypes could not reach
      it), or it returned its BOOL together with what it wrote into the serial
      number and the volume-name buffer. */
  datatype VolumeProbe =
    | VolumeApiRaised
    | VolumeApiReturned(succeeded: bool, serial: Dword, volumeName: string)

  const DefaultVolumeName := "本地磁盘"

  /** `get_system_volume_serial`: the serial as eight upper-case hex digits
      when the call succeeds, None when it fails or raises. */
  function SystemVolumeSerial(probe: VolumeProbe): (r: Option<string>)
    ensures r.Some? <==> probe.VolumeApiReturned? && probe.succeeded
    ensures r.Some? ==> |r.value| == 8 && IsUpperHex(r.value) && HexValue(r.value) == probe.serial
  {
    if probe.VolumeApiReturned? && probe.succeeded then Some(FormatSerial(probe.serial)) else None
  }

  /** `get_system_volume_name`: the volume label when the call succeeds with a
      non-empty label, the default name when it returns otherwise, and None
      only when it raises. The result is never the empty string. */
  function SystemVolumeName(probe: VolumeProbe): (r: Option<string>)
    ensures r.None? <==> probe.VolumeApiRaised?
    ensures r.Some? ==> r.value != []
    ensures r.Some? ==> r.value == probe.volumeName || r.value == DefaultVolumeName
    ensures probe.VolumeApiReturned? && probe.succeeded && probe.volumeName != [] ==> r == Some(probe.volumeName)
    ensures probe.VolumeApiReturned? && !probe.succeeded ==> r == Some(DefaultVolumeName)
  {
    match probe
    case VolumeApiRaised => None
    case VolumeApiReturned(succeeded, _, name) =>
      if succeeded && name != [] then Some(name) else Some(DefaultVolumeName)
  }

  /* ---------------------------------------------------------------------
     Environment fallbacks
     --------------------------------------------------------------------- */

  type Environment = map<string, string>

  /** `os.environ.get(key, default)` */
  function EnvGet(env: Environment, key: string, default: Option<string>): Option<string> {
    if key in env then Some(env[key]) else default
  }

  /** The value of the first of `keys` that is set, if any: the meaning of a
      chain of environment fallbacks. */
  function FirstSet(env: Environment, keys: seq<string>): (r: Option<string>)
    ensures r.None? <==> forall k :: 0 <= k < |keys| ==> keys[k] !in env
    ensures r.Some? ==> exists i :: 0 <= i < |keys| && keys[i] in env && r.value == env[keys[i]]
                                    && forall j :: 0 <= j < i ==> keys[j] !in env
  {
    if keys == [] then None
    else if keys[0] in env then
      assert 0 < |keys| && keys[0] in env;
      Some(env[keys[0]])
    else
      var r := FirstSet(env, keys[1..]);
      assert forall k :: 1 <= k < |keys| ==> keys[k] == keys[1..][k - 1];
      if r.Some? then
        var i :| 0 <= i < |keys[1..]| && keys[1..][i] in env && r.value == env[keys[1..][i]]
                 && forall j :: 0 <= j < i ==> keys[1..][j] !in env;
        assert keys[i + 1] in env && r.value == env[keys[i + 1]] && forall j :: 0 <= j < i + 1 ==> keys[j] !in env;
        r
      else r
  }

  const ComputerNameKey := "COMPUTERNAME"
  const UsernameKey := "USERNAME"
  const UserKey := "USER"

  /** `get_computer_name`: `os.environ.get('COMPUTERNAME', platform.node())`. */
  function ComputerName(env: Environment, node: string): (r: string)
    ensures ComputerNameKey in env ==> r == env[ComputerNameKey]
    ensures ComputerNameKey !in env ==> r == node
  {
    EnvGet(env, ComputerNameKey, Some(node)).value
  }

  /** `get_windows_username`: `os.environ.get('USERNAME', os.environ.get('USER', None))`. */
  function WindowsUsername(env: Environment): (r: Option<string>)
    ensures UsernameKey in env ==> r == Some(env[UsernameKey])
    ensures UsernameKey !in env && UserKey in env ==> r == Some(env[UserKey])
    ensures r.None? <==> UsernameKey !in env && UserKey !in env
  {
    EnvGet(env, UsernameKey, EnvGet(env, UserKey, None))
  }

  /** The computer name is COMPUTERNAME when set, else the platform node name. */
  lemma ComputerNameFallback(env: Environment, node: string)
    ensures ComputerName(env, node) == FirstSet(env, ["COMPUTERNAME"]).GetOr(node)
  {
  }

  /** The username is USERNAME when set, else USER when set, else None. */
  lemma UsernameFallback(env: Environment)
    ensures WindowsUsername(env) == FirstSet(env, ["USERNAME", "USER"])
  {
    assert ["USERNAME", "USER"][1..] == ["USER"];
  }

  /* ---------------------------------------------------------------------
     Registry values: CPU type and BIOS version
     --------------------------------------------------------------------- */

  /** A value winreg returns, by the Python type it comes back as. */
  datatype RegistryValue =
    | RegString(text: string)            // REG_SZ, REG_EXPAND_SZ: a str
    | RegStringList(items: seq<string>)  // REG_MULTI_SZ: a list of str
    | RegOther(rendered: string)         // any other type (int, bytes, None), with its str()

  /** Opening a key and querying one value in it: the value, or what was raised. */
  datatype RegistryRead = ValueRead(value: RegistryValue) | RegistryRaised(error: Error)

  /** `get_cpu_type`: the processor name from the registry, stripped, when it
      is a string; on any failure (including a value without `.strip()`) the
      platform's processor string. */
  function CpuType(read: RegistryRead, processor: string): (r: string)
    ensures read.ValueRead? && read.value.RegString? ==> r == Strip(read.value.text)
    ensures !(read.ValueRead? && read.value.RegString?) ==> r == processor
  {
    match read
    case ValueRead(RegString(text)) => Strip(text)
    case _ => processor
  }

  /** `get_bios_info`: a list of strings joined with single spaces in order,
      any other value as its str(), None when the read raised. */
  function BiosInfo(read: RegistryRead): (r: Option<string>)
    ensures r.None? <==> read.RegistryRaised?
    ensures read.ValueRead? && read.value.RegStringList? ==> r == Some(Join(read.value.items, " "))
    ensures read.ValueRead? && read.value.RegString? ==> r == Some(read.value.text)
    ensures read.ValueRead? && read.value.RegOther? ==> r == Some(read.value.rendered)
  {
    match read
    case RegistryRaised(_) => None
    case ValueRead(RegStringList(items)) => Some(Join(items, " "))
    case ValueRead(RegString(text)) => Some(text)
    case ValueRead(RegOther(rendered)) => Some(rendered)
  }

  /** The BIOS list is joined in order and without loss: splitting the result
      at spaces gives the list back when no entry contains a space. */
  lemma BiosListRecoverable(items: seq<string>)
    requires items != []
    requires forall k :: 0 <= k < |items| ==> ' ' !in items[k]
    ensures Split(BiosInfo(ValueRead(RegStringList(items))).value, ' ') == items
  {
    SplitJoin(items, ' ');
  }

  /* ---------------------------------------------------------------------
     Windows ProductId
     --------------------------------------------------------------------- */

  /** The ProductId lookup: OpenKey raised, or the key was opened and then
      QueryValueEx ran, with CloseKey in a `finally` that may itself raise. */
  datatype ProductIdProbe =
    | OpenKeyRaised(error: Error)
    | KeyOpened(query: RegistryRead, closeRaised: Option<Error>)

  const ProductIdInvalid := Error(ValueError, "ProductId is empty or invalid")

  /** The `try` body of `get_windows_serial`: the stripped ProductId, or the
      first exception raised. An exception from CloseKey in the `finally`
      replaces one from QueryValueEx. */
  function ReadProductId(probe: ProductIdProbe): (r: Result<string>)
    ensures r.Ok? <==> probe.KeyOpened? && probe.closeRaised.None? && probe.query.ValueRead?
                       && probe.query.value.RegString? && Strip(probe.query.value.text) != []
    ensures r.Ok? ==> r.value == Strip(probe.query.value.text)
    ensures probe.KeyOpened? && probe.closeRaised.None? && probe.query.ValueRead? && r.Err? ==> r.error == ProductIdInvalid
    // an exception from OpenKey, CloseKey or QueryValueEx propagates unchanged, CloseKey's winning
    ensures probe.OpenKeyRaised? ==> r == Err(probe.error)
    ensures probe.KeyOpened? && probe.closeRaised.Some? ==> r == Err(probe.closeRaised.value)
    ensures probe.KeyOpened? && probe.closeRaised.None? && probe.query.RegistryRaised? ==> r == Err(probe.query.error)
  {
    match probe
    case OpenKeyRaised(e) => Err(e)
    case KeyOpened(query, closeRaised) =>
      if closeRaised.Some? then Err(closeRaised.value)
      else match query
        case RegistryRaised(e) => Err(e)
        case ValueRead(RegString(text)) =>
          if Strip(text) != [] then Ok(Strip(text)) else Err(ProductIdInvalid)
        case ValueRead(_) => Err(ProductIdInvalid)
  }

  /** The `except` clauses of `get_windows_serial`, in the order they are tried. */
  const ProductIdHandlers: seq<ErrorClass> := [FileNotFoundError, PermissionError, OSError, Exception]

  const RegistryPathNotFound :=
    "Registry path not found. Ensure you're running on Windows and the key exists under "
    + "HKLM\\SOFTWARE\\Microsoft\\Windows NT\\CurrentVersion"
  const RegistryPermissionDenied := "Insufficient permissions to read registry. Try running as Administrator."
  const RegistryOsErrorPrefix := "OS-level registry error: "
  const UnexpectedErrorPrefix := "Unexpected error while reading Windows ProductId: "

  /** The exception the first matching clause raises in place of `e`. Because
      FileNotFoundError and PermissionError are tried before OSError, they keep
      their class; other OS errors become OSError; everything else, the
      ValueError for an invalid ProductId included, becomes RuntimeError. */
  function Reraise(e: Error): (r: Error)
    ensures r.cls == FileNotFoundError <==> e.cls == FileNotFoundError
    ensures r.cls == PermissionError <==> e.cls == PermissionError
    ensures r.cls == OSError <==> IsSubclass(e.cls, OSError) && e.cls != FileNotFoundError && e.cls != PermissionError
    ensures r.cls == RuntimeError <==> !IsSubclass(e.cls, OSError)
    ensures r.cls == FileNotFoundError ==> r.message == RegistryPathNotFound
    ensures r.cls == PermissionError ==> r.message == RegistryPermissionDenied
    ensures r.cls == OSError ==> r.message == RegistryOsErrorPrefix + e.message
    ensures r.cls == RuntimeError ==> r.message == UnexpectedErrorPrefix + e.message
  {
    var clause := FirstCatching(ProductIdHandlers, e.cls);
    if clause == 0 then Error(FileNotFoundError, RegistryPathNotFound)
    else if clause == 1 then Error(PermissionError, RegistryPermissionDenied)
    else if clause == 2 then Error(OSError, RegistryOsErrorPrefix + e.message)
    else Error(RuntimeError, UnexpectedErrorPrefix + e.message)
  }

  /** `get_windows_serial`: the ProductId stripped and non-empty, or the
      re-raised exception. */
  function WindowsSerial(probe: ProductIdProbe): (r: Result<string>)
    ensures r.Ok? <==> ReadProductId(probe).Ok?
    ensures r.Ok? ==> r == ReadProductId(probe) && r.value != [] && Stripped(r.value)
    ensures r.Err? ==> r.error == Reraise(ReadProductId(probe).error)
  {
    match ReadProductId(probe)
    case Ok(id) => Ok(id)
    case Err(e) => Err(Reraise(e))
  }

  /** An empty or blank ProductId string makes the `try` body raise the
      "ProductId is empty or invalid" ValueError. */
  lemma BlankProductIdIsInvalid(text: string)
    requires Strip(text) == []
    ensures ReadProductId(KeyOpened(ValueRead(RegString(text)), None)) == Err(ProductIdInvalid)
  {
  }

  /** That ValueError is caught by the last clause, not by the OSError ones,
      and re-raised as a RuntimeError. */
  lemma InvalidProductIdBecomesRuntimeError()
    ensures Reraise(ProductIdInvalid).cls == RuntimeError
    ensures Reraise(ProductIdInvalid).message == UnexpectedErrorPrefix + ProductIdInvalid.message
  {
  }

  /** So `get_windows_serial` raises that RuntimeError for a blank ProductId. */
  lemma BlankProductIdIsRuntimeError(text: string)
    requires Strip(text) == []
    ensures WindowsSerial(KeyOpened(ValueRead(RegString(text)), None)) == Err(Reraise(ProductIdInvalid))
  {
    BlankProductIdIsInvalid(text);
  }

  /* ---------------------------------------------------------------------
     Disk serial (two PowerShell commands)
     --------------------------------------------------------------------- */

  /** One `subprocess.run`: it raised (including a timeout), or it completed. */
  datatype ProcessOutcome =
    | ProcessRaised(error: Error)
    | Completed(returnCode: int, stdout: string)

  /** What one line of the primary command's output leads to. */
  datatype LineVerdict =
    | NextLine                    // no "SerialNumber", or nothing after its ':'
    | SerialFound(serial: string) // the loop returns this
    | NoColon                     // `line.split(':', 1)[1]` raises IndexError

  function InspectLine(line: string): (v: LineVerdict)
    ensures v.NoColon? <==> Contains(line, "SerialNumber") && ':' !in line
    ensures v.SerialFound? ==> Contains(line, "SerialNumber") && v.serial != [] && Stripped(v.serial)
    // the serial is the stripped text after the first ':'
    ensures v.SerialFound? ==> |SplitFirst(line, ':')| == 2 && v.serial == Strip(SplitFirst(line, ':')[1])
    // a line passes on when it has no "SerialNumber", or nothing but whitespace after its first ':'
    ensures v.NextLine? <==> !Contains(line, "SerialNumber") || (':' in line && Strip(SplitFirst(line, ':')[1]) == [])
  {
    if !Contains(line, "SerialNumber") then NextLine
    else
      var parts := SplitFirst(line, ':');
      if |parts| < 2 then NoColon
      else
        var serial := Strip(parts[1]);
        if serial == [] then NextLine else SerialFound(serial)
  }

  /** The verdict of the first item that does not pass on to the next one,
      the items being inspected in order. */
  function FirstDecisive<T>(items: seq<T>, inspect: T -> LineVerdict): (v: LineVerdict)
    ensures v.NextLine? <==> forall k :: 0 <= k < |items| ==> inspect(items[k]).NextLine?
    ensures !v.NextLine? ==> exists i :: 0 <= i < |items| && inspect(items[i]) == v
                                         && forall k :: 0 <= k < i ==> inspect(items[k]).NextLine?
  {
    if items == [] then NextLine
    else if !inspect(items[0]).NextLine? then
      assert 0 < |items|;
      inspect(items[0])
    else
      var v := FirstDecisive(items[1..], inspect);
      assert forall k :: 1 <= k < |items| ==> items[k] == items[1..][k - 1];
      if !v.NextLine? then
        var i :| 0 <= i < |items[1..]| && inspect(items[1..][i]) == v
                 && forall k :: 0 <= k < i ==> inspect(items[1..][k]).NextLine?;
        assert inspect(items[i + 1]) == v && forall k :: 0 <= k < i + 1 ==> inspect(items[k]).NextLine?;
        v
      else v
  }

  /** The verdict of the first line that does not pass on to the next one. */
  function ScanLines(lines: seq<string>): (v: LineVerdict)
    ensures v == FirstDecisive(lines, InspectLine)
    ensures v.SerialFound? ==> v.serial != [] && Stripped(v.serial)
  {
    var v := FirstDecisive(lines, InspectLine);
    if v.SerialFound? then
      var i :| 0 <= i < |lines| && InspectLine(lines[i]) == v;
      v
    else v
  }

  /** The lines the primary command's output is cut into. */
  function OutputLines(stdout: string): seq<string> {
    Split(Strip(stdout), '\n')
  }

  /** Whether the first attempt ends in an exception, so that the fallback runs. */
  predicate PrimaryRaises(primary: ProcessOutcome) {
    || primary.ProcessRaised?
    || (primary.returnCode == 0 && ScanLines(OutputLines(primary.stdout)).NoColon?)
  }

  /** The fallback command: its stripped output when it exits with 0 and
      prints something, otherwise None. */
  function FallbackSerial(fallback: ProcessOutcome): (r: Option<string>)
    ensures r.Some? <==> fallback.Completed? && fallback.returnCode == 0 && Strip(fallback.stdout) != []
    ensures r.Some? ==> r.value == Strip(fallback.stdout) && Stripped(r.value)
  {
    if fallback.Completed? && fallback.returnCode == 0 && Strip(fallback.stdout) != [] then
      Some(Strip(fallback.stdout))
    else None
  }

  /** What `get_disk_serial` returns. */
  function DiskSerial(primary: ProcessOutcome, fallback: ProcessOutcome): (r: Option<string>)
    ensures PrimaryRaises(primary) ==> r == FallbackSerial(fallback)
    ensures !PrimaryRaises(primary) ==>
              r == if primary.returnCode == 0 && ScanLines(OutputLines(primary.stdout)).SerialFound?
                   then Some(ScanLines(OutputLines(primary.stdout)).serial) else None
    ensures r.Some? ==> r.value != [] && Stripped(r.value)
  {
    if primary.ProcessRaised? then FallbackSerial(fallback)
    else if primary.returnCode != 0 then None
    else match ScanLines(OutputLines(primary.stdout))
      case SerialFound(serial) => Some(serial)
      case NextLine => None
      case NoColon => FallbackSerial(fallback)
  }

  /** The fallback command is consulted only when the first attempt raises:
      otherwise the result is the same whatever the fallback would produce. */
  lemma FallbackOnlyAfterException(primary: ProcessOutcome, fallback1: ProcessOutcome, fallback2: ProcessOutcome)
    requires !PrimaryRaises(primary)
    ensures DiskSerial(primary, fallback1) == DiskSerial(primary, fallback2)
  {
  }

  /** A non-zero return code from the first command gives None without
      running the fallback. */
  lemma NonZeroReturnCodeGivesNone(code: int, stdout: string, fallback: ProcessOutcome)
    requires code != 0
    ensures DiskSerial(Completed(code, stdout), fallback) == None
  {
  }

  /** The `for line in lines` loop of `get_disk_serial`: lines are inspected
      in order until one returns a serial or raises. */
  method ScanOutput(lines: seq<string>) returns (v: LineVerdict)
    ensures v == ScanLines(lines)
  {
    var k := 0;
    while k < |lines|
      invariant 0 <= k <= |lines|
      invariant FirstDecisive(lines, InspectLine) == FirstDecisive(lines[k..], InspectLine)
    {
      assert lines[k..][0] == lines[k] && lines[k..][1..] == lines[k + 1..];
      v := InspectLine(lines[k]);
      if !v.NextLine? {
        return;
      }
      k := k + 1;
    }
    v := NextLine;
  }

  /** `get_disk_serial`: scan the primary command's lines for the first
      "SerialNumber" line with a non-empty value after its ':'; on an
      exception, run the fallback command. */
  method GetDiskSerial(primary: ProcessOutcome, fallback: ProcessOutcome) returns (r: Option<string>)
    ensures r == DiskSerial(primary, fallback)
    ensures r.Some? ==> r.value != [] && Stripped(r.value)
  {
    if primary.ProcessRaised? {
      return FallbackSerial(fallback);
    }
    if primary.returnCode != 0 {
      return None;
    }
    var verdict := ScanOutput(OutputLines(primary.stdout));
    match verdict {
      case SerialFound(serial) => r := Some(serial);
      case NextLine => r := None;
      case NoColon => r := FallbackSerial(fallback);
    }
  }

  /* ---------------------------------------------------------------------
     The HardwareData object
     --------------------------------------------------------------------- */

  /** The outcome of every probe one construction makes. The two volume
      calls are separate calls and may differ. */
  datatype Probes = Probes(
    serialVolume: VolumeProbe,
    nameVolume: VolumeProbe,
    environ: Environment,
    node: string,
    processor: string,
    cpuName: RegistryRead,
    biosVersion: RegistryRead,
    productId: ProductIdProbe,
    diskPrimary: ProcessOutcome,
    diskFallback: ProcessOutcome)

  class HardwareData {
    var systemVolumeSerial: Option<string>
    var systemVolumeName: Option<string>
    var computerName: Option<string>
    var cpuType: Option<string>
    var biosInfo: Option<string>
    var windowsSerial: Option<string>
    var diskSerial: Option<string>
    var windowsUsername: Option<string>

    constructor (systemVolumeSerial: Option<string>, systemVolumeName: Option<string>, computerName: Option<string>,
                 cpuType: Option<string>, biosInfo: Option<string>, windowsSerial: Option<string>,
                 diskSerial: Option<string>, windowsUsername: Option<string>)
      ensures this.systemVolumeSerial == systemVolumeSerial && this.systemVolumeName == systemVolumeName
      ensures this.computerName == computerName && this.cpuType == cpuType && this.biosInfo == biosInfo
      ensures this.windowsSerial == windowsSerial && this.diskSerial == diskSerial
      ensures this.windowsUsername == windowsUsername
    {
      this.systemVolumeSerial := systemVolumeSerial;
      this.systemVolumeName := systemVolumeName;
      this.computerName := computerName;
      this.cpuType := cpuType;
      this.biosInfo := biosInfo;
      this.windowsSerial := windowsSerial;
      this.diskSerial := diskSerial;
      this.windowsUsername := windowsUsername;
    }

    /** `HardwareData()`: the eight probes run in field order; the only one
        that can raise is the ProductId lookup, and then there is no object. */
    static method Create(p: Probes) returns (r: Result<HardwareData>)
      ensures r.Err? <==> WindowsSerial(p.productId).Err?
      ensures r.Err? ==> r.error == WindowsSerial(p.productId).error
      ensures r.Ok? ==> && fresh(r.value)
                        && r.value.systemVolumeSerial == SystemVolumeSerial(p.serialVolume)
                        && r.value.systemVolumeName == SystemVolumeName(p.nameVolume)
                        && r.value.computerName == Some(ComputerName(p.environ, p.node))
                        && r.value.cpuType == Some(CpuType(p.cpuName, p.processor))
                        && r.value.biosInfo == BiosInfo(p.biosVersion)
                        && r.value.windowsSerial == Some(WindowsSerial(p.productId).value)
                        && r.value.diskSerial == DiskSerial(p.diskPrimary, p.diskFallback)
                        && r.value.windowsUsername == WindowsUsername(p.environ)
    {
      var volumeSerial := SystemVolumeSerial(p.serialVolume);
      var volumeName := SystemVolumeName(p.nameVolume);
      var computer := ComputerName(p.environ, p.node);
      var cpu := CpuType(p.cpuName, p.processor);
      var bios := BiosInfo(p.biosVersion);
      var serial := WindowsSerial(p.productId);
      if serial.Err? {
        return Err(serial.error);
      }
      var disk := GetDiskSerial(p.diskPrimary, p.diskFallback);
      var user := WindowsUsername(p.environ);
      var hw := new HardwareData(volumeSerial, volumeName, Some(computer), Some(cpu), bios, Some(serial.value), disk, user);
      r := Ok(hw);
    }

    /** `to_dict`: exactly the eight attribute names, each mapped to the
        attribute of that name. */
    function ToDict(): (d: map<string, Option<string>>)
      reads this
      ensures d.Keys == {"system_volume_serial", "system_volume_name", "computer_name", "cpu_type",
                         "bios_info", "windows_serial", "disk_serial", "windows_username"}
      ensures d["system_volume_serial"] == systemVolumeSerial && d["system_volume_name"] == systemVolumeName
      ensures d["computer_name"] == computerName && d["cpu_type"] == cpuType && d["bios_info"] == biosInfo
      ensures d["windows_serial"] == windowsSerial && d["disk_serial"] == diskSerial
      ensures d["windows_username"] == windowsUsername
    {
      map[
        "system_volume_serial" := systemVolumeSerial,
        "system_volume_name" := systemVolumeName,
        "computer_name" := computerName,
        "cpu_type" := cpuType,
        "bios_info" := biosInfo,
        "windows_serial" := windowsSerial,
        "disk_serial" := diskSerial,
        "windows_username" := windowsUsername
      ]
    }
  }
}
