# Sealium key holder and hardware fingerprint, modelled in Dafny

This project models two parts of the Sealium Python package:

- `AsymmetricEncryption` (`src/sealium/utils/crypto/asymmetric.py`) holds at
  most one RSA public key and one RSA private key. It loads them from PEM files
  named at construction, encrypts text with RSA-OAEP (SHA-256) into base64
  text, and decrypts such text back.
- `HardwareData` (`src/sealium/utils/fetch/hardwaredata.py`) collects eight
  host identifiers when it is constructed: volume serial, volume name, computer
  name, CPU type, BIOS version, Windows ProductId, disk serial and user name.
  `to_dict` returns them as a dictionary.

Python exceptions are values. `Result<T>` is `Ok(value)` or
`Err(Error(cls, message))`; `Outcome` is `Pass` or `Fail(error)`. `ErrorClass`
lists the exception classes the code raises or catches, and `IsSubclass` gives
their inheritance, which is what ordered `except` clauses rely on. A
constructor that can raise is a static `Create` method that returns the new
object or the exception.

Everything outside the two classes is an input:

- the file system is a map from path to entry;
- PEM parsing, RSA-OAEP, UTF-8 and base64 are the function fields of a
  `CryptoLib.Primitives` value. The only facts known about them are the
  inverse laws in `Lawful` and `KeyPair`, and only lemmas that need those laws
  require them;
- each Windows API call, registry read, `subprocess.run`, environment lookup
  and `platform` call is given by its outcome: the value returned or the
  exception raised.

Files:

| file | module | contents |
|---|---|---|
| `pybase.dfy` | `PyBase` | `Option`, `Result`, `Outcome`, exception classes, `FirstCatching` for ordered `except` clauses |
| `pystr.dfy` | `PyStr` | `str.strip()`, `in`, `split(c)`, `split(c, 1)` and `sep.join` on strings, with their round-trip lemmas |
| `hexfmt.dfy` | `HexFormat` | `f"{v:08X}"` for a 32-bit value, and reading the digits back |
| `cryptolib.dfy` | `CryptoLib` | key and padding datatypes; the `Primitives` record |
| `asymmetric.dfy` | `Asymmetric` | the constructor as a specification function, the class `AsymmetricEncryption` |
| `hardware.dfy` | `Hardware` | one function per getter, the disk-serial loop, the class `HardwareData` |

## Model

| member | source | states |
|---|---|---|
| PyBase.FirstCatching | src/sealium/utils/fetch/hardwaredata.py:179-191 | the index of the first `except` clause whose class is a superclass of the exception; every earlier clause misses it; `len(clauses)` when none catches it |
| PyStr.Strip | src/sealium/utils/fetch/hardwaredata.py:130 | `strip()` leaves no whitespace at either end; the result is empty exactly when the input is all whitespace |
| PyStr.StripIsTrim | src/sealium/utils/fetch/hardwaredata.py:130 | what `strip()` keeps is a slice `s[i..j]` of the input with only whitespace before `i` and after `j` |
| PyStr.StripIdempotent | src/sealium/utils/fetch/hardwaredata.py:174-175 | stripping twice is stripping once, so the ProductId returned is already stripped |
| PyStr.StrippedIsFixpoint | src/sealium/utils/fetch/hardwaredata.py:211 | a string has no whitespace at either end exactly when `strip()` leaves it unchanged |
| PyStr.Contains | src/sealium/utils/fetch/hardwaredata.py:209 | `'SerialNumber' in line` holds exactly when the pattern occurs at some index of the line |
| PyStr.Split | src/sealium/utils/fetch/hardwaredata.py:207 | `split('\n')` gives at least one piece; no piece contains the separator; there is one piece exactly when the separator does not occur |
| PyStr.JoinSplit | src/sealium/utils/fetch/hardwaredata.py:207 | joining the pieces of `s.split(c)` with `c` gives `s` back |
| PyStr.SplitJoin | src/sealium/utils/fetch/hardwaredata.py:145 | splitting `c.join(items)` at `c` gives back a non-empty list whose items do not contain `c` |
| PyStr.SplitFirst | src/sealium/utils/fetch/hardwaredata.py:210 | `split(':', 1)` has two pieces exactly when ':' occurs; then the first piece has no ':' and piece + ':' + piece is the input; otherwise the one piece is the input |
| PyStr.Join | src/sealium/utils/fetch/hardwaredata.py:145 | `sep.join(items)` is empty for no items and the item itself for one; SplitJoin proves that splitting at the separator gives the items back |
| HexFormat.HexPadValue | src/sealium/utils/fetch/hardwaredata.py:64 | a value below 16^width, written as width hex digits, reads back as the same value |
| HexFormat.HexPadOfValue | src/sealium/utils/fetch/hardwaredata.py:64 | every hex digit string is the padded rendering of its own value |
| HexFormat.FormatSerial | src/sealium/utils/fetch/hardwaredata.py:63-64 | `f"{serial:08X}"` of a DWORD is exactly eight upper-case hex digits that denote the serial |
| HexFormat.FormatSerialOnto | src/sealium/utils/fetch/hardwaredata.py:64 | every eight-digit upper-case hex string denotes a DWORD and is that DWORD's rendering, so the format is a bijection |
| Asymmetric.ResolveArgument | src/sealium/utils/crypto/asymmetric.py:15-35 | a TypeError naming the argument exactly for a type other than None, str and Path; otherwise a path exactly when one was supplied, and it is the supplied one |
| Asymmetric.ReadText | src/sealium/utils/crypto/asymmetric.py:61 | `read_text()` gives the content of a regular file, and an OSError subclass for a missing path or a non-file |
| Asymmetric.LoadFailure | src/sealium/utils/crypto/asymmetric.py:63-66 | the re-raised error is a ValueError; its message starts with "Failed to load <role> key from <path>: " and continues with the cause's message |
| Asymmetric.LoadPublicKeyFrom | src/sealium/utils/crypto/asymmetric.py:57-66 | the key loads exactly when the file reads and its stripped text parses, and then it is the parsed key; a read failure or a parse failure is LoadFailure of that exception for the public key and the path: a ValueError whose message is the prefix followed by the cause's message |
| Asymmetric.LoadPrivateKeyFrom | src/sealium/utils/crypto/asymmetric.py:68-77 | the same for the private key: the parsed key exactly when reading and parsing succeed, otherwise LoadFailure of the read or parse exception |
| Asymmetric.ValidatePath | src/sealium/utils/crypto/asymmetric.py:112-116 | passes exactly for an existing regular file; FileNotFoundError "<name> not found: <path>" when missing; ValueError "<name> is not a file: <path>" when it exists but is not a file |
| Asymmetric.CheckArguments | src/sealium/utils/crypto/asymmetric.py:15-43 | the argument checks pass exactly when both arguments are None, str or Path and each supplied path is an existing regular file; then they give back the paths named |
| Asymmetric.LoadKeys | src/sealium/utils/crypto/asymmetric.py:52-77 | succeeds exactly when the key of each given path loads; a public key that fails to load is the failure whatever the private file holds; otherwise a private key that fails to load is; a success holds the paths and, for each given path, the key loaded from it |
| Asymmetric.Construct | src/sealium/utils/crypto/asymmetric.py:8-55 | succeeds exactly when the argument checks pass and each supplied key loads; a badly typed argument raises TypeError, public first; then a supplied path that is missing or not a file raises ValidatePath's FileNotFoundError or ValueError, public first; on success the instance holds a path and a key exactly for each supplied argument, and the keys are those loaded from the supplied paths |
| Asymmetric.NoArgumentsGiveEmptyState | src/sealium/utils/crypto/asymmetric.py:8-55 | with no arguments all four attributes are None |
| Asymmetric.TypeCheckedBeforeFileSystem | src/sealium/utils/crypto/asymmetric.py:15-35 | a badly typed argument gives the same TypeError whatever the file system holds |
| Asymmetric.ValidatedBeforeLoading | src/sealium/utils/crypto/asymmetric.py:37-43 | a supplied path that is not an existing regular file is refused with FileNotFoundError or ValueError, whatever the PEM loaders would do |
| Asymmetric.PublicKeyLoadedFirst | src/sealium/utils/crypto/asymmetric.py:52-55 | with both paths valid and the public key unloadable, the construction raises the public key's ValueError, whatever the private file holds |
| Asymmetric.MissingPrivateKeyFile | src/sealium/utils/crypto/asymmetric.py:37-42 | with the public path absent or a regular file, a missing private key file raises FileNotFoundError "Private key file not found: <path>" |
| Asymmetric.PrivateKeyLoadedSecond | src/sealium/utils/crypto/asymmetric.py:52-55 | with both paths valid, the public key loadable or not asked for, and the private key unloadable, the construction raises the private key's ValueError |
| Asymmetric.KeyFilesConstruct | src/sealium/utils/crypto/asymmetric.py:8-77 | two supplied regular files whose keys load give an instance holding both paths and both loaded keys |
| Asymmetric.EncryptWith | src/sealium/utils/crypto/asymmetric.py:79-92 | without a public key, the "Public key not loaded" ValueError; otherwise the base64 text of the OAEP-SHA-256 ciphertext of the UTF-8 bytes, or the library's exception |
| Asymmetric.DecryptWith | src/sealium/utils/crypto/asymmetric.py:94-110 | without a private key, the "Private key not loaded" ValueError before the input is looked at; otherwise the base64 decoder's exception, else the RSA call's exception, else the UTF-8 decoding of the RSA plaintext (a value or the decoder's exception) |
| Asymmetric.RoundTrip | src/sealium/utils/crypto/asymmetric.py:79-110 | decrypting what encrypt produced, with the matching private key, gives the message back |
| Asymmetric.ConstructedPairRoundTrip | src/sealium/utils/crypto/asymmetric.py:8-110 | an instance built from a matching pair of key files decrypts what it encrypts |
| Asymmetric.ConstructAsWritten | src/sealium/utils/crypto/asymmetric.py:37-43 | the constructor as written never succeeds; once the types and the public path pass, it raises AttributeError at line 41 |
| Asymmetric.AsWrittenRefusesNoArguments | src/sealium/utils/crypto/asymmetric.py:41 | with no arguments the constructor as written raises AttributeError, while the intended one gives an empty instance |
| Asymmetric.AsymmetricEncryption.constructor | src/sealium/utils/crypto/asymmetric.py:45-49 | the paths are stored and both keys start as None |
| Asymmetric.AsymmetricEncryption.LoadPublicKey | src/sealium/utils/crypto/asymmetric.py:57-66 | on success `public_key` is the loaded key; on failure it is unchanged and the ValueError is returned |
| Asymmetric.AsymmetricEncryption.LoadPrivateKey | src/sealium/utils/crypto/asymmetric.py:68-77 | the same for `private_key` |
| Asymmetric.AsymmetricEncryption.LoadSuppliedKeys | src/sealium/utils/crypto/asymmetric.py:52-55 | the instance ends up holding the keys that loading both supplied paths gives, public first; otherwise it reports the first failure and assigns nothing |
| Asymmetric.AsymmetricEncryption.Create | src/sealium/utils/crypto/asymmetric.py:8-55 | a fresh instance in exactly the state Construct describes, or exactly the exception Construct describes |
| Asymmetric.AsymmetricEncryption.Encrypt | src/sealium/utils/crypto/asymmetric.py:79-92 | the result EncryptWith describes for the instance's public key |
| Asymmetric.AsymmetricEncryption.Decrypt | src/sealium/utils/crypto/asymmetric.py:94-110 | the result DecryptWith describes for the instance's private key |
| Hardware.SystemVolumeSerial | src/sealium/utils/fetch/hardwaredata.py:20-67 | a serial exactly when the API call returns success; then eight upper-case hex digits that denote the DWORD serial |
| Hardware.SystemVolumeName | src/sealium/utils/fetch/hardwaredata.py:70-111 | None exactly when the call raises; otherwise never empty; the label when the call succeeds with a non-empty label; the default name "本地磁盘" when it fails |
| Hardware.FirstSet | src/sealium/utils/fetch/hardwaredata.py:235 | the value of the first set variable of a list, and None exactly when none is set |
| Hardware.ComputerName | src/sealium/utils/fetch/hardwaredata.py:114-117 | COMPUTERNAME's value when it is set, and the platform node name otherwise |
| Hardware.WindowsUsername | src/sealium/utils/fetch/hardwaredata.py:232-235 | USERNAME's value when set, else USER's when set; None exactly when neither is set |
| Hardware.ComputerNameFallback | src/sealium/utils/fetch/hardwaredata.py:117 | the computer name is COMPUTERNAME when set, else the platform node name |
| Hardware.UsernameFallback | src/sealium/utils/fetch/hardwaredata.py:235 | the user name is USERNAME when set, else USER when set, else None |
| Hardware.CpuType | src/sealium/utils/fetch/hardwaredata.py:122-132 | the stripped registry string when the read gives a string; the platform processor string on any failure or other value type |
| Hardware.BiosInfo | src/sealium/utils/fetch/hardwaredata.py:135-148 | None exactly when the registry read raises; a list is joined with single spaces; any other value is its text |
| Hardware.BiosListRecoverable | src/sealium/utils/fetch/hardwaredata.py:144-145 | a BIOS list whose entries contain no space is recovered by splitting the result at spaces, so it is joined in order and nothing is lost |
| Hardware.ReadProductId | src/sealium/utils/fetch/hardwaredata.py:155-177 | the stripped ProductId exactly when the key opens, closes, and holds a string with non-whitespace; an exception from OpenKey propagates unchanged; CloseKey's exception in the `finally` replaces any other; otherwise QueryValueEx's exception propagates; once the key is opened, read and closed, any other value is the "ProductId is empty or invalid" ValueError |
| Hardware.Reraise | src/sealium/utils/fetch/hardwaredata.py:179-191 | FileNotFoundError is re-raised as FileNotFoundError "Registry path not found…" and PermissionError as PermissionError "Insufficient permissions…"; any other OSError becomes OSError "OS-level registry error: …"; everything else becomes RuntimeError "Unexpected error while reading Windows ProductId: …" |
| Hardware.WindowsSerial | src/sealium/utils/fetch/hardwaredata.py:150-191 | succeeds exactly when the `try` body does, with a non-empty stripped ProductId; otherwise raises the re-raised form of the body's exception |
| Hardware.BlankProductIdIsInvalid | src/sealium/utils/fetch/hardwaredata.py:174-177 | a blank ProductId string makes the `try` body raise the "ProductId is empty or invalid" ValueError |
| Hardware.InvalidProductIdBecomesRuntimeError | src/sealium/utils/fetch/hardwaredata.py:190-191 | that ValueError is re-raised as a RuntimeError carrying its message after the clause's prefix |
| Hardware.BlankProductIdIsRuntimeError | src/sealium/utils/fetch/hardwaredata.py:150-191 | `get_windows_serial` raises that RuntimeError for a blank ProductId |
| Hardware.InspectLine | src/sealium/utils/fetch/hardwaredata.py:209-212 | a line raises IndexError exactly when it contains "SerialNumber" and no ':'; it passes on exactly when it has no "SerialNumber" or only whitespace after its first ':'; a serial comes only from a "SerialNumber" line and is the stripped text after its first ':', non-empty |
| Hardware.FirstDecisive | src/sealium/utils/fetch/hardwaredata.py:208-212 | every line passes on exactly when the loop falls through; otherwise the result is the verdict of the first line that does not pass on |
| Hardware.ScanLines | src/sealium/utils/fetch/hardwaredata.py:207-212 | the verdict of the first line that does not pass on (FirstDecisive with InspectLine); a serial found is non-empty and stripped |
| Hardware.ScanOutput | src/sealium/utils/fetch/hardwaredata.py:208-212 | the loop stops at the first line that returns or raises, and its verdict is that of ScanLines |
| Hardware.FallbackSerial | src/sealium/utils/fetch/hardwaredata.py:214-229 | the stripped output exactly when the fallback command exits with 0 and prints non-whitespace; otherwise None |
| Hardware.DiskSerial | src/sealium/utils/fetch/hardwaredata.py:194-229 | when the first command raises, or exits with 0 and the first deciding line is a "SerialNumber" line without ':', the result is the fallback's; otherwise it is the serial of the first deciding line, or None; any serial is non-empty and stripped |
| Hardware.FallbackOnlyAfterException | src/sealium/utils/fetch/hardwaredata.py:214 | when the first attempt does not raise, the result is the same whatever the fallback would produce |
| Hardware.NonZeroReturnCodeGivesNone | src/sealium/utils/fetch/hardwaredata.py:204-213 | a non-zero return code from the first command gives None, without the fallback |
| Hardware.GetDiskSerial | src/sealium/utils/fetch/hardwaredata.py:194-229 | the result DiskSerial describes; any serial is non-empty and stripped |
| Hardware.HardwareData.constructor | src/sealium/utils/fetch/hardwaredata.py:10-17 | the eight attributes hold the given values |
| Hardware.HardwareData.Create | src/sealium/utils/fetch/hardwaredata.py:8-17 | construction fails exactly when `get_windows_serial` raises, with its exception; otherwise each attribute holds what its getter returns for the probes |
| Hardware.HardwareData.ToDict | src/sealium/utils/fetch/hardwaredata.py:251-262 | exactly the eight attribute names as keys, each mapped to the attribute of that name |

## Left out

- `generate_keys`, `save_keys` and `SymmetricEncryption` are not part of this model. Neither are the abstract base class in `hardwaredata_abc.py`, the scripts under `tests/randomtest`, `HardwareData.__str__` and the `__main__` block.
- RSA, OAEP, PEM parsing, UTF-8 and base64 are not implemented. They are function fields of `CryptoLib.Primitives`, and only their inverse laws are known.
- Asymmetric.EncryptWith: does not state that a ciphertext differs from its message. The inverse laws, the only facts known about the library, do not imply it.
- `load_pem_public_key` and `load_pem_private_key` are both given the `str` from `read_text().strip()`, and `load_pem_private_key` is called without a `password` argument. What the real library does with that is part of each loader's outcome, which is an input here.
- A Dafny `char` is a Unicode scalar value, and `encodeUtf8` is total. A Python `str` holding a lone surrogate, for which `message.encode("utf-8")` raises UnicodeEncodeError, cannot be expressed, so that error of `encrypt` is not modelled.
- A path is identified by its text. `pathlib` normalisation (`"a//b"` printed as `"a/b"`) is not modelled, so error messages carry the path text as given.
- `path.exists()`, `is_file()` and `read_text()` can also fail for reasons such as permissions or races. Only "missing", "not a regular file" and a read outcome per regular file are modelled.
- Asymmetric.AsymmetricEncryption.LoadSuppliedKeys: assigns both keys after both have loaded. The source assigns the public key before loading the private key. The difference cannot be observed, because a failed load raises out of `__init__` and leaves no instance.
- Hardware.CpuType: a registry value of another type that also has `strip()`, such as bytes from REG_BINARY, gives the processor string here. In Python it would give the stripped bytes.
- Hardware.BiosInfo: a list holding a non-string item makes `" ".join` raise TypeError, which the source turns into None. The model's list holds only strings.
- The `except Exception` branch of `get_computer_name` is left out, because an environment lookup does not raise here. Windows environment names are case-insensitive; here they are compared exactly.
- `BaseException` subclasses such as `KeyboardInterrupt`, which pass through `except Exception`, are not modelled.
- The 15-second `subprocess.run` timeout appears only as one way the run can raise.
- `CloseKey` in `get_cpu_type` and `get_bios_info` is folded into the outcome of the registry read. In `get_windows_serial` it is separate, because its `finally` clause replaces the query's exception.

## Code and tests disagree

The model follows the code in each case below.

- `tests/fetch/test_hardwaredata.py:32-35` expects None when the volume API call fails. Lines 107-109 of `hardwaredata.py` return the default name "本地磁盘" (see `Hardware.SystemVolumeName`).
- `tests/fetch/test_hardwaredata.py:100-106` expects a ValueError for an empty ProductId. The ValueError raised at line 177 is caught at line 190 and re-raised as a RuntimeError (see `Hardware.BlankProductIdIsRuntimeError`).
- `tests/fetch/test_hardwaredata.py:125-140` expects the fallback command to run when the first command exits with 1. A non-zero return code reaches `return None` at line 213 without raising, so no fallback runs (see `Hardware.NonZeroReturnCodeGivesNone`).

## Findings

| source | as written | input that shows it | evidently intended | confidence | as-written member | corrected member |
|---|---|---|---|---|---|---|
| src/sealium/utils/crypto/asymmetric.py:41 | tests `self.private_key_path`, which is first assigned at line 46, so `__init__` raises AttributeError | `AsymmetricEncryption()` with no arguments, or any well-typed arguments whose public path is valid | test the `private_key_path` argument, as line 38 does for the public one | high, not executed | Asymmetric.ConstructAsWritten, Asymmetric.AsWrittenRefusesNoArguments | Asymmetric.Construct |
