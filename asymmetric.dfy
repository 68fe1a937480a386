/** AsymmetricEncryption (src/sealium/utils/crypto/asymmetric.py): a holder of
    at most one RSA public key and one RSA private key, loaded from PEM files
    named at construction, with OAEP-SHA-256 encryption to base64 text and the
    inverse decryption.

    The file system is a map from path to entry; PEM parsing, RSA, UTF-8 and
    base64 are the opaque `Primitives` of module CryptoLib. */
module Asymmetric {
  import opened PyBase
  import opened PyStr
  import opened CryptoLib

  /** A pathlib.Path, identified by its text. */
  datatype Path = Path(text: string)

  /** What exists at a path. A path that is not a key of the file system map
      does not exist. */
  datatype Entry =
    | Directory                             // exists but is not a regular file (a directory or any special entry)
    | RegularFile(content: Result<string>)  // a regular file, with the outcome of reading it as text

  type FileSystem = map<Path, Entry>

  /** A key-location argument, told apart by its run-time type. */
  datatype KeyPathArg =
    | NoPath                        // None
    | StrPath(text: string)         // a str
    | PathObject(path: Path)        // a pathlib.Path
    | OtherType(typeName: string)   // anything else, by the name of its class

  /** Which of the two keys an argument, a file or an error is about. */
  datatype Role = PublicRole | PrivateRole {
    function ArgumentName(): string {
      if PublicRole? then "public_key_path" else "private_key_path"
    }

    function FileName(): string {
      if PublicRole? then "Public key file" else "Private key file"
    }

    function KeyName(): string {
      if PublicRole? then "public key" else "private key"
    }
  }

  /** The four attributes of an instance. */
  datatype KeyState = KeyState(
    publicKeyPath: Option<Path>,
    privateKeyPath: Option<Path>,
    publicKey: Option<RsaPublicKey>,
    privateKey: Option<RsaPrivateKey>)

  const PublicKeyNotLoaded := Error(ValueError, "Public key not loaded. Use load_public_key() to load it.")
  const PrivateKeyNotLoaded := Error(ValueError, "Private key not loaded. Use load_private_key() to load it.")

  /** Whether an argument names a file at all. */
  predicate Supplied(arg: KeyPathArg) {
    arg.StrPath? || arg.PathObject?
  }

  /** The path a supplied argument names. */
  function PathOf(arg: KeyPathArg): Path
    requires Supplied(arg)
  {
    if arg.StrPath? then Path(arg.text) else arg.path
  }

  /** The type dispatch of one constructor argument: None stays None, a str
      becomes a Path, a Path is kept, and any other type is a TypeError. */
  function ResolveArgument(arg: KeyPathArg, role: Role): (r: Result<Option<Path>>)
    ensures r.Err? <==> arg.OtherType?
    ensures r.Err? ==> r.error.cls == TypeError && role.ArgumentName() <= r.error.message
    ensures r.Ok? ==> (r.value.Some? <==> Supplied(arg))
    ensures r.Ok? && Supplied(arg) ==> r.value.value == PathOf(arg)
  {
    match arg
    case NoPath => Ok(None)
    case StrPath(text) => Ok(Some(Path(text)))
    case PathObject(path) => Ok(Some(path))
    case OtherType(typeName) =>
      Err(Error(TypeError, role.ArgumentName() + " must be str, Path, or None, got <class '" + typeName + "'>"))
  }

  /** `path.read_text()`: the file's text, or the OSError reading raises. */
  function ReadText(fs: FileSystem, path: Path): (r: Result<string>)
    ensures path in fs && fs[path].RegularFile? ==> r == fs[path].content
    ensures !(path in fs && fs[path].RegularFile?) ==> r.Err? && IsSubclass(r.error.cls, OSError)
  {
    if path !in fs then
      Err(Error(FileNotFoundError, "[Errno 2] No such file or directory: '" + path.text + "'"))
    else match fs[path]
      case Directory => Err(Error(IsADirectoryError, "[Errno 21] Is a directory: '" + path.text + "'"))
      case RegularFile(content) => content
  }

  /** The text every key-loading error message starts with. */
  function LoadFailurePrefix(role: Role, path: Path): string {
    "Failed to load " + role.KeyName() + " from " + path.text + ": "
  }

  /** The ValueError a key-loading method raises in place of `cause`: it names
      the key's role and path and carries the cause's message. */
  function LoadFailure(role: Role, path: Path, cause: Error): (e: Error)
    ensures e.cls == ValueError
    ensures LoadFailurePrefix(role, path) <= e.message
    ensures e.message[|LoadFailurePrefix(role, path)|..] == cause.message
  {
    Error(ValueError, LoadFailurePrefix(role, path) + cause.message)
  }

  /** `_load_public_key` without its assignment: the file's text is read and
      stripped, then parsed as a PEM public key. Any exception on the way
      becomes the ValueError of LoadFailure. */
  function LoadPublicKeyFrom(fs: FileSystem, lib: Primitives, path: Path): (r: Result<RsaPublicKey>)
    ensures r.Ok? <==> ReadText(fs, path).Ok? && lib.loadPemPublicKey(Strip(ReadText(fs, path).value)).Ok?
    ensures r.Ok? ==> r == lib.loadPemPublicKey(Strip(ReadText(fs, path).value))
    ensures r.Err? ==> r.error.cls == ValueError && LoadFailurePrefix(PublicRole, path) <= r.error.message
    // a failure wraps the exception of the step that raised it
    ensures ReadText(fs, path).Err? ==> r == Err(LoadFailure(PublicRole, path, ReadText(fs, path).error))
    ensures ReadText(fs, path).Ok? && lib.loadPemPublicKey(Strip(ReadText(fs, path).value)).Err?
            ==> r == Err(LoadFailure(PublicRole, path, lib.loadPemPublicKey(Strip(ReadText(fs, path).value)).error))
  {
    match ReadText(fs, path)
    case Err(e) => Err(LoadFailure(PublicRole, path, e))
    case Ok(text) =>
      match lib.loadPemPublicKey(Strip(text))
      case Ok(key) => Ok(key)
      case Err(e) => Err(LoadFailure(PublicRole, path, e))
  }

  /** `_load_private_key` without its assignment, the same for the private key. */
  function LoadPrivateKeyFrom(fs: FileSystem, lib: Primitives, path: Path): (r: Result<RsaPrivateKey>)
    ensures r.Ok? <==> ReadText(fs, path).Ok? && lib.loadPemPrivateKey(Strip(ReadText(fs, path).value)).Ok?
    ensures r.Ok? ==> r == lib.loadPemPrivateKey(Strip(ReadText(fs, path).value))
    ensures r.Err? ==> r.error.cls == ValueError && LoadFailurePrefix(PrivateRole, path) <= r.error.message
    // a failure wraps the exception of the step that raised it
    ensures ReadText(fs, path).Err? ==> r == Err(LoadFailure(PrivateRole, path, ReadText(fs, path).error))
    ensures ReadText(fs, path).Ok? && lib.loadPemPrivateKey(Strip(ReadText(fs, path).value)).Err?
            ==> r == Err(LoadFailure(PrivateRole, path, lib.loadPemPrivateKey(Strip(ReadText(fs, path).value)).error))
  {
    match ReadText(fs, path)
    case Err(e) => Err(LoadFailure(PrivateRole, path, e))
    case Ok(text) =>
      match lib.loadPemPrivateKey(Strip(text))
      case Ok(key) => Ok(key)
      case Err(e) => Err(LoadFailure(PrivateRole, path, e))
  }

  /** `_validate_path`: a path passes when it exists and is a regular file.
      Existence is checked first, so a missing path is always reported as
      not found, and only an existing non-file as "is not a file". */
  function ValidatePath(fs: FileSystem, path: Path, name: string): (r: Outcome)
    ensures r.Pass? <==> path in fs && fs[path].RegularFile?
    ensures path !in fs ==> r == Fail(Error(FileNotFoundError, name + " not found: " + path.text))
    ensures path in fs && !fs[path].RegularFile? ==> r == Fail(Error(ValueError, name + " is not a file: " + path.text))
  {
    if path !in fs then Fail(Error(FileNotFoundError, name + " not found: " + path.text))
    else if !fs[path].RegularFile? then Fail(Error(ValueError, name + " is not a file: " + path.text))
    else Pass
  }

  /** Validation of an optional path for one role. */
  function ValidateFor(fs: FileSystem, path: Option<Path>, role: Role): Outcome {
    if path.None? then Pass else ValidatePath(fs, path.value, role.FileName())
  }

  /** Lines 15-43: both arguments type-checked, then both paths validated,
      public first each time; the two paths, or the first failure. */
  function CheckArguments(fs: FileSystem, publicArg: KeyPathArg, privateArg: KeyPathArg): (r: Result<(Option<Path>, Option<Path>)>)
    // the checks pass exactly for well-typed arguments naming existing regular files
    ensures r.Ok? <==> && !publicArg.OtherType? && !privateArg.OtherType?
                       && (Supplied(publicArg) ==> PathOf(publicArg) in fs && fs[PathOf(publicArg)].RegularFile?)
                       && (Supplied(privateArg) ==> PathOf(privateArg) in fs && fs[PathOf(privateArg)].RegularFile?)
    // and then give back the paths the arguments name
    ensures r.Ok? ==> r.value == (ResolveArgument(publicArg, PublicRole).value, ResolveArgument(privateArg, PrivateRole).value)
  {
    var publicPath :- ResolveArgument(publicArg, PublicRole);
    var privatePath :- ResolveArgument(privateArg, PrivateRole);
    var publicCheck := ValidateFor(fs, publicPath, PublicRole);
    var privateCheck := ValidateFor(fs, privatePath, PrivateRole);
    if publicCheck.Fail? then Err(publicCheck.error)
    else if privateCheck.Fail? then Err(privateCheck.error)
    else Ok((publicPath, privatePath))
  }

  /** The key a path holds, when there is a path. */
  function LoadOptionalPublic(fs: FileSystem, lib: Primitives, path: Option<Path>): Result<Option<RsaPublicKey>> {
    if path.None? then Ok(None)
    else match LoadPublicKeyFrom(fs, lib, path.value)
      case Ok(k) => Ok(Some(k))
      case Err(e) => Err(e)
  }

  function LoadOptionalPrivate(fs: FileSystem, lib: Primitives, path: Option<Path>): Result<Option<RsaPrivateKey>> {
    if path.None? then Ok(None)
    else match LoadPrivateKeyFrom(fs, lib, path.value)
      case Ok(k) => Ok(Some(k))
      case Err(e) => Err(e)
  }

  /** Lines 45-55, after validation: the public key is loaded, then the private key. */
  function LoadKeys(fs: FileSystem, lib: Primitives, publicPath: Option<Path>, privatePath: Option<Path>): (r: Result<KeyState>)
    // a public key that fails to load is the failure, whatever the private file holds
    ensures publicPath.Some? && LoadPublicKeyFrom(fs, lib, publicPath.value).Err?
            ==> r == Err(LoadPublicKeyFrom(fs, lib, publicPath.value).error)
    // otherwise a private key that fails to load is
    ensures (publicPath.Some? ==> LoadPublicKeyFrom(fs, lib, publicPath.value).Ok?)
            && privatePath.Some? && LoadPrivateKeyFrom(fs, lib, privatePath.value).Err?
            ==> r == Err(LoadPrivateKeyFrom(fs, lib, privatePath.value).error)
    // loading succeeds exactly when the key of each given path loads
    ensures r.Ok? <==> && (publicPath.Some? ==> LoadPublicKeyFrom(fs, lib, publicPath.value).Ok?)
                       && (privatePath.Some? ==> LoadPrivateKeyFrom(fs, lib, privatePath.value).Ok?)
    // a success holds the paths, and the key each given path holds
    ensures r.Ok? ==> && r.value.publicKeyPath == publicPath && r.value.privateKeyPath == privatePath
                      && (r.value.publicKey.Some? <==> publicPath.Some?)
                      && (r.value.privateKey.Some? <==> privatePath.Some?)
                      && (publicPath.Some? ==> Ok(r.value.publicKey.value) == LoadPublicKeyFrom(fs, lib, publicPath.value))
                      && (privatePath.Some? ==> Ok(r.value.privateKey.value) == LoadPrivateKeyFrom(fs, lib, privatePath.value))
  {
    var publicKey :- LoadOptionalPublic(fs, lib, publicPath);
    var privateKey :- LoadOptionalPrivate(fs, lib, privatePath);
    Ok(KeyState(publicPath, privatePath, publicKey, privateKey))
  }

  /** What constructing `AsymmetricEncryption(publicArg, privateArg)` ends
      with: both arguments are type-checked, public first; then both paths
      are validated, public first; only then are the keys loaded, public
      first. The first failure is what the construction raises.

      This is the constructor as its authors intended it. As written, line 41
      tests `self.private_key_path`, which is only assigned at line 46; see
      ConstructAsWritten. */
  function Construct(fs: FileSystem, lib: Primitives, publicArg: KeyPathArg, privateArg: KeyPathArg): (r: Result<KeyState>)
    // a badly typed argument is refused before anything else, the public one first
    ensures publicArg.OtherType? ==> r == Err(ResolveArgument(publicArg, PublicRole).error)
    ensures !publicArg.OtherType? && privateArg.OtherType? ==> r == Err(ResolveArgument(privateArg, PrivateRole).error)
    // then a supplied path that is not an existing regular file is refused, the public one first
    ensures !publicArg.OtherType? && !privateArg.OtherType? && Supplied(publicArg)
            && ValidatePath(fs, PathOf(publicArg), PublicRole.FileName()).Fail?
            ==> r == Err(ValidatePath(fs, PathOf(publicArg), PublicRole.FileName()).error)
    ensures !publicArg.OtherType? && !privateArg.OtherType?
            && (Supplied(publicArg) ==> ValidatePath(fs, PathOf(publicArg), PublicRole.FileName()).Pass?)
            && Supplied(privateArg) && ValidatePath(fs, PathOf(privateArg), PrivateRole.FileName()).Fail?
            ==> r == Err(ValidatePath(fs, PathOf(privateArg), PrivateRole.FileName()).error)
    // construction succeeds exactly when the checks pass and each supplied key loads
    ensures r.Ok? <==> && CheckArguments(fs, publicArg, privateArg).Ok?
                       && (Supplied(publicArg) ==> LoadPublicKeyFrom(fs, lib, PathOf(publicArg)).Ok?)
                       && (Supplied(privateArg) ==> LoadPrivateKeyFrom(fs, lib, PathOf(privateArg)).Ok?)
    // a successful construction holds exactly the keys whose paths were supplied
    ensures r.Ok? ==> && (r.value.publicKeyPath.Some? <==> Supplied(publicArg))
                      && (r.value.privateKeyPath.Some? <==> Supplied(privateArg))
                      && (r.value.publicKey.Some? <==> Supplied(publicArg))
                      && (r.value.privateKey.Some? <==> Supplied(privateArg))
    ensures r.Ok? && Supplied(publicArg) ==>
              r.value.publicKeyPath == Some(PathOf(publicArg))
              && Ok(r.value.publicKey.value) == LoadPublicKeyFrom(fs, lib, PathOf(publicArg))
    ensures r.Ok? && Supplied(privateArg) ==>
              r.value.privateKeyPath == Some(PathOf(privateArg))
              && Ok(r.value.privateKey.value) == LoadPrivateKeyFrom(fs, lib, PathOf(privateArg))
  {
    var paths :- CheckArguments(fs, publicArg, privateArg);
    LoadKeys(fs, lib, paths.0, paths.1)
  }

  /** `encrypt`: refuse without a public key; otherwise UTF-8 encode, RSA
      encrypt with OAEP-SHA-256, and render the ciphertext as base64 text.
      An exception from the RSA call is raised as it is. */
  function EncryptWith(lib: Primitives, key: Option<RsaPublicKey>, message: string): (r: Result<string>)
    ensures key.None? ==> r == Err(PublicKeyNotLoaded)
    ensures key.Some? ==> match lib.rsaEncrypt(key.value, lib.encodeUtf8(message), OaepSha256)
                          case Ok(c) => r == Ok(lib.b64Encode(c))
                          case Err(e) => r == Err(e)
  {
    if key.None? then Err(PublicKeyNotLoaded)
    else
      var ciphertext :- lib.rsaEncrypt(key.value, lib.encodeUtf8(message), OaepSha256);
      Ok(lib.b64Encode(ciphertext))
  }

  /** `decrypt`: refuse without a private key, before the input is looked at;
      otherwise base64-decode, RSA decrypt with the same OAEP-SHA-256
      parameters, and UTF-8 decode. An exception from any step is raised as it is. */
  function DecryptWith(lib: Primitives, key: Option<RsaPrivateKey>, ciphertext: string): (r: Result<string>)
    ensures key.None? ==> r == Err(PrivateKeyNotLoaded)
    ensures key.Some? && lib.b64Decode(ciphertext).Err? ==> r == Err(lib.b64Decode(ciphertext).error)
    ensures r.Ok? ==> key.Some? && lib.b64Decode(ciphertext).Ok?
                      && lib.rsaDecrypt(key.value, lib.b64Decode(ciphertext).value, OaepSha256).Ok?
                      && lib.decodeUtf8(lib.rsaDecrypt(key.value, lib.b64Decode(ciphertext).value, OaepSha256).value) == r
    ensures key.Some? ==> match lib.b64Decode(ciphertext)
                          case Err(e) => r == Err(e)
                          case Ok(raw) =>
                            match lib.rsaDecrypt(key.value, raw, OaepSha256)
                            case Err(e) => r == Err(e)
                            case Ok(plain) => r == lib.decodeUtf8(plain)
  {
    if key.None? then Err(PrivateKeyNotLoaded)
    else
      var raw :- lib.b64Decode(ciphertext);
      var plain :- lib.rsaDecrypt(key.value, raw, OaepSha256);
      lib.decodeUtf8(plain)
  }

  /** Decryption under the matching private key undoes encryption: for every
      message that the RSA call accepts, decrypt(encrypt(m)) == m. */
  lemma RoundTrip(lib: Primitives, pub: RsaPublicKey, priv: RsaPrivateKey, message: string)
    requires lib.Lawful() && lib.KeyPair(pub, priv)
    requires EncryptWith(lib, Some(pub), message).Ok?
    ensures DecryptWith(lib, Some(priv), EncryptWith(lib, Some(pub), message).value) == Ok(message)
  {
    var bytes := lib.encodeUtf8(message);
    var c := lib.rsaEncrypt(pub, bytes, OaepSha256).value;
    assert lib.b64Decode(lib.b64Encode(c)) == Ok(c);
    assert lib.rsaDecrypt(priv, c, OaepSha256) == Ok(bytes);
    assert lib.decodeUtf8(bytes) == Ok(message);
  }

  /** Constructing with no arguments gives an instance whose four attributes are None. */
  lemma NoArgumentsGiveEmptyState(fs: FileSystem, lib: Primitives)
    ensures Construct(fs, lib, NoPath, NoPath) == Ok(KeyState(None, None, None, None))
  {
  }

  /** A badly typed argument is refused whatever the file system holds: both
      type checks come before any file-system access. */
  lemma TypeCheckedBeforeFileSystem(fs1: FileSystem, fs2: FileSystem, lib: Primitives, publicArg: KeyPathArg, privateArg: KeyPathArg)
    requires publicArg.OtherType? || privateArg.OtherType?
    ensures Construct(fs1, lib, publicArg, privateArg) == Construct(fs2, lib, publicArg, privateArg)
    ensures Construct(fs1, lib, publicArg, privateArg).Err?
    ensures Construct(fs1, lib, publicArg, privateArg).error.cls == TypeError
  {
  }

  /** A supplied path that is not an existing regular file is refused whatever
      the PEM loaders would do: both paths are validated before either key is
      read. Which error is raised is stated by Construct's contract. */
  lemma ValidatedBeforeLoading(fs: FileSystem, lib1: Primitives, lib2: Primitives, publicArg: KeyPathArg, privateArg: KeyPathArg)
    requires !publicArg.OtherType? && !privateArg.OtherType?
    requires || (Supplied(publicArg) && !(PathOf(publicArg) in fs && fs[PathOf(publicArg)].RegularFile?))
             || (Supplied(privateArg) && !(PathOf(privateArg) in fs && fs[PathOf(privateArg)].RegularFile?))
    ensures Construct(fs, lib1, publicArg, privateArg) == Construct(fs, lib2, publicArg, privateArg)
    ensures Construct(fs, lib1, publicArg, privateArg).Err?
    ensures var e := Construct(fs, lib1, publicArg, privateArg).error;
            e.cls == FileNotFoundError || e.cls == ValueError
  {
  }

  /** The public key is loaded before the private key: with both paths valid
      files and an unloadable public key, the construction raises the
      ValueError that names the public key file, whatever the private file holds. */
  lemma PublicKeyLoadedFirst(fs: FileSystem, lib: Primitives, publicArg: KeyPathArg, privateArg: KeyPathArg)
    requires Supplied(publicArg) && Supplied(privateArg)
    requires PathOf(publicArg) in fs && fs[PathOf(publicArg)].RegularFile?
    requires PathOf(privateArg) in fs && fs[PathOf(privateArg)].RegularFile?
    requires LoadPublicKeyFrom(fs, lib, PathOf(publicArg)).Err?
    ensures Construct(fs, lib, publicArg, privateArg) == Err(LoadPublicKeyFrom(fs, lib, PathOf(publicArg)).error)
    ensures Construct(fs, lib, publicArg, privateArg).error.cls == ValueError
  {
    ConstructAfterChecks(fs, lib, publicArg, privateArg);
  }

  /** A missing private key file, with the public path absent or a regular
      file, raises FileNotFoundError "Private key file not found: <path>". */
  lemma MissingPrivateKeyFile(fs: FileSystem, lib: Primitives, publicArg: KeyPathArg, privateArg: KeyPathArg)
    requires !publicArg.OtherType?
    requires Supplied(publicArg) ==> PathOf(publicArg) in fs && fs[PathOf(publicArg)].RegularFile?
    requires Supplied(privateArg) && PathOf(privateArg) !in fs
    ensures Construct(fs, lib, publicArg, privateArg)
            == Err(Error(FileNotFoundError, "Private key file not found: " + PathOf(privateArg).text))
  {
  }

  /** The private key is loaded after the public key: with both paths valid,
      a loadable public key (or none) and an unloadable private key, the
      construction raises the ValueError that names the private key file. */
  lemma PrivateKeyLoadedSecond(fs: FileSystem, lib: Primitives, publicArg: KeyPathArg, privateArg: KeyPathArg)
    requires !publicArg.OtherType? && Supplied(privateArg)
    requires Supplied(publicArg) ==> PathOf(publicArg) in fs && fs[PathOf(publicArg)].RegularFile?
                                     && LoadPublicKeyFrom(fs, lib, PathOf(publicArg)).Ok?
    requires PathOf(privateArg) in fs && fs[PathOf(privateArg)].RegularFile?
    requires LoadPrivateKeyFrom(fs, lib, PathOf(privateArg)).Err?
    ensures Construct(fs, lib, publicArg, privateArg) == Err(LoadPrivateKeyFrom(fs, lib, PathOf(privateArg)).error)
    ensures Construct(fs, lib, publicArg, privateArg).error.cls == ValueError
  {
    ConstructAfterChecks(fs, lib, publicArg, privateArg);
  }

  /** Two supplied paths naming regular files whose keys load give an
      instance holding both paths and both loaded keys. */
  lemma KeyFilesConstruct(fs: FileSystem, lib: Primitives, publicArg: KeyPathArg, privateArg: KeyPathArg)
    requires Supplied(publicArg) && Supplied(privateArg)
    requires PathOf(publicArg) in fs && fs[PathOf(publicArg)].RegularFile?
    requires PathOf(privateArg) in fs && fs[PathOf(privateArg)].RegularFile?
    requires LoadPublicKeyFrom(fs, lib, PathOf(publicArg)).Ok? && LoadPrivateKeyFrom(fs, lib, PathOf(privateArg)).Ok?
    ensures Construct(fs, lib, publicArg, privateArg)
            == Ok(KeyState(Some(PathOf(publicArg)), Some(PathOf(privateArg)),
                           Some(LoadPublicKeyFrom(fs, lib, PathOf(publicArg)).value),
                           Some(LoadPrivateKeyFrom(fs, lib, PathOf(privateArg)).value)))
  {
    ConstructAfterChecks(fs, lib, publicArg, privateArg);
  }

  /** Once both arguments pass their checks, construction is the loading of the keys. */
  lemma ConstructAfterChecks(fs: FileSystem, lib: Primitives, publicArg: KeyPathArg, privateArg: KeyPathArg)
    requires CheckArguments(fs, publicArg, privateArg).Ok?
    ensures var paths := CheckArguments(fs, publicArg, privateArg).value;
            Construct(fs, lib, publicArg, privateArg) == LoadKeys(fs, lib, paths.0, paths.1)
  {
  }

  /** Keys loaded from a matching pair of key files decrypt what they encrypt:
      save, construct from the saved files, encrypt, decrypt. */
  lemma ConstructedPairRoundTrip(fs: FileSystem, lib: Primitives, publicArg: KeyPathArg, privateArg: KeyPathArg, message: string)
    requires lib.Lawful()
    requires Construct(fs, lib, publicArg, privateArg).Ok?
    requires Supplied(publicArg) && Supplied(privateArg)
    requires lib.KeyPair(Construct(fs, lib, publicArg, privateArg).value.publicKey.value,
                         Construct(fs, lib, publicArg, privateArg).value.privateKey.value)
    requires EncryptWith(lib, Construct(fs, lib, publicArg, privateArg).value.publicKey, message).Ok?
    ensures var st := Construct(fs, lib, publicArg, privateArg).value;
            DecryptWith(lib, st.privateKey, EncryptWith(lib, st.publicKey, message).value) == Ok(message)
  {
    var st := Construct(fs, lib, publicArg, privateArg).value;
    RoundTrip(lib, st.publicKey.value, st.privateKey.value, message);
  }

  const NoPrivateKeyPathAttribute := Error(AttributeError, "'AsymmetricEncryption' object has no attribute 'private_key_path'")

  /** The constructor exactly as written: after the type checks and the public
      path's validation, line 41 reads `self.private_key_path`, which the
      instance does not have until line 46, so the constructor raises
      AttributeError there whatever its arguments. */
  function ConstructAsWritten(fs: FileSystem, lib: Primitives, publicArg: KeyPathArg, privateArg: KeyPathArg): (r: Result<KeyState>)
    ensures r.Err?
    ensures !publicArg.OtherType? && !privateArg.OtherType?
            && (Supplied(publicArg) ==> PathOf(publicArg) in fs && fs[PathOf(publicArg)].RegularFile?)
            ==> r == Err(NoPrivateKeyPathAttribute)
  {
    var publicPath :- ResolveArgument(publicArg, PublicRole);
    var privatePath :- ResolveArgument(privateArg, PrivateRole);
    var publicCheck := ValidateFor(fs, publicPath, PublicRole);
    if publicCheck.Fail? then Err(publicCheck.error)
    else Err(NoPrivateKeyPathAttribute)
  }

  /** The discrepancy on the smallest input: `AsymmetricEncryption()` raises
      as written, while the intended constructor gives an empty instance. */
  lemma AsWrittenRefusesNoArguments(fs: FileSystem, lib: Primitives)
    ensures ConstructAsWritten(fs, lib, NoPath, NoPath) == Err(NoPrivateKeyPathAttribute)
    ensures Construct(fs, lib, NoPath, NoPath) == Ok(KeyState(None, None, None, None))
  {
  }

  class AsymmetricEncryption {
    var publicKeyPath: Option<Path>
    var privateKeyPath: Option<Path>
    var publicKey: Option<RsaPublicKey>
    var privateKey: Option<RsaPrivateKey>

    function State(): KeyState
      reads this
    {
      KeyState(publicKeyPath, privateKeyPath, publicKey, privateKey)
    }

    /** Lines 45-49: the validated paths are stored and both keys start out as None. */
    constructor (publicKeyPath: Option<Path>, privateKeyPath: Option<Path>)
      ensures State() == KeyState(publicKeyPath, privateKeyPath, None, None)
    {
      this.publicKeyPath := publicKeyPath;
      this.privateKeyPath := privateKeyPath;
      this.publicKey := None;
      this.privateKey := None;
    }

    /** `_load_public_key` as a method of its own: on success the public key
        is set; on failure the instance is left as it was and the wrapped
        error is returned. Create does not call it: it loads both keys
        through LoadSuppliedKeys, which assigns them together. */
    method LoadPublicKey(fs: FileSystem, lib: Primitives) returns (outcome: Outcome)
      requires publicKeyPath.Some?
      modifies this`publicKey
      ensures match LoadPublicKeyFrom(fs, lib, publicKeyPath.value)
              case Ok(k) => outcome == Pass && publicKey == Some(k)
              case Err(e) => outcome == Fail(e) && publicKey == old(publicKey)
    {
      var loaded := LoadPublicKeyFrom(fs, lib, publicKeyPath.value);
      if loaded.Ok? {
        publicKey := Some(loaded.value);
        outcome := Pass;
      } else {
        outcome := Fail(loaded.error);
      }
    }

    /** `_load_private_key` as a method of its own, the same for the private
        key; like LoadPublicKey it stands alone. */
    method LoadPrivateKey(fs: FileSystem, lib: Primitives) returns (outcome: Outcome)
      requires privateKeyPath.Some?
      modifies this`privateKey
      ensures match LoadPrivateKeyFrom(fs, lib, privateKeyPath.value)
              case Ok(k) => outcome == Pass && privateKey == Some(k)
              case Err(e) => outcome == Fail(e) && privateKey == old(privateKey)
    {
      var loaded := LoadPrivateKeyFrom(fs, lib, privateKeyPath.value);
      if loaded.Ok? {
        privateKey := Some(loaded.value);
        outcome := Pass;
      } else {
        outcome := Fail(loaded.error);
      }
    }

    /** Lines 52-55: the public key is loaded when there is a public path,
        then the private key when there is a private path; the first failure
        stops the loading. On success the instance holds what LoadKeys
        describes; on failure nothing is assigned. */
    method LoadSuppliedKeys(fs: FileSystem, lib: Primitives) returns (outcome: Outcome)
      modifies this`publicKey, this`privateKey
      ensures outcome.Pass? ==> LoadKeys(fs, lib, publicKeyPath, privateKeyPath) == Ok(State())
      ensures outcome.Fail? ==> LoadKeys(fs, lib, publicKeyPath, privateKeyPath) == Err(outcome.error)
      ensures outcome.Fail? ==> publicKey == old(publicKey) && privateKey == old(privateKey)
    {
      var keys := LoadKeys(fs, lib, publicKeyPath, privateKeyPath);
      if keys.Err? {
        return Fail(keys.error);
      }
      publicKey, privateKey := keys.value.publicKey, keys.value.privateKey;
      outcome := Pass;
    }

    /** `AsymmetricEncryption(publicArg, privateArg)`: a new instance in the
        state Construct describes, or the exception Construct describes and
        no instance. */
    static method Create(fs: FileSystem, lib: Primitives, publicArg: KeyPathArg, privateArg: KeyPathArg)
      returns (r: Result<AsymmetricEncryption>)
      ensures r.Err? ==> Construct(fs, lib, publicArg, privateArg) == Err(r.error)
      ensures r.Ok? ==> fresh(r.value) && Construct(fs, lib, publicArg, privateArg) == Ok(r.value.State())
    {
      // Line 41 reads `self.private_key_path`, not yet assigned at that point;
      // CheckArguments makes the check meant, on the argument.
      var paths := CheckArguments(fs, publicArg, privateArg);
      if paths.Err? {
        return Err(paths.error);
      }
      ConstructAfterChecks(fs, lib, publicArg, privateArg);
      var enc := new AsymmetricEncryption(paths.value.0, paths.value.1);
      var loaded := enc.LoadSuppliedKeys(fs, lib);
      if loaded.Fail? {
        return Err(loaded.error);
      }
      r := Ok(enc);
    }

    /** `encrypt`; it reads the instance and changes none of its fields. */
    method Encrypt(lib: Primitives, message: string) returns (r: Result<string>)
      ensures r == EncryptWith(lib, publicKey, message)
      ensures publicKey.None? ==> r == Err(PublicKeyNotLoaded)
    {
      if publicKey.None? {
        return Err(PublicKeyNotLoaded);
      }
      var ciphertext := lib.rsaEncrypt(publicKey.value, lib.encodeUtf8(message), OaepSha256);
      if ciphertext.Err? {
        return Err(ciphertext.error);
      }
      r := Ok(lib.b64Encode(ciphertext.value));
    }

    /** `decrypt`; it reads the instance and changes none of its fields. */
    method Decrypt(lib: Primitives, ciphertext: string) returns (r: Result<string>)
      ensures r == DecryptWith(lib, privateKey, ciphertext)
      ensures privateKey.None? ==> r == Err(PrivateKeyNotLoaded)
    {
      if privateKey.None? {
        return Err(PrivateKeyNotLoaded);
      }
      var raw := lib.b64Decode(ciphertext);
      if raw.Err? {
        return Err(raw.error);
      }
      var plain := lib.rsaDecrypt(privateKey.value, raw.value, OaepSha256);
      if plain.Err? {
        return Err(plain.error);
      }
      r := lib.decodeUtf8(plain.value);
    }
  }
}
