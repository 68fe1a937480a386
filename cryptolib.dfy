/** The foreign primitives the asymmetric cipher calls: PEM key loading, RSA
    with a padding scheme, UTF-8 and base64 (section 4 of RFC 4648). None of
    them is implemented here; a `Primitives` value stands for one library, and
    the only facts known about it are the inverse laws stated by `Lawful`
    and `KeyPair`, which a caller has to supply as preconditions. */
module CryptoLib {
  import opened PyBase

  type Byte = b: int | 0 <= b < 256
  type Bytes = seq<Byte>

  /** RSA key material, never inspected by the modelled code. */
  datatype RsaPublicKey = RsaPublicKey(modulus: nat, publicExponent: nat)
  datatype RsaPrivateKey = RsaPrivateKey(modulus: nat, privateExponent: nat)

  datatype HashAlgorithm = Sha256
  datatype MaskGeneration = Mgf1(algorithm: HashAlgorithm)
  datatype Padding = Oaep(mgf: MaskGeneration, algorithm: HashAlgorithm, oaepLabel: Option<Bytes>)

  /** OAEP with SHA-256 as hash and as the MGF1 hash, and no label: the
      parameters both encrypt and decrypt pass to the library. */
  const OaepSha256: Padding := Oaep(Mgf1(Sha256), Sha256, None)

  /** The library calls, each as its outcome: a value, or the exception it raises. */
  datatype Primitives = Primitives(
    loadPemPublicKey: string -> Result<RsaPublicKey>,
    loadPemPrivateKey: string -> Result<RsaPrivateKey>,
    encodeUtf8: string -> Bytes,
    decodeUtf8: Bytes -> Result<string>,
    rsaEncrypt: (RsaPublicKey, Bytes, Padding) -> Result<Bytes>,
    rsaDecrypt: (RsaPrivateKey, Bytes, Padding) -> Result<Bytes>,
    b64Encode: Bytes -> string,
    b64Decode: string -> Result<Bytes>)
  {
    /** UTF-8 decoding undoes UTF-8 encoding, and base64 decoding undoes
        base64 encoding. */
    ghost predicate Lawful() {
      && (forall s :: decodeUtf8(encodeUtf8(s)) == Ok(s))
      && (forall b :: b64Decode(b64Encode(b)) == Ok(b))
    }

    /** `priv` is the private half of `pub`: whatever OAEP-SHA-256 encryption
        under `pub` produces, decryption under `priv` turns back. */
    ghost predicate KeyPair(pub: RsaPublicKey, priv: RsaPrivateKey) {
      forall m, c :: rsaEncrypt(pub, m, OaepSha256) == Ok(c) ==> rsaDecrypt(priv, c, OaepSha256) == Ok(m)
    }
  }
}
