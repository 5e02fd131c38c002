/**
 * Keys and X.509 certificates as opaque values. Key generation, signing and
 * PEM encoding belong to OpenSSL; the model keeps only the attributes the store
 * reads or writes: key type and size, subject, issuer, validity window, the
 * key a certificate carries and the key it was signed with.
 */
module Crypto {
  import opened Wrappers
  import opened Text

  datatype KeyType = RSA | DSA | OtherKeyType(code: int)

  /** A key pair; `id` stands for the key material, so two generated keys differ by `id`. */
  datatype Key = Key(ktype: KeyType, bits: nat, id: nat)

  /** The subject or issuer name: each attribute is either set or absent. */
  datatype Name = Name(c: Option<string>, st: Option<string>, l: Option<string>, cn: Option<string>, email: Option<string>)

  /** An X.509 extension: its name, whether it is critical, and its value text. */
  datatype Extension = Extension(name: string, critical: bool, value: string)

  datatype X509 = X509(
    version: int,
    serial: int,
    subject: Name,
    issuer: Name,
    notBefore: nat,
    notAfter: nat,
    pubkey: Key,
    signer: Key,
    digest: string,
    extensions: seq<Extension>)

  /** File contents: text as uploaded, or the PEM dump of a certificate or key. */
  datatype Pem = PemText(text: string) | CertPem(cert: X509) | KeyPem(key: Key)

  /** `gmtime_adj_notAfter` offsets: two years for a leaf, five for a CA (365-day years). */
  const LeafValidity: nat := 2 * 365 * 24 * 60 * 60
  const CaValidity: nat := 5 * 365 * 24 * 60 * 60

  /** The `keytype` written to a record: 'RSA', 'DSA', or 'Unknown' for any other type. */
  function KeyTypeName(t: KeyType): (r: string)
    ensures r == "RSA" <==> t == RSA
    ensures r == "DSA" <==> t == DSA
    ensures r == "Unknown" <==> !(t == RSA || t == DSA)
  {
    match t
    case RSA => "RSA"
    case DSA => "DSA"
    case OtherKeyType(_) => "Unknown"
  }

  /** `str(subject.CN)` as the record writer stores it: the CN, or 'None' when it is unset. */
  function CnText(n: Name): (r: string)
    ensures n.cn.Some? ==> r == n.cn.value
    ensures n.cn.None? ==> r == "None"
  {
    match n.cn
    case Some(cn) => cn
    case None => "None"
  }

  /** The text `get_notAfter()` gives for a time, rendered here as decimal seconds. */
  function TimeText(t: nat): (r: string)
    ensures |r| >= 1 && forall i :: 0 <= i < |r| ==> IsDigit(r[i])
  {
    Decimal(t)
  }
}
