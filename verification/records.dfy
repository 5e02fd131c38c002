/**
 * The `.gcinfo` metadata record of a certificate (its `[cert]` section, as
 * options), the errors the store raises, and the view `get_certs` returns.
 */
module Records {
  import opened Wrappers
  import opened Text
  import opened Crypto

  /** The options of a record's `[cert]` section. */
  type Section = map<string, string>

  /** The exceptions the modelled code raises, by Python class. */
  datatype Error =
    | NoSection(section: string)             // ConfigParser.NoSectionError
    | NoOption(option: string)               // ConfigParser.NoOptionError
    | ClockOutOfRange(offset: int)           // SystemTimeError(st), raised inside the clock check
    | ClockUnavailable                       // the offset could not be measured
    | SystemTimeError(detail: string)        // what the clock check finally raises
    | ReadError(message: string)             // Exception(message, e) from add_ext_cert
    | GenerationError(message: string)       // Exception(message) from gencert
    | IOError(path: string)                  // open() of a missing file
    | OSError(path: string)                  // os.unlink() of a missing file
    | ValueError(message: string)            // list.remove() of an absent entry
    | AttributeError                         // .group() on a failed re.match
    | IndexError                             // [0] on an empty filter result

  datatype Outcome = Ok | Err(error: Error)

  const CertReadMessage: string := "Could not read certificate file. Please make sure you've selected the proper file."
  const KeyReadMessage: string := "Could not read private keyfile. Please make sure you've selected the proper file."
  const GenerationPrefix: string := "Error generating self-signed certificate: "
  const RemoveMessage: string := "list.remove(x): x not in list"

  /** `assign` as `get_certs` reports it: the split label list, or the string 'Unknown'. */
  datatype AssignField = AssignList(items: seq<string>) | UnknownAssign

  /** One entry of `get_certs`. */
  datatype CertSummary = CertSummary(
    name: string,
    expiry: string,
    domain: string,
    keytype: string,
    keylength: string,
    assign: AssignField)

  /** `cfg.get('cert', key) if cfg.has_option('cert', key) else 'Unknown'`. */
  function OptionOr(sec: Section, key: string): string
  {
    if key in sec then sec[key] else "Unknown"
  }

  /** The summary of one record; `name` has no default, so a record without it makes `get_certs` raise. */
  function Summarize(sec: Section): (r: CertSummary)
    requires "name" in sec
    ensures r.name == sec["name"]
    ensures "expiry" in sec ==> r.expiry == sec["expiry"]
    ensures "expiry" !in sec ==> r.expiry == "Unknown"
    ensures "domain" in sec ==> r.domain == sec["domain"]
    ensures "domain" !in sec ==> r.domain == "Unknown"
    ensures "keytype" in sec ==> r.keytype == sec["keytype"]
    ensures "keytype" !in sec ==> r.keytype == "Unknown"
    ensures "keylength" in sec ==> r.keylength == sec["keylength"]
    ensures "keylength" !in sec ==> r.keylength == "Unknown"
    ensures r.assign.UnknownAssign? <==> "assign" !in sec
    ensures r.assign.AssignList? ==>
      |r.assign.items| >= 1 &&
      (forall i :: 0 <= i < |r.assign.items| ==> '\n' !in r.assign.items[i]) &&
      Join(r.assign.items, '\n') == sec["assign"]
  {
    var assign :=
      if "assign" in sec then
        JoinSplit(sec["assign"], '\n');
        AssignList(Split(sec["assign"], '\n'))
      else UnknownAssign;
    CertSummary(sec["name"], OptionOr(sec, "expiry"), OptionOr(sec, "domain"),
                OptionOr(sec, "keytype"), OptionOr(sec, "keylength"), assign)
  }

  /** The record `gencert` and `add_ext_cert` write for a certificate and its key. */
  function NewRecord(name: string, crt: X509, key: Key, assign: string): Section
  {
    map["name" := name,
        "expiry" := TimeText(crt.notAfter),
        "domain" := CnText(crt.subject),
        "keytype" := KeyTypeName(key.ktype),
        "keylength" := Decimal(key.bits),
        "assign" := assign]
  }

  /**
   * A record written for a certificate reads back through `get_certs` with its
   * name, the certificate's notAfter and CN, the key's type and size, and the
   * stored assignment labels.
   */
  lemma {:induction false} RecordReadBack(name: string, crt: X509, key: Key, assign: string)
    ensures var r := Summarize(NewRecord(name, crt, key, assign));
      && r.name == name
      && ParseDecimal(r.expiry) == crt.notAfter
      && r.domain == CnText(crt.subject)
      && r.keytype == KeyTypeName(key.ktype)
      && ParseDecimal(r.keylength) == key.bits
      && r.assign == AssignList(Split(assign, '\n'))
  {
    DecimalRoundTrip(crt.notAfter);
    DecimalRoundTrip(key.bits);
  }
}
