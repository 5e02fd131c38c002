/**
 * The certificate store (`CertControl`): certificate, key and metadata files
 * keyed by certificate name, the CA files keyed by host name, and the
 * consumers a certificate can be assigned to.
 */
module Certificates {
  import opened Wrappers
  import opened Text
  import opened Paths
  import opened Labels
  import opened Crypto
  import opened Records
  import opened Assignment

  /** The plugin configuration `gencert` reads: key type name and key length. */
  datatype KeyConfig = KeyConfig(keytype: string, keylength: nat)

  /**
   * What `gencert` obtains from outside: the clock offset (`None` when it cannot
   * be measured), the current time, the serial numbers handed out for the CA and
   * the leaf, the key material OpenSSL generates, and the leaf key generation
   * error, if any.
   */
  datatype Env = Env(
    offset: Option<int>,
    now: nat,
    caSerial: int,
    leafSerial: int,
    caKeyId: nat,
    leafKeyId: nat,
    keyGenError: Option<string>)

  /** `get_cas` entry. */
  datatype CaSummary = CaSummary(name: string, expiry: string)

  /** The body of the clock check's `try`: it fails when no offset is available or it is out of range. */
  function ClockProbe(offset: Option<int>): (r: Outcome)
    ensures r == Ok <==> offset.Some? && -3600 <= offset.value <= 3600
    ensures offset.None? ==> r == Err(ClockUnavailable)
  {
    match offset
    case None => Err(ClockUnavailable)
    case Some(st) => if st < -3600 || st > 3600 then Err(ClockOutOfRange(st)) else Ok
  }

  /**
   * The clock check: the bare `except` re-wraps every failure of the probe,
   * its own range error included, as `SystemTimeError('UNKNOWN')`.
   */
  function CheckClock(offset: Option<int>): (r: Outcome)
    ensures r == Ok <==> offset.Some? && -3600 <= offset.value <= 3600
    ensures r != Ok ==> r == Err(SystemTimeError("UNKNOWN"))
  {
    if ClockProbe(offset).Err? then Err(SystemTimeError("UNKNOWN")) else Ok
  }

  /** `vars.getvalue(field, '')`. */
  function FormValue(form: map<string, string>, field: string): string
  {
    if field in form then form[field] else ""
  }

  /** The leaf subject: each attribute is set from its form field iff that field is non-empty. */
  function LeafSubject(form: map<string, string>): (n: Name)
    ensures n.c.Some? <==> FormValue(form, "certcountry") != ""
    ensures n.st.Some? <==> FormValue(form, "certsp") != ""
    ensures n.l.Some? <==> FormValue(form, "certlocale") != ""
    ensures n.cn.Some? <==> FormValue(form, "certcn") != ""
    ensures n.email.Some? <==> FormValue(form, "certemail") != ""
    ensures n.c.Some? ==> n.c.value == form["certcountry"]
    ensures n.st.Some? ==> n.st.value == form["certsp"]
    ensures n.l.Some? ==> n.l.value == form["certlocale"]
    ensures n.cn.Some? ==> n.cn.value == form["certcn"]
    ensures n.email.Some? ==> n.email.value == form["certemail"]
  {
    var n := Name(None, None, None, None, None);
    var n := if FormValue(form, "certcountry") != "" then n.(c := Some(form["certcountry"])) else n;
    var n := if FormValue(form, "certsp") != "" then n.(st := Some(form["certsp"])) else n;
    var n := if FormValue(form, "certlocale") != "" then n.(l := Some(form["certlocale"])) else n;
    var n := if FormValue(form, "certcn") != "" then n.(cn := Some(form["certcn"])) else n;
    if FormValue(form, "certemail") != "" then n.(email := Some(form["certemail"])) else n
  }

  /** The leaf key type: DSA when configured as 'DSA', RSA otherwise; so its record never says 'Unknown'. */
  function LeafKeyType(keytype: string): (t: KeyType)
    ensures KeyTypeName(t) == (if keytype == "DSA" then "DSA" else "RSA")
  {
    if keytype == "DSA" then DSA else RSA
  }

  /** The CA key: 2048-bit RSA. */
  function CaKey(id: nat): Key { Key(RSA, 2048, id) }

  const CaExtensions: seq<Extension> := [
    Extension("basicConstraints", true, "CA:TRUE, pathlen:0"),
    Extension("keyUsage", true, "keyCertSign, cRLSign"),
    Extension("subjectKeyIdentifier", false, "hash")]

  /** The CA certificate for `host`: self-issued and self-signed, valid five years. */
  function NewAuthority(host: string, now: nat, serial: int, key: Key): (ca: X509)
    ensures ca.subject.cn == Some(host)
    ensures ca.issuer == ca.subject
    ensures ca.signer == ca.pubkey == key
    ensures ca.notBefore == now && ca.notAfter == now + 157680000
  {
    var subject := Name(None, None, None, Some(host), None);
    X509(3, serial, subject, subject, now, now + CaValidity, key, key, "sha1", CaExtensions)
  }

  /**
   * The leaf certificate: issuer name taken from the CA, valid two years, and
   * signed with its own fresh key rather than the CA key.
   */
  function NewLeaf(form: map<string, string>, caSubject: Name, key: Key, serial: int, now: nat): (crt: X509)
    ensures crt.subject == LeafSubject(form)
    ensures crt.issuer == caSubject
    ensures crt.signer == crt.pubkey == key
    ensures crt.notBefore == now && crt.notAfter == now + 63072000
  {
    X509(3, serial, LeafSubject(form), caSubject, now, now + LeafValidity, key, key, "sha1", [])
  }

  /**
   * The `.crt` text `add_ext_cert` writes: the certificate, then, when a chain
   * is given, a newline only if the certificate lacks a trailing one, then the chain.
   */
  function CrtFileText(cert: string, chain: string): (r: string)
    ensures |r| >= |cert| && r[..|cert|] == cert
    ensures chain == "" ==> r == cert
    ensures chain != "" ==>
      && |r| == |cert| + |chain| + (if EndsWithNewline(cert) then 0 else 1)
      && r[|r| - |chain|..] == chain
      && r[|r| - |chain| - 1] == '\n'
  {
    if chain == "" then cert
    else if EndsWithNewline(cert) then cert + chain
    else cert + "\n" + chain
  }

  /**
   * The record `gencert` writes reads back with an expiry two years after
   * issuance, the CN (or 'None') as domain, 'RSA' or 'DSA' as key type, the
   * configured key length, and an assignment list holding one empty entry.
   */
  lemma IssuedRecordReadBack(name: string, form: map<string, string>, caSubject: Name, config: KeyConfig, env: Env)
    ensures
      var key := Key(LeafKeyType(config.keytype), config.keylength, env.leafKeyId);
      var crt := NewLeaf(form, caSubject, key, env.leafSerial, env.now);
      var r := Summarize(NewRecord(name, crt, key, ""));
      && r.name == name
      && ParseDecimal(r.expiry) == env.now + LeafValidity
      && r.domain == (if FormValue(form, "certcn") != "" then form["certcn"] else "None")
      && (r.keytype == "RSA" || r.keytype == "DSA")
      && ParseDecimal(r.keylength) == config.keylength
      && r.assign == AssignList([""])
  {
    var key := Key(LeafKeyType(config.keytype), config.keylength, env.leafKeyId);
    var crt := NewLeaf(form, caSubject, key, env.leafSerial, env.now);
    RecordReadBack(name, crt, key, "");
  }

  class CertControl {
    /** `<name>.crt` under the certificate directory. */
    var crts: map<string, Pem>
    /** `<name>.key` under the private key directory. */
    var keys: map<string, Pem>
    /** `<name>.gcinfo`: the `[cert]` section of each metadata record. */
    var records: map<string, Section>
    /** `ca/<host>.pem`. */
    var caCerts: map<string, X509>
    /** `ca/<host>.key`. */
    var caKeys: map<string, Key>
    /** The `genesis` section of the service configuration, in memory and as last saved. */
    var gconfig: map<string, string>
    var gconfigSaved: map<string, string>
    /** Web applications serving TLS, with the certificate and key paths they were given. */
    var webappCerts: map<SiteRef, CertPaths>
    /** Plugins with SSL enabled, by their `text`. */
    var sslPlugins: set<string>

    ghost function Consumers(): Consumers
      reads this
    {
      Assignment.Consumers(gconfig, gconfigSaved, webappCerts, sslPlugins)
    }

    constructor (config: map<string, string>)
      ensures crts == map[] && keys == map[] && records == map[]
      ensures caCerts == map[] && caKeys == map[]
      ensures gconfig == config && gconfigSaved == config
      ensures webappCerts == map[] && sslPlugins == {}
    {
      crts, keys, records := map[], map[], map[];
      caCerts, caKeys := map[], map[];
      gconfig, gconfigSaved := config, config;
      webappCerts, sslPlugins := map[], {};
    }

    /** `get_certs`: one summary per listed record, in listing order; a record without `name` raises. */
    method GetCerts(listing: seq<string>) returns (r: Result<seq<CertSummary>, Error>)
      requires IsListing(listing, records.Keys, ".gcinfo")
      ensures r.Success? <==> forall i :: 0 <= i < |listing| ==> "name" in records[listing[i]]
      ensures r.Success? ==> (|r.value| == |listing| &&
        forall i :: 0 <= i < |listing| ==> r.value[i] == Summarize(records[listing[i]]))
      ensures r.Failure? ==> r.error == NoOption("name")
    {
      var certs: seq<CertSummary> := [];
      var i := 0;
      while i < |listing|
        invariant 0 <= i <= |listing|
        invariant |certs| == i
        invariant forall j :: 0 <= j < i ==> "name" in records[listing[j]] && certs[j] == Summarize(records[listing[j]])
      {
        var cfg := records[listing[i]];
        if "name" !in cfg {
          return Failure(NoOption("name"));
        }
        certs := certs + [Summarize(cfg)];
        i := i + 1;
      }
      r := Success(certs);
    }

    /**
     * `get_cas`: one entry per listed CA certificate, named by the file's stem,
     * with its notAfter; loading the matching CA key fails at the first CA
     * whose key is missing.
     */
    method GetCas(listing: seq<string>) returns (r: Result<seq<CaSummary>, Error>)
      requires IsListing(listing, caCerts.Keys, ".pem")
      ensures r.Success? <==> forall i :: 0 <= i < |listing| ==> listing[i] in caKeys
      ensures r.Success? ==> (|r.value| == |listing| &&
        forall i :: 0 <= i < |listing| ==>
          r.value[i] == CaSummary(listing[i], TimeText(caCerts[listing[i]].notAfter)))
      ensures r.Failure? ==>
        exists i :: 0 <= i < |listing| && listing[i] !in caKeys && r.error == IOError(CaKeyPath(listing[i])) &&
                    forall j :: 0 <= j < i ==> listing[j] in caKeys
    {
      var cas: seq<CaSummary> := [];
      var i := 0;
      while i < |listing|
        invariant 0 <= i <= |listing|
        invariant |cas| == i
        invariant forall j :: 0 <= j < i ==>
          listing[j] in caKeys && cas[j] == CaSummary(listing[j], TimeText(caCerts[listing[j]].notAfter))
      {
        var file := listing[i] + ".pem";
        var name := Stem(file);
        StemOfFile(listing[i], ".pem");
        var cert := caCerts[name];
        if name !in caKeys {
          return Failure(IOError(CaKeyPath(name)));
        }
        cas := cas + [CaSummary(name, TimeText(cert.notAfter))];
        i := i + 1;
      }
      r := Success(cas);
    }

    /**
     * `add_ext_cert`: parse the certificate, then the key (each failure raises
     * its own message before anything is written); then write the `.crt`
     * (certificate plus chain), the `.key` and the record.
     */
    method AddExtCert(name: string, cert: string, key: string, chain: string, assign: seq<string>,
                      parsedCert: Option<X509>, parsedKey: Option<Key>) returns (r: Outcome)
      modifies this`crts, this`keys, this`records
      ensures parsedCert.None? ==> r == Err(ReadError(CertReadMessage)) && unchanged(this)
      ensures parsedCert.Some? && parsedKey.None? ==> r == Err(ReadError(KeyReadMessage)) && unchanged(this)
      ensures parsedCert.Some? && parsedKey.Some? ==>
        && r == Ok
        && crts == old(crts)[name := PemText(CrtFileText(cert, chain))]
        && keys == old(keys)[name := PemText(key)]
        && records == old(records)[name := NewRecord(name, parsedCert.value, parsedKey.value, Join(assign, '\n'))]
    {
      if parsedCert.None? {
        return Err(ReadError(CertReadMessage));
      }
      var crt := parsedCert.value;
      if parsedKey.None? {
        return Err(ReadError(KeyReadMessage));
      }
      var ky := parsedKey.value;
      var text := cert;
      if chain != "" {
        if !EndsWithNewline(cert) {
          text := text + "\n";
        }
        text := text + chain;
      }
      crts := crts[name := PemText(text)];
      keys := keys[name := PemText(key)];
      records := records[name := NewRecord(name, crt, ky, Join(assign, '\n'))];
      r := Ok;
    }

    /** `create_authority`: writes a fresh self-signed CA certificate and its key for `host`. */
    method CreateAuthority(host: string, now: nat, serial: int, keyId: nat)
      modifies this`caCerts, this`caKeys
      ensures caCerts == old(caCerts)[host := NewAuthority(host, now, serial, CaKey(keyId))]
      ensures caKeys == old(caKeys)[host := CaKey(keyId)]
    {
      var key := CaKey(keyId);
      var ca := NewAuthority(host, now, serial, key);
      caCerts := caCerts[host := ca];
      caKeys := caKeys[host := key];
    }

    /**
     * `gencert`: the clock check; a CA for `host` created only when both of
     * its files are absent; both CA files loaded; the leaf key generated and
     * the leaf built (a failure here is re-raised with a fixed prefix); then
     * the `.crt`, `.key` and a record with an empty assignment list written.
     */
    method GenCert(name: string, form: map<string, string>, host: string, config: KeyConfig, env: Env)
      returns (r: Outcome)
      modifies this`crts, this`keys, this`records, this`caCerts, this`caKeys
      ensures CheckClock(env.offset) != Ok ==> r == CheckClock(env.offset) && unchanged(this)
      ensures CheckClock(env.offset) == Ok ==>
        var created := host !in old(caCerts) && host !in old(caKeys);
        && caCerts == (if created then old(caCerts)[host := NewAuthority(host, env.now, env.caSerial, CaKey(env.caKeyId))] else old(caCerts))
        && caKeys == (if created then old(caKeys)[host := CaKey(env.caKeyId)] else old(caKeys))
      ensures CheckClock(env.offset) == Ok && host !in caCerts ==>
        r == Err(IOError(CaCertPath(host))) && crts == old(crts) && keys == old(keys) && records == old(records)
      ensures CheckClock(env.offset) == Ok && host in caCerts && host !in caKeys ==>
        r == Err(IOError(CaKeyPath(host))) && crts == old(crts) && keys == old(keys) && records == old(records)
      ensures CheckClock(env.offset) == Ok && host in caCerts && host in caKeys && env.keyGenError.Some? ==>
        r == Err(GenerationError(GenerationPrefix + env.keyGenError.value)) &&
        crts == old(crts) && keys == old(keys) && records == old(records)
      ensures CheckClock(env.offset) == Ok && host in caCerts && host in caKeys && env.keyGenError.None? ==>
        var key := Key(LeafKeyType(config.keytype), config.keylength, env.leafKeyId);
        var crt := NewLeaf(form, caCerts[host].subject, key, env.leafSerial, env.now);
        && r == Ok
        && crts == old(crts)[name := CertPem(crt)]
        && keys == old(keys)[name := KeyPem(key)]
        && records == old(records)[name := NewRecord(name, crt, key, "")]
    {
      var clock := CheckClock(env.offset);
      if clock != Ok {
        return clock;
      }
      if host !in caCerts && host !in caKeys {
        CreateAuthority(host, env.now, env.caSerial, env.caKeyId);
      }
      if host !in caCerts {
        return Err(IOError(CaCertPath(host)));
      }
      var caCert := caCerts[host];
      if host !in caKeys {
        return Err(IOError(CaKeyPath(host)));
      }
      var keytype := LeafKeyType(config.keytype);
      if env.keyGenError.Some? {
        return Err(GenerationError(GenerationPrefix + env.keyGenError.value));
      }
      var key := Key(keytype, config.keylength, env.leafKeyId);
      var crt := NewLeaf(form, caCert.subject, key, env.leafSerial, env.now);
      crts := crts[name := CertPem(crt)];
      keys := keys[name := KeyPem(key)];
      records := records[name := NewRecord(name, crt, key, "")];
      r := Ok;
    }

    /** `delete_authority`: unlinks the CA certificate, then its key; a missing file raises at that point. */
    method DeleteAuthority(host: string) returns (r: Outcome)
      modifies this`caCerts, this`caKeys
      ensures host !in old(caCerts) ==> r == Err(OSError(CaCertPath(host))) && unchanged(this)
      ensures host in old(caCerts) ==> caCerts == old(caCerts) - {host}
      ensures host in old(caCerts) && host in old(caKeys) ==> r == Ok && caKeys == old(caKeys) - {host}
      ensures host in old(caCerts) && host !in old(caKeys) ==> r == Err(OSError(CaKeyPath(host))) && caKeys == old(caKeys)
    {
      if host !in caCerts {
        return Err(OSError(CaCertPath(host)));
      }
      caCerts := caCerts - {host};
      if host !in caKeys {
        return Err(OSError(CaKeyPath(host)));
      }
      caKeys := caKeys - {host};
      r := Ok;
    }

    /**
     * `assign`: read the record's labels, drop empty entries with the literal
     * cleanup walk, then for each target activate it and append its label, and
     * write the list back newline-joined.
     */
    method Assign(name: string, ts: seq<Target>) returns (r: Outcome)
      modifies this`records, this`gconfig, this`gconfigSaved, this`webappCerts, this`sslPlugins
      ensures name !in old(records) ==> r == Err(NoSection("cert")) && unchanged(this)
      ensures name in old(records) && "assign" !in old(records)[name] ==> r == Err(NoOption("assign")) && unchanged(this)
      ensures name in old(records) && "assign" in old(records)[name] ==>
        var alist := Cleanup(Split(old(records)[name]["assign"], '\n'));
        && r == Ok
        && records == old(records)[name := old(records)[name]["assign" := Join(alist + LabelsOf(ts), '\n')]]
        && Consumers() == AssignFold(old(Consumers()), alist, ts, name).0
        && webappCerts.Keys == old(webappCerts).Keys + WebappSites(ts)
        && (forall s :: s in WebappSites(ts) ==> webappCerts[s] == PathsOf(name))
        && sslPlugins == old(sslPlugins) + PluginTexts(ts)
        && gconfig == (if Genesis in ts then GenesisOn(old(gconfig), name) else old(gconfig))
    {
      if name !in records {
        return Err(NoSection("cert"));
      }
      var cfg := records[name];
      if "assign" !in cfg {
        return Err(NoOption("assign"));
      }
      var alist := Split(cfg["assign"], '\n');
      alist := DropEmpty(alist);
      ghost var a0 := alist;
      ghost var c0 := Consumers();
      var i := 0;
      while i < |ts|
        invariant 0 <= i <= |ts|
        invariant AssignFold(Consumers(), alist, ts[i..], name) == AssignFold(c0, a0, ts, name)
        invariant records == old(records)
      {
        assert ts[i..][1..] == ts[i + 1..];
        ghost var before, done := Consumers(), alist;
        match ts[i] {
        case Genesis =>
          gconfig := gconfig["cert_file" := CrtPath(name)];
          gconfig := gconfig["cert_key" := KeyPath(name)];
          gconfig := gconfig["ssl" := "1"];
          alist := alist + [GenesisLabel];
          gconfigSaved := gconfig;
        case WebappTarget(s) =>
          webappCerts := webappCerts[s := CertPaths(CrtPath(name), KeyPath(name))];
          alist := alist + [SiteLabel(s)];
        case PluginTarget(p) =>
          sslPlugins := sslPlugins + {p};
          alist := alist + [p];
        case OtherTarget(_) =>
        }
        assert Consumers() == EnableStep(before, ts[i], name) && alist == done + LabelSeq(ts[i]);
        i := i + 1;
      }
      AssignFoldLabels(c0, a0, ts, name);
      AssignFoldWebapps(c0, a0, ts, name);
      AssignFoldPlugins(c0, a0, ts, name);
      AssignFoldGenesis(c0, a0, ts, name);
      records := records[name := cfg["assign" := Join(alist, '\n')]];
      r := Ok;
    }

    /**
     * `unassign`: like `assign`, but each target is deactivated and then its
     * label's first occurrence removed; an absent label raises `ValueError`
     * after that target was deactivated, and the record is not rewritten.
     */
    method Unassign(name: string, ts: seq<Target>) returns (r: Outcome)
      modifies this`records, this`gconfig, this`gconfigSaved, this`webappCerts, this`sslPlugins
      ensures name !in old(records) ==> r == Err(NoSection("cert")) && unchanged(this)
      ensures name in old(records) && "assign" !in old(records)[name] ==> r == Err(NoOption("assign")) && unchanged(this)
      ensures name in old(records) && "assign" in old(records)[name] ==>
        var alist := Cleanup(Split(old(records)[name]["assign"], '\n'));
        var res := UnassignFold(old(Consumers()), alist, ts);
        && Consumers() == res.0
        && res.1 == RemoveAll(alist, LabelsOf(ts))
        && (res.1.Some? <==> multiset(LabelsOf(ts)) <= multiset(alist))
        && (res.1.Some? ==> r == Ok && records == old(records)[name := old(records)[name]["assign" := Join(res.1.value, '\n')]])
        && (res.1.None? ==> r == Err(ValueError(RemoveMessage)) && records == old(records))
    {
      if name !in records {
        return Err(NoSection("cert"));
      }
      if "assign" !in records[name] {
        return Err(NoOption("assign"));
      }
      ghost var alist := Cleanup(Split(records[name]["assign"], '\n'));
      ghost var c0 := Consumers();
      r := UnassignRecord(name, ts);
      UnassignFoldLabels(c0, alist, ts);
      RemoveAllMultiset(alist, LabelsOf(ts));
    }

    /** `unassign` on a record that has an `assign` option. */
    method UnassignRecord(name: string, ts: seq<Target>) returns (r: Outcome)
      requires name in records && "assign" in records[name]
      modifies this`records, this`gconfig, this`gconfigSaved, this`webappCerts, this`sslPlugins
      ensures var alist := Cleanup(Split(old(records)[name]["assign"], '\n'));
        var res := UnassignFold(old(Consumers()), alist, ts);
        && Consumers() == res.0
        && (res.1.Some? ==> r == Ok && records == old(records)[name := old(records)[name]["assign" := Join(res.1.value, '\n')]])
        && (res.1.None? ==> r == Err(ValueError(RemoveMessage)) && records == old(records))
    {
      var cfg := records[name];
      var alist := Split(cfg["assign"], '\n');
      alist := DropEmpty(alist);
      var res := UnassignTargets(alist, ts);
      if res.None? {
        return Err(ValueError(RemoveMessage));
      }
      records := records[name := cfg["assign" := Join(res.value, '\n')]];
      r := Ok;
    }

    /** The target loop of `unassign`; `None` when a `remove` raised. */
    method UnassignTargets(alist0: seq<string>, ts: seq<Target>) returns (res: Option<seq<string>>)
      modifies this`gconfig, this`gconfigSaved, this`webappCerts, this`sslPlugins
      ensures (Consumers(), res) == UnassignFold(old(Consumers()), alist0, ts)
    {
      var alist := alist0;
      ghost var c0 := Consumers();
      var i := 0;
      while i < |ts|
        invariant 0 <= i <= |ts|
        invariant UnassignFold(Consumers(), alist, ts[i..]) == UnassignFold(c0, alist0, ts)
      {
        assert ts[i..][1..] == ts[i + 1..];
        ghost var before := Consumers();
        match ts[i] {
        case Genesis =>
          gconfig := gconfig["cert_file" := ""];
          gconfig := gconfig["cert_key" := ""];
          gconfig := gconfig["ssl" := "0"];
          if GenesisLabel !in alist {
            assert Consumers() == DisableStep(before, Genesis, false);
            return None;
          }
          alist := RemoveFirst(alist, GenesisLabel);
          gconfigSaved := gconfig;
          assert Consumers() == DisableStep(before, Genesis, true);
        case WebappTarget(s) =>
          webappCerts := webappCerts - {s};
          assert Consumers() == DisableStep(before, ts[i], true) == DisableStep(before, ts[i], false);
          if SiteLabel(s) !in alist {
            return None;
          }
          alist := RemoveFirst(alist, SiteLabel(s));
        case PluginTarget(p) =>
          sslPlugins := sslPlugins - {p};
          assert Consumers() == DisableStep(before, ts[i], true) == DisableStep(before, ts[i], false);
          if p !in alist {
            return None;
          }
          alist := RemoveFirst(alist, p);
        case OtherTarget(_) =>
        }
        i := i + 1;
      }
      res := Some(alist);
    }

    /**
     * `remove_notify(name)`: drops the entries equal to `name` from the record
     * named `name` and rewrites it; a missing record or option is swallowed.
     */
    method RemoveNotify(name: string)
      modifies this`records
      ensures name in old(records) && "assign" in old(records)[name] ==>
        records == old(records)[name := old(records)[name]["assign" :=
          Join(Without(Split(old(records)[name]["assign"], '\n'), name), '\n')]]
      ensures !(name in old(records) && "assign" in old(records)[name]) ==> records == old(records)
      ensures name != "" && name in records && "assign" in records[name] ==>
        name !in Split(records[name]["assign"], '\n')
    {
      if name !in records || "assign" !in records[name] {
        return;
      }
      var cfg := records[name];
      var entries := Split(cfg["assign"], '\n');
      var alist: seq<string> := [];
      var j := 0;
      while j < |entries|
        invariant 0 <= j <= |entries|
        invariant alist == Without(entries[..j], name)
        invariant records == old(records)
      {
        WithoutAppend(entries[..j], [entries[j]], name);
        assert entries[..j + 1] == entries[..j] + [entries[j]];
        if entries[j] != name {
          alist := alist + [entries[j]];
        }
        j := j + 1;
      }
      assert entries[..j] == entries;
      if name != "" {
        PurgedLabelAbsent(entries, name);
      }
      records := records[name := cfg["assign" := Join(alist, '\n')]];
    }

    /** The web application loop of `remove`: SSL goes off for every listed site whose label is in `alist`. */
    method DisableSites(wal: seq<SiteRef>, alist: seq<string>)
      modifies this`webappCerts
      ensures webappCerts == old(webappCerts) - (set s | s in wal && SiteLabel(s) in alist)
    {
      var i := 0;
      while i < |wal|
        invariant 0 <= i <= |wal|
        invariant webappCerts == old(webappCerts) - (set s | s in wal[..i] && SiteLabel(s) in alist)
      {
        assert wal[..i + 1] == wal[..i] + [wal[i]];
        if SiteLabel(wal[i]) in alist {
          webappCerts := webappCerts - {wal[i]};
        }
        i := i + 1;
      }
      assert wal[..i] == wal;
    }

    /** The plugin loop of `remove`: SSL goes off for every listed plugin named in `alist`. */
    method DisablePlugins(pal: seq<string>, alist: seq<string>)
      modifies this`sslPlugins
      ensures sslPlugins == old(sslPlugins) - (set p | p in pal && p in alist)
    {
      var k := 0;
      while k < |pal|
        invariant 0 <= k <= |pal|
        invariant sslPlugins == old(sslPlugins) - (set p | p in pal[..k] && p in alist)
      {
        assert pal[..k + 1] == pal[..k] + [pal[k]];
        if pal[k] in alist {
          sslPlugins := sslPlugins - {pal[k]};
        }
        k := k + 1;
      }
      assert pal[..k] == pal;
    }

    /**
     * `remove`: disable every listed SSL-capable web application and plugin
     * whose label is in the record, clear the service settings if 'Genesis SSL'
     * is, then delete the record and, best effort, the `.crt` and `.key`.
     */
    method Remove(name: string, wal: seq<SiteRef>, pal: seq<string>) returns (r: Outcome)
      modifies this`records, this`crts, this`keys, this`gconfig, this`gconfigSaved, this`webappCerts, this`sslPlugins
      ensures name !in old(records) ==> r == Err(NoSection("cert")) && unchanged(this)
      ensures name in old(records) && "assign" !in old(records)[name] ==> r == Err(NoOption("assign")) && unchanged(this)
      ensures name in old(records) && "assign" in old(records)[name] ==>
        var alist := Split(old(records)[name]["assign"], '\n');
        && r == Ok
        && webappCerts == old(webappCerts) - (set s | s in wal && SiteLabel(s) in alist)
        && sslPlugins == old(sslPlugins) - (set p | p in pal && p in alist)
        && gconfig == (if GenesisLabel in alist then GenesisOff(old(gconfig)) else old(gconfig))
        && gconfigSaved == (if GenesisLabel in alist then GenesisOff(old(gconfig)) else old(gconfigSaved))
        && records == old(records) - {name}
        && crts == old(crts) - {name}
        && keys == old(keys) - {name}
    {
      if name !in records {
        return Err(NoSection("cert"));
      }
      var cfg := records[name];
      if "assign" !in cfg {
        return Err(NoOption("assign"));
      }
      var alist := Split(cfg["assign"], '\n');
      DisableSites(wal, alist);
      DisablePlugins(pal, alist);
      if GenesisLabel in alist {
        gconfig := gconfig["cert_file" := ""];
        gconfig := gconfig["cert_key" := ""];
        gconfig := gconfig["ssl" := "0"];
        gconfigSaved := gconfig;
      }
      records := records - {name};
      crts := crts - {name};
      keys := keys - {name};
      r := Ok;
    }
  }
}
