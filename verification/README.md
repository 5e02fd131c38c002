# Genesis certificate store — a Dafny model

This project models the certificate store of the Genesis server-management
service. The store is the `CertControl` plugin. It keeps, per certificate name:

- a `.crt` file;
- a `.key` file;
- a `.gcinfo` metadata record, whose `[cert]` section holds `name`, `expiry`,
  `domain`, `keytype`, `keylength` and a newline-separated `assign` list of
  consumer labels.

It also keeps one self-signed CA per host name (`ca/<host>.pem` and
`ca/<host>.key`).

A certificate can be assigned to three kinds of consumer:

- the service itself, labelled `Genesis SSL`;
- a web application site, labelled `<name> (<type>)`;
- an SSL-capable plugin, labelled by its `text`.

The project also models the part of the web application API that the store
depends on:

- the `Webapp` record;
- how `get_sites` reads each site out of its nginx file (defaults, the type
  comment, the `listen` port and SSL text, address, root and php, `enabled`,
  `dbengine` and `ssl_able`);
- `cert_remove_notify`, which purges a removed site's label from every
  certificate record.

The modules follow the program's structure:

| module | file | content |
|---|---|---|
| `Wrappers` | `wrappers.dfy` | Option and Result |
| `Text` | `text.dfy` | `str.split`, `'\n'.join`, `str(n)`, substring `in`, `endswith` |
| `Paths` | `paths.dfy` | store layout, what a glob listing is, `os.path.splitext` stem |
| `Crypto` | `crypto.dfy` | keys and X.509 certificates as opaque values with the attributes the store reads |
| `Records` | `records.dfy` | the `[cert]` section, the exceptions raised, the `get_certs` summary |
| `Labels` | `labels.dfy` | targets and their labels, `list.remove`, the empty-entry cleanup walk, filtering |
| `Assignment` | `assignment.dfy` | what `assign`/`unassign` do to the consumers, as folds over the targets |
| `Certificates` | `certcontrol.dfy` | class `CertControl`: the store as mutable maps, and its operations as methods |
| `SiteMatch` | `sitematch.dfy` | the two `re.match` patterns of `get_sites` |
| `Webapps` | `webapps.dfy` | `Webapp`, `get_sites`, `cert_remove_notify` |

**How the store is represented.** Each directory is a `map` field of
`CertControl`, keyed by certificate or host name. The consumers are four more
fields:

- the `genesis` section of the service configuration, in memory;
- the same section as last saved;
- the web applications that serve TLS, with their certificate and key paths;
- the plugins with SSL on.

**Inputs from outside.** Everything the code obtains from outside is an
input: the parsed PEM values, the generated key material, the clock offset,
the current time, the serial numbers, a directory listing, a parsed nginx
file, and the plugin information.

**The Python behaviour modelled literally.**

- **Cleanup walk.** `for i in alist: if i == '': alist.remove(i)` mutates the
  list it iterates over. `remove` drops the first empty entry, and the walk
  then steps past the entry that slid into place. Two adjacent empty entries
  therefore leave one behind (`CleanupLeavesAdjacentEmpty`).
- **`unassign` failures.** `unassign` calls `list.remove` with a label that is
  not in the list; this raises `ValueError` after that target was already
  deactivated, and the record is then not rewritten. When the missing label is
  'Genesis SSL', the service settings are changed in memory but not saved; a
  missing site or plugin label leaves the service settings as they were, so a
  `genesis` target earlier in the same call stays saved.
- **Shared parser in `cert_remove_notify`.** One ConfigParser reads every
  `.gcinfo` file in turn, so options of an earlier file stay in the parser.
  A record that gets rewritten inherits options it did not have
  (`NotifyCarriesOptions`).
- **`cert_remove_notify` stopping early.** The first file whose merged parser
  lacks `assign` raises. The bare `except` then ends the whole walk, so later
  files keep the label (`NotifyStopsAtMissingAssign`).
- **Regex non-match.** A site whose first comment or `listen` value does not
  match raises AttributeError from `.group` on `None`. `except IndexError`
  does not catch it, so it propagates out of `get_sites`.
- **Missing plugin or plugin attribute.** A site whose type has no plugin
  raises IndexError (`[0]` on an empty filter). A plugin without `dbengine`
  raises AttributeError.

**Further behaviour of the code.**

- `unassign` of a label that is not in the cleaned list raises `ValueError`.
- When only one of a CA's two files exists, `gencert` does not create the CA
  and fails with `IOError` when it opens the missing file.
- A certificate without a CN is recorded with domain `None`, the text of
  `str(None)`.
- `delete_authority` raises `OSError` when the CA certificate or key file is
  missing. `remove` raises `NoSectionError` when the `.gcinfo` file is missing;
  a missing `.crt` or `.key` file is ignored.
- A failed leaf-key generation raises one `Exception` whose message is a fixed
  prefix followed by the original error text.
- `gencert` and `add_ext_cert` overwrite the files of an existing certificate
  of the same name.
- An empty label (a plugin whose `text` is empty) is appended by `assign` but
  dropped by the cleanup when the record is read again, so a later `unassign`
  of it raises (`AssignThenUnassignEmptyLabel`).

## Model

| member | source | states |
|---|---|---|
| `Text.Split` | genesis/plugins/certificates/backend.py:219 | `str.split('\n')` yields at least one part and no part contains the separator |
| `Text.Join` | genesis/plugins/certificates/backend.py:240 | `'\n'.join`; `JoinSplit` and `SplitJoin` state its relation to `split` |
| `Text.JoinSplit` | genesis/plugins/certificates/backend.py:240 | joining the split list gives back the original `assign` text |
| `Text.SplitNoSep` | genesis/plugins/certificates/backend.py:219 | a text without a newline splits into itself alone |
| `Text.SplitJoin` | genesis/plugins/certificates/backend.py:263 | splitting a newline-joined list (non-empty, no part holding a newline) gives the list back |
| `Text.Decimal` | genesis/plugins/certificates/backend.py:96 | `str(int(bits))` is a non-empty run of decimal digits |
| `Text.DecimalRoundTrip` | genesis/plugins/certificates/backend.py:176 | the decimal text of the key length reads back as the key length |
| `Text.Contains` | genesis/plugins/webapps/api.py:78 | `'php' in value` holds iff the substring occurs at some index |
| `Paths.Stem` | genesis/plugins/certificates/backend.py:45 | the stem is a prefix of the file name; when it is shorter, it ends right before the last dot and keeps some non-dot character |
| `Paths.StemCuts` | genesis/plugins/certificates/backend.py:45 | conversely, whenever a non-dot character comes before the last dot, the stem is everything before that dot |
| `Paths.StemOfFile` | genesis/plugins/certificates/backend.py:45 | `splitext` of a visible `<host>.pem` file name gives back `host` |
| `Crypto.KeyTypeName` | genesis/plugins/certificates/backend.py:85-90 | the recorded key type is 'RSA' iff RSA, 'DSA' iff DSA, 'Unknown' iff neither |
| `Crypto.CnText` | genesis/plugins/certificates/backend.py:97 | the recorded domain is the subject CN, or 'None' when the CN is unset |
| `Crypto.TimeText` | genesis/plugins/certificates/backend.py:94 | the recorded expiry is a non-empty run of digits |
| `Records.Summarize` | genesis/plugins/certificates/backend.py:28-33 | each option is the record's value, or 'Unknown' when absent; `assign` is 'Unknown' iff absent, otherwise the split list, which joins back to the stored text |
| `Records.NewRecord` | genesis/plugins/certificates/backend.py:91-98 | the six options `add_ext_cert` and `gencert` write; `RecordReadBack` states what reads back |
| `Records.RecordReadBack` | genesis/plugins/certificates/backend.py:91-99 | a record written for a certificate and key reads back through `get_certs` with the same name, expiry, CN, key type, key length and label list |
| `Labels.SiteLabel` | genesis/plugins/certificates/backend.py:236 | the web application label `<name> (<type>)`; no ensures of its own |
| `Labels.Label` | genesis/plugins/certificates/backend.py:230-239 | 'Genesis SSL', the site label, or the plugin's `text`, per target kind; no ensures of its own |
| `Labels.LabelsOf` | genesis/plugins/certificates/backend.py:223-239 | a label is listed iff some recognised target has it; no more labels than targets, and exactly as many when every target is recognised |
| `Labels.RemoveFirst` | genesis/plugins/certificates/backend.py:259 | `list.remove` shortens the list by exactly one |
| `Labels.RemoveFirstMultiset` | genesis/plugins/certificates/backend.py:262 | `list.remove(x)` takes away one copy of `x` and nothing else |
| `Labels.RemoveFirstCutsFirst` | genesis/plugins/certificates/backend.py:255 | `list.remove(x)` cuts out exactly the first occurrence of `x` |
| `Labels.Without` | genesis/plugins/certificates/backend.py:272-275 | the filtered list never holds the dropped entry, holds only entries of the input, and holds every other entry exactly as often as the input |
| `Labels.KeptPositions` | genesis/plugins/certificates/backend.py:272-275 | the kept entries sit at strictly increasing positions of the input, so the filter keeps their original order |
| `Labels.WithoutRemoveFirst` | genesis/plugins/certificates/backend.py:220-222 | removing one empty entry does not change the non-empty entries |
| `Labels.CleanupFrom` | genesis/plugins/certificates/backend.py:220-222 | the index walk of the cleanup loop; its lemmas below state what it keeps and drops |
| `Labels.Cleanup` | genesis/plugins/certificates/backend.py:220-222 | the cleanup walk from the first entry |
| `Labels.DropEmpty` | genesis/plugins/certificates/backend.py:220-222 | the literal loop that removes while iterating computes the index walk `Cleanup` |
| `Labels.CleanupKeepsEntries` | genesis/plugins/certificates/backend.py:247-249 | the cleanup keeps every non-empty entry, in order |
| `Labels.CleanupDropsOnlyEmpty` | genesis/plugins/certificates/backend.py:220-222 | the cleanup only ever drops empty entries: every non-empty count is unchanged |
| `Labels.CleanupSingleEmpty` | genesis/plugins/certificates/backend.py:220-222 | with at most one empty entry, no empty entry survives |
| `Labels.CleanupOfFreshRecord` | genesis/plugins/certificates/backend.py:177 | a fresh record's `assign = ''` cleans up to an empty list |
| `Labels.CleanupLeavesAdjacentEmpty` | genesis/plugins/certificates/backend.py:220-222 | two adjacent empty entries leave one behind |
| `Labels.RereadKeepsEntries` | genesis/plugins/certificates/backend.py:240-249 | writing a list without newlines, reading it back and cleaning it keeps every non-empty entry as often as it was listed |
| `Labels.RereadThenRemove` | genesis/plugins/certificates/backend.py:240-262 | labels appended, written and re-read can all be removed again, leaving every non-empty original entry as often as before |
| `Labels.RemoveAll` | genesis/plugins/certificates/backend.py:250-262 | the `list.remove` calls of `unassign` in target order, `None` where one raises; `RemoveAllMultiset` states when |
| `Labels.RemoveAllMultiset` | genesis/plugins/certificates/backend.py:250-262 | the removals succeed iff every label is listed at least as often as it is removed, and then exactly those copies go |
| `Labels.RemoveAllAppended` | genesis/plugins/certificates/backend.py:255-262 | removing labels just appended to a list that held none of them restores the list exactly |
| `Labels.PurgedLabelAbsent` | genesis/plugins/certificates/backend.py:273-276 | after filtering and joining, the dropped (non-empty) label is not among the entries read back |
| `Assignment.GenesisOn` | genesis/plugins/certificates/backend.py:225-229 | `cert_file` and `cert_key` name this certificate's files and `ssl` is '1'; every other setting is kept |
| `Assignment.GenesisOff` | genesis/plugins/certificates/backend.py:252-254 | `cert_file` and `cert_key` are empty and `ssl` is '0'; every other setting is kept |
| `Assignment.EnableStep` | genesis/plugins/certificates/backend.py:224-239 | one target's activation; the `AssignFold*` lemmas state its effect over a whole loop |
| `Assignment.DisableStep` | genesis/plugins/certificates/backend.py:251-262 | one target's deactivation, saving the service settings only after the removal succeeded |
| `Assignment.AssignFold` | genesis/plugins/certificates/backend.py:223-239 | the `assign` target loop over the consumers and the label list; the `AssignFold*` lemmas state its result |
| `Assignment.UnassignFold` | genesis/plugins/certificates/backend.py:250-262 | the `unassign` target loop, stopping at the first label that is absent; the `UnassignFold*` lemmas state its result |
| `Assignment.WebappSites` | genesis/plugins/certificates/backend.py:232 | a site is in the set iff a web application target names it |
| `Assignment.PluginTexts` | genesis/plugins/certificates/backend.py:237 | a plugin is in the set iff a plugin target names it |
| `Assignment.AssignFoldLabels` | genesis/plugins/certificates/backend.py:223-239 | `assign` appends the targets' labels after the existing ones, in order, duplicates kept |
| `Assignment.AssignFoldWebapps` | genesis/plugins/certificates/backend.py:232-235 | after `assign`, each named site serves this certificate's paths; other sites keep theirs |
| `Assignment.AssignFoldPlugins` | genesis/plugins/certificates/backend.py:237-238 | after `assign`, exactly the named plugins have been added to those with SSL on |
| `Assignment.AssignFoldGenesis` | genesis/plugins/certificates/backend.py:224-231 | if the service is named, it is set to this certificate's files with `ssl = '1'` and saved; otherwise it is untouched |
| `Assignment.UnassignFoldLabels` | genesis/plugins/certificates/backend.py:250-262 | `unassign` removes labels exactly as that sequence of `list.remove` calls, failing where one raises |
| `Assignment.UnassignFoldWebapps` | genesis/plugins/certificates/backend.py:257-259 | a successful `unassign` takes exactly the named sites off TLS |
| `Assignment.UnassignFoldPlugins` | genesis/plugins/certificates/backend.py:260-262 | a successful `unassign` takes exactly the named plugins off SSL |
| `Assignment.UnassignFoldGenesis` | genesis/plugins/certificates/backend.py:251-256 | a successful `unassign` naming the service clears its settings and saves them |
| `Assignment.UnassignUndoesAssignLabels` | genesis/plugins/certificates/backend.py:223-262 | on one in-memory list, without writing and re-reading it: the unassign loop run on the list the assign loop produced succeeds and restores the label multiset, and the exact list when no new label was already listed |
| `Assignment.UnassignUndoesAssignConsumers` | genesis/plugins/certificates/backend.py:223-262 | on one in-memory list: the unassign loop after the assign loop leaves the named sites and plugins without SSL and the service's settings cleared |
| `Assignment.UnassignAfterAssignConsumers` | genesis/plugins/certificates/backend.py:223-262 | whatever list the unassign loop reads, once its removals succeed the consumers are as before the assign loop minus the named targets |
| `Assignment.AssignThenUnassignRecord` | genesis/plugins/certificates/backend.py:215-264 | `assign` then `unassign` through the stored record (clean, append, join; then split, clean again, remove): with non-empty, newline-free labels the removals succeed, every non-empty entry is listed as often as before, and the named consumers are disabled |
| `Assignment.AssignThenUnassignEmptyLabel` | genesis/plugins/certificates/backend.py:219-262 | an empty plugin label assigned to a fresh record cannot be unassigned: the removal raises |
| `Certificates.ClockProbe` | genesis/plugins/certificates/backend.py:111-114 | the body of the `try` succeeds iff an offset is known and within ±3600 s; no offset is its own failure |
| `Certificates.CheckClock` | genesis/plugins/certificates/backend.py:110-116 | issuance proceeds iff an offset is known and within ±3600 s; every other case is `SystemTimeError('UNKNOWN')` |
| `Certificates.LeafSubject` | genesis/plugins/certificates/backend.py:135-144 | each subject attribute is set iff its form field is non-empty, and then it equals that field |
| `Certificates.LeafKeyType` | genesis/plugins/certificates/backend.py:128 | the leaf key is DSA when configured 'DSA' and RSA otherwise |
| `Certificates.NewAuthority` | genesis/plugins/certificates/backend.py:184-200 | the CA names the host as CN, is self-issued and self-signed, and is valid from now for five 365-day years |
| `Certificates.NewLeaf` | genesis/plugins/certificates/backend.py:133-150 | the leaf subject comes from the form, the issuer from the CA; it is signed with its own key and valid from now for two 365-day years |
| `Certificates.CrtFileText` | genesis/plugins/certificates/backend.py:77-82 | the `.crt` starts with the certificate; with a chain it ends with the chain after exactly one separating newline |
| `Certificates.IssuedRecordReadBack` | genesis/plugins/certificates/backend.py:164-178 | a `gencert` record reads back with expiry two years after issuance, CN or 'None', 'RSA' or 'DSA', the configured length and one empty label |
| `Certificates.CertControl.GetCerts` | genesis/plugins/certificates/backend.py:18-34 | one summary per listed record, in listing order; it fails with NoOptionError('name') iff some record lacks `name` |
| `Certificates.CertControl.GetCas` | genesis/plugins/certificates/backend.py:36-50 | one entry per listed CA, named by its stem, with its notAfter; it fails iff a CA key is missing, with the `IOError` of the first listed CA whose key is missing |
| `Certificates.CertControl.AddExtCert` | genesis/plugins/certificates/backend.py:65-101 | an unreadable certificate or key raises its own message and writes nothing; otherwise `.crt`, `.key` and the record are written |
| `Certificates.CertControl.CreateAuthority` | genesis/plugins/certificates/backend.py:180-209 | the host's CA certificate and key are (over)written; nothing else changes |
| `Certificates.CertControl.GenCert` | genesis/plugins/certificates/backend.py:103-178 | clock failure changes nothing; a CA is created only when both files are absent; a missing CA file or a generation failure leaves the certificates alone; otherwise the leaf, key and record are written |
| `Certificates.CertControl.DeleteAuthority` | genesis/plugins/certificates/backend.py:211-213 | the CA certificate is removed, then its key; a missing file raises at that step |
| `Certificates.CertControl.Assign` | genesis/plugins/certificates/backend.py:215-241 | a missing record or option raises and changes nothing; otherwise the consumers follow `AssignFold` and the record lists the cleaned labels plus the new ones |
| `Certificates.CertControl.Unassign` | genesis/plugins/certificates/backend.py:243-264 | the consumers follow `UnassignFold`; it succeeds iff the cleaned list holds every removed label often enough, and only then is the record rewritten |
| `Certificates.CertControl.UnassignRecord` | genesis/plugins/certificates/backend.py:245-264 | on a record with labels: consumers follow `UnassignFold`; the record is rewritten on success and untouched on `ValueError` |
| `Certificates.CertControl.UnassignTargets` | genesis/plugins/certificates/backend.py:250-262 | the target loop computes exactly `UnassignFold` |
| `Certificates.CertControl.RemoveNotify` | genesis/plugins/certificates/backend.py:266-279 | the record named `name` loses every entry equal to `name`; without the record or option nothing changes; afterwards a non-empty `name` is not listed |
| `Certificates.CertControl.DisableSites` | genesis/plugins/certificates/backend.py:287-289 | exactly the listed sites whose label is in the record are taken off TLS |
| `Certificates.CertControl.DisablePlugins` | genesis/plugins/certificates/backend.py:290-292 | exactly the listed plugins named in the record have SSL turned off |
| `Certificates.CertControl.Remove` | genesis/plugins/certificates/backend.py:281-306 | consumers labelled in the record are disabled; the service is cleared and saved iff 'Genesis SSL' is listed; the record, `.crt` and `.key` are deleted |
| `SiteMatch.Span` | genesis/plugins/webapps/api.py:68-69 | a greedy run: every character in it satisfies the class and the next one does not |
| `SiteMatch.MatchType` | genesis/plugins/webapps/api.py:68-74 | no match iff there is no case-insensitive 'GENESIS ' followed by two letters; otherwise the maximal letter run after the tag |
| `SiteMatch.TypeDecomposition` | genesis/plugins/webapps/api.py:74 | a comment 'GENESIS <letters>' followed by a non-letter yields exactly those letters |
| `SiteMatch.MatchListen` | genesis/plugins/webapps/api.py:69-75 | no match iff the value does not start with a digit; otherwise the port is the maximal digit prefix and the SSL text holds no newline |
| `SiteMatch.ListenDecomposition` | genesis/plugins/webapps/api.py:75 | a value `<digits><spaces><text>` yields exactly the digits and the text |
| `Webapps.DefaultSite` | genesis/plugins/webapps/api.py:61-67 | the name, type 'Unknown', port '80' and path every site starts from; no ensures of its own |
| `Webapps.FirstKey` | genesis/plugins/webapps/api.py:75-78 | no value iff no directive has the name; otherwise the value of the first directive with that name |
| `Webapps.ReadDirectives` | genesis/plugins/webapps/api.py:76-79 | address, root and php are each read only while every earlier directive was present; nothing else changes |
| `Webapps.ReadServer` | genesis/plugins/webapps/api.py:75-80 | without `listen` nothing changes; a `listen` that does not match raises AttributeError; otherwise its groups are port and SSL text |
| `Webapps.ReadConf` | genesis/plugins/webapps/api.py:72-80 | it raises exactly when the first comment or the listen value does not match; otherwise the type is the comment's match and the rest is `ReadServer` of the first server's directives |
| `Webapps.SiteFromConf` | genesis/plugins/webapps/api.py:60-89 | after a successful file read: IndexError without a plugin of that type, AttributeError without its `dbengine`, success iff both exist, and then the read site with `enabled` iff linked, the plugin's `dbengine` and `ssl_able` iff its `ssl` is true; no comment means the defaults |
| `Webapps.GeneratedSiteReadsBack` | genesis/plugins/webapps/api.py:72-78 | a site file made of a 'GENESIS <type>' comment and a server whose listen, server_name, root and index directives come first reads back to its type, port, SSL text, address, root and php flag |
| `Webapps.GetSites` | genesis/plugins/webapps/api.py:53-90 | it succeeds iff every site reads, giving one entry per site in order; otherwise the error is that of the first site that fails |
| `Webapps.NotifyFold` | genesis/plugins/webapps/api.py:104-119 | the walk keeps the set of records and stops after at most all the files |
| `Webapps.NotifyUntouched` | genesis/plugins/webapps/api.py:106-117 | a record the walk did not reach before stopping is unchanged |
| `Webapps.NotifyPurges` | genesis/plugins/webapps/api.py:110-117 | every rewritten record has `assign` and no longer lists the removed site |
| `Webapps.NotifyPurgesProcessed` | genesis/plugins/webapps/api.py:106-117 | over distinct files and a non-empty label: every record the walk processed still has `assign` if it had one, and none of them lists the label any more |
| `Webapps.NotifyRewritesOnlyMatches` | genesis/plugins/webapps/api.py:109-117 | a record whose `assign` does not list the label is never rewritten |
| `Webapps.NotifyNoMatch` | genesis/plugins/webapps/api.py:115-117 | when nothing lists the site, no record is rewritten |
| `Webapps.NotifyCarriesOptions` | genesis/plugins/webapps/api.py:105-117 | over distinct files: a record rewritten after any earlier processed record, whatever that record's labels, gets its value for an option that neither it nor any file in between has |
| `Webapps.NotifyCarriesParser` | genesis/plugins/webapps/api.py:105-117 | over distinct files: a rewritten record gets the value the parser held before the walk for an option that no file up to it has |
| `Webapps.NotifyStopsAtMissingAssign` | genesis/plugins/webapps/api.py:110-119 | a record without `assign` first in line ends the walk; a later record keeps the label |
| `Webapps.PurgeLabel` | genesis/plugins/webapps/api.py:108-114 | the kept entries are the input minus the label, and `write` holds iff the label was present |
| `Webapps.CertRemoveNotify` | genesis/plugins/webapps/api.py:100-119 | the records become exactly what `NotifyFold` gives from an empty parser over the listing |
| `Webapps.PurgeFiles` | genesis/plugins/webapps/api.py:105-117 | the file loop computes exactly `NotifyFold`, stopping where it stops |
| `Webapps.PurgeFile` | genesis/plugins/webapps/api.py:107-117 | one file is merged into the parser; without `assign` the walk stops; a file listing the label is rewritten with the whole filtered parser |

## Left out

- OpenSSL: key generation, signing, certificate parsing and PEM encoding. Keys and certificates are opaque values (`Crypto`). The parse failures of `add_ext_cert` and the leaf key generation failure of `gencert` are inputs.
- Crypto.TimeText: renders the notAfter time as decimal seconds, not as OpenSSL's ASN.1 time text.
- The clock source (`get_offset`) and the serial source (`get_serial_time`) are inputs. A failure of the serial source is not modelled.
- Directory creation (`os.mkdir`/`os.makedirs`) and the 0660 permissions set by `chmod` are not modelled. Files are map entries.
- The INI text format of `.gcinfo` files is not modelled. A record is its `[cert]` section as a map, and reading a file into a parser is a map merge.
- Records.RecordReadBack: the stored `assign` text reads back verbatim. The INI writer turns each newline into a newline and a tab, and the reader strips the continuation lines and skips blank ones, so empty entries after the first are lost (`['a', '', 'b']` reads back as `['a', 'b']`); a value is also cut at ` ;`. The model does not capture these losses.
- Labels.CleanupLeavesAdjacentEmpty: a list with two adjacent empty entries cannot come out of a real `.gcinfo` read, because of the blank-line skipping above; the lemma is about the cleanup walk alone.
- Certificates.CertControl.CreateAuthority: always succeeds. The key generation failure is not modelled, and neither is the `IOError` raised when the `ca/` directories do not exist yet (only `get_cas` creates them).
- Certificates.CertControl.GenCert: when the CA must be created, the model does not raise the `IOError` of a missing `ca/` directory; it creates the CA as if `get_cas` had run before.
- `int(...)` of the configured key length is not modelled. The configuration holds a natural number.
- The consumers' own enable/disable code (nginx rewrites, plugin `enable_ssl`/`disable_ssl`, `gconfig.save()` I/O) is not modelled. Each is a state change that always succeeds.
- `get_ssl_capable` is not modelled: `remove` takes its two lists as inputs.
- `has_expired` is not modelled: it only asks OpenSSL.
- `nginx.loadf` is not modelled: the parsed file is an input. Its parse and I/O failures are not modelled, and neither are blocks nested inside the server.
- The order of `glob` and `os.listdir` results is an input. The listing is only required to name each visible file once.
- `get_interface` and the `sclass` object it returns are not modelled. Only whether a plugin class of that name exists is modelled, through `get_info`.
- The regex engine is not modelled in general: `MatchType` and `MatchListen` implement exactly the two patterns, with Python 2 `str` pattern semantics, where `\s` is the six ASCII whitespace characters and `IGNORECASE` folds ASCII letters only.
- Webapps.SiteFromConf: the plugin's `ssl` attribute is a boolean or absent; other truthy values are not modelled.
