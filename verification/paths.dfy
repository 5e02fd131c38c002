/**
 * The on-disk layout of the certificate store, the directory listing that
 * glob with a star pattern yields, and `os.path.splitext` on a file name.
 */
module Paths {
  import opened Wrappers

  const CertDir: string := "/etc/ssl/certs/genesis/"
  const KeyDir: string := "/etc/ssl/private/genesis/"
  const CaCertDir: string := "/etc/ssl/certs/genesis/ca/"
  const CaKeyDir: string := "/etc/ssl/private/genesis/ca/"

  function CrtPath(name: string): string { CertDir + name + ".crt" }
  function KeyPath(name: string): string { KeyDir + name + ".key" }
  function InfoPath(name: string): string { CertDir + name + ".gcinfo" }
  function CaCertPath(host: string): string { CaCertDir + host + ".pem" }
  function CaKeyPath(host: string): string { CaKeyDir + host + ".key" }

  /** Shell-style `*` does not match a file name that starts with a dot. */
  predicate Hidden(file: string) { |file| > 0 && file[0] == '.' }

  /**
   * `listing` is what `glob` returns for the files `<k><ext>` of a directory
   * whose stems are `keys`: every visible file once, in the directory's own order.
   */
  ghost predicate IsListing(listing: seq<string>, keys: set<string>, ext: string)
  {
    (forall i, j :: 0 <= i < j < |listing| ==> listing[i] != listing[j]) &&
    (forall k :: k in listing <==> k in keys && !Hidden(k + ext))
  }

  /** Index of the last '.' in `s`, if any. */
  function LastDot(s: string): (r: Option<nat>)
    ensures r.Some? ==> r.value < |s| && s[r.value] == '.' && '.' !in s[r.value + 1..]
    ensures r.None? ==> '.' !in s
  {
    if |s| == 0 then None
    else if s[|s| - 1] == '.' then Some(|s| - 1)
    else
      var r := LastDot(s[..|s| - 1]);
      assert s == s[..|s| - 1] + [s[|s| - 1]];
      r
  }

  /**
   * `os.path.splitext(file)[0]` for a file name without '/': the part before
   * the last '.', unless everything before that dot is dots.
   */
  function Stem(file: string): (r: string)
    ensures |r| <= |file| && file[..|r|] == r
    ensures r != file ==> file[|r|] == '.' && '.' !in file[|r| + 1..] && exists j :: 0 <= j < |r| && r[j] != '.'
    ensures '.' !in file ==> r == file
  {
    match LastDot(file)
    case None => file
    case Some(d) =>
      if exists j :: 0 <= j < d && file[j] != '.' then file[..d] else file
  }

  /** Whenever some non-dot character comes before the last dot, the stem is everything before that dot. */
  lemma StemCuts(file: string, d: nat)
    requires d < |file| && file[d] == '.' && '.' !in file[d + 1..]
    requires exists j :: 0 <= j < d && file[j] != '.'
    ensures Stem(file) == file[..d]
  {
  }

  /** The stem of a visible `<host><ext>` file is `host` when `ext` is one dot and a dot-free suffix. */
  lemma StemOfFile(host: string, ext: string)
    requires |ext| >= 1 && ext[0] == '.' && '.' !in ext[1..]
    requires !Hidden(host + ext) && host != ""
    ensures Stem(host + ext) == host
  {
    var f := host + ext;
    assert f[|host|] == '.';
    assert f[|host| + 1..] == ext[1..];
    var d := LastDot(f);
    assert d == Some(|host|);
    assert f[0] == host[0] && host[0] != '.';
    assert f[..|host|] == host;
  }
}
