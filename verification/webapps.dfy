/**
 * The part of the web application API that the certificate store works with:
 * the `Webapp` record, how `get_sites` reads a site out of its nginx file, and
 * `cert_remove_notify`, which purges a removed site's label from every
 * certificate record.
 */
module Webapps {
  import opened Wrappers
  import opened Text
  import opened SiteMatch
  import opened Records
  import opened Labels
  import opened Paths
  import opened Certificates

  /** A `Key` directive of an nginx block. */
  datatype Directive = Directive(name: string, value: string)

  /** A `server` block, by its `Key` children in file order. */
  datatype Server = Server(keys: seq<Directive>)

  /** A parsed site file: its top-level comments and its `server` blocks, in file order. */
  datatype Conf = Conf(comments: seq<string>, servers: seq<Server>)

  /**
   * The `plugin_info` of the web application plugin whose class is named after
   * a site type: its `ssl` and `dbengine` attributes, `None` where absent.
   */
  datatype PluginInfo = PluginInfo(ssl: Option<bool>, dbengine: Option<string>)

  /**
   * A `Webapp`. `ssl` is the text after the listen port, `None` standing for
   * the class default False; `addr` is `None` for the default False;
   * `dbengine` is `None` until the site's plugin is known.
   */
  datatype Webapp = Webapp(
    name: string,
    stype: string,
    ssl: Option<string>,
    sslAble: bool,
    addr: Option<string>,
    port: string,
    path: string,
    php: bool,
    enabled: bool,
    dbengine: Option<string>)

  const SitesAvailable: string := "/etc/nginx/sites-available/"

  /** `filter('Key', key)[0].value`: the value of the first directive named `key`; `None` for the IndexError. */
  function FirstKey(keys: seq<Directive>, key: string): (r: Option<string>)
    ensures r.None? <==> forall i :: 0 <= i < |keys| ==> keys[i].name != key
    ensures r.Some? ==> exists i :: FirstNamed(keys, key, i) && keys[i].value == r.value
  {
    if |keys| == 0 then None
    else if keys[0].name == key then
      assert FirstNamed(keys, key, 0);
      Some(keys[0].value)
    else
      var r := FirstKey(keys[1..], key);
      assert r.Some? ==> exists i :: FirstNamed(keys, key, i) && keys[i].value == r.value by {
        if r.Some? {
          var i :| FirstNamed(keys[1..], key, i) && keys[1..][i].value == r.value;
          assert FirstNamed(keys, key, i + 1);
        }
      }
      r
  }

  /** `keys[i]` is the first directive named `key`. */
  predicate FirstNamed(keys: seq<Directive>, key: string, i: int)
  {
    0 <= i < |keys| && keys[i].name == key && forall j :: 0 <= j < i ==> keys[j].name != key
  }

  /** The values `get_sites` gives a site before reading its file. */
  function DefaultSite(site: string): Webapp
  {
    Webapp(site, "Unknown", None, true, None, "80", SitesAvailable + site, false, false, None)
  }

  /**
   * The directives read after the listen value: `server_name` as the address,
   * `root` as the path and whether the `index` value mentions php, each only
   * when every directive before it was found (the first missing one raises
   * IndexError and ends the block).
   */
  function ReadDirectives(w: Webapp, keys: seq<Directive>): (r: Webapp)
    ensures r == w.(addr := r.addr, path := r.path, php := r.php)
    ensures r.addr == (if FirstKey(keys, "server_name").Some? then FirstKey(keys, "server_name") else w.addr)
    ensures r.path ==
      (if FirstKey(keys, "server_name").Some? && FirstKey(keys, "root").Some?
       then FirstKey(keys, "root").value else w.path)
    ensures r.php ==
      (if FirstKey(keys, "server_name").Some? && FirstKey(keys, "root").Some? && FirstKey(keys, "index").Some?
       then Contains(FirstKey(keys, "index").value, "php") else w.php)
  {
    match FirstKey(keys, "server_name")
    case None => w
    case Some(a) =>
      var w1 := w.(addr := Some(a));
      match FirstKey(keys, "root")
      case None => w1
      case Some(p) =>
        var w2 := w1.(path := p);
        match FirstKey(keys, "index")
        case None => w2
        case Some(ix) => w2.(php := Contains(ix, "php"))
  }

  /**
   * The first server: without a listen directive nothing more is read; a
   * listen value that does not start with a port raises AttributeError;
   * otherwise port and SSL text are its two groups and the other directives follow.
   */
  function ReadServer(w: Webapp, keys: seq<Directive>): (r: Result<Webapp, Error>)
    ensures FirstKey(keys, "listen").None? ==> r == Success(w)
    ensures FirstKey(keys, "listen").Some? ==>
      (r.Failure? <==> MatchListen(FirstKey(keys, "listen").value).None?)
    ensures r.Failure? ==> r.error == AttributeError
    ensures r.Success? && FirstKey(keys, "listen").Some? ==>
      && r.value.ssl.Some?
      && MatchListen(FirstKey(keys, "listen").value) == Some((r.value.port, r.value.ssl.value))
      && r.value == ReadDirectives(w.(port := r.value.port, ssl := r.value.ssl), keys)
  {
    match FirstKey(keys, "listen")
    case None => Success(w)
    case Some(v) =>
      match MatchListen(v)
      case None => Failure(AttributeError)
      case Some(ps) => Success(ReadDirectives(w.(port := ps.0, ssl := Some(ps.1)), keys))
  }

  /**
   * The `try` block of `get_sites`: the type from the first comment, then the
   * first server. No comment or no server (IndexError) ends the block keeping
   * what was read; a first comment without a type raises AttributeError, which
   * the block does not catch.
   */
  function ReadConf(w: Webapp, conf: Conf): (r: Result<Webapp, Error>)
    ensures |conf.comments| == 0 ==> r == Success(w)
    ensures r.Failure? ==> r.error == AttributeError
    ensures r.Failure? <==>
      && |conf.comments| > 0
      && (|| MatchType(conf.comments[0]).None?
          || (&& |conf.servers| > 0
              && FirstKey(conf.servers[0].keys, "listen").Some?
              && MatchListen(FirstKey(conf.servers[0].keys, "listen").value).None?))
    ensures r.Success? && |conf.comments| > 0 ==> r.value.stype == MatchType(conf.comments[0]).value
    ensures r.Success? && |conf.servers| == 0 ==> r.value == w.(stype := r.value.stype)
    ensures r.Success? && |conf.comments| > 0 && |conf.servers| > 0 ==>
      r == ReadServer(w.(stype := r.value.stype), conf.servers[0].keys)
  {
    if |conf.comments| == 0 then Success(w)
    else match MatchType(conf.comments[0])
      case None => Failure(AttributeError)
      case Some(t) =>
        var typed := w.(stype := t);
        if |conf.servers| == 0 then Success(typed) else ReadServer(typed, conf.servers[0].keys)
  }

  /**
   * One entry of `get_sites`: the file's values, `enabled` when the site is
   * linked in sites-enabled, and `dbengine` and `ssl_able` from the plugin of
   * the site's type. No such plugin raises IndexError, a plugin without a
   * `dbengine` AttributeError; a plugin without `ssl` makes the site not
   * SSL-capable.
   */
  function SiteFromConf(site: string, conf: Conf, enabled: set<string>, plugins: map<string, PluginInfo>)
    : (r: Result<Webapp, Error>)
    ensures r.Failure? ==> r.error == AttributeError || r.error == IndexError
    ensures ReadConf(DefaultSite(site), conf).Failure? ==> r == ReadConf(DefaultSite(site), conf)
    ensures r.Success? ==>
      && r.value.name == site
      && (r.value.enabled <==> site in enabled)
      && r.value.stype in plugins
      && r.value.dbengine.Some?
      && r.value.dbengine == plugins[r.value.stype].dbengine
      && (r.value.sslAble <==> plugins[r.value.stype].ssl == Some(true))
      && (r.value.port == "80" || (|r.value.port| >= 1 && forall i :: 0 <= i < |r.value.port| ==> IsDigit(r.value.port[i])))
    ensures ReadConf(DefaultSite(site), conf).Success? ==>
      var w := ReadConf(DefaultSite(site), conf).value;
      && (w.stype !in plugins ==> r == Failure(IndexError))
      && (w.stype in plugins && plugins[w.stype].dbengine.None? ==> r == Failure(AttributeError))
      && (r.Success? <==> w.stype in plugins && plugins[w.stype].dbengine.Some?)
      && (r.Success? ==> r.value == w.(enabled := site in enabled, dbengine := plugins[w.stype].dbengine,
                                       sslAble := plugins[w.stype].ssl == Some(true)))
    ensures |conf.comments| == 0 ==>
      (r.Success? <==> "Unknown" in plugins && plugins["Unknown"].dbengine.Some?)
    ensures |conf.comments| == 0 && r.Success? ==>
      && r.value.stype == "Unknown" && r.value.port == "80" && r.value.ssl.None?
      && r.value.addr.None? && r.value.path == SitesAvailable + site && !r.value.php
  {
    match ReadConf(DefaultSite(site), conf)
    case Failure(e) => Failure(e)
    case Success(w) =>
      if w.stype !in plugins then Failure(IndexError)
      else
        var info := plugins[w.stype];
        if info.dbengine.None? then Failure(AttributeError)
        else
          var sslAble := info.ssl.GetOr(false);
          Success(w.(enabled := site in enabled, dbengine := info.dbengine, sslAble := sslAble))
  }

  /**
   * A site file made of a 'GENESIS <type>' comment and a server whose listen,
   * server_name, root and index directives come first reads back to exactly
   * those values.
   */
  lemma GeneratedSiteReadsBack(site: string, stype: string, port: string, flag: string,
                               addr: string, root: string, index: string)
    requires |stype| >= 2 && forall i :: 0 <= i < |stype| ==> IsLetter(stype[i])
    requires |port| >= 1 && forall i :: 0 <= i < |port| ==> IsDigit(port[i])
    requires forall i :: 0 <= i < |flag| ==> flag[i] != '\n'
    requires flag == [] || !IsSpace(flag[0])
    ensures var conf := Conf(["GENESIS " + stype],
                             [Server([Directive("listen", port + " " + flag), Directive("server_name", addr),
                                      Directive("root", root), Directive("index", index)])]);
      ReadConf(DefaultSite(site), conf) ==
        Success(DefaultSite(site).(stype := stype, port := port, ssl := Some(flag), addr := Some(addr),
                                   path := root, php := Contains(index, "php")))
  {
    TypeDecomposition(TypeTag, stype, []);
    assert TypeTag + stype + [] == "GENESIS " + stype;
    assert MatchType("GENESIS " + stype) == Some(stype);
    ListenDecomposition(port, " ", flag, []);
    assert port + " " + flag + [] == port + " " + flag;
    assert MatchListen(port + " " + flag) == Some((port, flag));
    var keys := [Directive("listen", port + " " + flag), Directive("server_name", addr),
                 Directive("root", root), Directive("index", index)];
    assert FirstKey(keys, "listen") == Some(port + " " + flag);
    assert FirstKey(keys, "server_name") == Some(addr);
    assert keys[1..][1..] == [Directive("root", root), Directive("index", index)];
    assert keys[1..][1..][1..] == [Directive("index", index)];
    assert FirstKey(keys[1..][1..], "root") == Some(root);
    assert FirstKey(keys[1..], "root") == Some(root);
    assert FirstKey(keys, "root") == Some(root);
    assert FirstKey(keys[1..][1..][1..], "index") == Some(index);
    assert FirstKey(keys[1..][1..], "index") == Some(index);
    assert FirstKey(keys[1..], "index") == Some(index);
    assert FirstKey(keys, "index") == Some(index);
  }

  /**
   * `get_sites` over the site files, given each file's parsed contents: the
   * sites in listing order, or the exception of the first site that fails.
   */
  method GetSites(sites: seq<string>, confs: seq<Conf>, enabled: set<string>, plugins: map<string, PluginInfo>)
    returns (r: Result<seq<Webapp>, Error>)
    requires |confs| == |sites|
    ensures r.Success? <==> forall i :: 0 <= i < |sites| ==> SiteFromConf(sites[i], confs[i], enabled, plugins).Success?
    ensures r.Success? ==> |r.value| == |sites|
    ensures r.Success? ==>
      forall i :: 0 <= i < |sites| ==> SiteFromConf(sites[i], confs[i], enabled, plugins) == Success(r.value[i])
    ensures r.Failure? ==>
      exists i :: 0 <= i < |sites| && SiteFromConf(sites[i], confs[i], enabled, plugins) == Failure(r.error) &&
                  forall j :: 0 <= j < i ==> SiteFromConf(sites[j], confs[j], enabled, plugins).Success?
  {
    var applist: seq<Webapp> := [];
    var i := 0;
    while i < |sites|
      invariant 0 <= i <= |sites|
      invariant |applist| == i
      invariant forall j :: 0 <= j < i ==> SiteFromConf(sites[j], confs[j], enabled, plugins) == Success(applist[j])
    {
      var w := SiteFromConf(sites[i], confs[i], enabled, plugins);
      if w.Failure? {
        return Failure(w.error);
      }
      ghost var before := applist;
      applist := applist + [w.value];
      forall j | 0 <= j < i + 1
        ensures SiteFromConf(sites[j], confs[j], enabled, plugins) == Success(applist[j])
      {
        if j < i {
          assert applist[j] == before[j];
        }
      }
      i := i + 1;
    }
    return Success(applist);
  }

  /** The records after `cert_remove_notify`, and how many files it finished before stopping. */
  datatype PurgeRun = PurgeRun(records: map<string, Section>, processed: nat)

  /**
   * `cert_remove_notify` over the files `files`, starting from the parser
   * `parser`. Every file is read into the same parser, so options of earlier
   * files stay in it; a parser without `assign` raises, and the bare `except`
   * ends the walk there. A file whose merged `assign` holds `target` is
   * rewritten with the whole parser and the filtered label list.
   */
  function NotifyFold(parser: Section, records: map<string, Section>, files: seq<string>, target: string)
    : (r: PurgeRun)
    requires forall i :: 0 <= i < |files| ==> files[i] in records
    ensures r.records.Keys == records.Keys
    ensures r.processed <= |files|
    decreases |files|
  {
    if |files| == 0 then PurgeRun(records, 0)
    else
      var p := parser + records[files[0]];
      if "assign" !in p then PurgeRun(records, 0)
      else
        var entries := Split(p["assign"], '\n');
        var p' := if target in entries then p["assign" := Join(Without(entries, target), '\n')] else p;
        var records' := if target in entries then records[files[0] := p'] else records;
        var rest := NotifyFold(p', records', files[1..], target);
        PurgeRun(rest.records, rest.processed + 1)
  }

  /** A record is left as it was unless the walk reached it before stopping. */
  lemma {:induction false} NotifyUntouched(parser: Section, records: map<string, Section>, files: seq<string>, target: string)
    requires forall i :: 0 <= i < |files| ==> files[i] in records
    ensures var r := NotifyFold(parser, records, files, target);
      forall k :: k in records && (forall i :: 0 <= i < r.processed ==> files[i] != k) ==> r.records[k] == records[k]
    decreases |files|
  {
    if |files| > 0 && "assign" in parser + records[files[0]] {
      var p := parser + records[files[0]];
      var entries := Split(p["assign"], '\n');
      var p' := if target in entries then p["assign" := Join(Without(entries, target), '\n')] else p;
      var records' := if target in entries then records[files[0] := p'] else records;
      NotifyStep(parser, records, files, target);
      NotifyUntouched(p', records', files[1..], target);
      var rest := NotifyFold(p', records', files[1..], target);
      forall k | k in records && (forall i :: 0 <= i < rest.processed + 1 ==> files[i] != k)
        ensures rest.records[k] == records[k]
      {
        assert files[0] != k;
        assert forall i :: 0 <= i < rest.processed ==> files[1..][i] == files[i + 1];
      }
    }
  }

  /** Every record the walk rewrote no longer lists the removed site's label. */
  lemma {:induction false} NotifyPurges(parser: Section, records: map<string, Section>, files: seq<string>, target: string)
    requires forall i :: 0 <= i < |files| ==> files[i] in records
    requires target != ""
    ensures var r := NotifyFold(parser, records, files, target);
      forall k :: k in records && r.records[k] != records[k] ==>
        "assign" in r.records[k] && target !in Split(r.records[k]["assign"], '\n')
    decreases |files|
  {
    if |files| > 0 {
      var p := parser + records[files[0]];
      if "assign" in p {
        var entries := Split(p["assign"], '\n');
        var p' := if target in entries then p["assign" := Join(Without(entries, target), '\n')] else p;
        var records' := if target in entries then records[files[0] := p'] else records;
        NotifyPurges(p', records', files[1..], target);
        if target in entries {
          PurgedLabelAbsent(entries, target);
        }
      }
    }
  }

  /**
   * When neither the starting parser nor any listed record carries the label,
   * no record is rewritten.
   */
  lemma {:induction false} NotifyNoMatch(parser: Section, records: map<string, Section>, files: seq<string>, target: string)
    requires forall i :: 0 <= i < |files| ==> files[i] in records
    requires "assign" in parser ==> target !in Split(parser["assign"], '\n')
    requires forall i :: 0 <= i < |files| && "assign" in records[files[i]] ==>
      target !in Split(records[files[i]]["assign"], '\n')
    ensures NotifyFold(parser, records, files, target).records == records
    decreases |files|
  {
    if |files| > 0 {
      var p := parser + records[files[0]];
      if "assign" in p {
        NotifyNoMatch(p, records, files[1..], target);
      }
    }
  }

  /** One step of the walk over a file whose merged parser has `assign`. */
  lemma NotifyStep(parser: Section, records: map<string, Section>, files: seq<string>, target: string)
    requires |files| > 0 && forall i :: 0 <= i < |files| ==> files[i] in records
    requires "assign" in parser + records[files[0]]
    ensures var p := parser + records[files[0]];
      var entries := Split(p["assign"], '\n');
      var p' := if target in entries then p["assign" := Join(Without(entries, target), '\n')] else p;
      var records' := if target in entries then records[files[0] := p'] else records;
      var rest := NotifyFold(p', records', files[1..], target);
      NotifyFold(parser, records, files, target) == PurgeRun(rest.records, rest.processed + 1)
  {
  }

  /** The first file of a distinct listing, once processed, keeps `assign` and no longer lists a non-empty label. */
  lemma NotifyPurgesHead(parser: Section, records: map<string, Section>, files: seq<string>, target: string)
    requires |files| > 0 && forall i :: 0 <= i < |files| ==> files[i] in records
    requires Distinct(files) && target != ""
    requires "assign" in parser + records[files[0]]
    ensures var r0 := NotifyFold(parser, records, files, target).records[files[0]];
      && ("assign" in records[files[0]] ==> "assign" in r0)
      && ("assign" in r0 ==> target !in Split(r0["assign"], '\n'))
  {
    var p := parser + records[files[0]];
    var entries := Split(p["assign"], '\n');
    var p' := if target in entries then p["assign" := Join(Without(entries, target), '\n')] else p;
    var records' := if target in entries then records[files[0] := p'] else records;
    NotifyStep(parser, records, files, target);
    NotifyHeadKept(p', records', files, target);
    var r0 := NotifyFold(parser, records, files, target).records[files[0]];
    if target in entries {
      assert r0 == p';
      PurgedLabelAbsent(entries, target);
    } else {
      assert r0 == records[files[0]];
      assert "assign" in r0 ==> r0["assign"] == p["assign"];
    }
  }

  /** No file is listed twice, as in a directory listing. */
  predicate Distinct(files: seq<string>)
  {
    forall a, b :: 0 <= a < b < |files| ==> files[a] != files[b]
  }

  /** Past the first file of a distinct listing, a map that changed at most that file's record agrees with the old one. */
  lemma NotifyShift(records: map<string, Section>, records': map<string, Section>, files: seq<string>)
    requires |files| > 0 && Distinct(files)
    requires forall i :: 0 <= i < |files| ==> files[i] in records
    requires records'.Keys == records.Keys
    requires forall k :: k in records && k != files[0] ==> records'[k] == records[k]
    ensures Distinct(files[1..])
    ensures forall m :: 0 <= m < |files| - 1 ==>
      files[1..][m] == files[m + 1] && files[m + 1] != files[0] && files[m + 1] in records' && records'[files[m + 1]] == records[files[m + 1]]
  {
  }

  /** The rest of the walk over a distinct listing does not touch the first file's record. */
  lemma NotifyHeadKept(parser: Section, records: map<string, Section>, files: seq<string>, target: string)
    requires |files| > 0 && Distinct(files)
    requires forall i :: 0 <= i < |files| ==> files[i] in records
    ensures NotifyFold(parser, records, files[1..], target).records[files[0]] == records[files[0]]
  {
    var rest := NotifyFold(parser, records, files[1..], target);
    NotifyUntouched(parser, records, files[1..], target);
    assert forall i :: 0 <= i < rest.processed ==> files[1..][i] != files[0] by {
      assert forall i :: 0 <= i < rest.processed ==> files[1..][i] == files[i + 1];
    }
  }

  /**
   * Every record the walk processed ends up not listing the label: a record
   * with its own `assign` keeps one, and any `assign` a processed record holds
   * afterwards no longer names the removed site.
   */
  lemma {:induction false} NotifyPurgesProcessed(parser: Section, records: map<string, Section>, files: seq<string>, target: string)
    requires forall i :: 0 <= i < |files| ==> files[i] in records
    requires Distinct(files) && target != ""
    ensures var r := NotifyFold(parser, records, files, target);
      forall i :: 0 <= i < r.processed ==>
        && ("assign" in records[files[i]] ==> "assign" in r.records[files[i]])
        && ("assign" in r.records[files[i]] ==> target !in Split(r.records[files[i]]["assign"], '\n'))
    decreases |files|
  {
    if |files| > 0 && "assign" in parser + records[files[0]] {
      var p := parser + records[files[0]];
      var entries := Split(p["assign"], '\n');
      var p' := if target in entries then p["assign" := Join(Without(entries, target), '\n')] else p;
      var records' := if target in entries then records[files[0] := p'] else records;
      NotifyStep(parser, records, files, target);
      var rest := NotifyFold(p', records', files[1..], target);
      var r := NotifyFold(parser, records, files, target);
      NotifyShift(records, records', files);
      NotifyPurgesProcessed(p', records', files[1..], target);
      assert r.records == rest.records && r.processed == rest.processed + 1;
      NotifyPurgesHead(parser, records, files, target);
      forall i | 1 <= i < r.processed
        ensures && ("assign" in records[files[i]] ==> "assign" in r.records[files[i]])
                && ("assign" in r.records[files[i]] ==> target !in Split(r.records[files[i]]["assign"], '\n'))
      {
        assert files[1..][i - 1] == files[i] && files[i] != files[0];
      }
    }
  }


  /** A record whose own `assign` does not list the label is never rewritten. */
  lemma {:induction false} NotifyRewritesOnlyMatches(parser: Section, records: map<string, Section>, files: seq<string>, target: string)
    requires forall i :: 0 <= i < |files| ==> files[i] in records
    ensures var r := NotifyFold(parser, records, files, target);
      forall k :: k in records && "assign" in records[k] && target !in Split(records[k]["assign"], '\n') ==>
        r.records[k] == records[k]
    decreases |files|
  {
    if |files| > 0 && "assign" in parser + records[files[0]] {
      var p := parser + records[files[0]];
      var entries := Split(p["assign"], '\n');
      var p' := if target in entries then p["assign" := Join(Without(entries, target), '\n')] else p;
      var records' := if target in entries then records[files[0] := p'] else records;
      NotifyStep(parser, records, files, target);
      NotifyRewritesOnlyMatches(p', records', files[1..], target);
      forall k | k in records && "assign" in records[k] && target !in Split(records[k]["assign"], '\n')
        ensures records'[k] == records[k]
      {
        if k == files[0] {
          assert p["assign"] == records[k]["assign"];
        }
      }
    }
  }

  /**
   * The shared parser carries its options into every record the walk
   * rewrites, as long as no file read in between sets that option.
   */
  lemma {:induction false} NotifyCarriesParser(parser: Section, records: map<string, Section>, files: seq<string>,
                                               target: string, key: string, j: nat)
    requires forall i :: 0 <= i < |files| ==> files[i] in records
    requires Distinct(files)
    requires j < NotifyFold(parser, records, files, target).processed
    requires key != "assign" && key in parser
    requires forall m :: 0 <= m <= j ==> key !in records[files[m]]
    requires "assign" in records[files[j]] && target in Split(records[files[j]]["assign"], '\n')
    ensures var rj := NotifyFold(parser, records, files, target).records[files[j]];
      key in rj && rj[key] == parser[key]
    decreases j, 1
  {
    var p := parser + records[files[0]];
    var entries := Split(p["assign"], '\n');
    var p' := if target in entries then p["assign" := Join(Without(entries, target), '\n')] else p;
    var records' := if target in entries then records[files[0] := p'] else records;
    NotifyStep(parser, records, files, target);
    var rest := NotifyFold(p', records', files[1..], target);
    NotifyShift(records, records', files);
    if j == 0 {
      assert p["assign"] == records[files[0]]["assign"];
      NotifyHeadKept(p', records', files, target);
    } else {
      NotifyCarriesParserTail(p', records, records', files, target, key, j);
    }
  }

  /** The recursive case of `NotifyCarriesParser`, stated over any map that agrees past the first file. */
  lemma {:induction false} NotifyCarriesParserTail(parser: Section, records: map<string, Section>, records': map<string, Section>,
                                                   files: seq<string>, target: string, key: string, j: nat)
    requires |files| > 0 && Distinct(files[1..])
    requires forall m :: 0 <= m < |files| ==> files[m] in records
    requires forall m :: 0 <= m < |files| - 1 ==>
      files[1..][m] == files[m + 1] && files[m + 1] in records' && records'[files[m + 1]] == records[files[m + 1]]
    requires 0 < j < |files| && j - 1 < NotifyFold(parser, records', files[1..], target).processed
    requires key != "assign" && key in parser
    requires forall m :: 0 < m <= j ==> key !in records[files[m]]
    requires "assign" in records[files[j]] && target in Split(records[files[j]]["assign"], '\n')
    ensures var rj := NotifyFold(parser, records', files[1..], target).records[files[j]];
      key in rj && rj[key] == parser[key]
    decreases j, 0
  {
    NotifyCarriesParser(parser, records', files[1..], target, key, j - 1);
  }

  /**
   * Options carry over between files: a record listing the label, processed
   * after another file, inherits an option that file had and that no file in
   * between (nor the record itself) sets, whatever the earlier file's labels were.
   */
  lemma {:induction false} NotifyCarriesOptions(parser: Section, records: map<string, Section>, files: seq<string>,
                                                target: string, key: string, i: nat, j: nat)
    requires forall m :: 0 <= m < |files| ==> files[m] in records
    requires Distinct(files)
    requires i < j < NotifyFold(parser, records, files, target).processed
    requires key != "assign" && key in records[files[i]]
    requires forall m :: i < m <= j ==> key !in records[files[m]]
    requires "assign" in records[files[j]] && target in Split(records[files[j]]["assign"], '\n')
    ensures var rj := NotifyFold(parser, records, files, target).records[files[j]];
      key in rj && rj[key] == records[files[i]][key]
    decreases i, 1
  {
    var p := parser + records[files[0]];
    var entries := Split(p["assign"], '\n');
    var p' := if target in entries then p["assign" := Join(Without(entries, target), '\n')] else p;
    var records' := if target in entries then records[files[0] := p'] else records;
    NotifyStep(parser, records, files, target);
    var rest := NotifyFold(p', records', files[1..], target);
    NotifyShift(records, records', files);
    assert files[1..][j - 1] == files[j];
    assert i == 0 ==> key in p' && p'[key] == records[files[0]][key];
    NotifyCarriesTail(p', records, records', files, target, key, i, j);
  }

  /** The rest of the walk in `NotifyCarriesOptions`, stated over any map that agrees past the first file. */
  lemma {:induction false} NotifyCarriesTail(parser: Section, records: map<string, Section>, records': map<string, Section>,
                                             files: seq<string>, target: string, key: string, i: nat, j: nat)
    requires |files| > 0 && Distinct(files[1..])
    requires forall m :: 0 <= m < |files| ==> files[m] in records
    requires forall m :: 0 <= m < |files| - 1 ==>
      files[1..][m] == files[m + 1] && files[m + 1] in records' && records'[files[m + 1]] == records[files[m + 1]]
    requires i < j < |files| && j - 1 < NotifyFold(parser, records', files[1..], target).processed
    requires key != "assign" && key in records[files[i]]
    requires i == 0 ==> key in parser && parser[key] == records[files[i]][key]
    requires forall m :: i < m <= j ==> key !in records[files[m]]
    requires "assign" in records[files[j]] && target in Split(records[files[j]]["assign"], '\n')
    ensures var rj := NotifyFold(parser, records', files[1..], target).records[files[j]];
      key in rj && rj[key] == records[files[i]][key]
    decreases i, 0
  {
    if i == 0 {
      NotifyCarriesParser(parser, records', files[1..], target, key, j - 1);
    } else {
      NotifyCarriesOptions(parser, records', files[1..], target, key, i - 1, j - 1);
    }
  }

  /**
   * A record without `assign` met before any record with one ends the walk:
   * a later record that lists the label keeps it.
   */
  lemma NotifyStopsAtMissingAssign()
    ensures var a: Section := map["name" := "a"];
      var b: Section := map["name" := "b", "assign" := "blog (WordPress)"];
      var r := NotifyFold(map[], map["a" := a, "b" := b], ["a", "b"], "blog (WordPress)");
      r.processed == 0 && r.records["b"] == b
  {
  }

  /** One more entry of the label list through the filtering loop of `cert_remove_notify`. */
  lemma PurgeStep(entries: seq<string>, j: nat, target: string)
    requires j < |entries|
    ensures Without(entries[..j + 1], target) ==
      Without(entries[..j], target) + (if entries[j] == target then [] else [entries[j]])
    ensures target in entries[..j + 1] <==> target in entries[..j] || entries[j] == target
  {
    assert entries[..j + 1] == entries[..j] + [entries[j]];
    WithoutAppend(entries[..j], [entries[j]], target);
    assert Without([entries[j]], target) == (if entries[j] == target then [] else [entries[j]]) by {
      assert [entries[j]][1..] == [];
    }
  }

  /** The inner loop of `cert_remove_notify`: the entries other than `target`, and whether `target` was among them. */
  method PurgeLabel(entries: seq<string>, target: string) returns (alist: seq<string>, write: bool)
    ensures alist == Without(entries, target)
    ensures write <==> target in entries
  {
    alist := [];
    write := false;
    var j := 0;
    while j < |entries|
      invariant 0 <= j <= |entries|
      invariant alist == Without(entries[..j], target)
      invariant write <==> target in entries[..j]
    {
      PurgeStep(entries, j, target);
      if entries[j] != target {
        alist := alist + [entries[j]];
      } else {
        write := true;
      }
      j := j + 1;
    }
    assert entries[..j] == entries;
  }

  /**
   * `cert_remove_notify(name, stype)`: purges the label of the removed site
   * from the records in `listing` (the `.gcinfo` files, in glob order), as
   * `NotifyFold` from an empty parser describes.
   */
  method CertRemoveNotify(store: CertControl, name: string, stype: string, listing: seq<string>)
    requires IsListing(listing, store.records.Keys, ".gcinfo")
    modifies store`records
    ensures store.records ==
      NotifyFold(map[], old(store.records), listing, SiteLabel(SiteRef(name, stype))).records
  {
    forall j | 0 <= j < |listing| ensures listing[j] in store.records {
      assert listing[j] in listing;
    }
    PurgeFiles(store, name + " (" + stype + ")", listing);
  }

  /** The walk of `cert_remove_notify` over the listed records, with one parser for all of them. */
  method PurgeFiles(store: CertControl, target: string, listing: seq<string>)
    requires forall j :: 0 <= j < |listing| ==> listing[j] in store.records
    modifies store`records
    ensures store.records == NotifyFold(map[], old(store.records), listing, target).records
  {
    var cfg: Section := map[];
    var i := 0;
    while i < |listing|
      invariant 0 <= i <= |listing|
      invariant store.records.Keys == old(store.records).Keys
      invariant forall j :: 0 <= j < |listing| ==> listing[j] in store.records
      invariant NotifyFold(cfg, store.records, listing[i..], target).records ==
        NotifyFold(map[], old(store.records), listing, target).records
    {
      assert listing[i..][0] == listing[i] && listing[i..][1..] == listing[i + 1..];
      ghost var records0 := store.records;
      var next := PurgeFile(store, cfg, listing[i], target);
      if next.None? {
        return;
      }
      NotifyStep(cfg, records0, listing[i..], target);
      cfg := next.value;
      i := i + 1;
    }
  }

  /**
   * One file of the walk: merge it into the parser; without `assign` the walk
   * stops (`None`); otherwise drop the label and, if it was there, write the
   * whole parser back to the file.
   */
  method PurgeFile(store: CertControl, cfg: Section, x: string, target: string) returns (next: Option<Section>)
    requires x in store.records
    modifies store`records
    ensures var p := cfg + old(store.records)[x];
      && ("assign" !in p ==> next.None? && store.records == old(store.records))
      && ("assign" in p ==>
            var entries := Split(p["assign"], '\n');
            var p' := if target in entries then p["assign" := Join(Without(entries, target), '\n')] else p;
            && next == Some(p')
            && store.records == if target in entries then old(store.records)[x := p'] else old(store.records))
  {
    var p := cfg + store.records[x];
    if "assign" !in p {
      return None;
    }
    var alist, write := PurgeLabel(Split(p["assign"], '\n'), target);
    if write {
      p := p["assign" := Join(alist, '\n')];
      store.records := store.records[x := p];
    }
    return Some(p);
  }
}
