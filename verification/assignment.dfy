/**
 * What `assign` and `unassign` do to the consumers, target by target, and to
 * the label list they rewrite. The management service's own TLS settings live
 * in the `genesis` section of its configuration (`app.gconfig`), kept here as
 * the in-memory map and the copy last written by `save()`. A web application
 * is either configured with a certificate/key path pair or not; a plugin
 * either has SSL enabled or not.
 */
module Assignment {
  import opened Wrappers
  import opened Text
  import opened Paths
  import opened Labels

  datatype CertPaths = CertPaths(crt: string, key: string)

  datatype Consumers = Consumers(
    gconfig: map<string, string>,
    saved: map<string, string>,
    webapps: map<SiteRef, CertPaths>,
    plugins: set<string>)

  /** The `genesis` settings for serving with certificate `name`. */
  function GenesisOn(g: map<string, string>, name: string): (r: map<string, string>)
    ensures r.Keys == g.Keys + {"cert_file", "cert_key", "ssl"}
    ensures r["cert_file"] == CrtPath(name) && r["cert_key"] == KeyPath(name) && r["ssl"] == "1"
    ensures forall k :: k in g && k !in {"cert_file", "cert_key", "ssl"} ==> r[k] == g[k]
  {
    g["cert_file" := CrtPath(name)]["cert_key" := KeyPath(name)]["ssl" := "1"]
  }

  /** The `genesis` settings with TLS switched off. */
  function GenesisOff(g: map<string, string>): (r: map<string, string>)
    ensures r.Keys == g.Keys + {"cert_file", "cert_key", "ssl"}
    ensures r["cert_file"] == "" && r["cert_key"] == "" && r["ssl"] == "0"
    ensures forall k :: k in g && k !in {"cert_file", "cert_key", "ssl"} ==> r[k] == g[k]
  {
    g["cert_file" := ""]["cert_key" := ""]["ssl" := "0"]
  }

  /** Switching the service to the same certificate twice is switching it once. */
  lemma GenesisOnTwice(g: map<string, string>, name: string)
    ensures GenesisOn(GenesisOn(g, name), name) == GenesisOn(g, name)
  {
  }

  /** Switching TLS off twice is switching it off once. */
  lemma GenesisOffTwice(g: map<string, string>)
    ensures GenesisOff(GenesisOff(g)) == GenesisOff(g)
  {
  }

  /** Switching TLS off forgets which certificate it was switched on with. */
  lemma GenesisOffAfterOn(g: map<string, string>, name: string)
    ensures GenesisOff(GenesisOn(g, name)) == GenesisOff(g)
  {
  }

  function PathsOf(name: string): CertPaths { CertPaths(CrtPath(name), KeyPath(name)) }

  /** Activation of certificate `name` for one target; `genesis` also saves the configuration. */
  function EnableStep(c: Consumers, t: Target, name: string): Consumers
  {
    match t
    case Genesis => c.(gconfig := GenesisOn(c.gconfig, name), saved := GenesisOn(c.gconfig, name))
    case WebappTarget(s) => c.(webapps := c.webapps[s := PathsOf(name)])
    case PluginTarget(p) => c.(plugins := c.plugins + {p})
    case OtherTarget(_) => c
  }

  /**
   * Deactivation for one target. For `genesis` the settings are changed before
   * the label is removed, and saved only after that removal succeeded (`save`).
   */
  function DisableStep(c: Consumers, t: Target, save: bool): Consumers
  {
    match t
    case Genesis =>
      var g := GenesisOff(c.gconfig);
      c.(gconfig := g, saved := if save then g else c.saved)
    case WebappTarget(s) => c.(webapps := c.webapps - {s})
    case PluginTarget(p) => c.(plugins := c.plugins - {p})
    case OtherTarget(_) => c
  }

  /** The `assign` loop: activate each target, then append its label. */
  function AssignFold(c: Consumers, alist: seq<string>, ts: seq<Target>, name: string): (Consumers, seq<string>)
    decreases |ts|
  {
    if |ts| == 0 then (c, alist)
    else AssignFold(EnableStep(c, ts[0], name), alist + LabelSeq(ts[0]), ts[1..], name)
  }

  /**
   * The `unassign` loop: deactivate each target, then remove the first
   * occurrence of its label. An absent label raises after that target was
   * already deactivated; the label list is then not written (`None`).
   */
  function UnassignFold(c: Consumers, alist: seq<string>, ts: seq<Target>): (Consumers, Option<seq<string>>)
    decreases |ts|
  {
    if |ts| == 0 then (c, Some(alist))
    else if ts[0].OtherTarget? then UnassignFold(c, alist, ts[1..])
    else
      var l := Label(ts[0]);
      if l in alist then UnassignFold(DisableStep(c, ts[0], true), RemoveFirst(alist, l), ts[1..])
      else (DisableStep(c, ts[0], false), None)
  }

  /** The web applications named among the targets. */
  function WebappSites(ts: seq<Target>): (r: set<SiteRef>)
    ensures forall s :: s in r <==> WebappTarget(s) in ts
  {
    if |ts| == 0 then {}
    else
      var r := (if ts[0].WebappTarget? then {ts[0].site} else {}) + WebappSites(ts[1..]);
      assert ts == [ts[0]] + ts[1..];
      r
  }

  /** The plugins named among the targets. */
  function PluginTexts(ts: seq<Target>): (r: set<string>)
    ensures forall p :: p in r <==> PluginTarget(p) in ts
  {
    if |ts| == 0 then {}
    else
      var r := (if ts[0].PluginTarget? then {ts[0].text} else {}) + PluginTexts(ts[1..]);
      assert ts == [ts[0]] + ts[1..];
      r
  }

  /** `assign` appends the targets' labels after the existing ones, in target order, without de-duplication. */
  lemma {:induction false} AssignFoldLabels(c: Consumers, alist: seq<string>, ts: seq<Target>, name: string)
    ensures AssignFold(c, alist, ts, name).1 == alist + LabelsOf(ts)
    decreases |ts|
  {
    if |ts| > 0 {
      AssignFoldLabels(EnableStep(c, ts[0], name), alist + LabelSeq(ts[0]), ts[1..], name);
    }
  }

  /**
   * After `assign`, every named web application serves certificate `name`, and
   * every other web application keeps what it had.
   */
  lemma {:induction false} AssignFoldWebapps(c: Consumers, alist: seq<string>, ts: seq<Target>, name: string)
    ensures var w := AssignFold(c, alist, ts, name).0.webapps;
      && w.Keys == c.webapps.Keys + WebappSites(ts)
      && forall s :: s in w ==> w[s] == if s in WebappSites(ts) then PathsOf(name) else c.webapps[s]
    decreases |ts|
  {
    if |ts| > 0 {
      var c1 := EnableStep(c, ts[0], name);
      AssignFoldWebapps(c1, alist + LabelSeq(ts[0]), ts[1..], name);
      if ts[0].WebappTarget? {
        assert WebappSites(ts) == {ts[0].site} + WebappSites(ts[1..]);
      } else {
        assert WebappSites(ts) == WebappSites(ts[1..]);
      }
    }
  }

  /** After `assign`, exactly the named plugins have been added to those with SSL on. */
  lemma {:induction false} AssignFoldPlugins(c: Consumers, alist: seq<string>, ts: seq<Target>, name: string)
    ensures AssignFold(c, alist, ts, name).0.plugins == c.plugins + PluginTexts(ts)
    decreases |ts|
  {
    if |ts| > 0 {
      AssignFoldPlugins(EnableStep(c, ts[0], name), alist + LabelSeq(ts[0]), ts[1..], name);
    }
  }

  /**
   * After `assign`, if `genesis` was named the service is set to `name`'s files
   * with `ssl = '1'` and that configuration is saved; otherwise it is untouched.
   */
  lemma {:induction false} AssignFoldGenesis(c: Consumers, alist: seq<string>, ts: seq<Target>, name: string)
    ensures var r := AssignFold(c, alist, ts, name).0;
      && r.gconfig == (if Genesis in ts then GenesisOn(c.gconfig, name) else c.gconfig)
      && r.saved == (if Genesis in ts then GenesisOn(c.gconfig, name) else c.saved)
    decreases |ts|
  {
    if |ts| > 0 {
      var c' := EnableStep(c, ts[0], name);
      AssignFoldGenesis(c', alist + LabelSeq(ts[0]), ts[1..], name);
      if ts[0].Genesis? {
        GenesisOnTwice(c.gconfig, name);
      } else {
        assert c'.gconfig == c.gconfig && c'.saved == c.saved;
        assert Genesis in ts <==> Genesis in ts[1..] by {
          assert ts == [ts[0]] + ts[1..];
        }
      }
    }
  }

  /** `unassign` removes the targets' labels exactly as a sequence of `list.remove` calls would. */
  lemma {:induction false} UnassignFoldLabels(c: Consumers, alist: seq<string>, ts: seq<Target>)
    ensures UnassignFold(c, alist, ts).1 == RemoveAll(alist, LabelsOf(ts))
    decreases |ts|
  {
    if |ts| > 0 {
      if ts[0].OtherTarget? {
        assert LabelsOf(ts) == LabelsOf(ts[1..]);
        UnassignFoldLabels(c, alist, ts[1..]);
      } else if Label(ts[0]) in alist {
        assert LabelsOf(ts) == [Label(ts[0])] + LabelsOf(ts[1..]);
        UnassignFoldLabels(DisableStep(c, ts[0], true), RemoveFirst(alist, Label(ts[0])), ts[1..]);
      } else {
        assert LabelsOf(ts) == [Label(ts[0])] + LabelsOf(ts[1..]);
      }
    }
  }

  /** When `unassign` succeeds, exactly the named web applications have lost their certificate. */
  lemma {:induction false} UnassignFoldWebapps(c: Consumers, alist: seq<string>, ts: seq<Target>)
    requires UnassignFold(c, alist, ts).1.Some?
    ensures UnassignFold(c, alist, ts).0.webapps == c.webapps - WebappSites(ts)
    decreases |ts|
  {
    if |ts| > 0 {
      if ts[0].OtherTarget? {
        UnassignFoldWebapps(c, alist, ts[1..]);
        assert WebappSites(ts) == WebappSites(ts[1..]);
      } else {
        UnassignFoldWebapps(DisableStep(c, ts[0], true), RemoveFirst(alist, Label(ts[0])), ts[1..]);
        if ts[0].WebappTarget? {
          assert WebappSites(ts) == {ts[0].site} + WebappSites(ts[1..]);
        } else {
          assert WebappSites(ts) == WebappSites(ts[1..]);
        }
      }
    }
  }

  /** When `unassign` succeeds, exactly the named plugins have SSL off. */
  lemma {:induction false} UnassignFoldPlugins(c: Consumers, alist: seq<string>, ts: seq<Target>)
    requires UnassignFold(c, alist, ts).1.Some?
    ensures UnassignFold(c, alist, ts).0.plugins == c.plugins - PluginTexts(ts)
    decreases |ts|
  {
    if |ts| > 0 {
      if ts[0].OtherTarget? {
        UnassignFoldPlugins(c, alist, ts[1..]);
        assert PluginTexts(ts) == PluginTexts(ts[1..]);
      } else {
        UnassignFoldPlugins(DisableStep(c, ts[0], true), RemoveFirst(alist, Label(ts[0])), ts[1..]);
        if ts[0].PluginTarget? {
          assert PluginTexts(ts) == {ts[0].text} + PluginTexts(ts[1..]);
        } else {
          assert PluginTexts(ts) == PluginTexts(ts[1..]);
        }
      }
    }
  }

  /** When `unassign` succeeds and names `genesis`, the service's settings are cleared and saved. */
  lemma {:induction false} UnassignFoldGenesis(c: Consumers, alist: seq<string>, ts: seq<Target>)
    requires UnassignFold(c, alist, ts).1.Some?
    ensures var r := UnassignFold(c, alist, ts).0;
      && r.gconfig == (if Genesis in ts then GenesisOff(c.gconfig) else c.gconfig)
      && r.saved == (if Genesis in ts then GenesisOff(c.gconfig) else c.saved)
    decreases |ts|
  {
    if |ts| > 0 {
      assert Genesis in ts <==> ts[0].Genesis? || Genesis in ts[1..] by {
        assert ts == [ts[0]] + ts[1..];
      }
      if ts[0].OtherTarget? {
        UnassignFoldGenesis(c, alist, ts[1..]);
      } else {
        UnassignFoldGenesis(DisableStep(c, ts[0], true), RemoveFirst(alist, Label(ts[0])), ts[1..]);
        if ts[0].Genesis? {
          GenesisOffTwice(c.gconfig);
        }
      }
    }
  }

  /**
   * Unassigning the targets just assigned succeeds and gives back the labels
   * (as a multiset; exactly, when none of the new labels was already listed).
   */
  lemma UnassignUndoesAssignLabels(c: Consumers, alist: seq<string>, ts: seq<Target>, name: string)
    ensures var (c1, l1) := AssignFold(c, alist, ts, name);
      var l2 := UnassignFold(c1, l1, ts).1;
      && l2.Some?
      && multiset(l2.value) == multiset(alist)
      && ((forall l :: l in LabelsOf(ts) ==> l !in alist) ==> l2 == Some(alist))
  {
    var (c1, l1) := AssignFold(c, alist, ts, name);
    AssignFoldLabels(c, alist, ts, name);
    UnassignFoldLabels(c1, l1, ts);
    RemoveAllMultiset(l1, LabelsOf(ts));
    assert multiset(l1) == multiset(alist) + multiset(LabelsOf(ts));
    if forall l :: l in LabelsOf(ts) ==> l !in alist {
      RemoveAllAppended(alist, LabelsOf(ts));
    }
  }

  /**
   * Unassigning the targets just assigned leaves every named web application
   * and plugin without SSL and the service's settings cleared when `genesis`
   * was named.
   */
  lemma UnassignUndoesAssignConsumers(c: Consumers, alist: seq<string>, ts: seq<Target>, name: string)
    ensures var a := AssignFold(c, alist, ts, name);
      var c2 := UnassignFold(a.0, a.1, ts).0;
      && c2.webapps == c.webapps - WebappSites(ts)
      && c2.plugins == c.plugins - PluginTexts(ts)
      && c2.gconfig == (if Genesis in ts then GenesisOff(c.gconfig) else c.gconfig)
  {
    var a := AssignFold(c, alist, ts, name);
    UnassignUndoesAssignLabels(c, alist, ts, name);
    UnassignAfterAssignConsumers(c, alist, a.1, ts, name);
  }

  /**
   * Whatever list `unassign` reads, once its removals succeed the consumers
   * are back to what they were before `assign`, minus the named targets.
   */
  lemma UnassignAfterAssignConsumers(c: Consumers, alist: seq<string>, alist2: seq<string>, ts: seq<Target>, name: string)
    requires UnassignFold(AssignFold(c, alist, ts, name).0, alist2, ts).1.Some?
    ensures var c2 := UnassignFold(AssignFold(c, alist, ts, name).0, alist2, ts).0;
      && c2.webapps == c.webapps - WebappSites(ts)
      && c2.plugins == c.plugins - PluginTexts(ts)
      && c2.gconfig == (if Genesis in ts then GenesisOff(c.gconfig) else c.gconfig)
  {
    var a := AssignFold(c, alist, ts, name);
    var c2 := UnassignFold(a.0, alist2, ts).0;
    UnassignAfterAssignWebapps(c, alist, alist2, ts, name);
    assert c2.plugins == c.plugins - PluginTexts(ts) by {
      UnassignFoldPlugins(a.0, alist2, ts);
      AssignFoldPlugins(c, alist, ts, name);
    }
    assert c2.gconfig == (if Genesis in ts then GenesisOff(c.gconfig) else c.gconfig) by {
      UnassignFoldGenesis(a.0, alist2, ts);
      AssignFoldGenesis(c, alist, ts, name);
      if Genesis in ts {
        GenesisOffAfterOn(c.gconfig, name);
      }
    }
  }

  /** The web application part of `UnassignAfterAssignConsumers`. */
  lemma UnassignAfterAssignWebapps(c: Consumers, alist: seq<string>, alist2: seq<string>, ts: seq<Target>, name: string)
    requires UnassignFold(AssignFold(c, alist, ts, name).0, alist2, ts).1.Some?
    ensures UnassignFold(AssignFold(c, alist, ts, name).0, alist2, ts).0.webapps == c.webapps - WebappSites(ts)
  {
    var a := AssignFold(c, alist, ts, name);
    var c2 := UnassignFold(a.0, alist2, ts).0;
    UnassignFoldWebapps(a.0, alist2, ts);
    AssignFoldWebapps(c, alist, ts, name);
    forall s | s in c2.webapps ensures s in c.webapps - WebappSites(ts) && c2.webapps[s] == c.webapps[s] {
      assert s !in WebappSites(ts);
    }
    assert c2.webapps.Keys == (c.webapps - WebappSites(ts)).Keys;
  }

  /**
   * `assign` followed by `unassign` of the same targets, through the stored
   * record: `assign` cleans the stored text's entries, appends the labels and
   * writes them newline-joined; `unassign` splits and cleans that text again
   * and removes the labels. When every label is non-empty and has no newline,
   * the removals succeed, every non-empty entry is listed as often as before,
   * and the consumers lose the named targets.
   */
  lemma AssignThenUnassignRecord(c: Consumers, stored: string, ts: seq<Target>, name: string)
    requires forall l :: l in LabelsOf(ts) ==> l != "" && '\n' !in l
    ensures var a := Cleanup(Split(stored, '\n'));
      var after := AssignFold(c, a, ts, name);
      var reread := Cleanup(Split(Join(after.1, '\n'), '\n'));
      var res := UnassignFold(after.0, reread, ts);
      && res.1.Some?
      && (forall y :: y != "" ==> multiset(res.1.value)[y] == multiset(a)[y])
      && res.0.webapps == c.webapps - WebappSites(ts)
      && res.0.plugins == c.plugins - PluginTexts(ts)
      && res.0.gconfig == (if Genesis in ts then GenesisOff(c.gconfig) else c.gconfig)
  {
    var parts := Split(stored, '\n');
    var a := Cleanup(parts);
    var ls := LabelsOf(ts);
    var after := AssignFold(c, a, ts, name);
    AssignFoldLabels(c, a, ts, name);
    CleanupDropsOnlyEmpty(parts, 0);
    forall i | 0 <= i < |a| ensures '\n' !in a[i] {
      assert a[i] in multiset(a);
    }
    forall i | 0 <= i < |ls| ensures ls[i] != "" && '\n' !in ls[i] {
      assert ls[i] in ls;
    }
    RereadThenRemove(a, ls);
    var reread := Cleanup(Split(Join(after.1, '\n'), '\n'));
    UnassignFoldLabels(after.0, reread, ts);
    UnassignAfterAssignConsumers(c, a, reread, ts, name);
  }

  /**
   * An empty label does not survive the round trip: a plugin whose `text` is
   * empty is assigned to a fresh record, and unassigning it then raises,
   * because the cleanup of the re-read list removed the empty entry.
   */
  lemma AssignThenUnassignEmptyLabel(c: Consumers, name: string)
    ensures var ts := [PluginTarget("")];
      var a := Cleanup(Split("", '\n'));
      var after := AssignFold(c, a, ts, name);
      var reread := Cleanup(Split(Join(after.1, '\n'), '\n'));
      UnassignFold(after.0, reread, ts).1.None?
  {
    var ts := [PluginTarget("")];
    assert Split("", '\n') == [""];
    CleanupOfFreshRecord();
    AssignFoldLabels(c, [], ts, name);
    assert LabelsOf(ts) == [""] by {
      assert ts[1..] == [];
    }
    assert Join([""], '\n') == "";
  }
}
