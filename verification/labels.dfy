/**
 * Assignment labels: the text a certificate record stores for each consumer
 * it is assigned to, and the list operations `assign`/`unassign` apply to them.
 */
module Labels {
  import opened Wrappers
  import opened Text

  /** A web application site as the assignment code sees it: its name and site type. */
  datatype SiteRef = SiteRef(name: string, stype: string)

  /**
   * One entry of the `assign` argument, a `(kind, object)` pair: the management
   * service itself, a web application, an SSL-capable plugin (named by its
   * `text`), or any other kind, which the dispatch silently skips.
   */
  datatype Target = Genesis | WebappTarget(site: SiteRef) | PluginTarget(text: string) | OtherTarget(kind: string)

  const GenesisLabel: string := "Genesis SSL"

  function SiteLabel(s: SiteRef): string { s.name + " (" + s.stype + ")" }

  /** The label recorded for a recognised target. */
  function Label(t: Target): string
    requires !t.OtherTarget?
  {
    match t
    case Genesis => GenesisLabel
    case WebappTarget(s) => SiteLabel(s)
    case PluginTarget(p) => p
  }

  /** The labels one target contributes: none for an unrecognised kind. */
  function LabelSeq(t: Target): seq<string>
  {
    if t.OtherTarget? then [] else [Label(t)]
  }

  /** The labels of `ts`, in order, one per recognised target, duplicates kept. */
  function LabelsOf(ts: seq<Target>): (ls: seq<string>)
    ensures |ls| <= |ts|
    ensures (forall i :: 0 <= i < |ts| ==> !ts[i].OtherTarget?) ==> |ls| == |ts|
    ensures forall l :: l in ls <==> exists i :: 0 <= i < |ts| && !ts[i].OtherTarget? && Label(ts[i]) == l
  {
    if |ts| == 0 then []
    else
      var ls := LabelSeq(ts[0]) + LabelsOf(ts[1..]);
      assert forall i :: 1 <= i < |ts| ==> ts[i] == ts[1..][i - 1];
      assert forall l :: l in ls ==> exists i :: 0 <= i < |ts| && !ts[i].OtherTarget? && Label(ts[i]) == l by {
        forall l | l in ls ensures exists i :: 0 <= i < |ts| && !ts[i].OtherTarget? && Label(ts[i]) == l {
          if l !in LabelSeq(ts[0]) {
            var i :| 0 <= i < |ts[1..]| && !ts[1..][i].OtherTarget? && Label(ts[1..][i]) == l;
            assert ts[i + 1] == ts[1..][i];
          }
        }
      }
      assert forall i :: 0 <= i < |ts| && !ts[i].OtherTarget? ==> Label(ts[i]) in ls by {
        forall i | 0 <= i < |ts| && !ts[i].OtherTarget? ensures Label(ts[i]) in ls {
          if i > 0 {
            assert ts[1..][i - 1] == ts[i];
          }
        }
      }
      ls
  }

  /** Python's `list.remove(x)`: drops the first occurrence of `x`. */
  function RemoveFirst(s: seq<string>, x: string): (r: seq<string>)
    requires x in s
    ensures |r| == |s| - 1
  {
    if s[0] == x then s[1..] else [s[0]] + RemoveFirst(s[1..], x)
  }

  /** `remove` takes away one copy of `x` and nothing else. */
  lemma {:induction false} RemoveFirstMultiset(s: seq<string>, x: string)
    requires x in s
    ensures multiset(RemoveFirst(s, x)) == multiset(s) - multiset{x}
  {
    assert s == [s[0]] + s[1..];
    if s[0] != x {
      RemoveFirstMultiset(s[1..], x);
    }
  }

  /** Index of the first occurrence of `x`, as `list.index(x)`. */
  function FirstIndex(s: seq<string>, x: string): (i: nat)
    requires x in s
    ensures i < |s| && s[i] == x
    ensures forall k :: 0 <= k < i ==> s[k] != x
  {
    if s[0] == x then 0 else FirstIndex(s[1..], x) + 1
  }

  /** `remove` cuts out exactly the first occurrence. */
  lemma RemoveFirstCutsFirst(s: seq<string>, x: string)
    requires x in s
    ensures RemoveFirst(s, x) == s[..FirstIndex(s, x)] + s[FirstIndex(s, x) + 1..]
  {
    RemoveFirstAt(s, x, FirstIndex(s, x));
  }

  lemma {:induction false} RemoveFirstAt(s: seq<string>, x: string, i: nat)
    requires i < |s| && s[i] == x
    requires forall k :: 0 <= k < i ==> s[k] != x
    ensures x in s && RemoveFirst(s, x) == s[..i] + s[i + 1..]
    decreases i
  {
    assert s[i] in s;
    if i > 0 {
      var t := s[1..];
      RemoveFirstAt(t, x, i - 1);
      assert RemoveFirst(s, x) == [s[0]] + (t[..i - 1] + t[i..]);
      assert s[..i] == [s[0]] + t[..i - 1];
      assert s[i + 1..] == t[i..];
    }
  }

  /** The entries of `s` other than `x`, in their original order. */
  function Without(s: seq<string>, x: string): (r: seq<string>)
    ensures x !in r
    ensures forall y :: y in r ==> y in s
    ensures forall y :: y != x ==> multiset(r)[y] == multiset(s)[y]
  {
    if |s| == 0 then []
    else
      var rest := Without(s[1..], x);
      assert s == [s[0]] + s[1..];
      if s[0] == x then rest else [s[0]] + rest
  }

  /**
   * The positions in `s` of the entries `Without` keeps. They are strictly
   * increasing, so the kept entries appear in their original order.
   */
  function KeptPositions(s: seq<string>, x: string): (f: seq<nat>)
    ensures |f| == |Without(s, x)|
    ensures forall k :: 0 <= k < |f| ==> f[k] < |s| && s[f[k]] == Without(s, x)[k]
    ensures forall k, l :: 0 <= k < l < |f| ==> f[k] < f[l]
    decreases |s|
  {
    if |s| == 0 then []
    else
      var g := KeptPositions(s[1..], x);
      KeptStep(s, x, g);
      if s[0] == x then Shifted(g) else [0] + Shifted(g)
  }

  /** One step of `KeptPositions`: the positions kept in `s[1..]`, moved up by one, with 0 in front when `s[0]` is kept. */
  lemma KeptStep(s: seq<string>, x: string, g: seq<nat>)
    requires |s| > 0 && |g| == |Without(s[1..], x)|
    requires forall k :: 0 <= k < |g| ==> g[k] < |s| - 1 && s[1..][g[k]] == Without(s[1..], x)[k]
    requires forall k, l :: 0 <= k < l < |g| ==> g[k] < g[l]
    ensures var f := if s[0] == x then Shifted(g) else [0] + Shifted(g);
      && |f| == |Without(s, x)|
      && (forall k :: 0 <= k < |f| ==> f[k] < |s| && s[f[k]] == Without(s, x)[k])
      && (forall k, l :: 0 <= k < l < |f| ==> f[k] < f[l])
  {
    var h := Shifted(g);
    var kept := Without(s[1..], x);
    forall k | 0 <= k < |h| ensures 0 < h[k] < |s| && s[h[k]] == kept[k] {
      assert s[1..][g[k]] == s[g[k] + 1];
    }
    if s[0] == x {
      assert Without(s, x) == kept;
    } else {
      var f := [0] + h;
      var r := [s[0]] + kept;
      assert Without(s, x) == r;
      forall k | 0 < k < |f| ensures f[k] == h[k - 1] && r[k] == kept[k - 1] {
      }
    }
  }

  /** Every position moved up by one. */
  function Shifted(g: seq<nat>): (h: seq<nat>)
    ensures |h| == |g| && forall k :: 0 <= k < |g| ==> h[k] == g[k] + 1
  {
    if |g| == 0 then [] else [g[0] + 1] + Shifted(g[1..])
  }



  lemma {:induction false} WithoutAppend(a: seq<string>, b: seq<string>, x: string)
    ensures Without(a + b, x) == Without(a, x) + Without(b, x)
    decreases |a|
  {
    if |a| > 0 {
      assert (a + b)[1..] == a[1..] + b;
      WithoutAppend(a[1..], b, x);
    } else {
      assert a + b == b;
    }
  }

  /** Removing one occurrence of `y` does not change the entries other than `y`. */
  lemma {:induction false} WithoutRemoveFirst(s: seq<string>, y: string)
    requires y in s
    ensures Without(RemoveFirst(s, y), y) == Without(s, y)
    decreases |s|
  {
    if s[0] != y {
      WithoutRemoveFirst(s[1..], y);
      assert RemoveFirst(s, y)[1..] == RemoveFirst(s[1..], y);
    }
  }

  /**
   * The cleanup loop `for i in alist: if i == '': alist.remove(i)`, as Python
   * runs it: an index walk over a list that shrinks under it. At index `i`, an
   * empty entry makes `remove` drop the FIRST empty entry of the list, and the
   * walk moves on to index `i + 1` of the shortened list.
   */
  function CleanupFrom(s: seq<string>, i: nat): seq<string>
    decreases |s| - i
  {
    if i >= |s| then s
    else if s[i] == "" then CleanupFrom(RemoveFirst(s, ""), i + 1)
    else CleanupFrom(s, i + 1)
  }

  function Cleanup(s: seq<string>): seq<string> { CleanupFrom(s, 0) }

  /** The literal cleanup loop of `assign`/`unassign`. */
  method DropEmpty(alist: seq<string>) returns (r: seq<string>)
    ensures r == Cleanup(alist)
  {
    r := alist;
    var i := 0;
    while i < |r|
      invariant CleanupFrom(r, i) == Cleanup(alist)
      decreases |r| - i
    {
      if r[i] == "" {
        r := RemoveFirst(r, "");
      }
      i := i + 1;
    }
  }

  /** The cleanup keeps every non-empty entry, in order. */
  lemma {:induction false} CleanupKeepsEntries(s: seq<string>, i: nat)
    ensures Without(CleanupFrom(s, i), "") == Without(s, "")
    decreases |s| - i
  {
    if i < |s| {
      if s[i] == "" {
        CleanupKeepsEntries(RemoveFirst(s, ""), i + 1);
        WithoutRemoveFirst(s, "");
      } else {
        CleanupKeepsEntries(s, i + 1);
      }
    }
  }

  /** The cleanup only ever drops empty entries. */
  lemma {:induction false} CleanupDropsOnlyEmpty(s: seq<string>, i: nat)
    ensures multiset(CleanupFrom(s, i)) <= multiset(s)
    ensures forall y :: y != "" ==> multiset(CleanupFrom(s, i))[y] == multiset(s)[y]
    decreases |s| - i
  {
    if i < |s| {
      if s[i] == "" {
        assert s[i] in s;
        RemoveFirstMultiset(s, "");
        CleanupDropsOnlyEmpty(RemoveFirst(s, ""), i + 1);
      } else {
        CleanupDropsOnlyEmpty(s, i + 1);
      }
    }
  }

  /** With at most one empty entry, none survives the walk. */
  lemma {:induction false} CleanupSingleEmpty(s: seq<string>, i: nat)
    requires multiset(s)[""] <= 1
    requires forall k :: 0 <= k < i && k < |s| ==> s[k] != ""
    ensures "" !in CleanupFrom(s, i)
    decreases |s| - i
  {
    if i >= |s| {
      assert forall k :: 0 <= k < |s| ==> s[k] != "";
    } else if s[i] == "" {
      assert s[i] in s;
      var r := RemoveFirst(s, "");
      RemoveFirstMultiset(s, "");
      assert multiset(r)[""] == 0;
      CleanupSingleEmpty(r, i + 1);
    } else {
      CleanupSingleEmpty(s, i + 1);
    }
  }

  /** A freshly written record (`assign = ''`) cleans up to an empty list. */
  lemma CleanupOfFreshRecord()
    ensures Cleanup([""]) == []
  {
    assert CleanupFrom([""], 0) == CleanupFrom([], 1);
  }

  /**
   * Writing a list newline-joined, splitting it again and running the cleanup
   * keeps every non-empty entry as often as it was listed.
   */
  lemma RereadKeepsEntries(l: seq<string>)
    requires forall i :: 0 <= i < |l| ==> '\n' !in l[i]
    ensures forall y :: y != "" ==> multiset(Cleanup(Split(Join(l, '\n'), '\n')))[y] == multiset(l)[y]
  {
    if |l| == 0 {
      assert Split("", '\n') == [""];
      CleanupOfFreshRecord();
    } else {
      SplitJoin(l, '\n');
      CleanupDropsOnlyEmpty(l, 0);
    }
  }

  /**
   * Appending non-empty labels to a list, writing it newline-joined and
   * re-reading it with the cleanup, the labels can then be removed again, and
   * what remains lists every non-empty entry of the original list as often.
   */
  lemma RereadThenRemove(a: seq<string>, ls: seq<string>)
    requires forall i :: 0 <= i < |a| ==> '\n' !in a[i]
    requires forall i :: 0 <= i < |ls| ==> ls[i] != "" && '\n' !in ls[i]
    ensures var r := RemoveAll(Cleanup(Split(Join(a + ls, '\n'), '\n')), ls);
      && r.Some?
      && forall y :: y != "" ==> multiset(r.value)[y] == multiset(a)[y]
  {
    var l1 := a + ls;
    forall i | 0 <= i < |l1| ensures '\n' !in l1[i] {
      if i >= |a| {
        assert l1[i] == ls[i - |a|];
      }
    }
    var reread := Cleanup(Split(Join(l1, '\n'), '\n'));
    RereadKeepsEntries(l1);
    assert multiset(l1) == multiset(a) + multiset(ls);
    assert "" !in ls;
    assert multiset(ls) <= multiset(reread) by {
      forall y ensures multiset(ls)[y] <= multiset(reread)[y] {
        if y == "" {
          assert multiset(ls)[y] == 0;
        }
      }
    }
    RemoveAllMultiset(reread, ls);
  }

  /** Adjacent empty entries can survive: the walk skips the one that slid into the visited slot. */
  lemma CleanupLeavesAdjacentEmpty()
    ensures Cleanup(["", ""]) == [""]
    ensures Cleanup(["a", "", "", "b"]) == ["a", "", "b"]
  {
    assert RemoveFirst(["", ""], "") == [""];
    assert CleanupFrom(["", ""], 0) == CleanupFrom([""], 1);
    var s := ["a", "", "", "b"];
    assert RemoveFirst(s, "") == ["a", "", "b"] by {
      assert RemoveFirst(s, "") == ["a"] + RemoveFirst(s[1..], "");
      assert s[1..] == ["", "", "b"];
    }
    assert CleanupFrom(s, 1) == CleanupFrom(["a", "", "b"], 2);
  }

  /** `alist.remove(l)` for each label of `ls` in turn; `None` where Python raises `ValueError`. */
  function RemoveAll(s: seq<string>, ls: seq<string>): Option<seq<string>>
    decreases |ls|
  {
    if |ls| == 0 then Some(s)
    else if ls[0] in s then RemoveAll(RemoveFirst(s, ls[0]), ls[1..])
    else None
  }

  /** The removals succeed iff every label is present as often as it is removed, and then exactly those occurrences go. */
  lemma {:induction false} RemoveAllMultiset(s: seq<string>, ls: seq<string>)
    ensures RemoveAll(s, ls).Some? <==> multiset(ls) <= multiset(s)
    ensures RemoveAll(s, ls).Some? ==> multiset(RemoveAll(s, ls).value) == multiset(s) - multiset(ls)
    decreases |ls|
  {
    if |ls| > 0 {
      assert ls == [ls[0]] + ls[1..];
      assert multiset(ls) == multiset{ls[0]} + multiset(ls[1..]);
      if ls[0] in s {
        var s' := RemoveFirst(s, ls[0]);
        RemoveFirstMultiset(s, ls[0]);
        RemoveAllMultiset(s', ls[1..]);
        assert multiset(s) == multiset(s') + multiset{ls[0]};
      } else {
        assert multiset(s)[ls[0]] == 0;
        assert multiset(ls)[ls[0]] >= 1;
      }
    }
  }

  lemma {:induction false} RemoveFirstAfter(s: seq<string>, t: seq<string>, x: string)
    requires x !in s && x in t
    ensures RemoveFirst(s + t, x) == s + RemoveFirst(t, x)
    decreases |s|
  {
    if |s| > 0 {
      assert (s + t)[1..] == s[1..] + t;
      RemoveFirstAfter(s[1..], t, x);
      assert s == [s[0]] + s[1..];
    } else {
      assert s + t == t;
    }
  }

  /** Removing the labels just appended to a list that holds none of them restores the list exactly. */
  lemma {:induction false} RemoveAllAppended(s: seq<string>, ls: seq<string>)
    requires forall l :: l in ls ==> l !in s
    ensures RemoveAll(s + ls, ls) == Some(s)
    decreases |ls|
  {
    if |ls| == 0 {
      assert s + ls == s;
    } else {
      RemoveFirstAfter(s, ls, ls[0]);
      assert RemoveFirst(ls, ls[0]) == ls[1..];
      assert (s + ls)[..] == s + ls;
      assert s + ls[1..] == s + ls[1..];
      RemoveAllAppended(s, ls[1..]);
    }
  }

  /**
   * Filtering a split label list and joining it back leaves no entry equal to
   * the (non-empty) label that was filtered out.
   */
  lemma PurgedLabelAbsent(entries: seq<string>, dropped: string)
    requires dropped != ""
    requires forall i :: 0 <= i < |entries| ==> '\n' !in entries[i]
    ensures dropped !in Split(Join(Without(entries, dropped), '\n'), '\n')
  {
    var w := Without(entries, dropped);
    if |w| > 0 {
      forall i | 0 <= i < |w| ensures '\n' !in w[i] {
        assert w[i] in entries;
      }
      SplitJoin(w, '\n');
    }
  }
}
