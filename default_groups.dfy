/**
 * The default grouping tables of the current module (datatools/datatools.py)
 * and of the older one (data_tools.py). Every predicate is a test on the
 * prefix of the dataset name; the two tables differ only in whether Diboson
 * also claims names starting with "/WZ".
 */
module DefaultGroups {
  import opened Results
  import opened Grouping

  /** `dset.startswith(prefix)` */
  predicate StartsWith(dset: string, prefix: string) {
    prefix <= dset
  }

  predicate IsQcd(dset: string) { StartsWith(dset, "/QCD") }

  predicate IsZJets(dset: string) { StartsWith(dset, "/Zto") }

  predicate IsTtbar(dset: string) { StartsWith(dset, "/TTto") }

  predicate IsSingleTop(dset: string) {
    StartsWith(dset, "/TWminus") || StartsWith(dset, "/TbarWplus")
  }

  /** Diboson in the current table: WW, WZ and ZZ samples. */
  predicate IsDiboson(dset: string) {
    StartsWith(dset, "/WWto") || StartsWith(dset, "/WZ") || StartsWith(dset, "/ZZto")
  }

  /** Diboson in the older table: WW and ZZ samples only. */
  predicate IsLegacyDiboson(dset: string) {
    StartsWith(dset, "/WWto") || StartsWith(dset, "/ZZto")
  }

  /** `DEFAULT_GROUPING_MAP` of the current module, in its insertion order. */
  const DefaultGroupingMap: GroupingMap :=
    [("QCD", IsQcd), ("ZJets", IsZJets), ("ttbar", IsTtbar), ("SingleTop", IsSingleTop), ("Diboson", IsDiboson)]

  /** `DEFAULT_GROUPING_MAP` of the older module, in its insertion order. */
  const LegacyDefaultGroupingMap: GroupingMap :=
    [("QCD", IsQcd), ("ZJets", IsZJets), ("ttbar", IsTtbar), ("SingleTop", IsSingleTop), ("Diboson", IsLegacyDiboson)]

  /** No dataset name is accepted by two predicates of `grouping`. */
  ghost predicate Disjoint(grouping: GroupingMap) {
    forall i, j, dset :: 0 <= i < j < |grouping| ==> !(grouping[i].1(dset) && grouping[j].1(dset))
  }

  /**
   * With disjoint predicates the table order is irrelevant: a dataset lands
   * in group `g` exactly when some entry named `g` accepts it.
   */
  lemma DisjointClaims(grouping: GroupingMap, dset: string, g: string)
    requires Disjoint(grouping)
    ensures GroupOf(grouping, dset) == Some(g) <==>
      exists i :: 0 <= i < |grouping| && grouping[i].0 == g && grouping[i].1(dset)
  {
  }

  /** Two prefixes that disagree at some position never both start one name. */
  lemma PrefixesClash(dset: string, p: string, q: string, k: nat)
    requires k < |p| && k < |q| && p[k] != q[k]
    ensures StartsWith(dset, p) ==> !StartsWith(dset, q)
  {
  }

  /** The five default groups of the current table never claim the same dataset. */
  lemma DefaultDisjoint()
    ensures Disjoint(DefaultGroupingMap)
  {
    forall i, j, dset | 0 <= i < j < |DefaultGroupingMap|
      ensures !(DefaultGroupingMap[i].1(dset) && DefaultGroupingMap[j].1(dset))
    {
      PrefixesClash(dset, "/QCD", "/Zto", 1);
      PrefixesClash(dset, "/QCD", "/TTto", 1);
      PrefixesClash(dset, "/QCD", "/TWminus", 1);
      PrefixesClash(dset, "/QCD", "/TbarWplus", 1);
      PrefixesClash(dset, "/QCD", "/WWto", 1);
      PrefixesClash(dset, "/QCD", "/WZ", 1);
      PrefixesClash(dset, "/QCD", "/ZZto", 1);
      PrefixesClash(dset, "/Zto", "/TTto", 1);
      PrefixesClash(dset, "/Zto", "/TWminus", 1);
      PrefixesClash(dset, "/Zto", "/TbarWplus", 1);
      PrefixesClash(dset, "/Zto", "/WWto", 1);
      PrefixesClash(dset, "/Zto", "/WZ", 1);
      PrefixesClash(dset, "/Zto", "/ZZto", 2);
      PrefixesClash(dset, "/TTto", "/TWminus", 2);
      PrefixesClash(dset, "/TTto", "/TbarWplus", 2);
      PrefixesClash(dset, "/TTto", "/WWto", 1);
      PrefixesClash(dset, "/TTto", "/WZ", 1);
      PrefixesClash(dset, "/TTto", "/ZZto", 1);
      PrefixesClash(dset, "/TWminus", "/WWto", 1);
      PrefixesClash(dset, "/TWminus", "/WZ", 1);
      PrefixesClash(dset, "/TWminus", "/ZZto", 1);
      PrefixesClash(dset, "/TbarWplus", "/WWto", 1);
      PrefixesClash(dset, "/TbarWplus", "/WZ", 1);
      PrefixesClash(dset, "/TbarWplus", "/ZZto", 1);
    }
  }

  /** The five default groups of the older table never claim the same dataset. */
  lemma LegacyDefaultDisjoint()
    ensures Disjoint(LegacyDefaultGroupingMap)
  {
    DefaultDisjoint();
    assert forall m, dset :: 0 <= m < 5 && LegacyDefaultGroupingMap[m].1(dset) ==> DefaultGroupingMap[m].1(dset);
  }

  /**
   * The two tables file a dataset differently exactly when its name starts
   * with "/WZ": the current table puts it in Diboson, the older one in no group.
   */
  lemma TablesDifferOnlyOnWZ(dset: string)
    ensures GroupOf(DefaultGroupingMap, dset) != GroupOf(LegacyDefaultGroupingMap, dset) <==> StartsWith(dset, "/WZ")
    ensures StartsWith(dset, "/WZ") ==>
      GroupOf(DefaultGroupingMap, dset) == Some("Diboson") && GroupOf(LegacyDefaultGroupingMap, dset).None?
  {
    PrefixesClash(dset, "/WZ", "/WWto", 2);
    PrefixesClash(dset, "/WZ", "/ZZto", 1);
    PrefixesClash(dset, "/WZ", "/QCD", 1);
    PrefixesClash(dset, "/WZ", "/Zto", 1);
    PrefixesClash(dset, "/WZ", "/TTto", 1);
    PrefixesClash(dset, "/WZ", "/TWminus", 1);
    PrefixesClash(dset, "/WZ", "/TbarWplus", 1);
    if StartsWith(dset, "/WZ") {
      assert forall j :: 0 <= j < 4 ==> !DefaultGroupingMap[j].1(dset);
      assert DefaultGroupingMap[4].1(dset);
      assert FirstMatch(DefaultGroupingMap, dset) == Some(4);
      assert forall j :: 0 <= j < 5 ==> !LegacyDefaultGroupingMap[j].1(dset);
    } else {
      assert IsDiboson(dset) == IsLegacyDiboson(dset);
      assert forall j :: 0 <= j < 5 ==> DefaultGroupingMap[j].1(dset) == LegacyDefaultGroupingMap[j].1(dset);
      assert FirstMatch(DefaultGroupingMap, dset) == FirstMatch(LegacyDefaultGroupingMap, dset);
    }
  }

  /** Both tables create the same five group names. */
  lemma DefaultGroupNames()
    ensures GroupNames(DefaultGroupingMap) == {"QCD", "ZJets", "ttbar", "SingleTop", "Diboson"}
    ensures GroupNames(LegacyDefaultGroupingMap) == GroupNames(DefaultGroupingMap)
  {
    assert DefaultGroupingMap[0].0 == "QCD";
    assert DefaultGroupingMap[1].0 == "ZJets";
    assert DefaultGroupingMap[2].0 == "ttbar";
    assert DefaultGroupingMap[3].0 == "SingleTop";
    assert DefaultGroupingMap[4].0 == "Diboson";
    assert forall i :: 0 <= i < 5 ==> LegacyDefaultGroupingMap[i].0 == DefaultGroupingMap[i].0;
  }
}
