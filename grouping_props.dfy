/**
 * What `combine_rename_results` promises: first-match precedence, group
 * bundles that are the sum of their members, structure mismatches as the
 * only failure, renaming of unclaimed datasets with last-write-wins, and the
 * naming warning.
 */
module GroupingProps {
  import opened Results
  import opened Grouping

  /** The warning fires exactly when some short-name target is also a group name. */
  lemma NamesOverlapIff(grouping: GroupingMap, shortNames: ShortNameMap)
    ensures NamesOverlap(grouping, shortNames) <==>
      exists i, d :: 0 <= i < |grouping| && d in shortNames && shortNames[d] == grouping[i].0
  {
    if exists i, d :: 0 <= i < |grouping| && d in shortNames && shortNames[d] == grouping[i].0 {
      var i, d :| 0 <= i < |grouping| && d in shortNames && shortNames[d] == grouping[i].0;
      assert grouping[i].0 in GroupNames(grouping) * shortNames.Values;
    }
  }

  /** A group summed over a single member is that member. */
  lemma TotalOfOne(b: Bundle)
    ensures Total([b]) == b
  {
  }

  /** Adding one more member to a group adds its observables into the running sums. */
  lemma TotalStep(ms: seq<Bundle>, b: Bundle)
    requires |ms| > 0
    requires b.Keys <= ms[0].Keys
    ensures Merge(Total(ms), b) == Ok(Total(ms + [b]))
  {
    var ms' := ms + [b];
    assert ms'[..|ms'| - 1] == ms;
    assert ms'[0] == ms[0] && ms'[|ms'| - 1] == b;
    var merged := Merge(Total(ms), b).value;
    forall k | k in ms[0]
      ensures merged[k] == Total(ms')[k]
    {
      assert Accumulated(ms', k) == if k in b then Plus(Accumulated(ms, k), b[k]) else Accumulated(ms, k);
    }
    assert merged == Total(ms');
  }

  /** Claims by other groups leave the members of `g` as they were. */
  lemma MembersStep(inputs: ResultSet, grouping: GroupingMap, g: string)
    requires inputs != []
    ensures Members(inputs, grouping, g) ==
      Members(inputs[..|inputs| - 1], grouping, g)
        + (if GroupOf(grouping, inputs[|inputs| - 1].0) == Some(g) then [inputs[|inputs| - 1].1] else [])
  {
  }

  /** The bundle one step stores under its dataset's target key. */
  function Stored(out: ResultSet, dset: string, bundle: Bundle, grouping: GroupingMap): Bundle {
    match GroupOf(grouping, dset)
    case None => bundle
    case Some(g) =>
      match Lookup(out, g)
      case None => bundle
      case Some(acc) => if Merge(acc, bundle).Ok? then Merge(acc, bundle).value else bundle
  }

  /** A successful step is one dict assignment, to the target key of the dataset. */
  lemma AbsorbIsPut(out: ResultSet, dset: string, bundle: Bundle, grouping: GroupingMap, shortNames: ShortNameMap)
    requires Absorb(out, dset, bundle, grouping, shortNames).Ok?
    ensures Absorb(out, dset, bundle, grouping, shortNames).value ==
      Put(out, Target(grouping, shortNames, dset), Stored(out, dset, bundle, grouping))
  {
  }

  /** The group bundle of a member list: absent when nothing was claimed. */
  function GroupValue(ms: seq<Bundle>): Option<Bundle> {
    if ms == [] then None else Some(Total(ms))
  }

  /** One step keeps the group bundle of `g` equal to the sum of its members. */
  lemma AbsorbKeepsGroupValue(out: ResultSet, dset: string, bundle: Bundle, grouping: GroupingMap,
                              shortNames: ShortNameMap, g: string, ms: seq<Bundle>)
    requires Absorb(out, dset, bundle, grouping, shortNames).Ok?
    requires GroupOf(grouping, dset).None? ==> ShortName(shortNames, dset) != g
    requires Compatible(ms) && Lookup(out, g) == GroupValue(ms)
    ensures var ms' := ms + (if GroupOf(grouping, dset) == Some(g) then [bundle] else []);
      Compatible(ms') && Lookup(Absorb(out, dset, bundle, grouping, shortNames).value, g) == GroupValue(ms')
  {
    AbsorbIsPut(out, dset, bundle, grouping, shortNames);
    PutLookup(out, Target(grouping, shortNames, dset), Stored(out, dset, bundle, grouping), g);
    if GroupOf(grouping, dset) == Some(g) {
      if ms == [] {
        TotalOfOne(bundle);
        assert [] + [bundle] == [bundle];
      } else {
        TotalStep(ms, bundle);
        var ms' := ms + [bundle];
        assert ms'[0] == ms[0] && ms'[|ms|] == bundle;
        assert forall i :: 0 < i < |ms| ==> ms'[i] == ms[i];
      }
    } else {
      assert ms + [] == ms;
    }
  }

  /**
   * While nothing is renamed onto `g`, the output holds `g` exactly when some
   * dataset was claimed by `g`, and then its bundle is the observable-wise
   * sum of the claimed bundles, seeded by the first of them. A successful
   * call also means every later member had no observable the first lacked.
   */
  lemma {:induction false} GroupTotal(inputs: ResultSet, grouping: GroupingMap, shortNames: ShortNameMap, g: string)
    requires NoRenameOnto(inputs, grouping, shortNames, g)
    requires Combine(inputs, grouping, shortNames).Ok?
    ensures Compatible(Members(inputs, grouping, g))
    ensures Lookup(Combine(inputs, grouping, shortNames).value, g) == GroupValue(Members(inputs, grouping, g))
    decreases |inputs|
  {
    if inputs != [] {
      var init := inputs[..|inputs| - 1];
      var last := inputs[|inputs| - 1];
      assert NoRenameOnto(init, grouping, shortNames, g) by {
        forall i | 0 <= i < |init| && GroupOf(grouping, init[i].0).None?
          ensures ShortName(shortNames, init[i].0) != g
        {
          assert init[i] == inputs[i];
        }
      }
      GroupTotal(init, grouping, shortNames, g);
      MembersStep(inputs, grouping, g);
      AbsorbKeepsGroupValue(Combine(init, grouping, shortNames).value, last.0, last.1, grouping, shortNames,
                            g, Members(init, grouping, g));
    }
  }

  /** Extending a successful input by datasets keeps its prefixes successful. */
  lemma CombinePrefixOk(inputs: ResultSet, grouping: GroupingMap, shortNames: ShortNameMap, m: nat)
    requires m <= |inputs|
    requires Combine(inputs, grouping, shortNames).Ok?
    ensures Combine(inputs[..m], grouping, shortNames).Ok?
  {
    if Combine(inputs[..m], grouping, shortNames).Err? {
      CombineErrorSticks(inputs, grouping, shortNames, m);
    }
  }

  /**
   * While no unclaimed dataset is renamed onto a group name, the call
   * succeeds exactly when, in every group, no member has an observable that
   * the group's first member lacks.
   */
  lemma {:induction false} CombineOkIff(inputs: ResultSet, grouping: GroupingMap, shortNames: ShortNameMap)
    requires RenamesAvoidGroups(inputs, grouping, shortNames)
    ensures Combine(inputs, grouping, shortNames).Ok? <==>
      forall g :: g in GroupNames(grouping) ==> Compatible(Members(inputs, grouping, g))
    decreases |inputs|
  {
    if Combine(inputs, grouping, shortNames).Ok? {
      forall g | g in GroupNames(grouping) ensures Compatible(Members(inputs, grouping, g)) {
        GroupTotal(inputs, grouping, shortNames, g);
      }
    } else if inputs != [] {
      var init := inputs[..|inputs| - 1];
      var last := inputs[|inputs| - 1];
      assert RenamesAvoidGroups(init, grouping, shortNames) by {
        forall i | 0 <= i < |init| && GroupOf(grouping, init[i].0).None?
          ensures ShortName(shortNames, init[i].0) !in GroupNames(grouping)
        {
          assert init[i] == inputs[i];
        }
      }
      CombineOkIff(init, grouping, shortNames);
      if Combine(init, grouping, shortNames).Err? {
        var g :| g in GroupNames(grouping) && !Compatible(Members(init, grouping, g));
        assert !Compatible(Members(inputs, grouping, g)) by {
          var ms := Members(init, grouping, g);
          var i :| 0 < i < |ms| && !(ms[i].Keys <= ms[0].Keys);
          MembersStep(inputs, grouping, g);
          assert Members(inputs, grouping, g)[i] == ms[i];
          assert Members(inputs, grouping, g)[0] == ms[0];
        }
      } else {
        // The failing step is the last one: it merges into an existing group.
        var out := Combine(init, grouping, shortNames).value;
        var g := GroupOf(grouping, last.0).value;
        var k := FirstMatch(grouping, last.0).value;
        assert g in GroupNames(grouping) by {
          assert g == grouping[k].0;
        }
        var acc := Lookup(out, g).value;
        assert !(last.1.Keys <= acc.Keys);
        assert NoRenameOnto(init, grouping, shortNames, g) by {
          forall i | 0 <= i < |init| && GroupOf(grouping, init[i].0).None?
            ensures ShortName(shortNames, init[i].0) != g
          {
            assert init[i] == inputs[i];
          }
        }
        GroupTotal(init, grouping, shortNames, g);
        var ms := Members(init, grouping, g);
        MembersStep(inputs, grouping, g);
        var ms' := Members(inputs, grouping, g);
        assert ms' == ms + [last.1];
        assert ms'[|ms|] == last.1 && ms'[0] == ms[0];
      }
    }
  }

  /** The only way the call fails is a structure mismatch (`ValueError`). */
  lemma {:induction false} CombineFailsOnlyOnMismatch(inputs: ResultSet, grouping: GroupingMap, shortNames: ShortNameMap)
    ensures Combine(inputs, grouping, shortNames).Err? ==>
      Combine(inputs, grouping, shortNames).error == StructureMismatch
    decreases |inputs|
  {
    if inputs != [] {
      CombineFailsOnlyOnMismatch(inputs[..|inputs| - 1], grouping, shortNames);
    }
  }

  /** One step writes only the key its dataset targets. */
  lemma AbsorbWritesTarget(out: ResultSet, dset: string, bundle: Bundle,
                           grouping: GroupingMap, shortNames: ShortNameMap, n: string)
    requires Absorb(out, dset, bundle, grouping, shortNames).Ok?
    ensures n != Target(grouping, shortNames, dset) ==>
      Lookup(Absorb(out, dset, bundle, grouping, shortNames).value, n) == Lookup(out, n)
    ensures n in Names(Absorb(out, dset, bundle, grouping, shortNames).value) <==>
      n in Names(out) || n == Target(grouping, shortNames, dset)
  {
    AbsorbIsPut(out, dset, bundle, grouping, shortNames);
    PutLookup(out, Target(grouping, shortNames, dset), Stored(out, dset, bundle, grouping), n);
  }

  /**
   * An unclaimed dataset is stored under its short name with its bundle
   * unchanged, and it stays there unless a later dataset writes the same key.
   */
  lemma {:induction false} UnclaimedLastWrite(inputs: ResultSet, grouping: GroupingMap, shortNames: ShortNameMap, j: nat)
    requires j < |inputs|
    requires GroupOf(grouping, inputs[j].0).None?
    requires forall i :: j < i < |inputs| ==>
      Target(grouping, shortNames, inputs[i].0) != ShortName(shortNames, inputs[j].0)
    requires Combine(inputs, grouping, shortNames).Ok?
    ensures Lookup(Combine(inputs, grouping, shortNames).value, ShortName(shortNames, inputs[j].0)) == Some(inputs[j].1)
    decreases |inputs|
  {
    var init := inputs[..|inputs| - 1];
    var last := inputs[|inputs| - 1];
    var n := ShortName(shortNames, inputs[j].0);
    CombinePrefixOk(inputs, grouping, shortNames, |inputs| - 1);
    var out := Combine(init, grouping, shortNames).value;
    if j == |inputs| - 1 {
      PutLookup(out, n, last.1, n);
    } else {
      assert init[j] == inputs[j];
      forall i | j < i < |init| ensures Target(grouping, shortNames, init[i].0) != n {
        assert init[i] == inputs[i];
      }
      UnclaimedLastWrite(init, grouping, shortNames, j);
      AbsorbWritesTarget(out, last.0, last.1, grouping, shortNames, n);
    }
  }

  /** The output never holds a key twice. */
  lemma {:induction false} CombineIsDict(inputs: ResultSet, grouping: GroupingMap, shortNames: ShortNameMap)
    requires Combine(inputs, grouping, shortNames).Ok?
    ensures IsDict(Combine(inputs, grouping, shortNames).value)
    decreases |inputs|
  {
    if inputs != [] {
      var init := inputs[..|inputs| - 1];
      var last := inputs[|inputs| - 1];
      CombinePrefixOk(inputs, grouping, shortNames, |inputs| - 1);
      CombineIsDict(init, grouping, shortNames);
      var out := Combine(init, grouping, shortNames).value;
      AbsorbIsPut(out, last.0, last.1, grouping, shortNames);
      PutKeepsDict(out, Target(grouping, shortNames, last.0), Stored(out, last.0, last.1, grouping));
    }
  }

  /** Some input dataset targets the key `n`. */
  ghost predicate Targeted(inputs: ResultSet, grouping: GroupingMap, shortNames: ShortNameMap, n: string) {
    exists i :: 0 <= i < |inputs| && Target(grouping, shortNames, inputs[i].0) == n
  }

  /** A key is targeted by the inputs exactly when the prefix or the last dataset targets it. */
  lemma TargetedStep(inputs: ResultSet, grouping: GroupingMap, shortNames: ShortNameMap, n: string)
    requires inputs != []
    ensures Targeted(inputs, grouping, shortNames, n) <==>
      Targeted(inputs[..|inputs| - 1], grouping, shortNames, n)
      || Target(grouping, shortNames, inputs[|inputs| - 1].0) == n
  {
    var init := inputs[..|inputs| - 1];
    if Targeted(init, grouping, shortNames, n) {
      var i :| 0 <= i < |init| && Target(grouping, shortNames, init[i].0) == n;
      assert inputs[i] == init[i];
    }
    if Targeted(inputs, grouping, shortNames, n) {
      var i :| 0 <= i < |inputs| && Target(grouping, shortNames, inputs[i].0) == n;
      if i < |init| {
        assert inputs[i] == init[i];
      }
    }
  }

  /** The output keys are exactly the targets of the input datasets: no dataset is lost. */
  lemma {:induction false} CombineKeys(inputs: ResultSet, grouping: GroupingMap, shortNames: ShortNameMap, n: string)
    requires Combine(inputs, grouping, shortNames).Ok?
    ensures n in Names(Combine(inputs, grouping, shortNames).value) <==> Targeted(inputs, grouping, shortNames, n)
    decreases |inputs|
  {
    if inputs != [] {
      var init := inputs[..|inputs| - 1];
      var last := inputs[|inputs| - 1];
      CombinePrefixOk(inputs, grouping, shortNames, |inputs| - 1);
      CombineKeys(init, grouping, shortNames, n);
      var out := Combine(init, grouping, shortNames).value;
      assert Combine(inputs, grouping, shortNames) == Absorb(out, last.0, last.1, grouping, shortNames);
      AbsorbWritesTarget(out, last.0, last.1, grouping, shortNames, n);
      TargetedStep(inputs, grouping, shortNames, n);
    }
  }

  /** With no groups and no short names the output is the input. */
  lemma {:induction false} CombineWithoutMaps(inputs: ResultSet)
    requires IsDict(inputs)
    ensures Combine(inputs, [], map[]) == Ok(inputs)
    decreases |inputs|
  {
    if inputs != [] {
      var init := inputs[..|inputs| - 1];
      var last := inputs[|inputs| - 1];
      assert IsDict(init);
      CombineWithoutMaps(init);
      assert last.0 !in Names(init);
      assert FirstMatch([], last.0) == None;
      assert init + [last] == inputs;
    }
  }

  /** A dataset accepted by two groups lands in the one declared first, never in the other. */
  lemma FirstMatchWins(x: string, b: Bundle, nameA: string, predA: string -> bool,
                       nameB: string, predB: string -> bool, shortNames: ShortNameMap)
    requires predA(x) && predB(x)
    ensures Combine([(x, b)], [(nameA, predA), (nameB, predB)], shortNames) == Ok([(nameA, b)])
  {
    var grouping: GroupingMap := [(nameA, predA), (nameB, predB)];
    assert FirstMatch(grouping, x) == Some(0);
    assert [(x, b)][..0] == [];
  }

  /** Two datasets of one group sum observable by observable: 3 + 4 is 7. */
  lemma AdditivityExample(accept: string -> bool)
    requires accept("d1") && accept("d2")
    ensures Combine([("d1", map["n" := Number(3.0)]), ("d2", map["n" := Number(4.0)])],
                    [("g", accept)], map[])
            == Ok([("g", map["n" := Number(7.0)])])
  {
    var b1, b2 := map["n" := Number(3.0)], map["n" := Number(4.0)];
    var inputs: ResultSet := [("d1", b1), ("d2", b2)];
    var grouping: GroupingMap := [("g", accept)];
    assert FirstMatch(grouping, "d1") == Some(0) && FirstMatch(grouping, "d2") == Some(0);
    assert inputs[..1] == [("d1", b1)] && [("d1", b1)][..0] == [];
    assert Combine(inputs[..1], grouping, map[]) == Ok([("g", b1)]);
    var m := Merge(b1, b2).value;
    assert m.Keys == {"n"};
    assert m["n"] == Number(7.0);
    assert m == map["n" := Number(7.0)];
    assert GroupOf(grouping, "d2") == Some("g");
    assert Lookup([("g", b1)], "g") == Some(b1);
    assert Put([("g", b1)], "g", m) == [("g", m)];
    assert inputs[..|inputs| - 1] == inputs[..1];
    assert Combine(inputs, grouping, map[]) == Absorb([("g", b1)], "d2", b2, grouping, map[]);
  }

  /** Bundles with different observables in one group are rejected. */
  lemma MismatchExample(accept: string -> bool)
    requires accept("d1") && accept("d2")
    ensures Combine([("d1", map["n" := Number(1.0)]), ("d2", map["m" := Number(1.0)])],
                    [("g", accept)], map[])
            == Err(StructureMismatch)
  {
    var inputs: ResultSet := [("d1", map["n" := Number(1.0)]), ("d2", map["m" := Number(1.0)])];
    var grouping: GroupingMap := [("g", accept)];
    assert inputs[..1] == [inputs[0]] && [inputs[0]][..0] == [];
    assert FirstMatch(grouping, "d1") == Some(0) && FirstMatch(grouping, "d2") == Some(0);
    assert "m" !in map["n" := Number(1.0)];
  }
}
