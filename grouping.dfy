/**
 * `combine_rename_results`: merge per-dataset bundles into named groups and
 * rename the datasets no group claims. Both the current module
 * (datatools/datatools.py) and the older one (data_tools.py) carry the same
 * algorithm; they differ only in how absent maps are defaulted, which the
 * optional parameters of `CombineRenameResults` cover for both.
 */
module Grouping {
  import opened Results

  /** Group names with the predicate that claims datasets for them, in table order. */
  type GroupingMap = seq<(string, string -> bool)>

  /** Replacement names for datasets that no group claims. */
  type ShortNameMap = map<string, string>

  /** Index of the first group whose predicate accepts `dset`, if there is one. */
  function FirstMatch(grouping: GroupingMap, dset: string): (r: Option<nat>)
    ensures r.Some? ==> r.value < |grouping| && grouping[r.value].1(dset)
    ensures r.Some? ==> forall j :: 0 <= j < r.value ==> !grouping[j].1(dset)
    ensures r.None? <==> forall j :: 0 <= j < |grouping| ==> !grouping[j].1(dset)
  {
    if grouping == [] then None
    else if grouping[0].1(dset) then Some(0)
    else
      match FirstMatch(grouping[1..], dset)
      case None => None
      case Some(i) => Some(i + 1)
  }

  /** The group that claims `dset`: the first in table order whose predicate accepts it. */
  function GroupOf(grouping: GroupingMap, dset: string): Option<string> {
    match FirstMatch(grouping, dset)
    case None => None
    case Some(i) => Some(grouping[i].0)
  }

  /** `short_name_map.get(dset, dset)` */
  function ShortName(shortNames: ShortNameMap, dset: string): string {
    if dset in shortNames then shortNames[dset] else dset
  }

  /** The output key a dataset is written under: its group, or else its short name. */
  function Target(grouping: GroupingMap, shortNames: ShortNameMap, dset: string): string {
    match GroupOf(grouping, dset)
    case Some(g) => g
    case None => ShortName(shortNames, dset)
  }

  function GroupNames(grouping: GroupingMap): set<string> {
    set i | 0 <= i < |grouping| :: grouping[i].0
  }

  /** The condition of the naming warning: a group name is also a short-name target. */
  predicate NamesOverlap(grouping: GroupingMap, shortNames: ShortNameMap) {
    GroupNames(grouping) * shortNames.Values != {}
  }

  /**
   * Add every observable of `incoming` into the accumulated bundle `acc`.
   * An observable that `acc` lacks is a structure mismatch; observables only
   * `acc` has are kept as they are.
   */
  function Merge(acc: Bundle, incoming: Bundle): (r: Result<Bundle>)
    ensures r.Ok? <==> incoming.Keys <= acc.Keys
    ensures r.Err? ==> r.error == StructureMismatch
    ensures r.Ok? ==> r.value.Keys == acc.Keys
  {
    if incoming.Keys <= acc.Keys then
      Ok(map k | k in acc :: if k in incoming then Plus(acc[k], incoming[k]) else acc[k])
    else
      Err(StructureMismatch)
  }

  /** One iteration of the outer loop: file the bundle of `dset` into `out`. */
  function Absorb(out: ResultSet, dset: string, bundle: Bundle,
                  grouping: GroupingMap, shortNames: ShortNameMap): Result<ResultSet>
  {
    match GroupOf(grouping, dset)
    case Some(g) =>
      (match Lookup(out, g)
       case None => Ok(Put(out, g, bundle))
       case Some(acc) =>
         var merged :- Merge(acc, bundle);
         Ok(Put(out, g, merged)))
    case None => Ok(Put(out, ShortName(shortNames, dset), bundle))
  }

  /** What `combine_rename_results` returns: the datasets absorbed in iteration order. */
  function Combine(inputs: ResultSet, grouping: GroupingMap, shortNames: ShortNameMap): Result<ResultSet>
    decreases |inputs|
  {
    if inputs == [] then Ok([])
    else
      var out :- Combine(inputs[..|inputs| - 1], grouping, shortNames);
      var last := inputs[|inputs| - 1];
      Absorb(out, last.0, last.1, grouping, shortNames)
  }

  /** The bundles that group `g` claims, in iteration order. */
  function Members(inputs: ResultSet, grouping: GroupingMap, g: string): seq<Bundle>
    decreases |inputs|
  {
    if inputs == [] then []
    else
      var last := inputs[|inputs| - 1];
      Members(inputs[..|inputs| - 1], grouping, g)
        + (if GroupOf(grouping, last.0) == Some(g) then [last.1] else [])
  }

  /** Running sum of observable `k` over bundles seeded by the first one; bundles without `k` add nothing. */
  function Accumulated(ms: seq<Bundle>, k: string): Obs
    requires |ms| > 0 && k in ms[0]
    decreases |ms|
  {
    if |ms| == 1 then ms[0][k]
    else
      var sum := Accumulated(ms[..|ms| - 1], k);
      if k in ms[|ms| - 1] then Plus(sum, ms[|ms| - 1][k]) else sum
  }

  /** The group bundle the members sum to: the first member's observables, each summed over all members. */
  function Total(ms: seq<Bundle>): Bundle
    requires |ms| > 0
  {
    map k | k in ms[0] :: Accumulated(ms, k)
  }

  /** Every member after the first has only observables the first one has. */
  ghost predicate Compatible(ms: seq<Bundle>) {
    forall i :: 0 < i < |ms| ==> ms[i].Keys <= ms[0].Keys
  }

  /** No dataset outside any group is renamed onto the name `g`. */
  ghost predicate NoRenameOnto(inputs: ResultSet, grouping: GroupingMap, shortNames: ShortNameMap, g: string) {
    forall i :: 0 <= i < |inputs| && GroupOf(grouping, inputs[i].0).None? ==> ShortName(shortNames, inputs[i].0) != g
  }

  /** No dataset outside any group is renamed onto a group name. */
  ghost predicate RenamesAvoidGroups(inputs: ResultSet, grouping: GroupingMap, shortNames: ShortNameMap) {
    forall i :: 0 <= i < |inputs| && GroupOf(grouping, inputs[i].0).None? ==>
      ShortName(shortNames, inputs[i].0) !in GroupNames(grouping)
  }

  /**
   * The loop of `combine_rename_results`. `warned` is the naming warning,
   * raised before the loop; the result does not depend on it.
   */
  method CombineRenameResults(inHists: ResultSet, grouping: GroupingMap := [], shortNames: ShortNameMap := map[])
    returns (r: Result<ResultSet>, warned: bool)
    ensures warned == NamesOverlap(grouping, shortNames)
    ensures r == Combine(inHists, grouping, shortNames)
  {
    warned := GroupNames(grouping) * shortNames.Values != {};
    var out: ResultSet := [];
    var n := 0;
    while n < |inHists|
      invariant 0 <= n <= |inHists|
      invariant Combine(inHists[..n], grouping, shortNames) == Ok(out)
    {
      assert inHists[..n + 1][..n] == inHists[..n];
      var step := AbsorbDataset(out, inHists[n].0, inHists[n].1, grouping, shortNames);
      if step.Err? {
        CombineErrorSticks(inHists, grouping, shortNames, n + 1);
        r := Err(step.error);
        return;
      }
      out := step.value;
      n := n + 1;
    }
    assert inHists[..n] == inHists;
    r := Ok(out);
  }

  /**
   * The body of the outer loop: scan the groups in order, file the bundle
   * under the first that accepts the dataset and stop, or under the short
   * name when none does.
   */
  method AbsorbDataset(out: ResultSet, dset: string, results: Bundle,
                       grouping: GroupingMap, shortNames: ShortNameMap)
    returns (r: Result<ResultSet>)
    ensures r == Absorb(out, dset, results, grouping, shortNames)
  {
    var j := 0;
    while j < |grouping|
      invariant 0 <= j <= |grouping|
      invariant forall m :: 0 <= m < j ==> !grouping[m].1(dset)
    {
      var groupName, fn := grouping[j].0, grouping[j].1;
      if !fn(dset) {
        j := j + 1;
        continue;
      }
      assert FirstMatch(grouping, dset) == Some(j);
      var existing := Lookup(out, groupName);
      if existing.None? {
        return Ok(Put(out, groupName, results));
      }
      var merged := MergeInto(existing.value, results);
      if merged.Err? {
        return Err(merged.error);
      }
      return Ok(Put(out, groupName, merged.value));
    }
    r := Ok(Put(out, ShortName(shortNames, dset), results));
  }

  /** The inner `+=` loop over the observables of an incoming bundle. */
  method MergeInto(acc: Bundle, incoming: Bundle) returns (r: Result<Bundle>)
    ensures r == Merge(acc, incoming)
  {
    var merged := acc;
    var todo := incoming.Keys;
    while todo != {}
      invariant todo <= incoming.Keys
      invariant forall k :: k in incoming && k !in todo ==> k in acc
      invariant merged.Keys == acc.Keys
      invariant forall k :: k in acc ==>
        merged[k] == if k in incoming && k !in todo then Plus(acc[k], incoming[k]) else acc[k]
      decreases todo
    {
      var k :| k in todo;
      if k !in merged {
        return Err(StructureMismatch);
      }
      merged := merged[k := Plus(merged[k], incoming[k])];
      todo := todo - {k};
    }
    assert merged == Merge(acc, incoming).value;
    r := Ok(merged);
  }

  /** Once a prefix of the input fails, the whole call fails with the same error. */
  lemma {:induction false} CombineErrorSticks(inputs: ResultSet, grouping: GroupingMap, shortNames: ShortNameMap, m: nat)
    requires m <= |inputs|
    requires Combine(inputs[..m], grouping, shortNames).Err?
    ensures Combine(inputs, grouping, shortNames) == Combine(inputs[..m], grouping, shortNames)
    decreases |inputs|
  {
    if m < |inputs| {
      var init := inputs[..|inputs| - 1];
      assert init[..m] == inputs[..m];
      CombineErrorSticks(init, grouping, shortNames, m);
    } else {
      assert inputs[..m] == inputs;
    }
  }
}
