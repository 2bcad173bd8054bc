/**
 * `XSecScaler`: scale simulated results to the luminosity recorded in the
 * data results, then group and rename both sides. The filesets and result
 * sets arrive already parsed. The current class (datatools/datatools.py) and
 * the older one (data_tools.py) differ only in the `scale_results` they call
 * and in the default grouping table for simulation, so one class with a
 * `version` covers both.
 */
module Coordinator {
  import opened Results
  import opened Grouping
  import opened Scaling
  import opened DefaultGroups

  /** Which of the two modules the scaler comes from. */
  datatype Version = Current | Legacy

  /**
   * The `"metadata"` dict of one fileset entry, reduced to the keys read
   * here: `"xsec"`, `"short_name"` and a nested `"metadata"` dict.
   */
  datatype Metadata = Metadata(xsec: Option<real>, shortName: Option<string>, nested: Option<Metadata>)

  /** A fileset: dataset name to its `"metadata"` entry, `None` when the entry has none. */
  type Fileset = map<string, Option<Metadata>>

  /** The default `grouping_map_mc` of each version. */
  function DefaultMcGrouping(version: Version): GroupingMap {
    match version
    case Current => DefaultGroupingMap
    case Legacy => LegacyDefaultGroupingMap
  }

  /**
   * `fs[dset]["metadata"]["xsec"]`, and on a `KeyError` the nested layout
   * `fs[dset]["metadata"]["metadata"]["xsec"]`; a failing fallback raises
   * the `KeyError` of the key it misses.
   */
  function LookupXsec(fs: Fileset, dset: string): (r: Result<real>)
    ensures r.Ok? <==>
      && dset in fs && fs[dset].Some?
      && (fs[dset].value.xsec.Some? || (fs[dset].value.nested.Some? && fs[dset].value.nested.value.xsec.Some?))
    ensures r.Ok? && fs[dset].value.xsec.Some? ==> r.value == fs[dset].value.xsec.value
    ensures r.Ok? && fs[dset].value.xsec.None? ==> r.value == fs[dset].value.nested.value.xsec.value
    ensures dset !in fs ==> r == Err(KeyLookup(dset))
    ensures dset in fs && fs[dset].None? ==> r == Err(KeyLookup("metadata"))
  {
    if dset !in fs then Err(KeyLookup(dset))
    else if fs[dset].None? then Err(KeyLookup("metadata"))
    else
      var meta := fs[dset].value;
      if meta.xsec.Some? then Ok(meta.xsec.value)
      else if meta.nested.None? then Err(KeyLookup("metadata"))
      else if meta.nested.value.xsec.None? then Err(KeyLookup("xsec"))
      else Ok(meta.nested.value.xsec.value)
  }

  /** The luminosity of the data: `Luminosity` summed over the bundles, a `KeyError` if one lacks it. */
  function TotalLuminosity(data: ResultSet): Result<real>
    decreases |data|
  {
    if data == [] then Ok(0.0)
    else
      var sum :- TotalLuminosity(data[..|data| - 1]);
      var last := data[|data| - 1].1;
      if "Luminosity" in last then Ok(sum + last["Luminosity"].v) else Err(KeyLookup("Luminosity"))
  }

  /** Once a prefix fails, the whole sum fails with the same error. */
  lemma {:induction false} LuminosityErrorSticks(data: ResultSet, m: nat)
    requires m <= |data|
    requires TotalLuminosity(data[..m]).Err?
    ensures TotalLuminosity(data) == TotalLuminosity(data[..m])
    decreases |data|
  {
    if m < |data| {
      var init := data[..|data| - 1];
      assert init[..m] == data[..m];
      LuminosityErrorSticks(init, m);
    } else {
      assert data[..m] == data;
    }
  }

  /** The luminosity loop of the constructor. */
  method SumLuminosity(data: ResultSet) returns (r: Result<real>)
    ensures r == TotalLuminosity(data)
  {
    var lumi := 0.0;
    for n := 0 to |data|
      invariant TotalLuminosity(data[..n]) == Ok(lumi)
    {
      var results := data[n].1;
      assert data[..n + 1][..n] == data[..n];
      if "Luminosity" !in results {
        LuminosityErrorSticks(data, n + 1);
        return Err(KeyLookup("Luminosity"));
      }
      lumi := lumi + results["Luminosity"].v;
    }
    assert data[..|data|] == data;
    r := Ok(lumi);
  }

  /**
   * The cross sections and raw event counts `_scale_mc` collects, one
   * dataset at a time: the cross section lookup first, then `RawEventCount`.
   */
  function ScaleInputs(mc: ResultSet, fs: Fileset): Result<(map<string, real>, map<string, real>)>
    decreases |mc|
  {
    if mc == [] then Ok((map[], map[]))
    else
      var acc :- ScaleInputs(mc[..|mc| - 1], fs);
      var last := mc[|mc| - 1];
      var xsec :- LookupXsec(fs, last.0);
      if "RawEventCount" in last.1 then Ok((acc.0[last.0 := xsec], acc.1[last.0 := last.1["RawEventCount"].v]))
      else Err(KeyLookup("RawEventCount"))
  }

  /** Once a prefix fails, the whole collection fails with the same error. */
  lemma {:induction false} ScaleInputsErrorSticks(mc: ResultSet, fs: Fileset, m: nat)
    requires m <= |mc|
    requires ScaleInputs(mc[..m], fs).Err?
    ensures ScaleInputs(mc, fs) == ScaleInputs(mc[..m], fs)
    decreases |mc|
  {
    if m < |mc| {
      var init := mc[..|mc| - 1];
      assert init[..m] == mc[..m];
      ScaleInputsErrorSticks(init, fs, m);
    } else {
      assert mc[..m] == mc;
    }
  }

  /** The collection loop of `_scale_mc`. */
  method CollectScaleInputs(mc: ResultSet, fs: Fileset) returns (r: Result<(map<string, real>, map<string, real>)>)
    ensures r == ScaleInputs(mc, fs)
  {
    var xsecs: map<string, real> := map[];
    var evtCnts: map<string, real> := map[];
    for n := 0 to |mc|
      invariant ScaleInputs(mc[..n], fs) == Ok((xsecs, evtCnts))
    {
      var dset := mc[n].0;
      assert mc[..n + 1][..n] == mc[..n];
      assert mc[..n + 1][n] == mc[n];
      var xsec := LookupXsec(fs, dset);
      if xsec.Err? {
        ScaleInputsErrorSticks(mc, fs, n + 1);
        return Err(xsec.error);
      }
      xsecs := xsecs[dset := xsec.value];
      if "RawEventCount" !in mc[n].1 {
        ScaleInputsErrorSticks(mc, fs, n + 1);
        return Err(KeyLookup("RawEventCount"));
      }
      evtCnts := evtCnts[dset := mc[n].1["RawEventCount"].v];
    }
    assert mc[..|mc|] == mc;
    r := Ok((xsecs, evtCnts));
  }

  /** `metadata.get("short_name", dset)` */
  function ShortNameOf(meta: Metadata, dset: string): string {
    match meta.shortName
    case Some(s) => s
    case None => dset
  }

  /**
   * The short-name map `_scale_combine_mc` and `_combine_data` build:
   * `fs[dset]["metadata"].get("short_name", dset)` for every dataset.
   */
  function ShortNames(results: ResultSet, fs: Fileset): Result<ShortNameMap>
    decreases |results|
  {
    if results == [] then Ok(map[])
    else
      var acc :- ShortNames(results[..|results| - 1], fs);
      var dset := results[|results| - 1].0;
      if dset !in fs then Err(KeyLookup(dset))
      else if fs[dset].None? then Err(KeyLookup("metadata"))
      else Ok(acc[dset := ShortNameOf(fs[dset].value, dset)])
  }

  /** Once a prefix fails, the whole map fails with the same error. */
  lemma {:induction false} ShortNamesErrorSticks(results: ResultSet, fs: Fileset, m: nat)
    requires m <= |results|
    requires ShortNames(results[..m], fs).Err?
    ensures ShortNames(results, fs) == ShortNames(results[..m], fs)
    decreases |results|
  {
    if m < |results| {
      var init := results[..|results| - 1];
      assert init[..m] == results[..m];
      ShortNamesErrorSticks(init, fs, m);
    } else {
      assert results[..m] == results;
    }
  }

  /** The short-name loop of `_scale_combine_mc` and `_combine_data`. */
  method CollectShortNames(results: ResultSet, fs: Fileset) returns (r: Result<ShortNameMap>)
    ensures r == ShortNames(results, fs)
  {
    var shortNames: ShortNameMap := map[];
    for n := 0 to |results|
      invariant ShortNames(results[..n], fs) == Ok(shortNames)
    {
      var dset := results[n].0;
      assert results[..n + 1][..n] == results[..n];
      assert results[..n + 1][n] == results[n];
      if dset !in fs {
        ShortNamesErrorSticks(results, fs, n + 1);
        return Err(KeyLookup(dset));
      }
      if fs[dset].None? {
        ShortNamesErrorSticks(results, fs, n + 1);
        return Err(KeyLookup("metadata"));
      }
      shortNames := shortNames[dset := ShortNameOf(fs[dset].value, dset)];
    }
    assert results[..|results|] == results;
    r := Ok(shortNames);
  }

  /** `scaled_mc`: the simulated results scaled by the `scale_results` of the version. */
  function ScaledMcOf(version: Version, mc: ResultSet, lumi: real, fsMc: Fileset): Result<ResultSet> {
    var inputs :- ScaleInputs(mc, fsMc);
    match version
    case Current => Scale(mc, lumi, inputs.0, inputs.1, DefaultDontScale)
    case Legacy => LegacyScale(mc, lumi, inputs.0, inputs.1, DefaultDontScale)
  }

  /** A grouped and renamed view: the short names from the fileset, then `combine_rename_results`. */
  function CombinedOf(results: ResultSet, fs: Fileset, grouping: GroupingMap): Result<ResultSet> {
    var shortNames :- ShortNames(results, fs);
    Combine(results, grouping, shortNames)
  }

  /** Whether building that view issues the naming warning (it is issued before grouping starts). */
  function CombineWarns(results: ResultSet, fs: Fileset, grouping: GroupingMap): bool {
    match ShortNames(results, fs)
    case Ok(shortNames) => NamesOverlap(grouping, shortNames)
    case Err(_) => false
  }

  /** `scaled_combined_mc`: the scaled simulation, grouped and renamed. */
  function ScaledCombinedMcOf(version: Version, mc: ResultSet, lumi: real, fsMc: Fileset,
                              grouping: GroupingMap): Result<ResultSet> {
    var scaled :- ScaledMcOf(version, mc, lumi, fsMc);
    CombinedOf(scaled, fsMc, grouping)
  }

  /**
   * The scaler: the inputs it was built from, the luminosity summed at
   * construction, and three views, each `None` until first requested and
   * then kept. A builder that raises leaves its view `None`, so a later
   * request tries again; the ghost counters record how many times each
   * view was stored.
   */
  class XSecScaler {
    const version: Version
    const data: ResultSet
    const mc: ResultSet
    const fsData: Fileset
    const fsMc: Fileset
    const groupingMc: GroupingMap
    const groupingData: GroupingMap
    const lumi: real

    var scaledMcCache: Option<ResultSet>
    var scaledCombinedMcCache: Option<ResultSet>
    var combinedDataCache: Option<ResultSet>

    ghost var scaledMcBuilds: nat
    ghost var scaledCombinedMcBuilds: nat
    ghost var combinedDataBuilds: nat

    /**
     * The luminosity is that of the data; every stored view is the one its
     * specification computes, and was stored once; the grouped simulation
     * is only ever stored after the scaled one.
     */
    ghost predicate Valid()
      reads this
    {
      && TotalLuminosity(data) == Ok(lumi)
      && (scaledMcCache.Some? ==> ScaledMcOf(version, mc, lumi, fsMc) == Ok(scaledMcCache.value))
      && (scaledCombinedMcCache.Some? ==>
            && scaledMcCache.Some?
            && CombinedOf(scaledMcCache.value, fsMc, groupingMc) == Ok(scaledCombinedMcCache.value))
      && (combinedDataCache.Some? ==> CombinedOf(data, fsData, groupingData) == Ok(combinedDataCache.value))
      && scaledMcBuilds == (if scaledMcCache.Some? then 1 else 0)
      && scaledCombinedMcBuilds == (if scaledCombinedMcCache.Some? then 1 else 0)
      && combinedDataBuilds == (if combinedDataCache.Some? then 1 else 0)
    }

    /** The field set-up of `__init__`, given the luminosity its loop sums. */
    constructor (version: Version, data: ResultSet, mc: ResultSet, fsData: Fileset, fsMc: Fileset,
                 groupingMc: GroupingMap, groupingData: GroupingMap, lumi: real)
      requires TotalLuminosity(data) == Ok(lumi)
      ensures Valid()
      ensures this.version == version && this.data == data && this.mc == mc
      ensures this.fsData == fsData && this.fsMc == fsMc
      ensures this.groupingMc == groupingMc && this.groupingData == groupingData
      ensures this.lumi == lumi
      ensures scaledMcCache.None? && scaledCombinedMcCache.None? && combinedDataCache.None?
    {
      this.version := version;
      this.data := data;
      this.mc := mc;
      this.fsData := fsData;
      this.fsMc := fsMc;
      this.groupingMc := groupingMc;
      this.groupingData := groupingData;
      this.lumi := lumi;
      scaledMcCache := None;
      scaledCombinedMcCache := None;
      combinedDataCache := None;
      scaledMcBuilds := 0;
      scaledCombinedMcBuilds := 0;
      combinedDataBuilds := 0;
    }

    /**
     * `XSecScaler(data, mc, fs_data, fs_mc, grouping_map_mc, grouping_map_data)`:
     * sums the luminosity and fails with its `KeyError` when a data bundle
     * lacks `Luminosity`; the groupings default to the version's table and
     * to no groups.
     */
    static method Create(version: Version, data: ResultSet, mc: ResultSet, fsData: Fileset, fsMc: Fileset,
                         groupingMc: GroupingMap := DefaultMcGrouping(version), groupingData: GroupingMap := [])
      returns (r: Result<XSecScaler>)
      ensures r.Err? <==> TotalLuminosity(data).Err?
      ensures r.Err? ==> r.error == TotalLuminosity(data).error
      ensures r.Ok? ==> fresh(r.value) && r.value.Valid() && r.value.lumi == TotalLuminosity(data).value
      ensures r.Ok? ==> r.value.version == version && r.value.data == data && r.value.mc == mc
      ensures r.Ok? ==> r.value.fsData == fsData && r.value.fsMc == fsMc
      ensures r.Ok? ==> r.value.groupingMc == groupingMc && r.value.groupingData == groupingData
      ensures r.Ok? ==> r.value.scaledMcCache.None? && r.value.scaledCombinedMcCache.None? && r.value.combinedDataCache.None?
    {
      var lumi := SumLuminosity(data);
      if lumi.Err? {
        return Err(lumi.error);
      }
      var scaler := new XSecScaler(version, data, mc, fsData, fsMc, groupingMc, groupingData, lumi.value);
      r := Ok(scaler);
    }

    /** The `scaled_mc` property: the stored view, built by `_scale_mc` on first request. */
    method ScaledMc() returns (r: Result<ResultSet>)
      requires Valid()
      modifies this
      ensures Valid()
      ensures r == ScaledMcOf(version, mc, lumi, fsMc)
      ensures old(scaledMcCache).Some? ==> r == Ok(old(scaledMcCache).value) && scaledMcBuilds == old(scaledMcBuilds)
      ensures scaledMcCache == if r.Ok? then Some(r.value) else None
      ensures scaledCombinedMcCache == old(scaledCombinedMcCache) && combinedDataCache == old(combinedDataCache)
    {
      if scaledMcCache.None? {
        r := ScaleMc();
      } else {
        r := Ok(scaledMcCache.value);
      }
    }

    /**
     * `_scale_mc`: collect the cross sections and event counts, then call
     * the version's `scale_results` and store what it returns. `r` is what
     * the builder stored, or the exception it raised.
     */
    method ScaleMc() returns (r: Result<ResultSet>)
      requires Valid() && scaledMcCache.None?
      modifies this
      ensures Valid()
      ensures r == ScaledMcOf(version, mc, lumi, fsMc)
      ensures scaledMcCache == if r.Ok? then Some(r.value) else None
      ensures scaledCombinedMcCache == old(scaledCombinedMcCache) && combinedDataCache == old(combinedDataCache)
    {
      var inputs := CollectScaleInputs(mc, fsMc);
      if inputs.Err? {
        return Err(inputs.error);
      }
      var xsecs, evtCnts := inputs.value.0, inputs.value.1;
      match version {
        case Current =>
          r := ScaleResults(mc, lumi, xsecs, evtCnts);
        case Legacy =>
          r := LegacyScaleResults(mc, lumi, xsecs, evtCnts);
      }
      if r.Ok? {
        scaledMcCache := Some(r.value);
        scaledMcBuilds := scaledMcBuilds + 1;
      }
    }

    /**
     * The `scaled_combined_mc` property: the stored view, built by
     * `_scale_combine_mc` on first request. Building it first forces
     * `scaled_mc`; `warned` says whether this call issued the naming warning.
     */
    method ScaledCombinedMc() returns (r: Result<ResultSet>, warned: bool)
      requires Valid()
      modifies this
      ensures Valid()
      ensures r == ScaledCombinedMcOf(version, mc, lumi, fsMc, groupingMc)
      ensures scaledMcCache == (match ScaledMcOf(version, mc, lumi, fsMc) case Ok(s) => Some(s) case Err(_) => None)
      ensures old(scaledCombinedMcCache).Some? ==>
        r == Ok(old(scaledCombinedMcCache).value) && !warned && scaledCombinedMcBuilds == old(scaledCombinedMcBuilds)
      ensures old(scaledCombinedMcCache).None? ==>
        warned == (ScaledMcOf(version, mc, lumi, fsMc).Ok? && CombineWarns(ScaledMcOf(version, mc, lumi, fsMc).value, fsMc, groupingMc))
      ensures scaledCombinedMcCache == if r.Ok? then Some(r.value) else None
      ensures combinedDataCache == old(combinedDataCache)
    {
      if scaledCombinedMcCache.None? {
        r, warned := ScaleCombineMc();
      } else {
        r, warned := Ok(scaledCombinedMcCache.value), false;
      }
    }

    /** `_scale_combine_mc`: short names from the simulation fileset, then `combine_rename_results`. */
    method ScaleCombineMc() returns (r: Result<ResultSet>, warned: bool)
      requires Valid() && scaledCombinedMcCache.None?
      modifies this
      ensures Valid()
      ensures r == ScaledCombinedMcOf(version, mc, lumi, fsMc, groupingMc)
      ensures scaledMcCache == (match ScaledMcOf(version, mc, lumi, fsMc) case Ok(s) => Some(s) case Err(_) => None)
      ensures warned == (ScaledMcOf(version, mc, lumi, fsMc).Ok? && CombineWarns(ScaledMcOf(version, mc, lumi, fsMc).value, fsMc, groupingMc))
      ensures scaledCombinedMcCache == if r.Ok? then Some(r.value) else None
      ensures combinedDataCache == old(combinedDataCache)
    {
      var scaled := ScaledMc();
      if scaled.Err? {
        return Err(scaled.error), false;
      }
      var shortNames := CollectShortNames(scaled.value, fsMc);
      if shortNames.Err? {
        return Err(shortNames.error), false;
      }
      r, warned := CombineRenameResults(scaled.value, groupingMc, shortNames.value);
      if r.Ok? {
        scaledCombinedMcCache := Some(r.value);
        scaledCombinedMcBuilds := scaledCombinedMcBuilds + 1;
      }
    }

    /**
     * The `combined_data` property: the stored view, built by
     * `_combine_data` on first request; `warned` says whether this call
     * issued the naming warning.
     */
    method CombinedData() returns (r: Result<ResultSet>, warned: bool)
      requires Valid()
      modifies this
      ensures Valid()
      ensures r == CombinedOf(data, fsData, groupingData)
      ensures old(combinedDataCache).Some? ==>
        r == Ok(old(combinedDataCache).value) && !warned && combinedDataBuilds == old(combinedDataBuilds)
      ensures old(combinedDataCache).None? ==> warned == CombineWarns(data, fsData, groupingData)
      ensures combinedDataCache == if r.Ok? then Some(r.value) else None
      ensures scaledMcCache == old(scaledMcCache) && scaledCombinedMcCache == old(scaledCombinedMcCache)
    {
      if combinedDataCache.None? {
        r, warned := CombineData();
      } else {
        r, warned := Ok(combinedDataCache.value), false;
      }
    }

    /** `_combine_data`: short names from the data fileset, then `combine_rename_results`. */
    method CombineData() returns (r: Result<ResultSet>, warned: bool)
      requires Valid() && combinedDataCache.None?
      modifies this
      ensures Valid()
      ensures r == CombinedOf(data, fsData, groupingData)
      ensures warned == CombineWarns(data, fsData, groupingData)
      ensures combinedDataCache == if r.Ok? then Some(r.value) else None
      ensures scaledMcCache == old(scaledMcCache) && scaledCombinedMcCache == old(scaledCombinedMcCache)
    {
      var shortNames := CollectShortNames(data, fsData);
      if shortNames.Err? {
        return Err(shortNames.error), false;
      }
      r, warned := CombineRenameResults(data, groupingData, shortNames.value);
      if r.Ok? {
        combinedDataCache := Some(r.value);
        combinedDataBuilds := combinedDataBuilds + 1;
      }
    }
  }
}
