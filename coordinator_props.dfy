/**
 * What `XSecScaler` promises about its inputs: when the luminosity, the
 * cross sections, the event counts and the short names can be read, what
 * they hold, and what the scaled view then depends on.
 */
module CoordinatorProps {
  import opened Results
  import opened Grouping
  import opened Scaling
  import opened ScalingProps
  import opened DefaultGroups
  import opened Coordinator

  /** The luminosity can be summed exactly when every data bundle records one. */
  lemma {:induction false} LuminosityOutcome(data: ResultSet)
    ensures TotalLuminosity(data).Ok? <==> forall i :: 0 <= i < |data| ==> "Luminosity" in data[i].1
    ensures TotalLuminosity(data).Err? ==> TotalLuminosity(data).error == KeyLookup("Luminosity")
    decreases |data|
  {
    if data != [] {
      var init := data[..|data| - 1];
      LuminosityOutcome(init);
      assert forall i :: 0 <= i < |init| ==> init[i] == data[i];
    }
  }

  /** The luminosity of two runs of datasets is the sum of theirs. */
  lemma {:induction false} LuminosityConcat(a: ResultSet, b: ResultSet)
    requires TotalLuminosity(a).Ok? && TotalLuminosity(b).Ok?
    ensures TotalLuminosity(a + b) == Ok(TotalLuminosity(a).value + TotalLuminosity(b).value)
    decreases |b|
  {
    if b == [] {
      assert a + b == a;
    } else {
      var init := b[..|b| - 1];
      assert (a + b)[..|a + b| - 1] == a + init;
      assert (a + b)[|a + b| - 1] == b[|b| - 1];
      LuminosityConcat(a, init);
    }
  }

  /** Two data datasets recording 10 and 15: the scaler's luminosity is 25. */
  lemma LuminosityExample()
    ensures TotalLuminosity([("/Run2024A", map["Luminosity" := Number(10.0)]),
                             ("/Run2024B", map["Luminosity" := Number(15.0)])]) == Ok(25.0)
  {
  }

  /** The nested layout is read when the outer one has no cross section. */
  lemma XsecFallbackExample(x: real)
    ensures LookupXsec(map["/TTto" := Some(Metadata(None, None, Some(Metadata(Some(x), None, None))))], "/TTto") == Ok(x)
    ensures LookupXsec(map["/TTto" := Some(Metadata(None, None, Some(Metadata(None, None, None))))], "/TTto")
            == Err(KeyLookup("xsec"))
    ensures LookupXsec(map["/TTto" := Some(Metadata(None, None, None))], "/TTto") == Err(KeyLookup("metadata"))
  {
  }

  /**
   * `_scale_mc` collects its inputs exactly when every simulated dataset
   * has a readable cross section and a `RawEventCount`.
   */
  lemma {:induction false} ScaleInputsOutcome(mc: ResultSet, fs: Fileset)
    ensures ScaleInputs(mc, fs).Ok? <==>
      forall i :: 0 <= i < |mc| ==> LookupXsec(fs, mc[i].0).Ok? && "RawEventCount" in mc[i].1
    decreases |mc|
  {
    if mc != [] {
      var init := mc[..|mc| - 1];
      ScaleInputsOutcome(init, fs);
      assert forall i :: 0 <= i < |init| ==> init[i] == mc[i];
    }
  }

  /** Once collected, both maps have exactly the simulated datasets as keys. */
  lemma {:induction false} ScaleInputsKeys(mc: ResultSet, fs: Fileset)
    requires ScaleInputs(mc, fs).Ok?
    ensures ScaleInputs(mc, fs).value.0.Keys == ScaleInputs(mc, fs).value.1.Keys == (set i | 0 <= i < |mc| :: mc[i].0)
    decreases |mc|
  {
    if mc != [] {
      var init := mc[..|mc| - 1];
      var last := mc[|mc| - 1];
      ScaleInputsKeys(init, fs);
      assert forall i :: 0 <= i < |init| ==> init[i] == mc[i];
      assert (set i | 0 <= i < |mc| :: mc[i].0) == (set i | 0 <= i < |init| :: init[i].0) + {last.0};
    }
  }

  /** Once collected, every simulated dataset is mapped to its cross section and its event count. */
  lemma {:induction false} ScaleInputsShape(mc: ResultSet, fs: Fileset)
    requires IsDict(mc)
    requires ScaleInputs(mc, fs).Ok?
    ensures var (xsecs, evtCnts) := ScaleInputs(mc, fs).value;
      forall i :: 0 <= i < |mc| ==>
        && LookupXsec(fs, mc[i].0).Ok? && "RawEventCount" in mc[i].1
        && mc[i].0 in xsecs && xsecs[mc[i].0] == LookupXsec(fs, mc[i].0).value
        && mc[i].0 in evtCnts && evtCnts[mc[i].0] == mc[i].1["RawEventCount"].v
    decreases |mc|
  {
    if mc != [] {
      var init := mc[..|mc| - 1];
      var last := mc[|mc| - 1];
      assert IsDict(init);
      ScaleInputsShape(init, fs);
      assert forall i :: 0 <= i < |init| ==> init[i] == mc[i] && init[i].0 != last.0;
    }
  }

  /**
   * The short-name map can be built exactly when every dataset has a
   * fileset entry with metadata; then each dataset maps to its
   * `short_name`, or to itself.
   */
  lemma {:induction false} ShortNamesShape(results: ResultSet, fs: Fileset)
    ensures ShortNames(results, fs).Ok? <==>
      forall i :: 0 <= i < |results| ==> results[i].0 in fs && fs[results[i].0].Some?
    ensures ShortNames(results, fs).Ok? ==>
      && ShortNames(results, fs).value.Keys == (set i | 0 <= i < |results| :: results[i].0)
      && forall i :: 0 <= i < |results| ==>
           ShortNames(results, fs).value[results[i].0] == ShortNameOf(fs[results[i].0].value, results[i].0)
    decreases |results|
  {
    if results != [] {
      var init := results[..|results| - 1];
      var last := results[|results| - 1];
      ShortNamesShape(init, fs);
      assert forall i :: 0 <= i < |init| ==> init[i] == results[i];
      if ShortNames(results, fs).Ok? {
        assert (set i | 0 <= i < |results| :: results[i].0) == (set i | 0 <= i < |init| :: init[i].0) + {last.0};
      }
    }
  }

  /**
   * Once its inputs are collected, the current `scaled_mc` can only fail on
   * a zero event count: it succeeds exactly when every `RawEventCount` is
   * nonzero.
   */
  lemma ScaledMcFailsOnlyOnZeroCount(mc: ResultSet, lumi: real, fsMc: Fileset)
    requires IsDict(mc)
    requires ScaleInputs(mc, fsMc).Ok?
    ensures ScaledMcOf(Current, mc, lumi, fsMc).Ok? <==>
      forall i :: 0 <= i < |mc| ==> "RawEventCount" in mc[i].1 && mc[i].1["RawEventCount"].v != 0.0
    ensures ScaledMcOf(Current, mc, lumi, fsMc).Err? ==>
      exists i :: 0 <= i < |mc| && ScaledMcOf(Current, mc, lumi, fsMc).error == ZeroDivision(mc[i].0)
  {
    ScaleInputsShape(mc, fsMc);
    var (xsecs, evtCnts) := ScaleInputs(mc, fsMc).value;
    assert forall i :: 0 <= i < |mc| ==> mc[i].0 in xsecs && mc[i].0 in evtCnts;
    ScaleOutcome(mc, lumi, xsecs, evtCnts, DefaultDontScale);
  }

  /**
   * Once its inputs are collected, the older `scaled_mc` fails only on a
   * zero event count of a dataset it actually scales.
   */
  lemma LegacyScaledMcFailsOnlyOnZeroCount(mc: ResultSet, lumi: real, fsMc: Fileset)
    requires IsDict(mc)
    requires ScaleInputs(mc, fsMc).Ok?
    ensures ScaledMcOf(Legacy, mc, lumi, fsMc).Ok? <==>
      forall i :: 0 <= i < |mc| && NeedsFactor(mc[i].1, DefaultDontScale) ==>
        "RawEventCount" in mc[i].1 && mc[i].1["RawEventCount"].v != 0.0
  {
    ScaleInputsShape(mc, fsMc);
    var (xsecs, evtCnts) := ScaleInputs(mc, fsMc).value;
    assert forall i :: 0 <= i < |mc| ==> mc[i].0 in xsecs && mc[i].0 in evtCnts;
    LegacyScaleOutcome(mc, lumi, xsecs, evtCnts, DefaultDontScale);
  }

  /**
   * One top-quark sample of 100 generated events with cross section 1 pb,
   * scaled to 50 /pb: its histogram is halved, its raw count kept, and the
   * result filed under the default group "ttbar".
   */
  lemma EndToEndExample()
    ensures ScaledCombinedMcOf(Current, [("/TTto2L2Nu", map["n" := Accumulator(10.0), "RawEventCount" := Number(100.0)])],
                               50.0, map["/TTto2L2Nu" := Some(Metadata(Some(1.0), None, None))], DefaultGroupingMap)
            == Ok([("ttbar", map["n" := Accumulator(5.0), "RawEventCount" := Number(100.0)])])
  {
    var d := "/TTto2L2Nu";
    var b := map["n" := Accumulator(10.0), "RawEventCount" := Number(100.0)];
    var mc: ResultSet := [(d, b)];
    var fs: Fileset := map[d := Some(Metadata(Some(1.0), None, None))];
    assert mc[..0] == [];
    assert ScaleInputs(mc, fs) == Ok((map[d := 1.0], map[d := 100.0]));
    assert Factor(d, 50.0, map[d := 1.0], map[d := 100.0]) == Ok(0.5);
    var scaled := map["n" := Accumulator(5.0), "RawEventCount" := Number(100.0)];
    assert ScaleBundle(b, 0.5, DefaultDontScale) == scaled;
    assert Scale(mc, 50.0, map[d := 1.0], map[d := 100.0], DefaultDontScale) == Ok(Put([], d, scaled));
    assert ScaledMcOf(Current, mc, 50.0, fs) == Ok([(d, scaled)]);
    var out: ResultSet := [(d, scaled)];
    assert out[..0] == [];
    assert ShortNames(out, fs) == Ok(map[d := d]);
    assert d[..5] == "/TTto";
    PrefixesClash(d, "/TTto", "/QCD", 1);
    PrefixesClash(d, "/TTto", "/Zto", 1);
    assert !DefaultGroupingMap[0].1(d) && !DefaultGroupingMap[1].1(d) && DefaultGroupingMap[2].1(d);
    assert FirstMatch(DefaultGroupingMap, d) == Some(2);
    assert GroupOf(DefaultGroupingMap, d) == Some("ttbar");
    assert Combine(out, DefaultGroupingMap, map[d := d]) == Ok([("ttbar", scaled)]);
  }
}
