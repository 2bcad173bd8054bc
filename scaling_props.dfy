/**
 * What the two `scale_results` promise: when they fail and with which
 * error, the shape of what they return, the scaling formula, and where the
 * older variant differs from the current one.
 */
module ScalingProps {
  import opened Results
  import opened Scaling

  /** `after` is `before` with every observable outside `dontScale` multiplied by `factor`. */
  ghost predicate ScaledAs(before: Bundle, after: Bundle, factor: real, dontScale: set<string>) {
    && after.Keys == before.Keys
    && forall k :: k in before ==>
         after[k] == if k in dontScale then before[k] else Times(before[k], factor)
  }

  /**
   * `after` is `before` with `obs *= factor` applied to every observable
   * outside `dontScale`: accumulators are scaled, numbers stay as they were.
   */
  ghost predicate LegacyScaledAs(before: Bundle, after: Bundle, factor: Result<real>, dontScale: set<string>) {
    && after.Keys == before.Keys
    && (forall k :: k in before && (k in dontScale || before[k].Number?) ==> after[k] == before[k])
    && (forall k :: k in before && k !in dontScale && before[k].Accumulator? ==>
          factor.Ok? && after[k] == Times(before[k], factor.value))
  }

  /**
   * The current `scale_results` succeeds exactly when every dataset has a
   * cross section and a nonzero event count, whatever its bundle holds;
   * otherwise it fails with the error of the first dataset that lacks one.
   */
  lemma {:induction false} ScaleOutcome(mc: ResultSet, lumi: real, xsecs: map<string, real>,
                                        evtCnts: map<string, real>, dontScale: set<string>)
    ensures Scale(mc, lumi, xsecs, evtCnts, dontScale).Ok? <==>
      forall i :: 0 <= i < |mc| ==> Factor(mc[i].0, lumi, xsecs, evtCnts).Ok?
    ensures Scale(mc, lumi, xsecs, evtCnts, dontScale).Err? ==>
      exists i :: 0 <= i < |mc| && Factor(mc[i].0, lumi, xsecs, evtCnts).Err?
        && Scale(mc, lumi, xsecs, evtCnts, dontScale).error == Factor(mc[i].0, lumi, xsecs, evtCnts).error
        && forall j :: 0 <= j < i ==> Factor(mc[j].0, lumi, xsecs, evtCnts).Ok?
    decreases |mc|
  {
    if mc != [] {
      var init := mc[..|mc| - 1];
      var n := |mc| - 1;
      ScaleOutcome(init, lumi, xsecs, evtCnts, dontScale);
      assert forall i :: 0 <= i < n ==> init[i] == mc[i];
      if Scale(init, lumi, xsecs, evtCnts, dontScale).Ok? {
        var f := Factor(mc[n].0, lumi, xsecs, evtCnts);
        assert Scale(mc, lumi, xsecs, evtCnts, dontScale).Ok? <==> f.Ok?;
        assert f.Err? ==> Scale(mc, lumi, xsecs, evtCnts, dontScale).error == f.error;
      } else {
        assert Scale(mc, lumi, xsecs, evtCnts, dontScale) == Scale(init, lumi, xsecs, evtCnts, dontScale);
        var i :| 0 <= i < n && Factor(init[i].0, lumi, xsecs, evtCnts).Err?
          && Scale(init, lumi, xsecs, evtCnts, dontScale).error == Factor(init[i].0, lumi, xsecs, evtCnts).error
          && forall j :: 0 <= j < i ==> Factor(init[j].0, lumi, xsecs, evtCnts).Ok?;
        assert Factor(mc[i].0, lumi, xsecs, evtCnts).Err?;
      }
    }
  }

  /**
   * On success the current `scale_results` returns the datasets in their
   * order, each with the same observables, those outside `dontScale`
   * multiplied by `xsec * lumi / evt_cnt` of their dataset and the others
   * copied unchanged.
   */
  lemma {:induction false} ScaleShape(mc: ResultSet, lumi: real, xsecs: map<string, real>,
                                      evtCnts: map<string, real>, dontScale: set<string>)
    requires IsDict(mc)
    requires Scale(mc, lumi, xsecs, evtCnts, dontScale).Ok?
    ensures var out := Scale(mc, lumi, xsecs, evtCnts, dontScale).value;
      && |out| == |mc|
      && forall i :: 0 <= i < |mc| ==>
           && out[i].0 == mc[i].0
           && Factor(mc[i].0, lumi, xsecs, evtCnts).Ok?
           && ScaledAs(mc[i].1, out[i].1, Factor(mc[i].0, lumi, xsecs, evtCnts).value, dontScale)
    decreases |mc|
  {
    if mc != [] {
      var init := mc[..|mc| - 1];
      var last := mc[|mc| - 1];
      assert IsDict(init);
      ScaleShape(init, lumi, xsecs, evtCnts, dontScale);
      var out := Scale(init, lumi, xsecs, evtCnts, dontScale).value;
      assert Names(out) == Names(init);
      assert last.0 !in Names(init);
      var factor := Factor(last.0, lumi, xsecs, evtCnts).value;
      var res := out + [(last.0, ScaleBundle(last.1, factor, dontScale))];
      assert Scale(mc, lumi, xsecs, evtCnts, dontScale).value == res;
      forall i | 0 <= i < |mc|
        ensures && res[i].0 == mc[i].0
                && Factor(mc[i].0, lumi, xsecs, evtCnts).Ok?
                && ScaledAs(mc[i].1, res[i].1, Factor(mc[i].0, lumi, xsecs, evtCnts).value, dontScale)
      {
        if i < |init| {
          assert res[i] == out[i] && mc[i] == init[i];
        }
      }
    }
  }

  /** The worked example: 10 events scaled by 2 * 50 / 100, the raw count left alone. */
  lemma ScaleExample()
    ensures Scale([("d", map["n" := Number(10.0), "RawEventCount" := Number(100.0)])],
                  50.0, map["d" := 2.0], map["d" := 100.0], DefaultDontScale)
            == Ok([("d", map["n" := Number(10.0), "RawEventCount" := Number(100.0)])])
  {
    var b := map["n" := Number(10.0), "RawEventCount" := Number(100.0)];
    var mc: ResultSet := [("d", b)];
    assert mc[..0] == [];
    assert Factor("d", 50.0, map["d" := 2.0], map["d" := 100.0]) == Ok(1.0);
    var scaled := ScaleBundle(b, 1.0, DefaultDontScale);
    assert scaled.Keys == b.Keys;
    assert scaled == b;
  }

  /**
   * The older `scale_results` succeeds exactly when every dataset whose
   * bundle has an observable outside `dontScale` has a cross section and a
   * nonzero event count; otherwise it fails with the error of the first
   * such dataset that lacks one.
   */
  lemma {:induction false} LegacyScaleOutcome(mc: ResultSet, lumi: real, xsecs: map<string, real>,
                                              evtCnts: map<string, real>, dontScale: set<string>)
    ensures LegacyScale(mc, lumi, xsecs, evtCnts, dontScale).Ok? <==>
      forall i :: 0 <= i < |mc| && NeedsFactor(mc[i].1, dontScale) ==> Factor(mc[i].0, lumi, xsecs, evtCnts).Ok?
    ensures LegacyScale(mc, lumi, xsecs, evtCnts, dontScale).Err? ==>
      exists i :: 0 <= i < |mc| && NeedsFactor(mc[i].1, dontScale) && Factor(mc[i].0, lumi, xsecs, evtCnts).Err?
        && LegacyScale(mc, lumi, xsecs, evtCnts, dontScale).error == Factor(mc[i].0, lumi, xsecs, evtCnts).error
        && forall j :: 0 <= j < i && NeedsFactor(mc[j].1, dontScale) ==> Factor(mc[j].0, lumi, xsecs, evtCnts).Ok?
    decreases |mc|
  {
    if mc != [] {
      var init := mc[..|mc| - 1];
      var n := |mc| - 1;
      LegacyScaleOutcome(init, lumi, xsecs, evtCnts, dontScale);
      assert forall i :: 0 <= i < n ==> init[i] == mc[i];
      if LegacyScale(init, lumi, xsecs, evtCnts, dontScale).Err? {
        var i :| 0 <= i < n && NeedsFactor(init[i].1, dontScale) && Factor(init[i].0, lumi, xsecs, evtCnts).Err?
          && LegacyScale(init, lumi, xsecs, evtCnts, dontScale).error == Factor(init[i].0, lumi, xsecs, evtCnts).error
          && forall j :: 0 <= j < i && NeedsFactor(init[j].1, dontScale) ==> Factor(init[j].0, lumi, xsecs, evtCnts).Ok?;
        assert Factor(mc[i].0, lumi, xsecs, evtCnts).Err? && NeedsFactor(mc[i].1, dontScale);
      }
    }
  }

  /**
   * On success the older `scale_results` returns its argument with the same
   * datasets and observables; only accumulators outside `dontScale` are
   * multiplied by `xsec * lumi / evt_cnt`, and plain numbers keep their value.
   */
  lemma {:induction false} LegacyScaleShape(mc: ResultSet, lumi: real, xsecs: map<string, real>,
                                            evtCnts: map<string, real>, dontScale: set<string>)
    requires LegacyScale(mc, lumi, xsecs, evtCnts, dontScale).Ok?
    ensures var out := LegacyScale(mc, lumi, xsecs, evtCnts, dontScale).value;
      && |out| == |mc|
      && forall i :: 0 <= i < |mc| ==>
           && out[i].0 == mc[i].0
           && LegacyScaledAs(mc[i].1, out[i].1, Factor(mc[i].0, lumi, xsecs, evtCnts), dontScale)
    decreases |mc|
  {
    if mc != [] {
      var init := mc[..|mc| - 1];
      var last := mc[|mc| - 1];
      LegacyScaleShape(init, lumi, xsecs, evtCnts, dontScale);
      var factor := Factor(last.0, lumi, xsecs, evtCnts);
      assert forall k :: k in last.1 && k !in dontScale ==> NeedsFactor(last.1, dontScale);
      assert forall i :: 0 <= i < |init| ==> init[i] == mc[i];
    }
  }

  /**
   * The two variants look the cross section up at different times: a dataset
   * whose bundle holds only unscaled observables (or nothing) needs no entry
   * in the older one, while the current one fails on it.
   */
  lemma LookupTiming(d: string, b: Bundle, lumi: real, xsecs: map<string, real>,
                     evtCnts: map<string, real>, dontScale: set<string>)
    requires b.Keys <= dontScale
    requires d !in xsecs
    ensures Scale([(d, b)], lumi, xsecs, evtCnts, dontScale) == Err(KeyLookup(d))
    ensures LegacyScale([(d, b)], lumi, xsecs, evtCnts, dontScale) == Ok([(d, b)])
  {
    assert [(d, b)][..0] == [];
    assert !NeedsFactor(b, dontScale);
    assert LegacyScaleBundle(b, Factor(d, lumi, xsecs, evtCnts), dontScale) == b;
    assert [(d, b)][|[(d, b)]| - 1] == (d, b);
    assert [] + [(d, b)] == [(d, b)];
  }

  /** The two bundle updates coincide when every scaled observable is an accumulator. */
  lemma LegacyBundleOnAccumulators(b: Bundle, factor: real, dontScale: set<string>)
    requires forall k :: k in b && k !in dontScale ==> b[k].Accumulator?
    ensures LegacyScaleBundle(b, Ok(factor), dontScale) == ScaleBundle(b, factor, dontScale)
  {
  }

  /** A successful current scaling keeps the dataset names in order. */
  lemma ScaleNames(mc: ResultSet, lumi: real, xsecs: map<string, real>,
                   evtCnts: map<string, real>, dontScale: set<string>)
    requires IsDict(mc)
    requires Scale(mc, lumi, xsecs, evtCnts, dontScale).Ok?
    ensures Names(Scale(mc, lumi, xsecs, evtCnts, dontScale).value) == Names(mc)
  {
    ScaleShape(mc, lumi, xsecs, evtCnts, dontScale);
  }

  /**
   * Where the current variant succeeds and every scaled observable is an
   * accumulator, the older variant computes the same result.
   */
  lemma {:induction false} LegacyAgreesOnAccumulators(mc: ResultSet, lumi: real, xsecs: map<string, real>,
                                                      evtCnts: map<string, real>, dontScale: set<string>)
    requires IsDict(mc)
    requires forall i, k :: 0 <= i < |mc| && k in mc[i].1 && k !in dontScale ==> mc[i].1[k].Accumulator?
    requires Scale(mc, lumi, xsecs, evtCnts, dontScale).Ok?
    ensures LegacyScale(mc, lumi, xsecs, evtCnts, dontScale) == Scale(mc, lumi, xsecs, evtCnts, dontScale)
    decreases |mc|
  {
    if mc != [] {
      var init := mc[..|mc| - 1];
      var last := mc[|mc| - 1];
      assert IsDict(init);
      assert forall i :: 0 <= i < |init| ==> init[i] == mc[i];
      LegacyAgreesOnAccumulators(init, lumi, xsecs, evtCnts, dontScale);
      var out := Scale(init, lumi, xsecs, evtCnts, dontScale).value;
      ScaleNames(init, lumi, xsecs, evtCnts, dontScale);
      assert last.0 !in Names(init);
      var factor := Factor(last.0, lumi, xsecs, evtCnts).value;
      LegacyBundleOnAccumulators(last.1, factor, dontScale);
      assert Scale(mc, lumi, xsecs, evtCnts, dontScale) == Ok(out + [(last.0, ScaleBundle(last.1, factor, dontScale))]);
    }
  }

  /**
   * A plain-number observable under factor 2: the older variant leaves it
   * at 10 where the current one (and the documented contract of both)
   * gives 20.
   */
  lemma LegacyNumberExample()
    ensures LegacyScale([("d", map["n" := Number(10.0)])], 50.0, map["d" := 4.0], map["d" := 100.0], DefaultDontScale)
            == Ok([("d", map["n" := Number(10.0)])])
    ensures Scale([("d", map["n" := Number(10.0)])], 50.0, map["d" := 4.0], map["d" := 100.0], DefaultDontScale)
            == Ok([("d", map["n" := Number(20.0)])])
  {
    var b := map["n" := Number(10.0)];
    var mc: ResultSet := [("d", b)];
    assert mc[..0] == [];
    assert Factor("d", 50.0, map["d" := 4.0], map["d" := 100.0]) == Ok(2.0);
    assert NeedsFactor(b, DefaultDontScale) by {
      assert "n" in b && "n" !in DefaultDontScale;
    }
    assert LegacyScaleBundle(b, Ok(2.0), DefaultDontScale) == b;
    assert mc[|mc| - 1] == ("d", b);
    assert LegacyScale(mc[..0], 50.0, map["d" := 4.0], map["d" := 100.0], DefaultDontScale) == Ok([]);
    assert [] + [("d", b)] == mc;
    assert ScaleBundle(b, 2.0, DefaultDontScale) == map["n" := Number(20.0)];
  }
}
