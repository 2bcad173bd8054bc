/**
 * `scale_results`: normalise simulated results to a luminosity. Every
 * observable not named in `dontScale` is multiplied by the per-dataset factor
 * `xsec * lumi / evt_cnt`.
 *
 * The current module (datatools/datatools.py) computes the factor once per
 * dataset and builds a fresh result set. The older module (data_tools.py)
 * computes it per observable, inside the observable loop, and applies
 * `obs *= factor` to the values it was given: that changes accumulators in
 * place but only rebinds a local name for plain numbers, and it returns the
 * very dict it received.
 */
module Scaling {
  import opened Results

  /** Observables copied unscaled unless the caller says otherwise. */
  const DefaultDontScale: set<string> := {"RawEventCount"}

  /**
   * `mc_xsecs[dset] * lumi / mc_evt_cnts[dset]`: a missing dataset in either
   * map is a `KeyError` naming it, a zero event count a division error.
   */
  function Factor(dset: string, lumi: real, xsecs: map<string, real>, evtCnts: map<string, real>): (r: Result<real>)
    ensures r.Ok? <==> dset in xsecs && dset in evtCnts && evtCnts[dset] != 0.0
    ensures r.Err? ==> r.error == if dset in xsecs && dset in evtCnts then ZeroDivision(dset) else KeyLookup(dset)
  {
    if dset !in xsecs || dset !in evtCnts then Err(KeyLookup(dset))
    else if evtCnts[dset] == 0.0 then Err(ZeroDivision(dset))
    else Ok(xsecs[dset] * lumi / evtCnts[dset])
  }

  /** The factor times the event count is the cross section times the luminosity. */
  lemma FactorFormula(dset: string, lumi: real, xsecs: map<string, real>, evtCnts: map<string, real>)
    requires Factor(dset, lumi, xsecs, evtCnts).Ok?
    ensures Factor(dset, lumi, xsecs, evtCnts).value * evtCnts[dset] == xsecs[dset] * lumi
  {
  }

  /** The bundle of one dataset after the current `scale_results`. */
  function ScaleBundle(b: Bundle, factor: real, dontScale: set<string>): Bundle {
    map k | k in b :: if k in dontScale then b[k] else Times(b[k], factor)
  }

  /** What the current `scale_results` returns: datasets scaled in iteration order. */
  function Scale(mc: ResultSet, lumi: real, xsecs: map<string, real>, evtCnts: map<string, real>,
                 dontScale: set<string>): Result<ResultSet>
    decreases |mc|
  {
    if mc == [] then Ok([])
    else
      var out :- Scale(mc[..|mc| - 1], lumi, xsecs, evtCnts, dontScale);
      var last := mc[|mc| - 1];
      var factor :- Factor(last.0, lumi, xsecs, evtCnts);
      Ok(Put(out, last.0, ScaleBundle(last.1, factor, dontScale)))
  }

  /** Once a prefix fails, the whole call fails with the same error. */
  lemma {:induction false} ScaleErrorSticks(mc: ResultSet, lumi: real, xsecs: map<string, real>,
                                            evtCnts: map<string, real>, dontScale: set<string>, m: nat)
    requires m <= |mc|
    requires Scale(mc[..m], lumi, xsecs, evtCnts, dontScale).Err?
    ensures Scale(mc, lumi, xsecs, evtCnts, dontScale) == Scale(mc[..m], lumi, xsecs, evtCnts, dontScale)
    decreases |mc|
  {
    if m < |mc| {
      var init := mc[..|mc| - 1];
      assert init[..m] == mc[..m];
      ScaleErrorSticks(init, lumi, xsecs, evtCnts, dontScale, m);
    } else {
      assert mc[..m] == mc;
    }
  }

  /** The current `scale_results`: a fresh result set filled in nested loops. */
  method ScaleResults(mc: ResultSet, lumi: real, xsecs: map<string, real>, evtCnts: map<string, real>,
                      dontScale: set<string> := DefaultDontScale)
    returns (r: Result<ResultSet>)
    ensures r == Scale(mc, lumi, xsecs, evtCnts, dontScale)
  {
    var out: ResultSet := [];
    for n := 0 to |mc|
      invariant Scale(mc[..n], lumi, xsecs, evtCnts, dontScale) == Ok(out)
    {
      var dset, results := mc[n].0, mc[n].1;
      assert mc[..n + 1][..n] == mc[..n];
      if dset !in xsecs || dset !in evtCnts {
        ScaleErrorSticks(mc, lumi, xsecs, evtCnts, dontScale, n + 1);
        return Err(KeyLookup(dset));
      }
      if evtCnts[dset] == 0.0 {
        ScaleErrorSticks(mc, lumi, xsecs, evtCnts, dontScale, n + 1);
        return Err(ZeroDivision(dset));
      }
      var factor := xsecs[dset] * lumi / evtCnts[dset];
      assert Factor(dset, lumi, xsecs, evtCnts) == Ok(factor);
      assert mc[..n + 1][n] == mc[n];
      var scaled: Bundle := map[];
      var todo := results.Keys;
      while todo != {}
        invariant todo <= results.Keys
        invariant scaled.Keys == results.Keys - todo
        invariant forall k :: k in scaled ==>
          scaled[k] == if k in dontScale then results[k] else Times(results[k], factor)
        decreases todo
      {
        var k :| k in todo;
        if k !in dontScale {
          scaled := scaled[k := Times(results[k], factor)];
        } else {
          scaled := scaled[k := results[k]];
        }
        todo := todo - {k};
      }
      assert scaled == ScaleBundle(results, factor, dontScale);
      out := Put(out, dset, scaled);
    }
    assert mc[..|mc|] == mc;
    r := Ok(out);
  }

  /** Whether the older loop computes the factor for this bundle at all. */
  predicate NeedsFactor(b: Bundle, dontScale: set<string>) {
    exists k :: k in b && k !in dontScale
  }

  /**
   * `obs *= factor` in the older loop: only an accumulator outside
   * `dontScale` changes; a number is rebound locally and stays as it was.
   */
  function LegacyObs(o: Obs, name: string, factor: Result<real>, dontScale: set<string>): Obs {
    if name in dontScale || o.Number? || factor.Err? then o else Times(o, factor.value)
  }

  /** The bundle of one dataset after the older `scale_results`. */
  function LegacyScaleBundle(b: Bundle, factor: Result<real>, dontScale: set<string>): Bundle {
    map k | k in b :: LegacyObs(b[k], k, factor, dontScale)
  }

  /** What the older `scale_results` leaves in (and returns as) its argument. */
  function LegacyScale(mc: ResultSet, lumi: real, xsecs: map<string, real>, evtCnts: map<string, real>,
                       dontScale: set<string>): Result<ResultSet>
    decreases |mc|
  {
    if mc == [] then Ok([])
    else
      var out :- LegacyScale(mc[..|mc| - 1], lumi, xsecs, evtCnts, dontScale);
      var last := mc[|mc| - 1];
      var factor := Factor(last.0, lumi, xsecs, evtCnts);
      if NeedsFactor(last.1, dontScale) && factor.Err? then Err(factor.error)
      else Ok(out + [(last.0, LegacyScaleBundle(last.1, factor, dontScale))])
  }

  /** Once a prefix fails, the whole call fails with the same error. */
  lemma {:induction false} LegacyScaleErrorSticks(mc: ResultSet, lumi: real, xsecs: map<string, real>,
                                                  evtCnts: map<string, real>, dontScale: set<string>, m: nat)
    requires m <= |mc|
    requires LegacyScale(mc[..m], lumi, xsecs, evtCnts, dontScale).Err?
    ensures LegacyScale(mc, lumi, xsecs, evtCnts, dontScale) == LegacyScale(mc[..m], lumi, xsecs, evtCnts, dontScale)
    decreases |mc|
  {
    if m < |mc| {
      var init := mc[..|mc| - 1];
      assert init[..m] == mc[..m];
      LegacyScaleErrorSticks(init, lumi, xsecs, evtCnts, dontScale, m);
    } else {
      assert mc[..m] == mc;
    }
  }

  /**
   * The older `scale_results`: the loop over the given result set, each
   * bundle updated in turn. The result is the updated argument.
   */
  method LegacyScaleResults(mc: ResultSet, lumi: real, xsecs: map<string, real>, evtCnts: map<string, real>,
                            dontScale: set<string> := DefaultDontScale)
    returns (r: Result<ResultSet>)
    ensures r == LegacyScale(mc, lumi, xsecs, evtCnts, dontScale)
  {
    var updatedSet := mc;
    for n := 0 to |mc|
      invariant |updatedSet| == |mc| && updatedSet[n..] == mc[n..]
      invariant LegacyScale(mc[..n], lumi, xsecs, evtCnts, dontScale) == Ok(updatedSet[..n])
    {
      var dset := mc[n].0;
      assert mc[..n + 1][..n] == mc[..n];
      assert mc[..n + 1][n] == mc[n];
      var updated := LegacyScaleBundleInPlace(dset, mc[n].1, lumi, xsecs, evtCnts, dontScale);
      if updated.Err? {
        LegacyScaleErrorSticks(mc, lumi, xsecs, evtCnts, dontScale, n + 1);
        return Err(updated.error);
      }
      updatedSet := updatedSet[n := (dset, updated.value)];
      assert updatedSet[..n + 1] == updatedSet[..n] + [(dset, updated.value)];
    }
    assert mc[..|mc|] == mc;
    assert updatedSet[..|mc|] == updatedSet;
    r := Ok(updatedSet);
  }

  /**
   * The inner loop of the older `scale_results` over one bundle: the factor
   * is looked up for every observable outside `dontScale`, and the first
   * such lookup that fails raises.
   */
  method LegacyScaleBundleInPlace(dset: string, results: Bundle, lumi: real, xsecs: map<string, real>,
                                  evtCnts: map<string, real>, dontScale: set<string>)
    returns (r: Result<Bundle>)
    ensures r.Err? <==> NeedsFactor(results, dontScale) && Factor(dset, lumi, xsecs, evtCnts).Err?
    ensures r.Err? ==> r.error == Factor(dset, lumi, xsecs, evtCnts).error
    ensures r.Ok? ==> r.value == LegacyScaleBundle(results, Factor(dset, lumi, xsecs, evtCnts), dontScale)
  {
    ghost var factor := Factor(dset, lumi, xsecs, evtCnts);
    var updated := results;
    var todo := results.Keys;
    while todo != {}
      invariant todo <= results.Keys
      invariant updated.Keys == results.Keys
      invariant forall k :: k in results && k !in todo && k !in dontScale ==> factor.Ok?
      invariant forall k :: k in results ==>
        updated[k] == if k in todo then results[k] else LegacyObs(results[k], k, factor, dontScale)
      decreases todo
    {
      var k :| k in todo;
      if k !in dontScale {
        assert NeedsFactor(results, dontScale);
        if dset !in xsecs || dset !in evtCnts {
          return Err(KeyLookup(dset));
        }
        if evtCnts[dset] == 0.0 {
          return Err(ZeroDivision(dset));
        }
        var f := xsecs[dset] * lumi / evtCnts[dset];
        if updated[k].Accumulator? {
          updated := updated[k := Times(updated[k], f)];
        }
      }
      todo := todo - {k};
    }
    assert updated == LegacyScaleBundle(results, factor, dontScale);
    r := Ok(updated);
  }
}
