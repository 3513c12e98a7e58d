/** Horizontal FDI: one firm selling in Ireland and England, each with linear
    demand, either exporting from a single plant or producing in both
    countries.  All arithmetic is over exact reals. */
module HorizontalFDI {

  datatype Option<T> = None | Some(value: T)

  /** The default parameter table of the horizontal model; the two per-unit
      production costs are left unset (None) in it. */
  datatype HorizontalParams = HorizontalParams(aIre: real, aEng: real, bIre: real, bEng: real, f: real,
                                               cIre: Option<real>, cEng: Option<real>, t: real)

  const DefaultParamsHfdi: HorizontalParams :=
    HorizontalParams(280.0, 400.0, 1.0, 1.0, 8000.0, None, None, 20.0)

  /** Outcome of the export-only scenario. */
  datatype ExportOutcome = ExportOutcome(qIe: real, qEn: real, pIe: real, pEn: real, profit: real)

  /** Outcome of the two-plant scenario: production y in Ireland, z in
      England, x exported from Ireland to England. */
  datatype PlantOutcome = PlantOutcome(y: real, z: real, x: real, qIreland: real, qEngland: real,
                                       pIreland: real, pEngland: real, tr: real, tc: real, profit: real)

  // ---------------------------------------------------------------------------
  // A 2x2 linear solve

  /** Solution of [[m11, m12], [m21, m22]] * (x, y) = (r1, r2) by Cramer's rule. */
  function Solve2x2(m11: real, m12: real, m21: real, m22: real, r1: real, r2: real): (s: (real, real))
    requires m11 * m22 - m12 * m21 != 0.0
    ensures m11 * s.0 + m12 * s.1 == r1
    ensures m21 * s.0 + m22 * s.1 == r2
  {
    var det := m11 * m22 - m12 * m21;
    var x := (r1 * m22 - m12 * r2) / det;
    var y := (m11 * r2 - r1 * m21) / det;
    assert x * det == r1 * m22 - m12 * r2;
    assert y * det == m11 * r2 - r1 * m21;
    assert (m11 * x + m12 * y) * det == r1 * det;
    assert (m21 * x + m22 * y) * det == r2 * det;
    (x, y)
  }

  /** A non-singular system has no solution other than Solve2x2's. */
  lemma Solve2x2Unique(m11: real, m12: real, m21: real, m22: real, r1: real, r2: real, x: real, y: real)
    requires m11 * m22 - m12 * m21 != 0.0
    requires m11 * x + m12 * y == r1 && m21 * x + m22 * y == r2
    ensures (x, y) == Solve2x2(m11, m12, m21, m22, r1, r2)
  {
    var s := Solve2x2(m11, m12, m21, m22, r1, r2);
    var det := m11 * m22 - m12 * m21;
    assert m11 * (x - s.0) + m12 * (y - s.1) == 0.0;
    assert m21 * (x - s.0) + m22 * (y - s.1) == 0.0;
    assert det * (x - s.0) == 0.0 by {
      assert m22 * (m11 * (x - s.0) + m12 * (y - s.1)) - m12 * (m21 * (x - s.0) + m22 * (y - s.1)) == 0.0;
    }
    assert det * (y - s.1) == 0.0 by {
      assert m11 * (m21 * (x - s.0) + m22 * (y - s.1)) - m21 * (m11 * (x - s.0) + m12 * (y - s.1)) == 0.0;
    }
    assert x - s.0 == det * (x - s.0) / det;
    assert y - s.1 == det * (y - s.1) / det;
  }

  // ---------------------------------------------------------------------------
  // Export only

  /** One plant exporting to England at transport cost t per unit.  The
      quantities solve the fixed system 4Q + 2Q* = aIre, 2Q + 4Q* = aEng - t;
      prices read off demand with unit slope whatever bIre and bEng are, and
      cost is (Q + Q*)*Q* + t*Q* + F. */
  function ExportOnly(aIre: real := DefaultParamsHfdi.aIre, aEng: real := DefaultParamsHfdi.aEng,
                      bIre: real := DefaultParamsHfdi.bIre, bEng: real := DefaultParamsHfdi.bEng,
                      f: real := DefaultParamsHfdi.f, t: real := DefaultParamsHfdi.t): (r: ExportOutcome)
    ensures 4.0 * r.qIe + 2.0 * r.qEn == aIre
    ensures 2.0 * r.qIe + 4.0 * r.qEn == aEng - t
  {
    var sol := Solve2x2(4.0, 2.0, 2.0, 4.0, aIre, aEng - t);
    var q, qStar := sol.0, sol.1;
    var pIe := aIre - q;
    var pEn := aEng - qStar;
    var tr := pIe * q + pEn * qStar;
    var tc := (q + qStar) * qStar + t * qStar + f;
    ExportOutcome(q, qStar, pIe, pEn, tr - tc)
  }

  /** The export quantities in closed form, and the only pair that satisfies
      the system. */
  lemma ExportOnlyClosedForm(aIre: real, aEng: real, bIre: real, bEng: real, f: real, t: real, x: real, y: real)
    ensures var r := ExportOnly(aIre, aEng, bIre, bEng, f, t);
            && r.qIe == (2.0 * aIre - aEng + t) / 6.0
            && r.qEn == (2.0 * aEng - 2.0 * t - aIre) / 6.0
            && (4.0 * x + 2.0 * y == aIre && 2.0 * x + 4.0 * y == aEng - t ==> x == r.qIe && y == r.qEn)
  {
    var r := ExportOnly(aIre, aEng, bIre, bEng, f, t);
    if 4.0 * x + 2.0 * y == aIre && 2.0 * x + 4.0 * y == aEng - t {
      Solve2x2Unique(4.0, 2.0, 2.0, 4.0, aIre, aEng - t, x, y);
    }
  }

  /** The export-only outcome does not depend on the demand slopes. */
  lemma ExportOnlyIgnoresSlopes(aIre: real, aEng: real, bIre: real, bEng: real, bIre': real, bEng': real,
                                f: real, t: real)
    ensures ExportOnly(aIre, aEng, bIre, bEng, f, t) == ExportOnly(aIre, aEng, bIre', bEng', f, t)
  {
  }

  /** The profit export_only reports, as a function of the two quantities:
      revenue at unit-slope demand prices less (Q + Q*)*Q* + t*Q* + F. */
  function ExportProfit(aIre: real, aEng: real, f: real, t: real, q: real, qStar: real): real
  {
    (aIre - q) * q + (aEng - qStar) * qStar - ((q + qStar) * qStar + t * qStar + f)
  }

  /** How the reported profit changes when either quantity moves by d: its
      first-order conditions are 2Q + Q* = aIre and Q + 4Q* = aEng - t, which
      is not the system export_only solves. */
  lemma ExportProfitIncrements(aIre: real, aEng: real, f: real, t: real, q: real, qStar: real, d: real)
    ensures ExportProfit(aIre, aEng, f, t, q + d, qStar) - ExportProfit(aIre, aEng, f, t, q, qStar)
            == d * (aIre - 2.0 * q - qStar) - d * d
    ensures ExportProfit(aIre, aEng, f, t, q, qStar + d) - ExportProfit(aIre, aEng, f, t, q, qStar)
            == d * (aEng - t - q - 4.0 * qStar) - 2.0 * d * d
  {
    assert (aIre - (q + d)) * (q + d) - (aIre - q) * q == d * (aIre - 2.0 * q) - d * d;
    assert (aEng - (qStar + d)) * (qStar + d) - (aEng - qStar) * qStar == d * (aEng - 2.0 * qStar) - d * d;
    assert (q + qStar + d) * (qStar + d) - (q + qStar) * qStar == d * (q + 2.0 * qStar) + d * d;
  }

  /** The reported profit is the profit expression at the solved quantities,
      with prices on unit-slope demand curves; yet the solved quantities do
      not maximise it: selling aIre/4 more units in Ireland raises it by
      aIre^2/16, which is positive whenever aIre is not 0. */
  lemma ExportOnlyProfitNotMaximized(aIre: real, aEng: real, bIre: real, bEng: real, f: real, t: real)
    ensures var r := ExportOnly(aIre, aEng, bIre, bEng, f, t);
            && r.pIe == aIre - r.qIe && r.pEn == aEng - r.qEn
            && r.profit == ExportProfit(aIre, aEng, f, t, r.qIe, r.qEn)
            && ExportProfit(aIre, aEng, f, t, r.qIe + aIre / 4.0, r.qEn) == r.profit + aIre * aIre / 16.0
  {
    var r := ExportOnly(aIre, aEng, bIre, bEng, f, t);
    assert 2.0 * r.qIe + r.qEn == aIre / 2.0;
    ExportProfitIncrements(aIre, aEng, f, t, r.qIe, r.qEn, aIre / 4.0);
  }

  /** At the defaults: 30 units for Ireland, 80 for England, while (31, 80)
      would report a larger profit. */
  lemma ExportOnlyDefaults()
    ensures ExportOnly() == ExportOutcome(30.0, 80.0, 250.0, 320.0, 14700.0)
    ensures ExportProfit(280.0, 400.0, 8000.0, 20.0, 31.0, 80.0) == 14839.0
  {
    var d := DefaultParamsHfdi;
    ExportOnlyClosedForm(d.aIre, d.aEng, d.bIre, d.bEng, d.f, d.t, 30.0, 80.0);
  }

  /** The profit with the production cost the default table describes,
      (Q + Q*)^2 for the single plant, in place of (Q + Q*)*Q*. */
  function ExportProfitSquaredCost(aIre: real, aEng: real, f: real, t: real, q: real, qStar: real): real
  {
    (aIre - q) * q + (aEng - qStar) * qStar - ((q + qStar) * (q + qStar) + t * qStar + f)
  }

  /** Export only with the production cost (Q + Q*)^2: the same quantities
      and prices, and the profit that goes with them. */
  function ExportOnlyCorrected(aIre: real := DefaultParamsHfdi.aIre, aEng: real := DefaultParamsHfdi.aEng,
                               bIre: real := DefaultParamsHfdi.bIre, bEng: real := DefaultParamsHfdi.bEng,
                               f: real := DefaultParamsHfdi.f, t: real := DefaultParamsHfdi.t): (r: ExportOutcome)
    ensures 4.0 * r.qIe + 2.0 * r.qEn == aIre
    ensures 2.0 * r.qIe + 4.0 * r.qEn == aEng - t
    ensures r.profit == ExportProfitSquaredCost(aIre, aEng, f, t, r.qIe, r.qEn)
  {
    var e := ExportOnly(aIre, aEng, bIre, bEng, f, t);
    var tc := (e.qIe + e.qEn) * (e.qIe + e.qEn) + t * e.qEn + f;
    ExportOutcome(e.qIe, e.qEn, e.pIe, e.pEn, e.pIe * e.qIe + e.pEn * e.qEn - tc)
  }

  /** With the cost (Q + Q*)^2 the system export_only solves is exactly the
      first-order condition, and its solution maximises profit: any other
      pair falls short by dq^2 + ds^2 + (dq + ds)^2. */
  lemma ExportOnlyCorrectedMaximizes(aIre: real, aEng: real, bIre: real, bEng: real, f: real, t: real,
                                     x: real, y: real)
    ensures var r := ExportOnlyCorrected(aIre, aEng, bIre, bEng, f, t);
            var dq, ds := x - r.qIe, y - r.qEn;
            ExportProfitSquaredCost(aIre, aEng, f, t, x, y)
            == r.profit - (dq * dq + ds * ds + (dq + ds) * (dq + ds))
  {
    var r := ExportOnlyCorrected(aIre, aEng, bIre, bEng, f, t);
    var q, s := r.qIe, r.qEn;
    var dq, ds := x - q, y - s;
    assert (aIre - x) * x - (aIre - q) * q == dq * (aIre - 2.0 * q) - dq * dq;
    assert (aEng - y) * y - (aEng - s) * s == ds * (aEng - 2.0 * s) - ds * ds;
    assert (x + y) * (x + y) - (q + s) * (q + s) == 2.0 * (q + s) * (dq + ds) + (dq + ds) * (dq + ds);
    assert dq * (aIre - 2.0 * q) - 2.0 * (q + s) * dq == dq * (aIre - 4.0 * q - 2.0 * s);
    assert ds * (aEng - t - 2.0 * s) - 2.0 * (q + s) * ds == ds * (aEng - t - 2.0 * q - 4.0 * s);
  }

  /** At the defaults the corrected profit is 11400, and the pair (31, 80)
      earns less. */
  lemma ExportOnlyCorrectedDefaults()
    ensures ExportOnlyCorrected() == ExportOutcome(30.0, 80.0, 250.0, 320.0, 11400.0)
    ensures ExportProfitSquaredCost(280.0, 400.0, 8000.0, 20.0, 31.0, 80.0) == 11398.0
  {
    ExportOnlyDefaults();
  }

  // ---------------------------------------------------------------------------
  // Two plants

  /** Two plants, one per country.  The production plan arguments are
      overwritten with the fixed plan y = 70, z = 100, x = 20 before use. */
  function HorizontalFdi(y: Option<real> := None, z: Option<real> := None, x: Option<real> := None,
                         aIre: real := DefaultParamsHfdi.aIre, aEng: real := DefaultParamsHfdi.aEng,
                         transportCost: real := DefaultParamsHfdi.t, fixedCost: real := DefaultParamsHfdi.f)
    : (r: PlantOutcome)
    ensures r.qIreland + r.qEngland == r.y + r.z
    ensures r.profit == r.tr - r.tc
  {
    var x := 20.0;
    var y := 70.0;
    var z := 100.0;
    var qIreland := y - x;
    var qEngland := z + x;
    var pIreland := aIre - qIreland;
    var pEngland := aEng - qEngland;
    var tr := pIreland * qIreland + pEngland * qEngland;
    var tc := y * y + z * z + transportCost * x + 2.0 * fixedCost;
    PlantOutcome(y, z, x, qIreland, qEngland, pIreland, pEngland, tr, tc, tr - tc)
  }

  /** Whatever plan is passed in, the outcome is that of the fixed plan. */
  lemma HorizontalFdiIgnoresPlan(y: Option<real>, z: Option<real>, x: Option<real>,
                                 y': Option<real>, z': Option<real>, x': Option<real>,
                                 aIre: real, aEng: real, transportCost: real, fixedCost: real)
    ensures HorizontalFdi(y, z, x, aIre, aEng, transportCost, fixedCost)
            == HorizontalFdi(y', z', x', aIre, aEng, transportCost, fixedCost)
  {
  }

  /** The fixed plan's quantities, prices and cost. */
  lemma HorizontalFdiPlan(y: Option<real>, z: Option<real>, x: Option<real>, aIre: real, aEng: real,
                          transportCost: real, fixedCost: real)
    ensures var r := HorizontalFdi(y, z, x, aIre, aEng, transportCost, fixedCost);
            && r.qIreland == 50.0 && r.qEngland == 120.0
            && r.pIreland == aIre - 50.0 && r.pEngland == aEng - 120.0
            && r.tc == 4900.0 + 10000.0 + 20.0 * transportCost + 2.0 * fixedCost
  {
  }

  /** At the defaults the two-plant profit is 13800. */
  lemma HorizontalFdiDefaults()
    ensures var r := HorizontalFdi();
            r.tr == 45100.0 && r.tc == 31300.0 && r.profit == 13800.0
  {
  }
}
