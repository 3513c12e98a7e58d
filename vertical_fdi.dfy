/** Vertical FDI: an upstream firm sells an input (ball bearings) at price pb
    to a downstream firm that needs k units of it per machine and faces the
    linear demand P = a - b*Q for machines.  Every equilibrium is a closed-form
    substitution; all arithmetic is over exact reals, and nothing is clamped
    to zero: under separation, integration and buy-at-cost, with b > 0, the
    quantity is negative when a - cd < k*cu (under transfer pricing its sign
    also depends on the target), and profits net of fixed cost or at a
    transfer price below cost may be negative.  Omitted arguments take their
    values from the default table. */
module VerticalFDI {

  /** The default parameter table of the vertical model. */
  datatype VerticalParams = VerticalParams(cu: real, cd: real, k: real, a: real, b: real, fixedCost: real)

  const DefaultParamsVfdi: VerticalParams := VerticalParams(6.0, 4.0, 2.0, 240.0, 2.0, 1000.0)

  /** Outcome of the separated, transfer-pricing and buy-at-cost scenarios. */
  datatype Outcome = Outcome(q: real, p: real, pb: real, piDown: real, piUp: real, piTotal: real)

  /** Outcome of the integrated scenario. */
  datatype IntegratedOutcome = IntegratedOutcome(q: real, p: real, pi: real)

  // ---------------------------------------------------------------------------
  // The firms' payoffs, as functions of their choice variables

  /** Downstream best response: the output that maximises DownstreamProfit
      when the input costs pb (see DownstreamBestResponse). */
  function DownstreamQuantity(a: real, b: real, cd: real, k: real, pb: real): real
    requires b != 0.0
  {
    (a - cd - k * pb) / (2.0 * b)
  }

  /** Downstream profit from selling q machines at the demand price a - b*q
      when each machine costs cd plus k units of input at pb. */
  function DownstreamProfit(a: real, b: real, cd: real, k: real, pb: real, q: real): real
  {
    (a - b * q - cd - k * pb) * q
  }

  /** Upstream profit at input price pb, the downstream firm best-responding. */
  function UpstreamProfit(a: real, b: real, cu: real, cd: real, k: real, pb: real): real
    requires b != 0.0
  {
    (pb - cu) * k * DownstreamQuantity(a, b, cd, k, pb)
  }

  /** On the best response the downstream margin P - cd - k*pb is b*Q. */
  lemma MarginIsSlopeTimesQuantity(a: real, b: real, cd: real, k: real, pb: real)
    requires b != 0.0
    ensures var q := DownstreamQuantity(a, b, cd, k, pb);
            a - b * q - cd - k * pb == b * q
  {
    var q := DownstreamQuantity(a, b, cd, k, pb);
    assert 2.0 * b * q == a - cd - k * pb;
  }

  /** The downstream quantity maximises downstream profit for every input price. */
  lemma DownstreamBestResponse(a: real, b: real, cd: real, k: real, pb: real, q: real)
    requires b > 0.0
    ensures DownstreamProfit(a, b, cd, k, pb, q)
            <= DownstreamProfit(a, b, cd, k, pb, DownstreamQuantity(a, b, cd, k, pb))
  {
    var qs := DownstreamQuantity(a, b, cd, k, pb);
    var m := a - cd - k * pb;
    assert 2.0 * b * qs == m;
    assert DownstreamProfit(a, b, cd, k, pb, qs) - DownstreamProfit(a, b, cd, k, pb, q)
        == b * ((q - qs) * (q - qs));
    assert (q - qs) * (q - qs) >= 0.0;
  }

  // ---------------------------------------------------------------------------
  // Separated firms

  /** Independent upstream and downstream monopolists: upstream picks pb
      knowing downstream's best response. */
  function SeparatedEquilibrium(cu: real := DefaultParamsVfdi.cu, cd: real := DefaultParamsVfdi.cd,
                                k: real := DefaultParamsVfdi.k, a: real := DefaultParamsVfdi.a,
                                b: real := DefaultParamsVfdi.b): (r: Outcome)
    requires k != 0.0 && b != 0.0
    ensures r.q == (a - cd - k * cu) / (4.0 * b)
    ensures r.p == a - b * r.q
  {
    var pb := (a - cd + k * cu) / (2.0 * k);
    var q := DownstreamQuantity(a, b, cd, k, pb);
    var p := a - b * q;
    var piDown := (p - cd - k * pb) * q;
    var piUp := (pb - cu) * k * q;
    assert 2.0 * k * pb == a - cd + k * cu;
    assert 2.0 * b * q == a - cd - k * pb;
    Outcome(q, p, pb, piDown, piUp, piDown + piUp)
  }

  /** Profit split under separation: downstream earns b*Q^2, upstream exactly
      twice that, and the total is their sum. */
  lemma SeparatedProfitSplit(cu: real, cd: real, k: real, a: real, b: real)
    requires k != 0.0 && b != 0.0
    ensures var r := SeparatedEquilibrium(cu, cd, k, a, b);
            && r.piDown == b * r.q * r.q
            && r.piUp == 2.0 * r.piDown
            && r.piTotal == r.piDown + r.piUp
  {
    var r := SeparatedEquilibrium(cu, cd, k, a, b);
    MarginIsSlopeTimesQuantity(a, b, cd, k, r.pb);
    assert 2.0 * k * r.pb == a - cd + k * cu;
    assert 2.0 * b * r.q == a - cd - k * r.pb;
    assert (r.pb - cu) * k == 2.0 * b * r.q by {
      assert (r.pb - cu) * k * 2.0 == a - cd - k * cu;
      assert 4.0 * b * r.q == a - cd - k * cu;
    }
  }

  /** Twice the slope times the upstream shortfall at p, relative to the
      price pb solving 2*k*pb = a - cd + k*cu, is k^2 * (pb - p)^2. */
  lemma UpstreamProfitGap(a: real, b: real, cu: real, cd: real, k: real, pb: real, p: real)
    requires b != 0.0 && 2.0 * k * pb == a - cd + k * cu
    ensures 2.0 * b * (UpstreamProfit(a, b, cu, cd, k, pb) - UpstreamProfit(a, b, cu, cd, k, p))
            == (k * k) * ((pb - p) * (pb - p))
  {
    var q, qs := DownstreamQuantity(a, b, cd, k, p), DownstreamQuantity(a, b, cd, k, pb);
    assert 2.0 * b * q == a - cd - k * p;
    assert 2.0 * b * qs == a - cd - k * pb;
    assert 2.0 * b * UpstreamProfit(a, b, cu, cd, k, p) == k * ((p - cu) * (a - cd - k * p));
    assert 2.0 * b * UpstreamProfit(a, b, cu, cd, k, pb) == k * ((pb - cu) * (a - cd - k * pb));
    assert (pb - cu) * (a - cd - k * pb) - (p - cu) * (a - cd - k * p) == k * ((pb - p) * (pb - p)) by {
      assert (a - cd + k * cu) * (pb - p) == 2.0 * k * pb * (pb - p);
    }
  }

  /** The separated input price is the upstream firm's optimum: no other
      price earns it more, given downstream's best response. */
  lemma SeparatedPriceMaximizesUpstream(cu: real, cd: real, k: real, a: real, b: real, p: real)
    requires k != 0.0 && b > 0.0
    ensures var r := SeparatedEquilibrium(cu, cd, k, a, b);
            && r.piUp == UpstreamProfit(a, b, cu, cd, k, r.pb)
            && UpstreamProfit(a, b, cu, cd, k, p) <= r.piUp
  {
    var r := SeparatedEquilibrium(cu, cd, k, a, b);
    assert 2.0 * k * r.pb == a - cd + k * cu;
    assert r.piUp == UpstreamProfit(a, b, cu, cd, k, r.pb);
    UpstreamProfitGap(a, b, cu, cd, k, r.pb, p);
    var gap := r.piUp - UpstreamProfit(a, b, cu, cd, k, p);
    SquareScaledNonnegative(b, k * k, r.pb - p, gap);
  }

  /** If 2*b*g = c*d^2 with b > 0 and c >= 0, then g >= 0. */
  lemma SquareScaledNonnegative(b: real, c: real, d: real, g: real)
    requires b > 0.0 && c >= 0.0 && 2.0 * b * g == c * (d * d)
    ensures g >= 0.0
  {
    assert d * d >= 0.0;
    assert c * (d * d) >= 0.0;
  }

  // ---------------------------------------------------------------------------
  // Integrated firm

  /** One firm owning both stages: it pays the input at cost cu, and its
      profit is net of the global default fixed cost, never of an argument. */
  function IntegratedEquilibrium(a: real := DefaultParamsVfdi.a, b: real := DefaultParamsVfdi.b,
                                 cu: real := DefaultParamsVfdi.cu, cd: real := DefaultParamsVfdi.cd,
                                 k: real := DefaultParamsVfdi.k): (r: IntegratedOutcome)
    requires b != 0.0
    ensures r.pi == b * r.q * r.q - DefaultParamsVfdi.fixedCost
  {
    var q := (a - cd - k * cu) / (2.0 * b);
    var p := a - b * q;
    assert 2.0 * b * q == a - cd - k * cu;
    IntegratedOutcome(q, p, (p - cd - k * cu) * q - DefaultParamsVfdi.fixedCost)
  }

  /** No double marginalisation: the integrated firm sells exactly twice the
      separated quantity, at a price on the same demand curve. */
  lemma IntegratedDoublesSeparated(a: real, b: real, cu: real, cd: real, k: real)
    requires k != 0.0 && b != 0.0
    ensures var ri := IntegratedEquilibrium(a, b, cu, cd, k);
            var rs := SeparatedEquilibrium(cu, cd, k, a, b);
            ri.q == 2.0 * rs.q && ri.p == a - b * ri.q
  {
    var ri := IntegratedEquilibrium(a, b, cu, cd, k);
    var rs := SeparatedEquilibrium(cu, cd, k, a, b);
    assert 2.0 * b * ri.q == a - cd - k * cu;
    assert 4.0 * b * rs.q == a - cd - k * cu;
  }

  /** Gross of the fixed cost, integrated profit is 4/3 of the separated total
      (4/16 against 3/16 of (a - cd - k*cu)^2 / b), so for a downward-sloping
      demand integration never earns less before fixed cost. */
  lemma IntegratedVersusSeparatedProfit(a: real, b: real, cu: real, cd: real, k: real)
    requires k != 0.0 && b != 0.0
    ensures var ri := IntegratedEquilibrium(a, b, cu, cd, k);
            var rs := SeparatedEquilibrium(cu, cd, k, a, b);
            && 3.0 * (ri.pi + DefaultParamsVfdi.fixedCost) == 4.0 * rs.piTotal
            && (b > 0.0 ==> ri.pi + DefaultParamsVfdi.fixedCost >= rs.piTotal)
  {
    var ri := IntegratedEquilibrium(a, b, cu, cd, k);
    var rs := SeparatedEquilibrium(cu, cd, k, a, b);
    IntegratedDoublesSeparated(a, b, cu, cd, k);
    SeparatedProfitSplit(cu, cd, k, a, b);
    assert ri.pi + DefaultParamsVfdi.fixedCost == 4.0 * (b * rs.q * rs.q);
    assert rs.piTotal == 3.0 * (b * rs.q * rs.q);
    if b > 0.0 {
      assert b * (rs.q * rs.q) >= 0.0;
    }
  }

  /** The integrated quantity maximises joint profit, which is downstream
      profit when the input is transferred at cost cu. */
  lemma IntegratedQuantityMaximizes(a: real, b: real, cu: real, cd: real, k: real, q: real)
    requires b > 0.0
    ensures DownstreamProfit(a, b, cd, k, cu, q) - DefaultParamsVfdi.fixedCost
            <= IntegratedEquilibrium(a, b, cu, cd, k).pi
  {
    var ri := IntegratedEquilibrium(a, b, cu, cd, k);
    assert ri.q == DownstreamQuantity(a, b, cd, k, cu);
    DownstreamBestResponse(a, b, cd, k, cu, q);
  }

  // ---------------------------------------------------------------------------
  // Transfer pricing

  /** Transfer price set from a target upstream profit by the linear formula
      of the source; the rest follows the separated chain, net of fixed cost. */
  function TransferPricingEquilibrium(targetPiUp: real, a: real := DefaultParamsVfdi.a,
                                      b: real := DefaultParamsVfdi.b, cu: real := DefaultParamsVfdi.cu,
                                      cd: real := DefaultParamsVfdi.cd, k: real := DefaultParamsVfdi.k,
                                      fixedCost: real := DefaultParamsVfdi.fixedCost): (r: Outcome)
    requires b != 0.0 && k * (a - cd + k * cu) != 0.0
    ensures r.piDown == b * r.q * r.q
    ensures r.piTotal == r.piDown + r.piUp - fixedCost
  {
    var pb := (2.0 * b * targetPiUp + k * cu * (a - cd)) / (k * (a - cd + k * cu));
    var q := DownstreamQuantity(a, b, cd, k, pb);
    var p := a - b * q;
    var piDown := (p - cd - k * pb) * q;
    var piUp := (pb - cu) * k * q;
    MarginIsSlopeTimesQuantity(a, b, cd, k, pb);
    Outcome(q, p, pb, piDown, piUp, piDown + piUp - fixedCost)
  }

  /** The transfer price's markup over cost: pb - cu = (2*b*T - k^2*cu^2) / (k*(a - cd + k*cu)). */
  lemma TransferMarkup(targetPiUp: real, a: real, b: real, cu: real, cd: real, k: real, fixedCost: real)
    requires b != 0.0 && k * (a - cd + k * cu) != 0.0
    ensures TransferPricingEquilibrium(targetPiUp, a, b, cu, cd, k, fixedCost).pb - cu
            == (2.0 * b * targetPiUp - k * k * cu * cu) / (k * (a - cd + k * cu))
  {
    var s := k * (a - cd + k * cu);
    var num := 2.0 * b * targetPiUp + k * cu * (a - cd);
    var pb := TransferPricingEquilibrium(targetPiUp, a, b, cu, cd, k, fixedCost).pb;
    assert pb == num / s;
    assert pb * s == num;
    assert cu * s == k * cu * (a - cd) + k * k * cu * cu;
    assert (pb - cu) * s == 2.0 * b * targetPiUp - k * k * cu * cu;
  }

  /** Transfer pricing reproduces buy-at-cost exactly when 2*b*T = (k*cu)^2,
      and in no other case; in particular a target of 0 does not, unless k*cu = 0. */
  lemma TransferMatchesBuyAtCost(targetPiUp: real, a: real, b: real, cu: real, cd: real, k: real,
                                 fixedCost: real)
    requires b != 0.0 && k * (a - cd + k * cu) != 0.0
    ensures var rt := TransferPricingEquilibrium(targetPiUp, a, b, cu, cd, k, fixedCost);
            && (rt.pb == cu <==> 2.0 * b * targetPiUp == k * k * cu * cu)
            && (rt.pb == cu <==> rt == BuyAtCostEquilibrium(a, b, cu, cd, k, fixedCost))
  {
    var s := k * (a - cd + k * cu);
    var rt := TransferPricingEquilibrium(targetPiUp, a, b, cu, cd, k, fixedCost);
    var rc := BuyAtCostEquilibrium(a, b, cu, cd, k, fixedCost);
    TransferMarkup(targetPiUp, a, b, cu, cd, k, fixedCost);
    var x := 2.0 * b * targetPiUp - k * k * cu * cu;
    assert (rt.pb - cu) * s == x;
    if x == 0.0 {
      assert rt.pb - cu == x / s;
    }
    if rt.pb == cu {
      assert rt.q == rc.q;
      assert rt.p == rc.p;
      assert rt.piDown == rc.piDown;
      assert rt.piUp == 0.0 == rc.piUp;
    }
  }

  /** At the default parameters a zero target does not give upstream zero
      profit, nor the buy-at-cost quantity: the linear transfer-price formula
      does not deliver the target profit its documentation promises. */
  lemma TransferZeroTargetAtDefaults()
    ensures var rt := TransferPricingEquilibrium(0.0);
            && rt.pb == 177.0 / 31.0
            && rt.piUp < 0.0
            && rt.q != BuyAtCostEquilibrium().q
  {
    var rt := TransferPricingEquilibrium(0.0);
    assert rt.pb == 2832.0 / 496.0;
    assert rt.q == 3481.0 / 62.0;
  }

  // ---------------------------------------------------------------------------
  // Buying at cost

  /** Downstream pays upstream its marginal cost for the input. */
  function BuyAtCostEquilibrium(a: real := DefaultParamsVfdi.a, b: real := DefaultParamsVfdi.b,
                                cu: real := DefaultParamsVfdi.cu, cd: real := DefaultParamsVfdi.cd,
                                k: real := DefaultParamsVfdi.k, fixedCost: real := DefaultParamsVfdi.fixedCost)
    : (r: Outcome)
    requires b != 0.0
    ensures r.piDown == b * r.q * r.q
  {
    var pb := cu;
    var mc := cd + k * pb;
    var q := (a - mc) / (2.0 * b);
    var p := a - b * q;
    var piDown := (p - mc) * q;
    var piUp := (pb - cu) * k * q;
    assert 2.0 * b * q == a - mc;
    Outcome(q, p, pb, piDown, piUp, piDown + piUp - fixedCost)
  }

  /** Buying at cost leaves upstream nothing, reproduces the integrated
      quantity and price, and its total is downstream profit less fixed cost;
      with the default fixed cost it equals integrated profit. */
  lemma BuyAtCostIsIntegrated(a: real, b: real, cu: real, cd: real, k: real, fixedCost: real)
    requires b != 0.0
    ensures var rc := BuyAtCostEquilibrium(a, b, cu, cd, k, fixedCost);
            var ri := IntegratedEquilibrium(a, b, cu, cd, k);
            && rc.pb == cu && rc.piUp == 0.0
            && rc.q == ri.q && rc.p == ri.p
            && rc.piTotal == rc.piDown - fixedCost
            && rc.piTotal == ri.pi + DefaultParamsVfdi.fixedCost - fixedCost
  {
    var rc := BuyAtCostEquilibrium(a, b, cu, cd, k, fixedCost);
    var ri := IntegratedEquilibrium(a, b, cu, cd, k);
    assert rc.q == (a - (cd + k * cu)) / (2.0 * b) == ri.q;
    assert rc.piUp == 0.0 * k * rc.q == 0.0;
    assert rc.piDown == (rc.p - cd - k * cu) * rc.q == ri.pi + DefaultParamsVfdi.fixedCost;
  }

  // ---------------------------------------------------------------------------
  // The default parameters

  /** The documented outcomes at the default parameters. */
  lemma VerticalDefaults()
    ensures SeparatedEquilibrium() == Outcome(28.0, 184.0, 62.0, 1568.0, 3136.0, 4704.0)
    ensures IntegratedEquilibrium() == IntegratedOutcome(56.0, 128.0, 5272.0)
    ensures BuyAtCostEquilibrium() == Outcome(56.0, 128.0, 6.0, 6272.0, 0.0, 5272.0)
  {
  }
}
