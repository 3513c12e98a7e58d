/** The older separated-firm solver: a Slovenian bearing maker (upstream)
    sells bearings at P_b to a Greek machine maker (downstream) that needs
    bearingsPerMachine bearings per machine and faces demand
    P = demandIntercept - demandSlope*Q.  All arithmetic is over exact reals. */
module Simulation {

  import VerticalFDI

  /** The solver's default arguments. */
  datatype SimParams = SimParams(demandIntercept: real, demandSlope: real, bearingCost: real,
                                 machineCost: real, bearingsPerMachine: real)

  const DefaultSimParams: SimParams := SimParams(240.0, 2.0, 6.0, 4.0, 2.0)

  datatype SimOutcome = SimOutcome(bearingPrice: real, machinePrice: real, machinesQuantity: real,
                                   bearingsQuantity: real, slovenianProfit: real, greekProfit: real)

  /** The Greek firm's reaction: machines produced when bearings cost pB.  It
      sets marginal revenue equal to marginal cost (see GreekQuantityBestResponse). */
  function GreekQuantity(demandIntercept: real, demandSlope: real, machineCost: real,
                         bearingsPerMachine: real, pB: real): (q: real)
    requires demandSlope != 0.0
    ensures demandIntercept - 2.0 * demandSlope * q == machineCost + bearingsPerMachine * pB
  {
    (demandIntercept - machineCost - bearingsPerMachine * pB) / (2.0 * demandSlope)
  }

  /** With a downward-sloping demand no machine output earns the Greek firm
      more than its reaction does, whatever the bearing price. */
  lemma GreekQuantityBestResponse(demandIntercept: real, demandSlope: real, machineCost: real,
                                  bearingsPerMachine: real, pB: real, q: real)
    requires demandSlope > 0.0
    ensures VerticalFDI.DownstreamProfit(demandIntercept, demandSlope, machineCost, bearingsPerMachine, pB, q)
            <= VerticalFDI.DownstreamProfit(demandIntercept, demandSlope, machineCost, bearingsPerMachine, pB,
                                            GreekQuantity(demandIntercept, demandSlope, machineCost,
                                                          bearingsPerMachine, pB))
  {
    VerticalFDI.DownstreamBestResponse(demandIntercept, demandSlope, machineCost, bearingsPerMachine, pB, q);
  }

  /** The Slovenian firm's profit at bearing price pB, the Greek firm reacting. */
  function SlovenianProfit(demandIntercept: real, demandSlope: real, bearingCost: real, machineCost: real,
                           bearingsPerMachine: real, pB: real): (pi: real)
    requires demandSlope != 0.0
    ensures pi == VerticalFDI.UpstreamProfit(demandIntercept, demandSlope, bearingCost, machineCost,
                                             bearingsPerMachine, pB)
  {
    var q := GreekQuantity(demandIntercept, demandSlope, machineCost, bearingsPerMachine, pB);
    var bearings := bearingsPerMachine * q;
    pB * bearings - bearingCost * bearings
  }

  /** The solver as written: the bearing price is (demandIntercept - machineCost)/4
      whatever the bearing cost and the bearings per machine. */
  function RunModel(demandIntercept: real := DefaultSimParams.demandIntercept,
                    demandSlope: real := DefaultSimParams.demandSlope,
                    bearingCost: real := DefaultSimParams.bearingCost,
                    machineCost: real := DefaultSimParams.machineCost,
                    bearingsPerMachine: real := DefaultSimParams.bearingsPerMachine): (r: SimOutcome)
    requires demandSlope != 0.0
    ensures r.bearingsQuantity == bearingsPerMachine * r.machinesQuantity
    ensures r.greekProfit == demandSlope * r.machinesQuantity * r.machinesQuantity
  {
    var pBStar := (demandIntercept - machineCost) / 4.0;
    SolveAt(demandIntercept, demandSlope, bearingCost, machineCost, bearingsPerMachine, pBStar)
  }

  /** The rest of the solver once the bearing price is fixed: the Greek
      reaction, the market price of machines and both profits. */
  function SolveAt(demandIntercept: real, demandSlope: real, bearingCost: real, machineCost: real,
                   bearingsPerMachine: real, pBStar: real): (r: SimOutcome)
    requires demandSlope != 0.0
    ensures r.bearingPrice == pBStar
    ensures r.bearingsQuantity == bearingsPerMachine * r.machinesQuantity
    ensures r.greekProfit == demandSlope * r.machinesQuantity * r.machinesQuantity
  {
    var qStar := GreekQuantity(demandIntercept, demandSlope, machineCost, bearingsPerMachine, pBStar);
    var bearings := bearingsPerMachine * qStar;
    var pStar := demandIntercept - demandSlope * qStar;
    var piS := SlovenianProfit(demandIntercept, demandSlope, bearingCost, machineCost, bearingsPerMachine, pBStar);
    var piG := pStar * qStar - machineCost * qStar - pBStar * bearingsPerMachine * qStar;
    VerticalFDI.MarginIsSlopeTimesQuantity(demandIntercept, demandSlope, machineCost, bearingsPerMachine, pBStar);
    SimOutcome(pBStar, pStar, qStar, bearings, piS, piG)
  }

  /** The bearing price depends on neither the bearing cost nor the bearings
      per machine. */
  lemma RunModelBearingPrice(demandIntercept: real, demandSlope: real, bearingCost: real, machineCost: real,
                             bearingsPerMachine: real, bearingCost': real, bearingsPerMachine': real)
    requires demandSlope != 0.0
    ensures var r := RunModel(demandIntercept, demandSlope, bearingCost, machineCost, bearingsPerMachine);
            var r' := RunModel(demandIntercept, demandSlope, bearingCost', machineCost, bearingsPerMachine');
            && r.bearingPrice == (demandIntercept - machineCost) / 4.0
            && r.bearingPrice == r'.bearingPrice
  {
  }

  /** At any bearing price the solver's chain is the vertical model's:
      the Greek reaction is the downstream best response, the machine price
      lies on the demand curve, the Slovenian profit is upstream profit and
      the Greek profit is downstream profit at that quantity. */
  lemma SolveAtIsVerticalChain(demandIntercept: real, demandSlope: real, bearingCost: real, machineCost: real,
                               bearingsPerMachine: real, pBStar: real)
    requires demandSlope != 0.0
    ensures var r := SolveAt(demandIntercept, demandSlope, bearingCost, machineCost, bearingsPerMachine, pBStar);
            && r.machinesQuantity
               == VerticalFDI.DownstreamQuantity(demandIntercept, demandSlope, machineCost, bearingsPerMachine, pBStar)
            && r.machinePrice == demandIntercept - demandSlope * r.machinesQuantity
            && r.slovenianProfit
               == VerticalFDI.UpstreamProfit(demandIntercept, demandSlope, bearingCost, machineCost,
                                             bearingsPerMachine, pBStar)
            && r.greekProfit
               == VerticalFDI.DownstreamProfit(demandIntercept, demandSlope, machineCost, bearingsPerMachine,
                                               pBStar, r.machinesQuantity)
  {
    var r := SolveAt(demandIntercept, demandSlope, bearingCost, machineCost, bearingsPerMachine, pBStar);
    assert r.greekProfit
        == (demandIntercept - demandSlope * r.machinesQuantity - machineCost - bearingsPerMachine * pBStar)
           * r.machinesQuantity;
  }

  /** With a downward-sloping demand the solver as written never earns the
      Slovenian firm more than the separated equilibrium of the vertical model. */
  lemma RunModelUpstreamAtMostSeparated(demandIntercept: real, demandSlope: real, bearingCost: real,
                                        machineCost: real, bearingsPerMachine: real)
    requires demandSlope > 0.0 && bearingsPerMachine != 0.0
    ensures RunModel(demandIntercept, demandSlope, bearingCost, machineCost, bearingsPerMachine).slovenianProfit
            <= VerticalFDI.SeparatedEquilibrium(bearingCost, machineCost, bearingsPerMachine,
                                                demandIntercept, demandSlope).piUp
  {
    var r := RunModel(demandIntercept, demandSlope, bearingCost, machineCost, bearingsPerMachine);
    SolveAtIsVerticalChain(demandIntercept, demandSlope, bearingCost, machineCost, bearingsPerMachine, r.bearingPrice);
    VerticalFDI.SeparatedPriceMaximizesUpstream(bearingCost, machineCost, bearingsPerMachine,
                                                demandIntercept, demandSlope, r.bearingPrice);
  }

  /** The documented outcome at the default arguments. */
  lemma RunModelDefaults()
    ensures RunModel() == SimOutcome(59.0, 181.0, 29.5, 59.0, 3127.0, 1740.5)
  {
  }

  /** At the default arguments the chosen bearing price 59 is not the
      Slovenian optimum: a price of 62 earns 3136 rather than 3127. */
  lemma RunModelBearingPriceNotOptimal()
    ensures var d := DefaultSimParams;
            var r := RunModel(d.demandIntercept, d.demandSlope, d.bearingCost, d.machineCost, d.bearingsPerMachine);
            && SlovenianProfit(d.demandIntercept, d.demandSlope, d.bearingCost, d.machineCost,
                               d.bearingsPerMachine, 62.0) == 3136.0
            && r.slovenianProfit == 3127.0
  {
    RunModelDefaults();
  }

  /** The solver with the bearing price set by the Slovenian first-order
      condition, (demandIntercept - machineCost + bearingsPerMachine*bearingCost)
      / (2*bearingsPerMachine). */
  function RunModelCorrected(demandIntercept: real, demandSlope: real, bearingCost: real, machineCost: real,
                             bearingsPerMachine: real): (r: SimOutcome)
    requires demandSlope != 0.0 && bearingsPerMachine != 0.0
    ensures 2.0 * bearingsPerMachine * r.bearingPrice
            == demandIntercept - machineCost + bearingsPerMachine * bearingCost
  {
    var pBStar := (demandIntercept - machineCost + bearingsPerMachine * bearingCost) / (2.0 * bearingsPerMachine);
    SolveAt(demandIntercept, demandSlope, bearingCost, machineCost, bearingsPerMachine, pBStar)
  }

  /** The corrected bearing price maximises the Slovenian profit. */
  lemma CorrectedBearingPriceMaximizes(demandIntercept: real, demandSlope: real, bearingCost: real,
                                       machineCost: real, bearingsPerMachine: real, p: real)
    requires demandSlope > 0.0 && bearingsPerMachine != 0.0
    ensures var r := RunModelCorrected(demandIntercept, demandSlope, bearingCost, machineCost, bearingsPerMachine);
            && r.slovenianProfit == SlovenianProfit(demandIntercept, demandSlope, bearingCost, machineCost,
                                                    bearingsPerMachine, r.bearingPrice)
            && SlovenianProfit(demandIntercept, demandSlope, bearingCost, machineCost, bearingsPerMachine, p)
               <= r.slovenianProfit
  {
    CorrectedAgreesWithSeparated(demandIntercept, demandSlope, bearingCost, machineCost, bearingsPerMachine);
    VerticalFDI.SeparatedPriceMaximizesUpstream(bearingCost, machineCost, bearingsPerMachine,
                                                demandIntercept, demandSlope, p);
  }

  /** The corrected solver agrees with the separated equilibrium of the
      vertical model: the Slovenian firm is its upstream, the Greek its downstream. */
  lemma CorrectedAgreesWithSeparated(demandIntercept: real, demandSlope: real, bearingCost: real,
                                     machineCost: real, bearingsPerMachine: real)
    requires demandSlope != 0.0 && bearingsPerMachine != 0.0
    ensures var r := RunModelCorrected(demandIntercept, demandSlope, bearingCost, machineCost, bearingsPerMachine);
            var s := VerticalFDI.SeparatedEquilibrium(bearingCost, machineCost, bearingsPerMachine,
                                                      demandIntercept, demandSlope);
            && r.bearingPrice == s.pb && r.machinesQuantity == s.q && r.machinePrice == s.p
            && r.bearingsQuantity == bearingsPerMachine * s.q
            && r.slovenianProfit == s.piUp && r.greekProfit == s.piDown
  {
    var r := RunModelCorrected(demandIntercept, demandSlope, bearingCost, machineCost, bearingsPerMachine);
    var s := VerticalFDI.SeparatedEquilibrium(bearingCost, machineCost, bearingsPerMachine,
                                              demandIntercept, demandSlope);
    VerticalFDI.SeparatedProfitSplit(bearingCost, machineCost, bearingsPerMachine, demandIntercept, demandSlope);
    var pb := r.bearingPrice;
    assert pb == s.pb;
    var q := VerticalFDI.DownstreamQuantity(demandIntercept, demandSlope, machineCost, bearingsPerMachine, pb);
    assert r.machinesQuantity == q == s.q;
    assert r.machinePrice == s.p;
    assert r.slovenianProfit == VerticalFDI.UpstreamProfit(demandIntercept, demandSlope, bearingCost, machineCost,
                                                          bearingsPerMachine, pb);
    assert s.piUp == (pb - bearingCost) * bearingsPerMachine * q;
    assert r.slovenianProfit == s.piUp;
    assert r.greekProfit == demandSlope * q * q == s.piDown;
  }
}
