/** Exactly when a deal keeps its approval as its terms get deeper and counter-offers open and close. */
module NegotiationTerms {
  import opened Prelude
  import opened Sums
  import opened Decimals
  import opened RiskModel
  import opened RiskMonotone
  import opened RiskScoring
  import opened RiskFloor
  import opened ApprovalModel
  import opened ApprovalRuns
  import opened ApprovalLocks

  /** The caps and inventory points are whole cents, as they are wherever the program scores a deal. */
  ghost predicate WholeCents(p: Params) {
    && IsHundredths(p.marginCap) && IsHundredths(p.invSplitPoints) && IsHundredths(p.invBackorderPoints)
    && IsHundredths(p.invCap)
  }

  /** Discount and margin points: the part of the score that discounts decide. */
  function TermPoints(ctx: Context, p: Params): real {
    DiscountPoints(Overages(ctx), p) + MarginPoints(MarginPct(Overages(ctx)), p)
  }

  /** What the score loses by the counter-offers that were open when signing and no longer are: 5, 0 or -5. */
  function Freed(signed: Context, after: Context): real {
    NegotiationPoints(signed.openCounter) - NegotiationPoints(after.openCounter)
  }

  /** The largest overage stays below the threshold of a higher stage than the signed one. */
  predicate StageHolds(signed: Level, maxOverage: real, p: Params) {
    match signed
    case NoApproval => maxOverage == 0.0
    case Manager => maxOverage < p.singleLineFinancePts
    case ManagerAndFinance => true
  }

  /** after has the signed lines with some discounts raised; counter-offers may have opened or closed. */
  ghost predicate Deeper(signed: Context, after: Context) { Raised(signed, after.(openCounter := signed.openCounter)) }

  /** Overages do not depend on counter-offers. */
  lemma FlagIrrelevant(ctx: Context, openCounter: bool)
    ensures Overages(ctx.(openCounter := openCounter)) == Overages(ctx)
  {
    var c := ctx.(openCounter := openCounter);
    assert forall i :: 0 <= i < |ctx.lines| ==> Overages(c)[i] == Assess(c, ctx.lines[i]) == Assess(ctx, ctx.lines[i]);
  }

  /** Two capped scores compare as their points do, below the cap. */
  lemma CappedScores(a: real, b: real)
    ensures MinReal(100.0, b) <= MinReal(100.0, a) <==> a >= 100.0 || b <= a
  {
  }

  /** When the score does not rise, only the largest overage can raise the stage. */
  lemma StageExactly(signedMax: real, signedScore: real, max: real, score: real, p: Params)
    requires 0.0 <= signedMax && score <= signedScore
    ensures LevelPriority(LevelOf(max, score, p)) <= LevelPriority(LevelOf(signedMax, signedScore, p))
            <==> StageHolds(LevelOf(signedMax, signedScore, p), max, p)
  {
  }

  lemma MaxOverageNonNegative(ctx: Context)
    ensures 0.0 <= MaxOverage(Overages(ctx))
  {
    OverageNonNegative(ctx);
  }

  /** A verdict is covered by a signed one if and only if its points are no higher, or the signed score was 100,
      and its largest overage reaches no higher stage. */
  lemma CoveredExactly(signed: Context, after: Context, p: Params)
    requires WholeCents(p)
    ensures Covered(Some(Verdict(signed, p)), Verdict(after, p)) <==>
              && (Points(signed, Overages(signed), p) >= 100.0
                  || Points(after, Overages(after), p) <= Points(signed, Overages(signed), p))
              && StageHolds(RequiredLevel(signed, p), MaxOverage(Overages(after)), p)
  {
    MaxOverageNonNegative(signed);
    hide Points, Overages, MaxOverage, IsHundredths;
    ScoreIsExactSum(signed, p);
    ScoreIsExactSum(after, p);
    hide Score;
    var (a, b) := (Points(signed, Overages(signed), p), Points(after, Overages(after), p));
    CappedScores(a, b);
    if Score(after, p) <= Score(signed, p) {
      StageExactly(MaxOverage(Overages(signed)), Score(signed, p), MaxOverage(Overages(after)), Score(after, p), p);
    }
  }

  /** Re-evaluating an approved deal on deeper terms keeps the approval if and only if the rise in discount and margin
      points is paid for by the counter-offers that closed since signing, or the signed score was 100 already, and no
      line reaches a higher stage. */
  lemma DeeperTermsExactly(d: Deal, signed: Context, after: Context, p: Params, gw: Gateway)
    requires Governed(d) && d.approvalState.Approved?
    requires Lookup(d.assessments, d.approvedAssessment) == Some(Verdict(signed, p))
    requires Deeper(signed, after) && WholeCents(p)
    ensures Evaluate(d, Verdict(after, p), gw).approvalState.Approved? <==>
              && (Points(signed, Overages(signed), p) >= 100.0
                  || TermPoints(after, p) - TermPoints(signed, p) <= Freed(signed, after))
              && StageHolds(RequiredLevel(signed, p), MaxOverage(Overages(after)), p)
  {
    SameInventory(signed.lines, after.lines, p);
    hide Governed, WholeCents, Score, RequiredLevel, Overages, DiscountPoints, MarginPoints, MarginPct, WorstInventory, MaxOverage;
    CoveredExactly(signed, after, p);
    ReevaluationExactly(d, Verdict(after, p), gw);
  }

  /** While no counter-offer has closed since signing, that means: equal discount and equal margin points. */
  lemma NothingFreedExactly(d: Deal, signed: Context, after: Context, p: Params, gw: Gateway)
    requires Governed(d) && d.approvalState.Approved?
    requires Lookup(d.assessments, d.approvedAssessment) == Some(Verdict(signed, p))
    requires Sensible(signed) && Sensible(after) && Deeper(signed, after) && NonNegativeParams(p) && WholeCents(p)
    requires TotalNet(Overages(after)) > 0.0 || TotalNet(Overages(signed)) == 0.0 || FloorSaturates(p)
    requires signed.openCounter ==> after.openCounter
    ensures Evaluate(d, Verdict(after, p), gw).approvalState.Approved? <==>
              && (Points(signed, Overages(signed), p) >= 100.0
                  || (after.openCounter == signed.openCounter
                      && DiscountPoints(Overages(after), p) == DiscountPoints(Overages(signed), p)
                      && MarginPoints(MarginPct(Overages(after)), p) == MarginPoints(MarginPct(Overages(signed)), p)))
              && StageHolds(RequiredLevel(signed, p), MaxOverage(Overages(after)), p)
  {
    TermsMonotone(signed, after, p);
    hide Governed, WholeCents, Sensible, Deeper, NonNegativeParams, FloorSaturates, TotalNet, Evaluate, RequiredLevel,
      Overages, DiscountPoints, MarginPoints, MarginPct, MaxOverage, Points;
    DeeperTermsExactly(d, signed, after, p, gw);
  }

  /** Neither discount nor margin points fall on deeper terms. */
  lemma TermsMonotone(signed: Context, after: Context, p: Params)
    requires Sensible(signed) && Sensible(after) && Deeper(signed, after) && NonNegativeParams(p)
    requires TotalNet(Overages(after)) > 0.0 || TotalNet(Overages(signed)) == 0.0 || FloorSaturates(p)
    ensures DiscountPoints(Overages(signed), p) <= DiscountPoints(Overages(after), p)
    ensures MarginPoints(MarginPct(Overages(signed)), p) <= MarginPoints(MarginPct(Overages(after)), p)
  {
    FlagIrrelevant(after, signed.openCounter);
    RaisedIsAbove(signed, after.(openCounter := signed.openCounter));
    hide *;
    DiscountMonotone(Overages(signed), Overages(after), p);
    MarginFactorMonotone(Overages(signed), Overages(after), p);
  }

  // --- terms that no deeper discount moves ---

  /** Discount and margin points are at their caps and the required level is the highest. */
  ghost predicate Saturated(ctx: Context, p: Params) {
    && RawExcess(Overages(ctx), p) >= p.discountCap
    && MarginPoints(MarginPct(Overages(ctx)), p) == p.marginCap
    && RequiredLevel(ctx, p).ManagerAndFinance?
  }

  lemma DiscountPointsCapped(os: seq<Overage>, p: Params)
    ensures DiscountPoints(os, p) <= MaxReal(0.0, Round2(p.discountCap))
    ensures RawExcess(os, p) >= p.discountCap ==> DiscountPoints(os, p) == MaxReal(0.0, Round2(p.discountCap))
  {
    hide RawExcess, Round2;
    Round2Monotone(MinReal(p.discountCap, RawExcess(os, p)), p.discountCap);
  }

  /** A deal signed on saturated terms keeps its approval however deep the discount goes, unless a counter-offer
      opened since. */
  lemma SaturatedTermsKeep(d: Deal, signed: Context, after: Context, p: Params, gw: Gateway)
    requires Governed(d) && d.approvalState.Approved?
    requires Lookup(d.assessments, d.approvedAssessment) == Some(Verdict(signed, p))
    requires Deeper(signed, after) && NonNegativeParams(p) && WholeCents(p)
    requires Saturated(signed, p) && (after.openCounter ==> signed.openCounter)
    ensures Evaluate(d, Verdict(after, p), gw).approvalState.Approved?
  {
    DiscountPointsCapped(Overages(signed), p);
    DiscountPointsCapped(Overages(after), p);
    MarginPointsRange(MarginPct(Overages(after)), p);
    hide Governed, WholeCents, Deeper, NonNegativeParams, Evaluate, RequiredLevel, Overages, DiscountPoints, MarginPoints,
      MarginPct, RawExcess, MaxOverage, Round2, Points;
    DeeperTermsExactly(d, signed, after, p, gw);
  }

  /** One unit at price and cost 100 under a ceiling of 10. */
  function CappedDeal(discount: real): Context {
    Context([RiskLine(1, 1.0, 100.0, discount, 100.0, false, 0, false)], 0.0, 10.0, map[], false)
  }

  /** Such terms exist under the default settings: signed at 50 percent, this deal may go to 60 unnoticed. */
  lemma SaturatedDeal()
    ensures Sensible(CappedDeal(50.0)) && Sensible(CappedDeal(60.0)) && Raised(CappedDeal(50.0), CappedDeal(60.0))
    ensures NonNegativeParams(DEFAULTS) && FloorSaturates(DEFAULTS) && Saturated(CappedDeal(50.0), DEFAULTS)
  {
    var ctx := CappedDeal(50.0);
    var os := Overages(ctx);
    CappedDealAssessed();
    SingleLine(os);
    DefaultFloors(20.0);
    assert DEFAULTS.(minimumMarginPct := 20.0) == DEFAULTS;
    hide Overages, TotalNet, RiskModel.TotalCost, FloorSaturates;
    assert MarginOf(TotalNet(os), RiskModel.TotalCost(os)) == -100.0;
  }

  lemma CappedDealAssessed()
    ensures var os := Overages(CappedDeal(50.0));
            && |os| == 1 && os[0].effective == 50.0 && os[0].overage == 40.0
            && os[0].listAmt == 100.0 && os[0].line.costSubtotal == 100.0 && os[0].weight >= 0.0
  {
    Round4Whole(50);
    Round4Whole(40);
    var ctx := CappedDeal(50.0);
    assert ctx.lines[1..] == [];
    assert SumReal(ctx.lines, ListAmt()) == ListAmt()(ctx.lines[0]) + SumReal(ctx.lines[1..], ListAmt());
  }
}
