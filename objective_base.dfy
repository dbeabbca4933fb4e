/**
 * The parts every objective shares: the primal-loss coefficient, the l2
 * regularizer in its primal and dual forms, the default dual loss, and the
 * bookkeeping that turns the accumulated losses into primal and dual
 * objectives and the duality gap. Two generations of the base exist with the
 * same arithmetic: `objective_base` (default coefficient 1) and
 * `base_objective` (which also reports the gap).
 */
module ObjectiveBase {
  import opened Numeric

  /** `objective_base` and `base_objective`: the coefficient of the primal loss. */
  datatype Objective = Objective(coeff: real)

  /** `objective_base`'s default coefficient. */
  const DefaultCoeff: real := 1.0

  lemma {:induction false} SumSqNonNegative(s: seq<real>)
    ensures SumSq(s) >= 0.0
    decreases |s|
  {
    if |s| > 0 {
      SumSqNonNegative(s[..|s| - 1]);
    }
  }

  lemma {:induction false} DotSymmetric(a: seq<real>, b: seq<real>)
    requires |a| == |b|
    ensures Dot(a, b) == Dot(b, a)
    decreases |a|
  {
    if |a| > 0 {
      DotSymmetric(a[..|a| - 1], b[..|b| - 1]);
    }
  }

  /** `regularizer_primal`: <w, w>, the squared norm, never negative. */
  function RegularizerPrimal(w: seq<real>): (r: real)
    ensures r == SumSq(w) && r >= 0.0
  {
    DotSelf(w);
    SumSqNonNegative(w);
    Dot(w, w)
  }

  /** `regularizer_dual`: <variables, scores>, symmetric in its arguments. */
  function RegularizerDual(variables: seq<real>, scores: seq<real>): (r: real)
    requires |variables| == |scores|
    ensures r == Dot(scores, variables)
  {
    DotSymmetric(variables, scores);
    Dot(variables, scores)
  }

  /** The default `dual_loss`: the first dual variable (the ground truth's). */
  function DualLoss(variables: seq<real>): real
    requires |variables| > 0
  {
    variables[0]
  }

  /** The primal objective the bookkeeping reports: coeff pl + reg / 2. */
  function PrimalObjective(coeff: real, primalLoss: real, regularizer: real): real
  {
    coeff * primalLoss + 0.5 * regularizer
  }

  /** The dual objective: dl - reg / 2. */
  function DualObjective(dualLoss: real, regularizer: real): real
  {
    dualLoss - 0.5 * regularizer
  }

  /** The duality gap: coeff pl + reg - dl. */
  function DualityGap(coeff: real, primalLoss: real, dualLoss: real, regularizer: real): real
  {
    coeff * primalLoss + regularizer - dualLoss
  }

  /**
   * `update_primal_loss`: scales the accumulated primal loss by the
   * coefficient, which leaves it unchanged under the default coefficient.
   */
  method UpdatePrimalLoss(o: Objective, primalLoss: real) returns (scaled: real)
    ensures scaled == o.coeff * primalLoss
    ensures o.coeff == DefaultCoeff ==> scaled == primalLoss
  {
    scaled := primalLoss * o.coeff;
  }

  /**
   * `objective_base::update_all`: the loss is scaled, the regularizer halved,
   * and primal and dual objectives formed from them. Their difference is the
   * duality gap of the inputs.
   */
  method UpdateAll(o: Objective, primalLoss: real, dualLoss: real, regularizer: real)
      returns (primal: real, dual: real, scaledLoss: real, halfRegularizer: real)
    ensures scaledLoss == o.coeff * primalLoss && halfRegularizer * 2.0 == regularizer
    ensures primal == scaledLoss + halfRegularizer && dual == dualLoss - halfRegularizer
    ensures primal == PrimalObjective(o.coeff, primalLoss, regularizer)
    ensures dual == DualObjective(dualLoss, regularizer)
    ensures primal - dual == DualityGap(o.coeff, primalLoss, dualLoss, regularizer)
  {
    scaledLoss := primalLoss * o.coeff;
    halfRegularizer := regularizer * 0.5;
    primal := scaledLoss + halfRegularizer;
    dual := dualLoss - halfRegularizer;
  }

  /**
   * `base_objective::update_all`: the gap is taken before the regularizer is
   * halved, and equals the difference of the two objectives it reports.
   */
  method UpdateAllWithGap(o: Objective, pLoss: real, dLoss: real, regul: real)
      returns (scaledLoss: real, halfRegul: real, pObjective: real, dObjective: real, gap: real)
    ensures scaledLoss == o.coeff * pLoss && halfRegul * 2.0 == regul
    ensures gap == DualityGap(o.coeff, pLoss, dLoss, regul)
    ensures pObjective == PrimalObjective(o.coeff, pLoss, regul)
    ensures dObjective == DualObjective(dLoss, regul)
    ensures pObjective - dObjective == gap
  {
    scaledLoss := pLoss * o.coeff;
    gap := scaledLoss + regul - dLoss;
    halfRegul := regul * 0.5;
    pObjective := scaledLoss + halfRegul;
    dObjective := dLoss - halfRegul;
  }
}
