/**
 * The firefly strategy of the closure-era method set (src/methods/fa.rs):
 * an ordered-pair scan over the population in which individual `i` is moved
 * toward every strictly brighter (lower-fitness) individual `j`, and the move
 * is kept only when it strictly improves `i` (greedy acceptance).
 *
 * The numeric move itself (distance, `exp`, the random draw and the clamp)
 * is an opaque per-coordinate oracle `Mover`; what is modelled is which pairs
 * are tried, in which order, and when a candidate is committed.
 */
module Firefly {
  import opened Population

  /** The user-facing setting `Fa`. */
  datatype Fa = Fa(popNum: nat, alpha: real, betaMin: real, gamma: real)

  /** The algorithm built from a setting; `beta0` is not configurable. */
  datatype Method = Method(alpha: real, betaMin: real, gamma: real, beta0: real)

  /** `Fa::default()`. */
  function DefaultFa(): Fa
  {
    Fa(80, 0.05, 0.2, 1.0)
  }

  /** `Setting::create`: copies the three factors and fixes `beta0` at 1. */
  function Create(s: Fa): (m: Method)
    ensures m.alpha == s.alpha && m.betaMin == s.betaMin && m.gamma == s.gamma
    ensures m.beta0 == 1.0
  {
    Method(s.alpha, s.betaMin, s.gamma, 1.0)
  }

  /**
   * The attraction coefficient `(beta0 - beta_min) * e + beta_min`, where
   * `e` stands for `exp(-gamma * r)` (a value in `[0, 1]` for `r >= 0`).
   */
  function Beta(m: Method, e: real): real
  {
    (m.beta0 - m.betaMin) * e + m.betaMin
  }

  /**
   * The attraction coefficient is a blend of `beta_min` and `beta0`: it
   * never leaves `[beta_min, beta0]`, so a move never overshoots `j`.
   */
  lemma BetaBetween(m: Method, e: real)
    requires m.betaMin <= m.beta0 && 0.0 <= e <= 1.0
    ensures m.betaMin <= Beta(m, e) <= m.beta0
  {
    var d := m.beta0 - m.betaMin;
    MulBetweenZeroAndOne(d, e);
    assert Beta(m, e) == d * e + m.betaMin;
  }

  /** Scaling a non-negative `d` by a factor in `[0, 1]` stays in `[0, d]`. */
  lemma MulBetweenZeroAndOne(d: real, e: real)
    requires 0.0 <= d && 0.0 <= e <= 1.0
    ensures 0.0 <= d * e <= d
  {
    assert d * (1.0 - e) >= 0.0;
    assert d * e + d * (1.0 - e) == d;
  }

  /** The default method attracts with a coefficient in `[0.2, 1]`. */
  lemma DefaultCreate()
    ensures DefaultFa().popNum == 80
    ensures var m := Create(DefaultFa());
      m == Method(0.05, 0.2, 1.0, 1.0) &&
      forall e :: 0.0 <= e <= 1.0 ==> 0.2 <= Beta(m, e) <= 1.0
  {
    var m := Create(DefaultFa());
    forall e | 0.0 <= e <= 1.0
      ensures 0.2 <= Beta(m, e) <= 1.0
    {
      BetaBetween(m, e);
    }
  }

  /**
   * The numeric move of one coordinate: given the method, the current row of
   * `i`, the row it is attracted to, the coordinate index and the random
   * state, the clamped new coordinate and the advanced random state.
   */
  type Mover<!G> = (Method, Row, Row, nat, G) -> (real, G)

  /**
   * The candidate row of `i`: coordinates `0 .. k-1` computed in index
   * order, each drawing from the random state the previous one left.
   */
  function Candidate<G>(m: Method, mv: Mover<G>, xi: Row, xj: Row, k: nat, g: G): (r: (Row, G))
    ensures |r.0| == k
  {
    if k == 0 then ([], g)
    else
      var (row, g1) := Candidate(m, mv, xi, xj, k - 1, g);
      var (x, g2) := mv(m, xi, xj, k - 1, g1);
      (row + [x], g2)
  }

  /**
   * Coordinate `s` of a candidate is the move of coordinate `s` made from
   * the random state the first `s` coordinates left, whatever the length
   * of the candidate: the coordinates are drawn in index order.
   */
  lemma {:induction false} CandidateCoordinate<G>(m: Method, mv: Mover<G>, xi: Row, xj: Row, k: nat, g: G, s: nat)
    requires s < k
    ensures Candidate(m, mv, xi, xj, k, g).0[s] == mv(m, xi, xj, s, Candidate(m, mv, xi, xj, s, g).1).0
  {
    var (row, g1) := Candidate(m, mv, xi, xj, k - 1, g);
    if s < k - 1 {
      CandidateCoordinate(m, mv, xi, xj, k - 1, g, s);
      assert Candidate(m, mv, xi, xj, k, g).0[s] == row[s];
    }
  }

  /**
   * `assign_from`: slot `i` takes the new row and its fitness, and the new
   * row becomes the tracked best when it is strictly better than it.
   */
  function Assign(c: Context, i: nat, f: real, row: Row): (r: Context)
    requires c.Valid() && i < |c.pool| && |row| == c.dim
    ensures r.Valid() && r.dim == c.dim && |r.pool| == |c.pool|
    ensures r.pool[i] == row && r.fitness[i] == f
    ensures forall k :: 0 <= k < |c.pool| && k != i ==> r.pool[k] == c.pool[k] && r.fitness[k] == c.fitness[k]
    ensures r.bestF <= c.bestF && r.bestF <= f
    ensures r.bestF == c.bestF ==> r.best == c.best
    ensures r.bestF < c.bestF ==> r.best == row && r.bestF == f
  {
    var d := c.(pool := c.pool[i := row], fitness := c.fitness[i := f]);
    if f < c.bestF then d.(best := row, bestF := f) else d
  }

  /**
   * One step of the pair scan for the ordered pair `(i, j)`.  The pair is
   * skipped when `i` is already at least as bright as `j`; otherwise a
   * candidate is drawn (toward the best individual when `i == j`, toward `j`
   * otherwise), evaluated, and committed only if strictly better than `i`.
   */
  function PairStep<G>(m: Method, mv: Mover<G>, fit: Row -> real, c: Context, i: nat, j: nat, g: G): (r: (Context, G))
    requires c.Valid() && i < |c.pool| && j < |c.pool|
    ensures r.0.Valid() && r.0.dim == c.dim && |r.0.pool| == |c.pool|
    ensures r.0.bestF <= c.bestF && (r.0.bestF == c.bestF ==> r.0.best == c.best)
    ensures r.0.bestF < c.bestF ==> r.0.best == r.0.pool[i] && r.0.bestF == r.0.fitness[i]
    ensures r.0.fitness[i] < c.fitness[i] ==> r.0.bestF <= r.0.fitness[i]
    ensures forall k :: 0 <= k < |c.pool| && k != i ==> r.0.pool[k] == c.pool[k] && r.0.fitness[k] == c.fitness[k]
    ensures c.fitness[i] <= c.fitness[j] ==> r == (c, g)
    ensures r.0.fitness[i] <= c.fitness[i]
    ensures r.0.fitness[i] == c.fitness[i] ==> r.0.pool[i] == c.pool[i]
    ensures r.0.fitness[i] < c.fitness[i] ==>
      c.fitness[j] < c.fitness[i] && r.0.fitness[i] == fit(r.0.pool[i])
  {
    if c.fitness[i] <= c.fitness[j] then (c, g)
    else
      var target := if i == j then c.best else c.pool[j];
      var (tmp, g1) := Candidate(m, mv, c.pool[i], target, c.dim, g);
      var tmpF := fit(tmp);
      if tmpF < c.fitness[i] then (Assign(c, i, tmpF, tmp), g1) else (c, g1)
  }

  /**
   * With a totally ordered fitness a self-pair is always skipped: the
   * branch that attracts `i` toward the best individual is never taken,
   * and no random number is drawn for it.
   */
  lemma SelfPairSkipped<G>(m: Method, mv: Mover<G>, fit: Row -> real, c: Context, i: nat, g: G)
    requires c.Valid() && i < |c.pool|
    ensures PairStep(m, mv, fit, c, i, i, g) == (c, g)
  {
  }

  /**
   * A pair moves `i` exactly when `j` is strictly brighter than `i` and the
   * candidate it yields is strictly brighter than `i` too.
   */
  lemma PairMovesIff<G>(m: Method, mv: Mover<G>, fit: Row -> real, c: Context, i: nat, j: nat, g: G)
    requires c.Valid() && i < |c.pool| && j < |c.pool|
    ensures var target := if i == j then c.best else c.pool[j];
      var cand := Candidate(m, mv, c.pool[i], target, c.dim, g).0;
      PairStep(m, mv, fit, c, i, j, g).0.fitness[i] < c.fitness[i]
      <==> c.fitness[j] < c.fitness[i] && fit(cand) < c.fitness[i]
  {
  }

  /**
   * The scan state after all pairs before `(i, j)` in row-major order over
   * `0..n x 0..n`: every pair of rows `0 .. i-1`, then `(i, 0) .. (i, j-1)`.
   */
  function After<G>(m: Method, mv: Mover<G>, fit: Row -> real, c0: Context, g0: G, n: nat, i: nat, j: nat): (r: (Context, G))
    requires c0.Valid() && n == |c0.pool| && i <= n && j <= n && (j > 0 ==> i < n)
    ensures r.0.Valid() && r.0.dim == c0.dim && |r.0.pool| == n
    decreases i, j
  {
    if j > 0 then
      var (c, g) := After(m, mv, fit, c0, g0, n, i, j - 1);
      PairStep(m, mv, fit, c, i, j - 1, g)
    else if i > 0 then After(m, mv, fit, c0, g0, n, i - 1, n)
    else (c0, g0)
  }

  /**
   * Slot `k` either still holds its original row and fitness, or holds a
   * row whose evaluated fitness is strictly below the original one.
   */
  predicate SlotImproved(fit: Row -> real, c0: Context, c: Context, k: nat)
    requires k < |c0.pool| && k < |c.pool| && |c0.pool| == |c0.fitness| && |c.pool| == |c.fitness|
  {
    (c.pool[k] == c0.pool[k] && c.fitness[k] == c0.fitness[k])
    || (c.fitness[k] < c0.fitness[k] && c.fitness[k] == fit(c.pool[k]))
  }

  /** A pair step keeps every slot either untouched or improved. */
  lemma PairStepKeepsImproved<G>(m: Method, mv: Mover<G>, fit: Row -> real, c0: Context, c: Context, i: nat, j: nat, g: G)
    requires c0.Valid() && c.Valid() && |c.pool| == |c0.pool| && i < |c.pool| && j < |c.pool|
    requires forall k :: 0 <= k < |c0.pool| ==> SlotImproved(fit, c0, c, k)
    ensures var c' := PairStep(m, mv, fit, c, i, j, g).0;
      forall k :: 0 <= k < |c0.pool| ==> SlotImproved(fit, c0, c', k)
  {
    var c' := PairStep(m, mv, fit, c, i, j, g).0;
    forall k | 0 <= k < |c0.pool|
      ensures SlotImproved(fit, c0, c', k)
    {
      assert SlotImproved(fit, c0, c, k);
    }
  }

  /**
   * What `assign_from` keeps of the tracked best during the scan from `c0`:
   * it only ever gets better; while it has not changed it is the old best;
   * once it has, it is the row and fitness of some slot; and no committed
   * slot is better than it.
   */
  predicate BestTracked(c0: Context, c: Context)
    requires c0.Valid() && c.Valid() && |c.pool| == |c0.pool|
  {
    c.bestF <= c0.bestF && (c.bestF == c0.bestF ==> c.best == c0.best) &&
    (c.bestF < c0.bestF ==> exists k :: 0 <= k < |c.pool| && c.best == c.pool[k] && c.bestF == c.fitness[k]) &&
    forall k :: 0 <= k < |c0.pool| && c.fitness[k] < c0.fitness[k] ==> c.bestF <= c.fitness[k]
  }

  /** A pair step keeps the best tracked. */
  lemma PairStepTracksBest<G>(m: Method, mv: Mover<G>, fit: Row -> real, c0: Context, c: Context, i: nat, j: nat, g: G)
    requires c0.Valid() && c.Valid() && |c.pool| == |c0.pool| && i < |c.pool| && j < |c.pool|
    requires BestTracked(c0, c)
    ensures BestTracked(c0, PairStep(m, mv, fit, c, i, j, g).0)
  {
  }

  /**
   * If the old best was the population minimum and slots only improved,
   * a tracked best is the new population minimum.
   */
  lemma TrackedIsMin(c0: Context, c: Context)
    requires c0.Valid() && c.Valid() && |c.pool| == |c0.pool| > 0
    requires c0.bestF == Min(c0.fitness) && BestTracked(c0, c)
    requires forall k :: 0 <= k < |c0.pool| ==> c.fitness[k] <= c0.fitness[k]
    ensures c.bestF == Min(c.fitness)
  {
  }

  /**
   * `move_fireflies`: the full pair scan.  Every slot's fitness is
   * non-increasing, a slot that changed holds an evaluated, strictly better
   * row, and so the population minimum never increases.
   */
  method MoveFireflies<G>(m: Method, mv: Mover<G>, fit: Row -> real, c0: Context, g0: G) returns (c: Context, g: G)
    requires c0.Valid()
    ensures (c, g) == After(m, mv, fit, c0, g0, |c0.pool|, |c0.pool|, 0)
    ensures c.Valid() && c.dim == c0.dim && |c.pool| == |c0.pool|
    ensures BestTracked(c0, c)
    ensures forall k :: 0 <= k < |c0.pool| ==> c.fitness[k] <= c0.fitness[k]
    ensures forall k :: 0 <= k < |c0.pool| ==> SlotImproved(fit, c0, c, k)
    ensures |c0.pool| > 0 ==> Min(c.fitness) <= Min(c0.fitness)
    ensures |c0.pool| > 0 && c0.bestF == Min(c0.fitness) ==> c.bestF == Min(c.fitness)
  {
    var n := |c0.pool|;
    c, g := c0, g0;
    var i := 0;
    while i < n
      invariant i <= n
      invariant (c, g) == After(m, mv, fit, c0, g0, n, i, 0)
      invariant BestTracked(c0, c)
      invariant forall k :: 0 <= k < n ==> SlotImproved(fit, c0, c, k)
    {
      var j := 0;
      while j < n
        invariant j <= n
        invariant (c, g) == After(m, mv, fit, c0, g0, n, i, j)
        invariant BestTracked(c0, c)
        invariant forall k :: 0 <= k < n ==> SlotImproved(fit, c0, c, k)
      {
        var step := PairStep(m, mv, fit, c, i, j, g);
        PairStepKeepsImproved(m, mv, fit, c0, c, i, j, g);
        PairStepTracksBest(m, mv, fit, c0, c, i, j, g);
        c, g := step.0, step.1;
        j := j + 1;
      }
      i := i + 1;
    }
    forall k | 0 <= k < n
      ensures c.fitness[k] <= c0.fitness[k]
    {
      assert SlotImproved(fit, c0, c, k);
    }
    if n > 0 {
      MinMonotone(c0.fitness, c.fitness);
      if c0.bestF == Min(c0.fitness) {
        TrackedIsMin(c0, c);
      }
    }
  }

  /**
   * `generation`: the full pair scan followed by `find_best`.  The tracked
   * best never gets worse, is no worse than any slot afterwards, and is the
   * old best or the row and fitness of some slot; a best that was the
   * population minimum before is the population minimum after.
   */
  method Generation<G>(m: Method, mv: Mover<G>, fit: Row -> real, c0: Context, g0: G) returns (c: Context, g: G)
    requires c0.Valid()
    ensures c.Valid() && c.dim == c0.dim && |c.pool| == |c0.pool|
    ensures var (moved, g1) := After(m, mv, fit, c0, g0, |c0.pool|, |c0.pool|, 0);
      c == FindBest(moved) && g == g1
    ensures forall k :: 0 <= k < |c0.pool| ==> c.fitness[k] <= c0.fitness[k]
    ensures c.bestF <= c0.bestF && (c.bestF == c0.bestF ==> c.best == c0.best)
    ensures c.bestF < c0.bestF ==> exists k :: 0 <= k < |c.pool| && c.best == c.pool[k] && c.bestF == c.fitness[k]
    ensures forall k :: 0 <= k < |c.pool| ==> c.bestF <= c.fitness[k]
    ensures |c0.pool| > 0 ==> c.bestF <= Min(c0.fitness)
    ensures |c0.pool| > 0 && c0.bestF == Min(c0.fitness) ==> c.bestF == Min(c.fitness)
  {
    var moved;
    moved, g := MoveFireflies(m, mv, fit, c0, g0);
    c := FindBest(moved);
    if |c0.pool| > 0 {
      var w :| 0 <= w < |c.fitness| && Min(c.fitness) == c.fitness[w];
      assert c.bestF <= Min(c.fitness);
    }
  }
}
