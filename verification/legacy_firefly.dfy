/**
 * The firefly strategy of the report-era solver (src/fa.rs).  For every
 * individual `i` in turn, `i` is moved toward every other individual `j`
 * that is strictly brighter (lower fitness), each move committed without any
 * acceptance test; an individual that no one attracts is only perturbed.
 * Its fitness is evaluated once, after its own inner loop.
 *
 * As written, every move also lowers the persistent field `beta0` by
 * `beta_min` (`BetaRule.Drifting`); the evidently intended rule keeps
 * `beta0` and uses `beta0 - beta_min` as the scale of every move, as the
 * later revision does (`BetaRule.Fixed`).  Both are modelled.
 *
 * The numeric parts (`exp`, the random draws, the clamp `check`) are opaque
 * per-coordinate oracles `Attract` and `Perturb`.
 */
module LegacyFirefly {
  import opened Population
  import Firefly

  /** `FASetting`, with its documented defaults in `DefaultSetting`. */
  datatype FaSetting = FaSetting(popNum: nat, alpha: real, betaMin: real, gamma: real, beta0: real)

  function DefaultSetting(): FaSetting
  {
    FaSetting(80, 0.01, 0.2, 1.0, 1.0)
  }

  /** The constant factors of a move. */
  datatype Params = Params(alpha: real, betaMin: real, gamma: real)

  /** The `FA` state: constant factors, the persistent `beta0`, and the population. */
  datatype Fa = Fa(params: Params, beta0: real, base: Context)

  /** `FA::new`: the setting's factors over an initialised population. */
  function New(s: FaSetting, base: Context): (fa: Fa)
    ensures fa.params == Params(s.alpha, s.betaMin, s.gamma)
    ensures fa.beta0 == s.beta0 && fa.base == base
  {
    Fa(Params(s.alpha, s.betaMin, s.gamma), s.beta0, base)
  }

  /**
   * The documented defaults: 80 fireflies, `alpha` 0.01, `beta_min` 0.2,
   * `gamma` 1 and `beta0` 1, so the first move attracts with a coefficient
   * in `[0.2, 1]`.
   */
  lemma DefaultNew(base: Context, e: real)
    requires 0.0 <= e <= 1.0
    ensures DefaultSetting().popNum == 80
    ensures New(DefaultSetting(), base).params == Params(0.01, 0.2, 1.0)
    ensures New(DefaultSetting(), base).beta0 == 1.0
    ensures 0.2 <= Coefficient(New(DefaultSetting(), base), e) <= 1.0
  {
    CoefficientBetween(New(DefaultSetting(), base), e);
  }

  /** How a move treats `beta0`: as written (drains it) or as intended (keeps it). */
  datatype BetaRule = Drifting | Fixed

  /**
   * The attraction coefficient the next move of `fa` uses at `e = exp(-gamma r)`.
   * As written this is `(beta0 - beta_min) * e + beta_min` computed after
   * lowering `beta0`, which is the same value as the intended formula applied
   * to the `beta0` before the move; the rules differ only in what persists.
   */
  function Coefficient(fa: Fa, e: real): real
  {
    (fa.beta0 - fa.params.betaMin) * e + fa.params.betaMin
  }

  // ---------------------------------------------------------------- distance

  /** The sum of squared differences over the first `k` coordinates. */
  function SqDist(a: Row, b: Row, k: nat): real
    requires k <= |a| && k <= |b|
  {
    if k == 0 then 0.0 else SqDist(a, b, k - 1) + (a[k - 1] - b[k - 1]) * (a[k - 1] - b[k - 1])
  }

  /** `distance(me, she)`: loops over the coordinates of `me`, indexing `she`. */
  method Distance(me: Row, she: Row) returns (dist: real)
    requires |me| <= |she|
    ensures dist == SqDist(me, she, |me|)
  {
    dist := 0.0;
    var s := 0;
    while s < |me|
      invariant s <= |me|
      invariant dist == SqDist(me, she, s)
    {
      var diff := me[s] - she[s];
      dist := dist + diff * diff;
      s := s + 1;
    }
  }

  /** The distance is symmetric. */
  lemma {:induction false} SqDistSymmetric(a: Row, b: Row, k: nat)
    requires k <= |a| && k <= |b|
    ensures SqDist(a, b, k) == SqDist(b, a, k)
  {
    if k > 0 {
      SqDistSymmetric(a, b, k - 1);
      assert (a[k - 1] - b[k - 1]) * (a[k - 1] - b[k - 1]) == (b[k - 1] - a[k - 1]) * (b[k - 1] - a[k - 1]);
    }
  }

  /** A product of two non-negative reals is non-negative. */
  lemma MulNonNegative(a: real, b: real)
    requires a >= 0.0 && b >= 0.0
    ensures a * b >= 0.0
  {
  }

  /** A square is non-negative. */
  lemma SquareNonNegative(d: real)
    ensures d * d >= 0.0
  {
    if d < 0.0 {
      MulNonNegative(-d, -d);
      assert (-d) * (-d) == d * d;
    } else {
      MulNonNegative(d, d);
    }
  }

  /**
   * The distance is non-negative, and it is zero when the first `k`
   * coordinates of the two rows agree (in particular on identical rows).
   */
  lemma {:induction false} SqDistNonNegative(a: Row, b: Row, k: nat)
    requires k <= |a| && k <= |b|
    ensures SqDist(a, b, k) >= 0.0
    ensures a[..k] == b[..k] ==> SqDist(a, b, k) == 0.0
  {
    if k > 0 {
      SqDistNonNegative(a, b, k - 1);
      SquareNonNegative(a[k - 1] - b[k - 1]);
      if a[..k] == b[..k] {
        assert a[..k - 1] == a[..k][..k - 1] && b[..k - 1] == b[..k][..k - 1];
        assert a[k - 1] == a[..k][k - 1] && b[k - 1] == b[..k][k - 1];
      }
    }
  }

  // -------------------------------------------------------------------- moves

  /**
   * The numeric move of coordinate `s` of `me` toward `she`: the scale that
   * multiplies `exp(-gamma r)`, the distance `r`, the coordinate index, the
   * two coordinates and the random state give the clamped coordinate.
   */
  type Attract<!G> = (Params, real, real, nat, real, real, G) -> (real, G)

  /** The fallback move of coordinate `s`: a clamped random perturbation. */
  type Perturb<!G> = (Params, nat, real, G) -> (real, G)

  /** Coordinates `0 .. k-1` of a moved row, computed in index order. */
  function AttractRow<G>(at: Attract<G>, p: Params, scale: real, r: real, me: Row, she: Row, k: nat, g: G): (res: (Row, G))
    requires k <= |me| && k <= |she|
    ensures |res.0| == k
  {
    if k == 0 then ([], g)
    else
      var (row, g1) := AttractRow(at, p, scale, r, me, she, k - 1, g);
      var (x, g2) := at(p, scale, r, k - 1, me[k - 1], she[k - 1], g1);
      (row + [x], g2)
  }

  /** Coordinates `0 .. k-1` of a perturbed row, computed in index order. */
  function PerturbRow<G>(pt: Perturb<G>, p: Params, me: Row, k: nat, g: G): (res: (Row, G))
    requires k <= |me|
    ensures |res.0| == k
  {
    if k == 0 then ([], g)
    else
      var (row, g1) := PerturbRow(pt, p, me, k - 1, g);
      var (x, g2) := pt(p, k - 1, me[k - 1], g1);
      (row + [x], g2)
  }

  /**
   * `move_firefly(me, she)` on the population: the new coordinates of row
   * `me`, computed from rows `me` and `she`, the new `beta0` and the random
   * state.  The row is replaced unconditionally and no fitness is evaluated.
   * As written (`Drifting`) `beta0` drops by `beta_min` first and the
   * lowered value scales the move; as intended (`Fixed`) it stays and the
   * move is scaled by `beta0 - beta_min`.  Either way the move uses the
   * coefficient `Coefficient` gives for the `beta0` before the move.
   */
  function MoveFirefly<G>(rule: BetaRule, at: Attract<G>, p: Params, dim: nat, pool: Pool, beta0: real, me: nat, she: nat, g: G)
    : (res: (Row, real, G))
    requires RowsHaveDim(pool, dim) && me < |pool| && she < |pool|
    ensures |res.0| == dim
    ensures rule == Drifting ==> res.1 == beta0 - p.betaMin
    ensures rule == Fixed ==> res.1 == beta0
    ensures (res.0, res.2) == AttractRow(at, p, beta0 - p.betaMin, SqDist(pool[me], pool[she], dim), pool[me], pool[she], dim, g)
  {
    var r := SqDist(pool[me], pool[she], dim);
    var lowered := beta0 - p.betaMin;
    var (row, g1) := AttractRow(at, p, lowered, r, pool[me], pool[she], dim, g);
    (row, if rule == Drifting then lowered else beta0, g1)
  }

  /** `beta0` after `k` drifting moves, each lowering it by `bm`. */
  function Drain(b0: real, bm: real, k: nat): real
  {
    if k == 0 then b0 else Drain(b0, bm, k - 1) - bm
  }

  /** After `k` drifting moves `beta0` has dropped by exactly `k * beta_min`. */
  lemma {:induction false} DrainLinear(b0: real, bm: real, k: nat)
    ensures Drain(b0, bm, k) == b0 - k as real * bm
  {
    if k > 0 {
      DrainLinear(b0, bm, k - 1);
      assert (k - 1) as real * bm + bm == k as real * bm;
    }
  }

  /** Draining `a` moves and then `m` more is draining `a + m` moves. */
  lemma {:induction false} DrainAdds(b0: real, bm: real, a: nat, m: nat)
    ensures Drain(Drain(b0, bm, a), bm, m) == Drain(b0, bm, a + m)
  {
    if m > 0 {
      DrainAdds(b0, bm, a, m - 1);
    }
  }

  // ------------------------------------------------------------- the pair scan

  /** How many of `j < k` are strictly brighter than `i` (and not `i` itself). */
  function Movers(f: seq<real>, i: nat, k: nat): nat
    requires i < |f| && k <= |f|
  {
    if k == 0 then 0
    else Movers(f, i, k - 1) + (if k - 1 != i && f[k - 1] < f[i] then 1 else 0)
  }

  /** Some `j < k` other than `i` is strictly brighter than `i`. */
  lemma {:induction false} MoversPositiveIff(f: seq<real>, i: nat, k: nat)
    requires i < |f| && k <= |f|
    ensures Movers(f, i, k) > 0 <==> exists j :: 0 <= j < k && j != i && f[j] < f[i]
  {
    if k > 0 {
      MoversPositiveIff(f, i, k - 1);
      if Movers(f, i, k) > 0 && Movers(f, i, k - 1) == 0 {
        assert k - 1 != i && f[k - 1] < f[i];
      }
    }
  }

  /**
   * The end of row `i`'s outer iteration: the row's coordinates after the
   * fallback, which perturbs it only when it did not move.
   */
  function FinishRow<G>(pt: Perturb<G>, p: Params, dim: nat, row: Row, g: G, moved: bool): (res: (Row, G))
    requires |row| == dim
    ensures |res.0| == dim
    ensures moved ==> res == (row, g)
    ensures !moved ==> res == PerturbRow(pt, p, row, dim, g)
  {
    if moved then (row, g) else PerturbRow(pt, p, row, dim, g)
  }

  /** One call of `move_fireflies`: the oracles, the rule, and the state it starts from. */
  datatype Run<!G> = Run(rule: BetaRule, at: Attract<G>, pt: Perturb<G>, fit: Row -> real, fa0: Fa, g0: G)
  {
    predicate Valid()
    {
      fa0.base.Valid()
    }

    /** The population size. */
    function Size(): nat
    {
      |fa0.base.pool|
    }
  }

  /**
   * Where `move_fireflies` is: the pool, the fitness vector, `beta0`, the
   * random state, the moves made so far in this call, and the moves made
   * so far for the current row (the source's `moved` is `rowMoves > 0`).
   */
  datatype Progress<G> = Progress(pool: Pool, fitness: seq<real>, beta0: real, g: G, moves: nat, rowMoves: nat)

  /**
   * `(i, j)` is a point the row-major scan over `n` rows passes: `j` inner
   * iterations of row `i`, or the end.
   */
  predicate InScan(n: nat, i: nat, j: nat)
  {
    (i < n && j <= n) || (i == n && j == 0)
  }

  /**
   * The reference semantics of `move_fireflies`: the progress after rows
   * `0 .. i-1` are finished and row `i` has seen the pairs `(i, 0 .. j-1)`.
   * A pair is skipped when `i == j` or `fitness[i] <= fitness[j]`, with the
   * fitness as it stands (already re-evaluated for earlier rows); a row
   * is finished by the fallback perturbation when it did not move and then
   * by one evaluation of its fitness.
   */
  function Walk<G>(r: Run<G>, i: nat, j: nat): (s: Progress<G>)
    requires r.Valid() && InScan(r.Size(), i, j)
    ensures |s.pool| == |s.fitness| == r.Size() && RowsHaveDim(s.pool, r.fa0.base.dim)
    decreases i, j
  {
    if j > 0 then
      var s := Walk(r, i, j - 1);
      if i == j - 1 || s.fitness[i] <= s.fitness[j - 1] then s
      else
        var step := MoveFirefly(r.rule, r.at, r.fa0.params, r.fa0.base.dim, s.pool, s.beta0, i, j - 1, s.g);
        s.(pool := s.pool[i := step.0], beta0 := step.1, g := step.2, moves := s.moves + 1, rowMoves := s.rowMoves + 1)
    else if i == 0 then
      Progress(r.fa0.base.pool, r.fa0.base.fitness, r.fa0.beta0, r.g0, 0, 0)
    else
      var s := Walk(r, i - 1, r.Size());
      var done := FinishRow(r.pt, r.fa0.params, r.fa0.base.dim, s.pool[i - 1], s.g, s.rowMoves > 0);
      s.(pool := s.pool[i - 1 := done.0], fitness := s.fitness[i - 1 := r.fit(done.0)], g := done.1, rowMoves := 0)
  }

  /** One inner iteration of row `i`: skip the pair `(i, j)` or move `i` toward `j`. */
  lemma WalkStep<G>(r: Run<G>, i: nat, j: nat)
    requires r.Valid() && i < r.Size() && j < r.Size()
    ensures var s := Walk(r, i, j);
      Walk(r, i, j + 1) ==
        if i == j || s.fitness[i] <= s.fitness[j] then s
        else
          var step := MoveFirefly(r.rule, r.at, r.fa0.params, r.fa0.base.dim, s.pool, s.beta0, i, j, s.g);
          s.(pool := s.pool[i := step.0], beta0 := step.1, g := step.2, moves := s.moves + 1, rowMoves := s.rowMoves + 1)
  {
  }

  /** The end of row `i`: the fallback, then one evaluation of `fitness[i]`. */
  lemma WalkFinish<G>(r: Run<G>, i: nat)
    requires r.Valid() && i < r.Size()
    ensures var s := Walk(r, i, r.Size());
      var done := FinishRow(r.pt, r.fa0.params, r.fa0.base.dim, s.pool[i], s.g, s.rowMoves > 0);
      Walk(r, i + 1, 0) == s.(pool := s.pool[i := done.0], fitness := s.fitness[i := r.fit(done.0)], g := done.1, rowMoves := 0)
  {
  }

  /** The state `fa0` with the scanned pool, fitness and `beta0` of `s`. */
  function Apply<G>(fa0: Fa, s: Progress<G>): (fa: Fa)
    ensures fa.params == fa0.params && fa.base.dim == fa0.base.dim
    ensures fa.base.best == fa0.base.best && fa.base.bestF == fa0.base.bestF
    ensures fa.base.pool == s.pool && fa.base.fitness == s.fitness && fa.beta0 == s.beta0
  {
    fa0.(beta0 := s.beta0, base := fa0.base.(pool := s.pool, fitness := s.fitness))
  }

  /**
   * The inner loop of row `i` evaluates nothing: the fitness vector stays
   * what it was when the row began.
   */
  lemma {:induction false} WalkRowFitness<G>(r: Run<G>, i: nat, j: nat)
    requires r.Valid() && InScan(r.Size(), i, j)
    ensures Walk(r, i, j).fitness == Walk(r, i, 0).fitness
  {
    if j > 0 {
      WalkRowFitness(r, i, j - 1);
    }
  }

  /**
   * Which slots the scan has touched: every finished row carries the
   * evaluated fitness of its current coordinates; the current row and the
   * rows after it keep their original fitness; the rows after the current
   * one keep their coordinates, and so does the current row before its
   * first move.
   */
  lemma {:induction false} WalkSlots<G>(r: Run<G>, i: nat, j: nat)
    requires r.Valid() && InScan(r.Size(), i, j)
    ensures forall k :: 0 <= k < i ==> Walk(r, i, j).fitness[k] == r.fit(Walk(r, i, j).pool[k])
    ensures forall k :: i <= k < r.Size() ==> Walk(r, i, j).fitness[k] == r.fa0.base.fitness[k]
    ensures forall k :: i < k < r.Size() ==> Walk(r, i, j).pool[k] == r.fa0.base.pool[k]
    ensures j == 0 && i < r.Size() ==> Walk(r, i, j).pool[i] == r.fa0.base.pool[i]
    decreases i, j
  {
    if j > 0 {
      WalkSlots(r, i, j - 1);
    } else if i > 0 {
      WalkSlots(r, i - 1, r.Size());
    }
  }

  /**
   * Row `i` has made one move per strictly brighter other individual among
   * the first `j`, compared by the fitness at the start of the row.
   */
  lemma {:induction false} WalkRowMoves<G>(r: Run<G>, i: nat, j: nat)
    requires r.Valid() && i < r.Size() && j <= r.Size()
    ensures Walk(r, i, j).rowMoves == Movers(Walk(r, i, 0).fitness, i, j)
  {
    if j > 0 {
      WalkRowMoves(r, i, j - 1);
      WalkRowFitness(r, i, j - 1);
    }
  }

  /**
   * `beta0` during the scan: as written it has lost one `beta_min` per move
   * made; as intended it is untouched.
   */
  lemma {:induction false} WalkDrain<G>(r: Run<G>, i: nat, j: nat)
    requires r.Valid() && InScan(r.Size(), i, j)
    ensures var s := Walk(r, i, j);
      (r.rule == Drifting ==> s.beta0 == Drain(r.fa0.beta0, r.fa0.params.betaMin, s.moves)) &&
      (r.rule == Fixed ==> s.beta0 == r.fa0.beta0)
    decreases i, j
  {
    if j > 0 {
      WalkDrain(r, i, j - 1);
    } else if i > 0 {
      WalkDrain(r, i - 1, r.Size());
    }
  }

  /**
   * Row `i` is perturbed exactly when no other individual was strictly
   * brighter at the start of the row; otherwise the fallback leaves the
   * moved row and the random state alone.
   */
  lemma RowPerturbedIff<G>(r: Run<G>, i: nat)
    requires r.Valid() && i < r.Size()
    ensures var f := Walk(r, i, 0).fitness;
      var s := Walk(r, i, r.Size());
      var t := Walk(r, i + 1, 0);
      ((!exists j :: 0 <= j < r.Size() && j != i && f[j] < f[i]) ==>
        (t.pool[i], t.g) == PerturbRow(r.pt, r.fa0.params, s.pool[i], r.fa0.base.dim, s.g)) &&
      ((exists j :: 0 <= j < r.Size() && j != i && f[j] < f[i]) ==>
        t.pool[i] == s.pool[i] && t.g == s.g)
  {
    WalkRowMoves(r, i, r.Size());
    MoversPositiveIff(Walk(r, i, 0).fitness, i, r.Size());
  }

  /**
   * One iteration of the outer loop of `move_fireflies`: the inner loop over
   * `j` with its `moved` flag, then the fallback and the re-evaluation of
   * `fitness[i]`.
   */
  method MoveRow<G>(r: Run<G>, i: nat, faIn: Fa, gIn: G, ghost movesIn: nat) returns (fa: Fa, g: G, ghost moves: nat)
    requires r.Valid() && i < r.Size()
    requires faIn == Apply(r.fa0, Walk(r, i, 0)) && gIn == Walk(r, i, 0).g && movesIn == Walk(r, i, 0).moves
    ensures fa == Apply(r.fa0, Walk(r, i + 1, 0)) && g == Walk(r, i + 1, 0).g && moves == Walk(r, i + 1, 0).moves
  {
    var n := |faIn.base.pool|;
    fa, g, moves := faIn, gIn, movesIn;
    var moved := false;
    var j := 0;
    while j < n
      invariant j <= n
      invariant fa == Apply(r.fa0, Walk(r, i, j)) && g == Walk(r, i, j).g && moves == Walk(r, i, j).moves
      invariant moved <==> Walk(r, i, j).rowMoves > 0
    {
      WalkStep(r, i, j);
      if i != j && fa.base.fitness[i] > fa.base.fitness[j] {
        var step := MoveFirefly(r.rule, r.at, fa.params, fa.base.dim, fa.base.pool, fa.beta0, i, j, g);
        fa := fa.(beta0 := step.1, base := fa.base.(pool := fa.base.pool[i := step.0]));
        g := step.2;
        moves := moves + 1;
        moved := true;
      }
      j := j + 1;
    }
    WalkFinish(r, i);
    var done := FinishRow(r.pt, fa.params, fa.base.dim, fa.base.pool[i], g, moved);
    fa := fa.(base := fa.base.(pool := fa.base.pool[i := done.0], fitness := fa.base.fitness[i := r.fit(done.0)]));
    g := done.1;
  }

  /** `move_fireflies`: the outer loop over `i` follows the reference scan. */
  method MoveFireflies<G>(r: Run<G>) returns (fa: Fa, g: G, ghost moves: nat)
    requires r.Valid()
    ensures fa == Apply(r.fa0, Walk(r, r.Size(), 0)) && g == Walk(r, r.Size(), 0).g
    ensures moves == Walk(r, r.Size(), 0).moves
  {
    fa, g, moves := r.fa0, r.g0, 0;
    var i := 0;
    while i < |r.fa0.base.pool|
      invariant i <= r.Size()
      invariant fa == Apply(r.fa0, Walk(r, i, 0)) && g == Walk(r, i, 0).g && moves == Walk(r, i, 0).moves
    {
      fa, g, moves := MoveRow(r, i, fa, g, moves);
      i := i + 1;
    }
  }

  /**
   * `generation`: the pair scan followed by `find_best`.  Afterwards every
   * slot's fitness is the evaluated fitness of its row (the scan commits
   * every move, so a slot may get worse), the tracked best is never worse
   * than before nor than any slot, and as written `beta0` has lost one `beta_min`
   * per move made (it persists into the next generation).
   */
  method Generation<G>(r: Run<G>) returns (fa: Fa, g: G, ghost moves: nat)
    requires r.Valid()
    ensures fa.base.Valid() && fa.base.dim == r.fa0.base.dim && |fa.base.pool| == r.Size()
    ensures fa.params == r.fa0.params
    ensures forall k :: 0 <= k < |fa.base.pool| ==> fa.base.fitness[k] == r.fit(fa.base.pool[k])
    ensures fa.base.bestF <= r.fa0.base.bestF && (fa.base.bestF == r.fa0.base.bestF ==> fa.base.best == r.fa0.base.best)
    ensures fa.base.bestF < r.fa0.base.bestF ==>
      exists k :: 0 <= k < |fa.base.pool| && fa.base.best == fa.base.pool[k] && fa.base.bestF == fa.base.fitness[k]
    ensures forall k :: 0 <= k < |fa.base.pool| ==> fa.base.bestF <= fa.base.fitness[k]
    ensures |fa.base.pool| > 0 ==> (fa.base.bestF == Min(fa.base.fitness) <==> Min(fa.base.fitness) <= r.fa0.base.bestF)
    ensures |fa.base.pool| == 0 ==> fa == r.fa0 && g == r.g0
    ensures fa == Apply(r.fa0, Walk(r, r.Size(), 0)).(base := FindBest(Apply(r.fa0, Walk(r, r.Size(), 0)).base))
    ensures g == Walk(r, r.Size(), 0).g
    ensures moves == Walk(r, r.Size(), 0).moves
    ensures r.rule == Drifting ==> fa.beta0 == Drain(r.fa0.beta0, r.fa0.params.betaMin, moves)
    ensures r.rule == Fixed ==> fa.beta0 == r.fa0.beta0
  {
    var scanned;
    scanned, g, moves := MoveFireflies(r);
    WalkSlots(r, r.Size(), 0);
    WalkDrain(r, r.Size(), 0);
    fa := scanned.(base := FindBest(scanned.base));
  }

  // ------------------------------------------------------------------ findings

  /**
   * As written, `beta0` keeps draining: from the default setting, once six
   * moves have been made the next move's coefficient is `0.2 - 0.4 e`,
   * negative for every `e = exp(-gamma r)` above one half.  With the
   * default `gamma = 1` that is every pair at squared distance
   * `0 < r < ln 2`; at `e = 3/4` (`r = ln(4/3)`, about 0.29) the
   * coefficient is `-0.1`, so the move takes `i` away from the brighter,
   * distinct `j` it should approach.
   */
  lemma DriftingTurnsRepulsive<G>(r: Run<G>, i: nat, j: nat)
    requires r.Valid() && InScan(r.Size(), i, j) && r.rule == Drifting
    requires r.fa0.params.betaMin == DefaultSetting().betaMin && r.fa0.beta0 == DefaultSetting().beta0
    requires Walk(r, i, j).moves == 6
    ensures Coefficient(Apply(r.fa0, Walk(r, i, j)), 0.75) == -0.1
    ensures forall e :: 0.5 < e <= 1.0 ==> Coefficient(Apply(r.fa0, Walk(r, i, j)), e) < 0.0
  {
    WalkDrain(r, i, j);
    DrainLinear(1.0, 0.2, 6);
  }

  /**
   * As intended, every move's coefficient stays between `beta_min` and the
   * configured `beta0`, however many moves have been made.
   */
  lemma FixedStaysAttractive<G>(r: Run<G>, i: nat, j: nat, e: real)
    requires r.Valid() && InScan(r.Size(), i, j) && r.rule == Fixed
    requires r.fa0.params.betaMin <= r.fa0.beta0 && 0.0 <= e <= 1.0
    ensures r.fa0.params.betaMin <= Coefficient(Apply(r.fa0, Walk(r, i, j)), e) <= r.fa0.beta0
  {
    WalkDrain(r, i, j);
    CoefficientBetween(Apply(r.fa0, Walk(r, i, j)), e);
  }

  /** With `beta_min <= beta0`, a coefficient lies between the two. */
  lemma CoefficientBetween(fa: Fa, e: real)
    requires fa.params.betaMin <= fa.beta0 && 0.0 <= e <= 1.0
    ensures fa.params.betaMin <= Coefficient(fa, e) <= fa.beta0
  {
    var m := Firefly.Method(fa.params.alpha, fa.params.betaMin, fa.params.gamma, fa.beta0);
    Firefly.BetaBetween(m, e);
  }
}
