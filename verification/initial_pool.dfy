/**
 * Bounds validation and initial-pool construction of the closure revision
 * of the solver (src/solver_builder.rs): the three `Pool` policies
 * (`Ready`, `UniformBy`, `Func`), the two stock samplers `uniform_pool`
 * and `gaussian_pool`, and the random source they draw from.
 *
 * The random source is an oracle over an opaque state `G`: every draw
 * returns a value and the advanced state, so the order of draws is part of
 * the model.  The dimension is the number of bounds.
 */
module InitialPool {
  import opened Wrappers
  import opened Population

  /** The bound `[lower, upper]` of every design variable, in order. */
  type Bounds = seq<Range>

  /** Every bound pair has `lower <= upper`. */
  predicate ValidBounds(bounds: Bounds)
  {
    forall s :: 0 <= s < |bounds| ==> bounds[s].0 <= bounds[s].1
  }

  /** The bounds check that opens `solve`: `bound().iter().all(|[lb, ub]| lb <= ub)`. */
  method CheckBounds(bounds: Bounds) returns (ok: bool)
    ensures ok <==> ValidBounds(bounds)
  {
    var s := 0;
    while s < |bounds|
      invariant s <= |bounds|
      invariant forall t :: 0 <= t < s ==> bounds[t].0 <= bounds[t].1
    {
      if !(bounds[s].0 <= bounds[s].1) {
        return false;
      }
      s := s + 1;
    }
    return true;
  }

  /**
   * The random source `Rng`: construction from a seed option, the seed
   * that reproduces the run, a uniform draw on a range and a normal draw
   * with a mean and a standard deviation.
   */
  datatype Rng<!G> = Rng(
    fromSeed: Option<nat> -> G,
    seed: G -> nat,
    range: (G, Range) -> (real, G),
    normal: (G, real, real) -> (real, G))

  /** Why an initial pool could not be built (each is a panic of the source). */
  datatype PoolError =
    | SizeMismatch           // a ready pool whose length is not `pop_num`
    | DimMismatch            // a ready pool with a row of the wrong length
    | MissingRow             // `pool[0]` of an empty ready pool
    | IndexOutOfRange(s: nat) // `mean[s]` or `std[s]` past the end in a Gaussian draw
    | LengthMismatch         // `gaussian_pool` with `mean` and `std` of different lengths
    | DrawLimit              // rejection sampling ran out of draws (fuel)

  /**
   * A per-coordinate sampler of `Pool::Func`: called with the coordinate
   * index `s`, the bound of that coordinate and the random source.
   */
  datatype Sampler<!G> =
    | Uniform                                   // `uniform_pool`
    | Gaussian(mean: seq<real>, std: seq<real>) // `gaussian_pool(mean, std)`
    | Custom(f: (nat, Range, G) -> (real, G))   // any other closure

  /** One coordinate drawn by `sp`; a Gaussian sampler panics past the end of `mean` or `std`. */
  function Draw<G>(sp: Sampler<G>, rng: Rng<G>, s: nat, range: Range, g: G): (r: Result<(real, G), PoolError>)
    ensures r.Err? <==> sp.Gaussian? && (s >= |sp.mean| || s >= |sp.std|)
    ensures r.Err? ==> r.error == IndexOutOfRange(s)
  {
    match sp
    case Uniform => Ok(rng.range(g, range))
    case Gaussian(mean, std) =>
      if s < |mean| && s < |std| then Ok(rng.normal(g, mean[s], std[s])) else Err(IndexOutOfRange(s))
    case Custom(f) => Ok(f(s, range, g))
  }

  /** `uniform_pool`: each coordinate is a uniform draw on its own bound. */
  lemma UniformDraw<G>(rng: Rng<G>, s: nat, range: Range, g: G)
    ensures Draw(Uniform, rng, s, range, g) == Ok(rng.range(g, range))
  {
  }

  /** `gaussian_pool`: refuses a mean and a deviation of different lengths. */
  function GaussianPool<G>(mean: seq<real>, std: seq<real>): (r: Result<Sampler<G>, PoolError>)
    ensures r.Ok? <==> |mean| == |std|
    ensures r.Err? ==> r.error == LengthMismatch
    ensures r.Ok? ==> r.value.Gaussian? && r.value.mean == mean && r.value.std == std
  {
    if |mean| == |std| then Ok(Gaussian(mean, std)) else Err(LengthMismatch)
  }

  /**
   * A sampler built by `gaussian_pool` draws coordinate `s` from the
   * normal law `(mean[s], std[s])`, and fails exactly past the end of
   * `mean`.
   */
  lemma GaussianDraws<G>(mean: seq<real>, std: seq<real>, rng: Rng<G>, s: nat, range: Range, g: G)
    requires GaussianPool<G>(mean, std).Ok?
    ensures Draw(GaussianPool<G>(mean, std).value, rng, s, range, g).Ok? <==> s < |mean|
    ensures s < |mean| ==> Draw(GaussianPool<G>(mean, std).value, rng, s, range, g) == Ok(rng.normal(g, mean[s], std[s]))
  {
  }

  // ------------------------------------------------------------- reference

  /**
   * The first `n` coordinates of one row, drawn in the order `0 .. n-1`
   * from the state `g`, with the state after them.  A failing draw stops
   * the row.
   */
  function Coords<G>(sp: Sampler<G>, rng: Rng<G>, bounds: Bounds, n: nat, g: G): (r: Result<(Row, G), PoolError>)
    requires n <= |bounds|
    ensures r.Ok? ==> |r.value.0| == n
    ensures r.Err? <==> sp.Gaussian? && (n > |sp.mean| || n > |sp.std|)
  {
    if n == 0 then Ok(([], g))
    else
      match Coords(sp, rng, bounds, n - 1, g)
      case Err(e) => Err(e)
      case Ok((row, g1)) =>
        match Draw(sp, rng, n - 1, bounds[n - 1], g1)
        case Err(e) => Err(e)
        case Ok((x, g2)) => Ok((row + [x], g2))
  }

  /**
   * The first `k` rows of a generated pool, drawn row after row, each
   * row coordinate after coordinate (row-major order).
   */
  function Rows<G>(sp: Sampler<G>, rng: Rng<G>, bounds: Bounds, k: nat, g: G): (r: Result<(Pool, G), PoolError>)
    ensures r.Ok? ==> |r.value.0| == k && RowsHaveDim(r.value.0, |bounds|)
    ensures r.Err? <==> k > 0 && sp.Gaussian? && (|bounds| > |sp.mean| || |bounds| > |sp.std|)
  {
    if k == 0 then Ok(([], g))
    else
      match Rows(sp, rng, bounds, k - 1, g)
      case Err(e) => Err(e)
      case Ok((pool, g1)) =>
        match Coords(sp, rng, bounds, |bounds|, g1)
        case Err(e) => Err(e)
        case Ok((row, g2)) => Ok((pool + [row], g2))
  }

  /** Once a row has failed, drawing more coordinates keeps the same error. */
  lemma {:induction false} CoordsStuck<G>(sp: Sampler<G>, rng: Rng<G>, bounds: Bounds, n: nat, m: nat, g: G)
    requires n <= m <= |bounds| && Coords(sp, rng, bounds, n, g).Err?
    ensures Coords(sp, rng, bounds, m, g) == Coords(sp, rng, bounds, n, g)
    decreases m
  {
    if m > n {
      CoordsStuck(sp, rng, bounds, n, m - 1, g);
    }
  }

  /** Once a row has failed, drawing more rows keeps the same error. */
  lemma {:induction false} RowsStuck<G>(sp: Sampler<G>, rng: Rng<G>, bounds: Bounds, k: nat, m: nat, g: G)
    requires k <= m && Rows(sp, rng, bounds, k, g).Err?
    ensures Rows(sp, rng, bounds, m, g) == Rows(sp, rng, bounds, k, g)
    decreases m
  {
    if m > k {
      RowsStuck(sp, rng, bounds, k, m - 1, g);
    }
  }

  // ------------------------------------------------------------- Pool::Func

  /** One row: `(0..dim).map(|s| f(s, bound_range(s), &mut rng)).collect()`. */
  method DrawRow<G>(sp: Sampler<G>, rng: Rng<G>, bounds: Bounds, g: G) returns (res: Result<(Row, G), PoolError>)
    ensures res == Coords(sp, rng, bounds, |bounds|, g)
  {
    var row: Row := [];
    var h := g;
    var s := 0;
    while s < |bounds|
      invariant s <= |bounds|
      invariant Coords(sp, rng, bounds, s, g) == Ok((row, h))
    {
      var d := Draw(sp, rng, s, bounds[s], h);
      if d.Err? {
        CoordsStuck(sp, rng, bounds, s + 1, |bounds|, g);
        return Err(d.error);
      }
      row := row + [d.value.0];
      h := d.value.1;
      s := s + 1;
    }
    return Ok((row, h));
  }

  /**
   * `Pool::Func(f)`: `pop_num` rows of `dim` coordinates, coordinate `s`
   * of every row drawn by `f(s, bound_range(s), rng)` in row-major order.
   * It fails exactly when a Gaussian sampler is shorter than the
   * dimension and at least one row is drawn.
   */
  method FuncPool<G>(sp: Sampler<G>, rng: Rng<G>, bounds: Bounds, popNum: nat, g: G) returns (res: Result<(Pool, G), PoolError>)
    ensures res == Rows(sp, rng, bounds, popNum, g)
    ensures res.Ok? ==> |res.value.0| == popNum && RowsHaveDim(res.value.0, |bounds|)
    ensures res.Err? <==> popNum > 0 && sp.Gaussian? && (|bounds| > |sp.mean| || |bounds| > |sp.std|)
  {
    var pool: Pool := [];
    var h := g;
    var k := 0;
    while k < popNum
      invariant k <= popNum
      invariant Rows(sp, rng, bounds, k, g) == Ok((pool, h))
    {
      var row := DrawRow(sp, rng, bounds, h);
      if row.Err? {
        RowsStuck(sp, rng, bounds, k + 1, popNum, g);
        return Err(row.error);
      }
      pool := pool + [row.value.0];
      h := row.value.1;
      k := k + 1;
    }
    return Ok((pool, h));
  }

  // -------------------------------------------------------- Pool::UniformBy

  /** The rows of `rows` that pass `filter`, in their order. */
  function Keep(filter: Row -> bool, rows: Pool): (kept: Pool)
    ensures |kept| <= |rows|
    ensures forall x :: x in kept ==> x in rows && filter(x)
  {
    if |rows| == 0 then []
    else Keep(filter, rows[..|rows| - 1]) + (if filter(rows[|rows| - 1]) then [rows[|rows| - 1]] else [])
  }

  /** A filter that accepts everything keeps every row. */
  lemma {:induction false} KeepAll(filter: Row -> bool, rows: Pool)
    requires forall x :: filter(x)
    ensures Keep(filter, rows) == rows
  {
    if |rows| > 0 {
      KeepAll(filter, rows[..|rows| - 1]);
      assert rows[..|rows| - 1] + [rows[|rows| - 1]] == rows;
    }
  }

  /** A filter that accepts nothing keeps no row. */
  lemma {:induction false} KeepNone(filter: Row -> bool, rows: Pool)
    requires forall x :: !filter(x)
    ensures Keep(filter, rows) == []
  {
    if |rows| > 0 {
      KeepNone(filter, rows[..|rows| - 1]);
    }
  }

  /** Every kept row is a row of the input, so it has the input's dimension. */
  lemma {:induction false} KeepHasDim(filter: Row -> bool, rows: Pool, dim: nat)
    requires RowsHaveDim(rows, dim)
    ensures RowsHaveDim(Keep(filter, rows), dim)
  {
    if |rows| > 0 {
      KeepHasDim(filter, rows[..|rows| - 1], dim);
    }
  }

  /** One more uniform row: the drawn rows grow by it, the kept rows by it when it passes. */
  lemma SiftStep<G>(rng: Rng<G>, bounds: Bounds, filter: Row -> bool, k: nat, g: G, drawn: Pool, h: G, row: Row, h2: G)
    requires Rows(Uniform, rng, bounds, k, g) == Ok((drawn, h))
    requires Coords(Uniform, rng, bounds, |bounds|, h) == Ok((row, h2))
    ensures Rows(Uniform, rng, bounds, k + 1, g) == Ok((drawn + [row], h2))
    ensures Keep(filter, drawn + [row]) == Keep(filter, drawn) + (if filter(row) then [row] else [])
  {
    assert (drawn + [row])[..|drawn|] == drawn;
  }

  /** The outcome of rejection sampling: the pool, the state after it and how many rows were drawn. */
  datatype Sifted<G> = Sifted(pool: Pool, g: G, draws: nat)

  /**
   * Sifting `draws` uniform rows from `g` leaves `pool` (the accepted rows,
   * in draw order) and the random state `h`, and the last draw is the one
   * that filled the pool.
   */
  ghost predicate SiftedAfter<G>(rng: Rng<G>, bounds: Bounds, filter: Row -> bool, popNum: nat, g: G, draws: nat, pool: Pool, h: G)
  {
    Rows(Uniform, rng, bounds, draws, g).Ok? &&
    Rows(Uniform, rng, bounds, draws, g).value.1 == h &&
    pool == Keep(filter, Rows(Uniform, rng, bounds, draws, g).value.0) &&
    (draws > 0 ==> |Keep(filter, Rows(Uniform, rng, bounds, draws - 1, g).value.0)| < popNum)
  }

  /**
   * `Pool::UniformBy(filter)`: draw uniform rows until `pop_num` of them
   * pass the filter, discarding the others.  The pool is exactly the
   * accepted rows of the first `draws` uniform rows, the last draw is the
   * one that filled the pool, and every row has `dim` coordinates and
   * passes the filter.  The source loops forever when too few rows pass;
   * here at most `fuel` rows are drawn.
   */
  method SiftUniform<G>(rng: Rng<G>, bounds: Bounds, filter: Row -> bool, popNum: nat, g: G, fuel: nat)
    returns (res: Result<Sifted<G>, PoolError>)
    ensures res.Ok? ==> |res.value.pool| == popNum && RowsHaveDim(res.value.pool, |bounds|)
    ensures res.Ok? ==> forall x :: x in res.value.pool ==> filter(x)
    ensures res.Ok? ==> res.value.draws <= fuel
    ensures res.Ok? ==> Rows(Uniform, rng, bounds, res.value.draws, g).value.1 == res.value.g
    ensures res.Ok? ==> res.value.pool == Keep(filter, Rows(Uniform, rng, bounds, res.value.draws, g).value.0)
    ensures res.Ok? && res.value.draws > 0 ==>
      |Keep(filter, Rows(Uniform, rng, bounds, res.value.draws - 1, g).value.0)| < popNum
    ensures res.Ok? ==> SiftedAfter(rng, bounds, filter, popNum, g, res.value.draws, res.value.pool, res.value.g)
    ensures res.Err? ==> res.error == DrawLimit
    ensures res.Err? ==> |Keep(filter, Rows(Uniform, rng, bounds, fuel, g).value.0)| < popNum
  {
    var pool: Pool := [];
    ghost var drawn: Pool := [];
    ghost var before: Pool := [];
    var h := g;
    var draws := 0;
    while |pool| < popNum
      invariant draws <= fuel
      invariant Rows(Uniform, rng, bounds, draws, g) == Ok((drawn, h))
      invariant pool == Keep(filter, drawn) && |pool| <= popNum
      invariant draws > 0 ==> Rows(Uniform, rng, bounds, draws - 1, g).value.0 == before && |Keep(filter, before)| < popNum
      decreases fuel - draws
    {
      if draws == fuel {
        return Err(DrawLimit);
      }
      var x := DrawRow(Uniform, rng, bounds, h);
      var row := x.value.0;
      SiftStep(rng, bounds, filter, draws, g, drawn, h, row, x.value.1);
      if filter(row) {
        pool := pool + [row];
      }
      before := drawn;
      drawn := drawn + [row];
      h := x.value.1;
      draws := draws + 1;
    }
    KeepHasDim(filter, drawn, |bounds|);
    return Ok(Sifted(pool, h, draws));
  }

  // ------------------------------------------------------------ Pool::Ready

  /**
   * The checks on a ready-made pool as the source writes them: the length
   * must be `pop_num`, then `pool[0]` (which panics on an empty pool) must
   * have `dim` coordinates.  No other row is looked at.
   */
  function ReadyAsWritten(pool: Pool, popNum: nat, dim: nat): (r: Result<(), PoolError>)
    ensures r.Ok? <==> |pool| == popNum && |pool| > 0 && |pool[0]| == dim
    ensures r == Err(SizeMismatch) <==> |pool| != popNum
  {
    if |pool| != popNum then Err(SizeMismatch)
    else if |pool| == 0 then Err(MissingRow)
    else if |pool[0]| != dim then Err(DimMismatch)
    else Ok(())
  }

  /** The check as written accepts a ragged pool: row 1 is shorter than `dim`. */
  lemma ReadyAcceptsRagged()
    ensures ReadyAsWritten([[0.0, 0.0], [0.0]], 2, 2).Ok?
    ensures !RowsHaveDim([[0.0, 0.0], [0.0]], 2)
  {
    assert |[[0.0, 0.0], [0.0]][1]| == 1;
  }

  /**
   * The check a ready-made pool needs before it becomes the population:
   * the length is `pop_num` and every row, not only the first, has `dim`
   * coordinates.
   */
  method CheckReady(pool: Pool, popNum: nat, dim: nat) returns (r: Result<(), PoolError>)
    ensures r.Ok? <==> |pool| == popNum && RowsHaveDim(pool, dim)
    ensures r == Err(SizeMismatch) <==> |pool| != popNum
    ensures r.Err? && r != Err(SizeMismatch) ==> r == Err(DimMismatch)
  {
    if |pool| != popNum {
      return Err(SizeMismatch);
    }
    var i := 0;
    while i < |pool|
      invariant i <= |pool|
      invariant forall k :: 0 <= k < i ==> |pool[k]| == dim
    {
      if |pool[i]| != dim {
        return Err(DimMismatch);
      }
      i := i + 1;
    }
    return Ok(());
  }

  /** Where both accept, they agree; the corrected check refuses every ragged pool the written one lets through. */
  lemma CheckReadyStronger(pool: Pool, popNum: nat, dim: nat)
    requires |pool| == popNum && RowsHaveDim(pool, dim) && |pool| > 0
    ensures ReadyAsWritten(pool, popNum, dim).Ok?
  {
  }

  /** The three initial-pool policies of `Pool`; `Y` is the fitness type of a ready pool. */
  datatype PoolPolicy<!G, Y> =
    | Ready(pool: Pool, poolY: seq<Y>)
    | UniformBy(filter: Row -> bool)
    | Func(sampler: Sampler<G>)
}
