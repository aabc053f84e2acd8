/**
 * Individuals, pools and the best-individual scan shared by both firefly
 * revisions.  A fitness value is a `real` (an `f64` that is never NaN), so
 * fitness is totally ordered and smaller is better.
 */
module Population {

  /** One individual: a parameter vector. */
  type Row = seq<real>

  /** The population: one row per individual, slot `i` is individual `i`. */
  type Pool = seq<Row>

  /** A closed interval `[lower, upper]` of one design variable. */
  type Range = (real, real)

  /** Every row of `pool` has exactly `dim` coordinates. */
  predicate RowsHaveDim(pool: Pool, dim: nat)
  {
    forall i :: 0 <= i < |pool| ==> |pool[i]| == dim
  }

  /** The smallest fitness of a non-empty population. */
  function Min(f: seq<real>): (m: real)
    requires |f| > 0
    ensures forall k :: 0 <= k < |f| ==> m <= f[k]
    ensures exists k :: 0 <= k < |f| && m == f[k]
  {
    if |f| == 1 then f[0]
    else
      var rest := Min(f[1..]);
      assert forall k :: 1 <= k < |f| ==> f[k] == f[1..][k - 1];
      if f[0] <= rest then f[0] else rest
  }

  /** The first index holding the smallest fitness. */
  function ArgMin(f: seq<real>): (k: nat)
    requires |f| > 0
    ensures k < |f|
    ensures forall i :: 0 <= i < |f| ==> f[k] <= f[i]
    ensures forall i :: 0 <= i < k ==> f[k] < f[i]
  {
    if |f| == 1 then 0
    else
      var k' := ArgMin(f[1..]);
      assert forall i :: 1 <= i < |f| ==> f[i] == f[1..][i - 1];
      if f[0] <= f[1..][k'] then 0 else k' + 1
  }

  /**
   * Lowering no fitness value lowers no minimum: if every `b[k] <= a[k]`
   * then `Min(b) <= Min(a)`.
   */
  lemma {:induction false} MinMonotone(a: seq<real>, b: seq<real>)
    requires |a| == |b| > 0
    requires forall k :: 0 <= k < |a| ==> b[k] <= a[k]
    ensures Min(b) <= Min(a)
  {
    var k :| 0 <= k < |a| && Min(a) == a[k];
    assert Min(b) <= b[k];
  }

  /**
   * The population part of a strategy's context: dimension, pool, the
   * fitness of every slot, and the best individual found so far.
   */
  datatype Context = Context(dim: nat, pool: Pool, fitness: seq<real>, best: Row, bestF: real)
  {
    /** One fitness value per slot, and every slot has `dim` coordinates. */
    predicate Valid()
    {
      |pool| == |fitness| && RowsHaveDim(pool, dim)
    }
  }

  /**
   * The full scan that refreshes the tracked best after a strategy has
   * changed the pool: the first slot holding the population minimum
   * becomes the best when it is strictly better than the tracked best,
   * so the tracked best never gets worse.  An empty population leaves the
   * best untouched.
   */
  function FindBest(c: Context): (r: Context)
    requires c.Valid()
    ensures r.Valid()
    ensures r.dim == c.dim && r.pool == c.pool && r.fitness == c.fitness
    ensures r.bestF <= c.bestF && (r.bestF == c.bestF ==> r.best == c.best)
    ensures forall k :: 0 <= k < |c.fitness| ==> r.bestF <= c.fitness[k]
    ensures r.bestF < c.bestF ==>
      exists k :: 0 <= k < |c.pool| && r.best == c.pool[k] && r.bestF == c.fitness[k]
    ensures |c.fitness| > 0 ==> (r.bestF == Min(c.fitness) <==> Min(c.fitness) <= c.bestF)
  {
    if |c.fitness| == 0 then c
    else
      var k := ArgMin(c.fitness);
      if c.fitness[k] < c.bestF then c.(best := c.pool[k], bestF := c.fitness[k]) else c
  }

  /** Refreshing twice is refreshing once. */
  lemma FindBestIdempotent(c: Context)
    requires c.Valid()
    ensures FindBest(FindBest(c)) == FindBest(c)
  {
  }
}
