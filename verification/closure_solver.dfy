/**
 * The closure revision of the solver (src/solver_builder.rs): a builder
 * holding the objective, the population size, the Pareto limit, the seed,
 * the strategy, the initial-pool policy, a task predicate and a callback,
 * and `solve`, which validates the bounds, builds the pool, runs the
 * strategy's `init` once and then loops "callback, task check, advance
 * `gen`, generation".
 *
 * The strategy, the task, the callback and the objective are oracles.  A
 * strategy step and the callback return the context without its
 * generation counter (`Body`), so only the loop advances `gen`.  The
 * callback is an `FnMut`: its captured state `K` is threaded through every
 * call.
 */
module ClosureSolver {
  import opened Wrappers
  import opened Population
  import opened InitialPool

  /** The objective: one bound per design variable, and the fitness of a row. */
  datatype Objective<Y> = Objective(bounds: Bounds, fitness: Row -> Y)

  /** Everything of the context but the generation counter: pool, fitness values and the rest as `S`. */
  datatype Body<S, Y> = Body(pool: Pool, fitness: seq<Y>, state: S)

  /** The context: the generation counter and the body. */
  datatype Ctx<S, Y> = Ctx(gen: nat, body: Body<S, Y>)

  /** A strategy (`Algorithm`): its default population size, `init` and `generation`. */
  datatype Algorithm<!S, !Y, !G> = Algorithm(
    defaultPop: nat,
    init: (Ctx<S, Y>, G) -> (Body<S, Y>, G),
    generation: (Ctx<S, Y>, G) -> (Body<S, Y>, G))

  /** The user callback with the state it has captured. */
  datatype Callback<!S, !Y, !K> = Callback(state: K, call: (K, Ctx<S, Y>) -> (Body<S, Y>, K))

  /** `SolverBuilder`. */
  datatype Builder<!S, !Y, !G, !K> = Builder(
    func: Objective<Y>,
    popNum: nat,
    paretoLimit: nat,
    seed: Option<nat>,
    algorithm: Algorithm<S, Y, G>,
    pool: PoolPolicy<G, Y>,
    task: Ctx<S, Y> -> bool,
    callback: Callback<S, Y, K>)

  /** The callback that does nothing: it hands the context back unchanged. */
  function NoCallback<S(!new), Y(!new)>(): (cb: Callback<S, Y, ()>)
    ensures forall k, c :: cb.call(k, c) == (c.body, k)
  {
    Callback((), (k: (), c: Ctx<S, Y>) => (c.body, k))
  }

  /**
   * `Solver::build`: the strategy's default population size, a Pareto
   * limit of 20, no seed, the uniform pool, the task `gen >= 200` and a
   * callback that does nothing.
   */
  function Build<S(!new), Y(!new), G>(algorithm: Algorithm<S, Y, G>, func: Objective<Y>): (b: Builder<S, Y, G, ()>)
    ensures b.func == func && b.algorithm == algorithm && b.popNum == algorithm.defaultPop
    ensures b.paretoLimit == 20 && b.seed == None && b.pool == Func(Uniform)
    ensures forall c :: b.task(c) <==> c.gen >= 200
    ensures b.callback == NoCallback()
  {
    Builder(func, algorithm.defaultPop, 20, None, algorithm, Func(Uniform), (c: Ctx<S, Y>) => c.gen >= 200, NoCallback())
  }

  // ------------------------------------------------------------------ setters

  /** `pop_num`: replaces the population size only. */
  function WithPopNum<S, Y, G, K>(b: Builder<S, Y, G, K>, popNum: nat): (r: Builder<S, Y, G, K>)
    ensures r.popNum == popNum
    ensures r.func == b.func && r.paretoLimit == b.paretoLimit && r.seed == b.seed && r.algorithm == b.algorithm
    ensures r.pool == b.pool && r.task == b.task && r.callback == b.callback
  {
    b.(popNum := popNum)
  }

  /** `pareto_limit`: replaces the Pareto limit only. */
  function WithParetoLimit<S, Y, G, K>(b: Builder<S, Y, G, K>, paretoLimit: nat): (r: Builder<S, Y, G, K>)
    ensures r.paretoLimit == paretoLimit
    ensures r.func == b.func && r.popNum == b.popNum && r.seed == b.seed && r.algorithm == b.algorithm
    ensures r.pool == b.pool && r.task == b.task && r.callback == b.callback
  {
    b.(paretoLimit := paretoLimit)
  }

  /** `seed`: replaces the seed only. */
  function WithSeed<S, Y, G, K>(b: Builder<S, Y, G, K>, seed: Option<nat>): (r: Builder<S, Y, G, K>)
    ensures r.seed == seed
    ensures r.func == b.func && r.popNum == b.popNum && r.paretoLimit == b.paretoLimit && r.algorithm == b.algorithm
    ensures r.pool == b.pool && r.task == b.task && r.callback == b.callback
  {
    b.(seed := seed)
  }

  /** `init_pool`: replaces the initial-pool policy only. */
  function WithPool<S, Y, G, K>(b: Builder<S, Y, G, K>, pool: PoolPolicy<G, Y>): (r: Builder<S, Y, G, K>)
    ensures r.pool == pool
    ensures r.func == b.func && r.popNum == b.popNum && r.paretoLimit == b.paretoLimit && r.seed == b.seed
    ensures r.algorithm == b.algorithm && r.task == b.task && r.callback == b.callback
  {
    b.(pool := pool)
  }

  /** `task`: replaces the termination predicate only. */
  function WithTask<S, Y, G, K>(b: Builder<S, Y, G, K>, task: Ctx<S, Y> -> bool): (r: Builder<S, Y, G, K>)
    ensures r.task == task
    ensures r.func == b.func && r.popNum == b.popNum && r.paretoLimit == b.paretoLimit && r.seed == b.seed
    ensures r.algorithm == b.algorithm && r.pool == b.pool && r.callback == b.callback
  {
    b.(task := task)
  }

  /** `callback`: replaces the callback, and with it the captured state. */
  function WithCallback<S, Y, G, K, NK>(b: Builder<S, Y, G, K>, callback: Callback<S, Y, NK>): (r: Builder<S, Y, G, NK>)
    ensures r.callback == callback
    ensures r.func == b.func && r.popNum == b.popNum && r.paretoLimit == b.paretoLimit && r.seed == b.seed
    ensures r.algorithm == b.algorithm && r.pool == b.pool && r.task == b.task
  {
    Builder(b.func, b.popNum, b.paretoLimit, b.seed, b.algorithm, b.pool, b.task, callback)
  }

  /** Setting a field twice keeps the last value; setters of different fields commute. */
  lemma SettersCompose<S, Y, G, K>(b: Builder<S, Y, G, K>, p1: PoolPolicy<G, Y>, p2: PoolPolicy<G, Y>, seed: Option<nat>, limit: nat, popNum: nat)
    ensures WithPool(WithPool(b, p1), p2) == WithPool(b, p2)
    ensures WithSeed(WithPool(b, p1), seed) == WithPool(WithSeed(b, seed), p1)
    ensures WithParetoLimit(WithPopNum(b, popNum), limit) == WithPopNum(WithParetoLimit(b, limit), popNum)
  {
  }

  // ---------------------------------------------------------- initial pool

  /** The fitness of every row, in order (`Ctx::from_pool`). */
  function Evaluate<Y>(fit: Row -> Y, pool: Pool): (ys: seq<Y>)
    ensures |ys| == |pool|
    ensures forall i :: 0 <= i < |pool| ==> ys[i] == fit(pool[i])
  {
    if |pool| == 0 then [] else Evaluate(fit, pool[..|pool| - 1]) + [fit(pool[|pool| - 1])]
  }

  /**
   * The pool-construction step of `solve`: a ready pool must have
   * `pop_num` rows of `dim` coordinates and keeps its fitness values; a
   * generated pool is evaluated row by row.  `s0` is the rest of a fresh
   * context (its best individual and Pareto front).
   */
  method Construct<S, Y, G, K>(b: Builder<S, Y, G, K>, rng: Rng<G>, s0: S, g: G, fuel: nat)
    returns (res: Result<(Ctx<S, Y>, G), PoolError>)
    ensures res.Ok? ==> res.value.0.gen == 0 && res.value.0.body.state == s0
    ensures res.Ok? ==> |res.value.0.body.pool| == b.popNum && RowsHaveDim(res.value.0.body.pool, |b.func.bounds|)
    ensures res.Ok? && b.pool.Ready? ==>
      res.value.0.body.pool == b.pool.pool && res.value.0.body.fitness == b.pool.poolY && res.value.1 == g
    ensures b.pool.Ready? ==> (res.Ok? <==> |b.pool.pool| == b.popNum && RowsHaveDim(b.pool.pool, |b.func.bounds|))
    ensures res.Ok? && !b.pool.Ready? ==> res.value.0.body.fitness == Evaluate(b.func.fitness, res.value.0.body.pool)
    ensures b.pool.Func? ==> res == (match Rows(b.pool.sampler, rng, b.func.bounds, b.popNum, g)
      case Ok((pool, h)) => Ok((Ctx(0, Body(pool, Evaluate(b.func.fitness, pool), s0)), h))
      case Err(e) => Err(e))
    ensures res.Ok? && b.pool.UniformBy? ==> forall x :: x in res.value.0.body.pool ==> b.pool.filter(x)
    ensures res.Ok? && b.pool.UniformBy? ==>
      exists d: nat :: d <= fuel && SiftedAfter(rng, b.func.bounds, b.pool.filter, b.popNum, g, d, res.value.0.body.pool, res.value.1)
    ensures res.Err? && b.pool.UniformBy? ==>
      res.error == DrawLimit && |Keep(b.pool.filter, Rows(Uniform, rng, b.func.bounds, fuel, g).value.0)| < b.popNum
    ensures res.Ok? && b.pool.Ready? && b.popNum > 0 ==> ReadyAsWritten(b.pool.pool, b.popNum, |b.func.bounds|).Ok?
  {
    match b.pool
    case Ready(pool, poolY) =>
      var ok := CheckReady(pool, b.popNum, |b.func.bounds|);
      if ok.Err? {
        return Err(ok.error);
      }
      if b.popNum > 0 {
        CheckReadyStronger(pool, b.popNum, |b.func.bounds|);
      }
      return Ok((Ctx(0, Body(pool, poolY, s0)), g));
    case UniformBy(filter) =>
      var sifted := SiftUniform(rng, b.func.bounds, filter, b.popNum, g, fuel);
      if sifted.Err? {
        return Err(sifted.error);
      }
      var pool := sifted.value.pool;
      assert sifted.value.draws <= fuel &&
        SiftedAfter(rng, b.func.bounds, filter, b.popNum, g, sifted.value.draws, pool, sifted.value.g);
      return Ok((Ctx(0, Body(pool, Evaluate(b.func.fitness, pool), s0)), sifted.value.g));
    case Func(sp) =>
      var drawn := FuncPool(sp, rng, b.func.bounds, b.popNum, g);
      if drawn.Err? {
        return Err(drawn.error);
      }
      var pool := drawn.value.0;
      return Ok((Ctx(0, Body(pool, Evaluate(b.func.fitness, pool), s0)), drawn.value.1));
  }

  // --------------------------------------------------------- reference run

  /** The loop state: the context, the random source and the callback's captured state. */
  datatype Loop<S, Y, G, K> = Loop(ctx: Ctx<S, Y>, g: G, k: K)

  /** `algorithm.init` on the freshly built context, before the loop. */
  function Launch<S, Y, G, K>(b: Builder<S, Y, G, K>, start: Ctx<S, Y>, g: G): (st: Loop<S, Y, G, K>)
    ensures st.ctx.gen == start.gen && st.k == b.callback.state
  {
    var (body, g1) := b.algorithm.init(start, g);
    Loop(Ctx(start.gen, body), g1, b.callback.state)
  }

  /** The callback's turn at the head of an iteration. */
  function Called<S, Y, G, K>(b: Builder<S, Y, G, K>, st: Loop<S, Y, G, K>): (r: Loop<S, Y, G, K>)
    ensures r.ctx.gen == st.ctx.gen && r.g == st.g
  {
    var (body, k) := b.callback.call(st.k, st.ctx);
    Loop(Ctx(st.ctx.gen, body), st.g, k)
  }

  /** The tail of an iteration whose task check failed: `gen += 1`, then one generation. */
  function Advanced<S, Y, G, K>(b: Builder<S, Y, G, K>, st: Loop<S, Y, G, K>): (r: Loop<S, Y, G, K>)
    ensures r.ctx.gen == st.ctx.gen + 1 && r.k == st.k
  {
    var c := Ctx(st.ctx.gen + 1, st.ctx.body);
    var (body, g) := b.algorithm.generation(c, st.g);
    Loop(Ctx(c.gen, body), g, st.k)
  }

  /** The loop state at the head of iteration `t`. */
  function Head<S, Y, G, K>(b: Builder<S, Y, G, K>, st0: Loop<S, Y, G, K>, t: nat): (st: Loop<S, Y, G, K>)
    ensures st.ctx.gen == st0.ctx.gen + t
  {
    if t == 0 then st0 else Advanced(b, Called(b, Head(b, st0, t - 1)))
  }

  /** The task check failed at every iteration before `t`. */
  predicate RanThrough<S, Y, G, K>(b: Builder<S, Y, G, K>, st0: Loop<S, Y, G, K>, t: nat)
  {
    t == 0 || (!b.task(Called(b, Head(b, st0, t - 1)).ctx) && RanThrough(b, st0, t - 1))
  }

  /** `RanThrough` is the task failing, after the callback, at each iteration `0 .. t-1`. */
  lemma {:induction false} RanThroughAll<S, Y, G, K>(b: Builder<S, Y, G, K>, st0: Loop<S, Y, G, K>, t: nat)
    ensures RanThrough(b, st0, t) ==> forall u :: 0 <= u < t ==> !b.task(Called(b, Head(b, st0, u)).ctx)
    ensures !RanThrough(b, st0, t) ==> exists u :: 0 <= u < t && b.task(Called(b, Head(b, st0, u)).ctx)
  {
    if t > 0 {
      RanThroughAll(b, st0, t - 1);
      if !b.task(Called(b, Head(b, st0, t - 1)).ctx) && !RanThrough(b, st0, t - 1) {
        var u :| 0 <= u < t - 1 && b.task(Called(b, Head(b, st0, u)).ctx);
        assert 0 <= u < t;
      }
    }
  }

  /** What happens in a run, in order. */
  datatype Event = Init | CallbackAt(gen: nat) | CheckAt(gen: nat, stop: bool) | GenerationAt(gen: nat)

  /** The events before the head of iteration `t`: `init`, then `t` full iterations. */
  function Prefix(t: nat): (e: seq<Event>)
    ensures |e| == 1 + 3 * t
  {
    if t == 0 then [Init] else Prefix(t - 1) + [CallbackAt(t - 1), CheckAt(t - 1, false), GenerationAt(t)]
  }

  /** The events of a run whose last iteration is `n`; `stop` is that iteration's task verdict. */
  function Events(n: nat, stop: bool): seq<Event>
  {
    Prefix(n) + [CallbackAt(n), CheckAt(n, stop)]
  }

  /** How many strategy generations a sequence of events holds. */
  function Generations(e: seq<Event>): nat
  {
    if |e| == 0 then 0 else Generations(e[..|e| - 1]) + (if e[|e| - 1].GenerationAt? then 1 else 0)
  }

  /** Counting generations distributes over concatenation. */
  lemma {:induction false} GenerationsAppend(a: seq<Event>, b: seq<Event>)
    ensures Generations(a + b) == Generations(a) + Generations(b)
    decreases |b|
  {
    if |b| == 0 {
      assert a + b == a;
    } else {
      assert (a + b)[..|a + b| - 1] == a + b[..|b| - 1];
      assert (a + b)[|a + b| - 1] == b[|b| - 1];
      GenerationsAppend(a, b[..|b| - 1]);
    }
  }

  /** The generations in the tail of an iteration and in the closing callback and check. */
  lemma GenerationsOfTails(n: nat, stop: bool, m: nat)
    ensures Generations([CallbackAt(n), CheckAt(n, stop)]) == 0
    ensures Generations([CallbackAt(n), CheckAt(n, stop), GenerationAt(m)]) == 1
  {
    assert [CallbackAt(n), CheckAt(n, stop), GenerationAt(m)][..2] == [CallbackAt(n), CheckAt(n, stop)];
    assert [CallbackAt(n), CheckAt(n, stop)][..1] == [CallbackAt(n)];
    assert [CallbackAt(n)][..0] == [];
    assert Generations([CallbackAt(n)]) == 0;
  }

  /**
   * The shape of a run's events: `init` exactly once and first, every
   * task check right after the callback of the same generation, and as
   * many strategy generations as the last generation number.
   */
  lemma {:induction false} EventsShape(n: nat, stop: bool)
    ensures Events(n, stop)[0] == Init
    ensures forall i :: 0 < i < |Events(n, stop)| ==> Events(n, stop)[i] != Init
    ensures forall i :: 0 <= i < |Events(n, stop)| && Events(n, stop)[i].CheckAt? ==>
      i > 0 && Events(n, stop)[i - 1] == CallbackAt(Events(n, stop)[i].gen)
    ensures Events(n, stop)[|Events(n, stop)| - 1] == CheckAt(n, stop)
    ensures Generations(Events(n, stop)) == n
  {
    PrefixShape(n);
    GenerationsAppend(Prefix(n), [CallbackAt(n), CheckAt(n, stop)]);
    GenerationsOfTails(n, stop, n);
    assert [CallbackAt(n), CheckAt(n, stop)][..1] == [CallbackAt(n)];
  }

  /** The shape of the events before iteration `t`. */
  lemma {:induction false} PrefixShape(t: nat)
    ensures Prefix(t)[0] == Init
    ensures forall i :: 0 < i < |Prefix(t)| ==> Prefix(t)[i] != Init
    ensures forall i :: 0 <= i < |Prefix(t)| && Prefix(t)[i].CheckAt? ==>
      i > 0 && Prefix(t)[i - 1] == CallbackAt(Prefix(t)[i].gen)
    ensures t > 0 ==> Prefix(t)[|Prefix(t)| - 1] == GenerationAt(t)
    ensures Generations(Prefix(t)) == t
  {
    if t > 0 {
      PrefixShape(t - 1);
      var tail := [CallbackAt(t - 1), CheckAt(t - 1, false), GenerationAt(t)];
      GenerationsAppend(Prefix(t - 1), tail);
      GenerationsOfTails(t - 1, false, t);
      assert tail[..2] == [CallbackAt(t - 1), CheckAt(t - 1, false)];
      assert tail[..2][..1] == [CallbackAt(t - 1)];
    }
  }

  // ------------------------------------------------------------------ solve

  /** The result of `solve`: the context built before `init`, the state after the pool, the final context and the seed. */
  datatype Solved<S, Y, G> = Solved(start: Ctx<S, Y>, g0: G, ctx: Ctx<S, Y>, seed: nat, events: seq<Event>, finished: bool)

  /** Why `solve` panicked. */
  datatype SolveError = InvalidBounds | PoolFailed(e: PoolError)

  /**
   * The generation loop from the launched state `st0`: callback, task
   * check, then `gen += 1` and one generation, until the task holds.  The
   * source loops while the task fails; here at most `fuel` generations run
   * and `finished` is false when they are used up.
   */
  method RunLoop<S, Y, G, K>(b: Builder<S, Y, G, K>, st0: Loop<S, Y, G, K>, fuel: nat)
    returns (st: Loop<S, Y, G, K>, events: seq<Event>, finished: bool)
    requires st0.ctx.gen == 0
    ensures st == Called(b, Head(b, st0, st.ctx.gen)) && st.ctx.gen <= fuel
    ensures RanThrough(b, st0, st.ctx.gen)
    ensures finished <==> b.task(st.ctx)
    ensures !finished ==> st.ctx.gen == fuel
    ensures events == Events(st.ctx.gen, finished)
  {
    st := st0;
    events := [Init];
    while true
      invariant st == Head(b, st0, st.ctx.gen) && st.ctx.gen <= fuel
      invariant RanThrough(b, st0, st.ctx.gen)
      invariant events == Prefix(st.ctx.gen)
      decreases fuel - st.ctx.gen
    {
      var (body, k) := b.callback.call(st.k, st.ctx);
      st := Loop(Ctx(st.ctx.gen, body), st.g, k);
      events := events + [CallbackAt(st.ctx.gen)];
      var stop := b.task(st.ctx);
      events := events + [CheckAt(st.ctx.gen, stop)];
      if stop || st.ctx.gen == fuel {
        return st, events, stop;
      }
      var c := Ctx(st.ctx.gen + 1, st.ctx.body);
      var (body', g) := b.algorithm.generation(c, st.g);
      st := Loop(Ctx(c.gen, body'), g, st.k);
      events := events + [GenerationAt(c.gen)];
    }
  }

  /**
   * `SolverBuilder::solve`.  It fails exactly when some bound has
   * `lower > upper` or the pool cannot be built; otherwise the pool has
   * `pop_num` rows of `dim` coordinates, `init` runs once on it, and the
   * loop stops at the first generation whose context, after the callback,
   * meets the task; the number of strategy generations equals the final
   * `gen`.
   */
  method Solve<S, Y, G, K>(b: Builder<S, Y, G, K>, rng: Rng<G>, s0: S, fuel: nat)
    returns (res: Result<Solved<S, Y, G>, SolveError>)
    ensures res == Err(InvalidBounds) <==> !ValidBounds(b.func.bounds)
    ensures res.Ok? ==> res.value.start.gen == 0 && |res.value.start.body.pool| == b.popNum
    ensures res.Ok? ==> RowsHaveDim(res.value.start.body.pool, |b.func.bounds|)
    ensures res.Ok? ==> res.value.ctx == Called(b, Head(b, Launch(b, res.value.start, res.value.g0), res.value.ctx.gen)).ctx
    ensures res.Ok? ==> RanThrough(b, Launch(b, res.value.start, res.value.g0), res.value.ctx.gen)
    ensures res.Ok? ==>
      res.value.seed == rng.seed(Called(b, Head(b, Launch(b, res.value.start, res.value.g0), res.value.ctx.gen)).g)
    ensures res.Ok? ==> (res.value.finished <==> b.task(res.value.ctx))
    ensures res.Ok? && !res.value.finished ==> res.value.ctx.gen == fuel
    ensures res.Ok? ==> res.value.events == Events(res.value.ctx.gen, res.value.finished)
    ensures res.Ok? ==> Generations(res.value.events) == res.value.ctx.gen
    ensures res.Ok? ==> res.value.start.body.state == s0
    ensures res.Ok? && b.pool.Ready? ==>
      res.value.start.body.pool == b.pool.pool && res.value.start.body.fitness == b.pool.poolY &&
      res.value.g0 == rng.fromSeed(b.seed)
    ensures res.Ok? && !b.pool.Ready? ==> res.value.start.body.fitness == Evaluate(b.func.fitness, res.value.start.body.pool)
    ensures res.Ok? && b.pool.Func? ==>
      Rows(b.pool.sampler, rng, b.func.bounds, b.popNum, rng.fromSeed(b.seed)) == Ok((res.value.start.body.pool, res.value.g0))
    ensures res.Ok? && b.pool.UniformBy? ==>
      (forall x :: x in res.value.start.body.pool ==> b.pool.filter(x)) &&
      exists d: nat :: d <= fuel &&
        SiftedAfter(rng, b.func.bounds, b.pool.filter, b.popNum, rng.fromSeed(b.seed), d, res.value.start.body.pool, res.value.g0)
    ensures b.pool.Ready? ==>
      (res.Err? <==> !ValidBounds(b.func.bounds) || !(|b.pool.pool| == b.popNum && RowsHaveDim(b.pool.pool, |b.func.bounds|)))
    ensures res.Err? && b.pool.UniformBy? && ValidBounds(b.func.bounds) ==>
      res == Err(PoolFailed(DrawLimit)) &&
      |Keep(b.pool.filter, Rows(Uniform, rng, b.func.bounds, fuel, rng.fromSeed(b.seed)).value.0)| < b.popNum
    ensures b.pool.Func? ==>
      (res.Err? <==>
        (!ValidBounds(b.func.bounds) ||
         (b.popNum > 0 && b.pool.sampler.Gaussian? &&
          (|b.func.bounds| > |b.pool.sampler.mean| || |b.func.bounds| > |b.pool.sampler.std|))))
  {
    var ok := CheckBounds(b.func.bounds);
    if !ok {
      return Err(InvalidBounds);
    }
    var g := rng.fromSeed(b.seed);
    var built := Construct(b, rng, s0, g, fuel);
    if built.Err? {
      return Err(PoolFailed(built.error));
    }
    var (start, g0) := built.value;
    var st0 := Launch(b, start, g0);
    var st, events, finished := RunLoop(b, st0, fuel);
    EventsShape(st.ctx.gen, finished);
    return Ok(Solved(start, g0, st.ctx, rng.seed(st.g), events, finished));
  }

  /** Under the default task, the loop runs past no generation at or above 200. */
  lemma DefaultRanBelow<S(!new), Y(!new), G>(b: Builder<S, Y, G, ()>, st0: Loop<S, Y, G, ()>, t: nat)
    requires forall c :: b.task(c) <==> c.gen >= 200
    requires st0.ctx.gen == 0 && RanThrough(b, st0, t)
    ensures t <= 200
  {
    if t > 0 {
      var c := Called(b, Head(b, st0, t - 1)).ctx;
      assert !b.task(c) && c.gen == t - 1;
    }
  }

  /**
   * The default run: with the builder of `Solver::build` and valid
   * bounds, `solve` succeeds, performs exactly 200 generations and
   * reports 200 strategy generations in its events.
   */
  method SolveDefault<S(!new), Y(!new), G>(algorithm: Algorithm<S, Y, G>, func: Objective<Y>, rng: Rng<G>, s0: S, fuel: nat)
    returns (res: Result<Solved<S, Y, G>, SolveError>)
    requires ValidBounds(func.bounds) && fuel >= 200
    ensures res.Ok? && res.value.finished
    ensures res.value.ctx.gen == 200 && Generations(res.value.events) == 200
    ensures |res.value.start.body.pool| == algorithm.defaultPop
  {
    var b := Build(algorithm, func);
    res := Solve(b, rng, s0, fuel);
    DefaultRanBelow(b, Launch(b, res.value.start, res.value.g0), res.value.ctx.gen);
  }
}
