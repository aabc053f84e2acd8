/**
 * The report-interval revision of the solver (src/solver.rs): a builder
 * holding the basic setting and three user closures, and the generation
 * loop of `SolverBuilder::solve` with its report cadence, its stopping
 * callback and the termination tasks `MaxGen` and `MinFit`.
 *
 * The strategy (`Setting::algorithm` with `init` and `generation`) and the
 * closures are oracles.  A strategy sees the whole context but returns only
 * the part it owns (the best fitness and its own state `S`), so it cannot
 * touch the generation counter.  The callback is an `FnMut`: its captured
 * state is modelled explicitly as `K` and threaded through every call.
 */
module ReportSolver {
  import opened Wrappers

  /** Termination condition (`Task`), without the clock-based variants. */
  datatype Task = MaxGen(v: nat) | MinFit(f: real)

  /** `BasicSetting`: task, population size, report interval and seed. */
  datatype BasicSetting = BasicSetting(task: Task, popNum: nat, rpt: nat, seed: Option<nat>)

  /** `BasicSetting::default`. */
  function DefaultBasic(): (s: BasicSetting)
    ensures s.task == MaxGen(200) && s.popNum == 200 && s.rpt == 1 && s.seed == None
  {
    BasicSetting(MaxGen(200), 200, 1, None)
  }

  /**
   * The part of `Context` the loop reads and writes: the generation
   * counter, the best fitness, the last improvement `diff`, the adaptive
   * value, and everything else (pool, objective, strategy data) as `S`.
   */
  datatype Ctx<S> = Ctx(gen: nat, bestF: real, diff: real, adaptive: real, state: S)

  /** A strategy: its default basic setting, `init` and `generation`. */
  datatype Setting<!S> = Setting(defaultBasic: BasicSetting, init: Ctx<S> -> (real, S), generation: Ctx<S> -> (real, S))

  /** The user callback with the state it has captured. */
  datatype Callback<!S, !K> = Callback(state: K, call: (K, Ctx<S>) -> (bool, K))

  /** `SolverBuilder`. */
  datatype Builder<!S, R, !K> = Builder(
    basic: BasicSetting,
    setting: Setting<S>,
    adaptive: Ctx<S> -> real,
    record: Ctx<S> -> R,
    callback: Callback<S, K>)

  /** The callback never asks to stop. */
  ghost predicate AlwaysContinue<S(!new), K(!new)>(cb: Callback<S, K>)
  {
    forall k, c :: cb.call(k, c).0
  }

  /**
   * `Solver::build`: the strategy's default basic setting, an adaptive
   * function returning zero, a record of `(gen, best_f)` and a callback
   * that never stops the run.
   */
  function Build<S(!new)>(setting: Setting<S>): (b: Builder<S, (nat, real), ()>)
    ensures b.basic == setting.defaultBasic && b.setting == setting
    ensures forall c :: b.adaptive(c) == 0.0
    ensures forall c :: b.record(c) == (c.gen, c.bestF)
    ensures AlwaysContinue(b.callback)
  {
    Builder(setting.defaultBasic, setting, c => 0.0, (c: Ctx<S>) => (c.gen, c.bestF), Callback((), (k, c) => (true, k)))
  }

  // ------------------------------------------------------------------ setters

  /** `task`: replaces the termination condition only. */
  function WithTask<S, R, K>(b: Builder<S, R, K>, task: Task): (r: Builder<S, R, K>)
    ensures r.basic.task == task
    ensures r.basic.popNum == b.basic.popNum && r.basic.rpt == b.basic.rpt && r.basic.seed == b.basic.seed
    ensures r.setting == b.setting && r.adaptive == b.adaptive && r.record == b.record && r.callback == b.callback
  {
    b.(basic := b.basic.(task := task))
  }

  /** `pop_num`: replaces the population size only. */
  function WithPopNum<S, R, K>(b: Builder<S, R, K>, popNum: nat): (r: Builder<S, R, K>)
    ensures r.basic.popNum == popNum
    ensures r.basic.task == b.basic.task && r.basic.rpt == b.basic.rpt && r.basic.seed == b.basic.seed
    ensures r.setting == b.setting && r.adaptive == b.adaptive && r.record == b.record && r.callback == b.callback
  {
    b.(basic := b.basic.(popNum := popNum))
  }

  /** `rpt`: replaces the report interval only. */
  function WithRpt<S, R, K>(b: Builder<S, R, K>, rpt: nat): (r: Builder<S, R, K>)
    ensures r.basic.rpt == rpt
    ensures r.basic.task == b.basic.task && r.basic.popNum == b.basic.popNum && r.basic.seed == b.basic.seed
    ensures r.setting == b.setting && r.adaptive == b.adaptive && r.record == b.record && r.callback == b.callback
  {
    b.(basic := b.basic.(rpt := rpt))
  }

  /** `seed`: replaces the seed only. */
  function WithSeed<S, R, K>(b: Builder<S, R, K>, seed: Option<nat>): (r: Builder<S, R, K>)
    ensures r.basic.seed == seed
    ensures r.basic.task == b.basic.task && r.basic.popNum == b.basic.popNum && r.basic.rpt == b.basic.rpt
    ensures r.setting == b.setting && r.adaptive == b.adaptive && r.record == b.record && r.callback == b.callback
  {
    b.(basic := b.basic.(seed := seed))
  }

  /** `adaptive`: replaces the adaptive function only. */
  function WithAdaptive<S, R, K>(b: Builder<S, R, K>, adaptive: Ctx<S> -> real): (r: Builder<S, R, K>)
    ensures r.adaptive == adaptive
    ensures r.basic == b.basic && r.setting == b.setting && r.record == b.record && r.callback == b.callback
  {
    b.(adaptive := adaptive)
  }

  /** `record`: replaces the record function, and with it the report type. */
  function WithRecord<S, R, K, NR>(b: Builder<S, R, K>, record: Ctx<S> -> NR): (r: Builder<S, NR, K>)
    ensures r.record == record
    ensures r.basic == b.basic && r.setting == b.setting && r.adaptive == b.adaptive && r.callback == b.callback
  {
    Builder(b.basic, b.setting, b.adaptive, record, b.callback)
  }

  /** `callback`: replaces the callback, and with it the captured state. */
  function WithCallback<S, R, K, NK>(b: Builder<S, R, K>, callback: Callback<S, NK>): (r: Builder<S, R, NK>)
    ensures r.callback == callback
    ensures r.basic == b.basic && r.setting == b.setting && r.adaptive == b.adaptive && r.record == b.record
  {
    Builder(b.basic, b.setting, b.adaptive, b.record, callback)
  }

  /** Setting one basic field twice keeps the last value. */
  lemma BasicSetterLastWins<S, R, K>(b: Builder<S, R, K>, t1: Task, t2: Task, r1: nat, r2: nat)
    ensures WithTask(WithTask(b, t1), t2) == WithTask(b, t2)
    ensures WithRpt(WithRpt(b, r1), r2) == WithRpt(b, r2)
  {
  }

  /** Setters of different fields commute. */
  lemma SettersCommute<S, R, K>(b: Builder<S, R, K>, task: Task, popNum: nat, rpt: nat, seed: Option<nat>)
    ensures WithTask(WithRpt(b, rpt), task) == WithRpt(WithTask(b, task), rpt)
    ensures WithPopNum(WithSeed(b, seed), popNum) == WithSeed(WithPopNum(b, popNum), seed)
    ensures WithTask(WithPopNum(b, popNum), task) == WithPopNum(WithTask(b, task), popNum)
  {
  }

  // --------------------------------------------------------- reference run

  /**
   * The context after `t` generations.  Before the first generation the
   * adaptive value is computed, then the pool is initialised.  Each
   * generation first advances `gen`, then recomputes the adaptive value,
   * then runs the strategy, and finally sets `diff` to the best fitness
   * before the generation minus the best fitness after it.
   */
  function CtxAt<S, R, K>(b: Builder<S, R, K>, start: Ctx<S>, t: nat): (c: Ctx<S>)
    requires start.gen == 0
    ensures c.gen == t
  {
    if t == 0 then
      var c0 := start.(adaptive := b.adaptive(start));
      var init := b.setting.init(c0);
      c0.(bestF := init.0, state := init.1)
    else
      var prev := CtxAt(b, start, t - 1);
      var c1 := prev.(gen := t);
      var c2 := c1.(adaptive := b.adaptive(c1));
      var next := b.setting.generation(c2);
      c2.(bestF := next.0, diff := prev.bestF - next.0, state := next.1)
  }

  /** The sum of the `diff` values of generations `1 .. t`. */
  function DiffSum<S, R, K>(b: Builder<S, R, K>, start: Ctx<S>, t: nat): real
    requires start.gen == 0
  {
    if t == 0 then 0.0 else DiffSum(b, start, t - 1) + CtxAt(b, start, t).diff
  }

  /**
   * Each generation's `diff` is its own improvement, so the improvements of
   * generations `1 .. t` add up to the best fitness after initialisation
   * minus the best fitness after generation `t`.
   */
  lemma {:induction false} DiffTelescopes<S, R, K>(b: Builder<S, R, K>, start: Ctx<S>, t: nat)
    requires start.gen == 0
    ensures DiffSum(b, start, t) == CtxAt(b, start, 0).bestF - CtxAt(b, start, t).bestF
  {
    if t > 0 {
      DiffTelescopes(b, start, t - 1);
    }
  }

  /** A report point: the callback runs at generation 0 and every `rpt` generations. */
  predicate IsReportPoint(rpt: nat, t: nat)
    requires rpt > 0
  {
    t % rpt == 0
  }

  /** The callback's captured state after the calls at the report points `<= t`. */
  function KAfter<S, R, K>(b: Builder<S, R, K>, start: Ctx<S>, t: nat): K
    requires start.gen == 0 && b.basic.rpt > 0
  {
    if t == 0 then b.callback.call(b.callback.state, CtxAt(b, start, 0)).1
    else if IsReportPoint(b.basic.rpt, t) then b.callback.call(KAfter(b, start, t - 1), CtxAt(b, start, t)).1
    else KAfter(b, start, t - 1)
  }

  /** The callback lets the run continue at generation `t` (trivially off report points). */
  predicate Verdict<S, R, K>(b: Builder<S, R, K>, start: Ctx<S>, t: nat)
    requires start.gen == 0 && b.basic.rpt > 0
  {
    if t == 0 then b.callback.call(b.callback.state, CtxAt(b, start, 0)).0
    else !IsReportPoint(b.basic.rpt, t) || b.callback.call(KAfter(b, start, t - 1), CtxAt(b, start, t)).0
  }

  /** The report once generation `t` has been recorded: one entry per report point. */
  function Records<S, R, K>(b: Builder<S, R, K>, start: Ctx<S>, t: nat): seq<R>
    requires start.gen == 0 && b.basic.rpt > 0
  {
    if t == 0 then [b.record(CtxAt(b, start, 0))]
    else Records(b, start, t - 1) + (if IsReportPoint(b.basic.rpt, t) then [b.record(CtxAt(b, start, t))] else [])
  }

  /** The callback let the run continue at every generation `0 .. t`. */
  predicate AcceptedThrough<S, R, K>(b: Builder<S, R, K>, start: Ctx<S>, t: nat)
    requires start.gen == 0 && b.basic.rpt > 0
  {
    Verdict(b, start, t) && (t == 0 || AcceptedThrough(b, start, t - 1))
  }

  /** `AcceptedThrough` is acceptance at each generation up to `t`. */
  lemma {:induction false} AcceptedThroughAll<S, R, K>(b: Builder<S, R, K>, start: Ctx<S>, t: nat)
    requires start.gen == 0 && b.basic.rpt > 0
    ensures AcceptedThrough(b, start, t) <==> forall u :: 0 <= u <= t ==> Verdict(b, start, u)
  {
    if t > 0 {
      AcceptedThroughAll(b, start, t - 1);
    }
  }

  /** No generation `1 .. t` met the task. */
  predicate UnmetThrough<S, R, K>(b: Builder<S, R, K>, start: Ctx<S>, t: nat)
    requires start.gen == 0
  {
    t == 0 || (!TaskHolds(b.basic.task, CtxAt(b, start, t)) && UnmetThrough(b, start, t - 1))
  }

  /** `UnmetThrough` is the task failing at each generation `1 .. t`. */
  lemma {:induction false} UnmetThroughAll<S, R, K>(b: Builder<S, R, K>, start: Ctx<S>, t: nat)
    requires start.gen == 0
    ensures UnmetThrough(b, start, t) ==> forall u :: 1 <= u <= t ==> !TaskHolds(b.basic.task, CtxAt(b, start, u))
    ensures !UnmetThrough(b, start, t) ==> exists u :: 1 <= u <= t && TaskHolds(b.basic.task, CtxAt(b, start, u))
  {
    if t > 0 {
      UnmetThroughAll(b, start, t - 1);
      if !TaskHolds(b.basic.task, CtxAt(b, start, t)) && !UnmetThrough(b, start, t - 1) {
        var u :| 1 <= u <= t - 1 && TaskHolds(b.basic.task, CtxAt(b, start, u));
        assert 1 <= u <= t;
      }
    }
  }

  /** The task is met by context `c`. */
  predicate TaskHolds<S>(task: Task, c: Ctx<S>)
  {
    match task
    case MaxGen(v) => c.gen >= v
    case MinFit(f) => c.bestF <= f
  }

  /**
   * The task reads only `gen` and `best_f`: once met, it stays met by any
   * context at a later generation with a best fitness no worse.
   */
  lemma TaskMonotone<S>(task: Task, c: Ctx<S>, d: Ctx<S>)
    requires c.gen <= d.gen && d.bestF <= c.bestF
    ensures TaskHolds(task, c) ==> TaskHolds(task, d)
    ensures c.gen == d.gen && c.bestF == d.bestF ==> (TaskHolds(task, c) <==> TaskHolds(task, d))
  {
  }

  /** Integer division by `d` grows by one exactly at the multiples of `d`. */
  lemma DivStep(t: nat, d: nat)
    requires d > 0 && t > 0
    ensures t / d == (t - 1) / d + (if t % d == 0 then 1 else 0)
  {
    var q, r := (t - 1) / d, (t - 1) % d;
    if r == d - 1 {
      DivUnique(t, d, q + 1, 0);
    } else {
      DivUnique(t, d, q, r + 1);
    }
  }

  /** A multiple `t > 0` of `d` is the `(1 + (t - 1) / d)`-th multiple. */
  lemma MultipleIndex(t: nat, d: nat)
    requires d > 0 && t > 0 && t % d == 0
    ensures (1 + (t - 1) / d) * d == t
  {
    DivStep(t, d);
    DivUnique(t, d, t / d, 0);
  }

  /** Quotient and remainder are unique. */
  lemma DivUnique(a: nat, d: nat, q: int, r: int)
    requires d > 0 && a == q * d + r && 0 <= r < d
    ensures a / d == q && a % d == r
  {
    var q', r' := a / d, a % d;
    assert (q - q') * d == r' - r;
    MulBounded(q - q', d);
  }

  /** The only multiple of `d` strictly between `-d` and `d` is zero. */
  lemma MulBounded(k: int, d: int)
    requires d > 0 && -d < k * d < d
    ensures k == 0
  {
    if k > 0 {
      MulAtLeast(k, d);
    } else if k < 0 {
      MulAtLeast(-k, d);
    }
  }

  /** A positive multiple of `d >= 0` is at least `d`. */
  lemma MulAtLeast(k: int, d: int)
    requires k >= 1 && d >= 0
    ensures k * d >= d
  {
    assert k * d == (k - 1) * d + d;
    assert (k - 1) * d >= 0;
  }

  /** The report after generation `t` has one entry per multiple of `rpt` in `0 .. t`. */
  lemma {:induction false} RecordsLength<S, R, K>(b: Builder<S, R, K>, start: Ctx<S>, t: nat)
    requires start.gen == 0 && b.basic.rpt > 0
    ensures |Records(b, start, t)| == 1 + t / b.basic.rpt
  {
    if t > 0 {
      RecordsLength(b, start, t - 1);
      DivStep(t, b.basic.rpt);
    }
  }

  /** Entry `m` of the report records the context after generation `m * rpt`. */
  lemma {:induction false} RecordsAt<S, R, K>(b: Builder<S, R, K>, start: Ctx<S>, t: nat)
    requires start.gen == 0 && b.basic.rpt > 0
    ensures forall m :: 0 <= m < |Records(b, start, t)| ==>
      Records(b, start, t)[m] == b.record(CtxAt(b, start, m * b.basic.rpt))
  {
    if t > 0 {
      RecordsAt(b, start, t - 1);
      RecordsLength(b, start, t - 1);
      if IsReportPoint(b.basic.rpt, t) {
        MultipleIndex(t, b.basic.rpt);
      }
    }
  }

  /** The callback can stop the run only at a report point. */
  lemma StopsOnlyAtReportPoints<S, R, K>(b: Builder<S, R, K>, start: Ctx<S>, t: nat)
    requires start.gen == 0 && b.basic.rpt > 0 && !Verdict(b, start, t)
    ensures t % b.basic.rpt == 0
  {
  }

  // --------------------------------------------------------------- the loop

  /** Why the loop ended. */
  datatype Stop = CallbackStop | TaskDone | FuelOut

  /** The solver's result: the final context, the report, and the callback's state. */
  datatype Solved<S, R, K> = Solved(ctx: Ctx<S>, report: seq<R>, callbackState: K, stop: Stop)

  /** `solve` panics on a zero report interval. */
  datatype SolveError = ZeroInterval

  /** `max(v, 1)`: the loop always runs at least one generation. */
  function AtLeastOne(v: nat): (r: nat)
    ensures r >= 1 && r >= v && (r == v || r == 1)
  {
    if v == 0 then 1 else v
  }

  /**
   * One pass of the loop up to the report check: advance `gen`, recompute
   * the adaptive value, run the strategy, and record the improvement in
   * `diff`.
   */
  method Advance<S, R, K>(b: Builder<S, R, K>, start: Ctx<S>, ctx: Ctx<S>) returns (next: Ctx<S>)
    requires start.gen == 0 && ctx == CtxAt(b, start, ctx.gen)
    ensures next == CtxAt(b, start, ctx.gen + 1)
    ensures next.gen == ctx.gen + 1 && next.diff == ctx.bestF - next.bestF
  {
    next := ctx.(gen := ctx.gen + 1);
    next := next.(adaptive := b.adaptive(next));
    var bestF := next.bestF;
    var step := b.setting.generation(next);
    next := next.(bestF := step.0, state := step.1);
    next := next.(diff := bestF - next.bestF);
  }

  /**
   * The `loop` of `solve`, entered after the initial callback accepted
   * generation 0 and its record was pushed.
   */
  method Generations<S, R, K>(b: Builder<S, R, K>, start: Ctx<S>, fuel: nat, ctx0: Ctx<S>, k0: K, report0: seq<R>)
    returns (s: Solved<S, R, K>)
    requires start.gen == 0 && b.basic.rpt > 0 && Verdict(b, start, 0)
    requires ctx0 == CtxAt(b, start, 0) && k0 == KAfter(b, start, 0) && report0 == Records(b, start, 0)
    ensures s.ctx == CtxAt(b, start, s.ctx.gen) && s.ctx.gen <= fuel
    ensures s.callbackState == KAfter(b, start, s.ctx.gen)
    ensures s.stop == CallbackStop ==>
      s.ctx.gen >= 1 && !Verdict(b, start, s.ctx.gen) && AcceptedThrough(b, start, s.ctx.gen - 1) &&
      UnmetThrough(b, start, s.ctx.gen - 1) && s.report == Records(b, start, s.ctx.gen - 1)
    ensures s.stop != CallbackStop ==> AcceptedThrough(b, start, s.ctx.gen) && s.report == Records(b, start, s.ctx.gen)
    ensures s.stop == TaskDone ==> s.ctx.gen >= 1 && TaskHolds(b.basic.task, s.ctx) && UnmetThrough(b, start, s.ctx.gen - 1)
    ensures s.stop == FuelOut ==> UnmetThrough(b, start, s.ctx.gen)
    ensures s.stop == FuelOut ==> s.ctx.gen == fuel && (fuel == 0 || !TaskHolds(b.basic.task, s.ctx))
  {
    var rpt := b.basic.rpt;
    var ctx, k, report := ctx0, k0, report0;
    var stop := FuelOut;
    while true
      invariant ctx == CtxAt(b, start, ctx.gen) && ctx.gen <= fuel
      invariant k == KAfter(b, start, ctx.gen) && report == Records(b, start, ctx.gen)
      invariant AcceptedThrough(b, start, ctx.gen) && UnmetThrough(b, start, ctx.gen)
      decreases fuel - ctx.gen
    {
      if ctx.gen == fuel {
        stop := FuelOut;
        break;
      }
      ctx := Advance(b, start, ctx);
      if ctx.gen % rpt == 0 {
        var answer := b.callback.call(k, ctx);
        k := answer.1;
        if !answer.0 {
          stop := CallbackStop;
          break;
        }
        report := report + [b.record(ctx)];
      }
      if TaskHolds(b.basic.task, ctx) {
        stop := TaskDone;
        break;
      }
    }
    s := Solved(ctx, report, k, stop);
  }

  /**
   * `SolverBuilder::solve` on a fresh context (generation 0), running at
   * most `fuel` generations.  A zero report interval is rejected.  The run
   * ends when the callback refuses at a report point (nothing is recorded
   * for that point), or when the task holds after a generation, or when
   * the fuel is spent; every earlier report point was accepted and no
   * earlier generation met the task.
   */
  method Solve<S, R, K>(b: Builder<S, R, K>, start: Ctx<S>, fuel: nat) returns (res: Result<Solved<S, R, K>, SolveError>)
    requires start.gen == 0
    ensures b.basic.rpt == 0 <==> res.Err?
    ensures res.Ok? ==> res.value.ctx == CtxAt(b, start, res.value.ctx.gen) && res.value.ctx.gen <= fuel
    ensures res.Ok? ==> res.value.callbackState == KAfter(b, start, res.value.ctx.gen)
    ensures res.Ok? && res.value.stop == CallbackStop ==>
      !Verdict(b, start, res.value.ctx.gen) && res.value.ctx.gen % b.basic.rpt == 0 &&
      (res.value.ctx.gen == 0 || AcceptedThrough(b, start, res.value.ctx.gen - 1)) &&
      UnmetThrough(b, start, if res.value.ctx.gen == 0 then 0 else res.value.ctx.gen - 1) &&
      res.value.report == (if res.value.ctx.gen == 0 then [] else Records(b, start, res.value.ctx.gen - 1)) &&
      |res.value.report| == res.value.ctx.gen / b.basic.rpt
    ensures res.Ok? && res.value.stop != CallbackStop ==>
      AcceptedThrough(b, start, res.value.ctx.gen) && res.value.report == Records(b, start, res.value.ctx.gen) &&
      |res.value.report| == 1 + res.value.ctx.gen / b.basic.rpt
    ensures res.Ok? && res.value.stop == TaskDone ==>
      res.value.ctx.gen >= 1 && TaskHolds(b.basic.task, res.value.ctx) && UnmetThrough(b, start, res.value.ctx.gen - 1)
    ensures res.Ok? && res.value.stop == FuelOut ==>
      res.value.ctx.gen == fuel && UnmetThrough(b, start, res.value.ctx.gen)
  {
    if b.basic.rpt == 0 {
      return Err(ZeroInterval);
    }
    var ctx := start.(adaptive := b.adaptive(start));
    var init := b.setting.init(ctx);
    ctx := ctx.(bestF := init.0, state := init.1);
    var answer := b.callback.call(b.callback.state, ctx);
    if !answer.0 {
      return Ok(Solved(ctx, [], answer.1, CallbackStop));
    }
    var s := Generations(b, start, fuel, ctx, answer.1, [b.record(ctx)]);
    if s.stop == CallbackStop {
      RecordsLength(b, start, s.ctx.gen - 1);
      DivStep(s.ctx.gen, b.basic.rpt);
    } else {
      RecordsLength(b, start, s.ctx.gen);
    }
    res := Ok(s);
  }

  /**
   * With `MaxGen(v)`, a callback that never stops the run and enough fuel,
   * the run performs exactly `max(v, 1)` generations and records
   * `1 + gen / rpt` entries.
   */
  method SolveMaxGen<S(!new), R, K(!new)>(b: Builder<S, R, K>, start: Ctx<S>, fuel: nat) returns (res: Result<Solved<S, R, K>, SolveError>)
    requires start.gen == 0 && b.basic.rpt > 0 && b.basic.task.MaxGen? && AlwaysContinue(b.callback)
    requires fuel >= AtLeastOne(b.basic.task.v)
    ensures res.Ok? && res.value.stop == TaskDone
    ensures res.value.ctx.gen == AtLeastOne(b.basic.task.v)
    ensures res.value.report == Records(b, start, res.value.ctx.gen)
    ensures |res.value.report| == 1 + res.value.ctx.gen / b.basic.rpt
  {
    res := Solve(b, start, fuel);
    var gen := res.value.ctx.gen;
    var v := b.basic.task.v;
    assert Verdict(b, start, gen);
    MaxGenUnmet(b, start, if res.value.stop == FuelOut || gen == 0 then gen else gen - 1);
  }

  /**
   * With `MinFit(f)` and a callback that never stops, the run ends at the
   * first generation (never generation 0) whose best fitness is at most
   * `f`, or runs out of fuel with every generation above `f`.
   */
  method SolveMinFit<S(!new), R, K(!new)>(b: Builder<S, R, K>, start: Ctx<S>, fuel: nat) returns (res: Result<Solved<S, R, K>, SolveError>)
    requires start.gen == 0 && b.basic.rpt > 0 && b.basic.task.MinFit? && AlwaysContinue(b.callback)
    ensures res.Ok? && res.value.stop != CallbackStop
    ensures res.value.stop == TaskDone ==> res.value.ctx.gen >= 1 && res.value.ctx.bestF <= b.basic.task.f
    ensures res.value.stop == TaskDone ==>
      forall u :: 1 <= u < res.value.ctx.gen ==> CtxAt(b, start, u).bestF > b.basic.task.f
    ensures res.value.stop == FuelOut ==> res.value.ctx.gen == fuel
    ensures res.value.stop == FuelOut ==> forall u :: 1 <= u <= fuel ==> CtxAt(b, start, u).bestF > b.basic.task.f
  {
    res := Solve(b, start, fuel);
    var gen := res.value.ctx.gen;
    assert Verdict(b, start, gen);
    UnmetThroughAll(b, start, if res.value.stop == TaskDone then gen - 1 else gen);
  }

  /** Under `MaxGen(v)` the task stays unmet only below `max(v, 1)`. */
  lemma MaxGenUnmet<S, R, K>(b: Builder<S, R, K>, start: Ctx<S>, t: nat)
    requires start.gen == 0 && b.basic.task.MaxGen?
    requires UnmetThrough(b, start, t)
    ensures t < AtLeastOne(b.basic.task.v)
  {
  }

  /**
   * The default run: `MaxGen(200)` with a report interval of one and the
   * default closures performs exactly 200 generations and reports
   * `(gen, best_f)` for every generation `0 .. 200`.
   */
  method SolveDefault<S(!new)>(setting: Setting<S>, start: Ctx<S>) returns (res: Result<Solved<S, (nat, real), ()>, SolveError>)
    requires start.gen == 0
    requires setting.defaultBasic.task == DefaultBasic().task && setting.defaultBasic.rpt == DefaultBasic().rpt
    ensures res.Ok? && res.value.stop == TaskDone && res.value.ctx.gen == 200 && |res.value.report| == 201
    ensures forall m :: 0 <= m < 201 ==> res.value.report[m] == (m, CtxAt(Build(setting), start, m).bestF)
  {
    var b := Build(setting);
    res := SolveMaxGen(b, start, 200);
    RecordsAt(b, start, 200);
  }
}
