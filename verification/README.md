# metaheuristics-rs solver core in Dafny

This project models the control core of the `metaheuristics-rs` optimisation
engine and proves properties of the model. The repository snapshot mixes two
revisions of the solver and two revisions of the firefly strategy, so each
revision has its own module:

| module | file | models |
|---|---|---|
| `Wrappers` | `wrappers.dfy` | `Option` and `Result`; an `Err` stands for a panic of the source |
| `Population` | `population.dfy` | rows, pools, the population `Context` and the `find_best` scan |
| `ReportSolver` | `report_solver.dfy` | `src/solver.rs`: `BasicSetting`, the builder, and `solve`. `solve` runs a report-interval loop and stops on a callback, on `MaxGen`, or on `MinFit`. |
| `InitialPool` | `initial_pool.dfy` | `src/solver_builder.rs`: the bounds check, the `Pool` policies `Ready`, `UniformBy` and `Func`, `uniform_pool` and `gaussian_pool` |
| `ClosureSolver` | `closure_solver.dfy` | `src/solver_builder.rs`: the builder, `Solver::build`, and `solve` with its loop "callback, task, `gen += 1`, generation" |
| `Firefly` | `firefly.dfy` | `src/methods/fa.rs`: the ordered-pair scan with greedy acceptance |
| `LegacyFirefly` | `legacy_firefly.dfy` | `src/fa.rs`: the scan that commits every move, the perturbation fallback, and the `beta0` drift |

Coordinates are `real`. So are fitness values in the report solver and both
firefly revisions, standing for `f64` values that are never NaN, so fitness is
totally ordered and lower is better. The closure solver keeps the fitness type
generic (`Y`), as its source does. Oracles stand in
for everything the core calls but does not define:

- the strategy's `init` and `generation`;
- the user closures: task, callback, record, adaptive, filter and sampler;
- the objective's fitness;
- the random source. Its state is an opaque type `G`, and every draw returns
  the advanced state, so the order of draws is part of the model.

A strategy step and a callback can read the generation counter but not write
it, so only the loop advances `gen`. A callback is an `FnMut`, so its captured state is an
explicit type `K` threaded through every call. Loops that the source may run
forever take a `fuel` bound:

- the report solver's generations;
- rejection sampling;
- the closure solver's generations.

Every `.dfy` file is verified together with `dafny verify`.

## Model

| member | source | states |
|---|---|---|
| `Population.FindBest` | src/methods/fa.rs:84 | `find_best` keeps pool and fitness. The tracked best never gets worse and ends no worse than any slot. It changes only to a slot's row and fitness, and it equals the population minimum exactly when that minimum is no worse than the old best. An empty population is left alone. |
| `Population.FindBestIdempotent` | src/methods/fa.rs:84 | refreshing the best twice is refreshing it once |
| `Population.MinMonotone` | src/methods/fa.rs:72-75 | if no fitness value rises, the population minimum does not rise |
| `ReportSolver.DefaultBasic` | src/solver.rs:30-38 | the default basic setting is `MaxGen(200)`, 200 individuals, report interval 1 and no seed |
| `ReportSolver.Build` | src/solver.rs:338-349 | `build` uses the strategy's default basic setting, an adaptive value of 0, the record `(gen, best_f)`, and a callback that never stops the run |
| `ReportSolver.WithTask` | src/solver.rs:9-17 | `task` replaces the task and leaves every other basic field and closure as it was |
| `ReportSolver.WithPopNum` | src/solver.rs:9-17 | `pop_num` replaces the population size only |
| `ReportSolver.WithRpt` | src/solver.rs:9-17 | `rpt` replaces the report interval only |
| `ReportSolver.WithSeed` | src/solver.rs:9-17 | `seed` replaces the seed only |
| `ReportSolver.WithAdaptive` | src/solver.rs:170-176 | `adaptive` replaces the adaptive function only |
| `ReportSolver.WithRecord` | src/solver.rs:201-212 | `record` replaces the record function and the report type, and keeps the rest |
| `ReportSolver.WithCallback` | src/solver.rs:248-259 | `callback` replaces the callback and its captured state, and keeps the rest |
| `ReportSolver.BasicSetterLastWins` | src/solver.rs:9-17 | setting the task twice, or the report interval twice, keeps the last value |
| `ReportSolver.SettersCommute` | src/solver.rs:9-17 | the task and `rpt` setters commute, and so do `pop_num` with `seed` and `pop_num` with the task |
| `ReportSolver.CtxAt` | src/solver.rs:273-288 | the reference context after `t` generations has generation counter `t` |
| `ReportSolver.DiffTelescopes` | src/solver.rs:285-288 | each generation sets `diff` to the best fitness before it minus the best fitness after it, so the `diff` values of generations `1 .. t` sum to the best fitness after initialisation minus the best fitness after generation `t` |
| `ReportSolver.TaskMonotone` | src/solver.rs:297-307 | the task (`MaxGen` or `MinFit`) reads only `gen` and `best_f`: once met it stays met at a later generation with a best fitness no worse |
| `ReportSolver.AcceptedThroughAll` | src/solver.rs:278-296 | the callback let the run continue at generation 0 and at every generation up to `t` |
| `ReportSolver.UnmetThroughAll` | src/solver.rs:297-307 | the task failed at every generation `1 .. t`, or else it held at one of them |
| `ReportSolver.RecordsLength` | src/solver.rs:281-296 | after `t` accepted generations the report has `1 + t / rpt` entries |
| `ReportSolver.RecordsAt` | src/solver.rs:291-296 | report entry `m` is the record of the context at generation `m * rpt` |
| `ReportSolver.StopsOnlyAtReportPoints` | src/solver.rs:291-294 | the callback can stop the run only at a generation with `gen % rpt == 0` |
| `ReportSolver.Advance` | src/solver.rs:283-288 | one generation raises `gen` by exactly 1, and `diff` is the best fitness before minus the best fitness after |
| `ReportSolver.Generations` | src/solver.rs:282-320 | the loop ends at a refused report point, at the first generation meeting the task, or when fuel runs out; context, callback state and report follow the reference run, and each stop is characterised |
| `ReportSolver.Solve` | src/solver.rs:262-322 | `solve` fails exactly when `rpt == 0`. If the initial callback refuses, the run ends at generation 0 with an empty report. A run stopped by the callback has `gen / rpt` entries; any other run has `1 + gen / rpt`. A run that met its task did so first at its last generation. |
| `ReportSolver.SolveMaxGen` | src/solver.rs:297-302 | with `MaxGen(v)` and a callback that never stops, the run ends at `gen == max(v, 1)` with `1 + gen / rpt` report entries |
| `ReportSolver.MaxGenUnmet` | src/solver.rs:298-300 | under `MaxGen(v)` the task can stay unmet only below generation `max(v, 1)` |
| `ReportSolver.SolveMinFit` | src/solver.rs:303-307 | with `MinFit(f)` and a callback that never stops, the run ends at the first generation, never generation 0, whose best fitness is at most `f`. Otherwise fuel runs out with every generation above `f`. |
| `ReportSolver.SolveDefault` | src/solver.rs:338-349 | the default run performs exactly 200 generations and reports `(m, best_f)` for every generation `0 .. 200` |
| `InitialPool.CheckBounds` | src/solver_builder.rs:189-192 | the check passes exactly when every bound has `lower <= upper` |
| `InitialPool.Draw` | src/solver_builder.rs:266-286 | a draw fails exactly when a Gaussian sampler is indexed past the end of `mean` or `std` |
| `InitialPool.UniformDraw` | src/solver_builder.rs:270-272 | `uniform_pool` draws uniformly on the coordinate's own bound |
| `InitialPool.GaussianPool` | src/solver_builder.rs:283-286 | `gaussian_pool` succeeds exactly when `mean` and `std` have the same length |
| `InitialPool.GaussianDraws` | src/solver_builder.rs:283-286 | a sampler built by `gaussian_pool` draws coordinate `s` from the normal law `(mean[s], std[s])`, and fails exactly past the end of `mean` |
| `InitialPool.Coords` | src/solver_builder.rs:218-222 | the first `n` coordinates of a row are drawn in index order; the row fails exactly when a Gaussian sampler is shorter than `n` |
| `InitialPool.Rows` | src/solver_builder.rs:215-225 | `k` rows of `dim` coordinates each are drawn in row-major order; the result fails exactly when a Gaussian sampler is shorter than the dimension and `k > 0` |
| `InitialPool.CoordsStuck` | src/solver_builder.rs:218-222 | a failing draw aborts the whole row with its error |
| `InitialPool.DrawRow` | src/solver_builder.rs:219-221 | one row is drawn coordinate by coordinate, as the reference row |
| `InitialPool.FuncPool` | src/solver_builder.rs:215-225 | `Pool::Func` yields `pop_num` rows of `dim` coordinates, drawn in row-major order, and fails only for a short Gaussian sampler |
| `InitialPool.Keep` | src/solver_builder.rs:209-211 | the kept rows are among the drawn rows and pass the filter |
| `InitialPool.KeepAll` | src/solver_builder.rs:209-211 | a filter that accepts everything keeps every drawn row |
| `InitialPool.KeepNone` | src/solver_builder.rs:209-211 | a filter that accepts nothing keeps no row |
| `InitialPool.SiftUniform` | src/solver_builder.rs:201-213 | `Pool::UniformBy` yields `pop_num` rows of `dim` coordinates that pass the filter. They are exactly the accepted rows among the uniform draws, and the last draw filled the pool. Without enough accepted rows, fuel runs out. |
| `InitialPool.ReadyAsWritten` | src/solver_builder.rs:195-199 | the ready-pool check as written passes exactly when the length is `pop_num`, the pool is not empty, and row 0 has `dim` coordinates |
| `InitialPool.ReadyAcceptsRagged` | src/solver_builder.rs:197-198 | the check as written accepts a two-row pool whose second row is too short |
| `InitialPool.CheckReady` | src/solver_builder.rs:195-199 | the corrected check passes exactly when the length is `pop_num` and every row has `dim` coordinates; a size mismatch is reported first |
| `InitialPool.CheckReadyStronger` | src/solver_builder.rs:197-198 | every non-empty pool the corrected check accepts is also accepted as written |
| `ClosureSolver.NoCallback` | src/solver_builder.rs:261 | the default callback hands the context back unchanged |
| `ClosureSolver.Build` | src/solver_builder.rs:249-263 | `build` uses the strategy's population size, a Pareto limit of 20, no seed, the uniform pool, the task `gen >= 200` and the callback that does nothing |
| `ClosureSolver.WithPopNum` | src/solver_builder.rs:63-71 | `pop_num` replaces the population size only |
| `ClosureSolver.WithParetoLimit` | src/solver_builder.rs:91-96 | `pareto_limit` replaces the Pareto limit only |
| `ClosureSolver.WithSeed` | src/solver_builder.rs:103-105 | `seed` replaces the seed only |
| `ClosureSolver.WithPool` | src/solver_builder.rs:113-115 | `init_pool` replaces the pool policy only |
| `ClosureSolver.WithTask` | src/solver_builder.rs:135-141 | `task` replaces the task only |
| `ClosureSolver.WithCallback` | src/solver_builder.rs:163-169 | `callback` replaces the callback and its captured state only |
| `ClosureSolver.SettersCompose` | src/solver_builder.rs:91-115 | setting the pool twice keeps the last one; the pool and seed setters commute, and so do the `pop_num` and `pareto_limit` setters |
| `ClosureSolver.Evaluate` | src/solver_builder.rs:213 | `from_pool` evaluates the objective on every row, in pool order |
| `ClosureSolver.Construct` | src/solver_builder.rs:194-226 | the built context has generation 0 and `pop_num` rows of `dim` coordinates. A ready pool goes through the corrected check: it is accepted exactly when its length is `pop_num` and every row has `dim` coordinates, keeps its fitness values, and when `pop_num > 0` also passes the check as written. A `Func` pool is the reference draw. A `UniformBy` pool is the accepted rows of the uniform draws up to the one that filled it, or the draws run out of fuel. |
| `ClosureSolver.Launch` | src/solver_builder.rs:227 | `algorithm.init` runs once on the built context, keeps `gen`, and starts the callback from its captured state |
| `ClosureSolver.Called` | src/solver_builder.rs:229 | the callback changes neither the generation counter nor the random source |
| `ClosureSolver.Advanced` | src/solver_builder.rs:233-234 | an iteration raises `gen` by exactly 1 before the generation and does not touch the callback's state |
| `ClosureSolver.Head` | src/solver_builder.rs:228-235 | at the head of iteration `t` the generation counter is `t` |
| `ClosureSolver.RanThroughAll` | src/solver_builder.rs:229-232 | the task failed after the callback at every iteration before `t`, or else held at one of them |
| `ClosureSolver.EventsShape` | src/solver_builder.rs:227-235 | in the loop's own event log, `init` comes first and only once, each task check follows the callback of the same generation, and the number of generations equals the final `gen`. The order of the oracle calls themselves is carried by `Head`, `Called` and `RanThroughAll`. |
| `ClosureSolver.RunLoop` | src/solver_builder.rs:228-235 | the loop stops at the first iteration whose context, after the callback, meets the task, or when fuel runs out; its events are the reference events |
| `ClosureSolver.Solve` | src/solver_builder.rs:178-237 | `solve` fails on invalid bounds. Otherwise the starting pool is the one its policy yields from the random state `Rng::new(seed)`, with the right shape; `init` runs once, and the run stops at the first context meeting the task. Failure is characterised per policy: a ready pool of the wrong shape, a `UniformBy` draw that runs out of fuel, a short Gaussian sampler. The returned seed is `rng.seed()` of the random state the run ends with. |
| `ClosureSolver.DefaultRanBelow` | src/solver_builder.rs:260 | under the default task the loop never runs past generation 200 |
| `ClosureSolver.SolveDefault` | src/solver_builder.rs:249-263 | with valid bounds the default run succeeds after exactly 200 generations, and its pool has the strategy's default size |
| `Firefly.Create` | src/methods/fa.rs:27-34 | `create` copies `alpha`, `beta_min` and `gamma`, and fixes `beta0` at 1 |
| `Firefly.DefaultCreate` | src/methods/fa.rs:6-34 | the defaults are 80 fireflies, `alpha` 0.05, `beta_min` 0.2, `gamma` 1 and `beta0` 1, so every attraction coefficient lies in `[0.2, 1]` |
| `Firefly.BetaBetween` | src/methods/fa.rs:65 | for `e` in `[0, 1]` the coefficient lies between `beta_min` and `beta0` |
| `Firefly.CandidateCoordinate` | src/methods/fa.rs:66-71 | coordinate `s` of a candidate is drawn from the random state the first `s` coordinates left |
| `Firefly.Assign` | src/methods/fa.rs:74 | `assign_from` changes slot `i` only; the new row becomes the tracked best exactly when its fitness is strictly better, and the tracked best never gets worse |
| `Firefly.PairStep` | src/methods/fa.rs:48-75 | a pair step changes only slot `i`. It does nothing when `fitness[i] <= fitness[j]`, and otherwise only lowers `fitness[i]` to the fitness of the committed row. |
| `Firefly.SelfPairSkipped` | src/methods/fa.rs:48-56 | the self-pair `(i, i)` never moves, so the `ctx.best` branch is unreachable |
| `Firefly.PairMovesIff` | src/methods/fa.rs:72-75 | slot `i` improves exactly when `j` is strictly brighter and the candidate's fitness is strictly lower |
| `Firefly.PairStepTracksBest` | src/methods/fa.rs:72-75 | across a pair step the tracked best never gets worse, is the old best or some slot's row and fitness, and is no worse than any committed slot |
| `Firefly.TrackedIsMin` | src/methods/fa.rs:72-75 | if the old best was the population minimum and slots only improved, the tracked best is the new minimum |
| `Firefly.PairStepKeepsImproved` | src/methods/fa.rs:72-75 | a pair step keeps every slot either unchanged or improved to the fitness of its row |
| `Firefly.MoveFireflies` | src/methods/fa.rs:46-77 | the row-major pair scan keeps the shape and tracks the best. No slot's fitness rises, the population minimum does not rise, and a best that was the minimum stays the minimum. |
| `Firefly.Generation` | src/methods/fa.rs:82-85 | a generation is the pair scan followed by `find_best`. The tracked best never gets worse, ends no worse than any slot, and is the old best or some slot's row and fitness. A best that was the population minimum stays the minimum. |
| `LegacyFirefly.New` | src/fa.rs:40-49 | `FA::new` copies the setting's factors and `beta0` over the population |
| `LegacyFirefly.DefaultNew` | src/fa.rs:4-14 | the defaults are 80 fireflies, `alpha` 0.01, `beta_min` 0.2, `gamma` 1 and `beta0` 1 |
| `LegacyFirefly.Distance` | src/fa.rs:16-28 | `distance` is the sum of squared coordinate differences |
| `LegacyFirefly.SqDistSymmetric` | src/fa.rs:16-28 | the distance is symmetric |
| `LegacyFirefly.SqDistNonNegative` | src/fa.rs:16-28 | the distance is non-negative, and zero on identical rows |
| `LegacyFirefly.MoveFirefly` | src/fa.rs:50-65 | a move rewrites row `me` toward row `she` with scale `beta0 - beta_min`; as written `beta0` drops by `beta_min`, and under the intended rule it stays |
| `LegacyFirefly.DrainLinear` | src/fa.rs:55 | after `k` drifting moves `beta0` is the initial value minus `k * beta_min` |
| `LegacyFirefly.DrainAdds` | src/fa.rs:55 | the drift of `a` moves followed by `m` moves is the drift of `a + m` moves |
| `LegacyFirefly.MoversPositiveIff` | src/fa.rs:68-75 | `i` moves at least once exactly when some other `j` is strictly brighter |
| `LegacyFirefly.FinishRow` | src/fa.rs:76-84 | a row that moved is kept as is; a row that did not move gets only the perturbation |
| `LegacyFirefly.Walk` | src/fa.rs:66-87 | the reference scan keeps one fitness per row and `dim` coordinates in every row at every point of the scan |
| `LegacyFirefly.WalkRowFitness` | src/fa.rs:67-86 | no fitness value changes during an inner loop |
| `LegacyFirefly.WalkSlots` | src/fa.rs:67-86 | earlier rows hold their re-evaluated fitness; later rows keep their row and original fitness |
| `LegacyFirefly.WalkRowMoves` | src/fa.rs:69-75 | the moves of row `i` are the strictly brighter other rows, judged by the fitness at the start of its inner loop |
| `LegacyFirefly.WalkDrain` | src/fa.rs:55 | as written `beta0` has drained by one `beta_min` per move so far; under the intended rule it is unchanged |
| `LegacyFirefly.RowPerturbedIff` | src/fa.rs:76-84 | row `i` is perturbed exactly when no other row is strictly brighter |
| `LegacyFirefly.MoveRow` | src/fa.rs:67-86 | one outer iteration follows the reference scan |
| `LegacyFirefly.MoveFireflies` | src/fa.rs:66-87 | the whole scan follows the reference scan |
| `LegacyFirefly.Generation` | src/fa.rs:97-100 | a generation is the reference scan `Walk` followed by `find_best`: the pool, fitness and `beta0` are those the scan leaves, the best is refreshed from them, and the random state is the one the scan leaves. It keeps the shape and factors. Every fitness is that of its row; slots may get worse, because every move is committed. The tracked best never gets worse, ends no worse than any slot, and is the population minimum exactly when that minimum is no worse than the old best. `moves` is the number of moves the scan made; as written `beta0` drains by that many `beta_min`, and under the intended rule it is unchanged. |
| `LegacyFirefly.DriftingTurnsRepulsive` | src/fa.rs:55-56 | with the defaults, once six moves have drained `beta0`, the next move's coefficient is negative for every `e` in `(1/2, 1]` and is `-0.1` at `e = 3/4` |
| `LegacyFirefly.FixedStaysAttractive` | src/fa.rs:55-56 | under the intended rule the coefficient stays in `[beta_min, beta0]` for every move |

## Left out

- `Task::MaxTime` and the `time` field: they depend on the wall clock.
- `Task::SlowDown`: it is a float ratio `diff / diff` whose 0/0 and NaN behaviour a `real` cannot express.
- The numeric firefly move is an opaque oracle: `exp`, the beta formula inside the move, `rand_float`/`rand!`, and the clamp `check`, whose body is not shown. So bound-safety of moved individuals is not claimed.
- RNG internals (`Rng::new`, `range`, `normal`, `seed`) and seed generation are oracles over an opaque state.
- `rayon` parallel evaluation and `thread_pool`: concurrency. Evaluation is sequential and in order.
- Pareto-front maintenance: no code for it is shown. `pareto_limit` is only carried by the builder.
- The bodies of `Context::new`, `init_pop`, `Ctx::from_parts`, `Ctx::from_pool` and `find_best` are not shown; each is modelled from its documented behaviour.
  - Report solver: a fresh context is a parameter with `gen == 0`.
  - Closure solver: the rest of a fresh context is a parameter `s0`, and `from_pool` evaluates every row in order.
  - `find_best` is modelled as a scan for the first minimum, taken only when it is strictly better than the tracked best. That follows the documented invariant that the tracked best fitness never increases across generations.
- A ready pool's `pool_y` is used as given. The source never compares its length with the pool's.
- `func.dim()` is the number of bounds, `|bounds|`: the objective's dimension is not a separate value.
- `ndarray` views: rows are `seq<real>`. Both firefly scans (`Firefly.After`, `Firefly.MoveFireflies`, `LegacyFirefly.Walk`) run over the pool's length where the source runs over `pop_num`. The documented invariant keeps the pool's length equal to `pop_num` after initialisation, so the model does not carry `pop_num` in the context.
- Integer widths: `gen` (`u64`), `rpt` (`u64`), `pop_num` (`usize`) and `seed` (`u128`) are unbounded naturals. No overflow is modelled.
- Report solver: the callback gets `&Context` and only answers whether to continue. The strategy's `init` and `generation` get `&mut Context`; here they return only the best fitness and the rest of the state `S`, so they cannot rewrite `gen`, `adaptive` or `diff`.
- Closure solver: the callback, `init` and `generation` get `&mut Ctx`. Here they return everything except the generation counter, so they cannot rewrite `gen`.
- Fuel bounds cut off runs that the source may continue forever. An unfinished run only says the task never held within the fuel.
- `src/tests.rs` (stochastic end-to-end tests), `src/lib.rs` and `src/utility.rs` (wiring and re-exports) are not modelled.
- `LegacyFirefly.SqDistNonNegative` does not prove the converse, that zero distance means identical rows.
- `ClosureSolver.Construct` checks a ready pool with the corrected check (see Findings), not with the two asserts at src/solver_builder.rs:197-198. It therefore refuses a ragged pool whose row 0 has the right width, which the source accepts. It also accepts an empty pool when `pop_num == 0`, where the source panics on `pool[0]`. The as-written check is `InitialPool.ReadyAsWritten`.
- `ClosureSolver.Solve` inherits the corrected ready-pool check from `ClosureSolver.Construct`.
- `Firefly.Assign`: the body of `assign_from` is not part of this model. It follows the documented behaviour of `assign`: replace the slot, and take the new row as the best when its fitness is strictly better. The Pareto front it would also update is not modelled. `generation` calls `find_best` right after the scan (src/methods/fa.rs:84), so the best fitness after a generation does not depend on this choice. Only which of several equally good rows is kept can differ.

## Findings

| source | as written | input that shows it | evidently intended | confidence | as-written member | corrected member |
|---|---|---|---|---|---|---|
| src/fa.rs:55-56 | every move lowers the persistent `beta0` by `beta_min`, so the attraction scale keeps shrinking and then turns negative | default setting (`beta0` 1, `beta_min` 0.2): after six moves the seventh move's coefficient is `0.2 - 0.4 e`; for a distinct pair at squared distance `ln(4/3)` (`e = 3/4` with `gamma` 1) it is `-0.1`, so `i` moves away from the brighter `j` | scale `beta0 - beta_min` with `beta0` fixed, as in src/methods/fa.rs:65, so the coefficient stays in `[beta_min, beta0]` | medium, not executed | `LegacyFirefly.DriftingTurnsRepulsive` | `LegacyFirefly.FixedStaysAttractive` |
| src/solver_builder.rs:197-198 | a ready pool is checked for its length and for the length of row 0 only; an empty pool panics on `pool[0]` | `pop_num` 2, `dim` 2, pool `[[0, 0], [0]]` passes both checks although row 1 has one coordinate | every row has `dim` coordinates | low, not executed | `InitialPool.ReadyAsWritten` | `InitialPool.CheckReady` |

The legacy model runs both rules through the same scan (`BetaRule.Drifting` and
`BetaRule.Fixed`). The closure solver builds ready pools with the corrected check;
"## Left out" says what that changes.
