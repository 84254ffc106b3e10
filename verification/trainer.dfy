/**
 * Epsilon-greedy tabular Q-learning over the cart-pole simulator: a linear
 * schedule for the exploration and learning rates, episodes of at most 500
 * steps that stop right after the first step leaving the track or tilt
 * limits, and the greedy policy read off the learned table.
 *
 * Each loop of the trainer is a method proved against a specification
 * function (`Run`, `Training`) about which the termination and
 * boundedness properties are proved as lemmas.
 */
module Trainer {
  import opened CartPole
  import opened Discretizer
  import opened RewardFunction
  import opened ValueTable

  /** The forces of the three actions. */
  const Actions: seq<real> := [-10.0, 0.0, 10.0]

  const MaxSteps: nat := 500
  const TrackLimit: real := 2.4
  const EpsilonFloor: real := 0.01
  const AlphaFloor: real := 0.05

  /** Every episode starts near upright with a small tilt and no velocity. */
  const ResetState: State := State(0.0, 0.0, 0.05, 0.0)

  /** The learning configuration. `pi` is the value used for the tilt limit
      `pi / 2`. */
  datatype Config = Config(bins: Bins, pi: real, episodes: nat, alphaMax: real, gamma: real, epsilonMax: real)

  /** The constants of the reference run, for given bin boundaries. Its
      rates keep every entry of the table at most 500. */
  function Reference(bins: Bins, pi: real): (cfg: Config)
    ensures RatesOk(cfg) && QBound(cfg.gamma) == 500.0
  {
    Config(bins, pi, 2000, 0.125, 0.99, 0.2)
  }

  /** The boundary counts the table's shape is built from. */
  predicate ConfigOk(cfg: Config)
  {
    |cfg.bins.x| == N0 && |cfg.bins.xDot| == N1 && |cfg.bins.theta| == N2 && |cfg.bins.thetaDot| == N3
  }

  /** The simulator as the trainer sees it: equations of motion, constants and
      time step. */
  datatype Sim = Sim(physics: Physics, params: Params, dt: real)

  /** The exploration random source, as the values it yields at step `t` of
      episode `e`: `random` for `random.random()`, `randint` for
      `random.randint(0, 2)`. */
  datatype Rng = Rng(random: (nat, nat) -> real, randint: (nat, nat) -> nat)

  ghost predicate RngOk(rng: Rng)
  {
    forall e: nat, t: nat :: rng.randint(e, t) < NA
  }

  // ---------------------------------------------------------------------
  // Rate schedule

  /** `maxValue - (episode / episodes) * maxValue + floor`. */
  function Anneal(maxValue: real, floor: real, episode: nat, episodes: nat): (v: real)
    requires episode < episodes
    ensures 0.0 <= maxValue ==> floor <= v <= maxValue + floor
  {
    FractionBelowOne(episode, episodes);
    maxValue - (episode as real / episodes as real) * maxValue + floor
  }

  lemma FractionBelowOne(e: nat, n: nat)
    requires e < n
    ensures 0.0 <= e as real / n as real < 1.0
  {
  }

  /** With a positive maximum the rate stays strictly above its floor. */
  lemma AnnealAboveFloor(maxValue: real, floor: real, episode: nat, episodes: nat)
    requires episode < episodes && 0.0 < maxValue
    ensures floor < Anneal(maxValue, floor, episode, episodes) <= maxValue + floor
  {
    var f := episode as real / episodes as real;
    FractionBelowOne(episode, episodes);
    assert Anneal(maxValue, floor, episode, episodes) - floor == (1.0 - f) * maxValue;
    assert 0.0 < (1.0 - f) * maxValue;
  }

  /** The rate never increases from one episode to a later one. */
  lemma AnnealNonIncreasing(maxValue: real, floor: real, e1: nat, e2: nat, episodes: nat)
    requires e1 <= e2 < episodes && 0.0 <= maxValue
    ensures Anneal(maxValue, floor, e2, episodes) <= Anneal(maxValue, floor, e1, episodes)
  {
    var n := episodes as real;
    assert e1 as real / n <= e2 as real / n;
    assert (e1 as real / n) * maxValue <= (e2 as real / n) * maxValue;
  }

  datatype Rates = Rates(epsilon: real, alpha: real)

  /** Exploration and learning rates of episode `e`. */
  function RatesAt(cfg: Config, e: nat): Rates
    requires e < cfg.episodes
  {
    Rates(Anneal(cfg.epsilonMax, EpsilonFloor, e, cfg.episodes), Anneal(cfg.alphaMax, AlphaFloor, e, cfg.episodes))
  }

  // ---------------------------------------------------------------------
  // One episode

  /** The early-termination test on the state after a step. */
  predicate OutOfBounds(s: State, pi: real)
  {
    Abs(s.x) > TrackLimit || Abs(s.theta) > pi / 2.0
  }

  /** Epsilon-greedy choice: explore with the random action when the random
      draw is below epsilon, otherwise take the first action of maximal value. */
  function Choose(rng: Rng, e: nat, t: nat, epsilon: real, cells: seq<real>, s: Key): (a: nat)
    requires RngOk(rng) && |cells| == Size && InGrid(s)
    ensures a < NA
    ensures rng.random(e, t) < epsilon ==> a == rng.randint(e, t)
    ensures rng.random(e, t) >= epsilon ==> forall b :: 0 <= b < NA ==> RowOf(cells, s)[b] <= RowOf(cells, s)[a]
    ensures rng.random(e, t) >= epsilon ==> forall b :: 0 <= b < a ==> RowOf(cells, s)[b] < RowOf(cells, s)[a]
  {
    if rng.random(e, t) < epsilon then rng.randint(e, t) else ArgMax(RowOf(cells, s))
  }

  /** What one step leaves behind: the updated table and the next state. */
  datatype Transition = Transition(cells: seq<real>, next: State)

  /** One step at step index `t`: discretize the current state, choose an
      action, advance the simulator with its force, and update the entry of
      the current cell and the chosen action with the reward of the next
      state. */
  function StepFrom(cfg: Config, sim: Sim, rng: Rng, e: nat, rates: Rates, cells: seq<real>, st: State, t: nat): (tr: Transition)
    requires ConfigOk(cfg) && RngOk(rng) && |cells| == Size
    ensures |tr.cells| == Size
  {
    var s := Discretize(st, cfg.bins);
    var a := Choose(rng, e, t, rates.epsilon, cells, s);
    var next := Euler(st, sim.physics(sim.params, st, Actions[a]), sim.dt);
    Transition(QUpdate(cells, s, a, Reward(next), Discretize(next, cfg.bins), rates.alpha, cfg.gamma), next)
  }

  /** Whether `step` can be applied to every table of the right size, and
      keeps that size. */
  ghost predicate StepperOk(step: Stepper)
  {
    forall cells: seq<real>, st: State, t: nat :: |cells| == Size ==>
      step.requires(cells, st, t) && |step(cells, st, t).cells| == Size
  }

  /** One step of the learner as a function of the table, the simulator
      state and the step index. */
  type Stepper = (seq<real>, State, nat) --> Transition

  /** The learner's step in episode `e` with rates `rates`. */
  function StepOf(cfg: Config, sim: Sim, rng: Rng, e: nat, rates: Rates): (step: Stepper)
    requires ConfigOk(cfg) && RngOk(rng)
    ensures StepperOk(step)
    ensures forall cells: seq<real>, st: State, t: nat :: |cells| == Size ==>
      step(cells, st, t) == StepFrom(cfg, sim, rng, e, rates, cells, st, t)
  {
    (cells: seq<real>, st: State, t: nat) requires |cells| == Size => StepFrom(cfg, sim, rng, e, rates, cells, st, t)
  }

  datatype Outcome = Outcome(cells: seq<real>, state: State, trace: seq<State>)

  /** The rest of an episode from step `t` with table `cells` and simulator
      state `st`, `trace` holding the states reached so far. Each step updates
      the table, and the episode ends after the update of the first step whose
      next state is out of bounds (tilt limit `pi / 2`), or after `MaxSteps`
      steps. */
  function Run(step: Stepper, pi: real, cells: seq<real>, st: State, t: nat, trace: seq<State>): (out: Outcome)
    requires StepperOk(step) && |cells| == Size
    ensures |out.cells| == Size
    decreases MaxSteps - t
  {
    if t >= MaxSteps then Outcome(cells, st, trace)
    else
      var tr := step(cells, st, t);
      if OutOfBounds(tr.next, pi) then Outcome(tr.cells, tr.next, trace + [tr.next])
      else Run(step, pi, tr.cells, tr.next, t + 1, trace + [tr.next])
  }

  /** One unfolding of `Run` before the step limit. */
  lemma RunUnfold(step: Stepper, pi: real, cells: seq<real>, st: State, t: nat, trace: seq<State>)
    requires StepperOk(step) && |cells| == Size && t < MaxSteps
    ensures var tr := step(cells, st, t);
      Run(step, pi, cells, st, t, trace) ==
        if OutOfBounds(tr.next, pi) then Outcome(tr.cells, tr.next, trace + [tr.next])
        else Run(step, pi, tr.cells, tr.next, t + 1, trace + [tr.next])
  {
  }

  /** Episode `e` from simulator state `st`, with its rates. */
  function Episode(cfg: Config, sim: Sim, rng: Rng, e: nat, rates: Rates, cells: seq<real>, st: State): (out: Outcome)
    requires ConfigOk(cfg) && RngOk(rng) && |cells| == Size
    ensures |out.cells| == Size
  {
    Run(StepOf(cfg, sim, rng, e, rates), cfg.pi, cells, st, 0, [])
  }

  /** The shape of the rest of an episode run from step `t` with `trace`
      reached so far: between one and `MaxSteps - t` further steps (one table
      update and one appended state each), the states so far kept, every new
      state but the last within bounds, the episode ending in the last state,
      and ending before the step limit only if that state is out of bounds. */
  predicate EpisodeShape(out: Outcome, trace: seq<State>, t: nat, pi: real)
  {
    && |trace| < |out.trace| <= |trace| + (MaxSteps - t)
    && out.trace[..|trace|] == trace
    && out.state == out.trace[|out.trace| - 1]
    && (forall i :: |trace| <= i < |out.trace| - 1 ==> !OutOfBounds(out.trace[i], pi))
    && (|out.trace| < |trace| + (MaxSteps - t) ==> OutOfBounds(out.state, pi))
  }

  lemma {:induction false} RunShape(step: Stepper, pi: real, cells: seq<real>, st: State, t: nat, trace: seq<State>)
    requires StepperOk(step) && |cells| == Size && t < MaxSteps
    ensures EpisodeShape(Run(step, pi, cells, st, t, trace), trace, t, pi)
    decreases MaxSteps - t
  {
    var tr := step(cells, st, t);
    if OutOfBounds(tr.next, pi) || t + 1 == MaxSteps {
      ShapeOfLastStep(tr.cells, tr.next, trace, t, pi);
    } else {
      RunShape(step, pi, tr.cells, tr.next, t + 1, trace + [tr.next]);
      ShapeExtends(Run(step, pi, tr.cells, tr.next, t + 1, trace + [tr.next]), trace, tr.next, t, pi);
    }
  }

  /** A step that ends the episode gives it its shape. */
  lemma ShapeOfLastStep(cells: seq<real>, next: State, trace: seq<State>, t: nat, pi: real)
    requires t < MaxSteps && (OutOfBounds(next, pi) || t + 1 == MaxSteps)
    ensures EpisodeShape(Outcome(cells, next, trace + [next]), trace, t, pi)
  {
    assert (trace + [next])[..|trace|] == trace;
  }

  /** An in-bounds step followed by a well-shaped rest is well shaped. */
  lemma ShapeExtends(out: Outcome, trace: seq<State>, next: State, t: nat, pi: real)
    requires t + 1 < MaxSteps && !OutOfBounds(next, pi)
    requires EpisodeShape(out, trace + [next], t + 1, pi)
    ensures EpisodeShape(out, trace, t, pi)
  {
    var trace' := trace + [next];
    assert out.trace[..|trace'|] == trace';
    assert out.trace[|trace|] == trace'[|trace|] == next;
    assert out.trace[..|trace|] == trace'[..|trace|] == trace;
  }

  /** A whole episode: at most `MaxSteps` updates, and it stops right after
      the first step whose next state is out of bounds. */
  lemma EpisodeTermination(cfg: Config, sim: Sim, rng: Rng, e: nat, rates: Rates, cells: seq<real>, st: State)
    requires ConfigOk(cfg) && RngOk(rng) && |cells| == Size
    ensures var out := Episode(cfg, sim, rng, e, rates, cells, st);
      && 1 <= |out.trace| <= MaxSteps
      && out.state == out.trace[|out.trace| - 1]
      && (forall i :: 0 <= i < |out.trace| - 1 ==> !OutOfBounds(out.trace[i], cfg.pi))
      && (|out.trace| < MaxSteps ==> OutOfBounds(out.state, cfg.pi))
  {
    RunShape(StepOf(cfg, sim, rng, e, rates), cfg.pi, cells, st, 0, []);
  }

  /** When the first step already leaves the bounds, the episode consists of
      that single step, and its update is applied. */
  lemma FirstStepTermination(cfg: Config, sim: Sim, rng: Rng, e: nat, rates: Rates, cells: seq<real>, st: State)
    requires ConfigOk(cfg) && RngOk(rng) && |cells| == Size
    requires var a := Choose(rng, e, 0, rates.epsilon, cells, Discretize(st, cfg.bins));
             OutOfBounds(Euler(st, sim.physics(sim.params, st, Actions[a]), sim.dt), cfg.pi)
    ensures var s := Discretize(st, cfg.bins);
            var a := Choose(rng, e, 0, rates.epsilon, cells, s);
            var next := Euler(st, sim.physics(sim.params, st, Actions[a]), sim.dt);
            Episode(cfg, sim, rng, e, rates, cells, st)
              == Outcome(QUpdate(cells, s, a, Reward(next), Discretize(next, cfg.bins), rates.alpha, cfg.gamma), next, [next])
  {
  }

  /** The largest value any entry can reach: the bonus discounted forever. */
  function QBound(gamma: real): real
    requires gamma < 1.0
  {
    Bonus / (1.0 - gamma)
  }

  /** The bonus is exactly the undiscounted share of `QBound(gamma)`. */
  lemma QBoundDiscounted(gamma: real)
    requires 0.0 <= gamma < 1.0
    ensures (1.0 - gamma) * QBound(gamma) == Bonus
  {
  }

  /** Rates for which every update is a convex combination. */
  predicate RatesOk(cfg: Config)
  {
    0.0 <= cfg.gamma < 1.0 && 0.0 <= cfg.alphaMax && cfg.alphaMax + AlphaFloor <= 1.0
  }

  /** Whether `step` keeps every entry at most `bound`. */
  ghost predicate KeepsBound(step: Stepper, bound: real)
    requires StepperOk(step)
  {
    forall cells: seq<real>, st: State, t: nat :: |cells| == Size && AllAtMost(cells, bound) ==>
      AllAtMost(step(cells, st, t).cells, bound)
  }

  /** The learner's step keeps every entry at most `QBound(gamma)`. */
  lemma StepBounded(cfg: Config, sim: Sim, rng: Rng, e: nat, rates: Rates)
    requires ConfigOk(cfg) && RngOk(rng)
    requires 0.0 <= rates.alpha <= 1.0 && 0.0 <= cfg.gamma < 1.0
    ensures KeepsBound(StepOf(cfg, sim, rng, e, rates), QBound(cfg.gamma))
  {
    forall cells: seq<real>, st: State, t: nat | |cells| == Size && AllAtMost(cells, QBound(cfg.gamma))
      ensures AllAtMost(StepFrom(cfg, sim, rng, e, rates, cells, st, t).cells, QBound(cfg.gamma))
    {
      StepFromBounded(cfg, sim, rng, e, rates, cells, st, t);
    }
  }

  lemma StepFromBounded(cfg: Config, sim: Sim, rng: Rng, e: nat, rates: Rates, cells: seq<real>, st: State, t: nat)
    requires ConfigOk(cfg) && RngOk(rng) && |cells| == Size
    requires 0.0 <= rates.alpha <= 1.0 && 0.0 <= cfg.gamma < 1.0
    requires AllAtMost(cells, QBound(cfg.gamma))
    ensures AllAtMost(StepFrom(cfg, sim, rng, e, rates, cells, st, t).cells, QBound(cfg.gamma))
  {
    var s := Discretize(st, cfg.bins);
    var a := Choose(rng, e, t, rates.epsilon, cells, s);
    var next := Euler(st, sim.physics(sim.params, st, Actions[a]), sim.dt);
    QBoundDiscounted(cfg.gamma);
    QUpdateBounded(cells, s, a, Reward(next), Discretize(next, cfg.bins), rates.alpha, cfg.gamma, QBound(cfg.gamma));
  }

  /** An episode keeps every bound its step keeps. */
  lemma {:induction false} RunBounded(step: Stepper, pi: real, bound: real, cells: seq<real>, st: State, t: nat, trace: seq<State>)
    requires StepperOk(step) && KeepsBound(step, bound)
    requires |cells| == Size && AllAtMost(cells, bound)
    ensures AllAtMost(Run(step, pi, cells, st, t, trace).cells, bound)
    decreases MaxSteps - t
  {
    if t < MaxSteps {
      var tr := step(cells, st, t);
      if !OutOfBounds(tr.next, pi) {
        RunBounded(step, pi, bound, tr.cells, tr.next, t + 1, trace + [tr.next]);
      }
    }
  }

  /** An episode with a learning rate at most one and a discount below one
      keeps every entry at most `QBound(gamma)`. */
  lemma EpisodeBounded(cfg: Config, sim: Sim, rng: Rng, e: nat, rates: Rates, cells: seq<real>, st: State)
    requires ConfigOk(cfg) && RngOk(rng) && |cells| == Size
    requires 0.0 <= rates.alpha <= 1.0 && 0.0 <= cfg.gamma < 1.0
    requires AllAtMost(cells, QBound(cfg.gamma))
    ensures AllAtMost(Episode(cfg, sim, rng, e, rates, cells, st).cells, QBound(cfg.gamma))
  {
    StepBounded(cfg, sim, rng, e, rates);
    RunBounded(StepOf(cfg, sim, rng, e, rates), cfg.pi, QBound(cfg.gamma), cells, st, 0, []);
  }

  // ---------------------------------------------------------------------
  // The whole run

  datatype Trained = Trained(cells: seq<real>, state: State)

  /** Episodes `e` to `cfg.episodes - 1`, each starting from the reset state
      with the rates of its index. */
  function Training(cfg: Config, sim: Sim, rng: Rng, cells: seq<real>, st: State, e: nat): (out: Trained)
    requires ConfigOk(cfg) && RngOk(rng) && |cells| == Size
    ensures |out.cells| == Size
    decreases cfg.episodes - e
  {
    if e >= cfg.episodes then Trained(cells, st)
    else
      var out := Episode(cfg, sim, rng, e, RatesAt(cfg, e), cells, ResetState);
      Training(cfg, sim, rng, out.cells, out.state, e + 1)
  }

  /** With a discount below one and learning rates at most one, training
      keeps every entry at most `QBound(gamma)`. */
  lemma {:induction false} TrainingBounded(cfg: Config, sim: Sim, rng: Rng, cells: seq<real>, st: State, e: nat)
    requires ConfigOk(cfg) && RngOk(rng) && |cells| == Size && RatesOk(cfg)
    requires AllAtMost(cells, QBound(cfg.gamma))
    ensures AllAtMost(Training(cfg, sim, rng, cells, st, e).cells, QBound(cfg.gamma))
    decreases cfg.episodes - e
  {
    if e < cfg.episodes {
      var rates := RatesAt(cfg, e);
      EpisodeBounded(cfg, sim, rng, e, rates, cells, ResetState);
      var out := Episode(cfg, sim, rng, e, rates, cells, ResetState);
      TrainingBounded(cfg, sim, rng, out.cells, out.state, e + 1);
      assert Training(cfg, sim, rng, cells, st, e) == Training(cfg, sim, rng, out.cells, out.state, e + 1);
    }
  }

  /** One step of the inner loop, on the simulator and the table in place:
      read the state, choose the action, step the simulator with its force,
      and update the table with the reward of the state reached. */
  method LearnStep(cfg: Config, sim: InvertedPendulum, q: QTable, physics: Physics, rng: Rng, e: nat, rates: Rates, t: nat)
    returns (next: State)
    requires ConfigOk(cfg) && RngOk(rng) && q.Valid()
    modifies sim, q.data
    ensures Transition(q.data[..], sim.state)
         == StepOf(cfg, Sim(physics, sim.Constants(), sim.dt), rng, e, rates)(old(q.data[..]), old(sim.state), t)
    ensures next == sim.state
  {
    var state := sim.GetState();
    var s := Discretize(state, cfg.bins);
    var a := ChooseAction(q, rng, e, t, rates.epsilon, s);
    var u := Actions[a];
    next := sim.Step(u, physics);
    var ns := Discretize(next, cfg.bins);
    var r := Reward(next);
    q.Update(s, a, r, ns, rates.alpha, cfg.gamma);
  }

  /** The epsilon-greedy choice on the table in place. Changes nothing. */
  method ChooseAction(q: QTable, rng: Rng, e: nat, t: nat, epsilon: real, s: Key) returns (a: nat)
    requires RngOk(rng) && q.Valid() && InGrid(s)
    ensures a == Choose(rng, e, t, epsilon, q.data[..], s)
  {
    if rng.random(e, t) < epsilon {
      a := rng.randint(e, t);
    } else {
      a := q.Greedy(s);
      var row := RowOf(q.data[..], s);
      FirstMaxUnique(row, a, ArgMax(row));
    }
  }

  /** One episode's inner loop, on the simulator and the table in place. */
  method RunEpisode(cfg: Config, sim: InvertedPendulum, q: QTable, physics: Physics, rng: Rng, e: nat, rates: Rates)
    returns (steps: nat)
    requires ConfigOk(cfg) && RngOk(rng) && q.Valid()
    modifies sim, q.data
    ensures var out := Episode(cfg, Sim(physics, sim.Constants(), sim.dt), rng, e, rates, old(q.data[..]), old(sim.state));
            q.data[..] == out.cells && sim.state == out.state && steps == |out.trace|
  {
    ghost var step := StepOf(cfg, Sim(physics, sim.Constants(), sim.dt), rng, e, rates);
    ghost var trace: seq<State> := [];
    steps := 0;
    for t := 0 to MaxSteps
      invariant steps == t == |trace|
      invariant Run(step, cfg.pi, q.data[..], sim.state, t, trace) == Run(step, cfg.pi, old(q.data[..]), old(sim.state), 0, [])
    {
      ghost var before, state := q.data[..], sim.state;
      var next := LearnStep(cfg, sim, q, physics, rng, e, rates, t);
      RunUnfold(step, cfg.pi, before, state, t, trace);
      trace := trace + [next];
      steps := steps + 1;
      if OutOfBounds(next, cfg.pi) {
        break;
      }
    }
  }

  /** The training loop: every episode resets the simulator, sets its rates
      and runs its inner loop. */
  method Train(cfg: Config, sim: InvertedPendulum, q: QTable, physics: Physics, rng: Rng)
    requires ConfigOk(cfg) && RngOk(rng) && q.Valid()
    modifies sim, q.data
    ensures var out := Training(cfg, Sim(physics, sim.Constants(), sim.dt), rng, old(q.data[..]), old(sim.state), 0);
            q.data[..] == out.cells && sim.state == out.state
  {
    ghost var env := Sim(physics, sim.Constants(), sim.dt);
    for episode := 0 to cfg.episodes
      invariant Training(cfg, env, rng, q.data[..], sim.state, episode)
             == Training(cfg, env, rng, old(q.data[..]), old(sim.state), 0)
    {
      var _ := sim.Reset(Some(ResetState));
      var epsilon := Anneal(cfg.epsilonMax, EpsilonFloor, episode, cfg.episodes);
      var alpha := Anneal(cfg.alphaMax, AlphaFloor, episode, cfg.episodes);
      var _ := RunEpisode(cfg, sim, q, physics, rng, episode, Rates(epsilon, alpha));
    }
  }

  /** The whole program up to the table file: a zero table and a simulator
      with the default constants, training, then the export records. */
  method TrainAndExport(cfg: Config, physics: Physics, rng: Rng) returns (records: seq<Record>)
    requires ConfigOk(cfg) && RngOk(rng)
    ensures var trained := Training(cfg, Sim(physics, Params(0.2, 0.5, 0.3, 0.1, 9.81), 0.01), rng, seq(Size, _ => 0.0), Zero, 0);
      && |records| == CellCount
      && forall j :: 0 <= j < |records| ==>
           InGrid(records[j].index) && Rank(records[j].index) == j &&
           records[j].values == RowOf(trained.cells, records[j].index)
    ensures RatesOk(cfg) ==>
      forall j, a :: 0 <= j < |records| && 0 <= a < |records[j].values| ==> records[j].values[a] <= QBound(cfg.gamma)
  {
    var q := new QTable();
    var sim := new InvertedPendulum();
    ghost var zeros := q.data[..];
    assert zeros == seq(Size, _ => 0.0);
    Train(cfg, sim, q, physics, rng);
    if RatesOk(cfg) {
      assert AllAtMost(zeros, QBound(cfg.gamma));
      TrainingBounded(cfg, Sim(physics, sim.Constants(), sim.dt), rng, zeros, Zero, 0);
    }
    records := q.Export();
  }

  /** The policy: the first action of maximal value in the state's cell, and
      its force. Changes nothing. */
  method GreedyForce(cfg: Config, q: QTable, st: State) returns (a: nat, u: real)
    requires ConfigOk(cfg) && q.Valid()
    ensures a < NA && u == Actions[a]
    ensures var s := Discretize(st, cfg.bins);
      forall b :: 0 <= b < NA ==> q.data[Offset(s, b)] <= q.data[Offset(s, a)] && (b < a ==> q.data[Offset(s, b)] < q.data[Offset(s, a)])
  {
    var s := Discretize(st, cfg.bins);
    a := q.Greedy(s);
    u := Actions[a];
  }
}
