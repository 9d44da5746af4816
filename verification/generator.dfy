/**
 The base signal generator of pwave: a pull-based iterator over samples.
 A sample's value is a model function evaluated at the iteration index,
 shifted by an additive modifier; a pluggable noise source perturbs it.
 The generator is a two-state machine (running / done) driven by its
 increment operator, and stops once the iteration budget is reached.
 */
module Generator {

  /** Simulated time added to the timestamp by each step. */
  const DEFAULT_TIME_WINDOW: real := 1.0
  /** Timestamp of the first sample. */
  const DEFAULT_START_TIMESTAMP: real := 34223425.0

  /** The identity model function (math::linearFunction). */
  function LinearFunction(x: real): (r: real)
    ensures r == x
  {
    x
  }

  /** One observation. */
  datatype Sample = Sample(value: real, noise: real, timestamp: real)
  {
    /** operator(): the sample with its noise. */
    function Observed(): (r: real)
      ensures r == Clean() + noise
    {
      value + noise
    }

    /** clearValue(): the sample without its noise. */
    function Clean(): (r: real)
      ensures r == value
    {
      value
    }
  }

  /** The two accessors differ exactly by the sample's noise. */
  lemma ObservedIsCleanPlusNoise(s: Sample)
    ensures s.Observed() == s.Clean() + s.noise
    ensures s.noise == 0.0 ==> s.Observed() == s.Clean()
  {
  }

  /**
   Everything the increment operator reads or writes, as a value: the
   current model function and noise source, the iteration counter and its
   budget, the terminal flag, the additive modifier and the current sample.
   */
  datatype GenState = GenState(
    model: real -> real,
    noise: int -> real,
    iteration: int,
    iterations: int,
    done: bool,
    modifier: real,
    sample: Sample)

  /** The state right after construction, starting at iteration `start`. */
  function Init(model: real -> real, noise: int -> real, start: int, iterations: int): (g: GenState)
    ensures g.iteration == start && g.iterations == iterations && !g.done && g.modifier == 0.0
    ensures g.model == model && g.noise == noise
    ensures g.sample.Clean() == model(start as real) && g.sample.Observed() == g.sample.Clean()
    ensures g.sample.timestamp == DEFAULT_START_TIMESTAMP
  {
    GenState(model, noise, start, iterations, false, 0.0,
             Sample(model(start as real), 0.0, DEFAULT_START_TIMESTAMP))
  }

  /**
   operator++: a no-op once done; otherwise the counter moves on and either
   the budget is exhausted (done, sample kept) or a new sample is computed.
   */
  function Advance(g: GenState): (r: GenState)
    ensures r.model == g.model && r.noise == g.noise
    ensures r.iterations == g.iterations && r.modifier == g.modifier
    ensures g.done ==> r.done
  {
    if g.done then g
    else
      var k := g.iteration + 1;
      if k >= g.iterations then g.(iteration := k, done := true)
      else g.(iteration := k,
              sample := Sample(g.modifier + g.model(k as real), g.noise(k),
                               g.sample.timestamp + DEFAULT_TIME_WINDOW))
  }

  /** The state after `k` increments. */
  function Run(g: GenState, k: nat): GenState
  {
    if k == 0 then g else Advance(Run(g, k - 1))
  }

  /** Running `a` then `b` increments is running `a + b` increments. */
  lemma {:induction false} RunSplits(g: GenState, a: nat, b: nat)
    ensures Run(g, a + b) == Run(Run(g, a), b)
  {
    if b > 0 {
      RunSplits(g, a, b - 1);
    }
  }

  /** The terminal state absorbs any number of further increments. */
  lemma {:induction false} DoneIsAbsorbing(g: GenState, k: nat)
    requires g.done
    ensures Run(g, k) == g
  {
    if k > 0 {
      DoneIsAbsorbing(g, k - 1);
    }
  }

  /**
   While the budget is not reached, `k` increments from construction give
   iteration `start + k`, a running generator, the timestamp advanced by
   `k` time windows, and the model and noise evaluated at that iteration.
   */
  lemma {:induction false} RunBelowBudget(model: real -> real, noise: int -> real, start: int, iterations: int, k: nat)
    requires start + k < iterations
    ensures var g := Run(Init(model, noise, start, iterations), k);
      && g.iteration == start + k
      && g.iterations == iterations && g.model == model && g.noise == noise
      && !g.done
      && g.modifier == 0.0
      && g.sample.timestamp == DEFAULT_START_TIMESTAMP + k as real * DEFAULT_TIME_WINDOW
      && (k == 0 ==> g.sample == Sample(model(start as real), 0.0, DEFAULT_START_TIMESTAMP))
      && (k > 0 ==> g.sample.value == model((start + k) as real) && g.sample.noise == noise(start + k))
  {
    if k > 0 {
      RunBelowBudget(model, noise, start, iterations, k - 1);
      var prev := Run(Init(model, noise, start, iterations), k - 1);
      assert Run(Init(model, noise, start, iterations), k) == Advance(prev);
      assert prev.iteration + 1 == start + k < iterations;
    }
  }

  /**
   From a start below the budget, exactly `iterations - start` increments
   reach the terminal state (from start 0: exactly `iterations`); the
   generator is running (End(), which is !done, is true) before that, the last computed
   sample stays the current one, and further increments change nothing.
   */
  lemma BudgetIsExact(model: real -> real, noise: int -> real, start: int, iterations: int)
    requires start < iterations
    ensures forall k: nat :: start + k < iterations ==> !Run(Init(model, noise, start, iterations), k).done
    ensures var n := iterations - start;
      var last := Run(Init(model, noise, start, iterations), n - 1);
      var fin := Run(Init(model, noise, start, iterations), n);
      && fin.done
      && fin.iteration == iterations
      && fin.sample == last.sample
      && forall k: nat :: k >= n ==> Run(Init(model, noise, start, iterations), k) == fin
  {
    var g0 := Init(model, noise, start, iterations);
    var n := iterations - start;
    forall k: nat | start + k < iterations
      ensures !Run(g0, k).done
    {
      RunBelowBudget(model, noise, start, iterations, k);
    }
    RunBelowBudget(model, noise, start, iterations, n - 1);
    var last := Run(g0, n - 1);
    var fin := Run(g0, n);
    assert fin == Advance(last);
    assert last.iteration + 1 == iterations;
    forall k: nat | k >= n
      ensures Run(g0, k) == fin
    {
      RunSplits(g0, n, k - n);
      DoneIsAbsorbing(fin, k - n);
    }
  }

  /** A generator constructed at or past its budget is done after one increment. */
  lemma StartPastBudget(model: real -> real, noise: int -> real, start: int, iterations: int)
    requires start >= iterations
    ensures var g := Advance(Init(model, noise, start, iterations));
      g.done && g.iteration == start + 1 && g.sample == Init(model, noise, start, iterations).sample
  {
  }

  /**
   SignalGenerator: the fields the increment operator updates in place.
   The model function and noise source are plain function values so that a
   scenario can swap them.
   */
  class SignalGenerator {
    var model: real -> real
    var noise: int -> real
    var iteration: int
    const iterations: int
    var done: bool
    var modifier: real
    var sample: Sample

    /** The generator's fields as a value. */
    function State(): GenState
      reads this
    {
      GenState(model, noise, iteration, iterations, done, modifier, sample)
    }

    /** Three-argument form: starts at iteration 0. */
    constructor (model: real -> real, noise: int -> real, iterations: int)
      ensures State() == Init(model, noise, 0, iterations)
      ensures iteration == 0 && !done && modifier == 0.0
      ensures sample == Sample(model(0.0), 0.0, DEFAULT_START_TIMESTAMP)
    {
      this.model := model;
      this.noise := noise;
      this.iteration := 0;
      this.iterations := iterations;
      this.done := false;
      this.modifier := 0.0;
      this.sample := Sample(model(0.0), 0.0, DEFAULT_START_TIMESTAMP);
    }

    /** Four-argument form: starts at iteration `start`. */
    constructor StartingAt(model: real -> real, noise: int -> real, start: int, iterations: int)
      ensures State() == Init(model, noise, start, iterations)
      ensures iteration == start && !done && modifier == 0.0
      ensures sample == Sample(model(start as real), 0.0, DEFAULT_START_TIMESTAMP)
    {
      this.model := model;
      this.noise := noise;
      this.iteration := start;
      this.iterations := iterations;
      this.done := false;
      this.modifier := 0.0;
      this.sample := Sample(model(start as real), 0.0, DEFAULT_START_TIMESTAMP);
    }

    /** end(): true while the generator is still running. */
    function End(): (running: bool)
      reads this
      ensures running <==> !State().done
    {
      !done
    }

    /** operator* / operator->: the current sample. */
    function Current(): (s: Sample)
      reads this
      ensures s == State().sample
    {
      sample
    }

    /** Prefix operator++. */
    method Increment()
      modifies this
      ensures State() == Advance(old(State()))
      ensures old(done) ==> unchanged(this)
      ensures !old(done) ==> iteration == old(iteration) + 1
      ensures !old(done) && iteration >= iterations ==> done && sample == old(sample)
      ensures !old(done) && iteration < iterations ==>
        && !done
        && sample == Sample(old(modifier) + model(iteration as real), noise(iteration),
                            old(sample.timestamp) + DEFAULT_TIME_WINDOW)
      ensures model == old(model) && noise == old(noise) && modifier == old(modifier)
    {
      if done {
        return;
      }
      iteration := iteration + 1;
      if iteration >= iterations {
        done := true;
        return;
      }
      sample := sample.(value := modifier + model(iteration as real));
      sample := sample.(timestamp := sample.timestamp + DEFAULT_TIME_WINDOW);
      sample := sample.(noise := noise(iteration));
    }

    /** Postfix operator++: returns a copy of the state before the increment. */
    method PostIncrement() returns (prev: GenState)
      modifies this
      ensures prev == old(State())
      ensures State() == Advance(prev)
    {
      prev := State();
      Increment();
    }
  }
}
