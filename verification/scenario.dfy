/**
 The scenario layer of pwave: a signal generator plus a schedule of
 modifiers keyed by iteration. A fluent configuration surface fills three
 maps (model replacements, noise replacements, additive offsets) at a
 checkpoint cursor; at run time each increment first applies the entries
 keyed by the current, not yet incremented, iteration and then runs the
 base generator's step. The first read of the current sample lazily
 applies the entries for the current iteration and recomputes the sample.
 */
module Scenario {
  import opened Generator

  /** The three modifier maps, keyed by iteration. */
  datatype Schedule = Schedule(
    models: map<nat, real -> real>,
    noises: map<nat, int -> real>,
    offsets: map<nat, real>)

  /** A scenario as a value: its schedule, the checkpoint cursor, the lazy-read flag and the generator. */
  datatype ScenarioState = ScenarioState(
    plan: Schedule,
    cursor: nat,
    firstIter: bool,
    gen: GenState)

  /** The empty schedule. */
  function NoModifiers(): Schedule
  {
    Schedule(map[], map[], map[])
  }

  /** The model function in effect after the entries keyed `k` are applied over `current`. */
  function ModelAt(plan: Schedule, k: int, current: real -> real): real -> real
  {
    if k >= 0 && k in plan.models then plan.models[k] else current
  }

  /** The noise source in effect after the entries keyed `k` are applied. */
  function NoiseAt(plan: Schedule, k: int, current: int -> real): int -> real
  {
    if k >= 0 && k in plan.noises then plan.noises[k] else current
  }

  /** The offset keyed `k`, or 0 when there is none. */
  function OffsetAt(plan: Schedule, k: int): real
  {
    if k >= 0 && k in plan.offsets then plan.offsets[k] else 0.0
  }

  /**
   applyModifiers: look up the generator's current iteration in the three
   maps; swap the model and the noise source when an entry exists and add
   the offset into the running modifier. Nothing else changes.
   */
  function ApplySchedule(plan: Schedule, g: GenState): (r: GenState)
    ensures r.iteration == g.iteration && r.iterations == g.iterations
    ensures r.done == g.done && r.sample == g.sample
  {
    var k := g.iteration;
    g.(model := ModelAt(plan, k, g.model),
       noise := NoiseAt(plan, k, g.noise),
       modifier := g.modifier + OffsetAt(plan, k))
  }

  /** operator++ of the scenario: apply the entries for the current iteration, then the base step. */
  function Step(sc: ScenarioState): (r: ScenarioState)
    ensures r.plan == sc.plan && r.cursor == sc.cursor && r.firstIter == sc.firstIter
  {
    sc.(gen := Advance(ApplySchedule(sc.plan, sc.gen)))
  }

  /**
   operator* / operator->: on the first read, apply the entries for the
   current iteration and recompute the sample from the model alone (no
   modifier, no noise, the start timestamp); later reads change nothing.
   */
  function Prime(sc: ScenarioState): (r: ScenarioState)
    ensures r.plan == sc.plan && r.cursor == sc.cursor && !r.firstIter
  {
    if sc.firstIter then
      var g := ApplySchedule(sc.plan, sc.gen);
      sc.(firstIter := false,
          gen := g.(sample := Sample(g.model(g.iteration as real), 0.0, DEFAULT_START_TIMESTAMP)))
    else sc
  }

  /** The scenario after `k` increments. */
  function Trace(sc: ScenarioState, k: nat): ScenarioState
  {
    if k == 0 then sc else Step(Trace(sc, k - 1))
  }

  /**
   One increment uses the entries keyed by the iteration it starts from:
   the new sample, computed for iteration `k + 1`, takes the model, the
   noise source and the offset scheduled at `k`.
   */
  lemma StepUsesPreIncrementEntries(sc: ScenarioState)
    requires !sc.gen.done && sc.gen.iteration + 1 < sc.gen.iterations
    ensures var k := sc.gen.iteration;
      var r := Step(sc).gen;
      && r.iteration == k + 1
      && !r.done
      && r.modifier == sc.gen.modifier + OffsetAt(sc.plan, k)
      && r.sample.value == r.modifier + ModelAt(sc.plan, k, sc.gen.model)((k + 1) as real)
      && r.sample.noise == NoiseAt(sc.plan, k, sc.gen.noise)(k + 1)
      && r.sample.timestamp == sc.gen.sample.timestamp + DEFAULT_TIME_WINDOW
  {
  }

  /** The lazy first read happens once: a second read returns the same state. */
  lemma PrimeIsIdempotent(sc: ScenarioState)
    ensures Prime(Prime(sc)) == Prime(sc)
    ensures !sc.firstIter ==> Prime(sc) == sc
  {
  }

  /**
   The first read applies the entries keyed by the current iteration and
   the first increment applies them again, so an offset keyed 0 is added
   twice when the sample is read before the first increment.
   */
  lemma FirstReadThenIncrementAppliesKeyTwice(sc: ScenarioState)
    requires sc.firstIter && sc.gen.iteration == 0 && !sc.gen.done
    ensures Step(Prime(sc)).gen.modifier == sc.gen.modifier + 2.0 * OffsetAt(sc.plan, 0)
    ensures Step(sc).gen.modifier == sc.gen.modifier + OffsetAt(sc.plan, 0)
  {
  }

  /** Increments never touch the schedule, the cursor or the lazy-read flag. */
  lemma {:induction false} TraceKeepsConfiguration(sc: ScenarioState, k: nat)
    ensures Trace(sc, k).plan == sc.plan
    ensures Trace(sc, k).cursor == sc.cursor
    ensures Trace(sc, k).firstIter == sc.firstIter
  {
    if k > 0 {
      TraceKeepsConfiguration(sc, k - 1);
    }
  }

  /**
   Once the base generator is done, increments leave the iteration and the
   sample alone, but the offset keyed at the terminal iteration is still
   added to the modifier on every increment.
   */
  lemma {:induction false} TraceAfterDone(sc: ScenarioState, k: nat)
    requires sc.gen.done
    ensures var r := Trace(sc, k).gen;
      && r.done
      && r.iteration == sc.gen.iteration
      && r.iterations == sc.gen.iterations
      && r.sample == sc.gen.sample
      && r.modifier == sc.gen.modifier + k as real * OffsetAt(sc.plan, sc.gen.iteration)
  {
    if k > 0 {
      TraceAfterDone(sc, k - 1);
      TraceKeepsConfiguration(sc, k - 1);
      var v := OffsetAt(sc.plan, sc.gen.iteration);
      assert (k - 1) as real * v + v == k as real * v;
    }
  }

  /**
   The value in effect after the entries of `m` keyed `from`, `from + 1`,
   ..., `from + count - 1` are applied in order over `current`: each entry
   replaces the value, a missing key keeps it.
   */
  function LatestEntry<V>(m: map<nat, V>, from: nat, count: nat, current: V): V
  {
    if count == 0 then current
    else
      var k := from + count - 1;
      if k in m then m[k] else LatestEntry(m, from, count - 1, current)
  }

  /** The sum of the offsets keyed `from`, ..., `from + count - 1`. */
  function OffsetSum(offsets: map<nat, real>, from: nat, count: nat): real
  {
    if count == 0 then 0.0
    else
      var k := from + count - 1;
      OffsetSum(offsets, from, count - 1) + (if k in offsets then offsets[k] else 0.0)
  }

  /** With no entry keyed in the range, the starting value stays in effect. */
  lemma {:induction false} LatestEntryWithoutKeys<V>(m: map<nat, V>, from: nat, count: nat, current: V)
    requires forall k :: from <= k < from + count ==> k !in m
    ensures LatestEntry(m, from, count, current) == current
  {
    if count > 0 {
      LatestEntryWithoutKeys(m, from, count - 1, current);
    }
  }

  /** The entry at the highest key in the range is the one in effect. */
  lemma {:induction false} LatestEntryIsLastKey<V>(m: map<nat, V>, from: nat, count: nat, current: V, key: nat)
    requires from <= key < from + count && key in m
    requires forall k :: key < k < from + count ==> k !in m
    ensures LatestEntry(m, from, count, current) == m[key]
  {
    if from + count - 1 != key {
      LatestEntryIsLastKey(m, from, count - 1, current, key);
    }
  }

  /**
   While the generator runs, `j` increments from iteration `i0` apply the
   entries keyed `i0`, ..., `i0 + j - 1`: a model or noise entry stays in
   effect until a later key replaces it, every offset is accumulated, and
   each new sample is computed from the running modifier, model and noise.
   */
  lemma {:induction false} TraceWhileRunning(sc: ScenarioState, j: nat)
    requires !sc.gen.done && sc.gen.iteration >= 0
    requires sc.gen.iteration + j < sc.gen.iterations
    ensures var i0: nat := sc.gen.iteration;
      var r := Trace(sc, j).gen;
      && r.iteration == i0 + j
      && r.iterations == sc.gen.iterations
      && !r.done
      && r.model == LatestEntry(sc.plan.models, i0, j, sc.gen.model)
      && r.noise == LatestEntry(sc.plan.noises, i0, j, sc.gen.noise)
      && r.modifier == sc.gen.modifier + OffsetSum(sc.plan.offsets, i0, j)
      && r.sample.timestamp == sc.gen.sample.timestamp + j as real * DEFAULT_TIME_WINDOW
      && (j == 0 ==> r.sample == sc.gen.sample)
      && (j > 0 ==> r.sample.value == r.modifier + r.model((i0 + j) as real)
                    && r.sample.noise == r.noise(i0 + j))
  {
    if j > 0 {
      TraceWhileRunning(sc, j - 1);
      TraceKeepsConfiguration(sc, j - 1);
    }
  }

  /**
   The first read followed by `j` increments. The read applies the entries
   keyed `i0` but computes sample `i0` from the model alone, with noise 0,
   without the modifier and at the start timestamp. The first increment
   applies the entries keyed `i0` again and each later increment its own
   key once, so from `j >= 1` an offset keyed `i0` is counted twice.
   */
  lemma ReadThenTrace(sc: ScenarioState, j: nat)
    requires sc.firstIter && !sc.gen.done && sc.gen.iteration >= 0
    requires sc.gen.iteration + j < sc.gen.iterations
    ensures var i0: nat := sc.gen.iteration;
      var r := Trace(Prime(sc), j).gen;
      && r.iteration == i0 + j
      && !r.done
      && r.model == LatestEntry(sc.plan.models, i0, j, ModelAt(sc.plan, i0, sc.gen.model))
      && r.noise == LatestEntry(sc.plan.noises, i0, j, NoiseAt(sc.plan, i0, sc.gen.noise))
      && r.modifier == sc.gen.modifier + OffsetAt(sc.plan, i0) + OffsetSum(sc.plan.offsets, i0, j)
      && r.sample.timestamp == DEFAULT_START_TIMESTAMP + j as real * DEFAULT_TIME_WINDOW
      && (j == 0 ==> r.sample == Sample(ModelAt(sc.plan, i0, sc.gen.model)(i0 as real), 0.0, DEFAULT_START_TIMESTAMP))
      && (j > 0 ==> r.sample.value == r.modifier + r.model((i0 + j) as real) && r.sample.noise == r.noise(i0 + j))
  {
    TraceWhileRunning(Prime(sc), j);
  }

  /**
   A running scenario at iteration `i0` is done after exactly
   `iterations - i0` increments (from iteration 0: exactly `iterations`),
   keeps the last computed sample, and stays done with that sample.
   */
  lemma ScenarioBudgetIsExact(sc: ScenarioState)
    requires !sc.gen.done && 0 <= sc.gen.iteration < sc.gen.iterations
    ensures forall j: nat :: sc.gen.iteration + j < sc.gen.iterations ==> !Trace(sc, j).gen.done
    ensures var n := sc.gen.iterations - sc.gen.iteration;
      var last := Trace(sc, n - 1).gen;
      var fin := Trace(sc, n).gen;
      && fin.done
      && fin.iteration == sc.gen.iterations
      && fin.sample == last.sample
      && forall k: nat :: Trace(Trace(sc, n), k).gen.sample == fin.sample
  {
    forall j: nat | sc.gen.iteration + j < sc.gen.iterations
      ensures !Trace(sc, j).gen.done
    {
      TraceWhileRunning(sc, j);
    }
    var n := sc.gen.iterations - sc.gen.iteration;
    TraceWhileRunning(sc, n - 1);
    TraceKeepsConfiguration(sc, n - 1);
    var fin := Trace(sc, n);
    forall k: nat
      ensures Trace(fin, k).gen.sample == fin.gen.sample
    {
      TraceAfterDone(fin, k);
    }
  }

  /**
   SignalScenario: a generator composed with its schedule. The fluent
   setters change the cursor and the maps; increments and reads change only
   the generator (and the lazy-read flag).
   */
  class SignalScenario {
    const gen: SignalGenerator
    var firstIter: bool
    var prepareIteration: nat
    var modelModifiers: map<nat, real -> real>
    var noiseModifiers: map<nat, int -> real>
    var signalModifiers: map<nat, real>

    /** The three maps as a schedule. */
    function Plan(): Schedule
      reads this
    {
      Schedule(modelModifiers, noiseModifiers, signalModifiers)
    }

    /** The scenario's fields and its generator's as a value. */
    function State(): ScenarioState
      reads this, gen
    {
      ScenarioState(Plan(), prepareIteration, firstIter, gen.State())
    }

    /** A scenario over `iterations` steps from iteration 0, with an initial model and noise source. */
    constructor (model: real -> real, noise: int -> real, iterations: nat)
      ensures fresh(gen)
      ensures State() == ScenarioState(NoModifiers(), 0, true, Init(model, noise, 0, iterations))
    {
      gen := new SignalGenerator(model, noise, iterations);
      firstIter := true;
      prepareIteration := 0;
      modelModifiers := map[];
      noiseModifiers := map[];
      signalModifiers := map[];
    }

    /** after(n): move the checkpoint cursor `n` iterations on. */
    method After(n: nat)
      modifies this
      ensures prepareIteration == old(prepareIteration) + n
      ensures State() == old(State()).(cursor := prepareIteration)
    {
      prepareIteration := prepareIteration + n;
    }

    /** addAt(k, v): schedule offset `v` at iteration `k`, replacing any earlier offset there. */
    method AddAt(k: nat, v: real)
      modifies this
      ensures signalModifiers == old(signalModifiers)[k := v]
      ensures State() == old(State()).(plan := old(Plan()).(offsets := signalModifiers))
    {
      signalModifiers := signalModifiers[k := v];
    }

    /** add(v): addAt at the cursor. */
    method Add(v: real)
      modifies this
      ensures signalModifiers == old(signalModifiers)[prepareIteration := v]
      ensures State() == old(State()).(plan := old(Plan()).(offsets := signalModifiers))
    {
      AddAt(prepareIteration, v);
    }

    /** useAt(k, model): schedule a model replacement at iteration `k`, replacing any earlier one there. */
    method UseModelAt(k: nat, model: real -> real)
      modifies this
      ensures modelModifiers == old(modelModifiers)[k := model]
      ensures State() == old(State()).(plan := old(Plan()).(models := modelModifiers))
    {
      modelModifiers := modelModifiers[k := model];
    }

    /** use(model): useAt at the cursor. */
    method UseModel(model: real -> real)
      modifies this
      ensures modelModifiers == old(modelModifiers)[prepareIteration := model]
      ensures State() == old(State()).(plan := old(Plan()).(models := modelModifiers))
    {
      UseModelAt(prepareIteration, model);
    }

    /** useAt(k, noise): schedule a noise-source replacement at iteration `k`, replacing any earlier one there. */
    method UseNoiseAt(k: nat, noise: int -> real)
      modifies this
      ensures noiseModifiers == old(noiseModifiers)[k := noise]
      ensures State() == old(State()).(plan := old(Plan()).(noises := noiseModifiers))
    {
      noiseModifiers := noiseModifiers[k := noise];
    }

    /** use(noise): useAt at the cursor. */
    method UseNoise(noise: int -> real)
      modifies this
      ensures noiseModifiers == old(noiseModifiers)[prepareIteration := noise]
      ensures State() == old(State()).(plan := old(Plan()).(noises := noiseModifiers))
    {
      UseNoiseAt(prepareIteration, noise);
    }

    /** applyModifiers: swap model and noise source and accumulate the offset keyed by the current iteration. */
    method ApplyModifiers()
      modifies gen
      ensures gen.State() == ApplySchedule(Plan(), old(gen.State()))
      ensures gen.model == (if gen.iteration in modelModifiers then modelModifiers[gen.iteration] else old(gen.model))
      ensures gen.noise == (if gen.iteration in noiseModifiers then noiseModifiers[gen.iteration] else old(gen.noise))
      ensures gen.modifier == old(gen.modifier) +
        (if gen.iteration in signalModifiers then signalModifiers[gen.iteration] else 0.0)
      ensures gen.iteration == old(gen.iteration) && gen.done == old(gen.done) && gen.sample == old(gen.sample)
    {
      var k := gen.iteration;
      if k >= 0 && k in modelModifiers {
        gen.model := modelModifiers[k];
      }
      if k >= 0 && k in noiseModifiers {
        gen.noise := noiseModifiers[k];
      }
      if k >= 0 && k in signalModifiers {
        gen.modifier := gen.modifier + signalModifiers[k];
      }
    }

    /** Prefix operator++: applyModifiers, then the base generator's increment. */
    method Increment()
      modifies gen
      ensures State() == Step(old(State()))
    {
      ApplyModifiers();
      gen.Increment();
    }

    /** Postfix operator++: returns a copy of the scenario before the increment. */
    method PostIncrement() returns (prev: ScenarioState)
      modifies gen
      ensures prev == old(State())
      ensures State() == Step(prev)
    {
      prev := State();
      Increment();
    }

    /** operator* / operator->: the current sample, computed lazily on the first read. */
    method Current() returns (s: Sample)
      modifies this, gen
      ensures State() == Prime(old(State()))
      ensures s == gen.sample
      ensures !old(firstIter) ==> unchanged(this, gen)
    {
      if firstIter {
        ApplyModifiers();
        gen.sample := Sample(gen.model(gen.iteration as real), 0.0, DEFAULT_START_TIMESTAMP);
        firstIter := false;
      }
      s := gen.sample;
    }
  }
}
