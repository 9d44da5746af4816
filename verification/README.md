# pwave signal generation core, modelled in Dafny

pwave synthesises deterministic, time-ordered sample sequences ("signals")
as synthetic load. This project models its two core components:

- `SignalGenerator` (`generator.dfy`, module `Generator`): a pull-based
  iterator and two-state machine (running / done). It holds the iteration
  counter, the iteration budget, the `done` flag, an additive `modifier`,
  the current model function, the current noise source and the current
  `SignalSample`. Its increment operator is its only transition.
- `SignalScenario` (`scenario.dfy`, module `Scenario`): a fluent
  configuration layer (`after`, `add`/`addAt`, `use`/`useAt` for models and
  for noise sources) that fills three maps keyed by iteration. At run time
  `applyModifiers` swaps the model and noise source and accumulates the
  offset for the current iteration before every base increment, and the
  first read of the sample applies them lazily.
- `example.dfy` (module `Example`) replays the schedule of
  `tests/pwave_test.cpp` and proves the load profile it produces. The
  test's scenario constructor supplies no noise source, so the example
  starts from the zero noise source (`Example.ZeroNoise`); the noise of
  samples 0-14 is 0 because of that choice.

Each component is modelled twice over, as in the source's own form and as
a value. The classes `SignalGenerator` and `SignalScenario` hold the fields
the C++ code updates in place, and their methods change them step by step.
Each class's `State()` gives its fields as a datatype value (`GenState`,
`ScenarioState`). Every method's `ensures` ties the new state to a pure
function of the old one: `Advance` for the generator's `operator++`,
`Step` for the scenario's `operator++`, `Prime` for the lazy first read and
`ApplySchedule` for `applyModifiers`. The lemmas about runs of these
functions (`Run`, `Trace`) state the budget, terminal-state and timing
properties.

Modelling decisions:

- The scenario wraps a generator object (`const gen`). The C++ code uses
  class inheritance for this, which Dafny does not have.
- The model function is a `real -> real` value and is called with the
  iteration converted to `real`. The noise source is an opaque
  `int -> real` value. Both can be replaced; the C++ code holds them
  through a reference, a raw pointer and `shared_ptr`s.
- The C++ code does not compile as written in generator.hpp and
  scenario.hpp. The model follows its evident intent:
  - the destructor is misnamed `~LoadGenerator`;
  - the scenario constructor calls a nonexistent one-argument generator
    constructor, so the model's scenario constructor takes the initial
    model function and noise source with the budget, and starts at 0;
  - the model function is a `const&` that is later reassigned;
  - a `shared_ptr` is assigned to a raw pointer.
- Sample values are exact `real`s and IEEE rounding is not modelled. So
  the accumulated modifier in `Scenario.TraceWhileRunning`,
  `Scenario.ReadThenTrace` and `Scenario.TraceAfterDone` is the exact sum;
  the code's step-by-step `double_t` additions match it only up to
  rounding.
- `DEFAULT_TIME_WINDOW` (1) and `DEFAULT_START_TIMESTAMP` (34223425) are
  module constants.
- Modifiers take effect with a delay of one sample. `applyModifiers` runs
  on the iteration before it is incremented (scenario.hpp:62-64,
  generator.hpp:113). So an entry keyed `k` first shows in the sample
  computed for iteration `k + 1`. Only a model entry keyed 0 shows in
  sample 0: the lazy first read computes that sample from the model alone,
  with noise 0 and without the modifier (scenario.hpp:78), so a noise
  source or offset keyed 0 first shows in sample 1.
- In the test's schedule, from sample 38 the clean value is
  `iteration - 24.05`: the offset -24.05 (scenario.hpp:115) plus the
  identity model (`Example.ExampleProfile`).
- Over any schedule, a model or noise entry stays in effect until a later
  key replaces it, and offsets accumulate into the modifier
  (`Scenario.TraceWhileRunning`).
- The lazy first read and the first increment both apply the entries keyed
  0. So an offset keyed 0 is added twice when the sample is read before the
  first increment (`Scenario.FirstReadThenIncrementAppliesKeyTwice`).
- `addAt` on an existing key overwrites the earlier value; it does not add
  to it.
- The code does not reject a budget of zero or less. The model accepts
  every budget too; such a generator is done after one increment
  (`Generator.StartPastBudget`).

## Model

| member | source | states |
|---|---|---|
| `Generator.LinearFunction` | generator.hpp:20-22 | the identity model: the result is its argument |
| `Generator.Sample.Observed` | generator.hpp:43-45 | the observed value is the clean value plus the noise |
| `Generator.Sample.Clean` | generator.hpp:48-50 | the clean value is the value, without the noise |
| `Generator.Init` | generator.hpp:90-95 | the constructed state: iteration `start`, the given budget, model and noise, running, modifier 0, sample with clean value `model(start)`, no noise and timestamp `DEFAULT_START_TIMESTAMP` |
| `Generator.ObservedIsCleanPlusNoise` | generator.hpp:43-50 | the observed value is the clean value plus the noise, and equals it when the noise is 0 |
| `Generator.Advance` | generator.hpp:110-128 | an increment never changes the model, the noise source, the budget or the modifier, and never leaves the done state |
| `Generator.DoneIsAbsorbing` | generator.hpp:111 | any number of increments on a done generator change nothing at all |
| `Generator.RunSplits` | generator.hpp:110-128 | `a` increments followed by `b` increments are `a + b` increments |
| `Generator.RunBelowBudget` | generator.hpp:110-124 | while `start + k` is below the budget, `k` increments give iteration `start + k` and a running generator; the timestamp has moved by `k` time windows; the value is `model(start + k)` and the noise is `noise(start + k)`; sample 0 is `(model(start), 0, DEFAULT_START_TIMESTAMP)` |
| `Generator.BudgetIsExact` | generator.hpp:102-118 | from a start below the budget, exactly `iterations - start` increments reach done (before that `done` is false, so `End()`, which is `!done`, is true) at iteration `iterations`; the last computed sample stays current and any further increment changes nothing |
| `Generator.StartPastBudget` | generator.hpp:113-118 | a generator constructed at or past its budget is done after one increment, keeping its first sample |
| `Generator.SignalGenerator.constructor` | generator.hpp:79-83 | the three-argument form starts at iteration 0, running, modifier 0, sample `(model(0), 0, DEFAULT_START_TIMESTAMP)` |
| `Generator.SignalGenerator.StartingAt` | generator.hpp:85-95 | the four-argument form starts at iteration `start`, running, modifier 0, sample `(model(start), 0, DEFAULT_START_TIMESTAMP)` |
| `Generator.SignalGenerator.End` | generator.hpp:102-104 | `end()` is true exactly while the generator is not done |
| `Generator.SignalGenerator.Current` | generator.hpp:106-107 | `operator*` / `operator->` give the current sample of the state |
| `Generator.SignalGenerator.Increment` | generator.hpp:110-128 | done: nothing changes; otherwise the iteration goes up by 1 and either done is set with the sample kept, or the sample becomes `(modifier + model(iteration), noise(iteration), timestamp + DEFAULT_TIME_WINDOW)`; the new state is `Advance` of the old |
| `Generator.SignalGenerator.PostIncrement` | generator.hpp:130-134 | returns the state before the increment and leaves the generator advanced once |
| `Scenario.ApplySchedule` | scenario.hpp:99-117 | applying modifiers never changes the iteration, the budget, the done flag or the sample |
| `Scenario.Step` | scenario.hpp:61-67 | a scenario increment never changes the schedule, the cursor or the lazy-read flag |
| `Scenario.Prime` | scenario.hpp:75-90 | a read never changes the schedule or the cursor, and clears the lazy-read flag |
| `Scenario.StepUsesPreIncrementEntries` | scenario.hpp:61-67 | an increment from iteration `k` computes sample `k + 1` with the model, noise source and offset scheduled at `k` (or the current ones when there is no entry) |
| `Scenario.PrimeIsIdempotent` | scenario.hpp:75-82 | the lazy initialisation happens at most once: a second read changes nothing, and a read after the first is a no-op |
| `Scenario.FirstReadThenIncrementAppliesKeyTwice` | scenario.hpp:61-82 | an offset keyed 0 is added twice when the sample is read before the first increment, and once when it is not |
| `Scenario.TraceKeepsConfiguration` | scenario.hpp:61-117 | any number of increments leave the three maps, the cursor and the lazy-read flag unchanged |
| `Scenario.TraceAfterDone` | scenario.hpp:61-67 | once the generator is done, `k` increments keep it done with the same iteration and sample, while the modifier grows by `k` times the offset keyed at the terminal iteration |
| `Scenario.LatestEntryWithoutKeys` | scenario.hpp:99-110 | with no entry keyed in the range of applied iterations, the starting model or noise source stays in effect |
| `Scenario.LatestEntryIsLastKey` | scenario.hpp:99-110 | the entry at the highest applied key is the one in effect: a replacement persists until a later key replaces it |
| `Scenario.TraceWhileRunning` | scenario.hpp:61-117 | for any schedule, `j` increments from iteration `i0` while running give iteration `i0 + j`, the latest model and noise entries keyed in `[i0, i0 + j)` (or the starting ones), the modifier plus the sum of the offsets keyed there, the timestamp moved `j` windows, and a sample computed from those |
| `Scenario.ReadThenTrace` | scenario.hpp:61-90 | after the first read and `j` increments from iteration `i0`: with `j = 0` the sample is `(model(i0), 0, DEFAULT_START_TIMESTAMP)` with the model after the entry keyed `i0`, no noise and no modifier; the entries keyed `i0` are applied by the read and again by the first increment, so from `j >= 1` an offset keyed `i0` is counted twice and later keys once, and sample `i0 + j` is the modifier plus the model at `i0 + j`, with the noise at `i0 + j`; the timestamp is `DEFAULT_START_TIMESTAMP` plus `j` windows |
| `Scenario.ScenarioBudgetIsExact` | scenario.hpp:61-67 | a running scenario at iteration `i0` is done after exactly `iterations - i0` increments (from 0: exactly `iterations`), running before that, keeping the last sample forever after |
| `Scenario.SignalScenario.constructor` | scenario.hpp:13-14 | cursor 0, lazy-read flag set, empty maps, generator as constructed from iteration 0 |
| `Scenario.SignalScenario.After` | scenario.hpp:17-21 | adds `n` to the cursor and changes nothing else |
| `Scenario.SignalScenario.AddAt` | scenario.hpp:29-33 | sets the offset at `k` to `v`, overwriting any earlier one; nothing else changes |
| `Scenario.SignalScenario.Add` | scenario.hpp:23-27 | is `AddAt` at the cursor |
| `Scenario.SignalScenario.UseModelAt` | scenario.hpp:41-46 | sets the model replacement at `k`, overwriting any earlier one; nothing else changes |
| `Scenario.SignalScenario.UseModel` | scenario.hpp:35-39 | is `UseModelAt` at the cursor |
| `Scenario.SignalScenario.UseNoiseAt` | scenario.hpp:54-59 | sets the noise replacement at `k`, overwriting any earlier one; nothing else changes |
| `Scenario.SignalScenario.UseNoise` | scenario.hpp:48-52 | is `UseNoiseAt` at the cursor |
| `Scenario.SignalScenario.ApplyModifiers` | scenario.hpp:99-117 | the model is replaced iff the current iteration has a model entry, the noise source iff it has a noise entry, and the offset is added iff it has an offset entry; iteration, done and sample are unchanged |
| `Scenario.SignalScenario.Increment` | scenario.hpp:61-67 | applies the modifiers for the pre-increment iteration, then the base increment; the new state is `Step` of the old |
| `Scenario.SignalScenario.PostIncrement` | scenario.hpp:69-73 | returns the scenario state before the increment and leaves the scenario advanced once |
| `Scenario.SignalScenario.Current` | scenario.hpp:75-90 | on the first read applies the modifiers and sets the sample to `(model(iteration), 0, DEFAULT_START_TIMESTAMP)`, without the modifier, then clears the flag; later reads change nothing; returns the current sample |
| `Example.BuildExample` | tests/pwave_test.cpp:12-17 | the fluent chain puts the checkpoints at 0, 12, 14 and 37 and builds exactly that schedule |
| `Example.ExampleTrace` | tests/pwave_test.cpp:12-23 | after the first read and `j < 100` increments, the whole scenario state is the closed form `Expected(j)` |
| `Example.ExampleProfile` | tests/pwave_test.cpp:10-23 | clean value 10 for samples 0-12, -14.05 for 13-37 and `j - 24.05` from 38; noise 0 up to sample 14 (the initial noise source is the zero source) and within 3 from 15; timestamps move one window per sample; running below 100, done after 100 increments with sample 99 kept |

## Left out

- `SignalSample::printCSVLine` and the `dbg` trace: output to stdout (generator.hpp:54-58, 126).
- `math::sinFunction`: floating-point trigonometry, with nothing to prove about the core.
- The noise generators (`NoiseGenerator`, `SymetricNoiseGenerator`, `noise.hpp`): noise.hpp is not part of this model. A noise source is an opaque deterministic `int -> real`; any internal state or randomness it has is not modelled.
- `math::const10Function` and the `ITERATE_SIGNAL` macro are not part of this model. `Example.Const10` stands for the former. `Example.ExampleProfile` assumes a driver that reads the sample before each increment.
- Ownership (`lambda::function`, `std::shared_ptr`, references and raw pointers), the dangling-reference hazard of the reassigned `const&`, and aliasing between the scenario's maps and the generator.
- The fluent return of `*this`: the setters are methods called in sequence.
- `operator*` returns a reference into the generator; `Scenario.SignalScenario.Current` and `Generator.SignalGenerator.Current` return the sample's value.
- `Generator.SignalGenerator.Increment`: the counter is an unbounded `int`, so the undefined behaviour of `int32_t` overflow when started at `INT32_MAX` is not modelled.
- `Scenario.SignalScenario.After`: the `size_t` cursor is an unbounded `nat`, so wrap-around at 2^64 is not modelled.
- IEEE rounding of `double_t`: sample values are exact reals.
