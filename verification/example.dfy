/**
 The example schedule of the repository's scenario test: a budget of 100
 iterations, a constant model 10 from iteration 0, an offset of -24.05
 from the checkpoint at 12, a bounded symmetric noise source from the
 checkpoint at 14 and the identity model from the checkpoint at 37. The
 noise source is a parameter bounded by its amplitude 3; the initial noise
 is the zero source.
 */
module Example {
  import opened Generator
  import opened Scenario

  const LOAD_ITERATIONS: nat := 100

  /** The constant model used before the first checkpoint. */
  function Const10(x: real): real
  {
    10.0
  }

  /** The noise-free source. */
  function ZeroNoise(i: int): real
  {
    0.0
  }

  /** The schedule built by the test's fluent chain. */
  function ExamplePlan(sym: int -> real): Schedule
  {
    Schedule(map[0 := Const10, 37 := LinearFunction], map[14 := sym], map[12 := -24.05])
  }

  /** The scenario before the first read. */
  function ExampleStart(model: real -> real, sym: int -> real): ScenarioState
  {
    ScenarioState(ExamplePlan(sym), 37, true, Init(model, ZeroNoise, 0, LOAD_ITERATIONS))
  }

  /** The test's fluent chain: use, after(12).add, after(2).use, after(23).use. */
  method BuildExample(model: real -> real, sym: int -> real) returns (sc: SignalScenario)
    ensures fresh(sc) && fresh(sc.gen)
    ensures sc.State() == ExampleStart(model, sym)
  {
    sc := new SignalScenario(model, ZeroNoise, LOAD_ITERATIONS);
    sc.UseModel(Const10);
    sc.After(12);
    sc.Add(-24.05);
    sc.After(2);
    sc.UseNoise(sym);
    sc.After(23);
    sc.UseModel(LinearFunction);
  }

  /**
   The scenario after the first read and `j` increments, for `j < 100`:
   every entry keyed below `j` has been applied, so the offset shows from
   sample 13, the noise source from sample 15 and the identity model from
   sample 38.
   */
  function Expected(sym: int -> real, j: nat): ScenarioState
  {
    ScenarioState(ExamplePlan(sym), 37, false,
      GenState(
        if j >= 38 then LinearFunction else Const10,
        if j >= 15 then sym else ZeroNoise,
        j, LOAD_ITERATIONS, false,
        if j >= 13 then -24.05 else 0.0,
        Sample(
          if j >= 38 then j as real - 24.05 else if j >= 13 then -14.05 else 10.0,
          if j >= 15 then sym(j) else 0.0,
          DEFAULT_START_TIMESTAMP + j as real)))
  }

  /** The first read applies the model entry keyed 0 and gives sample 0. */
  lemma ExampleFirstRead(model: real -> real, sym: int -> real)
    ensures Prime(ExampleStart(model, sym)) == Expected(sym, 0)
  {
  }

  /** Each increment below the budget moves the closed form one iteration on. */
  lemma ExampleStep(sym: int -> real, j: nat)
    requires j + 1 < LOAD_ITERATIONS
    ensures Step(Expected(sym, j)) == Expected(sym, j + 1)
  {
  }

  /** The closed form holds after the first read and every number of increments below the budget. */
  lemma {:induction false} ExampleTrace(model: real -> real, sym: int -> real, j: nat)
    requires j < LOAD_ITERATIONS
    ensures Trace(Prime(ExampleStart(model, sym)), j) == Expected(sym, j)
  {
    if j == 0 {
      ExampleFirstRead(model, sym);
    } else {
      ExampleTrace(model, sym, j - 1);
      ExampleStep(sym, j - 1);
    }
  }

  /**
   The test's load profile: after the first read and `j` increments the
   clean value is 10 for samples 0-12, -14.05 for samples 13-37 and
   `j - 24.05` from sample 38; the noise is 0 up to sample 14 and within
   the amplitude 3 from sample 15; the timestamp has moved `j` windows;
   100 increments reach the terminal state, keeping sample 99.
   */
  lemma ExampleProfile(model: real -> real, sym: int -> real)
    requires forall i :: -3.0 <= sym(i) <= 3.0
    ensures forall j: nat :: j < LOAD_ITERATIONS ==>
      var s := Trace(Prime(ExampleStart(model, sym)), j).gen.sample;
      && (j <= 12 ==> s.Clean() == 10.0)
      && (13 <= j <= 37 ==> s.Clean() == -14.05)
      && (38 <= j ==> s.Clean() == j as real - 24.05)
      && (j <= 14 ==> s.noise == 0.0 && s.Observed() == s.Clean())
      && (15 <= j ==> -3.0 <= s.noise <= 3.0)
      && s.timestamp == DEFAULT_START_TIMESTAMP + j as real * DEFAULT_TIME_WINDOW
    ensures forall j: nat :: j < LOAD_ITERATIONS ==> !Trace(Prime(ExampleStart(model, sym)), j).gen.done
    ensures var fin := Trace(Prime(ExampleStart(model, sym)), LOAD_ITERATIONS).gen;
      fin.done && fin.iteration == 100 && fin.sample == Expected(sym, 99).gen.sample
  {
    var start := Prime(ExampleStart(model, sym));
    forall j: nat | j < LOAD_ITERATIONS
      ensures Trace(start, j) == Expected(sym, j)
    {
      ExampleTrace(model, sym, j);
    }
    assert Trace(start, 100) == Step(Trace(start, 99));
    assert OffsetAt(ExamplePlan(sym), 99) == 0.0;
  }
}
