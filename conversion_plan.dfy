/** An independent description of `convert_value` as a fixed plan of arithmetic steps run
    left to right, with an instrumented run that records the outcome of every step it
    performs. The lemmas tie `Settings.ConvertValue` to this plan: which steps, in which
    order, and that the first failure ends the conversion with that failure unchanged. */
module ConversionPlan {
  import opened Wrappers
  import opened Settings

  datatype Op = Div | Mul

  /** One arithmetic step: the running value is divided or multiplied by a literal. */
  datatype Step = Step(op: Op, operand: Constant)

  function Perform<V, E>(a: Arithmetic<V, E>, s: Step, x: V): Result<V, E>
  {
    match s.op
    case Div => a.div(x, a.lift(s.operand))
    case Mul => a.mul(x, a.lift(s.operand))
  }

  /** The steps of the first hop, from `from` to radians (src/context/settings.rs:69-99). */
  function ToRadianSteps(from: AngleUnit): seq<Step>
  {
    match from
    case Radian => []
    case Degree => [Step(Div, OneEighty), Step(Mul, Pi)]
    case Turn => [Step(Div, Half), Step(Div, Pi)]
  }

  /** The steps of the second hop, from radians to `to` (src/context/settings.rs:101-131). */
  function FromRadianSteps(to: AngleUnit): seq<Step>
  {
    match to
    case Radian => []
    case Degree => [Step(Div, Pi), Step(Mul, OneEighty)]
    case Turn => [Step(Div, Pi), Step(Mul, Half)]
  }

  function Plan(from: AngleUnit, to: AngleUnit): seq<Step>
  {
    ToRadianSteps(from) + FromRadianSteps(to)
  }

  /** Runs the steps in order, stopping at the first one that fails. */
  function Run<V, E>(a: Arithmetic<V, E>, steps: seq<Step>, x: V): Result<V, E>
    decreases |steps|
  {
    if steps == [] then Ok(x)
    else
      match Perform(a, steps[0], x)
      case Err(e) => Err(e)
      case Ok(y) => Run(a, steps[1..], y)
  }

  /** The outcomes of the steps `Run` performs, in the order it performs them. */
  function Trace<V, E>(a: Arithmetic<V, E>, steps: seq<Step>, x: V): seq<Result<V, E>>
    decreases |steps|
  {
    if steps == [] then []
    else
      var outcome := Perform(a, steps[0], x);
      match outcome
      case Err(_) => [outcome]
      case Ok(y) => [outcome] + Trace(a, steps[1..], y)
  }

  /** Running two plans one after the other is running the first and, only if it
      succeeded, the second on its result. */
  lemma {:induction false} RunAppend<V, E>(a: Arithmetic<V, E>, s: seq<Step>, t: seq<Step>, x: V)
    ensures Run(a, s + t, x) == match Run(a, s, x) case Err(e) => Err(e) case Ok(y) => Run(a, t, y)
    decreases |s|
  {
    if s == [] {
      assert s + t == t;
    } else {
      assert (s + t)[0] == s[0];
      assert (s + t)[1..] == s[1..] + t;
      match Perform(a, s[0], x)
      case Err(e) =>
      case Ok(y) => RunAppend(a, s[1..], t, y);
    }
  }

  lemma ToRadiansFollowsPlan<V, E>(a: Arithmetic<V, E>, from: AngleUnit, x: V)
    ensures ToRadians(a, from, x) == Run(a, ToRadianSteps(from), x)
  {
    var steps := ToRadianSteps(from);
    if steps != [] {
      assert steps[1..][1..] == [];
      match Perform(a, steps[0], x)
      case Err(_) =>
      case Ok(y) => assert Run(a, steps[1..], y) == Perform(a, steps[1], y);
    }
  }

  lemma FromRadiansFollowsPlan<V, E>(a: Arithmetic<V, E>, to: AngleUnit, x: V)
    ensures FromRadians(a, to, x) == Run(a, FromRadianSteps(to), x)
  {
    var steps := FromRadianSteps(to);
    if steps != [] {
      assert steps[1..][1..] == [];
      match Perform(a, steps[0], x)
      case Err(_) =>
      case Ok(y) => assert Run(a, steps[1..], y) == Perform(a, steps[1], y);
    }
  }

  /** `convert_value` performs exactly the steps of `Plan(from, to)`, in order, and stops
      at the first failing one. */
  lemma ConvertValueFollowsPlan<V, E>(a: Arithmetic<V, E>, from: AngleUnit, to: AngleUnit, x: V)
    ensures ConvertValue(a, from, to, x) == Run(a, Plan(from, to), x)
  {
    ToRadiansFollowsPlan(a, from, x);
    RunAppend(a, ToRadianSteps(from), FromRadianSteps(to), x);
    match ToRadians(a, from, x)
    case Err(e) =>
    case Ok(y) => FromRadiansFollowsPlan(a, to, y);
  }

  /** The shape of a trace: at most one outcome per step, every outcome but the last is a
      success, and the run stops early only after a failure. */
  lemma {:induction false} TraceShape<V, E>(a: Arithmetic<V, E>, steps: seq<Step>, x: V)
    ensures |Trace(a, steps, x)| <= |steps|
    ensures steps != [] ==> Trace(a, steps, x) != []
    ensures forall j :: 0 <= j < |Trace(a, steps, x)| - 1 ==> Trace(a, steps, x)[j].Ok?
    ensures |Trace(a, steps, x)| < |steps| ==> Trace(a, steps, x)[|Trace(a, steps, x)| - 1].Err?
    decreases |steps|
  {
    if steps != [] {
      match Perform(a, steps[0], x)
      case Err(_) =>
      case Ok(y) =>
        TraceShape(a, steps[1..], y);
        var t := Trace(a, steps[1..], y);
        assert Trace(a, steps, x) == [Ok(y)] + t;
    }
  }

  /** Step `i` is performed on the input value for `i = 0` and on the result of step `i - 1`
      otherwise: the steps run in plan order, each on its predecessor's result. */
  lemma {:induction false} TraceInputs<V, E>(a: Arithmetic<V, E>, steps: seq<Step>, x: V, i: nat)
    requires i < |Trace(a, steps, x)|
    ensures i < |steps|
    ensures i > 0 ==> Trace(a, steps, x)[i - 1].Ok?
    ensures Trace(a, steps, x)[i]
            == Perform(a, steps[i], if i == 0 then x else Trace(a, steps, x)[i - 1].value)
    decreases |steps|
  {
    TraceShape(a, steps, x);
    if i > 0 {
      var y := Perform(a, steps[0], x).value;
      TraceInputs(a, steps[1..], y, i - 1);
      if i > 1 {
        TraceShape(a, steps[1..], y);
      }
    }
  }

  /** The run's result is the last outcome of its trace (the input itself when the plan is
      empty), and a successful run performed every step. */
  lemma {:induction false} RunIsLastOfTrace<V, E>(a: Arithmetic<V, E>, steps: seq<Step>, x: V)
    ensures var t := Trace(a, steps, x);
            Run(a, steps, x) == if t == [] then Ok(x) else t[|t| - 1]
    ensures Run(a, steps, x).Ok? ==> |Trace(a, steps, x)| == |steps|
    decreases |steps|
  {
    if steps != [] {
      match Perform(a, steps[0], x)
      case Err(_) =>
      case Ok(y) =>
        RunIsLastOfTrace(a, steps[1..], y);
        TraceShape(a, steps[1..], y);
    }
  }

  /** If some step of the conversion fails, it is the last step performed and the
      conversion returns exactly its error. */
  lemma ConvertValueStopsAtFirstError<V, E>(a: Arithmetic<V, E>, from: AngleUnit, to: AngleUnit, x: V, i: nat)
    requires i < |Trace(a, Plan(from, to), x)|
    requires Trace(a, Plan(from, to), x)[i].Err?
    ensures i == |Trace(a, Plan(from, to), x)| - 1
    ensures ConvertValue(a, from, to, x) == Trace(a, Plan(from, to), x)[i]
  {
    TraceShape(a, Plan(from, to), x);
    RunIsLastOfTrace(a, Plan(from, to), x);
    ConvertValueFollowsPlan(a, from, to, x);
  }

  /** A conversion succeeds only if every step of its plan was performed and succeeded;
      it fails only with the error of a step that was performed. */
  lemma ConvertValueOutcome<V, E>(a: Arithmetic<V, E>, from: AngleUnit, to: AngleUnit, x: V)
    ensures var t := Trace(a, Plan(from, to), x);
            ConvertValue(a, from, to, x).Ok? ==>
              |t| == |Plan(from, to)| && forall j :: 0 <= j < |t| ==> t[j].Ok?
    ensures var t := Trace(a, Plan(from, to), x);
            ConvertValue(a, from, to, x).Err? ==>
              t != [] && t[|t| - 1] == ConvertValue(a, from, to, x)
  {
    TraceShape(a, Plan(from, to), x);
    RunIsLastOfTrace(a, Plan(from, to), x);
    ConvertValueFollowsPlan(a, from, to, x);
  }

  /** `Radian` to `Radian` performs no arithmetic at all and returns the value exactly,
      whatever the arithmetic would have done. */
  lemma RadianToRadianIsExact<V, E>(a: Arithmetic<V, E>, b: Arithmetic<V, E>, x: V)
    ensures Plan(Radian, Radian) == [] && Trace(a, Plan(Radian, Radian), x) == []
    ensures ConvertValue(a, Radian, Radian, x) == Ok(x) == ConvertValue(b, Radian, Radian, x)
  {
  }

  /** A failing first division of a `Degree` source is the only step performed, and its
      error is the result of the conversion. */
  lemma DegreeDivisionFailurePropagates<V, E>(a: Arithmetic<V, E>, to: AngleUnit, x: V, e: E)
    requires a.div(x, a.lift(OneEighty)) == Err(e)
    ensures Trace(a, Plan(Degree, to), x) == [Err(e)]
    ensures ConvertValue(a, Degree, to, x) == Err(e)
  {
  }
}
