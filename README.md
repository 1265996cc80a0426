# Evaluation context of num_parser2, modelled in Dafny

This project models the evaluation context of the `num_parser2` expression engine. The
context is the state an evaluator consults while it interprets an expression tree. It holds:

- the functions declared at runtime, each an identifier bound to a parameter list and a body;
- the variables declared at runtime, each an identifier bound to an expression;
- three settings: the display rounding, the angle unit and the recursion depth limit.

The project also models `AngleUnit::convert_value`. It converts a value between radians,
degrees and turns in two hops through radians. Every division and multiplication in it can fail.
The first failure ends the conversion and its error is returned unchanged.

Files:

- `wrappers.dfy`: `Option`, and `Result` standing for the crate's `EvalResult`. `:-` plays the part
  of Rust's early `return Err(e)`.
- `settings.dfy` (module `Settings`): `Rounding`, `AngleUnit` and `DepthLimit` with their defaults,
  and `ConvertValue` split into its two hops, `ToRadians` and `FromRadians`.
  The crate's `Value` is a type parameter `V` and its arithmetic error is `E`.
  Division, multiplication and `Value::from` on the three literals (180, π, 0.5) are fields of an
  `Arithmetic` record. Nothing is assumed about what they compute or when they fail.
- `conversion_plan.dfy` (module `ConversionPlan`): a second, independent description of the
  conversion. It is a list of arithmetic steps per unit pair (`Plan`), run left to right with a
  stop at the first failure (`Run`). `Trace` records the outcome of every step that was performed,
  so "no later step is performed" can be stated.
- `context.dfy` (module `ContextRegistry`): the class `Context`. Its two maps are `map` fields that
  `AddFunction`, `AddVariable` and `JoinWith` update in place. The lookups are functions that read
  the object. Expression trees are a type parameter `Expr`. Dafny values are immutable, so Rust's
  `clone` on lookup needs no modelling.

The formulas are modelled as the code writes them. A `Turn` source is divided by 0.5 and then
divided by π (src/context/settings.rs:85-97). Read as a number, that does not give 2π for one turn.
The model keeps the division and claims nothing numeric about any conversion.

## Model

| member | source | states |
|---|---|---|
| `Settings.DefaultSettings` | src/context/settings.rs:32-36 | The defaults are `Round(8)` rounding, `Radian` (settings.rs:53-58) and `Limit(49)` (settings.rs:160-164). |
| `Settings.ConvertValue` | src/context/settings.rs:68-132 | A `Radian` source leaves only the second hop. A `Radian` target returns the first hop's result exactly. `Radian` to `Radian` is `Ok(value)`. A failing first hop is the result, unchanged. |
| `ConversionPlan.ToRadiansFollowsPlan` | src/context/settings.rs:69-99 | The first hop is: nothing for `Radian`; divide by 180 then multiply by π for `Degree`; divide by 0.5 then divide by π for `Turn`. Each step stops the hop if it fails. |
| `ConversionPlan.FromRadiansFollowsPlan` | src/context/settings.rs:101-131 | The second hop is: nothing for `Radian`; divide by π then multiply by 180 for `Degree`; divide by π then multiply by 0.5 for `Turn`. Each step stops the hop if it fails. |
| `ConversionPlan.RunAppend` | src/context/settings.rs:69-101 | Running the first hop's steps and then the second's is the same as running the first hop and, only if it succeeded, the second hop on its result. |
| `ConversionPlan.ConvertValueFollowsPlan` | src/context/settings.rs:68-132 | For every unit pair, arithmetic and value, `convert_value` equals running the plan: the first hop's steps, then the second hop's steps, stopping at the first failure. |
| `ConversionPlan.TraceShape` | src/context/settings.rs:71-130 | At most one step is performed per planned step. A non-empty plan performs at least one step. Every performed step except possibly the last succeeded. The run stops early only after a failure. |
| `ConversionPlan.TraceInputs` | src/context/settings.rs:71-130 | Performed step `i` is planned step `i`. It runs on the input value when `i = 0`, and otherwise on the successful result of step `i - 1`. This fixes the order of the steps. |
| `ConversionPlan.RunIsLastOfTrace` | src/context/settings.rs:71-130 | The result of a run is the outcome of the last step performed, or the input when no step ran. A successful run performed every planned step. |
| `ConversionPlan.ConvertValueStopsAtFirstError` | src/context/settings.rs:71-130 | If a performed step returned an error, it is the last step performed and `convert_value` returns exactly that error. |
| `ConversionPlan.ConvertValueOutcome` | src/context/settings.rs:71-130 | `Ok` only if every planned step was performed and each returned `Ok`. `Err(e)` only if `Err(e)` is the outcome of the last step performed. |
| `ConversionPlan.RadianToRadianIsExact` | src/context/settings.rs:69-102 | `Radian` to `Radian` plans no step and performs none. It returns `Ok(value)` for every value and whatever the arithmetic does. |
| `ConversionPlan.DegreeDivisionFailurePropagates` | src/context/settings.rs:72-76 | If dividing a `Degree` value by 180 fails with `e`, that division is the only step performed and the conversion returns `Err(e)`. |
| `ContextRegistry.Context.Default` | src/context/mod.rs:27-37 | A default context has no functions and no variables, and its settings are `Round(8)`, `Radian` and `Limit(49)`. |
| `ContextRegistry.Context.constructor` | src/context/mod.rs:41-53 | `new(r, a, d)` has no functions and no variables, and stores exactly `r`, `a` and `d` as its settings. |
| `ContextRegistry.Context.AddFunction` | src/context/mod.rs:66-68 | Afterwards `GetFunction(id)` is `Some((params, body))`, whether or not `id` was bound before. Every other function lookup, all variables and all settings are unchanged. |
| `ContextRegistry.Context.AddVariable` | src/context/mod.rs:71-73 | Afterwards `GetVar(id)` is `Some(expression)`. Every other variable lookup, all functions and all settings are unchanged. |
| `ContextRegistry.Context.JoinWith` | src/context/mod.rs:56-63 | The keys are inserted one by one in any order. The result is the map override `old(functions) + other.functions`, and likewise for variables, so `other` wins on shared identifiers. The settings are unchanged, and `other` is unchanged even when it is the receiver itself. |
| `ContextRegistry.Context.GetFunction` | src/context/mod.rs:76-78 | `Some` exactly when the identifier is bound, with the stored parameters and body. `None`, not a failure, when it is unbound. |
| `ContextRegistry.Context.GetVar` | src/context/mod.rs:81-83 | `Some` exactly when the identifier is bound, with the stored expression. `None`, not a failure, when it is unbound. |
| `ContextRegistry.Context.IsFunction` | src/context/mod.rs:86-88 | Holds exactly when the identifier is a bound function, that is, exactly when `GetFunction` gives `Some`. |
| `ContextRegistry.Context.IsVar` | src/context/mod.rs:91-93 | Holds exactly when the identifier is a bound variable, that is, exactly when `GetVar` gives `Some`. |
| `ContextRegistry.RedefinitionKeepsLast` | src/context/mod.rs:66-68 | Two definitions of the same function leave only the second one bound. |
| `ContextRegistry.JoinTwiceIsJoinOnce` | src/context/mod.rs:56-63 | Joining the same context twice gives the same bindings as joining it once. |

## Left out

- Floating-point semantics of `Value` and of `consts::PI`. Division, multiplication and
  `Value::from` are abstract parameters, so no numeric claim (about 180, 0.5 or 2π) is made.
  In particular the model does not claim that one turn converts to about 2π radians. As written,
  the code divides by π there.
- The internals of `Expression` (crate::objects): it is a type parameter, stored and returned but
  never inspected. Deep copies on lookup come from Dafny's immutable values.
- `HashMap` iteration order in `join_with`. Each loop picks the next key arbitrarily, so the
  proof covers every order.
- The `serde` serialisation derives and the `Debug` and `Clone` derives.
- How the evaluator enforces the depth limit and how the formatter applies the rounding. Neither
  is part of this model, and the context only stores these settings.
- Concurrency: the context has none.
