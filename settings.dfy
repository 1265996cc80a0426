/** The three evaluation settings of a context and the conversion of a value between angle units
    (src/context/settings.rs). */
module Settings {
  import opened Wrappers

  newtype u8 = x: int | 0 <= x < 0x100
  newtype u32 = x: int | 0 <= x < 0x1_0000_0000

  /** The number of decimal places shown. */
  datatype Rounding = Round(digits: u8) | NoRounding

  /** The angle unit to use: a full turn is 2π radians, 360 degrees or 1 turn. */
  datatype AngleUnit = Radian | Degree | Turn

  /** The recursion depth limit; `NoLimit` leaves the evaluator without recursion control. */
  datatype DepthLimit = Limit(depth: u32) | NoLimit

  const DefaultRounding: Rounding := Round(8)
  const DefaultAngleUnit: AngleUnit := Radian
  const DefaultDepthLimit: DepthLimit := Limit(49)

  lemma DefaultSettings()
    ensures DefaultRounding.Round? && DefaultRounding.digits == 8
    ensures DefaultAngleUnit == Radian
    ensures DefaultDepthLimit.Limit? && DefaultDepthLimit.depth == 49
  {
  }

  /** The literal operands of the conversion: `Value::from(180)`, `Value::from(consts::PI)`
      and `Value::from(0.5)`. */
  datatype Constant = OneEighty | Pi | Half

  /** The crate's numeric `Value` seen only through what the conversion uses of it: a
      fallible division, a fallible multiplication, and the lifting of a literal into a value.
      Nothing is assumed about what these compute or when they fail. */
  datatype Arithmetic<!V, E> = Arithmetic(
    div: (V, V) -> Result<V, E>,
    mul: (V, V) -> Result<V, E>,
    lift: Constant -> V)

  /** First hop of `convert_value`: the value, measured in `from`, as radians. */
  function ToRadians<V, E>(a: Arithmetic<V, E>, from: AngleUnit, value: V): Result<V, E>
  {
    match from
    case Radian => Ok(value)
    case Degree =>
      var quotient :- a.div(value, a.lift(OneEighty));
      a.mul(quotient, a.lift(Pi))
    case Turn =>
      // As written: divided by 0.5, then divided (not multiplied) by PI.
      var quotient :- a.div(value, a.lift(Half));
      a.div(quotient, a.lift(Pi))
  }

  /** Second hop of `convert_value`: a value in radians, measured in `to`. */
  function FromRadians<V, E>(a: Arithmetic<V, E>, to: AngleUnit, asRadians: V): Result<V, E>
  {
    match to
    case Radian => Ok(asRadians)
    case Degree =>
      var quotient :- a.div(asRadians, a.lift(Pi));
      a.mul(quotient, a.lift(OneEighty))
    case Turn =>
      var quotient :- a.div(asRadians, a.lift(Pi));
      a.mul(quotient, a.lift(Half))
  }

  /** `AngleUnit::convert_value`: converts `value` from unit `from` to unit `to`, routed
      through radians; the first failing arithmetic step ends the conversion with its error. */
  function ConvertValue<V, E>(a: Arithmetic<V, E>, from: AngleUnit, to: AngleUnit, value: V): (r: Result<V, E>)
    ensures from == Radian ==> r == FromRadians(a, to, value)
    ensures to == Radian ==> r == ToRadians(a, from, value)
    ensures from == Radian && to == Radian ==> r == Ok(value)
    ensures ToRadians(a, from, value).Err? ==> r == ToRadians(a, from, value)
  {
    var asRadians :- ToRadians(a, from, value);
    FromRadians(a, to, asRadians)
  }
}
