/**
 * Runtime values and their type-checked operations. Every operation that the
 * source answers with `panic!()` answers `Err(NotANumber)` here.
 */
module Values {
  import opened Numbers
  import opened Errors
  import opened Callables

  datatype Value =
    | Unbound(name: string)          // a name that was read before it was bound
    | Number(n: Num)
    | List(items: seq<Num>)          // what `factors` returns
    | Function(callable: Callable)

  /** Unary minus. */
  function Negate(v: Value): Result<Value> {
    if v.Number? then Ok(Number(Negated(v.n))) else Err(NotANumber)
  }

  function Add(a: Value, b: Value): Result<Value> {
    if a.Number? && b.Number? then Ok(Number(Sum(a.n, b.n))) else Err(NotANumber)
  }

  function Sub(a: Value, b: Value): Result<Value> {
    if a.Number? && b.Number? then Ok(Number(Difference(a.n, b.n))) else Err(NotANumber)
  }

  function Mul(a: Value, b: Value): Result<Value> {
    if a.Number? && b.Number? then Ok(Number(Product(a.n, b.n))) else Err(NotANumber)
  }

  function Div(a: Value, b: Value): Result<Value> {
    if a.Number? && b.Number? then Ok(Number(Quotient(a.n, b.n))) else Err(NotANumber)
  }

  function Powf(a: Value, b: Value): Result<Value> {
    if a.Number? && b.Number? then Ok(Number(Power(a.n, b.n))) else Err(NotANumber)
  }

  /** `From<Value> for f64`: a Number's payload, and 0.0 for every other value. */
  function ToF64(v: Value): Num {
    match v
    case Number(n) => n
    case _ => Zero
  }

  /**
   * The `Display` of a value. The text of a Number or a List is float
   * formatting, which the model keeps symbolic.
   */
  datatype Shown = Text(text: string) | NumberText(n: Num) | ListText(items: seq<Num>)

  function Display(v: Value): Shown {
    match v
    case Unbound(name) => Text(name)
    case Number(n) => NumberText(n)
    case Function(c) => Text(Callables.Text(c))
    case List(items) => ListText(items)
  }

  /** True when the operation succeeded with a Number. */
  predicate IsNumber(r: Result<Value>) {
    r.Ok? && r.value.Number?
  }

  /** All five binary operations succeed on two Numbers, with a Number. */
  lemma NumbersCombine(x: Num, y: Num)
    ensures IsNumber(Add(Number(x), Number(y))) && IsNumber(Sub(Number(x), Number(y)))
    ensures IsNumber(Mul(Number(x), Number(y))) && IsNumber(Div(Number(x), Number(y)))
    ensures IsNumber(Powf(Number(x), Number(y)))
  {
  }

  /** A non-Number on either side aborts every binary operation, whatever the other side is. */
  lemma OnlyNumbersCombine(a: Value, b: Value)
    requires !a.Number? || !b.Number?
    ensures Add(a, b) == Err(NotANumber) && Sub(a, b) == Err(NotANumber)
    ensures Mul(a, b) == Err(NotANumber) && Div(a, b) == Err(NotANumber)
    ensures Powf(a, b) == Err(NotANumber)
  {
  }

  /** Negation keeps Numbers and aborts on the three other kinds. */
  lemma NegateCases(v: Value)
    ensures v.Number? ==> Negate(v) == Ok(Number(Negated(v.n)))
    ensures v.Unbound? || v.List? || v.Function? ==> Negate(v) == Err(NotANumber)
  {
  }

  /** Conversion to a float reads a Number and gives 0.0 for everything else. */
  lemma ToF64Cases(v: Value)
    ensures v.Number? ==> ToF64(v) == v.n
    ensures !v.Number? ==> ToF64(v) == Zero
  {
  }

  /** An unbound name shows as itself; a function shows as `<fnc:NAME>`. */
  lemma DisplayText(name: string, c: Callable)
    ensures Display(Unbound(name)) == Text(name)
    ensures Display(Function(c)) == Text("<fnc:" + Callables.Name(c) + ">")
  {
  }
}
