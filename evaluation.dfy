/**
 * What the interpreter computes, as functions of the interpreter's state.
 * `Eval` and its partners mirror the visitor methods one for one; the
 * `Interpreter` class runs the same steps on its own fields and is proved to
 * agree with them.
 *
 * Two parameters stand for what the source leaves to the machine: `trunc`
 * is the `as u64` conversion of a computed float (see `Numbers.Truncate`),
 * and `fuel` bounds how deeply calls nest, standing for the native stack.
 */
module Evaluation {
  import opened Wrappers
  import opened Numbers
  import opened Tokens
  import opened Errors
  import opened Syntax
  import opened Callables
  import opened Values
  import opened Environments
  import opened Functions

  /** One sample handed to a plotter. */
  datatype Point = Point(x: int, y: Num)

  /** A plotter, seen as the point lists it has been handed, oldest first. */
  datatype Sink = Sink(received: seq<seq<Point>>)

  /** The interpreter's fields. */
  datatype State = State(environment: Env, plotter: Option<Sink>)

  /** A result together with the state it leaves behind. */
  datatype Evaluated<+T> = Evaluated(value: T, state: State)

  /** The call depth each top-level statement may reach. */
  const MaxDepth: nat := 1000

  /** `Interpreter::new`: the global scope and no plotter. */
  function Initial(): State {
    State(Global(), None)
  }

  /** `with_plotter`: installs the plotter and keeps the environment. */
  function WithPlotter(st: State, sink: Sink): State {
    st.(plotter := Some(sink))
  }

  function Size(e: Expr): nat {
    match e
    case Binary(left, _, right) => 1 + Size(left) + Size(right)
    case Grouping(inner) => 1 + Size(inner)
    case Literal(_) => 1
    case Variable(_) => 1
    case Unary(_, right) => 1 + Size(right)
    case Call(callee, args) => 1 + Size(callee) + SizeAll(args)
  }

  function SizeAll(es: seq<Expr>): nat {
    if es == [] then 0 else Size(es[0]) + SizeAll(es[1..])
  }

  /** Attaches the state to a result that does not change it. */
  function Then(r: Result<Value>, st: State): Result<Evaluated<Value>> {
    if r.Err? then Err(r.error) else Ok(Evaluated(r.value, st))
  }

  /** `visit_unary_expr` once its operand is known: only Minus has a rule. */
  function UnaryOp(kind: TokenKind, v: Value): Result<Value> {
    if kind == Minus then Negate(v) else Err(UnsupportedOperator(kind))
  }

  /** `visit_binary_expr` once both operands are known. */
  function BinaryOp(kind: TokenKind, left: Value, right: Value): Result<Value> {
    match kind
    case Plus => Add(left, right)
    case Minus => Sub(left, right)
    case Star => Mul(left, right)
    case Slash => Div(left, right)
    case Caret => Powf(left, right)
    case _ => Err(UnsupportedOperator(kind))
  }

  /** Hands the points to the plotter, if there is one. */
  function Forward(plotter: Option<Sink>, points: seq<Point>): Option<Sink> {
    match plotter
    case None => None
    case Some(sink) => Some(Sink(sink.received + [points]))
  }

  /** `evaluate`: the expression visitor. */
  function Eval(trunc: Num -> nat, fuel: nat, e: Expr, st: State): Result<Evaluated<Value>>
    decreases fuel, Size(e), 0
  {
    match e
    case Literal(n) => Ok(Evaluated(Value.Number(n), st))
    case Grouping(inner) => Eval(trunc, fuel, inner, st)
    case Unary(op, right) =>
      var r := Eval(trunc, fuel, right, st);
      if r.Err? then Err(r.error) else Then(UnaryOp(op.kind, r.value.value), r.value.state)
    case Binary(left, op, right) =>
      var l := Eval(trunc, fuel, left, st);
      if l.Err? then Err(l.error)
      else
        var r := Eval(trunc, fuel, right, l.value.state);
        if r.Err? then Err(r.error)
        else Then(BinaryOp(op.kind, l.value.value, r.value.value), r.value.state)
    case Call(callee, args) =>
      var c := Eval(trunc, fuel, callee, st);
      if c.Err? then Err(c.error)
      else
        var a := ArgsFrom(trunc, fuel, args, [], c.value.state);
        if a.Err? then Err(a.error)
        else if !c.value.value.Function? then Err(NotAFunction)
        else
          var f := c.value.value.callable;
          if |a.value.value| != Arity(f) then Err(ArityMismatch(Arity(f), |a.value.value|))
          else Invoke(trunc, fuel, f, a.value.value, a.value.state)
    case Variable(name) =>
      var found := Get(st.environment, name.lexeme);
      if found.Some? then Ok(Evaluated(found.value, st))
      else
        var unbound := Unbound(name.lexeme);
        Ok(Evaluated(unbound, st.(environment := Define(st.environment, name.lexeme, unbound))))
  }

  /** The arguments `rest`, left to right, appended to `acc`. */
  function ArgsFrom(trunc: Num -> nat, fuel: nat, rest: seq<Expr>, acc: seq<Value>, st: State)
    : Result<Evaluated<seq<Value>>>
    decreases fuel, SizeAll(rest), 1
  {
    if rest == [] then Ok(Evaluated(acc, st))
    else
      var r := Eval(trunc, fuel, rest[0], st);
      if r.Err? then Err(r.error)
      else ArgsFrom(trunc, fuel, rest[1..], acc + [r.value.value], r.value.state)
  }

  /** `evaluate_inner`: evaluates in `env`, then puts the caller's environment back. */
  function EvalIn(trunc: Num -> nat, fuel: nat, e: Expr, env: Env, st: State): Result<Evaluated<Value>>
    decreases fuel, Size(e), 1
  {
    var r := Eval(trunc, fuel, e, st.(environment := env));
    if r.Err? then Err(r.error)
    else Ok(Evaluated(r.value.value, r.value.state.(environment := st.environment)))
  }

  /** `Callable::call` for each of the five callables. */
  function Invoke(trunc: Num -> nat, fuel: nat, c: Callable, args: seq<Value>, st: State)
    : Result<Evaluated<Value>>
    decreases fuel, 0, 0
  {
    match c
    case Pi => Ok(Evaluated(CallPi(args), st))
    case Sin => Then(CallSin(args), st)
    case Factors => Then(CallFactors(trunc, args), st)
    case UserFn(fnc) =>
      if fuel == 0 then Err(DepthExceeded)
      else
        var scope := BindFrom(FromEnclosing(st.environment), fnc.params, args, 0);
        if scope.Err? then Err(scope.error)
        else EvalIn(trunc, fuel - 1, fnc.body, scope.value, st)
    case Plot =>
      if |args| == 0 then Err(MissingArgument(0))
      else if !args[0].Function? then Err(NotAFunction)
      else if fuel == 0 then Err(DepthExceeded)
      else
        var p := PlotFrom(trunc, fuel - 1, args[0].callable, -10, [], st);
        if p.Err? then Err(p.error)
        else Ok(Evaluated(Value.Number(Zero), p.value.state.(plotter := Forward(p.value.state.plotter, p.value.value))))
  }

  /** The sampling loop of `Plot::call` from `x` up to 9, after `points`. */
  function PlotFrom(trunc: Num -> nat, fuel: nat, f: Callable, x: int, points: seq<Point>, st: State)
    : Result<Evaluated<seq<Point>>>
    requires x <= 10
    decreases fuel, 0, 10 - x
  {
    if x == 10 then Ok(Evaluated(points, st))
    else
      var r := Invoke(trunc, fuel, f, [Value.Number(Integer(x))], st);
      if r.Err? then Err(r.error)
      else PlotFrom(trunc, fuel, f, x + 1, points + [Point(x, ToF64(r.value.value))], r.value.state)
  }

  /** The statement visitor. */
  function Execute(trunc: Num -> nat, stmt: Stmt, st: State): Result<Evaluated<Value>> {
    match stmt
    case Expression(e) => Eval(trunc, MaxDepth, e, st)
    case Print(e) =>
      var r := Eval(trunc, MaxDepth, e, st);
      if r.Err? then Err(r.error) else Ok(Evaluated(Value.Number(Zero), r.value.state))
    case Variable(name, initializer) =>
      var r := Eval(trunc, MaxDepth, initializer, st);
      if r.Err? then Err(r.error)
      else
        var env := Define(r.value.state.environment, name.lexeme, r.value.value);
        Ok(Evaluated(Value.Number(Zero), r.value.state.(environment := env)))
    case Function(fnc) =>
      var env := Define(st.environment, fnc.name.lexeme, Value.Function(UserFn(fnc)));
      Ok(Evaluated(Value.Number(Zero), st.(environment := env)))
  }

  /** The loop of `interpret` over the statements `rest`, `last` being the latest value. */
  function InterpretFrom(trunc: Num -> nat, rest: seq<Stmt>, last: Value, st: State): Result<Evaluated<Value>> {
    if rest == [] then Ok(Evaluated(last, st))
    else
      var r := Execute(trunc, rest[0], st);
      if r.Err? then Err(r.error) else InterpretFrom(trunc, rest[1..], r.value.value, r.value.state)
  }

  /** `interpret`: runs the statements in order, starting from the value 0.0. */
  function Interpret(trunc: Num -> nat, stmts: seq<Stmt>, st: State): Result<Evaluated<Value>> {
    InterpretFrom(trunc, stmts, Value.Number(Zero), st)
  }
}
