/**
 * The interpreter object: its environment and plotter are fields that the
 * visitor methods update in place. Each method is proved to leave exactly
 * the result and the state that the matching function of `Evaluation`
 * describes; after an abort only the error is specified, because the source
 * stops there.
 */
module Interpreting {
  import opened Wrappers
  import opened Numbers
  import opened Tokens
  import opened Errors
  import opened Syntax
  import opened Callables
  import opened Values
  import opened Environments
  import opened Functions
  import opened Evaluation

  /** The method's outcome `r` and final state `st` are what `spec` describes. */
  predicate Agrees<T(==)>(spec: Result<Evaluated<T>>, r: Result<T>, st: State) {
    if spec.Ok? then r == Ok(spec.value.value) && st == spec.value.state
    else r == Err(spec.error)
  }

  lemma SizeAllElement(es: seq<Expr>, i: nat)
    requires i < |es|
    ensures Size(es[i]) <= SizeAll(es)
    decreases i
  {
    if i > 0 {
      SizeAllElement(es[1..], i - 1);
    }
  }

  lemma SizeAllSuffix(es: seq<Expr>, i: nat)
    requires i <= |es|
    ensures SizeAll(es[i..]) <= SizeAll(es)
    decreases i
  {
    if i > 0 {
      assert es[i..] == es[1..][i - 1..];
      SizeAllSuffix(es[1..], i - 1);
    }
  }

  class Interpreter {
    var environment: Env
    var plotter: Option<Sink>
    /** How a computed float is truncated to a `u64` (see `Numbers.Truncate`). */
    const trunc: Num -> nat

    function Snapshot(): State
      reads this
    {
      State(environment, plotter)
    }

    /** `Interpreter::new`. */
    constructor (trunc: Num -> nat)
      ensures Snapshot() == Initial() && this.trunc == trunc
    {
      environment := Global();
      plotter := None;
      this.trunc := trunc;
    }

    /** `with_plotter`. */
    method WithPlotter(sink: Sink)
      modifies this
      ensures Snapshot() == Evaluation.WithPlotter(old(Snapshot()), sink)
    {
      plotter := Some(sink);
    }

    /** `interpret`: the value of the last statement, or 0.0 when there is none. */
    method Interpret(stmts: seq<Stmt>) returns (r: Result<Value>)
      modifies this
      ensures Agrees(Evaluation.Interpret(trunc, stmts, old(Snapshot())), r, Snapshot())
    {
      var last := Value.Number(Zero);
      var i := 0;
      while i < |stmts|
        invariant 0 <= i <= |stmts|
        invariant Evaluation.Interpret(trunc, stmts, old(Snapshot())) == InterpretFrom(trunc, stmts[i..], last, Snapshot())
      {
        assert stmts[i..][0] == stmts[i] && stmts[i..][1..] == stmts[i + 1..];
        var v := Execute(stmts[i]);
        if v.Err? {
          return Err(v.error);
        }
        last := v.value;
        i := i + 1;
      }
      return Ok(last);
    }

    /** The statement visitor. */
    method Execute(stmt: Stmt) returns (r: Result<Value>)
      modifies this
      ensures Agrees(Evaluation.Execute(trunc, stmt, old(Snapshot())), r, Snapshot())
    {
      match stmt
      case Expression(e) =>
        r := Evaluate(MaxDepth, e);
      case Print(e) =>
        var v := Evaluate(MaxDepth, e);
        if v.Err? {
          return Err(v.error);
        }
        r := Ok(Value.Number(Zero));
      case Variable(name, initializer) =>
        var v := Evaluate(MaxDepth, initializer);
        if v.Err? {
          return Err(v.error);
        }
        environment := Define(environment, name.lexeme, v.value);
        r := Ok(Value.Number(Zero));
      case Function(fnc) =>
        environment := Define(environment, fnc.name.lexeme, Value.Function(UserFn(fnc)));
        r := Ok(Value.Number(Zero));
    }

    /** `evaluate_inner`: evaluates in `env` and restores the previous environment. */
    method EvaluateInner(fuel: nat, e: Expr, env: Env) returns (r: Result<Value>)
      modifies this
      ensures Agrees(EvalIn(trunc, fuel, e, env, old(Snapshot())), r, Snapshot())
      decreases fuel, Size(e), 1
    {
      var previous := environment;
      environment := env;
      r := Evaluate(fuel, e);
      environment := previous;
    }

    /** The expression visitor. */
    method Evaluate(fuel: nat, e: Expr) returns (r: Result<Value>)
      modifies this
      ensures Agrees(Eval(trunc, fuel, e, old(Snapshot())), r, Snapshot())
      decreases fuel, Size(e), 0
    {
      match e
      case Literal(n) =>
        r := Ok(Value.Number(n));
      case Grouping(inner) =>
        r := Evaluate(fuel, inner);
      case Unary(op, right) =>
        r := VisitUnary(fuel, op, right);
      case Binary(left, op, right) =>
        r := VisitBinary(fuel, left, op, right);
      case Call(callee, args) =>
        r := VisitCall(fuel, callee, args);
      case Variable(name) =>
        var found := Get(environment, name.lexeme);
        if found.Some? {
          r := Ok(found.value);
        } else {
          var unbound := Unbound(name.lexeme);
          environment := Define(environment, name.lexeme, unbound);
          r := Ok(unbound);
        }
    }

    /** `visit_unary_expr`. */
    method VisitUnary(fuel: nat, op: Token, right: Expr) returns (r: Result<Value>)
      modifies this
      ensures Agrees(Eval(trunc, fuel, Expr.Unary(op, right), old(Snapshot())), r, Snapshot())
      decreases fuel, Size(right), 1
    {
      var v := Evaluate(fuel, right);
      if v.Err? {
        return Err(v.error);
      }
      if op.kind == Minus {
        r := Negate(v.value);
      } else {
        r := Err(UnsupportedOperator(op.kind));
      }
    }

    /** `visit_binary_expr`: left operand first, then right, then the operator. */
    method VisitBinary(fuel: nat, left: Expr, op: Token, right: Expr) returns (r: Result<Value>)
      modifies this
      ensures Agrees(Eval(trunc, fuel, Binary(left, op, right), old(Snapshot())), r, Snapshot())
      decreases fuel, Size(left) + Size(right), 1
    {
      var l := Evaluate(fuel, left);
      if l.Err? {
        return Err(l.error);
      }
      var v := Evaluate(fuel, right);
      if v.Err? {
        return Err(v.error);
      }
      match op.kind
      case Plus => r := Add(l.value, v.value);
      case Minus => r := Sub(l.value, v.value);
      case Star => r := Mul(l.value, v.value);
      case Slash => r := Div(l.value, v.value);
      case Caret => r := Powf(l.value, v.value);
      case _ => r := Err(UnsupportedOperator(op.kind));
    }

    /** The Call arm: callee, then the arguments, then the checks, then the call. */
    method VisitCall(fuel: nat, callee: Expr, args: seq<Expr>) returns (r: Result<Value>)
      modifies this
      ensures Agrees(Eval(trunc, fuel, Expr.Call(callee, args), old(Snapshot())), r, Snapshot())
      decreases fuel, Size(callee) + SizeAll(args), 2
    {
      var c := Evaluate(fuel, callee);
      if c.Err? {
        return Err(c.error);
      }
      var a := EvaluateArgs(fuel, args);
      if a.Err? {
        return Err(a.error);
      }
      match c.value
      case Function(f) =>
        if |a.value| != Arity(f) {
          return Err(ArityMismatch(Arity(f), |a.value|));
        }
        r := Call(fuel, f, a.value);
      case _ =>
        r := Err(NotAFunction);
    }

    /** `args.iter().map(|arg| self.evaluate(arg)).collect()`. */
    method EvaluateArgs(fuel: nat, args: seq<Expr>) returns (r: Result<seq<Value>>)
      modifies this
      ensures Agrees(ArgsFrom(trunc, fuel, args, [], old(Snapshot())), r, Snapshot())
      decreases fuel, SizeAll(args), 1
    {
      var values := [];
      var i := 0;
      while i < |args|
        invariant 0 <= i <= |args|
        invariant ArgsFrom(trunc, fuel, args, [], old(Snapshot())) == ArgsFrom(trunc, fuel, args[i..], values, Snapshot())
      {
        assert args[i..][0] == args[i] && args[i..][1..] == args[i + 1..];
        SizeAllElement(args, i);
        var v := Evaluate(fuel, args[i]);
        if v.Err? {
          return Err(v.error);
        }
        values := values + [v.value];
        i := i + 1;
      }
      return Ok(values);
    }

    /** `Callable::call`, for each callable. */
    method Call(fuel: nat, c: Callable, args: seq<Value>) returns (r: Result<Value>)
      modifies this
      ensures Agrees(Invoke(trunc, fuel, c, args, old(Snapshot())), r, Snapshot())
      decreases fuel, 0, 0
    {
      match c
      case Pi =>
        r := Ok(CallPi(args));
      case Sin =>
        r := CallSin(args);
      case Factors =>
        r := CallFactors(trunc, args);
      case UserFn(fnc) =>
        if fuel == 0 {
          return Err(DepthExceeded);
        }
        var env := FromEnclosing(environment);
        for idx := 0 to |fnc.params|
          invariant BindFrom(FromEnclosing(environment), fnc.params, args, 0) == BindFrom(env, fnc.params, args, idx)
        {
          if idx >= |args| {
            return Err(MissingArgument(idx));
          }
          env := Define(env, fnc.params[idx].lexeme, args[idx]);
        }
        r := EvaluateInner(fuel - 1, fnc.body, env);
      case Plot =>
        if |args| == 0 {
          return Err(MissingArgument(0));
        }
        if !args[0].Function? {
          return Err(NotAFunction);
        }
        if fuel == 0 {
          return Err(DepthExceeded);
        }
        var points := Sample(fuel - 1, args[0].callable);
        if points.Err? {
          return Err(points.error);
        }
        plotter := Forward(plotter, points.value);
        r := Ok(Value.Number(Zero));
    }

    /** The loop of `Plot::call`: calls `f` at x = -10 .. 9 and collects the points. */
    method Sample(fuel: nat, f: Callable) returns (r: Result<seq<Point>>)
      modifies this
      ensures Agrees(PlotFrom(trunc, fuel, f, -10, [], old(Snapshot())), r, Snapshot())
      decreases fuel, 0, 1
    {
      var points := [];
      for x := -10 to 10
        invariant PlotFrom(trunc, fuel, f, -10, [], old(Snapshot())) == PlotFrom(trunc, fuel, f, x, points, Snapshot())
      {
        var y := Call(fuel, f, [Value.Number(Integer(x))]);
        if y.Err? {
          return Err(y.error);
        }
        points := points + [Point(x, ToF64(y.value))];
      }
      return Ok(points);
    }
  }
}
