/** Properties of evaluation: ordering, bindings, scopes, plotting. */
module EvaluationProps {
  import opened Wrappers
  import opened Numbers
  import opened Tokens
  import opened Errors
  import opened Syntax
  import opened Callables
  import opened Values
  import opened Environments
  import opened Functions
  import opened Evaluation

  // ----- statements -----

  /** With no statements, `interpret` yields 0.0 and changes nothing. */
  lemma InterpretEmpty(trunc: Num -> nat, st: State)
    ensures Interpret(trunc, [], st) == Ok(Evaluated(Value.Number(Zero), st))
  {
  }

  lemma {:induction false} InterpretFromAppend(trunc: Num -> nat, stmts: seq<Stmt>, s: Stmt, last: Value, st: State)
    ensures var r := InterpretFrom(trunc, stmts, last, st);
      InterpretFrom(trunc, stmts + [s], last, st) == if r.Err? then Err(r.error) else Execute(trunc, s, r.value.state)
  {
    if stmts == [] {
      assert stmts + [s] == [s];
      assert [s][1..] == [];
    } else {
      assert (stmts + [s])[0] == stmts[0];
      assert (stmts + [s])[1..] == stmts[1..] + [s];
      var r := Execute(trunc, stmts[0], st);
      if r.Ok? {
        InterpretFromAppend(trunc, stmts[1..], s, r.value.value, r.value.state);
      }
    }
  }

  /**
   * A statement runs in the state the earlier statements leave, and the
   * value of the whole list is the value of its last statement.
   */
  lemma InterpretSequence(trunc: Num -> nat, stmts: seq<Stmt>, s: Stmt, st: State)
    ensures var r := Interpret(trunc, stmts, st);
      Interpret(trunc, stmts + [s], st) == if r.Err? then Err(r.error) else Execute(trunc, s, r.value.state)
  {
    InterpretFromAppend(trunc, stmts, s, Value.Number(Zero), st);
  }

  /** Print, Variable and Function statements yield 0.0. */
  lemma StatementsYieldZero(trunc: Num -> nat, stmt: Stmt, st: State)
    requires !stmt.Expression?
    ensures Execute(trunc, stmt, st).Ok? ==> Execute(trunc, stmt, st).value.value == Value.Number(Zero)
  {
  }

  /** A Variable statement binds its name to the initializer's value; nothing else changes. */
  lemma VariableDefines(trunc: Num -> nat, name: Token, initializer: Expr, st: State, other: string)
    requires other != name.lexeme
    ensures var r := Eval(trunc, MaxDepth, initializer, st);
      var x := Execute(trunc, Stmt.Variable(name, initializer), st);
      && (x.Ok? <==> r.Ok?)
      && (r.Ok? ==> Get(x.value.state.environment, name.lexeme) == Some(r.value.value))
      && (r.Ok? ==> Get(x.value.state.environment, other) == Get(r.value.state.environment, other))
  {
    var r := Eval(trunc, MaxDepth, initializer, st);
    if r.Ok? {
      GetDefined(r.value.state.environment, name.lexeme, r.value.value);
      GetOther(r.value.state.environment, name.lexeme, r.value.value, other);
    }
  }

  /** A Function statement binds the name to a Function holding the declaration. */
  lemma FunctionDefines(trunc: Num -> nat, fnc: Fnc, st: State, other: string)
    requires other != fnc.name.lexeme
    ensures var x := Execute(trunc, Stmt.Function(fnc), st);
      && x.Ok?
      && Get(x.value.state.environment, fnc.name.lexeme) == Some(Value.Function(UserFn(fnc)))
      && Get(x.value.state.environment, other) == Get(st.environment, other)
      && x.value.state.plotter == st.plotter
  {
  }

  // ----- expressions -----

  /**
   * Reading a name with no binding binds it to `Unbound(name)` in the current
   * scope, so reading it again gives the same value and changes nothing.
   */
  lemma UnboundAutoBinds(trunc: Num -> nat, fuel: nat, name: Token, st: State)
    requires Get(st.environment, name.lexeme) == None
    ensures var after := st.(environment := Define(st.environment, name.lexeme, Unbound(name.lexeme)));
      && Eval(trunc, fuel, Expr.Variable(name), st) == Ok(Evaluated(Unbound(name.lexeme), after))
      && Eval(trunc, fuel, Expr.Variable(name), after) == Ok(Evaluated(Unbound(name.lexeme), after))
  {
    GetDefined(st.environment, name.lexeme, Unbound(name.lexeme));
  }

  /** Reading a bound name returns its binding and changes nothing. */
  lemma BoundLookup(trunc: Num -> nat, fuel: nat, name: Token, st: State, v: Value)
    requires Get(st.environment, name.lexeme) == Some(v)
    ensures Eval(trunc, fuel, Expr.Variable(name), st) == Ok(Evaluated(v, st))
  {
  }

  /** The left operand is evaluated first; an abort there is the whole result. */
  lemma BinaryLeftFirst(trunc: Num -> nat, fuel: nat, left: Expr, op: Token, right: Expr, st: State)
    ensures var l := Eval(trunc, fuel, left, st);
      l.Err? ==> Eval(trunc, fuel, Binary(left, op, right), st) == Err(l.error)
    ensures var l := Eval(trunc, fuel, left, st);
      l.Ok? && Eval(trunc, fuel, right, l.value.state).Err? ==>
        Eval(trunc, fuel, Binary(left, op, right), st) == Err(Eval(trunc, fuel, right, l.value.state).error)
  {
  }

  /** On two literals the five operators build the matching term; any other operator aborts. */
  lemma BinaryDispatch(trunc: Num -> nat, fuel: nat, x: Num, op: Token, y: Num, st: State)
    ensures var r := Eval(trunc, fuel, Binary(Literal(x), op, Literal(y)), st);
      && (op.kind == Plus ==> r == Ok(Evaluated(Value.Number(Sum(x, y)), st)))
      && (op.kind == Minus ==> r == Ok(Evaluated(Value.Number(Difference(x, y)), st)))
      && (op.kind == Star ==> r == Ok(Evaluated(Value.Number(Product(x, y)), st)))
      && (op.kind == Slash ==> r == Ok(Evaluated(Value.Number(Quotient(x, y)), st)))
      && (op.kind == Caret ==> r == Ok(Evaluated(Value.Number(Power(x, y)), st)))
      && (op.kind !in {Plus, Minus, Star, Slash, Caret} ==> r == Err(UnsupportedOperator(op.kind)))
  {
  }

  /** Unary accepts only Minus. */
  lemma UnaryOnlyMinus(trunc: Num -> nat, fuel: nat, op: Token, right: Expr, st: State)
    ensures var v := Eval(trunc, fuel, right, st);
      v.Ok? ==> (Eval(trunc, fuel, Expr.Unary(op, right), st)
                 == if op.kind == Minus then Then(Negate(v.value.value), v.value.state)
                    else Err(UnsupportedOperator(op.kind)))
  {
  }

  lemma {:induction false} ArgsFromLength(trunc: Num -> nat, fuel: nat, rest: seq<Expr>, acc: seq<Value>, st: State)
    ensures var a := ArgsFrom(trunc, fuel, rest, acc, st);
      a.Ok? ==> |a.value.value| == |acc| + |rest| && a.value.value[..|acc|] == acc
    decreases |rest|
  {
    if rest != [] {
      var r := Eval(trunc, fuel, rest[0], st);
      if r.Ok? {
        ArgsFromLength(trunc, fuel, rest[1..], acc + [r.value.value], r.value.state);
        var a := ArgsFrom(trunc, fuel, rest, acc, st);
        if a.Ok? {
          assert a.value.value[..|acc|] == (a.value.value[..|acc| + 1])[..|acc|];
        }
      }
    }
  }

  /**
   * Arguments are evaluated left to right: the later ones start from the
   * state the earlier ones leave.
   */
  lemma {:induction false} ArgsLeftToRight(trunc: Num -> nat, fuel: nat, first: seq<Expr>, second: seq<Expr>, acc: seq<Value>, st: State)
    ensures var a := ArgsFrom(trunc, fuel, first, acc, st);
      ArgsFrom(trunc, fuel, first + second, acc, st)
        == if a.Err? then Err(a.error) else ArgsFrom(trunc, fuel, second, a.value.value, a.value.state)
    decreases |first|
  {
    if first == [] {
      assert first + second == second;
    } else {
      assert (first + second)[0] == first[0];
      assert (first + second)[1..] == first[1..] + second;
      var r := Eval(trunc, fuel, first[0], st);
      if r.Ok? {
        ArgsLeftToRight(trunc, fuel, first[1..], second, acc + [r.value.value], r.value.state);
      }
    }
  }

  /** A callee that aborts aborts the call before any argument is evaluated. */
  lemma CalleeFirst(trunc: Num -> nat, fuel: nat, callee: Expr, args: seq<Expr>, st: State)
    requires Eval(trunc, fuel, callee, st).Err?
    ensures Eval(trunc, fuel, Call(callee, args), st) == Err(Eval(trunc, fuel, callee, st).error)
  {
  }

  /**
   * A call checks its callee only after all the arguments: an argument's
   * abort wins, then "not a function", then the arity.
   */
  lemma CallChecks(trunc: Num -> nat, fuel: nat, callee: Expr, args: seq<Expr>, st: State)
    requires Eval(trunc, fuel, callee, st).Ok?
    ensures var c := Eval(trunc, fuel, callee, st).value;
      var a := ArgsFrom(trunc, fuel, args, [], c.state);
      var r := Eval(trunc, fuel, Call(callee, args), st);
      && (a.Err? ==> r == Err(a.error))
      && (a.Ok? && !c.value.Function? ==> r == Err(NotAFunction))
      && (a.Ok? && c.value.Function? && |args| != Arity(c.value.callable) ==>
            r == Err(ArityMismatch(Arity(c.value.callable), |args|)))
      && (a.Ok? && c.value.Function? && |args| == Arity(c.value.callable) ==>
            r == Invoke(trunc, fuel, c.value.callable, a.value.value, a.value.state))
  {
    var c := Eval(trunc, fuel, callee, st).value;
    ArgsFromLength(trunc, fuel, args, [], c.state);
  }

  // ----- scopes of user functions -----

  /** `evaluate_inner` hands back the caller's environment and keeps what happened to the plotter. */
  lemma EvalInRestores(trunc: Num -> nat, fuel: nat, e: Expr, env: Env, st: State)
    ensures var inner := Eval(trunc, fuel, e, st.(environment := env));
      var r := EvalIn(trunc, fuel, e, env, st);
      && (r.Ok? <==> inner.Ok?)
      && (r.Ok? ==> (r.value.value == inner.value.value
                   && r.value.state == State(st.environment, inner.value.state.plotter)))
  {
  }

  /**
   * A call of a declared function evaluates the body in a new scope around the
   * caller's environment: each parameter is bound to the argument at its
   * index, a repeated name keeping the later argument, and every other name
   * reads as in the caller.
   */
  lemma UserCallScope(trunc: Num -> nat, fuel: nat, fnc: Fnc, args: seq<Value>, st: State)
    requires 0 < fuel && |fnc.params| <= |args|
    ensures BindFrom(FromEnclosing(st.environment), fnc.params, args, 0).Ok?
    ensures var scope := BindFrom(FromEnclosing(st.environment), fnc.params, args, 0).value;
      && Invoke(trunc, fuel, UserFn(fnc), args, st) == EvalIn(trunc, fuel - 1, fnc.body, scope, st)
      && scope.enclosing == Some(st.environment)
      && (forall k | 0 <= k < |fnc.params| && NotLaterNamed(fnc.params, k + 1, fnc.params[k].lexeme) ::
            Get(scope, fnc.params[k].lexeme) == Some(args[k]))
      && (forall name | NotLaterNamed(fnc.params, 0, name) :: Get(scope, name) == Get(st.environment, name))
  {
    BindFromBinds(FromEnclosing(st.environment), fnc.params, args, 0);
  }

  /** No callable leaves the caller's environment changed: bindings made in a body are dropped. */
  lemma {:induction false} InvokeKeepsEnvironment(trunc: Num -> nat, fuel: nat, c: Callable, args: seq<Value>, st: State)
    ensures var r := Invoke(trunc, fuel, c, args, st);
      r.Ok? ==> r.value.state.environment == st.environment
    decreases fuel, 0, 0
  {
    if c.Plot? && |args| > 0 && args[0].Function? && fuel > 0 {
      PlotKeepsEnvironment(trunc, fuel - 1, args[0].callable, -10, [], st);
    }
  }

  lemma {:induction false} PlotKeepsEnvironment(trunc: Num -> nat, fuel: nat, f: Callable, x: int, points: seq<Point>, st: State)
    requires x <= 10
    ensures var r := PlotFrom(trunc, fuel, f, x, points, st);
      r.Ok? ==> r.value.state.environment == st.environment
    decreases fuel, 0, 10 - x
  {
    if x < 10 {
      InvokeKeepsEnvironment(trunc, fuel, f, [Value.Number(Integer(x))], st);
      var r := Invoke(trunc, fuel, f, [Value.Number(Integer(x))], st);
      if r.Ok? {
        PlotKeepsEnvironment(trunc, fuel, f, x + 1, points + [Point(x, ToF64(r.value.value))], r.value.state);
      }
    }
  }

  // ----- plotting -----

  /** The sampling loop adds one point per x from `x` to 9, in order, after `points`. */
  lemma {:induction false} PlotFromPoints(trunc: Num -> nat, fuel: nat, f: Callable, x: int, points: seq<Point>, st: State)
    requires x <= 10
    ensures var r := PlotFrom(trunc, fuel, f, x, points, st);
      r.Ok? ==>
        && |r.value.value| == |points| + 10 - x
        && r.value.value[..|points|] == points
        && forall j | |points| <= j < |r.value.value| :: r.value.value[j].x == x + (j - |points|)
    decreases 10 - x
  {
    if x < 10 {
      var r := Invoke(trunc, fuel, f, [Value.Number(Integer(x))], st);
      if r.Ok? {
        var more := points + [Point(x, ToF64(r.value.value))];
        PlotFromPoints(trunc, fuel, f, x + 1, more, r.value.state);
        var p := PlotFrom(trunc, fuel, f, x, points, st);
        if p.Ok? {
          assert p.value.value[..|points|] == p.value.value[..|more|][..|points|];
          assert p.value.value[|points|] == more[|points|];
          assert x + 1 + (|points| + 1 - |more|) == x + 1;
        }
      }
    }
  }

  /** The plotter, if present, has kept every earlier list and received possibly more. */
  predicate Extends(before: Option<Sink>, after: Option<Sink>) {
    && (before.None? <==> after.None?)
    && (before.Some? ==> before.value.received <= after.value.received)
  }

  /** Evaluation never installs or removes a plotter and only appends to it. */
  lemma {:induction false} EvalExtends(trunc: Num -> nat, fuel: nat, e: Expr, st: State)
    ensures var r := Eval(trunc, fuel, e, st);
      r.Ok? ==> Extends(st.plotter, r.value.state.plotter)
    decreases fuel, Size(e), 0
  {
    match e
    case Literal(_) =>
    case Variable(_) =>
    case Grouping(inner) =>
      EvalExtends(trunc, fuel, inner, st);
    case Unary(_, right) =>
      EvalExtends(trunc, fuel, right, st);
    case Binary(left, _, right) =>
      EvalExtends(trunc, fuel, left, st);
      var l := Eval(trunc, fuel, left, st);
      if l.Ok? {
        EvalExtends(trunc, fuel, right, l.value.state);
      }
    case Call(callee, args) =>
      EvalExtends(trunc, fuel, callee, st);
      var c := Eval(trunc, fuel, callee, st);
      if c.Ok? {
        ArgsExtends(trunc, fuel, args, [], c.value.state);
        var a := ArgsFrom(trunc, fuel, args, [], c.value.state);
        if a.Ok? && c.value.value.Function? {
          InvokeExtends(trunc, fuel, c.value.value.callable, a.value.value, a.value.state);
        }
      }
  }

  lemma {:induction false} ArgsExtends(trunc: Num -> nat, fuel: nat, rest: seq<Expr>, acc: seq<Value>, st: State)
    ensures var r := ArgsFrom(trunc, fuel, rest, acc, st);
      r.Ok? ==> Extends(st.plotter, r.value.state.plotter)
    decreases fuel, SizeAll(rest), 1
  {
    if rest != [] {
      EvalExtends(trunc, fuel, rest[0], st);
      var r := Eval(trunc, fuel, rest[0], st);
      if r.Ok? {
        ArgsExtends(trunc, fuel, rest[1..], acc + [r.value.value], r.value.state);
      }
    }
  }

  lemma {:induction false} InvokeExtends(trunc: Num -> nat, fuel: nat, c: Callable, args: seq<Value>, st: State)
    ensures var r := Invoke(trunc, fuel, c, args, st);
      r.Ok? ==> Extends(st.plotter, r.value.state.plotter)
    decreases fuel, 0, 0
  {
    match c
    case Pi =>
    case Sin =>
    case Factors =>
    case UserFn(fnc) =>
      if fuel > 0 {
        var scope := BindFrom(FromEnclosing(st.environment), fnc.params, args, 0);
        if scope.Ok? {
          EvalExtends(trunc, fuel - 1, fnc.body, st.(environment := scope.value));
        }
      }
    case Plot =>
      if |args| > 0 && args[0].Function? && fuel > 0 {
        PlotExtends(trunc, fuel - 1, args[0].callable, -10, [], st);
      }
  }

  lemma {:induction false} PlotExtends(trunc: Num -> nat, fuel: nat, f: Callable, x: int, points: seq<Point>, st: State)
    requires x <= 10
    ensures var r := PlotFrom(trunc, fuel, f, x, points, st);
      r.Ok? ==> Extends(st.plotter, r.value.state.plotter)
    decreases fuel, 0, 10 - x
  {
    if x < 10 {
      InvokeExtends(trunc, fuel, f, [Value.Number(Integer(x))], st);
      var r := Invoke(trunc, fuel, f, [Value.Number(Integer(x))], st);
      if r.Ok? {
        PlotExtends(trunc, fuel, f, x + 1, points + [Point(x, ToF64(r.value.value))], r.value.state);
      }
    }
  }

  /** Twenty points at x = -10 .. 9, in order. */
  predicate SampleRow(points: seq<Point>) {
    |points| == 20 && forall k | 0 <= k < 20 :: points[k].x == k - 10
  }

  /**
   * `plot(f)` yields 0.0 and leaves the environment alone. With no plotter
   * nothing is recorded; with one, its last list is the 20 samples at
   * x = -10 .. 9, in order.
   */
  lemma PlotCall(trunc: Num -> nat, fuel: nat, args: seq<Value>, st: State)
    ensures var r := Invoke(trunc, fuel, Plot, args, st);
      && (|args| == 0 ==> r == Err(MissingArgument(0)))
      && (|args| > 0 && !args[0].Function? ==> r == Err(NotAFunction))
      && (r.Ok? ==>
        && r.value.value == Value.Number(Zero)
        && r.value.state.environment == st.environment
        && (st.plotter.None? ==> r.value.state.plotter.None?)
        && (st.plotter.Some? ==>
              && r.value.state.plotter.Some?
              && var received := r.value.state.plotter.value.received;
              && st.plotter.value.received < received
              && SampleRow(received[|received| - 1])))
  {
    if |args| > 0 && args[0].Function? && fuel > 0 {
      var p := PlotFrom(trunc, fuel - 1, args[0].callable, -10, [], st);
      PlotKeepsEnvironment(trunc, fuel - 1, args[0].callable, -10, [], st);
      PlotExtends(trunc, fuel - 1, args[0].callable, -10, [], st);
      PlotFromPoints(trunc, fuel - 1, args[0].callable, -10, [], st);
    }
  }

  /** The float a built-in yields at `x`; it does not depend on the state. */
  function Sample(trunc: Num -> nat, f: Callable, x: int): Num
    requires f.Pi? || f.Sin? || f.Factors?
  {
    var arg := [Value.Number(Integer(x))];
    match f
    case Pi => ToF64(CallPi(arg))
    case Sin => ToF64(CallSin(arg).value)
    case Factors => ToF64(CallFactors(trunc, arg).value)
  }

  /**
   * Plotting `pi`, `sin` or `factors` changes no state, and each sample is the
   * built-in's value converted to a float: for `factors`, whose values are
   * Lists, every sample is 0.0.
   */
  lemma {:induction false} PlotBuiltin(trunc: Num -> nat, fuel: nat, f: Callable, x: int, points: seq<Point>, st: State)
    requires f.Pi? || f.Sin? || f.Factors?
    requires x <= 10
    ensures var r := PlotFrom(trunc, fuel, f, x, points, st);
      && r.Ok? && r.value.state == st
      && |r.value.value| == |points| + 10 - x
      && r.value.value[..|points|] == points
      && (forall j | |points| <= j < |r.value.value| ::
            r.value.value[j] == Point(x + (j - |points|), Sample(trunc, f, x + (j - |points|))))
      && (f.Factors? ==> forall j | |points| <= j < |r.value.value| :: r.value.value[j].y == Zero)
    decreases 10 - x
  {
    if x < 10 {
      var here := Invoke(trunc, fuel, f, [Value.Number(Integer(x))], st);
      assert here == Ok(Evaluated(here.value.value, st)) && ToF64(here.value.value) == Sample(trunc, f, x);
      var more := points + [Point(x, ToF64(here.value.value))];
      PlotBuiltin(trunc, fuel, f, x + 1, more, st);
      var r := PlotFrom(trunc, fuel, f, x, points, st);
      assert r == PlotFrom(trunc, fuel, f, x + 1, more, st);
      assert r.value.value[..|points|] == r.value.value[..|more|][..|points|];
      assert r.value.value[|points|] == more[|points|];
    }
  }

  /** `plot(plot)` aborts at the first sample: the sample handed to `plot` is not a function. */
  lemma PlotOfPlot(trunc: Num -> nat, fuel: nat, st: State)
    requires fuel > 0
    ensures Invoke(trunc, fuel, Plot, [Value.Function(Plot)], st) == Err(NotAFunction)
  {
    assert PlotFrom(trunc, fuel - 1, Plot, -10, [], st) == Err(NotAFunction);
  }

  /**
   * `plot` calls its function directly with one argument, so the arity check
   * of a call expression is skipped: a declared function with no parameter
   * ignores the sample, and one with two aborts on the missing second argument.
   */
  lemma PlotSkipsArityCheck(trunc: Num -> nat, fuel: nat, fnc: Fnc, x: int, st: State)
    requires 2 <= fuel
    ensures |fnc.params| == 0 ==>
      Invoke(trunc, fuel, UserFn(fnc), [Value.Number(Integer(x))], st)
        == EvalIn(trunc, fuel - 1, fnc.body, FromEnclosing(st.environment), st)
    ensures |fnc.params| == 2 ==>
      Invoke(trunc, fuel, Plot, [Value.Function(UserFn(fnc))], st) == Err(MissingArgument(1))
  {
    if |fnc.params| == 2 {
      var scope := Define(FromEnclosing(st.environment), fnc.params[0].lexeme, Value.Number(Integer(-10)));
      assert BindFrom(scope, fnc.params, [Value.Number(Integer(-10))], 1) == Err(MissingArgument(1));
      assert Invoke(trunc, fuel - 1, UserFn(fnc), [Value.Number(Integer(-10))], st) == Err(MissingArgument(1));
    }
  }

  // ----- the initial state -----

  /** The interpreter starts in the global scope with no plotter; `with_plotter` touches only the plotter. */
  lemma InitialState(st: State, sink: Sink)
    ensures Initial().environment == Global() && Initial().plotter.None?
    ensures WithPlotter(st, sink).environment == st.environment
    ensures WithPlotter(st, sink).plotter == Some(sink)
  {
  }
}

/** Small programs, given as statement lists, and what interpreting them yields. */
module EvaluationExamples {
  import opened Wrappers
  import opened Numbers
  import opened Tokens
  import opened Errors
  import opened Syntax
  import opened Callables
  import opened Values
  import opened Environments
  import opened Functions
  import opened Evaluation

  function Name(s: string): Token {
    Token(Identifier, s, None)
  }

  /** `x = n` then `x`: the second statement reads the first one's binding. */
  lemma DefineThenRead(trunc: Num -> nat, n: Num)
    ensures Interpret(trunc, [Stmt.Variable(Name("x"), Literal(n)), Stmt.Expression(Expr.Variable(Name("x")))], Initial())
         == Ok(Evaluated(Value.Number(n), State(Define(Global(), "x", Value.Number(n)), None)))
  {
    var after := State(Define(Global(), "x", Value.Number(n)), None);
    assert Execute(trunc, Stmt.Variable(Name("x"), Literal(n)), Initial()) == Ok(Evaluated(Value.Number(Zero), after));
    assert Get(after.environment, "x") == Some(Value.Number(n));
    var stmts := [Stmt.Variable(Name("x"), Literal(n)), Stmt.Expression(Expr.Variable(Name("x")))];
    assert stmts[1..] == [stmts[1]] && [stmts[1]][1..] == [];
    assert InterpretFrom(trunc, [stmts[1]], Value.Number(Zero), after) == Ok(Evaluated(Value.Number(n), after));
  }

  /** `y` alone: an unknown name evaluates to `Unbound("y")` and stays bound so. */
  lemma ReadUnknown(trunc: Num -> nat)
    ensures Interpret(trunc, [Stmt.Expression(Expr.Variable(Name("y")))], Initial())
         == Ok(Evaluated(Unbound("y"), State(Define(Global(), "y", Unbound("y")), None)))
  {
    assert Get(Global(), "y") == None;
  }

  /** `f(x) = x` then `f(n)`: the call yields `n`, and the parameter does not leak out. */
  lemma CallIdentity(trunc: Num -> nat, n: Num)
    ensures var f := Fnc(Name("f"), [Name("x")], Expr.Variable(Name("x")));
      Interpret(trunc, [Stmt.Function(f), Stmt.Expression(Call(Expr.Variable(Name("f")), [Literal(n)]))], Initial())
        == Ok(Evaluated(Value.Number(n), State(Define(Global(), "f", Value.Function(UserFn(f))), None)))
  {
    var f := Fnc(Name("f"), [Name("x")], Expr.Variable(Name("x")));
    var st := State(Define(Global(), "f", Value.Function(UserFn(f))), None);
    assert Execute(trunc, Stmt.Function(f), Initial()) == Ok(Evaluated(Value.Number(Zero), st));
    assert Get(st.environment, "f") == Some(Value.Function(UserFn(f)));
    assert Eval(trunc, MaxDepth, Expr.Variable(Name("f")), st) == Ok(Evaluated(Value.Function(UserFn(f)), st));
    assert [Literal(n)][1..] == [] && [] + [Value.Number(n)] == [Value.Number(n)];
    assert ArgsFrom(trunc, MaxDepth, [Literal(n)], [], st) == Ok(Evaluated([Value.Number(n)], st));
    var scope := Define(FromEnclosing(st.environment), "x", Value.Number(n));
    assert BindFrom(FromEnclosing(st.environment), f.params, [Value.Number(n)], 0) == Ok(scope);
    assert Get(scope, "x") == Some(Value.Number(n));
    assert Eval(trunc, MaxDepth - 1, Expr.Variable(Name("x")), st.(environment := scope)) == Ok(Evaluated(Value.Number(n), st.(environment := scope)));
    assert EvalIn(trunc, MaxDepth - 1, f.body, scope, st) == Ok(Evaluated(Value.Number(n), st));
    assert Invoke(trunc, MaxDepth, UserFn(f), [Value.Number(n)], st) == Ok(Evaluated(Value.Number(n), st));
    var call := Call(Expr.Variable(Name("f")), [Literal(n)]);
    assert Eval(trunc, MaxDepth, call, st) == Ok(Evaluated(Value.Number(n), st));
    var stmts := [Stmt.Function(f), Stmt.Expression(call)];
    assert stmts[1..] == [stmts[1]] && [stmts[1]][1..] == [];
    assert InterpretFrom(trunc, [stmts[1]], Value.Number(Zero), st) == Ok(Evaluated(Value.Number(n), st));
  }

  /** `f(x, x) = x` then `f(a, b)`: the later of two same-named parameters wins. */
  lemma RepeatedParameter(trunc: Num -> nat, a: Num, b: Num)
    ensures var f := Fnc(Name("f"), [Name("x"), Name("x")], Expr.Variable(Name("x")));
      var st := State(Define(Global(), "f", Value.Function(UserFn(f))), None);
      Invoke(trunc, MaxDepth, UserFn(f), [Value.Number(a), Value.Number(b)], st) == Ok(Evaluated(Value.Number(b), st))
  {
    var f := Fnc(Name("f"), [Name("x"), Name("x")], Expr.Variable(Name("x")));
    var st := State(Define(Global(), "f", Value.Function(UserFn(f))), None);
    var outer := FromEnclosing(st.environment);
    var scope := Define(Define(outer, "x", Value.Number(a)), "x", Value.Number(b));
    var args := [Value.Number(a), Value.Number(b)];
    assert BindFrom(scope, f.params, args, 2) == Ok(scope);
    assert BindFrom(Define(outer, "x", Value.Number(a)), f.params, args, 1) == Ok(scope);
    assert BindFrom(outer, f.params, args, 0) == Ok(scope);
    assert Get(scope, "x") == Some(Value.Number(b));
  }

  /** `f() = y` then `f()`: the unknown `y` is bound only inside the call's scope. */
  lemma UnknownInsideCall(trunc: Num -> nat)
    ensures var f := Fnc(Name("f"), [], Expr.Variable(Name("y")));
      Interpret(trunc, [Stmt.Function(f), Stmt.Expression(Call(Expr.Variable(Name("f")), []))], Initial())
        == Ok(Evaluated(Unbound("y"), State(Define(Global(), "f", Value.Function(UserFn(f))), None)))
  {
    var f := Fnc(Name("f"), [], Expr.Variable(Name("y")));
    var st := State(Define(Global(), "f", Value.Function(UserFn(f))), None);
    assert Execute(trunc, Stmt.Function(f), Initial()) == Ok(Evaluated(Value.Number(Zero), st));
    assert Get(st.environment, "f") == Some(Value.Function(UserFn(f)));
    assert Eval(trunc, MaxDepth, Expr.Variable(Name("f")), st) == Ok(Evaluated(Value.Function(UserFn(f)), st));
    var scope := FromEnclosing(st.environment);
    assert Get(scope, "y") == None;
    var inner := st.(environment := Define(scope, "y", Unbound("y")));
    assert Eval(trunc, MaxDepth - 1, f.body, st.(environment := scope)) == Ok(Evaluated(Unbound("y"), inner));
    assert Invoke(trunc, MaxDepth, UserFn(f), [], st) == Ok(Evaluated(Unbound("y"), st));
    var call := Call(Expr.Variable(Name("f")), []);
    assert Eval(trunc, MaxDepth, call, st) == Ok(Evaluated(Unbound("y"), st));
    var stmts := [Stmt.Function(f), Stmt.Expression(call)];
    assert stmts[1..] == [stmts[1]] && [stmts[1]][1..] == [];
    assert InterpretFrom(trunc, [stmts[1]], Value.Number(Zero), st) == Ok(Evaluated(Unbound("y"), st));
  }
}
