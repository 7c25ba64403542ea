/**
 * The callables. The source's `Callable` trait has exactly five
 * implementations, so the model closes it into a datatype; calling one needs
 * the interpreter and is defined there (`Evaluation.Invoke`).
 */
module Callables {
  import opened Syntax

  datatype Callable =
    | UserFn(declaration: Fnc)   // `functions::Function`, a declared function
    | Pi
    | Sin
    | Factors
    | Plot

  /** The name a callable shows between `<fnc:` and `>`. */
  function Name(c: Callable): string {
    match c
    case UserFn(declaration) => declaration.name.lexeme
    case Pi => "pi"
    case Sin => "sin"
    case Factors => "factors"
    case Plot => "plot"
  }

  /** The callable's `Display`. */
  function Text(c: Callable): string {
    "<fnc:" + Name(c) + ">"
  }

  /** The number of arguments a call must pass. */
  function Arity(c: Callable): nat {
    match c
    case UserFn(declaration) => |declaration.params|
    case Pi => 0
    case Sin | Factors | Plot => 1
  }

  /** A declared function takes one argument per parameter; `pi` none; the others one. */
  lemma Arities(f: Fnc)
    ensures Arity(UserFn(f)) == |f.params|
    ensures Arity(Pi) == 0 && Arity(Sin) == 1 && Arity(Factors) == 1 && Arity(Plot) == 1
  {
  }

  /** The built-ins show as `<fnc:pi>`, `<fnc:sin>`, `<fnc:factors>` and `<fnc:plot>`. */
  lemma BuiltinTexts()
    ensures Text(Pi) == "<fnc:pi>" && Text(Sin) == "<fnc:sin>"
    ensures Text(Factors) == "<fnc:factors>" && Text(Plot) == "<fnc:plot>"
  {
  }
}

/** What the built-ins compute, and how a declared function binds its arguments. */
module Functions {
  import opened Numbers
  import Tokens
  import opened Errors
  import opened Values
  import opened Environments

  /** The divisors of `k` that are at least `d`, ascending. */
  function DivisorsFrom(k: nat, d: nat): (r: seq<nat>)
    requires 1 <= d
    ensures forall j | 0 <= j < |r| :: d <= r[j] <= k && k % r[j] == 0
    ensures forall j | 0 <= j < |r| - 1 :: r[j] < r[j + 1]
    decreases k + 1 - d
  {
    if d > k then []
    else if k % d == 0 then [d] + DivisorsFrom(k, d + 1)
    else DivisorsFrom(k, d + 1)
  }

  /** Every divisor in range is listed. */
  lemma {:induction false} DivisorsFromComplete(k: nat, d: nat, x: nat)
    requires 1 <= d <= x <= k && k % x == 0
    ensures x in DivisorsFrom(k, d)
    decreases x - d
  {
    if d < x {
      DivisorsFromComplete(k, d + 1, x);
    }
  }

  /** `(1..k+1).filter(|x| k % x == 0)`. */
  function Divisors(k: nat): seq<nat> {
    DivisorsFrom(k, 1)
  }

  /** `Divisors(k)` is exactly the divisors of `k` between 1 and `k`, ascending. */
  lemma DivisorsExactly(k: nat)
    ensures forall x :: x in Divisors(k) <==> 1 <= x <= k && k % x == 0
    ensures forall j | 0 <= j < |Divisors(k)| - 1 :: Divisors(k)[j] < Divisors(k)[j + 1]
  {
    forall x | 1 <= x <= k && k % x == 0
      ensures x in Divisors(k)
    {
      DivisorsFromComplete(k, 1, x);
    }
  }

  lemma DivisorsOfTwelve()
    ensures Divisors(12) == [1, 2, 3, 4, 6, 12]
  {
    assert DivisorsFrom(12, 13) == [];
    assert DivisorsFrom(12, 7) == [12];
    assert DivisorsFrom(12, 5) == [6, 12];
    assert DivisorsFrom(12, 3) == [3, 4, 6, 12];
  }

  lemma DivisorsOfZero()
    ensures Divisors(0) == []
  {
  }

  /** Each divisor converted with `as f64`. */
  function AsFloats(ds: seq<nat>): (r: seq<Num>)
    ensures |r| == |ds| && forall j | 0 <= j < |ds| :: r[j] == Integer(ds[j])
  {
    if ds == [] then [] else [Integer(ds[0])] + AsFloats(ds[1..])
  }

  /** `Pi::call`: ignores its arguments. */
  function CallPi(args: seq<Value>): Value {
    Number(PiConstant)
  }

  /** `Sin::call`: reads the first argument, which must be a Number. */
  function CallSin(args: seq<Value>): Result<Value> {
    if |args| == 0 then Err(MissingArgument(0))
    else if args[0].Number? then Ok(Number(SineOf(args[0].n)))
    else Err(NotANumber)
  }

  /** `Factors::call`: the divisors of the first argument truncated to a `u64`. */
  function CallFactors(trunc: Num -> nat, args: seq<Value>): Result<Value> {
    if |args| == 0 then Err(MissingArgument(0))
    else if args[0].Number? then Ok(List(AsFloats(Divisors(Truncate(trunc, args[0].n)))))
    else Err(NotANumber)
  }

  /**
   * `factors(12)` lists the six divisors of twelve, both for the literal `12`
   * and for the integer 12 a plot samples; a non-positive integer has none.
   */
  lemma FactorsExamples(trunc: Num -> nat, i: int)
    requires i <= 0
    ensures CallFactors(trunc, [Number(Decimal("12"))])
         == Ok(List([Integer(1), Integer(2), Integer(3), Integer(4), Integer(6), Integer(12)]))
    ensures CallFactors(trunc, [Number(Integer(12))])
         == Ok(List([Integer(1), Integer(2), Integer(3), Integer(4), Integer(6), Integer(12)]))
    ensures CallFactors(trunc, [Number(Integer(i))]) == Ok(List([]))
  {
    TwelveAsFloats();
    LiteralTwelve(trunc);
    assert Truncate(trunc, Integer(12)) == 12;
    assert Truncate(trunc, Integer(i)) == 0;
  }

  lemma TwelveAsFloats()
    ensures AsFloats(Divisors(12)) == [Integer(1), Integer(2), Integer(3), Integer(4), Integer(6), Integer(12)]
  {
    DivisorsOfTwelve();
    var floats := AsFloats([1, 2, 3, 4, 6, 12]);
    assert floats == [Integer(1), Integer(2), Integer(3), Integer(4), Integer(6), Integer(12)];
  }

  /** The lexeme `12` truncates to twelve. */
  lemma LiteralTwelve(trunc: Num -> nat)
    ensures Truncate(trunc, Decimal("12")) == 12
  {
    assert LeadingDigits("2") == 1 by { assert "2"[1..] == []; }
    assert LeadingDigits("12") == 2 by { assert "12"[1..] == "2"; }
    assert "12"[..2] == "12" && "12"[..1] == "1" && "1"[..0] == [];
    assert DigitsValue("1") == 1;
    assert DigitsValue("12") == 12;
  }

  /**
   * A literal longer than `ExactLexeme` is truncated through `trunc`: its
   * float parse may round it, as `0.99999999999999999` becomes 1.0.
   */
  lemma LongLiteralsUseTrunc(trunc: Num -> nat, text: string)
    requires |text| > ExactLexeme
    ensures CallFactors(trunc, [Number(Decimal(text))]) == Ok(List(AsFloats(Divisors(trunc(Decimal(text))))))
  {
  }

  /** `sin` and `factors` abort on anything but a Number. */
  lemma BuiltinsNeedNumbers(trunc: Num -> nat, v: Value, rest: seq<Value>)
    requires !v.Number?
    ensures CallSin([v] + rest) == Err(NotANumber)
    ensures CallFactors(trunc, [v] + rest) == Err(NotANumber)
  {
  }

  /**
   * The loop of `Function::call` from parameter `i` on: each parameter is
   * defined as the argument at its index, which must exist.
   */
  function BindFrom(env: Env, params: seq<Tokens.Token>, args: seq<Value>, i: nat): Result<Env>
    requires i <= |params|
    decreases |params| - i
  {
    if i == |params| then Ok(env)
    else if i >= |args| then Err(MissingArgument(i))
    else BindFrom(Define(env, params[i].lexeme, args[i]), params, args, i + 1)
  }

  /** No parameter at index `j` or later is named `name`. */
  predicate NotLaterNamed(params: seq<Tokens.Token>, j: int, name: string) {
    forall k | j <= k < |params| && 0 <= k :: params[k].lexeme != name
  }

  /**
   * Binding from `i` on succeeds exactly when there are enough arguments; it
   * touches only the innermost scope, binds each parameter to the argument at
   * its index with the last of repeated names winning, and leaves every other
   * name as it was.
   */
  lemma {:induction false} BindFromBinds(env: Env, params: seq<Tokens.Token>, args: seq<Value>, i: nat)
    requires i <= |params|
    ensures BindFrom(env, params, args, i).Ok? <==> |params| <= |args| || |params| == i
    ensures BindFrom(env, params, args, i).Err? ==> BindFrom(env, params, args, i) == Err(MissingArgument(if i < |args| then |args| else i))
    ensures BindFrom(env, params, args, i).Ok? ==>
      var e := BindFrom(env, params, args, i).value;
      && e.enclosing == env.enclosing
      && (forall k | i <= k < |params| && NotLaterNamed(params, k + 1, params[k].lexeme) ::
            params[k].lexeme in e.values && e.values[params[k].lexeme] == args[k])
      && (forall name | NotLaterNamed(params, i, name) ::
            (name in e.values <==> name in env.values) && (name in env.values ==> e.values[name] == env.values[name]))
    decreases |params| - i
  {
    if i < |params| && i < |args| {
      var next := Define(env, params[i].lexeme, args[i]);
      BindFromBinds(next, params, args, i + 1);
    }
  }
}
