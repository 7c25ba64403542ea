/**
 * Properties of the parser functions: the precedence ladder, stated as a
 * grammar of tree shapes every parsed expression belongs to, and what
 * declarations are made of.
 */
module ParserProps {
  import opened Wrappers
  import opened Numbers
  import opened Tokens
  import opened Errors
  import opened Syntax
  import opened Parsing

  /** What `primary` builds. */
  predicate PrimaryShape(e: Expr) {
    e.Literal? || e.Variable? || e.Grouping?
  }

  /** What `call` builds: a primary, a call of a call-shaped callee, or an implicit product. */
  predicate CallShape(e: Expr) {
    || PrimaryShape(e)
    || (e.Call? && CallShape(e.callee))
    || (e.Binary? && e.op == StarToken && e.left.Literal?)
  }

  /** What `unary` builds: prefix minus signs over a call. */
  predicate UnaryShape(e: Expr) {
    || (e.Unary? && e.op.kind == Minus && UnaryShape(e.right))
    || CallShape(e)
  }

  /** What `power` builds: a left-leaning chain of `^` whose right operands are primaries. */
  predicate PowerShape(e: Expr) {
    || (e.Binary? && e.op.kind == Caret && PowerShape(e.left) && PrimaryShape(e.right))
    || UnaryShape(e)
  }

  /** What `factor` builds: a left-leaning chain of `*` and `/` over powers. */
  predicate FactorShape(e: Expr) {
    || (e.Binary? && e.op.kind in MultiplicativeOps && FactorShape(e.left) && PowerShape(e.right))
    || PowerShape(e)
  }

  /** What `term` builds: a left-leaning chain of `-` and `+` over factors. */
  predicate TermShape(e: Expr) {
    || (e.Binary? && e.op.kind in AdditiveOps && TermShape(e.left) && FactorShape(e.right))
    || FactorShape(e)
  }

  lemma PrimaryAtShape(toks: seq<Token>, pos: nat)
    requires pos <= |toks|
    ensures PrimaryAt(toks, pos).Ok? ==> PrimaryShape(PrimaryAt(toks, pos).value.value)
  {
  }

  lemma {:induction false} CallRestShape(toks: seq<Token>, pos: nat, expr: Expr)
    requires pos <= |toks| && CallShape(expr)
    ensures CallRest(toks, pos, expr).Ok? ==> CallShape(CallRest(toks, pos, expr).value.value)
    decreases |toks| - pos
  {
    if CheckAt(toks, pos, LeftParen) {
      match ArgumentsAt(toks, pos + 1)
      case Err(_) =>
      case Ok(args) =>
        if CheckAt(toks, args.next, RightParen) {
          if expr.Literal? {
            if |args.value| == 1 {
              CallRestShape(toks, args.next + 1, Binary(expr, StarToken, args.value[0]));
            }
          } else {
            CallRestShape(toks, args.next + 1, Call(expr, args.value));
          }
        }
    }
  }

  lemma CallAtShape(toks: seq<Token>, pos: nat)
    requires pos <= |toks|
    ensures CallAt(toks, pos).Ok? ==> CallShape(CallAt(toks, pos).value.value)
  {
    PrimaryAtShape(toks, pos);
    if PrimaryAt(toks, pos).Ok? {
      var p := PrimaryAt(toks, pos).value;
      CallRestShape(toks, p.next, p.value);
    }
  }

  lemma {:induction false} UnaryAtShape(toks: seq<Token>, pos: nat)
    requires pos <= |toks|
    ensures UnaryAt(toks, pos).Ok? ==> UnaryShape(UnaryAt(toks, pos).value.value)
    decreases |toks| - pos
  {
    if CheckAt(toks, pos, Minus) {
      UnaryAtShape(toks, pos + 1);
    } else {
      CallAtShape(toks, pos);
    }
  }

  lemma {:induction false} PowerRestShape(toks: seq<Token>, pos: nat, left: Expr)
    requires pos <= |toks| && PowerShape(left)
    ensures PowerRest(toks, pos, left).Ok? ==> PowerShape(PowerRest(toks, pos, left).value.value)
    decreases |toks| - pos
  {
    if CheckAt(toks, pos, Caret) {
      PrimaryAtShape(toks, pos + 1);
      match PrimaryAt(toks, pos + 1)
      case Err(_) =>
      case Ok(right) => PowerRestShape(toks, right.next, Binary(left, toks[pos], right.value));
    }
  }

  lemma PowerAtShape(toks: seq<Token>, pos: nat)
    requires pos <= |toks|
    ensures PowerAt(toks, pos).Ok? ==> PowerShape(PowerAt(toks, pos).value.value)
  {
    UnaryAtShape(toks, pos);
    if UnaryAt(toks, pos).Ok? {
      var p := UnaryAt(toks, pos).value;
      PowerRestShape(toks, p.next, p.value);
    }
  }

  lemma {:induction false} FactorRestShape(toks: seq<Token>, pos: nat, left: Expr)
    requires pos <= |toks| && FactorShape(left)
    ensures FactorRest(toks, pos, left).Ok? ==> FactorShape(FactorRest(toks, pos, left).value.value)
    decreases |toks| - pos
  {
    if MatchesAt(toks, pos, MultiplicativeOps) {
      PowerAtShape(toks, pos + 1);
      match PowerAt(toks, pos + 1)
      case Err(_) =>
      case Ok(right) => FactorRestShape(toks, right.next, Binary(left, toks[pos], right.value));
    }
  }

  lemma FactorAtShape(toks: seq<Token>, pos: nat)
    requires pos <= |toks|
    ensures FactorAt(toks, pos).Ok? ==> FactorShape(FactorAt(toks, pos).value.value)
  {
    PowerAtShape(toks, pos);
    if PowerAt(toks, pos).Ok? {
      var p := PowerAt(toks, pos).value;
      FactorRestShape(toks, p.next, p.value);
    }
  }

  lemma {:induction false} TermRestShape(toks: seq<Token>, pos: nat, left: Expr)
    requires pos <= |toks| && TermShape(left)
    ensures TermRest(toks, pos, left).Ok? ==> TermShape(TermRest(toks, pos, left).value.value)
    decreases |toks| - pos
  {
    if MatchesAt(toks, pos, AdditiveOps) {
      FactorAtShape(toks, pos + 1);
      match FactorAt(toks, pos + 1)
      case Err(_) =>
      case Ok(right) => TermRestShape(toks, right.next, Binary(left, toks[pos], right.value));
    }
  }

  /**
   * Every parsed expression has the shape of the precedence ladder: `-`/`+`
   * over `*`/`/` over `^` over prefix minus over calls over primaries, each
   * binary level leaning left, and `^` taking only a primary on its right.
   */
  lemma ExpressionShape(toks: seq<Token>, pos: nat)
    requires pos <= |toks|
    ensures ExpressionAt(toks, pos).Ok? ==> TermShape(ExpressionAt(toks, pos).value.value)
  {
    FactorAtShape(toks, pos);
    if FactorAt(toks, pos).Ok? {
      var p := FactorAt(toks, pos).value;
      TermRestShape(toks, p.next, p.value);
    }
  }

  /** Without parentheses, an addition or subtraction is never the right operand of another one. */
  lemma AdditionLeansLeft(e: Expr)
    requires TermShape(e) && e.Binary? && e.op.kind in AdditiveOps
    ensures !(e.right.Binary? && e.right.op.kind in AdditiveOps)
  {
    if !FactorShape(e) {
      assert FactorShape(e.right);
    }
  }

  /**
   * Without parentheses, a `+` or `-` is never an operand of `*` or `/`; the
   * one exception is the implicit product `3(a + b)`, whose argument list
   * supplied the parentheses.
   */
  lemma ProductsBindTighter(e: Expr)
    requires FactorShape(e) && e.Binary? && e.op.kind in MultiplicativeOps
    ensures !(e.left.Binary? && e.left.op.kind in AdditiveOps)
    ensures e.right.Binary? && e.right.op.kind in AdditiveOps ==> e.op == StarToken && e.left.Literal?
  {
    if !PowerShape(e) {
      FactorNotAdditive(e.left);
    }
  }

  /** A factor is never a bare addition or subtraction. */
  lemma FactorNotAdditive(e: Expr)
    requires FactorShape(e)
    ensures !(e.Binary? && e.op.kind in AdditiveOps)
  {
  }

  /** Prefix minus binds tighter than `^`: the operand of a minus is never a power. */
  lemma {:induction false} MinusBindsTighter(e: Expr)
    requires PowerShape(e) && e.Unary?
    ensures !(e.right.Binary? && e.right.op.kind == Caret)
  {
    assert UnaryShape(e.right);
  }

  /** The parameters are exactly the variable-shaped arguments, in order. */
  lemma {:induction false} VariableParamsConcat(a: seq<Expr>, b: seq<Expr>)
    ensures VariableParams(a + b) == VariableParams(a) + VariableParams(b)
    decreases |b|
  {
    if b == [] {
      assert a + b == a;
    } else {
      assert (a + b)[..|a + b| - 1] == a + b[..|b| - 1];
      VariableParamsConcat(a, b[..|b| - 1]);
    }
  }

  lemma {:induction false} VariableParamsNames(args: seq<Expr>)
    ensures forall p :: p in VariableParams(args) <==> Expr.Variable(p) in args
    ensures |VariableParams(args)| <= |args|
    ensures (forall k | 0 <= k < |args| :: args[k].Variable?) ==> |VariableParams(args)| == |args|
    decreases |args|
  {
    if args != [] {
      var init := args[..|args| - 1];
      VariableParamsNames(init);
      assert args == init + [args[|args| - 1]];
    }
  }

  /**
   * `stmt = initializer` becomes a Variable statement for a bare name, a
   * Function for a call of a name, stays the call itself (dropping the
   * initializer) for a call of anything else, and aborts for everything else.
   */
  lemma DeclareOutcomes(stmt: Stmt, initializer: Expr)
    ensures Declare(stmt, initializer).Ok? <==> stmt.Expression? && (stmt.expr.Variable? || stmt.expr.Call?)
    ensures Declare(stmt, initializer).Err? ==> Declare(stmt, initializer) == Err(DeclarationNotSupported)
    ensures stmt.Expression? && stmt.expr.Variable? ==>
      Declare(stmt, initializer) == Ok(Stmt.Variable(stmt.expr.name, initializer))
    ensures stmt.Expression? && stmt.expr.Call? && stmt.expr.callee.Variable? ==>
      Declare(stmt, initializer) == Ok(Function(Fnc(stmt.expr.callee.name, VariableParams(stmt.expr.args), initializer)))
    ensures stmt.Expression? && stmt.expr.Call? && !stmt.expr.callee.Variable? ==>
      Declare(stmt, initializer) == Ok(stmt)
  {
  }

  /** At the end of input no token kind can be consumed. */
  lemma NothingAtEnd(toks: seq<Token>, pos: nat, k: TokenKind)
    requires AtEnd(toks, pos)
    ensures !CheckAt(toks, pos, k) && !MatchesAt(toks, pos, [k])
  {
  }

  /** Parsing stops at the end of input and otherwise makes progress with each declaration. */
  lemma ParseSteps(toks: seq<Token>, pos: nat, acc: seq<Stmt>)
    requires pos <= |toks|
    ensures AtEnd(toks, pos) ==> ProgramFrom(toks, pos, acc) == Ok(acc)
    ensures !AtEnd(toks, pos) && DeclarationAt(toks, pos).Ok? ==>
      pos < DeclarationAt(toks, pos).value.next &&
      ProgramFrom(toks, pos, acc)
        == ProgramFrom(toks, DeclarationAt(toks, pos).value.next, acc + [DeclarationAt(toks, pos).value.value])
    ensures !AtEnd(toks, pos) && DeclarationAt(toks, pos).Err? ==>
      ProgramFrom(toks, pos, acc) == Err(DeclarationAt(toks, pos).error)
  {
  }
}

module ParserExamples {
  import opened Wrappers
  import opened Numbers
  import opened Tokens
  import opened Errors
  import opened Syntax
  import opened Parsing

  function Num(s: string): Token { Token(TokenKind.Number, s, Some(Decimal(s))) }
  function Name(s: string): Token { Token(Identifier, s, None) }
  function Op(k: TokenKind, s: string): Token { Token(k, s, None) }

  /** A token that ends an expression: none of the binary operators. */
  predicate NoOperator(k: TokenKind) {
    k != Caret && k != Star && k != Slash && k != Minus && k != Plus
  }

  /** A number or a name that no `(` follows is a complete call, unary and (without `^`) power operand. */
  lemma Atom(toks: seq<Token>, pos: nat, atom: Expr)
    requires pos + 1 < |toks| && toks[pos + 1].kind != LeftParen
    requires || (toks[pos].kind == TokenKind.Number && toks[pos].literal.Some? && atom == Literal(toks[pos].literal.value))
             || (toks[pos].kind == Identifier && atom == Expr.Variable(toks[pos]))
    ensures CallAt(toks, pos) == Ok(Parsed(atom, pos + 1))
    ensures UnaryAt(toks, pos) == Ok(Parsed(atom, pos + 1))
    ensures toks[pos + 1].kind != Caret ==> PowerAt(toks, pos) == Ok(Parsed(atom, pos + 1))
    ensures toks[pos + 1].kind != Caret && toks[pos + 1].kind != Star && toks[pos + 1].kind != Slash ==> FactorAt(toks, pos) == Ok(Parsed(atom, pos + 1))
  {
    assert PrimaryAt(toks, pos) == Ok(Parsed(atom, pos + 1));
    assert CallAt(toks, pos) == Ok(Parsed(atom, pos + 1));
  }

  /** A call-level operand that no binary operator follows is a whole expression. */
  lemma Operand(toks: seq<Token>, pos: nat, e: Expr, n: nat)
    requires pos < n < |toks| && !CheckAt(toks, pos, Minus) && CallAt(toks, pos) == Ok(Parsed(e, n))
    requires NoOperator(toks[n].kind)
    ensures ExpressionAt(toks, pos) == Ok(Parsed(e, n))
  {
    assert UnaryAt(toks, pos) == CallAt(toks, pos);
    assert PowerRest(toks, n, e) == Ok(Parsed(e, n));
    assert PowerAt(toks, pos) == Ok(Parsed(e, n));
    assert !MatchesAt(toks, n, MultiplicativeOps);
    assert FactorRest(toks, n, e) == Ok(Parsed(e, n));
    assert FactorAt(toks, pos) == Ok(Parsed(e, n));
    assert !MatchesAt(toks, n, AdditiveOps);
    assert TermRest(toks, n, e) == Ok(Parsed(e, n));
  }

  /** One more round of the `term` loop. */
  lemma TermStep(toks: seq<Token>, pos: nat, left: Expr, right: Expr, n: nat)
    requires pos < |toks| && MatchesAt(toks, pos, AdditiveOps) && FactorAt(toks, pos + 1) == Ok(Parsed(right, n))
    ensures TermRest(toks, pos, left) == TermRest(toks, n, Binary(left, toks[pos], right))
  {
  }

  /** One more round of the `factor` loop. */
  lemma FactorStep(toks: seq<Token>, pos: nat, left: Expr, right: Expr, n: nat)
    requires pos < |toks| && MatchesAt(toks, pos, MultiplicativeOps) && PowerAt(toks, pos + 1) == Ok(Parsed(right, n))
    ensures FactorRest(toks, pos, left) == FactorRest(toks, n, Binary(left, toks[pos], right))
  {
  }

  /** One more round of the `power` loop. */
  lemma PowerStep(toks: seq<Token>, pos: nat, left: Expr, right: Expr, n: nat)
    requires pos < |toks| && CheckAt(toks, pos, Caret) && PrimaryAt(toks, pos + 1) == Ok(Parsed(right, n))
    ensures PowerRest(toks, pos, left) == PowerRest(toks, n, Binary(left, toks[pos], right))
  {
  }

  /** The `power`, `factor` and `term` loops stop at a token that is none of their operators. */
  lemma LoopsStop(toks: seq<Token>, pos: nat, e: Expr)
    requires pos < |toks| && NoOperator(toks[pos].kind)
    ensures PowerRest(toks, pos, e) == Ok(Parsed(e, pos))
    ensures FactorRest(toks, pos, e) == Ok(Parsed(e, pos))
    ensures TermRest(toks, pos, e) == Ok(Parsed(e, pos))
  {
    assert !MatchesAt(toks, pos, MultiplicativeOps);
    assert !MatchesAt(toks, pos, AdditiveOps);
  }

  // The examples below hold for every token list with the tokens listed in
  // their `requires`: the tokens of the text in each comment. That the
  // scanner produces exactly those tokens is not derived here.

  /** The product `3 * 4` inside `2 + 3 * 4`. */
  lemma ProductOperand(t: seq<Token>)
    requires |t| == 6 && t[2] == Num("3") && t[3] == Op(Star, "*") && t[4] == Num("4") && t[5] == EofToken
    ensures FactorAt(t, 2) == Ok(Parsed(Binary(Literal(Decimal("3")), Op(Star, "*"), Literal(Decimal("4"))), 5))
  {
    var three, four := Literal(Decimal("3")), Literal(Decimal("4"));
    Atom(t, 2, three);
    Atom(t, 4, four);
    FactorStep(t, 3, three, four, 5);
    LoopsStop(t, 5, Binary(three, Op(Star, "*"), four));
  }

  /** `2 + 3 * 4` is `2 + (3 * 4)`. */
  lemma ProductBeforeSum(t: seq<Token>)
    requires |t| == 6 && t[0] == Num("2") && t[1] == Op(Plus, "+")
    requires t[2] == Num("3") && t[3] == Op(Star, "*") && t[4] == Num("4") && t[5] == EofToken
    ensures ExpressionAt(t, 0) == Ok(Parsed(Binary(Literal(Decimal("2")), Op(Plus, "+"),
                                                   Binary(Literal(Decimal("3")), Op(Star, "*"), Literal(Decimal("4")))), 5))
  {
    var two := Literal(Decimal("2"));
    var product := Binary(Literal(Decimal("3")), Op(Star, "*"), Literal(Decimal("4")));
    ProductOperand(t);
    Atom(t, 0, two);
    TermStep(t, 1, two, product, 5);
    LoopsStop(t, 5, Binary(two, Op(Plus, "+"), product));
  }

  /** `a - b - c` is `(a - b) - c`. */
  lemma SubtractionLeansLeft(t: seq<Token>)
    requires |t| == 6 && t[0] == Name("a") && t[1] == Op(Minus, "-") && t[2] == Name("b")
    requires t[3] == Op(Minus, "-") && t[4] == Name("c") && t[5] == EofToken
    ensures ExpressionAt(t, 0) == Ok(Parsed(Binary(Binary(Expr.Variable(Name("a")), Op(Minus, "-"), Expr.Variable(Name("b"))),
                                                   Op(Minus, "-"), Expr.Variable(Name("c"))), 5))
  {
    var a, b, c := Expr.Variable(Name("a")), Expr.Variable(Name("b")), Expr.Variable(Name("c"));
    Atom(t, 0, a);
    Atom(t, 2, b);
    Atom(t, 4, c);
    var ab := Binary(a, Op(Minus, "-"), b);
    TermStep(t, 1, a, b, 3);
    TermStep(t, 3, ab, c, 5);
    LoopsStop(t, 5, Binary(ab, Op(Minus, "-"), c));
  }

  /** `2 ^ 3 ^ 2` is `(2 ^ 3) ^ 2`. */
  lemma PowerLeansLeft(t: seq<Token>)
    requires |t| == 6 && t[0] == Num("2") && t[1] == Op(Caret, "^") && t[2] == Num("3")
    requires t[3] == Op(Caret, "^") && t[4] == Num("2") && t[5] == EofToken
    ensures PowerAt(t, 0) == Ok(Parsed(Binary(Binary(Literal(Decimal("2")), Op(Caret, "^"), Literal(Decimal("3"))),
                                              Op(Caret, "^"), Literal(Decimal("2"))), 5))
  {
    var two, three := Literal(Decimal("2")), Literal(Decimal("3"));
    Atom(t, 0, two);
    var left := Binary(two, Op(Caret, "^"), three);
    PowerStep(t, 1, two, three, 3);
    PowerStep(t, 3, left, two, 5);
    LoopsStop(t, 5, Binary(left, Op(Caret, "^"), two));
  }

  /** `-2 ^ 2` is `(-2) ^ 2`. */
  lemma MinusBeforePower(t: seq<Token>)
    requires |t| == 5 && t[0] == Op(Minus, "-") && t[1] == Num("2") && t[2] == Op(Caret, "^")
    requires t[3] == Num("2") && t[4] == EofToken
    ensures PowerAt(t, 0) == Ok(Parsed(Binary(Unary(Op(Minus, "-"), Literal(Decimal("2"))), Op(Caret, "^"),
                                              Literal(Decimal("2"))), 4))
  {
    var two := Literal(Decimal("2"));
    Atom(t, 1, two);
    var negated := Unary(Op(Minus, "-"), two);
    assert UnaryAt(t, 0) == Ok(Parsed(negated, 2));
    assert PowerRest(t, 2, negated) == PowerRest(t, 4, Binary(negated, Op(Caret, "^"), two));
  }

  /** `2 ^ -1` aborts: the right operand of `^` must be a primary. */
  lemma NoMinusAfterCaret(t: seq<Token>)
    requires |t| == 5 && t[0] == Num("2") && t[1] == Op(Caret, "^") && t[2] == Op(Minus, "-")
    requires t[3] == Num("1") && t[4] == EofToken
    ensures ExpressionAt(t, 0) == Err(ExpectedExpression)
  {
    Atom(t, 0, Literal(Decimal("2")));
    assert PrimaryAt(t, 2) == Err(ExpectedExpression);
    assert PowerAt(t, 0) == Err(ExpectedExpression);
    assert FactorAt(t, 0) == Err(ExpectedExpression);
  }

  /** The argument list `4)` of `3(4)`. */
  lemma SingleArgument(t: seq<Token>)
    requires |t| == 5 && t[2] == Num("4") && t[3] == Op(RightParen, ")") && t[4] == EofToken
    ensures ArgumentsAt(t, 2) == Ok(Parsed([Literal(Decimal("4"))], 3))
  {
    var four := Literal(Decimal("4"));
    Atom(t, 2, four);
    Operand(t, 2, four, 3);
    assert [] + [four] == [four];
  }

  /** `3(4)` is the product `3 * 4`, with the synthetic `*` token. */
  lemma ImplicitProduct(t: seq<Token>)
    requires |t| == 5 && t[0] == Num("3") && t[1] == Op(LeftParen, "(") && t[2] == Num("4")
    requires t[3] == Op(RightParen, ")") && t[4] == EofToken
    ensures ExpressionAt(t, 0) == Ok(Parsed(Binary(Literal(Decimal("3")), StarToken, Literal(Decimal("4"))), 4))
  {
    var three, four := Literal(Decimal("3")), Literal(Decimal("4"));
    var product := Binary(three, StarToken, four);
    SingleArgument(t);
    assert CallAt(t, 0) == CallRest(t, 4, product);
    Operand(t, 0, product, 4);
  }

  /** `3()` aborts: an implicit product needs exactly one argument. */
  lemma ImplicitProductWithoutArgument(t: seq<Token>)
    requires |t| == 4 && t[0] == Num("3") && t[1] == Op(LeftParen, "(") && t[2] == Op(RightParen, ")") && t[3] == EofToken
    ensures ExpressionAt(t, 0) == Err(ImplicitProductArity(0))
  {
    assert PrimaryAt(t, 0) == Ok(Parsed(Literal(Decimal("3")), 1));
    assert ArgumentsAt(t, 2) == Ok(Parsed([], 2));
    assert CallAt(t, 0) == Err(ImplicitProductArity(0));
    assert PowerAt(t, 0) == Err(ImplicitProductArity(0));
    assert FactorAt(t, 0) == Err(ImplicitProductArity(0));
  }

  /** The tokens of `f(x, 2) = x`. */
  predicate DeclarationTokens(t: seq<Token>) {
    && |t| == 9 && t[0] == Name("f") && t[1] == Op(LeftParen, "(") && t[2] == Name("x")
    && t[3] == Op(Comma, ",") && t[4] == Num("2") && t[5] == Op(RightParen, ")")
    && t[6] == Op(Equal, "=") && t[7] == Name("x") && t[8] == EofToken
  }

  /** The arguments of `f(x, 2)` are `x` and `2`, in that order. */
  lemma DeclarationArguments(t: seq<Token>)
    requires DeclarationTokens(t)
    ensures ArgumentsAt(t, 2) == Ok(Parsed([Expr.Variable(Name("x")), Literal(Decimal("2"))], 5))
  {
    var x, two := Expr.Variable(Name("x")), Literal(Decimal("2"));
    assert ExpressionAt(t, 4) == Ok(Parsed(two, 5)) by {
      Atom(t, 4, two);
      Operand(t, 4, two, 5);
    }
    assert [x] + [two] == [x, two];
    assert ArgsFrom(t, 4, [x]) == Ok(Parsed([x, two], 5));
    assert ExpressionAt(t, 2) == Ok(Parsed(x, 3)) by {
      Atom(t, 2, x);
      Operand(t, 2, x, 3);
    }
    assert [] + [x] == [x];
    assert ArgsFrom(t, 2, []) == ArgsFrom(t, 4, [x]);
  }

  /** Before `=`, `f(x, 2)` parses as a call of `f`. */
  lemma DeclarationCall(t: seq<Token>)
    requires DeclarationTokens(t)
    ensures ExpressionAt(t, 0) ==
      Ok(Parsed(Expr.Call(Expr.Variable(Name("f")), [Expr.Variable(Name("x")), Literal(Decimal("2"))]), 6))
  {
    var f, x, two := Expr.Variable(Name("f")), Expr.Variable(Name("x")), Literal(Decimal("2"));
    DeclarationArguments(t);
    assert PrimaryAt(t, 0) == Ok(Parsed(f, 1));
    var call := Expr.Call(f, [x, two]);
    assert CallRest(t, 1, f) == CallRest(t, 6, call) == Ok(Parsed(call, 6));
    Operand(t, 0, call, 6);
  }

  /** `f(x, 2) = x` declares `f` with the one parameter `x`: the argument `2` is dropped. */
  lemma FunctionDeclaration(t: seq<Token>)
    requires DeclarationTokens(t)
    ensures DeclarationAt(t, 0) == Ok(Parsed(Function(Fnc(Name("f"), [Name("x")], Expr.Variable(Name("x")))), 8))
  {
    var f, x, two := Expr.Variable(Name("f")), Expr.Variable(Name("x")), Literal(Decimal("2"));
    DeclarationCall(t);
    var call := Expr.Call(f, [x, two]);
    assert StatementAt(t, 0) == Ok(Parsed(Expression(call), 6));
    Atom(t, 7, x);
    Operand(t, 7, x, 8);
    assert [x, two][..1] == [x];
    assert VariableParams([x, two]) == [Name("x")];
  }

  /** `print x = 1` aborts: only an expression statement can be declared. */
  lemma PrintIsNotDeclarable(t: seq<Token>)
    requires |t| == 5 && t[0] == Op(TokenKind.Print, "print") && t[1] == Name("x") && t[2] == Op(Equal, "=")
    requires t[3] == Num("1") && t[4] == EofToken
    ensures DeclarationAt(t, 0) == Err(DeclarationNotSupported)
  {
    var x, one := Expr.Variable(Name("x")), Literal(Decimal("1"));
    assert StatementAt(t, 0) == Ok(Parsed(Stmt.Print(x), 2)) by {
      Atom(t, 1, x);
      Operand(t, 1, x, 2);
    }
    assert ExpressionAt(t, 3) == Ok(Parsed(one, 4)) by {
      Atom(t, 3, one);
      Operand(t, 3, one, 4);
    }
  }
}
