/**
 * The recursive-descent parser (parser.rs). The functions ending in `At`
 * say what each parsing method produces from a cursor position `pos` of the
 * token list; the `Rest` functions are the `while` loops that fold further
 * operands into a left operand. The `Parser` class is the source's
 * cursor-driven parser, proved to produce exactly what these functions say.
 *
 * Every function returns the parsed value together with the position after
 * it, or the error the source aborts with.
 */
module Parsing {
  import opened Wrappers
  import opened Numbers
  import opened Tokens
  import opened Errors
  import opened Syntax

  /** A parsed value and the position of the first token after it. */
  datatype Parsed<+T> = Parsed(value: T, next: nat)

  /** `is_end`: past the last token, or on Eof. */
  predicate AtEnd(toks: seq<Token>, pos: nat) {
    pos >= |toks| || toks[pos].kind == Eof
  }

  /** `check`: the token at `pos` has kind `k`, and it is not the end. */
  predicate CheckAt(toks: seq<Token>, pos: nat, k: TokenKind) {
    !AtEnd(toks, pos) && toks[pos].kind == k
  }

  /** `matches`: the token at `pos` has one of the kinds `forms`. */
  predicate MatchesAt(toks: seq<Token>, pos: nat, forms: seq<TokenKind>) {
    !AtEnd(toks, pos) && toks[pos].kind in forms
  }

  const AdditiveOps: seq<TokenKind> := [Minus, Plus]
  const MultiplicativeOps: seq<TokenKind> := [Star, Slash]

  function ExpressionAt(toks: seq<Token>, pos: nat): (r: Result<Parsed<Expr>>)
    requires pos <= |toks|
    ensures r.Ok? ==> pos < r.value.next <= |toks|
    decreases |toks| - pos, 6
  {
    TermAt(toks, pos)
  }

  /** `term`: factors separated by `-` or `+`, folded to the left. */
  function TermAt(toks: seq<Token>, pos: nat): (r: Result<Parsed<Expr>>)
    requires pos <= |toks|
    ensures r.Ok? ==> pos < r.value.next <= |toks|
    decreases |toks| - pos, 5
  {
    match FactorAt(toks, pos)
    case Err(e) => Err(e)
    case Ok(first) => TermRest(toks, first.next, first.value)
  }

  /** The `term` loop with `left` the operand built so far. */
  function TermRest(toks: seq<Token>, pos: nat, left: Expr): (r: Result<Parsed<Expr>>)
    requires pos <= |toks|
    ensures r.Ok? ==> pos <= r.value.next <= |toks|
    decreases |toks| - pos, 0
  {
    if !MatchesAt(toks, pos, AdditiveOps) then Ok(Parsed(left, pos))
    else
      match FactorAt(toks, pos + 1)
      case Err(e) => Err(e)
      case Ok(right) => TermRest(toks, right.next, Binary(left, toks[pos], right.value))
  }

  /** `factor`: powers separated by `*` or `/`, folded to the left. */
  function FactorAt(toks: seq<Token>, pos: nat): (r: Result<Parsed<Expr>>)
    requires pos <= |toks|
    ensures r.Ok? ==> pos < r.value.next <= |toks|
    decreases |toks| - pos, 4
  {
    match PowerAt(toks, pos)
    case Err(e) => Err(e)
    case Ok(first) => FactorRest(toks, first.next, first.value)
  }

  function FactorRest(toks: seq<Token>, pos: nat, left: Expr): (r: Result<Parsed<Expr>>)
    requires pos <= |toks|
    ensures r.Ok? ==> pos <= r.value.next <= |toks|
    decreases |toks| - pos, 0
  {
    if !MatchesAt(toks, pos, MultiplicativeOps) then Ok(Parsed(left, pos))
    else
      match PowerAt(toks, pos + 1)
      case Err(e) => Err(e)
      case Ok(right) => FactorRest(toks, right.next, Binary(left, toks[pos], right.value))
  }

  /** `power`: a unary operand, then `^` and a primary any number of times, folded to the left. */
  function PowerAt(toks: seq<Token>, pos: nat): (r: Result<Parsed<Expr>>)
    requires pos <= |toks|
    ensures r.Ok? ==> pos < r.value.next <= |toks|
    decreases |toks| - pos, 3
  {
    match UnaryAt(toks, pos)
    case Err(e) => Err(e)
    case Ok(first) => PowerRest(toks, first.next, first.value)
  }

  function PowerRest(toks: seq<Token>, pos: nat, left: Expr): (r: Result<Parsed<Expr>>)
    requires pos <= |toks|
    ensures r.Ok? ==> pos <= r.value.next <= |toks|
    decreases |toks| - pos, 0
  {
    if !CheckAt(toks, pos, Caret) then Ok(Parsed(left, pos))
    else
      match PrimaryAt(toks, pos + 1)
      case Err(e) => Err(e)
      case Ok(right) => PowerRest(toks, right.next, Binary(left, toks[pos], right.value))
  }

  /** `unary`: any number of prefix `-`, then a call. */
  function UnaryAt(toks: seq<Token>, pos: nat): (r: Result<Parsed<Expr>>)
    requires pos <= |toks|
    ensures r.Ok? ==> pos < r.value.next <= |toks|
    decreases |toks| - pos, 2
  {
    if CheckAt(toks, pos, Minus) then
      match UnaryAt(toks, pos + 1)
      case Err(e) => Err(e)
      case Ok(right) => Ok(Parsed(Unary(toks[pos], right.value), right.next))
    else CallAt(toks, pos)
  }

  /** `call`: a primary followed by any number of parenthesised argument lists. */
  function CallAt(toks: seq<Token>, pos: nat): (r: Result<Parsed<Expr>>)
    requires pos <= |toks|
    ensures r.Ok? ==> pos < r.value.next <= |toks|
    decreases |toks| - pos, 1
  {
    match PrimaryAt(toks, pos)
    case Err(e) => Err(e)
    case Ok(callee) => CallRest(toks, callee.next, callee.value)
  }

  /**
   * The `call` loop. After a literal, one argument makes an implicit product
   * and any other count aborts; after anything else the list makes a Call.
   */
  function CallRest(toks: seq<Token>, pos: nat, expr: Expr): (r: Result<Parsed<Expr>>)
    requires pos <= |toks|
    ensures r.Ok? ==> pos <= r.value.next <= |toks|
    decreases |toks| - pos, 0
  {
    if !CheckAt(toks, pos, LeftParen) then Ok(Parsed(expr, pos))
    else
      match ArgumentsAt(toks, pos + 1)
      case Err(e) => Err(e)
      case Ok(args) =>
        if !CheckAt(toks, args.next, RightParen) then Err(ExpectedToken(RightParen))
        else if expr.Literal? then
          if |args.value| == 1 then CallRest(toks, args.next + 1, Binary(expr, StarToken, args.value[0]))
          else Err(ImplicitProductArity(|args.value|))
        else CallRest(toks, args.next + 1, Call(expr, args.value))
  }

  /** The argument list after `(`: empty when `)` follows, otherwise comma-separated expressions. */
  function ArgumentsAt(toks: seq<Token>, pos: nat): (r: Result<Parsed<seq<Expr>>>)
    requires pos <= |toks|
    ensures r.Ok? ==> pos <= r.value.next <= |toks|
    decreases |toks| - pos, 8
  {
    if CheckAt(toks, pos, RightParen) then Ok(Parsed([], pos))
    else ArgsFrom(toks, pos, [])
  }

  /** The argument loop, with `acc` the arguments already parsed. */
  function ArgsFrom(toks: seq<Token>, pos: nat, acc: seq<Expr>): (r: Result<Parsed<seq<Expr>>>)
    requires pos <= |toks|
    ensures r.Ok? ==> pos < r.value.next <= |toks|
    decreases |toks| - pos, 7
  {
    match ExpressionAt(toks, pos)
    case Err(e) => Err(e)
    case Ok(arg) =>
      if CheckAt(toks, arg.next, Comma) then ArgsFrom(toks, arg.next + 1, acc + [arg.value])
      else Ok(Parsed(acc + [arg.value], arg.next))
  }

  /** `primary`: a number, a name, or a parenthesised expression. */
  function PrimaryAt(toks: seq<Token>, pos: nat): (r: Result<Parsed<Expr>>)
    requires pos <= |toks|
    ensures r.Ok? ==> pos < r.value.next <= |toks|
    decreases |toks| - pos, 0
  {
    if CheckAt(toks, pos, TokenKind.Number) then
      match toks[pos].literal
      case None => Err(MissingLiteral)
      case Some(n) => Ok(Parsed(Literal(n), pos + 1))
    else if CheckAt(toks, pos, Identifier) then Ok(Parsed(Expr.Variable(toks[pos]), pos + 1))
    else if CheckAt(toks, pos, LeftParen) then
      match ExpressionAt(toks, pos + 1)
      case Err(e) => Err(e)
      case Ok(inner) =>
        if CheckAt(toks, inner.next, RightParen) then Ok(Parsed(Grouping(inner.value), inner.next + 1))
        else Err(ExpectedToken(RightParen))
    else Err(ExpectedExpression)
  }

  /** `statement`: `print` and an expression, or an expression. */
  function StatementAt(toks: seq<Token>, pos: nat): (r: Result<Parsed<Stmt>>)
    requires pos <= |toks|
    ensures r.Ok? ==> pos < r.value.next <= |toks|
  {
    if CheckAt(toks, pos, TokenKind.Print) then
      match ExpressionAt(toks, pos + 1)
      case Err(e) => Err(e)
      case Ok(value) => Ok(Parsed(Stmt.Print(value.value), value.next))
    else
      match ExpressionAt(toks, pos)
      case Err(e) => Err(e)
      case Ok(value) => Ok(Parsed(Expression(value.value), value.next))
  }

  /** The parameters of a function declaration: the names among the arguments, in order. */
  function VariableParams(args: seq<Expr>): seq<Token> {
    if args == [] then []
    else
      var rest := VariableParams(args[..|args| - 1]);
      var last := args[|args| - 1];
      if last.Variable? then rest + [last.name] else rest
  }

  /**
   * What `declaration` makes of `stmt = initializer`: a variable, a function
   * when the statement is a call of a name, the statement unchanged when it is
   * a call of anything else, and an abort otherwise.
   */
  function Declare(stmt: Stmt, initializer: Expr): Result<Stmt> {
    match stmt
    case Expression(Variable(name)) => Ok(Stmt.Variable(name, initializer))
    case Expression(Call(callee, args)) =>
      if callee.Variable? then Ok(Function(Fnc(callee.name, VariableParams(args), initializer)))
      else Ok(stmt)
    case _ => Err(DeclarationNotSupported)
  }

  /** `declaration`: a statement, rewritten by `Declare` when `=` follows it. */
  function DeclarationAt(toks: seq<Token>, pos: nat): (r: Result<Parsed<Stmt>>)
    requires pos <= |toks|
    ensures r.Ok? ==> pos < r.value.next <= |toks|
  {
    match StatementAt(toks, pos)
    case Err(e) => Err(e)
    case Ok(stmt) =>
      if !CheckAt(toks, stmt.next, Equal) then Ok(stmt)
      else
        match ExpressionAt(toks, stmt.next + 1)
        case Err(e) => Err(e)
        case Ok(init) =>
          match Declare(stmt.value, init.value)
          case Err(e) => Err(e)
          case Ok(decl) => Ok(Parsed(decl, init.next))
  }

  /** The `parse` loop: declarations up to the end, appended to `acc`. */
  function ProgramFrom(toks: seq<Token>, pos: nat, acc: seq<Stmt>): (r: Result<seq<Stmt>>)
    requires pos <= |toks|
    ensures r.Ok? ==> |acc| <= |r.value| && r.value[..|acc|] == acc
    decreases |toks| - pos
  {
    if AtEnd(toks, pos) then Ok(acc)
    else
      match DeclarationAt(toks, pos)
      case Err(e) => Err(e)
      case Ok(decl) => ProgramFrom(toks, decl.next, acc + [decl.value])
  }

  /** The statements of a whole token list. */
  function Parse(toks: seq<Token>): Result<seq<Stmt>> {
    ProgramFrom(toks, 0, [])
  }

  /** A method's result and final cursor, in the form the functions above use. */
  function Outcome<T>(r: Result<T>, pos: nat): Result<Parsed<T>> {
    match r
    case Ok(v) => Ok(Parsed(v, pos))
    case Err(e) => Err(e)
  }

  /** One round of the `call` loop, once `(`, the arguments and `)` have been read. */
  lemma CallStep(toks: seq<Token>, pos: nat, expr: Expr, args: seq<Expr>, next: nat)
    requires pos < |toks| && CheckAt(toks, pos, LeftParen)
    requires ArgumentsAt(toks, pos + 1) == Ok(Parsed(args, next))
    requires CheckAt(toks, next, RightParen)
    ensures next < |toks|
    ensures CallRest(toks, pos, expr) ==
      if !expr.Literal? then CallRest(toks, next + 1, Call(expr, args))
      else if |args| == 1 then CallRest(toks, next + 1, Binary(expr, StarToken, args[0]))
      else Err(ImplicitProductArity(|args|))
  {
  }

  /** `matches` with a single kind is `check`. */
  lemma MatchesSingle(toks: seq<Token>, pos: nat, k: TokenKind)
    ensures MatchesAt(toks, pos, [k]) == CheckAt(toks, pos, k)
  {
  }

  class Parser {
    const tokens: seq<Token>
    var current: nat

    ghost predicate Valid()
      reads this
    {
      current <= |tokens|
    }

    constructor (tokens: seq<Token>)
      ensures Valid() && this.tokens == tokens && current == 0
    {
      this.tokens := tokens;
      current := 0;
    }

    /** Parses declarations until the end of the input. */
    method Parse() returns (r: Result<seq<Stmt>>)
      requires Valid()
      modifies this`current
      ensures Valid() && r == ProgramFrom(tokens, old(current), [])
    {
      var statements: seq<Stmt> := [];
      while !IsEnd()
        invariant Valid()
        invariant ProgramFrom(tokens, current, statements) == ProgramFrom(tokens, old(current), [])
        decreases |tokens| - current
      {
        var decl := Declaration();
        if decl.Err? {
          return Err(decl.error);
        }
        statements := statements + [decl.value];
      }
      return Ok(statements);
    }

    method Declaration() returns (r: Result<Stmt>)
      requires Valid()
      modifies this`current
      ensures Valid() && DeclarationAt(tokens, old(current)) == Outcome(r, current)
    {
      var stmt := Statement();
      if stmt.Err? {
        return stmt;
      }
      var equal := Matches([Equal]);
      if equal.Some? {
        var initializer := Expression();
        if initializer.Err? {
          return Err(initializer.error);
        }
        match stmt.value
        case Expression(Variable(name)) =>
          return Ok(Stmt.Variable(name, initializer.value));
        case Expression(Call(callee, args)) =>
          var params: seq<Token> := [];
          for i := 0 to |args|
            invariant params == VariableParams(args[..i])
          {
            assert args[..i + 1][..i] == args[..i];
            if args[i].Variable? {
              params := params + [args[i].name];
            }
          }
          assert args[..|args|] == args;
          if callee.Variable? {
            return Ok(Function(Fnc(callee.name, params, initializer.value)));
          }
        case _ =>
          return Err(DeclarationNotSupported);
      }
      return stmt;
    }

    method Statement() returns (r: Result<Stmt>)
      requires Valid()
      modifies this`current
      ensures Valid() && StatementAt(tokens, old(current)) == Outcome(r, current)
    {
      var keyword := Matches([TokenKind.Print]);
      if keyword.Some? {
        r := PrintStatement();
        return;
      }
      var value := Expression();
      if value.Err? {
        return Err(value.error);
      }
      return Ok(Stmt.Expression(value.value));
    }

    method PrintStatement() returns (r: Result<Stmt>)
      requires Valid()
      modifies this`current
      ensures Valid()
      ensures r == match ExpressionAt(tokens, old(current))
        case Ok(value) => Ok(Stmt.Print(value.value))
        case Err(e) => Err(e)
      ensures r.Ok? ==> current == ExpressionAt(tokens, old(current)).value.next
    {
      var value := Expression();
      if value.Err? {
        return Err(value.error);
      }
      return Ok(Stmt.Print(value.value));
    }

    method Expression() returns (r: Result<Expr>)
      requires Valid()
      modifies this`current
      ensures Valid() && ExpressionAt(tokens, old(current)) == Outcome(r, current)
      decreases |tokens| - current, 6
    {
      r := Term();
    }

    method Term() returns (r: Result<Expr>)
      requires Valid()
      modifies this`current
      ensures Valid() && TermAt(tokens, old(current)) == Outcome(r, current)
      decreases |tokens| - current, 5
    {
      var first := Factor();
      if first.Err? {
        return first;
      }
      var expr := first.value;
      assert TermAt(tokens, old(current)) == TermRest(tokens, current, expr);
      while true
        invariant Valid() && old(current) < current
        invariant TermAt(tokens, old(current)) == TermRest(tokens, current, expr)
        decreases |tokens| - current
      {
        var op := Matches(AdditiveOps);
        if op.None? {
          break;
        }
        var right := Factor();
        if right.Err? {
          return right;
        }
        expr := Binary(expr, op.value, right.value);
      }
      return Ok(expr);
    }

    method Factor() returns (r: Result<Expr>)
      requires Valid()
      modifies this`current
      ensures Valid() && FactorAt(tokens, old(current)) == Outcome(r, current)
      decreases |tokens| - current, 4
    {
      var first := Power();
      if first.Err? {
        return first;
      }
      var expr := first.value;
      assert FactorAt(tokens, old(current)) == FactorRest(tokens, current, expr);
      while true
        invariant Valid() && old(current) < current
        invariant FactorAt(tokens, old(current)) == FactorRest(tokens, current, expr)
        decreases |tokens| - current
      {
        var op := Matches(MultiplicativeOps);
        if op.None? {
          break;
        }
        var right := Power();
        if right.Err? {
          return right;
        }
        expr := Binary(expr, op.value, right.value);
      }
      return Ok(expr);
    }

    method Power() returns (r: Result<Expr>)
      requires Valid()
      modifies this`current
      ensures Valid() && PowerAt(tokens, old(current)) == Outcome(r, current)
      decreases |tokens| - current, 3
    {
      var first := Unary();
      if first.Err? {
        return first;
      }
      var expr := first.value;
      assert PowerAt(tokens, old(current)) == PowerRest(tokens, current, expr);
      while true
        invariant Valid() && old(current) < current
        invariant PowerAt(tokens, old(current)) == PowerRest(tokens, current, expr)
        decreases |tokens| - current
      {
        var op := Matches([Caret]);
        if op.None? {
          break;
        }
        var right := Primary();
        if right.Err? {
          return right;
        }
        expr := Binary(expr, op.value, right.value);
      }
      return Ok(expr);
    }

    method Unary() returns (r: Result<Expr>)
      requires Valid()
      modifies this`current
      ensures Valid() && UnaryAt(tokens, old(current)) == Outcome(r, current)
      decreases |tokens| - current, 2
    {
      var op := Matches([Minus]);
      if op.Some? {
        var right := Unary();
        if right.Err? {
          return right;
        }
        return Ok(Expr.Unary(op.value, right.value));
      }
      r := Call();
    }

    method Call() returns (r: Result<Expr>)
      requires Valid()
      modifies this`current
      ensures Valid() && CallAt(tokens, old(current)) == Outcome(r, current)
      decreases |tokens| - current, 1
    {
      var first := Primary();
      if first.Err? {
        return first;
      }
      r := CallSuffix(first.value);
    }

    /** The `call` loop after the callee: argument lists in parentheses, as long as they follow. */
    method CallSuffix(callee: Expr) returns (r: Result<Expr>)
      requires Valid()
      modifies this`current
      ensures Valid() && CallRest(tokens, old(current), callee) == Outcome(r, current)
      decreases |tokens| - current, 0
    {
      var expr := callee;
      while true
        invariant Valid() && old(current) <= current
        invariant CallRest(tokens, old(current), callee) == CallRest(tokens, current, expr)
        decreases |tokens| - current
      {
        ghost var before := current;
        var open := Matches([LeftParen]);
        MatchesSingle(tokens, before, LeftParen);
        if open.None? {
          assert CallRest(tokens, current, expr) == Ok(Parsed(expr, current));
          break;
        }
        var args := Arguments();
        if args.Err? {
          assert CallRest(tokens, before, expr) == Err(args.error);
          return Err(args.error);
        }
        ghost var closing := current;
        assert ArgumentsAt(tokens, before + 1) == Ok(Parsed(args.value, closing));
        var close := Consume(RightParen);
        if close.Err? {
          assert CallRest(tokens, before, expr) == Err(close.error);
          return Err(close.error);
        }
        CallStep(tokens, before, expr, args.value, closing);
        if expr.Literal? {
          if |args.value| != 1 {
            return Err(ImplicitProductArity(|args.value|));
          }
          expr := Binary(expr, StarToken, args.value[0]);
        } else {
          expr := Expr.Call(expr, args.value);
        }
      }
      return Ok(expr);
    }

    /** The argument list of a call, up to but not including its `)`. */
    method Arguments() returns (r: Result<seq<Expr>>)
      requires Valid()
      modifies this`current
      ensures Valid() && ArgumentsAt(tokens, old(current)) == Outcome(r, current)
      decreases |tokens| - current, 8
    {
      var args: seq<Expr> := [];
      if !Check(RightParen) {
        while true
          invariant Valid() && old(current) <= current
          invariant ArgumentsAt(tokens, old(current)) == ArgsFrom(tokens, current, args)
          decreases |tokens| - current
        {
          var arg := Expression();
          if arg.Err? {
            return Err(arg.error);
          }
          args := args + [arg.value];
          var comma := Matches([Comma]);
          if comma.None? {
            break;
          }
        }
      }
      return Ok(args);
    }

    method Primary() returns (r: Result<Expr>)
      requires Valid()
      modifies this`current
      ensures Valid() && PrimaryAt(tokens, old(current)) == Outcome(r, current)
      decreases |tokens| - current, 0
    {
      var num := Matches([TokenKind.Number]);
      if num.Some? {
        match num.value.literal
        case None => return Err(MissingLiteral);
        case Some(n) => return Ok(Literal(n));
      }
      var name := Matches([Identifier]);
      if name.Some? {
        return Ok(Expr.Variable(name.value));
      }
      var open := Matches([LeftParen]);
      if open.Some? {
        var inner := Expression();
        if inner.Err? {
          return inner;
        }
        var close := Consume(RightParen);
        if close.Err? {
          return Err(close.error);
        }
        return Ok(Grouping(inner.value));
      }
      return Err(ExpectedExpression);
    }

    /** Consumes a token of kind `kind`, or aborts; at the end it always aborts. */
    method Consume(kind: TokenKind) returns (r: Result<Token>)
      requires Valid()
      modifies this`current
      ensures Valid()
      ensures r.Ok? <==> CheckAt(tokens, old(current), kind)
      ensures r.Ok? ==> r.value == tokens[old(current)] && current == old(current) + 1
      ensures r.Err? ==> r == Err(ExpectedToken(kind)) && current == old(current)
    {
      if Check(kind) {
        r := Advance();
      } else {
        r := Err(ExpectedToken(kind));
      }
    }

    /** Consumes and returns the current token when its kind is one of `forms`. */
    method Matches(forms: seq<TokenKind>) returns (r: Option<Token>)
      requires Valid()
      modifies this`current
      ensures Valid()
      ensures r == if MatchesAt(tokens, old(current), forms) then Some(tokens[old(current)]) else None
      ensures current == if r.Some? then old(current) + 1 else old(current)
    {
      for i := 0 to |forms|
        invariant current == old(current)
        invariant forall j | 0 <= j < i :: !CheckAt(tokens, current, forms[j])
      {
        if Check(forms[i]) {
          var token := Advance();
          return Some(token.value);
        }
      }
      return None;
    }

    predicate Check(kind: TokenKind)
      reads this
    {
      CheckAt(tokens, current, kind)
    }

    /** Moves past the current token unless at the end, and returns the token before the cursor. */
    method Advance() returns (r: Result<Token>)
      requires Valid()
      modifies this`current
      ensures Valid()
      ensures current == if AtEnd(tokens, old(current)) then old(current) else old(current) + 1
      ensures r == Previous()
    {
      if !IsEnd() {
        current := current + 1;
      }
      r := Previous();
    }

    function Peek(): Option<Token>
      reads this
    {
      if current < |tokens| then Some(tokens[current]) else None
    }

    /** `previous`: the token before the cursor; there is none at position 0. */
    function Previous(): (r: Result<Token>)
      reads this
      ensures r.Ok? <==> 0 < current <= |tokens|
    {
      if 0 < current <= |tokens| then Ok(tokens[current - 1]) else Err(NoPreviousToken)
    }

    predicate IsEnd()
      reads this
      ensures IsEnd() <==> AtEnd(tokens, current)
    {
      match Peek()
      case Some(token) => token.kind == Eof
      case None => true
    }
  }
}
