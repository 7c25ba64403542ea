/**
 * The library entry point: `Matika` keeps one interpreter and runs each text
 * through the scanner, the parser and that interpreter.
 */
module Pipeline {
  import opened Wrappers
  import opened Numbers
  import opened Tokens
  import opened Errors
  import opened Syntax
  import opened Values
  import opened Environments
  import Scanning
  import Parsing
  import opened Evaluation
  import opened EvaluationProps
  import opened Interpreting

  /** `eval` on the interpreter state `st`: scan, then parse, then interpret. */
  function Run(trunc: Num -> nat, st: State, txt: string): Result<Evaluated<Value>> {
    var tokens := Scanning.Scan(txt);
    if tokens.Err? then Err(tokens.error)
    else
      var stmts := Parsing.Parse(tokens.value);
      if stmts.Err? then Err(stmts.error)
      else Interpret(trunc, stmts.value, st)
  }

  /** The statements a text parses to, if it scans and parses. */
  function Program(txt: string): Result<seq<Stmt>> {
    var tokens := Scanning.Scan(txt);
    if tokens.Err? then Err(tokens.error) else Parsing.Parse(tokens.value)
  }

  /**
   * A text whose last statement is a Variable statement leaves its name bound
   * to the initializer's value for the next `eval`.
   */
  lemma DefinitionPersists(trunc: Num -> nat, st: State, txt: string,
                           earlier: seq<Stmt>, name: Token, initializer: Expr)
    requires Program(txt) == Ok(earlier + [Stmt.Variable(name, initializer)])
    requires Run(trunc, st, txt).Ok?
    ensures Interpret(trunc, earlier, st).Ok?
    ensures var before := Interpret(trunc, earlier, st).value.state;
      var init := Eval(trunc, MaxDepth, initializer, before);
      && init.Ok?
      && Get(Run(trunc, st, txt).value.state.environment, name.lexeme) == Some(init.value.value)
  {
    InterpretSequence(trunc, earlier, Stmt.Variable(name, initializer), st);
    var before := Interpret(trunc, earlier, st).value.state;
    VariableDefines(trunc, name, initializer, before, name.lexeme + "'");
  }

  class Matika {
    var interpreter: Interpreter

    /** `Matika::new`: a fresh interpreter in the global scope, without a plotter. */
    constructor (trunc: Num -> nat)
      ensures fresh(interpreter)
      ensures interpreter.Snapshot() == Initial() && interpreter.trunc == trunc
    {
      interpreter := new Interpreter(trunc);
    }

    /** `with_plotter`: installs the plotter on the kept interpreter. */
    method WithPlotter(sink: Sink)
      modifies interpreter
      ensures interpreter.Snapshot() == Evaluation.WithPlotter(old(interpreter.Snapshot()), sink)
    {
      interpreter.WithPlotter(sink);
    }

    /**
     * `eval`: the value of the text's last statement. The interpreter is kept,
     * so the next call starts from the state this one leaves.
     */
    method Eval(txt: string) returns (r: Result<Value>)
      modifies interpreter
      ensures Agrees(Run(interpreter.trunc, old(interpreter.Snapshot()), txt), r, interpreter.Snapshot())
    {
      var scanner := new Scanning.Scanner(txt);
      var tokens := scanner.Scan();
      if tokens.Err? {
        return Err(tokens.error);
      }
      var parser := new Parsing.Parser(tokens.value);
      var stmts := parser.Parse();
      if stmts.Err? {
        return Err(stmts.error);
      }
      r := interpreter.Interpret(stmts.value);
    }
  }
}
