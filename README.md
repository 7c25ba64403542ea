# matika interpreter, modelled in Dafny

This project models the language pipeline of the `matika-interpreter` crate:

1. The scanner turns source text into tokens.
2. The recursive-descent parser turns those tokens into statements.
3. The tree-walking interpreter evaluates the statements against a chain of scopes.
4. The `Matika` front end keeps one interpreter across calls to `eval`.

Each stage is written in the source's own form.

- **Scanner, parser, interpreter and `Matika`** are classes. Their fields change in place:
  - `start`, `current`, `line` and `tokens` for the scanner;
  - the `current` cursor for the parser;
  - `environment` and `plotter` for the interpreter;
  - the kept interpreter for `Matika`.
- **Loops stay loops.** Every loop of the source is a `while` or `for` loop with invariants.
- **Each method is proved against a specification function of the old state.** Examples are `ScanFrom`, `ExpressionAt`, `Eval` and `Interpret`. The source's promises are then proved as lemmas about those functions.
- **Environments, values and callables are datatypes.** The source clones them by value. `define` is the insert written as the new value that the interpreter assigns back to its field.

Every `panic!()` of the source is an `Err` of `Errors.Error`.

Floats are kept symbolic (`Numbers.Num`): an operation builds a term rather than rounding. So `2+3` evaluates to `Sum(Decimal("2"), Decimal("3"))`.

Modules:

| module | file | models |
|---|---|---|
| Tokens, Syntax | token.dfy, syntax.dfy | `Token`/`TokenKind`, `Expr`, `Stmt`/`Fnc` |
| Scanning | scanner.dfy | `Scanner`; lexing spec `ScanTokenAt`/`ScanFrom`/`Scan` |
| ScannerProps, ScannerLines | scanner_props.dfy | per-token facts; line-by-line scanning |
| Parsing | parser.dfy | `Parser`; parsing spec `ExpressionAt` … `ProgramFrom` |
| ParserProps, ParserExamples | parser_props.dfy | precedence shapes, declarations, worked parses |
| Values | value.dfy | `Value`, its operators, `f64` conversion, `Display` |
| Environments | environment.dfy | `Environment` |
| Callables, Functions | functions.dfy | the five callables, their arities and texts, `factors`, parameter binding |
| Evaluation | evaluation.dfy | evaluation spec: `Eval`, `Invoke`, `PlotFrom`, `Execute`, `Interpret` |
| Interpreting | interpreter.dfy | `Interpreter` class |
| EvaluationProps, EvaluationExamples | interpreter_props.dfy | evaluation properties and small programs |
| Pipeline | lib.dfy | `Matika` |

## Model

| member | source | states |
|---|---|---|
| Scanning.Scan | libs/matika-interpreter/src/scanner.rs:30-39 | The token list of a successful scan ends with exactly one Eof token, and no earlier token is Eof. |
| Scanning.ScanFrom | libs/matika-interpreter/src/scanner.rs:30-35 | The scanning loop keeps the tokens it was given as a prefix and never appends an Eof token. |
| Scanning.ScanTokenAt | libs/matika-interpreter/src/scanner.rs:41-96 | A successful step consumes at least one character and stays within the text. |
| Scanning.DigitRunEnd | libs/matika-interpreter/src/scanner.rs:127-129 | The digit-skipping loop stops inside the text, at a character that is not a digit. |
| Scanning.DigitRunDigits | libs/matika-interpreter/src/scanner.rs:127-129 | Every character the digit loop skips is a digit. |
| Scanning.WordEnd | libs/matika-interpreter/src/scanner.rs:111-113 | The identifier loop stops at a character that is not a letter, digit or `_`. |
| Scanning.WordEndChars | libs/matika-interpreter/src/scanner.rs:111-113 | Every character the identifier loop skips is a letter, digit or `_`. |
| Scanning.LineEnd | libs/matika-interpreter/src/scanner.rs:75-77 | The comment loop stops at a line break or at the end of the text. |
| Scanning.LineEndChars | libs/matika-interpreter/src/scanner.rs:75-77 | The comment loop skips no line break. |
| Scanning.NumberEnd | libs/matika-interpreter/src/scanner.rs:126-137 | A number lexeme is at least one character long and lies within the text. |
| Scanning.NumberChars | libs/matika-interpreter/src/scanner.rs:126-137 | A number lexeme consists of digits and `.` only. |
| Scanning.ScanTokenAtNoNewline | libs/matika-interpreter/src/scanner.rs:41-96 | After its first character, a step consumes no line break. |
| Scanning.NewlinesStep | libs/matika-interpreter/src/scanner.rs:87 | The line count grows by one exactly for a consumed `\n`. |
| Scanning.ScanTokenAtNoEof | libs/matika-interpreter/src/scanner.rs:41-96 | No step emits an Eof token. |
| Scanning.Scanner.constructor | libs/matika-interpreter/src/scanner.rs:15-28 | A new scanner starts at position 0 on line 1 with no tokens. |
| Scanning.Scanner.Scan | libs/matika-interpreter/src/scanner.rs:30-39 | The result equals `Scan` of the remaining text after the existing tokens. On success the token field holds the result, and `line` has grown by the number of line breaks consumed. |
| Scanning.Scanner.ScanToken | libs/matika-interpreter/src/scanner.rs:41-96 | The method leaves exactly the tokens and the position that `ScanTokenAt` describes. It adds one to `line` for `\n` and aborts with UnexpectedCharacter for anything else unhandled. |
| Scanning.Scanner.Comparison | libs/matika-interpreter/src/scanner.rs:55-72 | `<` or `>` takes a following `=` into a single token. |
| Scanning.Scanner.SlashOrComment | libs/matika-interpreter/src/scanner.rs:73-81 | `//` skips to the line break and emits nothing; a lone `/` adds a Slash token. |
| Scanning.Scanner.Number | libs/matika-interpreter/src/scanner.rs:126-153 | Adds the number token and, when a letter or `_` follows, the synthetic `*`, exactly as `NumberTokens` describes. |
| Scanning.Scanner.SkipDigits | libs/matika-interpreter/src/scanner.rs:127-129 | Moves the cursor to the end of the digit run. |
| Scanning.Scanner.Identifier | libs/matika-interpreter/src/scanner.rs:110-124 | Adds one word token for the maximal run of letters, digits and `_`. |
| Scanning.Scanner.Matches | libs/matika-interpreter/src/scanner.rs:177-193 | Consumes the next character exactly when it is the expected one. |
| Scanning.Scanner.AddToken | libs/matika-interpreter/src/scanner.rs:195-205 | Appends one token whose lexeme is the text from `start` to `current`. |
| Scanning.Scanner.Advance | libs/matika-interpreter/src/scanner.rs:207-210 | Moves the cursor by one and returns the character it passed, if any. |
| ScannerProps.StepLexemes | libs/matika-interpreter/src/scanner.rs:41-96 | A step emits at most two tokens, and the first token's lexeme is the consumed text. Two tokens mean a number followed by the synthetic `*` before a letter or `_`. No token is emitted exactly for a blank or a comment. |
| ScannerProps.StepLiterals | libs/matika-interpreter/src/scanner.rs:139-142 | Only number tokens carry a literal, and that literal is the number's own text. |
| ScannerProps.Comparisons | libs/matika-interpreter/src/scanner.rs:55-72 | `<=` and `>=` are one token with a two-character lexeme; `<` and `>` alone are Less and Greater. |
| ScannerProps.Comments | libs/matika-interpreter/src/scanner.rs:73-81 | `//` discards up to, but not including, the next line break and emits no token; a lone `/` emits Slash. |
| ScannerProps.Blanks | libs/matika-interpreter/src/scanner.rs:83-87 | A space, `\r`, `\t` or `\n` emits nothing and moves on one character. |
| ScannerProps.NumberLexeme | libs/matika-interpreter/src/scanner.rs:126-137 | A number is a maximal digit run. It takes a `.` and a second maximal run only when a digit follows the `.`. |
| ScannerProps.Words | libs/matika-interpreter/src/scanner.rs:102-124 | An identifier is a letter or `_` followed by a maximal alphanumeric run. Exactly `print` is the Print keyword; every other word is an Identifier. |
| ScannerProps.Unexpected | libs/matika-interpreter/src/scanner.rs:93 | Any other character aborts the whole scan with UnexpectedCharacter. |
| ScannerLines.ScanLines | libs/matika-interpreter/src/scanner.rs:30-35 | Scanning `a`, a line break and `b` gives the tokens of `a` followed by those of `b`. |
| ScannerLines.ScanFromPrefix | libs/matika-interpreter/src/scanner.rs:30-35 | Scanning a text that starts with `a` and a line break first produces exactly the tokens of `a`. |
| ScannerLines.ScanFromShift | libs/matika-interpreter/src/scanner.rs:30-35 | Scanning the tail `b` inside a longer text gives the same tokens as scanning `b` alone. |
| Parsing.ExpressionAt | libs/matika-interpreter/src/parser.rs:72-74 | A parsed expression consumes at least one token. |
| Parsing.TermAt | libs/matika-interpreter/src/parser.rs:76-90 | A parsed term consumes at least one token. |
| Parsing.FactorAt | libs/matika-interpreter/src/parser.rs:92-106 | A parsed factor consumes at least one token. |
| Parsing.PowerAt | libs/matika-interpreter/src/parser.rs:108-122 | A parsed power consumes at least one token. |
| Parsing.UnaryAt | libs/matika-interpreter/src/parser.rs:124-135 | A parsed unary consumes at least one token. |
| Parsing.CallAt | libs/matika-interpreter/src/parser.rs:137-178 | A parsed call consumes at least one token. |
| Parsing.PrimaryAt | libs/matika-interpreter/src/parser.rs:180-198 | A parsed primary consumes at least one token; with no operand, `primary` aborts. |
| Parsing.StatementAt | libs/matika-interpreter/src/parser.rs:58-70 | A parsed statement consumes at least one token. |
| Parsing.DeclarationAt | libs/matika-interpreter/src/parser.rs:23-56 | A successful declaration consumes at least one token. |
| Parsing.ProgramFrom | libs/matika-interpreter/src/parser.rs:13-21 | The statement loop keeps the statements already parsed as a prefix. |
| Parsing.Parse | libs/matika-interpreter/src/parser.rs:13-21 | The declarations from the first token to the end. `ParserProps.ParseSteps` states each round of the loop, and `Parser.Parse` is proved to return the same. |
| Parsing.Declare | libs/matika-interpreter/src/parser.rs:26-53 | The rewrite after `=`. `ParserProps.DeclareOutcomes` states its four outcomes: Variable, Function, the fall-through for a call whose callee is not a name, and the abort. |
| Parsing.ArgumentsAt | libs/matika-interpreter/src/parser.rs:143-151 | A successful argument list ends within the tokens. `Parser.Arguments` is proved to leave its result and cursor, and `ParserExamples.DeclarationArguments` shows the source order. |
| Parsing.CallRest | libs/matika-interpreter/src/parser.rs:140-175 | A successful call loop ends within the tokens. `ParserProps.CallRestShape` states that it builds only calls and literal products, and `Parser.CallSuffix` is proved to leave its result and cursor. |
| Parsing.Parser.constructor | libs/matika-interpreter/src/parser.rs:9-11 | A new parser starts at the first token. |
| Parsing.Parser.Parse | libs/matika-interpreter/src/parser.rs:13-21 | The statements are those that `ProgramFrom` describes from the cursor. |
| Parsing.Parser.Declaration | libs/matika-interpreter/src/parser.rs:23-56 | The result and the new cursor are those of `DeclarationAt`. |
| Parsing.Parser.Statement | libs/matika-interpreter/src/parser.rs:58-64 | The result and the new cursor are those of `StatementAt`. |
| Parsing.Parser.PrintStatement | libs/matika-interpreter/src/parser.rs:66-70 | A print statement wraps the following expression. |
| Parsing.Parser.Expression | libs/matika-interpreter/src/parser.rs:72-74 | The result and the new cursor are those of `ExpressionAt`. |
| Parsing.Parser.Term | libs/matika-interpreter/src/parser.rs:76-90 | The folding loop leaves the result and cursor of `TermAt`. |
| Parsing.Parser.Factor | libs/matika-interpreter/src/parser.rs:92-106 | The folding loop leaves the result and cursor of `FactorAt`. |
| Parsing.Parser.Power | libs/matika-interpreter/src/parser.rs:108-122 | The folding loop leaves the result and cursor of `PowerAt`. |
| Parsing.Parser.Unary | libs/matika-interpreter/src/parser.rs:124-135 | The result and the new cursor are those of `UnaryAt`. |
| Parsing.Parser.Call | libs/matika-interpreter/src/parser.rs:137-178 | A primary followed by its argument lists leaves the result and cursor of `CallAt`. |
| Parsing.Parser.CallSuffix | libs/matika-interpreter/src/parser.rs:140-175 | The call loop leaves the result and cursor of `CallRest`, including the implicit-product rewrite and its abort when a literal gets other than one argument. |
| Parsing.Parser.Arguments | libs/matika-interpreter/src/parser.rs:141-153 | The argument loop leaves the arguments and cursor of `ArgumentsAt`. |
| Parsing.Parser.Primary | libs/matika-interpreter/src/parser.rs:180-198 | The result and the new cursor are those of `PrimaryAt`. |
| Parsing.Parser.Consume | libs/matika-interpreter/src/parser.rs:200-206 | Succeeds exactly when the current token has the kind, advancing past it; otherwise aborts with ExpectedToken and does not move. |
| Parsing.Parser.Matches | libs/matika-interpreter/src/parser.rs:208-216 | Returns and consumes the current token exactly when its kind is among the forms and it is not the end. |
| Parsing.Parser.Advance | libs/matika-interpreter/src/parser.rs:226-232 | Moves one token on unless at the end, and returns the previous token. |
| Parsing.Parser.Previous | libs/matika-interpreter/src/parser.rs:238-240 | A previous token exists exactly when the cursor is past the first token. |
| Parsing.Parser.IsEnd | libs/matika-interpreter/src/parser.rs:242-247 | The end is reached exactly at an Eof token or past the last token. |
| ParserProps.ExpressionShape | libs/matika-interpreter/src/parser.rs:72-198 | Every parsed expression has the shape of the precedence ladder: `-`/`+` over `*`/`/` over `^` over prefix minus over calls over primaries, each binary level leaning left, and `^` taking only a primary on its right. |
| ParserProps.CallRestShape | libs/matika-interpreter/src/parser.rs:140-175 | The call loop builds only calls and implicit products `Binary(literal, *, argument)`. |
| ParserProps.AdditionLeansLeft | libs/matika-interpreter/src/parser.rs:76-90 | An addition or subtraction is never the right operand of another one. |
| ParserProps.ProductsBindTighter | libs/matika-interpreter/src/parser.rs:76-106 | `+`/`-` is never an operand of `*`/`/`, except as the argument of an implicit product. |
| ParserProps.MinusBindsTighter | libs/matika-interpreter/src/parser.rs:108-135 | The operand of a prefix minus is never a power. |
| ParserProps.VariableParamsConcat | libs/matika-interpreter/src/parser.rs:35-41 | Collecting parameters distributes over concatenated argument lists, so their order is kept. |
| ParserProps.VariableParamsNames | libs/matika-interpreter/src/parser.rs:35-41 | The parameters are exactly the variable-shaped arguments; non-variable arguments are dropped. |
| ParserProps.DeclareOutcomes | libs/matika-interpreter/src/parser.rs:26-55 | After `=`, a bare name becomes a Variable statement and a call of a name becomes a Function. A call of anything else stays the call, and the initializer is discarded. Every other statement aborts with DeclarationNotSupported. |
| ParserProps.NothingAtEnd | libs/matika-interpreter/src/parser.rs:218-224 | At the end of input no kind checks or matches, so `consume` there always aborts. |
| ParserProps.ParseSteps | libs/matika-interpreter/src/parser.rs:13-21 | Parsing stops at Eof or past the end. Otherwise it adds one declaration, which consumes at least one token, or stops with its abort. |
| ParserExamples.ProductBeforeSum | libs/matika-interpreter/src/parser.rs:76-106 | The tokens of `2+3*4` parse as `Binary(2, +, Binary(3, *, 4))`. |
| ParserExamples.SubtractionLeansLeft | libs/matika-interpreter/src/parser.rs:76-90 | The tokens of `a-b-c` parse as `Binary(Binary(a, -, b), -, c)`. |
| ParserExamples.PowerLeansLeft | libs/matika-interpreter/src/parser.rs:108-122 | The tokens of `2^3^2` parse as `Binary(Binary(2, ^, 3), ^, 2)`. |
| ParserExamples.MinusBeforePower | libs/matika-interpreter/src/parser.rs:108-135 | The tokens of `-2^2` parse as `Binary(Unary(-, 2), ^, 2)`. |
| ParserExamples.NoMinusAfterCaret | libs/matika-interpreter/src/parser.rs:111-112 | The tokens of `2^-1` abort, because the right operand of `^` must be a primary. |
| ParserExamples.ImplicitProduct | libs/matika-interpreter/src/parser.rs:155-162 | The tokens of `3(4)` parse as `Binary(3, *, 4)` with the synthetic Star token. |
| ParserExamples.ImplicitProductWithoutArgument | libs/matika-interpreter/src/parser.rs:163-165 | The tokens of `3()` abort. |
| ParserExamples.DeclarationArguments | libs/matika-interpreter/src/parser.rs:141-151 | On the tokens of `f(x, 2)` the arguments are `[x, 2]`, in source order. |
| ParserExamples.DeclarationCall | libs/matika-interpreter/src/parser.rs:167-172 | The tokens of `f(x, 2)` before `=` are a Call of `f`. |
| ParserExamples.FunctionDeclaration | libs/matika-interpreter/src/parser.rs:34-49 | The tokens of `f(x, 2) = x` declare `f` with the single parameter `x`. |
| ParserExamples.PrintIsNotDeclarable | libs/matika-interpreter/src/parser.rs:50-52 | The tokens of `print x = 1` abort with DeclarationNotSupported. |
| Values.Negate | libs/matika-interpreter/src/value.rs:48-58 | Unary minus: `Values.NegateCases` states it is defined exactly on Numbers. |
| Values.Add | libs/matika-interpreter/src/value.rs:60-72 | `+`: `Values.NumbersCombine` and `Values.OnlyNumbersCombine` state it succeeds exactly on two Numbers. |
| Values.Sub | libs/matika-interpreter/src/value.rs:74-86 | `-`: succeeds exactly on two Numbers (`Values.NumbersCombine`, `Values.OnlyNumbersCombine`). |
| Values.Mul | libs/matika-interpreter/src/value.rs:88-100 | `*`: succeeds exactly on two Numbers (`Values.NumbersCombine`, `Values.OnlyNumbersCombine`). |
| Values.Div | libs/matika-interpreter/src/value.rs:102-114 | `/`: succeeds exactly on two Numbers (`Values.NumbersCombine`, `Values.OnlyNumbersCombine`). |
| Values.Powf | libs/matika-interpreter/src/value.rs:15-23 | `powf`: succeeds exactly on two Numbers (`Values.NumbersCombine`, `Values.OnlyNumbersCombine`). |
| Values.ToF64 | libs/matika-interpreter/src/value.rs:26-33 | The conversion to a float, whose cases `Values.ToF64Cases` states. |
| Values.Display | libs/matika-interpreter/src/value.rs:35-46 | The shown text, which `Values.DisplayText` states for Unbound and Function values. |
| Values.NumbersCombine | libs/matika-interpreter/src/value.rs:15-23 | `+ - * /` and `powf` on two Numbers yield a Number. |
| Values.OnlyNumbersCombine | libs/matika-interpreter/src/value.rs:60-114 | When either operand is not a Number, each of the five operations aborts, whatever the other operand is. |
| Values.NegateCases | libs/matika-interpreter/src/value.rs:48-58 | Negation maps `Number(n)` to `Number(-n)` and aborts on Unbound, List and Function. |
| Values.ToF64Cases | libs/matika-interpreter/src/value.rs:26-33 | Conversion gives `n` for `Number(n)` and 0.0 for every other value. |
| Values.DisplayText | libs/matika-interpreter/src/value.rs:35-46 | `Unbound(name)` shows as exactly `name`; a Function shows as its callable's `<fnc:NAME>`. |
| Callables.Arity | libs/matika-interpreter/src/functions.rs:33-35 | The argument count of each callable. `Callables.Arities` states it, including the built-ins at functions.rs lines 46, 77, 109 and 147. |
| Callables.Text | libs/matika-interpreter/src/functions.rs:14-18 | `<fnc:NAME>` for a declared function. `Callables.BuiltinTexts` states the texts of the built-ins. |
| Callables.Arities | libs/matika-interpreter/src/functions.rs:33-35 | A user function's arity is its parameter count. Pi has arity 0; Sin, Factors and Plot have arity 1. |
| Callables.BuiltinTexts | libs/matika-interpreter/src/functions.rs:51-55 | The built-ins show as `<fnc:pi>`, `<fnc:sin>`, `<fnc:factors>` and `<fnc:plot>`. |
| Numbers.Truncate | libs/matika-interpreter/src/functions.rs:95 | `as u64`, computed for short literals and exactly converted integers. `Functions.FactorsExamples` and `Functions.LongLiteralsUseTrunc` state both sides of that boundary. |
| Functions.Divisors | libs/matika-interpreter/src/functions.rs:96-99 | The filtered range `1..k+1`, which `Functions.DivisorsExactly` states to be exactly the divisors of k, ascending. |
| Functions.CallPi | libs/matika-interpreter/src/functions.rs:41-49 | `pi` ignores its arguments and returns the constant; `EvaluationProps.InvokeKeepsEnvironment` states it leaves the caller's environment unchanged. |
| Functions.CallSin | libs/matika-interpreter/src/functions.rs:66-81 | `sin` of a Number; `Functions.BuiltinsNeedNumbers` states the abort on any other value. |
| Functions.CallFactors | libs/matika-interpreter/src/functions.rs:91-113 | The divisors of the truncated argument as floats (`Functions.FactorsExamples`, `Functions.DivisorsExactly`), and the abort on a non-Number (`Functions.BuiltinsNeedNumbers`). |
| Functions.BindFrom | libs/matika-interpreter/src/functions.rs:21-28 | Binds the parameters by index in the new scope, as `Functions.BindFromBinds` states. |
| Functions.DivisorsFrom | libs/matika-interpreter/src/functions.rs:97-100 | The filtered range holds only divisors within the range, in strictly ascending order. |
| Functions.DivisorsFromComplete | libs/matika-interpreter/src/functions.rs:97-100 | The filter misses no divisor in the range. |
| Functions.DivisorsExactly | libs/matika-interpreter/src/functions.rs:95-103 | `factors` keeps exactly those d with 1 ≤ d ≤ k that divide k, in ascending order. |
| Functions.DivisorsOfTwelve | libs/matika-interpreter/src/functions.rs:97-101 | The divisors of 12 are `[1, 2, 3, 4, 6, 12]`. |
| Functions.DivisorsOfZero | libs/matika-interpreter/src/functions.rs:97-101 | 0 has no divisors in `1..=0`. |
| Functions.AsFloats | libs/matika-interpreter/src/functions.rs:100 | Each divisor becomes the float of that integer, in the same order. |
| Functions.FactorsExamples | libs/matika-interpreter/src/functions.rs:91-107 | `factors(12)` returns the list `[1,2,3,4,6,12]`, both for the literal `12` and for the integer 12 that a plot samples; a negative or zero argument truncates to 0 and gives `[]`. |
| Functions.LongLiteralsUseTrunc | libs/matika-interpreter/src/functions.rs:95 | A lexeme of more than 15 characters is truncated through the `trunc` parameter, because its float parse may round it. |
| Functions.BuiltinsNeedNumbers | libs/matika-interpreter/src/functions.rs:67-106 | `sin` and `factors` abort when their argument is not a Number. |
| Functions.BindFromBinds | libs/matika-interpreter/src/functions.rs:24-28 | Binding succeeds exactly when every parameter has an argument; otherwise it fails at the first missing index. It writes only the innermost scope and binds parameter i to `args[i]`, where a repeated name keeps the later argument. Every other name is unchanged. |
| Environments.Global | libs/matika-interpreter/src/environment.rs:13-30 | The global scope, whose bindings `Environments.GlobalBindings` states. |
| Environments.FromEnclosing | libs/matika-interpreter/src/environment.rs:32-37 | A new empty scope, which `Environments.FromEnclosingTransparent` states answers like its enclosing scope. |
| Environments.Define | libs/matika-interpreter/src/environment.rs:39-41 | The insert into the innermost scope. `Environments.GetDefined`, `Environments.GetOther` and `Environments.DefineShadows` state its effect. |
| Environments.Get | libs/matika-interpreter/src/environment.rs:43-48 | The lookup, which `Environments.GetVisible` states against the flattened chain and `Environments.GetCases` case by case. |
| Environments.GetVisible | libs/matika-interpreter/src/environment.rs:43-48 | Lookup agrees with the chain flattened into one map, where inner scopes override outer ones. |
| Environments.GetDefined | libs/matika-interpreter/src/environment.rs:39-48 | After `define(n, v)`, `get(n)` returns `v`. |
| Environments.GetOther | libs/matika-interpreter/src/environment.rs:39-48 | `define(n, v)` leaves `get(m)` unchanged for every `m ≠ n`. |
| Environments.DefineShadows | libs/matika-interpreter/src/environment.rs:39-41 | `define` leaves the enclosing chain untouched, and the new binding shadows the name further out. |
| Environments.GetCases | libs/matika-interpreter/src/environment.rs:43-48 | The innermost binding wins, else the enclosing scope answers, else there is no binding. |
| Environments.FromEnclosingTransparent | libs/matika-interpreter/src/environment.rs:32-37 | A fresh scope answers every lookup exactly as the scope it encloses. |
| Environments.GlobalBindings | libs/matika-interpreter/src/environment.rs:13-30 | The global scope binds exactly `pi`, `sin`, `factors` and `plot` to the four built-ins, and has no enclosing scope. |
| Interpreting.Interpreter.constructor | libs/matika-interpreter/src/interpreter.rs:20-25 | `new` starts in the global scope with no plotter. |
| Interpreting.Interpreter.WithPlotter | libs/matika-interpreter/src/interpreter.rs:27-31 | `with_plotter` installs the plotter and leaves the environment unchanged. |
| Interpreting.Interpreter.Interpret | libs/matika-interpreter/src/interpreter.rs:33-41 | The statement loop leaves the result and state of `Interpret`. |
| Interpreting.Interpreter.Execute | libs/matika-interpreter/src/interpreter.rs:89-120 | Each statement leaves the result and state of `Execute`. |
| Interpreting.Interpreter.EvaluateInner | libs/matika-interpreter/src/interpreter.rs:47-57 | Evaluates in the given environment, then restores the previous one, as `EvalIn` describes. |
| Interpreting.Interpreter.Evaluate | libs/matika-interpreter/src/interpreter.rs:123-161 | The expression visitor leaves the result and state of `Eval`. |
| Interpreting.Interpreter.VisitUnary | libs/matika-interpreter/src/interpreter.rs:63-70 | The method leaves the result and state of `Eval` on a Unary expression. |
| Interpreting.Interpreter.VisitBinary | libs/matika-interpreter/src/interpreter.rs:72-86 | The method leaves the result and state of `Eval` on a Binary expression. |
| Interpreting.Interpreter.VisitCall | libs/matika-interpreter/src/interpreter.rs:132-146 | The method leaves the result and state of `Eval` on a Call expression. |
| Interpreting.Interpreter.EvaluateArgs | libs/matika-interpreter/src/interpreter.rs:135 | The argument loop leaves the values and state of `ArgsFrom`. |
| Interpreting.Interpreter.Call | libs/matika-interpreter/src/functions.rs:20-150 | Calling any of the five callables leaves the result and state of `Invoke`. |
| Interpreting.Interpreter.Sample | libs/matika-interpreter/src/functions.rs:128-134 | The sampling loop leaves the points and state of `PlotFrom`. |
| Evaluation.Eval | libs/matika-interpreter/src/interpreter.rs:126-158 | The expression visitor. `EvaluationProps` states it case by case (`BoundLookup`, `UnboundAutoBinds`, `BinaryLeftFirst`, `BinaryDispatch`, `UnaryOnlyMinus`, `CalleeFirst`, `CallChecks`), and `EvalExtends` states what it can change. |
| Evaluation.ArgsFrom | libs/matika-interpreter/src/interpreter.rs:135 | The arguments left to right, which `EvaluationProps.ArgsFromLength` and `EvaluationProps.ArgsLeftToRight` state. |
| Evaluation.EvalIn | libs/matika-interpreter/src/interpreter.rs:47-57 | `evaluate_inner`, which `EvaluationProps.EvalInRestores` states puts the caller's environment back. |
| Evaluation.Invoke | libs/matika-interpreter/src/functions.rs:20-31 | `call` for every callable. `EvaluationProps.UserCallScope` states the call scope of a declared function, `EvaluationProps.InvokeKeepsEnvironment` that the caller's environment survives, and `EvaluationProps.PlotCall` the plot samples. |
| Evaluation.PlotFrom | libs/matika-interpreter/src/functions.rs:130-134 | The sampling loop, which `EvaluationProps.PlotFromPoints` and `EvaluationProps.PlotBuiltin` state. |
| Evaluation.Execute | libs/matika-interpreter/src/interpreter.rs:92-121 | The statement visitor, which `EvaluationProps.StatementsYieldZero`, `EvaluationProps.VariableDefines` and `EvaluationProps.FunctionDefines` state. |
| Evaluation.InterpretFrom | libs/matika-interpreter/src/interpreter.rs:36-38 | The statement loop, which `EvaluationProps.InterpretSequence` states. |
| Evaluation.Interpret | libs/matika-interpreter/src/interpreter.rs:33-41 | `interpret`: `EvaluationProps.InterpretEmpty` and `EvaluationProps.InterpretSequence` state it. |
| EvaluationProps.InterpretEmpty | libs/matika-interpreter/src/interpreter.rs:33-41 | `interpret` of no statements yields Number(0) and changes nothing. |
| EvaluationProps.InterpretSequence | libs/matika-interpreter/src/interpreter.rs:33-41 | A statement runs in the state the earlier statements leave, and the list's value is the value of its last statement. |
| EvaluationProps.StatementsYieldZero | libs/matika-interpreter/src/interpreter.rs:95-118 | Print, Variable and Function statements yield Number(0). |
| EvaluationProps.VariableDefines | libs/matika-interpreter/src/interpreter.rs:102-108 | A Variable statement binds the name to the initializer's value, and no other name changes. |
| EvaluationProps.FunctionDefines | libs/matika-interpreter/src/interpreter.rs:109-118 | A Function statement binds the name to a Function value holding the declaration. |
| EvaluationProps.UnboundAutoBinds | libs/matika-interpreter/src/interpreter.rs:147-158 | An unknown name defines `Unbound(name)` in the current scope and returns it, so reading it again gives the same value. |
| EvaluationProps.BoundLookup | libs/matika-interpreter/src/interpreter.rs:147-150 | A bound name evaluates to its binding and changes nothing. |
| EvaluationProps.BinaryLeftFirst | libs/matika-interpreter/src/interpreter.rs:72-74 | The left operand is evaluated before the right, and an abort in either is the result. |
| EvaluationProps.BinaryDispatch | libs/matika-interpreter/src/interpreter.rs:76-83 | Plus, Minus, Star, Slash and Caret dispatch to the five value operations; any other operator aborts. |
| EvaluationProps.UnaryOnlyMinus | libs/matika-interpreter/src/interpreter.rs:63-70 | Unary accepts only Minus. |
| EvaluationProps.ArgsFromLength | libs/matika-interpreter/src/interpreter.rs:135 | One value per argument, appended after the values already collected. |
| EvaluationProps.ArgsLeftToRight | libs/matika-interpreter/src/interpreter.rs:135 | The arguments are evaluated left to right, each starting from the state the previous one left. |
| EvaluationProps.CalleeFirst | libs/matika-interpreter/src/interpreter.rs:133 | The callee is evaluated first; its abort is the result. |
| EvaluationProps.CallChecks | libs/matika-interpreter/src/interpreter.rs:132-146 | The callee is checked only after every argument. An argument's abort wins, then "not a function", then the arity mismatch; otherwise the callable is invoked. |
| EvaluationProps.EvalInRestores | libs/matika-interpreter/src/interpreter.rs:47-57 | `evaluate_inner` evaluates in the given environment and then restores the previous one. |
| EvaluationProps.UserCallScope | libs/matika-interpreter/src/functions.rs:21-31 | A user function's body runs in a new scope around the caller's current environment. Parameter i is bound to `args[i]`, a repeated name keeps the later argument, and every other name reads as in the caller. |
| EvaluationProps.InvokeKeepsEnvironment | libs/matika-interpreter/src/functions.rs:22-30 | After any call returns, the environment equals the one before the call; bindings made in a body are discarded. |
| EvaluationProps.PlotFromPoints | libs/matika-interpreter/src/functions.rs:130-134 | The loop records one point per x, ascending, after the earlier points. |
| EvaluationProps.EvalExtends | libs/matika-interpreter/src/functions.rs:136-139 | Evaluation never installs or removes a plotter and only appends to it. |
| EvaluationProps.PlotCall | libs/matika-interpreter/src/functions.rs:124-145 | `plot` needs a Function argument and returns Number(0). With no plotter nothing is recorded; with one, its newest list holds the 20 samples at x = -10..9, in order. |
| EvaluationProps.PlotBuiltin | libs/matika-interpreter/src/functions.rs:130-134 | Plotting `pi`, `sin` or `factors` records `(x, f(x) as f64)` at each x and changes no state. For `factors`, which returns Lists, every y is 0. |
| EvaluationProps.PlotOfPlot | libs/matika-interpreter/src/functions.rs:127-141 | Plotting `plot` itself aborts with NotAFunction at the first sample, because the number handed to it is not a function. |
| EvaluationProps.PlotSkipsArityCheck | libs/matika-interpreter/src/functions.rs:131 | `plot` calls directly with one argument. A parameterless function ignores it, and a two-parameter function aborts on the missing second argument. |
| EvaluationProps.InitialState | libs/matika-interpreter/src/interpreter.rs:20-31 | The interpreter starts in the global scope with no plotter; `with_plotter` changes only the plotter. |
| EvaluationExamples.DefineThenRead | libs/matika-interpreter/src/interpreter.rs:33-41 | `x = n` then `x` yields `n`. |
| EvaluationExamples.ReadUnknown | libs/matika-interpreter/src/interpreter.rs:147-158 | `y` alone yields `Unbound("y")` and binds it. |
| EvaluationExamples.CallIdentity | libs/matika-interpreter/src/functions.rs:21-31 | `f(x) = x` then `f(n)` yields `n`, and `x` does not leak into the caller's scope. |
| EvaluationExamples.RepeatedParameter | libs/matika-interpreter/src/functions.rs:24-28 | With `f(x, x) = x`, `f(a, b)` yields `b`. |
| EvaluationExamples.UnknownInsideCall | libs/matika-interpreter/src/interpreter.rs:47-57 | An unknown name read inside a call is bound only in the call's scope. |
| Pipeline.DefinitionPersists | libs/matika-interpreter/src/lib.rs:40-48 | A text whose last statement is a Variable statement leaves that name bound for the next `eval`. |
| Pipeline.Matika.constructor | libs/matika-interpreter/src/lib.rs:28-32 | `new` holds a fresh interpreter in the global scope with no plotter. |
| Pipeline.Matika.WithPlotter | libs/matika-interpreter/src/lib.rs:34-38 | `with_plotter` installs the plotter on the kept interpreter and leaves its environment unchanged. |
| Pipeline.Matika.Eval | libs/matika-interpreter/src/lib.rs:40-48 | `eval` is scan, then parse, then interpret on the kept interpreter. The next call starts from the state this one leaves. |

## Left out

- **Float values.** Numbers are symbolic terms (`Numbers.Num`), so the model does not capture:
  - the actual results of `+ - * /`, `powf`, `sin` and `PI`;
  - the text-to-`f64` parse of a number lexeme (`Decimal(text)` keeps the text);
  - the `f32` casts of plot points;
  - Number and List formatting in `Display` (`Values.Display` keeps them symbolic).
- Functions.CallFactors: `as u64` is computed only where the float parse or conversion cannot change the result. That covers number lexemes of at most 15 characters, integers up to 2^53, and their negations. In every other case the `trunc` parameter stands for it, so `factors` is stated up to `trunc`. Examples are a longer lexeme such as `0.99999999999999999`, which the source parses to 1.0 so that `factors` gives `[1]`, and every computed float.
- Functions.CallFactors: does not model the `u64` overflow of `num + 1`.
- **Printing.** The `println!` of a Print statement is output and is not modelled. Only its value (Number(0)) and its effects are.
- **TokenKind's `Display`.** It formats itself recursively and has no behaviour to model.
- **`Rc` and the `Callable`/`Plotter` traits.**
  - Callables are a closed datatype.
  - A plotter is a `Sink` that records every point list handed to it. The value it returns is ignored, as in the source.
  - `with_plotter` takes that sink.
  - The visitor traits are replaced by `match`.
- **Stack depth.** Calls carry a `fuel` bound (`MaxDepth`, 1000 per top-level statement) in place of the native stack. The bound is the model's own choice, not the source's. A program that nests calls deeper, such as a chain of 1001 definitions each calling the previous one, aborts with DepthExceeded in the model but may succeed in the source. Only unbounded recursion is certain to overflow the source's stack.
- Interpreting.Interpreter.Evaluate: after an abort only the error is specified, not the state. The same holds for every method of `Interpreter` and for `Matika.Eval`, because the source panics and so terminates. Recoverable errors that keep earlier statements' bindings, as a reimplementation might offer, are not modelled.
- **Text is ASCII.** A character is one position, so the byte-versus-character index mismatch for non-ASCII input is not modelled.
- **`Token::star()`.** It is not defined in `token.rs`. The model uses the Star token with lexeme `"*"` and no literal that the scanner builds for the same purpose.
- **`Scanner::line`.** It is kept and proved to count line breaks, but no token records it, as in the source.
- **`previous()` before the first token.** It unwraps `None` in the source. The model aborts with NoPreviousToken; this cannot happen after an `advance`.
- EvaluationProps.PlotCall: states the x coordinates of the recorded points but not their y values. For a declared function each y depends on the state the earlier samples leave. `PlotBuiltin` states the y values for the built-ins, and `Interpreter.Sample` is tied to `PlotFrom`, which defines them.
