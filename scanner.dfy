/**
 * The lexer (scanner.rs). `ScanTokenAt` and `ScanFrom` say what the scanner
 * produces from a position of the text; the `Scanner` class is the source's
 * cursor-driven scanner, proved to produce exactly that.
 *
 * Text is a sequence of characters indexed one character per position, which
 * is what the source does for ASCII text.
 */
module Scanning {
  import opened Wrappers
  import opened Numbers
  import opened Tokens
  import opened Errors

  predicate IsAlpha(c: char) {
    ('a' <= c <= 'z') || ('A' <= c <= 'Z') || c == '_'
  }

  predicate IsAlphaNumeric(c: char) {
    IsDigit(c) || IsAlpha(c)
  }

  /** The keyword table built by `Scanner::new`. */
  const Keywords: map<string, TokenKind> := map["print" := Print]

  /** `peek` at position `i` (and `peek_next` at `i + 1`): NUL past the end. */
  function CharAt(src: string, i: nat): char {
    if i < |src| then src[i] else '\0'
  }

  /** The number of line breaks in `s`. */
  function Newlines(s: string): nat {
    multiset(s)['\n']
  }

  /** End of the maximal run of digits starting at `i`. */
  function DigitRunEnd(src: string, i: nat): (j: nat)
    requires i <= |src|
    ensures i <= j <= |src|
    ensures !IsDigit(CharAt(src, j))
    decreases |src| - i
  {
    if IsDigit(CharAt(src, i)) then DigitRunEnd(src, i + 1) else i
  }

  /** End of the maximal run of letters, digits and underscores starting at `i`. */
  function WordEnd(src: string, i: nat): (j: nat)
    requires i <= |src|
    ensures i <= j <= |src|
    ensures !IsAlphaNumeric(CharAt(src, j))
    decreases |src| - i
  {
    if IsAlphaNumeric(CharAt(src, i)) then WordEnd(src, i + 1) else i
  }

  /** Position of the first line break at or after `i`, or the end of the text. */
  function LineEnd(src: string, i: nat): (j: nat)
    requires i <= |src|
    ensures i <= j <= |src|
    ensures j == |src| || src[j] == '\n'
    decreases |src| - i
  {
    if i < |src| && src[i] != '\n' then LineEnd(src, i + 1) else i
  }

  /**
   * End of the number literal whose first digit is at `start`: a maximal digit
   * run, extended by `.` and a second maximal digit run only when a digit
   * follows the `.`.
   */
  function NumberEnd(src: string, start: nat): (j: nat)
    requires start < |src| && IsDigit(src[start])
    ensures start < j <= |src|
  {
    var k := DigitRunEnd(src, start + 1);
    if CharAt(src, k) == '.' && IsDigit(CharAt(src, k + 1)) then DigitRunEnd(src, k + 1) else k
  }

  /** The tokens `number` adds: the literal, then `*` when a letter or `_` follows. */
  function NumberTokens(src: string, start: nat): seq<Token>
    requires start < |src| && IsDigit(src[start])
  {
    var j := NumberEnd(src, start);
    var number := Token(Number, src[start..j], Some(Decimal(src[start..j])));
    if IsAlpha(CharAt(src, j)) then [number, StarToken] else [number]
  }

  /** The token `identifier` adds for the word starting at `start`. */
  function WordToken(src: string, start: nat): Token
    requires start < |src|
  {
    var text := src[start..WordEnd(src, start + 1)];
    Token(if text in Keywords then Keywords[text] else Identifier, text, None)
  }

  /** The ten characters that are a token on their own. */
  predicate IsSingleChar(c: char) {
    c == '(' || c == ')' || c == '.' || c == '-' || c == '+' ||
    c == '*' || c == '^' || c == '!' || c == '=' || c == ','
  }

  function SingleCharKind(c: char): TokenKind
    requires IsSingleChar(c)
  {
    match c
    case '(' => LeftParen
    case ')' => RightParen
    case '.' => Dot
    case '-' => Minus
    case '+' => Plus
    case '*' => Star
    case '^' => Caret
    case '!' => Bang
    case '=' => Equal
    case ',' => Comma
  }

  /** Characters that are skipped without a token. */
  predicate IsBlank(c: char) {
    c == ' ' || c == '\r' || c == '\t' || c == '\n'
  }

  /** What one call of `scan_token` at position `i` emits, and where it stops. */
  datatype Lexed = Lexed(tokens: seq<Token>, next: nat)

  /** A token produced by `add_token` for the characters `i..j`. */
  function Added(src: string, kind: TokenKind, i: nat, j: nat): Lexed
    requires i <= j <= |src|
  {
    Lexed([Token(kind, src[i..j], None)], j)
  }

  /** `<` or `>` at `i`, taking a following `=` into a two-character token. */
  function ComparisonAt(src: string, i: nat): Lexed
    requires i < |src| && (src[i] == '<' || src[i] == '>')
  {
    var two := CharAt(src, i + 1) == '=';
    var kind := if src[i] == '<' then (if two then LessEqual else Less)
                else (if two then GreaterEqual else Greater);
    Added(src, kind, i, if two then i + 2 else i + 1)
  }

  /** `/` at `i`: a Slash token, or a comment running up to the next line break. */
  function SlashAt(src: string, i: nat): Lexed
    requires i < |src|
  {
    if CharAt(src, i + 1) == '/' then Lexed([], LineEnd(src, i + 2))
    else Added(src, Slash, i, i + 1)
  }

  function ScanTokenAt(src: string, i: nat): (r: Result<Lexed>)
    requires i < |src|
    ensures r.Ok? ==> i < r.value.next <= |src|
  {
    var c := src[i];
    if IsSingleChar(c) then Ok(Added(src, SingleCharKind(c), i, i + 1))
    else if c == '<' || c == '>' then Ok(ComparisonAt(src, i))
    else if c == '/' then Ok(SlashAt(src, i))
    else if IsBlank(c) then Ok(Lexed([], i + 1))
    else if IsDigit(c) then Ok(Lexed(NumberTokens(src, i), NumberEnd(src, i)))
    else if IsAlpha(c) then Ok(Lexed([WordToken(src, i)], WordEnd(src, i + 1)))
    else Err(UnexpectedCharacter(c))
  }

  lemma {:induction false} DigitRunDigits(src: string, i: nat)
    requires i <= |src|
    ensures forall k | i <= k < DigitRunEnd(src, i) :: IsDigit(src[k])
    decreases |src| - i
  {
    if IsDigit(CharAt(src, i)) {
      DigitRunDigits(src, i + 1);
    }
  }

  lemma {:induction false} WordEndChars(src: string, i: nat)
    requires i <= |src|
    ensures forall k | i <= k < WordEnd(src, i) :: IsAlphaNumeric(src[k])
    decreases |src| - i
  {
    if IsAlphaNumeric(CharAt(src, i)) {
      WordEndChars(src, i + 1);
    }
  }

  lemma {:induction false} LineEndChars(src: string, i: nat)
    requires i <= |src|
    ensures forall k | i <= k < LineEnd(src, i) :: src[k] != '\n'
    decreases |src| - i
  {
    if i < |src| && src[i] != '\n' {
      LineEndChars(src, i + 1);
    }
  }

  /** A number literal is made of digits and at most one `.`. */
  lemma NumberChars(src: string, start: nat)
    requires start < |src| && IsDigit(src[start])
    ensures forall k | start <= k < NumberEnd(src, start) :: IsDigit(src[k]) || src[k] == '.'
  {
    var k := DigitRunEnd(src, start + 1);
    DigitRunDigits(src, start + 1);
    if CharAt(src, k) == '.' && IsDigit(CharAt(src, k + 1)) {
      DigitRunDigits(src, k + 1);
    }
  }

  /** A token never spans a line break: only a skipped `\n` itself moves to the next line. */
  lemma ScanTokenAtNoNewline(src: string, i: nat)
    requires i < |src| && ScanTokenAt(src, i).Ok?
    ensures forall k | i < k < ScanTokenAt(src, i).value.next :: src[k] != '\n'
  {
    var c := src[i];
    if IsSingleChar(c) || c == '<' || c == '>' {
    } else if c == '/' {
      if CharAt(src, i + 1) == '/' {
        LineEndChars(src, i + 2);
      }
    } else if IsBlank(c) {
    } else if IsDigit(c) {
      NumberChars(src, i);
    } else if IsAlpha(c) {
      WordEndChars(src, i + 1);
    }
  }

  /** Extending a stretch of text by a character and then by text without line breaks. */
  lemma NewlinesStep(src: string, a: nat, b: nat, c: nat)
    requires a <= b < c <= |src|
    requires forall k | b < k < c :: src[k] != '\n'
    ensures Newlines(src[a..c]) == Newlines(src[a..b]) + (if src[b] == '\n' then 1 else 0)
  {
    assert src[a..c] == src[a..b] + [src[b]] + src[b + 1..c];
    assert '\n' !in src[b + 1..c];
  }

  /** `scan_token` never emits the Eof token. */
  lemma ScanTokenAtNoEof(src: string, i: nat)
    requires i < |src| && ScanTokenAt(src, i).Ok?
    ensures forall t | t in ScanTokenAt(src, i).value.tokens :: t.kind != Eof
  {
    var c := src[i];
    if IsAlpha(c) && !IsSingleChar(c) && !IsDigit(c) {
      var text := src[i..WordEnd(src, i + 1)];
      assert text in Keywords ==> Keywords[text] == Print;
    }
  }

  /**
   * The `scan` loop from position `i`, with `acc` the tokens already emitted.
   * Nothing it appends is an Eof token.
   */
  function ScanFrom(src: string, i: nat, acc: seq<Token>): (r: Result<seq<Token>>)
    requires i <= |src|
    ensures r.Ok? ==> |acc| <= |r.value| && r.value[..|acc|] == acc
    ensures r.Ok? ==> forall k | |acc| <= k < |r.value| :: r.value[k].kind != Eof
    decreases |src| - i
  {
    if i == |src| then Ok(acc)
    else
      match ScanTokenAt(src, i)
      case Err(e) => Err(e)
      case Ok(lexed) =>
        ScanTokenAtNoEof(src, i);
        ScanFrom(src, lexed.next, acc + lexed.tokens)
  }

  /** `scan` ends by pushing the Eof token. */
  function Finish(r: Result<seq<Token>>): Result<seq<Token>> {
    match r
    case Ok(tokens) => Ok(tokens + [EofToken])
    case Err(e) => Err(e)
  }

  /** The whole token sequence of a text: exactly one Eof token, at the end. */
  function Scan(src: string): (r: Result<seq<Token>>)
    ensures r.Ok? ==> |r.value| >= 1 && r.value[|r.value| - 1] == EofToken
    ensures r.Ok? ==> forall k | 0 <= k < |r.value| - 1 :: r.value[k].kind != Eof
  {
    Finish(ScanFrom(src, 0, []))
  }

  class Scanner {
    const source: string
    var start: nat
    var current: nat
    var line: nat
    var tokens: seq<Token>
    const keywords: map<string, TokenKind> := Keywords

    ghost predicate Valid()
      reads this
    {
      start <= current <= |source|
    }

    constructor (source: string)
      ensures Valid()
      ensures this.source == source && start == 0 && current == 0 && line == 1 && tokens == []
    {
      this.source := source;
      start, current, line, tokens := 0, 0, 1, [];
    }

    /**
     * Scans the rest of the text. On success the tokens are those `ScanFrom`
     * describes followed by Eof, and the line counter has grown by the number
     * of line breaks scanned.
     */
    method Scan() returns (r: Result<seq<Token>>)
      requires Valid()
      modifies this`start, this`current, this`tokens, this`line
      ensures r == Finish(ScanFrom(source, old(current), old(tokens)))
      ensures r.Ok? ==> tokens == r.value && line == old(line) + Newlines(source[old(current)..])
    {
      while !IsEnd()
        invariant Valid() && old(current) <= current
        invariant ScanFrom(source, current, tokens) == ScanFrom(source, old(current), old(tokens))
        invariant line == old(line) + Newlines(source[old(current)..current])
        decreases |source| - current
      {
        start := current;
        ghost var before, emitted := current, tokens;
        var step := ScanToken();
        if step.Err? {
          assert ScanFrom(source, before, emitted) == Err(step.error);
          return Err(step.error);
        }
        ScanTokenAtNoNewline(source, before);
        NewlinesStep(source, old(current), before, current);
      }
      assert source[old(current)..] == source[old(current)..current];
      tokens := tokens + [EofToken];
      return Ok(tokens);
    }

    /** One step of the lexer: exactly what `ScanTokenAt` says for the current position. */
    method ScanToken() returns (r: Result<()>)
      requires Valid() && start == current < |source|
      modifies this`current, this`tokens, this`line
      ensures Valid()
      ensures match ScanTokenAt(source, old(current))
        case Ok(lexed) =>
          && r.Ok? && tokens == old(tokens) + lexed.tokens && current == lexed.next
          && line == old(line) + (if source[old(current)] == '\n' then 1 else 0)
        case Err(e) => r == Err(e)
    {
      var ch := Advance();
      // `ch` is present: the scan loop only calls this before the end of the text.
      var c := ch.value;
      r := Ok(());
      match c
      case '(' | ')' | '.' | '-' | '+' | '*' | '^' | '!' | '=' | ',' =>
        AddToken(SingleCharKind(c), None);
      case '<' | '>' => Comparison();
      case '/' => SlashOrComment();
      case ' ' | '\r' | '\t' =>
      case '\n' => line := line + 1;
      case _ =>
        if IsDigit(c) {
          Number();
        } else if IsAlpha(c) {
          Identifier();
        } else {
          r := Err(UnexpectedCharacter(c));
        }
    }

    /** Finishes `<`, `<=`, `>` or `>=` whose first character has been consumed. */
    method Comparison()
      requires Valid() && current == start + 1 && start < |source|
      requires source[start] == '<' || source[start] == '>'
      modifies this`current, this`tokens
      ensures Valid() && current == ComparisonAt(source, start).next
      ensures tokens == old(tokens) + ComparisonAt(source, start).tokens
    {
      var two := Matches('=');
      var kind := if source[start] == '<' then (if two then LessEqual else Less)
                  else (if two then GreaterEqual else Greater);
      AddToken(kind, None);
    }

    /** Finishes a `/`: either a Slash token or a comment skipped up to the line break. */
    method SlashOrComment()
      requires Valid() && current == start + 1 && start < |source|
      modifies this`current, this`tokens
      ensures Valid() && current == SlashAt(source, start).next
      ensures tokens == old(tokens) + SlashAt(source, start).tokens
    {
      var comment := Matches('/');
      if comment {
        while Peek() != '\n' && !IsEnd()
          modifies this`current
          invariant start + 2 <= current <= |source|
          invariant LineEnd(source, current) == LineEnd(source, start + 2)
          decreases |source| - current
        {
          var _ := Advance();
        }
      } else {
        AddToken(Slash, None);
      }
    }

    /** Finishes a number literal whose first digit has been consumed. */
    method Number()
      requires Valid() && current == start + 1 && start < |source| && IsDigit(source[start])
      modifies this`current, this`tokens
      ensures Valid() && current == NumberEnd(source, start)
      ensures tokens == old(tokens) + NumberTokens(source, start)
    {
      SkipDigits();
      if Peek() == '.' && IsDigit(PeekNext()) {
        var _ := Advance();
        SkipDigits();
      }
      AddToken(TokenKind.Number, Some(Decimal(source[start..current])));
      if IsAlpha(Peek()) {
        tokens := tokens + [StarToken];
      }
    }

    /** One of the digit loops of `number`. */
    method SkipDigits()
      requires current <= |source|
      modifies this`current
      ensures current == DigitRunEnd(source, old(current))
    {
      while IsDigit(Peek())
        modifies this`current
        invariant old(current) <= current <= |source|
        invariant DigitRunEnd(source, current) == DigitRunEnd(source, old(current))
        decreases |source| - current
      {
        var _ := Advance();
      }
    }

    /** Finishes an identifier or keyword whose first character has been consumed. */
    method Identifier()
      requires Valid() && current == start + 1 && start < |source|
      modifies this`current, this`tokens
      ensures Valid() && current == WordEnd(source, start + 1)
      ensures tokens == old(tokens) + [WordToken(source, start)]
    {
      while IsAlphaNumeric(Peek())
        modifies this`current
        invariant start < current <= |source|
        invariant WordEnd(source, current) == WordEnd(source, start + 1)
        decreases |source| - current
      {
        var _ := Advance();
      }
      var text := source[start..current];
      var kind := if text in keywords then keywords[text] else TokenKind.Identifier;
      AddToken(kind, None);
    }

    function Peek(): (c: char)
      reads this
    {
      CharAt(source, current)
    }

    function PeekNext(): (c: char)
      reads this
    {
      CharAt(source, current + 1)
    }

    /** Consumes the current character if it is `expected`. */
    method Matches(expected: char) returns (b: bool)
      requires current <= |source|
      modifies this`current
      ensures b == (old(current) < |source| && source[old(current)] == expected)
      ensures current == if b then old(current) + 1 else old(current)
    {
      if IsEnd() {
        return false;
      }
      if source[current] == expected {
        current := current + 1;
        return true;
      }
      return false;
    }

    /** Appends a token whose lexeme is the text from `start` to `current`. */
    method AddToken(kind: TokenKind, literal: Option<Num>)
      requires start <= current <= |source|
      modifies this`tokens
      ensures tokens == old(tokens) + [Token(kind, source[start..current], literal)]
    {
      tokens := tokens + [Token(kind, source[start..current], literal)];
    }

    /** Moves past one character and returns it, if there was one. */
    method Advance() returns (ch: Option<char>)
      modifies this`current
      ensures current == old(current) + 1
      ensures ch == if old(current) < |source| then Some(source[old(current)]) else None
    {
      current := current + 1;
      ch := if current - 1 < |source| then Some(source[current - 1]) else None;
    }

    predicate IsEnd()
      reads this
    {
      current >= |source|
    }
  }
}
