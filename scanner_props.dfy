/** Properties of the lexer, stated on `ScanTokenAt` and `ScanFrom`. */
module ScannerProps {
  import opened Wrappers
  import opened Numbers
  import opened Tokens
  import opened Errors
  import opened Scanning

  /**
   * What one step emits: nothing (a blank or a comment), one token whose
   * lexeme is exactly the text consumed, or a number followed by the
   * synthetic `*` when a letter or `_` comes right after it.
   */
  lemma StepLexemes(src: string, i: nat)
    requires i < |src| && ScanTokenAt(src, i).Ok?
    ensures var lexed := ScanTokenAt(src, i).value;
      && |lexed.tokens| <= 2
      && (lexed.tokens != [] ==> lexed.tokens[0].lexeme == src[i..lexed.next])
      && (|lexed.tokens| == 2 ==>
            lexed.tokens[0].kind == TokenKind.Number && lexed.tokens[1] == StarToken
            && IsAlpha(CharAt(src, lexed.next)))
      && (lexed.tokens == [] <==> IsBlank(src[i]) || (src[i] == '/' && CharAt(src, i + 1) == '/'))
  {
  }

  /** Only number tokens carry a literal, and it is the number's own text. */
  lemma StepLiterals(src: string, i: nat)
    requires i < |src| && ScanTokenAt(src, i).Ok?
    ensures forall t | t in ScanTokenAt(src, i).value.tokens ::
      (t.literal.Some? <==> t.kind == TokenKind.Number) && (t.literal.Some? ==> t.literal == Some(Decimal(t.lexeme)))
  {
  }

  /** `<` and `>` take a following `=` into one two-character token. */
  lemma Comparisons(src: string, i: nat)
    requires i < |src| && (src[i] == '<' || src[i] == '>')
    ensures var two := CharAt(src, i + 1) == '=';
      var kind := if src[i] == '<' then (if two then LessEqual else Less)
                  else (if two then GreaterEqual else Greater);
      ScanTokenAt(src, i) == Ok(Lexed([Token(kind, if two then [src[i], '='] else [src[i]], None)],
                                      if two then i + 2 else i + 1))
  {
    var two := CharAt(src, i + 1) == '=';
    if two {
      assert src[i..i + 2] == [src[i], '='];
    } else {
      assert src[i..i + 1] == [src[i]];
    }
  }

  /**
   * `//` skips up to, and not including, the next line break (or the end of
   * the text) and emits nothing; a lone `/` is a Slash token.
   */
  lemma Comments(src: string, i: nat)
    requires i < |src| && src[i] == '/'
    ensures CharAt(src, i + 1) == '/' ==>
      exists j: nat :: ScanTokenAt(src, i) == Ok(Lexed([], j))
        && i + 2 <= j <= |src| && (j == |src| || src[j] == '\n')
        && forall k | i + 2 <= k < j :: src[k] != '\n'
    ensures CharAt(src, i + 1) != '/' ==> ScanTokenAt(src, i) == Ok(Lexed([Token(Slash, "/", None)], i + 1))
  {
    if CharAt(src, i + 1) == '/' {
      var j := LineEnd(src, i + 2);
      LineEndChars(src, i + 2);
      assert ScanTokenAt(src, i) == Ok(Lexed([], j));
    } else {
      assert src[i..i + 1] == "/";
    }
  }

  /** Blanks emit nothing and move one character on. */
  lemma Blanks(src: string, i: nat)
    requires i < |src| && IsBlank(src[i])
    ensures ScanTokenAt(src, i) == Ok(Lexed([], i + 1))
  {
  }

  /**
   * A number lexeme is a maximal run of digits, extended by `.` and a second
   * maximal digit run exactly when a digit follows the `.`.
   */
  lemma NumberLexeme(src: string, i: nat)
    requires i < |src| && IsDigit(src[i])
    ensures var j := NumberEnd(src, i);
      var k := DigitRunEnd(src, i + 1);
      && (forall m | i <= m < k :: IsDigit(src[m]))
      && !IsDigit(CharAt(src, k))
      && (CharAt(src, k) == '.' && IsDigit(CharAt(src, k + 1)) ==>
            && k + 1 < j && (forall m | k < m < j :: IsDigit(src[m])) && !IsDigit(CharAt(src, j)))
      && (!(CharAt(src, k) == '.' && IsDigit(CharAt(src, k + 1))) ==> j == k)
  {
    var k := DigitRunEnd(src, i + 1);
    DigitRunDigits(src, i + 1);
    if CharAt(src, k) == '.' && IsDigit(CharAt(src, k + 1)) {
      DigitRunDigits(src, k + 1);
    }
  }

  /** An identifier's kind: exactly the word `print` is the Print keyword. */
  lemma Words(src: string, i: nat)
    requires i < |src| && IsAlpha(src[i])
    ensures var j := WordEnd(src, i + 1);
      && ScanTokenAt(src, i) == Ok(Lexed([WordToken(src, i)], j))
      && (forall m | i < m < j :: IsAlphaNumeric(src[m]))
      && WordToken(src, i).lexeme == src[i..j]
      && WordToken(src, i).kind == (if src[i..j] == "print" then Print else Identifier)
  {
    WordEndChars(src, i + 1);
  }

  /** Any other character aborts the scan. */
  lemma Unexpected(src: string, i: nat)
    requires i < |src|
    requires !IsSingleChar(src[i]) && !IsBlank(src[i]) && !IsDigit(src[i]) && !IsAlpha(src[i])
    requires src[i] !in "<>/"
    ensures ScanTokenAt(src, i) == Err(UnexpectedCharacter(src[i]))
    ensures forall acc :: ScanFrom(src, i, acc) == Err(UnexpectedCharacter(src[i]))
  {
  }
}

/**
 * Lines are scanned independently: scanning `a`, a line break and `b` gives
 * the tokens of `a` followed by those of `b`, and fails exactly when one of
 * them fails (with the first failure).
 */
module ScannerLines {
  import opened Tokens
  import opened Errors
  import opened Numbers
  import opened Scanning

  /** `src` starts with `a` and then a line break. */
  predicate LineAfter(src: string, a: string) {
    |a| < |src| && src[..|a|] == a && src[|a|] == '\n'
  }

  /** `src` ends with `b`, which starts at position `d`. */
  predicate EndsWith(src: string, b: string, d: nat) {
    d + |b| == |src| && src[d..] == b
  }

  lemma {:induction false} DigitRunPrefix(src: string, a: string, i: nat)
    requires LineAfter(src, a) && i <= |a|
    ensures DigitRunEnd(src, i) == DigitRunEnd(a, i)
    decreases |a| - i
  {
    if i < |a| {
      assert src[i] == a[i];
      if IsDigit(a[i]) {
        DigitRunPrefix(src, a, i + 1);
      }
    }
  }

  lemma {:induction false} WordEndPrefix(src: string, a: string, i: nat)
    requires LineAfter(src, a) && i <= |a|
    ensures WordEnd(src, i) == WordEnd(a, i)
    decreases |a| - i
  {
    if i < |a| {
      assert src[i] == a[i];
      if IsAlphaNumeric(a[i]) {
        WordEndPrefix(src, a, i + 1);
      }
    }
  }

  lemma {:induction false} LineEndPrefix(src: string, a: string, i: nat)
    requires LineAfter(src, a) && i <= |a|
    ensures LineEnd(src, i) == LineEnd(a, i)
    decreases |a| - i
  {
    if i < |a| {
      assert src[i] == a[i];
      if a[i] != '\n' {
        LineEndPrefix(src, a, i + 1);
      }
    }
  }

  lemma SlicePrefix(src: string, a: string, i: nat, j: nat)
    requires LineAfter(src, a) && i <= j <= |a|
    ensures src[i..j] == a[i..j]
  {
    forall k | 0 <= k < j - i
      ensures src[i..j][k] == a[i..j][k]
    {
      assert src[..|a|][i + k] == src[i + k];
    }
  }

  lemma CharPrefix(src: string, a: string, k: nat)
    requires LineAfter(src, a) && k <= |a|
    ensures CharAt(src, k) == if k < |a| then CharAt(a, k) else '\n'
  {
    if k < |a| {
      assert src[..|a|][k] == src[k];
    }
  }

  lemma NumberPrefix(src: string, a: string, i: nat)
    requires LineAfter(src, a) && i < |a| && IsDigit(a[i])
    ensures IsDigit(src[i])
    ensures NumberEnd(src, i) == NumberEnd(a, i)
    ensures NumberTokens(src, i) == NumberTokens(a, i)
  {
    CharPrefix(src, a, i);
    DigitRunPrefix(src, a, i + 1);
    var k := DigitRunEnd(a, i + 1);
    CharPrefix(src, a, k);
    if CharAt(a, k) == '.' {
      CharPrefix(src, a, k + 1);
      if IsDigit(CharAt(a, k + 1)) {
        DigitRunPrefix(src, a, k + 1);
      }
    }
    var j := NumberEnd(a, i);
    SlicePrefix(src, a, i, j);
    CharPrefix(src, a, j);
  }

  /** Before the line break, a step sees the same text as it would in `a` alone. */
  lemma StepPrefix(src: string, a: string, i: nat)
    requires LineAfter(src, a) && i < |a|
    ensures ScanTokenAt(src, i) == ScanTokenAt(a, i)
  {
    CharPrefix(src, a, i);
    CharPrefix(src, a, i + 1);
    var c := a[i];
    if IsSingleChar(c) {
      SlicePrefix(src, a, i, i + 1);
    } else if c == '<' || c == '>' {
      SlicePrefix(src, a, i, if CharAt(a, i + 1) == '=' then i + 2 else i + 1);
    } else if c == '/' {
      if CharAt(a, i + 1) == '/' {
        LineEndPrefix(src, a, i + 2);
      }
      SlicePrefix(src, a, i, i + 1);
    } else if IsBlank(c) {
    } else if IsDigit(c) {
      NumberPrefix(src, a, i);
    } else if IsAlpha(c) {
      WordEndPrefix(src, a, i + 1);
      SlicePrefix(src, a, i, WordEnd(a, i + 1));
    }
  }

  /** Scanning up to the line break does what scanning `a` does, then goes on after the break. */
  lemma {:induction false} ScanFromPrefix(src: string, a: string, i: nat, acc: seq<Token>)
    requires LineAfter(src, a) && i <= |a|
    ensures var r := ScanFrom(a, i, acc);
      ScanFrom(src, i, acc) == if r.Err? then r else ScanFrom(src, |a| + 1, r.value)
    decreases |a| - i
  {
    if i == |a| {
      assert ScanTokenAt(src, i) == Ok(Lexed([], i + 1));
      assert acc + [] == acc;
    } else {
      StepPrefix(src, a, i);
      match ScanTokenAt(a, i)
      case Err(_) =>
      case Ok(lexed) =>
        ScanFromPrefix(src, a, lexed.next, acc + lexed.tokens);
    }
  }

  lemma {:induction false} DigitRunShift(src: string, b: string, d: nat, i: nat)
    requires EndsWith(src, b, d) && i <= |b|
    ensures DigitRunEnd(src, d + i) == d + DigitRunEnd(b, i)
    decreases |b| - i
  {
    if i < |b| {
      assert src[d + i] == b[i];
      if IsDigit(b[i]) {
        DigitRunShift(src, b, d, i + 1);
      }
    }
  }

  lemma {:induction false} WordEndShift(src: string, b: string, d: nat, i: nat)
    requires EndsWith(src, b, d) && i <= |b|
    ensures WordEnd(src, d + i) == d + WordEnd(b, i)
    decreases |b| - i
  {
    if i < |b| {
      assert src[d + i] == b[i];
      if IsAlphaNumeric(b[i]) {
        WordEndShift(src, b, d, i + 1);
      }
    }
  }

  lemma {:induction false} LineEndShift(src: string, b: string, d: nat, i: nat)
    requires EndsWith(src, b, d) && i <= |b|
    ensures LineEnd(src, d + i) == d + LineEnd(b, i)
    decreases |b| - i
  {
    if i < |b| {
      assert src[d + i] == b[i];
      if b[i] != '\n' {
        LineEndShift(src, b, d, i + 1);
      }
    }
  }

  lemma CharShift(src: string, b: string, d: nat, k: nat)
    requires EndsWith(src, b, d)
    ensures CharAt(src, d + k) == CharAt(b, k)
  {
    if k < |b| {
      assert src[d + k] == src[d..][k];
    }
  }

  lemma SliceShift(src: string, b: string, d: nat, i: nat, j: nat)
    requires EndsWith(src, b, d) && i <= j <= |b|
    ensures src[d + i..d + j] == b[i..j]
  {
    forall k | 0 <= k < j - i
      ensures src[d + i..d + j][k] == b[i..j][k]
    {
      assert src[d..][i + k] == src[d + i + k];
    }
  }

  lemma NumberEndShift(src: string, b: string, d: nat, i: nat)
    requires EndsWith(src, b, d) && i < |b| && IsDigit(b[i])
    ensures IsDigit(src[d + i])
    ensures NumberEnd(src, d + i) == d + NumberEnd(b, i)
  {
    CharShift(src, b, d, i);
    DigitRunShift(src, b, d, i + 1);
    var k := DigitRunEnd(b, i + 1);
    CharShift(src, b, d, k);
    CharShift(src, b, d, k + 1);
    if CharAt(b, k) == '.' && IsDigit(CharAt(b, k + 1)) {
      DigitRunShift(src, b, d, k + 1);
    }
  }

  lemma NumberShift(src: string, b: string, d: nat, i: nat)
    requires EndsWith(src, b, d) && i < |b| && IsDigit(b[i])
    ensures IsDigit(src[d + i])
    ensures NumberEnd(src, d + i) == d + NumberEnd(b, i)
    ensures NumberTokens(src, d + i) == NumberTokens(b, i)
  {
    NumberEndShift(src, b, d, i);
    var j := NumberEnd(b, i);
    SliceShift(src, b, d, i, j);
    CharShift(src, b, d, j);
  }

  /** Operators, comments and blanks inside `b`. */
  lemma PunctuationShift(src: string, b: string, d: nat, i: nat)
    requires EndsWith(src, b, d) && i < |b| && !IsDigit(b[i]) && !IsAlpha(b[i])
    ensures ScanTokenAt(src, d + i) ==
      match ScanTokenAt(b, i)
      case Err(e) => Err(e)
      case Ok(lexed) => Ok(Lexed(lexed.tokens, d + lexed.next))
  {
    CharShift(src, b, d, i);
    CharShift(src, b, d, i + 1);
    var c := b[i];
    if IsSingleChar(c) {
      SliceShift(src, b, d, i, i + 1);
    } else if c == '<' || c == '>' {
      SliceShift(src, b, d, i, if CharAt(b, i + 1) == '=' then i + 2 else i + 1);
    } else if c == '/' {
      if CharAt(b, i + 1) == '/' {
        LineEndShift(src, b, d, i + 2);
      }
      SliceShift(src, b, d, i, i + 1);
    }
  }

  lemma WordShift(src: string, b: string, d: nat, i: nat)
    requires EndsWith(src, b, d) && i < |b| && IsAlpha(b[i])
    ensures IsAlpha(src[d + i])
    ensures WordEnd(src, d + i + 1) == d + WordEnd(b, i + 1)
    ensures WordToken(src, d + i) == WordToken(b, i)
  {
    CharShift(src, b, d, i);
    WordEndShift(src, b, d, i + 1);
    SliceShift(src, b, d, i, WordEnd(b, i + 1));
  }

  /** The text before `b` does not change what a step inside `b` emits. */
  lemma StepShift(src: string, b: string, d: nat, i: nat)
    requires EndsWith(src, b, d) && i < |b|
    ensures ScanTokenAt(src, d + i) ==
      match ScanTokenAt(b, i)
      case Err(e) => Err(e)
      case Ok(lexed) => Ok(Lexed(lexed.tokens, d + lexed.next))
  {
    if IsDigit(b[i]) {
      NumberShift(src, b, d, i);
    } else if IsAlpha(b[i]) {
      WordShift(src, b, d, i);
    } else {
      PunctuationShift(src, b, d, i);
    }
  }

  lemma {:induction false} ScanFromShift(src: string, b: string, d: nat, i: nat, acc: seq<Token>)
    requires EndsWith(src, b, d) && i <= |b|
    ensures ScanFrom(src, d + i, acc) == ScanFrom(b, i, acc)
    decreases |b| - i
  {
    if i < |b| {
      StepShift(src, b, d, i);
      match ScanTokenAt(b, i)
      case Err(_) =>
      case Ok(lexed) =>
        ScanFromShift(src, b, d, lexed.next, acc + lexed.tokens);
    }
  }

  /** Scanning `a`, a line break and `b` is scanning `a` and then `b`. */
  lemma ScanLines(a: string, b: string)
    ensures var r := ScanFrom(a, 0, []);
      ScanFrom(a + "\n" + b, 0, []) == if r.Err? then r else ScanFrom(b, 0, r.value)
  {
    var src := a + "\n" + b;
    assert src[..|a|] == a;
    assert src[|a| + 1..] == b;
    ScanFromPrefix(src, a, 0, []);
    match ScanFrom(a, 0, [])
    case Err(_) =>
    case Ok(t) =>
      ScanFromShift(src, b, |a| + 1, 0, t);
  }
}
