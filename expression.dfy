/**
  The server's arithmetic-expression evaluator for the o, jod and ko cells of
  a game row (game-book-server/controllers/receiptController.js, lines
  103-121): a non-string or blank input is 0; otherwise every character
  outside 0-9 + - * / . is removed, a trailing run of + - * / . is removed,
  and what is left is evaluated as a JavaScript expression, with 0 for an
  empty string, a syntax error or a result that is not finite.

  The evaluation is written out as the three stages JavaScript performs on
  such a string: lexing (numerals by longest match, comments, and the `++` and
  `--` tokens that make the expression invalid), parsing with the usual
  precedence (unary signs, then * and /, then + and -, all left-associative),
  and exact evaluation, where a division by zero stands for the infinite or
  NaN results that the final finiteness test turns into 0.

  One JavaScript token is not modelled: the exponentiation operator `**`.
  Its results need not be rational (2 ** 0.5), so it cannot be evaluated on
  exact reals; the lexer here reads it as two `*` tokens, which the parser
  rejects, so such an input evaluates to 0.
 */
module ReceiptExpression {
  import opened Common
  import opened JsText

  // ---------------------------------------------------------------------------
  // Character-level stages

  /** The characters the sanitiser keeps: the class [0-9+\-*\/.]. */
  predicate IsExprChar(c: char)
  {
    IsDigit(c) || c == '+' || c == '-' || c == '*' || c == '/' || c == '.'
  }

  /** The characters the trailing run may consist of: the class [+\-*\/.]. */
  predicate IsTrailingChar(c: char)
  {
    c == '+' || c == '-' || c == '*' || c == '/' || c == '.'
  }

  /** `expression.replace(/[^0-9+\-*\/.]/g, "")`. */
  function Sanitize(s: string): string
  {
    Keep(s, IsExprChar)
  }

  /** `sanitized.replace(/[+\-*\/.]+$/, "")`. */
  function StripTrailing(s: string): (r: string)
    ensures |r| <= |s| && r == s[..|r|]
    ensures r == [] || !IsTrailingChar(r[|r| - 1])
    ensures forall i :: |r| <= i < |s| ==> IsTrailingChar(s[i])
  {
    if s != [] && IsTrailingChar(s[|s| - 1]) then StripTrailing(s[..|s| - 1]) else s
  }

  // ---------------------------------------------------------------------------
  // Lexing

  datatype Token = Num(value: real) | Plus | Minus | Times | Slash

  function Prepend(t: Token, rest: Option<seq<Token>>): Option<seq<Token>>
  {
    match rest
    case None => None
    case Some(ts) => Some([t] + ts)
  }

  /** The index just after the first "*\/" at or after index k, if there is one. */
  function CommentEnd(s: string, k: nat): (r: Option<nat>)
    requires k <= |s|
    ensures r.Some? ==> k + 2 <= r.value <= |s| && s[r.value - 2] == '*' && s[r.value - 1] == '/'
    decreases |s| - k
  {
    if k + 2 > |s| then None
    else if s[k] == '*' && s[k + 1] == '/' then Some(k + 2)
    else CommentEnd(s, k + 1)
  }

  /**
    The tokens of s from index i on; None for a lexical error: a '.' that
    starts no numeral, the tokens `++` and `--` (which cannot occur in a valid
    expression of numerals), an unterminated block comment, or a character
    the sanitiser would have removed. A line comment `//` ends the input.
   */
  function Lex(s: string, i: nat): Option<seq<Token>>
    requires i <= |s|
    decreases |s| - i
  {
    if i == |s| then Some([])
    else
      var c := s[i];
      if IsDigit(c) || c == '.' then
        match DecimalAt(s, i)
        case None => None
        case Some(sc) => Prepend(Num(sc.value), Lex(s, sc.end))
      else if c == '+' || c == '-' then
        if i + 1 < |s| && s[i + 1] == c then None
        else Prepend(if c == '+' then Plus else Minus, Lex(s, i + 1))
      else if c == '*' then Prepend(Times, Lex(s, i + 1))
      else if c == '/' then
        if i + 1 < |s| && s[i + 1] == '/' then Some([])
        else if i + 1 < |s| && s[i + 1] == '*' then
          match CommentEnd(s, i + 2)
          case None => None
          case Some(j) => Lex(s, j)
        else Prepend(Slash, Lex(s, i + 1))
      else None
  }

  // ---------------------------------------------------------------------------
  // Parsing

  datatype BinOp = Add | Sub | Mul | Div

  datatype Ast = Lit(value: real) | Neg(operand: Ast) | Pos(operand: Ast) | Bin(op: BinOp, left: Ast, right: Ast)

  datatype Parsed = Parsed(ast: Ast, rest: seq<Token>)

  /**
    Unary := ('+' | '-') Unary | Num. A '*' or a '/' where an operand is due
    is an error (a '/' there would start a regular-expression literal, whose
    value is never a finite number in this grammar).
   */
  function ParseUnary(ts: seq<Token>): (r: Option<Parsed>)
    ensures r.Some? ==> |r.value.rest| < |ts|
  {
    if ts == [] then None
    else match ts[0]
      case Num(v) => Some(Parsed(Lit(v), ts[1..]))
      case Plus =>
        (match ParseUnary(ts[1..])
         case None => None
         case Some(p) => Some(Parsed(Pos(p.ast), p.rest)))
      case Minus =>
        (match ParseUnary(ts[1..])
         case None => None
         case Some(p) => Some(Parsed(Neg(p.ast), p.rest)))
      case _ => None
  }

  /** The ('*' | '/') Unary repetitions after a first operand acc, folded to the left. */
  function ParseTermTail(acc: Ast, ts: seq<Token>): (r: Option<Parsed>)
    ensures r.Some? ==> |r.value.rest| <= |ts|
    ensures r.Some? ==> r.value.rest == [] || !(r.value.rest[0].Times? || r.value.rest[0].Slash?)
    decreases |ts|
  {
    if ts != [] && (ts[0] == Times || ts[0] == Slash) then
      match ParseUnary(ts[1..])
      case None => None
      case Some(p) => ParseTermTail(Bin(if ts[0] == Times then Mul else Div, acc, p.ast), p.rest)
    else Some(Parsed(acc, ts))
  }

  /** Term := Unary (('*' | '/') Unary)*. */
  function ParseTerm(ts: seq<Token>): (r: Option<Parsed>)
    ensures r.Some? ==> |r.value.rest| < |ts|
  {
    match ParseUnary(ts)
    case None => None
    case Some(p) => ParseTermTail(p.ast, p.rest)
  }

  /** The ('+' | '-') Term repetitions after a first term acc, folded to the left. */
  function ParseExprTail(acc: Ast, ts: seq<Token>): (r: Option<Parsed>)
    ensures r.Some? ==> |r.value.rest| <= |ts|
    decreases |ts|
  {
    if ts != [] && (ts[0] == Plus || ts[0] == Minus) then
      match ParseTerm(ts[1..])
      case None => None
      case Some(p) => ParseExprTail(Bin(if ts[0] == Plus then Add else Sub, acc, p.ast), p.rest)
    else Some(Parsed(acc, ts))
  }

  /** Expr := Term (('+' | '-') Term)*, which must use up every token. */
  function Parse(ts: seq<Token>): Option<Ast>
  {
    match ParseTerm(ts)
    case None => None
    case Some(p) =>
      match ParseExprTail(p.ast, p.rest)
      case None => None
      case Some(q) => if q.rest == [] then Some(q.ast) else None
  }

  // ---------------------------------------------------------------------------
  // Evaluation

  /** One arithmetic step; None when a zero divisor makes the result infinite or NaN. */
  function Apply(op: BinOp, x: real, y: real): Option<real>
  {
    match op
    case Add => Some(x + y)
    case Sub => Some(x - y)
    case Mul => Some(x * y)
    case Div => if y == 0.0 then None else Some(x / y)
  }

  /** The exact value of an expression; None once a division by zero makes it infinite or NaN. */
  function Eval(e: Ast): Option<real>
  {
    match e
    case Lit(v) => Some(v)
    case Pos(a) => Eval(a)
    case Neg(a) =>
      (match Eval(a)
       case None => None
       case Some(v) => Some(-v))
    case Bin(op, a, b) =>
      match (Eval(a), Eval(b))
      case (Some(x), Some(y)) => Apply(op, x, y)
      case _ => None
  }

  /** The value of a token sequence; 0 when it does not parse or its value is not finite. */
  function TokensValue(ts: seq<Token>): real
  {
    match Parse(ts)
    case None => 0.0
    case Some(e) =>
      match Eval(e)
      case None => 0.0
      case Some(v) => v
  }

  /** The value of a sanitised, stripped, non-empty string; 0 for every failure. */
  function Calc(s: string): real
  {
    match Lex(s, 0)
    case None => 0.0
    case Some(ts) => TokensValue(ts)
  }

  /**
    `evaluateExpression(expression)`; None stands for an argument that is not
    a string. A string that survives the clean-up is worth the reference
    value of its tokens, and 0 when it does not lex.
   */
  function Evaluate(expression: Option<string>): (r: real)
    ensures expression.None? ==> r == 0.0
    ensures expression.Some? && Trim(expression.value) == [] ==> r == 0.0
    ensures expression.Some? && StripTrailing(Sanitize(expression.value)) == [] ==> r == 0.0
    ensures expression.Some? && Trim(expression.value) != [] && StripTrailing(Sanitize(expression.value)) != [] ==>
      var s := StripTrailing(Sanitize(expression.value));
      r == match Lex(s, 0) case None => 0.0 case Some(ts) => ReferenceValue(ts)
  {
    if expression.None? || Trim(expression.value) == [] then 0.0
    else
      var s := StripTrailing(Sanitize(expression.value));
      if s == [] then 0.0
      else
        match Lex(s, 0)
        case None => 0.0
        case Some(ts) => TokensValueIsReference(ts); TokensValue(ts)
  }

  // ---------------------------------------------------------------------------
  // The reference reading: one pass from left to right

  /** A token sequence is not an expression, has no finite value, or has the value v. */
  datatype Outcome = Malformed | NotFinite | Value(v: real)

  function OutcomeOf(x: Option<real>): Outcome
  {
    match x
    case None => NotFinite
    case Some(v) => Value(v)
  }

  datatype Operand = Operand(value: real, rest: seq<Token>)

  /** A numeral after any number of signs, each '-' negating it, and the tokens after it. */
  function SignedNumeral(ts: seq<Token>): (r: Option<Operand>)
    ensures r.Some? ==> |r.value.rest| < |ts|
  {
    if ts == [] then None
    else match ts[0]
      case Num(v) => Some(Operand(v, ts[1..]))
      case Plus => SignedNumeral(ts[1..])
      case Minus =>
        (match SignedNumeral(ts[1..])
         case None => None
         case Some(o) => Some(Operand(-o.value, o.rest)))
      case _ => None
  }

  /** One arithmetic step on values that may already be infinite or NaN (None). */
  function Combine(op: BinOp, x: Option<real>, y: Option<real>): Option<real>
  {
    if x.Some? && y.Some? then Apply(op, x.value, y.value) else None
  }

  /**
    A pass with two accumulators: sum is the value of the finished terms, op
    says whether the current term is added or subtracted, and term is the
    current term, a left fold of its operands by '*' and '/'. A '+' or '-'
    closes the term into the sum and starts the next; the end closes the last.
    After an operand only an operator may follow.
   */
  function Pass(sum: Option<real>, op: BinOp, term: Option<real>, ts: seq<Token>): Outcome
    decreases |ts|
  {
    if ts == [] then OutcomeOf(Combine(op, sum, term))
    else if ts[0].Num? then Malformed
    else
      match SignedNumeral(ts[1..])
      case None => Malformed
      case Some(o) =>
        if ts[0].Times? || ts[0].Slash? then Pass(sum, op, Combine(OpOf(ts[0]), term, Some(o.value)), o.rest)
        else Pass(Combine(op, sum, term), OpOf(ts[0]), Some(o.value), o.rest)
  }

  /** The reference reading: a signed numeral starts the first term, which is added to 0. */
  function Reference(ts: seq<Token>): Outcome
  {
    match SignedNumeral(ts)
    case None => Malformed
    case Some(o) => Pass(Some(0.0), Add, Some(o.value), o.rest)
  }

  /** The reference value, 0 for every failure. */
  function ReferenceValue(ts: seq<Token>): real
  {
    if Reference(ts).Value? then Reference(ts).v else 0.0
  }

  /** What parsing and evaluating a token sequence comes to, as an outcome. */
  function ParsedOutcome(ts: seq<Token>): Outcome
  {
    match Parse(ts)
    case None => Malformed
    case Some(e) => OutcomeOf(Eval(e))
  }

  /** The parser's operand is the reference's signed numeral, with the same value. */
  lemma {:induction false} UnaryIsSignedNumeral(ts: seq<Token>)
    ensures ParseUnary(ts).None? <==> SignedNumeral(ts).None?
    ensures ParseUnary(ts).Some? ==>
      ParseUnary(ts).value.rest == SignedNumeral(ts).value.rest
      && Eval(ParseUnary(ts).value.ast) == Some(SignedNumeral(ts).value.value)
    decreases |ts|
  {
    if ts != [] && (ts[0].Plus? || ts[0].Minus?) {
      UnaryIsSignedNumeral(ts[1..]);
    }
  }

  /** Folding a term's '*' and '/' operands into a tree and then evaluating it is what the pass does. */
  lemma {:induction false} TermTailPass(sum: Option<real>, op: BinOp, acc: Ast, ts: seq<Token>)
    ensures Pass(sum, op, Eval(acc), ts)
         == match ParseTermTail(acc, ts)
            case None => Malformed
            case Some(p) => Pass(sum, op, Eval(p.ast), p.rest)
    decreases |ts|
  {
    if ts != [] && (ts[0] == Times || ts[0] == Slash) {
      UnaryIsSignedNumeral(ts[1..]);
      match ParseUnary(ts[1..]) {
        case None =>
        case Some(u) =>
          var b := Bin(if ts[0] == Times then Mul else Div, acc, u.ast);
          assert Eval(b) == Combine(OpOf(ts[0]), Eval(acc), Eval(u.ast));
          TermTailPass(sum, op, b, u.rest);
      }
    }
  }

  /**
    After a finished term, with the tree acc standing for the sum so far,
    parsing the '+' and '-' repetitions and evaluating them is what the pass does.
   */
  lemma {:induction false} ExprTailPass(sum: Option<real>, op: BinOp, term: Option<real>, acc: Ast, ts: seq<Token>)
    requires Eval(acc) == Combine(op, sum, term)
    requires ts == [] || !(ts[0].Times? || ts[0].Slash?)
    ensures Pass(sum, op, term, ts)
         == match ParseExprTail(acc, ts)
            case None => Malformed
            case Some(q) => if q.rest == [] then OutcomeOf(Eval(q.ast)) else Malformed
    decreases |ts|, 1
  {
    if ts != [] && (ts[0] == Plus || ts[0] == Minus) {
      ExprTailPassSign(sum, op, term, acc, ts);
    }
  }

  /** ExprTailPass when the next token is '+' or '-': one more term. */
  lemma {:induction false} ExprTailPassSign(sum: Option<real>, op: BinOp, term: Option<real>, acc: Ast, ts: seq<Token>)
    requires Eval(acc) == Combine(op, sum, term)
    requires ts != [] && (ts[0] == Plus || ts[0] == Minus)
    ensures Pass(sum, op, term, ts)
         == match ParseExprTail(acc, ts)
            case None => Malformed
            case Some(q) => if q.rest == [] then OutcomeOf(Eval(q.ast)) else Malformed
    decreases |ts|, 0
  {
    var sum', op' := Combine(op, sum, term), OpOf(ts[0]);
    UnaryIsSignedNumeral(ts[1..]);
    match ParseUnary(ts[1..]) {
      case None =>
      case Some(u) =>
        var o := SignedNumeral(ts[1..]).value;
        assert Pass(sum, op, term, ts) == Pass(sum', op', Some(o.value), u.rest);
        TermTailPass(sum', op', u.ast, u.rest);
        assert ParseTerm(ts[1..]) == ParseTermTail(u.ast, u.rest);
        match ParseTermTail(u.ast, u.rest) {
          case None =>
          case Some(t) =>
            var b := Bin(if ts[0] == Plus then Add else Sub, acc, t.ast);
            assert ParseExprTail(acc, ts) == ParseExprTail(b, t.rest);
            assert Eval(b) == Combine(op', sum', Eval(t.ast));
            ExprTailPass(sum', op', Eval(t.ast), b, t.rest);
        }
    }
  }

  /** The parser and the reference pass agree on every token sequence. */
  lemma ReferenceIsParsed(ts: seq<Token>)
    ensures Reference(ts) == ParsedOutcome(ts)
  {
    UnaryIsSignedNumeral(ts);
    match ParseUnary(ts) {
      case None =>
      case Some(u) =>
        TermTailPass(Some(0.0), Add, u.ast, u.rest);
        match ParseTermTail(u.ast, u.rest) {
          case None =>
          case Some(t) =>
            assert Combine(Add, Some(0.0), Eval(t.ast)) == Eval(t.ast);
            ExprTailPass(Some(0.0), Add, Eval(t.ast), t.ast, t.rest);
        }
    }
  }

  /**
    The value of a token sequence is its reference value: a token sequence the
    grammar rejects is exactly one the reference finds malformed, and a zero
    divisor anywhere gives 0 in both.
   */
  lemma TokensValueIsReference(ts: seq<Token>)
    ensures Parse(ts).None? <==> Reference(ts).Malformed?
    ensures Parse(ts).Some? && Eval(Parse(ts).value).None? <==> Reference(ts).NotFinite?
    ensures TokensValue(ts) == ReferenceValue(ts)
  {
    ReferenceIsParsed(ts);
  }

  /** On the reference pass '*' binds tighter than '+', and a zero divisor leaves no finite value. */
  lemma ReferenceExamples(a: real, b: real, c: real)
    ensures Reference([Num(a), Plus, Num(b), Times, Num(c)]) == Value(a + b * c)
    ensures Reference([Num(a), Slash, Num(0.0), Plus, Num(b)]) == NotFinite
  {
    var t1, t2 := [Plus, Num(b), Times, Num(c)], [Times, Num(c)];
    assert [Num(a), Plus, Num(b), Times, Num(c)][1..] == t1 && t1[1..] == [Num(b)] + t2;
    assert ([Num(b)] + t2)[1..] == t2 && t2[1..] == [Num(c)] && [Num(c)][1..] == [];
    assert Pass(Some(0.0 + a), Add, Some(b * c), []) == Value(a + b * c);
    assert Pass(Some(0.0 + a), Add, Some(b), t2) == Value(a + b * c);
    assert Pass(Some(0.0), Add, Some(a), t1) == Value(a + b * c);
    var u1, u2 := [Slash, Num(0.0), Plus, Num(b)], [Plus, Num(b)];
    assert [Num(a), Slash, Num(0.0), Plus, Num(b)][1..] == u1 && u1[1..] == [Num(0.0)] + u2;
    assert ([Num(0.0)] + u2)[1..] == u2 && u2[1..] == [Num(b)] && [Num(b)][1..] == [];
    assert Pass(None, Add, Some(b), []) == NotFinite;
    assert Pass(Some(0.0), Add, None, u2) == NotFinite;
    assert Pass(Some(0.0), Add, Some(a), u1) == NotFinite;
  }

  // ---------------------------------------------------------------------------
  // Properties of the character stages

  /** Sanitising distributes over concatenation ... */
  lemma SanitizeAppend(a: string, b: string)
    ensures Sanitize(a + b) == Sanitize(a) + Sanitize(b)
  {
    KeepAppend(a, b, IsExprChar);
  }

  /** ... and keeps a single character exactly when it is in the class; together these fix it. */
  lemma SanitizeOne(c: char)
    ensures Sanitize([c]) == if IsExprChar(c) then [c] else []
  {
    assert [c][..0] == [];
    assert Keep([c], IsExprChar) == Keep([], IsExprChar) + (if IsExprChar(c) then [c] else []);
  }

  /** What the sanitiser keeps is in the class, with every such character kept as often as it occurs. */
  lemma SanitizeIsFilter(s: string)
    ensures forall i :: 0 <= i < |Sanitize(s)| ==> IsExprChar(Sanitize(s)[i])
    ensures forall c :: multiset(Sanitize(s))[c] == if IsExprChar(c) then multiset(s)[c] else 0
  {
    KeepIsFilter(s, IsExprChar);
  }

  lemma SanitizeIdempotent(s: string)
    ensures Sanitize(Sanitize(s)) == Sanitize(s)
  {
    KeepIdempotent(s, IsExprChar);
  }

  lemma {:induction false} StripTrailingIdempotent(s: string)
    ensures StripTrailing(StripTrailing(s)) == StripTrailing(s)
  {
  }

  /** Removing the trailing run takes off exactly a suffix made of trailing characters. */
  lemma {:induction false} StripTrailingOfSuffix(a: string, ops: string)
    requires a == [] || !IsTrailingChar(a[|a| - 1])
    requires forall i :: 0 <= i < |ops| ==> IsTrailingChar(ops[i])
    ensures StripTrailing(a + ops) == a
    decreases |ops|
  {
    if ops == [] {
      assert a + ops == a;
    } else {
      var init := ops[..|ops| - 1];
      assert (a + ops)[..|a + ops| - 1] == a + init;
      StripTrailingOfSuffix(a, init);
    }
  }

  /** Whitespace is never in the class, so a non-empty sanitised string is not blank. */
  lemma SanitizedNotBlank(s: string)
    requires Sanitize(s) != []
    ensures Trim(s) != []
  {
    SanitizeIsFilter(s);
    var c := Sanitize(s)[0];
    assert c in multiset(Sanitize(s));
    assert c in multiset(s);
    assert c in s;
    var i :| 0 <= i < |s| && s[i] == c;
    assert !IsJsWhitespace(s[i]);
    TrimEmptyIffBlank(s);
  }

  /** Only the characters of the class matter: evaluating the sanitised input gives the same value. */
  lemma EvaluateIgnoresForeignCharacters(s: string)
    ensures Evaluate(Some(s)) == Evaluate(Some(Sanitize(s)))
  {
    SanitizeIdempotent(s);
    if Sanitize(s) != [] {
      SanitizedNotBlank(s);
      SanitizedNotBlank(Sanitize(s));
    }
  }

  // ---------------------------------------------------------------------------
  // Lexing and evaluation of plain numerals

  lemma {:induction false} DigitsEndRun(s: string, i: nat, j: nat)
    requires i <= j <= |s|
    requires forall k :: i <= k < j ==> IsDigit(s[k])
    requires j == |s| || !IsDigit(s[j])
    ensures DigitsEnd(s, i) == j
    decreases j - i
  {
    if i < j {
      DigitsEndRun(s, i + 1, j);
    }
  }

  /** A run of digits at index i that ends the string or is followed by an operator is one numeral. */
  lemma LexDigitRun(s: string, i: nat, j: nat)
    requires i < j <= |s|
    requires forall k :: i <= k < j ==> IsDigit(s[k])
    requires j == |s| || (IsTrailingChar(s[j]) && s[j] != '.')
    ensures Lex(s, i) == Prepend(Num(DigitsValue(s[i..j]) as real), Lex(s, j))
  {
    DigitsEndRun(s, i, j);
    assert DecimalAt(s, i) == Some(Scan(j, DigitsValue(s[i..j]) as real));
  }

  /** An operator character that does not start `++`, `--` or a comment is one token. */
  lemma LexOperator(s: string, i: nat)
    requires i < |s|
    requires s[i] == '+' || s[i] == '-' || s[i] == '*' || s[i] == '/'
    requires i + 1 == |s| || IsDigit(s[i + 1])
    ensures Lex(s, i) == Prepend(OpToken(s[i]), Lex(s, i + 1))
  {
  }

  function OpToken(op: char): Token
  {
    match op
    case '+' => Plus
    case '-' => Minus
    case '*' => Times
    case _ => Slash
  }

  /** Sanitising and stripping leave an expression of class characters ending in a digit unchanged. */
  lemma Unchanged(s: string)
    requires s != [] && IsDigit(s[|s| - 1])
    requires forall i :: 0 <= i < |s| ==> IsExprChar(s[i])
    ensures Sanitize(s) == s && StripTrailing(s) == s
  {
    KeepIdentity(s, IsExprChar);
    assert !IsTrailingChar(s[|s| - 1]);
  }

  /** On a sanitised string the evaluator is the arithmetic of what stripping leaves. */
  lemma EvaluateOfSanitized(s: string)
    requires Sanitize(s) == s && StripTrailing(s) != []
    ensures Evaluate(Some(s)) == Calc(StripTrailing(s))
  {
    SanitizedNotBlank(s);
  }

  lemma EvaluateIsCalc(s: string)
    requires s != [] && Sanitize(s) == s && StripTrailing(s) == s
    ensures Evaluate(Some(s)) == Calc(s)
  {
    EvaluateOfSanitized(s);
  }

  /** Digits, then operator characters, then digits: the clean-up stages leave the text alone. */
  lemma EvaluateJoined(a: string, mid: string, b: string)
    requires a != [] && AllDigits(a) && b != [] && AllDigits(b)
    requires forall i :: 0 <= i < |mid| ==> IsExprChar(mid[i])
    ensures Evaluate(Some(a + mid + b)) == Calc(a + mid + b)
  {
    var s := a + mid + b;
    assert forall i :: 0 <= i < |s| ==> IsExprChar(s[i]);
    assert s[|s| - 1] == b[|b| - 1];
    Unchanged(s);
    EvaluateIsCalc(s);
  }

  /** Calc read off its stages. */
  lemma CalcOf(s: string, ts: seq<Token>)
    requires Lex(s, 0) == Some(ts)
    ensures Calc(s) == TokensValue(ts)
  {
  }

  /** A string of digits evaluates to its decimal value. */
  lemma EvaluateDigits(ds: string)
    requires ds != [] && AllDigits(ds)
    ensures Evaluate(Some(ds)) == DigitsValue(ds) as real
  {
    var v := DigitsValue(ds) as real;
    Unchanged(ds);
    EvaluateIsCalc(ds);
    LexDigits(ds);
    ParseSingle(v);
    CalcOf(ds, [Num(v)]);
  }

  /** A string of digits is one numeral token. */
  lemma LexDigits(ds: string)
    requires ds != [] && AllDigits(ds)
    ensures Lex(ds, 0) == Some([Num(DigitsValue(ds) as real)])
  {
    DecimalOfDigits(ds);
    var v := DigitsValue(ds) as real;
    assert IsDigit(ds[0]);
    assert Lex(ds, |ds|) == Some([]);
    assert [Num(v)] + [] == [Num(v)];
    assert Lex(ds, 0) == Prepend(Num(v), Lex(ds, |ds|));
  }

  /** A lone numeral is a literal. */
  lemma ParseSingle(x: real)
    ensures Parse([Num(x)]) == Some(Lit(x))
  {
    assert [Num(x)][1..] == [];
    assert ParseUnary([Num(x)]) == Some(Parsed(Lit(x), []));
    assert ParseTermTail(Lit(x), []) == Some(Parsed(Lit(x), []));
    assert ParseExprTail(Lit(x), []) == Some(Parsed(Lit(x), []));
  }

  /** The tokens of digits, an operator and digits. */
  lemma LexBinary(a: string, op: char, b: string)
    requires a != [] && AllDigits(a) && b != [] && AllDigits(b)
    requires op == '+' || op == '-' || op == '*' || op == '/'
    ensures Lex(a + [op] + b, 0)
         == Some([Num(DigitsValue(a) as real), OpToken(op), Num(DigitsValue(b) as real)])
  {
    var s := a + [op] + b;
    var n := |a|;
    assert s[..n] == a && s[n + 1..] == b && s[n] == op;
    LexNumOpNum(s, n);
  }

  lemma LexNumOpNum(s: string, n: nat)
    requires 0 < n && n + 1 < |s|
    requires forall k :: 0 <= k < n ==> IsDigit(s[k])
    requires s[n] == '+' || s[n] == '-' || s[n] == '*' || s[n] == '/'
    requires forall k :: n < k < |s| ==> IsDigit(s[k])
    ensures Lex(s, 0)
         == Some([Num(DigitsValue(s[..n]) as real), OpToken(s[n]), Num(DigitsValue(s[n + 1..]) as real)])
  {
    var x, y := DigitsValue(s[..n]) as real, DigitsValue(s[n + 1..]) as real;
    LexDigitsAt(s, n + 1);
    LexOperator(s, n);
    assert [OpToken(s[n])] + [Num(y)] == [OpToken(s[n]), Num(y)];
    LexDigitRun(s, 0, n);
    assert s[0..n] == s[..n];
    assert [Num(x)] + [OpToken(s[n]), Num(y)] == [Num(x), OpToken(s[n]), Num(y)];
  }

  /** A run of digits reaching the end of the string is its last token. */
  lemma LexDigitsAt(s: string, i: nat)
    requires i < |s| && forall k :: i <= k < |s| ==> IsDigit(s[k])
    ensures Lex(s, i) == Some([Num(DigitsValue(s[i..]) as real)])
  {
    var v := DigitsValue(s[i..]) as real;
    DigitsEndAll(s, i);
    assert s[i..|s|] == s[i..];
    assert DecimalAt(s, i) == Some(Scan(|s|, v));
    assert Lex(s, |s|) == Some([]);
    assert [Num(v)] + [] == [Num(v)];
    assert Lex(s, i) == Prepend(Num(v), Lex(s, |s|));
  }

  /** The tree of numeral-operator-numeral. */
  lemma ParseBinary(x: real, t: Token, y: real)
    requires t.Plus? || t.Minus? || t.Times? || t.Slash?
    ensures Parse([Num(x), t, Num(y)]) == Some(Bin(OpOf(t), Lit(x), Lit(y)))
  {
    var ts := [Num(x), t, Num(y)];
    assert ts[1..] == [t, Num(y)];
    assert [t, Num(y)][1..] == [Num(y)];
    assert [Num(y)][1..] == [];
    assert ParseUnary([Num(y)]) == Some(Parsed(Lit(y), []));
    assert ParseUnary(ts) == Some(Parsed(Lit(x), [t, Num(y)]));
    var e := Bin(OpOf(t), Lit(x), Lit(y));
    if t.Plus? || t.Minus? {
      assert ParseTermTail(Lit(x), [t, Num(y)]) == Some(Parsed(Lit(x), [t, Num(y)]));
      assert ParseTerm(ts) == Some(Parsed(Lit(x), [t, Num(y)]));
      assert ParseTermTail(Lit(y), []) == Some(Parsed(Lit(y), []));
      assert ParseTerm([Num(y)]) == Some(Parsed(Lit(y), []));
      assert ParseExprTail(e, []) == Some(Parsed(e, []));
      assert ParseExprTail(Lit(x), [t, Num(y)]) == Some(Parsed(e, []));
    } else {
      assert ParseTermTail(e, []) == Some(Parsed(e, []));
      assert ParseTermTail(Lit(x), [t, Num(y)]) == Some(Parsed(e, []));
      assert ParseTerm(ts) == Some(Parsed(e, []));
      assert ParseExprTail(e, []) == Some(Parsed(e, []));
    }
  }

  /** The binary operator a token stands for. */
  function OpOf(t: Token): BinOp
  {
    match t
    case Plus => Add
    case Minus => Sub
    case Times => Mul
    case _ => Div
  }

  /**
    Digits-operator-digits evaluates with the arithmetic operator applied to
    the two decimal values x and y; a zero divisor gives 0.
   */
  lemma EvaluateBinary(a: string, op: char, b: string, x: real, y: real)
    requires a != [] && AllDigits(a) && b != [] && AllDigits(b)
    requires op == '+' || op == '-' || op == '*' || op == '/'
    requires x == DigitsValue(a) as real && y == DigitsValue(b) as real
    ensures op == '+' ==> Evaluate(Some(a + [op] + b)) == x + y
    ensures op == '-' ==> Evaluate(Some(a + [op] + b)) == x - y
    ensures op == '*' ==> Evaluate(Some(a + [op] + b)) == x * y
    ensures op == '/' ==> Evaluate(Some(a + [op] + b)) == if y == 0.0 then 0.0 else x / y
  {
    EvaluateJoined(a, [op], b);
    LexBinary(a, op, b);
    CalcOf(a + [op] + b, [Num(x), OpToken(op), Num(y)]);
    TokensValueBinary(x, OpToken(op), y);
  }

  /** The value of numeral-operator-numeral. */
  lemma TokensValueBinary(x: real, t: Token, y: real)
    requires t.Plus? || t.Minus? || t.Times? || t.Slash?
    ensures t.Plus? ==> TokensValue([Num(x), t, Num(y)]) == x + y
    ensures t.Minus? ==> TokensValue([Num(x), t, Num(y)]) == x - y
    ensures t.Times? ==> TokensValue([Num(x), t, Num(y)]) == x * y
    ensures t.Slash? ==> TokensValue([Num(x), t, Num(y)]) == if y == 0.0 then 0.0 else x / y
  {
    ParseBinary(x, t, y);
    assert Eval(Bin(OpOf(t), Lit(x), Lit(y))) == Apply(OpOf(t), x, y);
  }

  /** A trailing run of operators is dropped before evaluation: "10+" is read as "10". */
  lemma EvaluateDropsTrailingOperators(ds: string, ops: string)
    requires ds != [] && AllDigits(ds)
    requires forall i :: 0 <= i < |ops| ==> IsTrailingChar(ops[i])
    ensures Evaluate(Some(ds + ops)) == DigitsValue(ds) as real
  {
    var s := ds + ops;
    assert forall i :: 0 <= i < |s| ==> IsExprChar(s[i]);
    KeepIdentity(s, IsExprChar);
    StripTrailingOfSuffix(ds, ops);
    EvaluateOfSanitized(s);
    EvaluateDigits(ds);
    Unchanged(ds);
    EvaluateIsCalc(ds);
  }

  // ---------------------------------------------------------------------------
  // Precedence and associativity

  /** '*' binds tighter than '+': a + b * c is a + (b * c). */
  lemma ParseProductFirst(a: real, b: real, c: real)
    ensures Parse([Num(a), Plus, Num(b), Times, Num(c)])
         == Some(Bin(Add, Lit(a), Bin(Mul, Lit(b), Lit(c))))
  {
    var ts := [Num(a), Plus, Num(b), Times, Num(c)];
    var t1 := [Plus, Num(b), Times, Num(c)];
    var t2 := [Num(b), Times, Num(c)];
    var t3 := [Times, Num(c)];
    assert ts[1..] == t1 && t1[1..] == t2 && t2[1..] == t3 && t3[1..] == [Num(c)] && [Num(c)][1..] == [];
    var bc := Bin(Mul, Lit(b), Lit(c));
    var e := Bin(Add, Lit(a), bc);
    assert ParseUnary(ts) == Some(Parsed(Lit(a), t1));
    assert ParseTermTail(Lit(a), t1) == Some(Parsed(Lit(a), t1));
    assert ParseTerm(ts) == Some(Parsed(Lit(a), t1));
    assert ParseUnary(t2) == Some(Parsed(Lit(b), t3));
    assert ParseUnary([Num(c)]) == Some(Parsed(Lit(c), []));
    assert ParseTermTail(bc, []) == Some(Parsed(bc, []));
    assert ParseTermTail(Lit(b), t3) == Some(Parsed(bc, []));
    assert ParseTerm(t2) == Some(Parsed(bc, []));
    assert ParseExprTail(e, []) == Some(Parsed(e, []));
    assert ParseExprTail(Lit(a), t1) == Some(Parsed(e, []));
  }

  /** '-' associates to the left: a - b - c is (a - b) - c. */
  lemma ParseLeftAssociative(a: real, b: real, c: real)
    ensures Parse([Num(a), Minus, Num(b), Minus, Num(c)])
         == Some(Bin(Sub, Bin(Sub, Lit(a), Lit(b)), Lit(c)))
  {
    var ts := [Num(a), Minus, Num(b), Minus, Num(c)];
    var t1 := [Minus, Num(b), Minus, Num(c)];
    var t2 := [Num(b), Minus, Num(c)];
    var t3 := [Minus, Num(c)];
    assert ts[1..] == t1 && t1[1..] == t2 && t2[1..] == t3 && t3[1..] == [Num(c)] && [Num(c)][1..] == [];
    var ab := Bin(Sub, Lit(a), Lit(b));
    var e := Bin(Sub, ab, Lit(c));
    assert ParseUnary(ts) == Some(Parsed(Lit(a), t1));
    assert ParseTermTail(Lit(a), t1) == Some(Parsed(Lit(a), t1));
    assert ParseTerm(ts) == Some(Parsed(Lit(a), t1));
    assert ParseUnary(t2) == Some(Parsed(Lit(b), t3));
    assert ParseTermTail(Lit(b), t3) == Some(Parsed(Lit(b), t3));
    assert ParseTerm(t2) == Some(Parsed(Lit(b), t3));
    assert ParseUnary([Num(c)]) == Some(Parsed(Lit(c), []));
    assert ParseTermTail(Lit(c), []) == Some(Parsed(Lit(c), []));
    assert ParseTerm([Num(c)]) == Some(Parsed(Lit(c), []));
    assert ParseExprTail(e, []) == Some(Parsed(e, []));
    assert ParseExprTail(ab, t3) == Some(Parsed(e, []));
    assert ParseExprTail(Lit(a), t1) == Some(Parsed(e, []));
  }

  /** A sign before an operand negates it: "2*-3" multiplies 2 by -3. */
  lemma ParseSignedOperand(a: real, b: real)
    ensures Parse([Num(a), Times, Minus, Num(b)]) == Some(Bin(Mul, Lit(a), Neg(Lit(b))))
  {
    var ts := [Num(a), Times, Minus, Num(b)];
    var t1 := [Times, Minus, Num(b)];
    var t2 := [Minus, Num(b)];
    assert ts[1..] == t1 && t1[1..] == t2 && t2[1..] == [Num(b)] && [Num(b)][1..] == [];
    var e := Bin(Mul, Lit(a), Neg(Lit(b)));
    assert ParseUnary([Num(b)]) == Some(Parsed(Lit(b), []));
    assert ParseUnary(t2) == Some(Parsed(Neg(Lit(b)), []));
    assert ParseUnary(ts) == Some(Parsed(Lit(a), t1));
    assert ParseTermTail(e, []) == Some(Parsed(e, []));
    assert ParseTermTail(Lit(a), t1) == Some(Parsed(e, []));
    assert ParseTerm(ts) == Some(Parsed(e, []));
    assert ParseExprTail(e, []) == Some(Parsed(e, []));
  }

  /** The two-character tokens "++" and "--" make the whole expression 0. */
  lemma DoubledSignIsError(a: string, sign: char, b: string)
    requires a != [] && AllDigits(a) && b != [] && AllDigits(b)
    requires sign == '+' || sign == '-'
    ensures Evaluate(Some(a + [sign, sign] + b)) == 0.0
  {
    var s := a + [sign, sign] + b;
    assert forall k :: 0 <= k < |a| ==> s[k] == a[k];
    assert s[|a|] == sign && s[|a| + 1] == sign;
    LexDoubledSign(s, |a|);
    EvaluateJoined(a, [sign, sign], b);
  }

  lemma LexDoubledSign(s: string, n: nat)
    requires 0 < n && n + 1 < |s|
    requires forall k :: 0 <= k < n ==> IsDigit(s[k])
    requires (s[n] == '+' || s[n] == '-') && s[n + 1] == s[n]
    ensures Lex(s, 0) == None
  {
    assert Lex(s, n) == None;
    LexDigitRun(s, 0, n);
  }

  /** A line comment ends the expression: "10//2" is 10. */
  lemma LineCommentEndsInput(a: string, b: string)
    requires a != [] && AllDigits(a) && b != [] && AllDigits(b)
    ensures Evaluate(Some(a + "//" + b)) == DigitsValue(a) as real
  {
    var s := a + "//" + b;
    var x := DigitsValue(a) as real;
    assert s[..|a|] == a && s[|a|] == '/' && s[|a| + 1] == '/';
    LexLineComment(s, |a|);
    CalcOf(s, [Num(x)]);
    ParseSingle(x);
    EvaluateJoined(a, "//", b);
  }

  lemma LexLineComment(s: string, n: nat)
    requires 0 < n && n + 1 < |s|
    requires forall k :: 0 <= k < n ==> IsDigit(s[k])
    requires s[n] == '/' && s[n + 1] == '/'
    ensures Lex(s, 0) == Some([Num(DigitsValue(s[..n]) as real)])
  {
    var x := DigitsValue(s[..n]) as real;
    assert Lex(s, n) == Some([]);
    LexDigitRun(s, 0, n);
    assert s[0..n] == s[..n];
    assert [Num(x)] + [] == [Num(x)];
  }

  // ---------------------------------------------------------------------------
  // Worked values

  lemma TenAndTwenty()
    ensures DigitsValue("10") == 10 && DigitsValue("20") == 20 && DigitsValue("0") == 0
  {
    assert "10"[..1] == "1" && "20"[..1] == "2" && "0"[..0] == "";
  }

  lemma ExampleSum()
    ensures Evaluate(Some("10+20")) == 30.0
  {
    TenAndTwenty();
    assert "10+20" == "10" + ['+'] + "20";
    EvaluateBinary("10", '+', "20", 10.0, 20.0);
  }

  lemma ExampleTrailingOperator()
    ensures Evaluate(Some("10+")) == 10.0
  {
    TenAndTwenty();
    assert "10+" == "10" + "+";
    EvaluateDropsTrailingOperators("10", "+");
  }

  lemma ExampleDivisionByZero()
    ensures Evaluate(Some("10/0")) == 0.0
  {
    TenAndTwenty();
    assert "10/0" == "10" + ['/'] + "0";
    EvaluateBinary("10", '/', "0", 10.0, 0.0);
  }

  lemma ExampleNotAnExpression()
    ensures Evaluate(Some("abc")) == 0.0
    ensures Evaluate(Some("   ")) == 0.0
    ensures Evaluate(None) == 0.0
  {
    assert Sanitize("abc") == [] by {
      assert "abc"[..2] == "ab" && "ab"[..1] == "a" && "a"[..0] == "";
    }
  }
}
