// Which operator comes first, by the kinds of the tokens.
module PrattOrder {
  import opened Options
  import opened PrattTables
  import opened PrattParser

  /** The classes of infix operators, from the one that is taken last to the one that is taken first: shifts, logical
      and bitwise operators, comparisons, plus, products, minus. */
  function Class(k: Kind): int
  {
    match k
    case BITWIZE_LEFTSHIFT | BITWIZE_RIGHTSHIFT => 1
    case AND | OR | BITWISE_AND | BITWISE_OR | BITWISE_XOR => 2
    case LESS | LESS_EQUALS | GREATER | GREATER_EQUALS | EQUALS | NOT_EQUALS | QUESTION => 3
    case PLUS => 4
    case STAR | SLASH | PERCENT => 5
    case DASH => 6
    case _ => 0
  }

  predicate IsPrefixKind(k: Kind)
  {
    match k
    case TYPEOF | DASH | NOT | BITWISE_NOT => true
    case _ => false
  }

  lemma KindsAre(k: Kind)
    ensures IsInfix(k) <==> Class(k) > 0
    ensures IsPrefix(k) <==> IsPrefixKind(k)
  {
  }

  lemma PowerOfClass(k: Kind)
    requires Class(k) > 0
    ensures Power(k) == (match Class(k) case 1 => 3 case 2 => 4 case 3 => 5 case 4 => 6 case 5 => 7 case _ => 11)
  {
  }

  lemma Stronger(k: Kind, k2: Kind)
    requires Class(k) > 0 && Class(k2) > 0
    ensures Power(k) > Power(k2) <==> Class(k) > Class(k2)
    ensures Ordinary(Power(k)) && DEFAULT_BP < Power(k) <= PRIMARY_BP && (UNARY_BP < Power(k) <==> k == DASH)
  {
    hide Power;
    PowerOfClass(k);
    PowerOfClass(k2);
    OnlyDash(k);
  }

  lemma OnlyDash(k: Kind)
    ensures Class(k) == 6 <==> k == DASH
    ensures Class(k) <= 6
  {
  }

  /** An operand: a name, a number or null as it is, anything else in parentheses. */
  function Closed(e: Expr): seq<Token>
  {
    if e.Prefix? || e.Binary? then [Token(OPEN_PAREN, "(")] + Bare(e) + [Token(CLOSE_PAREN, ")")] else Bare(e)
  }

  lemma ClosedIsPrinted(e: Expr)
    ensures Closed(e) == Print(e, PRIMARY_BP)
  {
    hide Power;
    if e.Binary? {
      PowerTop(e.op.kind);
    }
  }

  /** The parser takes an operand and has it on its left. */
  lemma TakesOperand(ts: seq<Token>, pos: nat, e: Expr, bp: int)
    requires Known(e) && bp <= PRIMARY_BP && Stands(ts, pos, Closed(e)) && pos + |Closed(e)| < |ts|
    requires Ordinary(Power(ts[pos + |Closed(e)|].kind))
    ensures Parse(ts, pos, bp) == Extend(ts, pos + |Closed(e)|, e, bp)
  {
    hide Parse, Extend, Power, Bare, Known, Stands;
    ClosedIsPrinted(e);
    ClosedFollows(e, Power(ts[pos + |Closed(e)|].kind));
    ParsesBack(ts, pos, e, PRIMARY_BP, bp);
  }

  lemma ClosedFollows(e: Expr, n: int)
    ensures !Wraps(e, PRIMARY_BP) ==> MayFollow(e, n)
  {
    hide Power;
    if e.Binary? {
      PowerTop(e.op.kind);
    }
  }

  /** One operand and what follows it: the operand is all that is taken if the next token does not bind more strongly.
      */
  lemma OperandAlone(ts: seq<Token>, pos: nat, e: Expr, bp: int)
    requires Known(e) && bp <= PRIMARY_BP && Stands(ts, pos, Closed(e)) && pos + |Closed(e)| < |ts|
    requires Ordinary(Power(ts[pos + |Closed(e)|].kind)) && Power(ts[pos + |Closed(e)|].kind) <= bp
    ensures Parse(ts, pos, bp) == Ok(e, pos + |Closed(e)|)
  {
    hide Parse, Extend, Power, Known, Stands, Closed;
    TakesOperand(ts, pos, e, bp);
    Stops(ts, pos + |Closed(e)|, e, bp);
  }

  /** The operator `op`, its right operand and the end: all of it is taken, if op binds more strongly than bp. */
  lemma LastOperator(ts: seq<Token>, pos: nat, left: Expr, op: Token, c: Expr, bp: int)
    requires Known(c) && Class(op.kind) > 0 && 0 <= bp < Power(op.kind) && Stands(ts, pos, [op] + Closed(c))
    requires pos + 1 + |Closed(c)| < |ts| && Power(ts[pos + 1 + |Closed(c)|].kind) == DEFAULT_BP
    ensures Extend(ts, pos, left, bp) == Ok(Binary(left, op, c), pos + 1 + |Closed(c)|)
  {
    hide Parse, Extend, Power, Known, Stands, Closed, NudOf, LedOf, Class;
    KindsAre(op.kind);
    Stronger(op.kind, op.kind);
    StandsParts(ts, pos, [op], Closed(c));
    OperandAlone(ts, pos + 1, c, Power(op.kind) - 1);
    GoesOn(ts, pos, left, bp);
    Stops(ts, pos + 1 + |Closed(c)|, Binary(left, op, c), bp);
  }

  /** Two operators in a row. */
  function Row(a: Expr, op: Token, b: Expr, op2: Token, c: Expr): seq<Token>
  {
    Closed(a) + ([op] + (Closed(b) + ([op2] + Closed(c))))
  }

  /** They stand at the beginning, and a token that binds nothing stands behind them. */
  ghost predicate RowAt(ts: seq<Token>, a: Expr, op: Token, b: Expr, op2: Token, c: Expr)
  {
    var p1 := |Closed(a)|;
    var p2 := p1 + 1 + |Closed(b)|;
    var end := p2 + 1 + |Closed(c)|;
    && end < |ts| && ts[p1] == op && ts[p2] == op2 && Power(ts[end].kind) == DEFAULT_BP
    && Stands(ts, 0, Closed(a)) && Stands(ts, p1 + 1, Closed(b)) && Stands(ts, p2, [op2] + Closed(c))
  }

  lemma FirstTakesAt(ts: seq<Token>, a: Expr, op: Token, b: Expr, op2: Token, c: Expr)
    requires Known(a) && Known(b) && Known(c) && Class(op.kind) > 0 && Class(op2.kind) > 0
    requires RowAt(ts, a, op, b, op2, c) && Class(op.kind) > Class(op2.kind)
    ensures Parse(ts, 0, DEFAULT_BP)
         == Ok(Binary(Binary(a, op, b), op2, c), |Closed(a)| + 1 + |Closed(b)| + 1 + |Closed(c)|)
  {
    hide Parse, Extend, Power, Known, Closed, NudOf, LedOf, Class, Stands;
    var p1 := |Closed(a)|;
    Stronger(op.kind, op2.kind);
    Stronger(op2.kind, op.kind);
    KindsAre(op.kind);
    TakesOperand(ts, 0, a, DEFAULT_BP);
    OperandAlone(ts, p1 + 1, b, Power(op.kind) - 1);
    GoesOn(ts, p1, a, DEFAULT_BP);
    LastOperator(ts, p1 + 1 + |Closed(b)|, Binary(a, op, b), op2, c, DEFAULT_BP);
  }

  lemma SecondTakesAt(ts: seq<Token>, a: Expr, op: Token, b: Expr, op2: Token, c: Expr)
    requires Known(a) && Known(b) && Known(c) && Class(op.kind) > 0 && Class(op2.kind) > 0
    requires RowAt(ts, a, op, b, op2, c) && Class(op.kind) <= Class(op2.kind)
    ensures Parse(ts, 0, DEFAULT_BP)
         == Ok(Binary(a, op, Binary(b, op2, c)), |Closed(a)| + 1 + |Closed(b)| + 1 + |Closed(c)|)
  {
    hide Parse, Extend, Power, Known, Closed, NudOf, LedOf, Class, Stands;
    var p1 := |Closed(a)|;
    var p2 := p1 + 1 + |Closed(b)|;
    Stronger(op.kind, op2.kind);
    Stronger(op2.kind, op.kind);
    KindsAre(op.kind);
    TakesOperand(ts, 0, a, DEFAULT_BP);
    TakesOperand(ts, p1 + 1, b, Power(op.kind) - 1);
    LastOperator(ts, p2, b, op2, c, Power(op.kind) - 1);
    GoesOn(ts, p1, a, DEFAULT_BP);
    Stops(ts, p2 + 1 + |Closed(c)|, Binary(a, op, Binary(b, op2, c)), DEFAULT_BP);
  }

  /** Of two infix operators in a row the first takes the operand between them if and only if its class comes later in
      the order; so operators of one class group to the right. */
  lemma FirstTakes(a: Expr, op: Token, b: Expr, op2: Token, c: Expr, rest: seq<Token>)
    requires Known(a) && Known(b) && Known(c) && Class(op.kind) > 0 && Class(op2.kind) > 0
    requires rest != [] && Power(rest[0].kind) == DEFAULT_BP
    ensures Parse(Row(a, op, b, op2, c) + rest, 0, DEFAULT_BP)
         == Ok(if Class(op.kind) > Class(op2.kind)
               then Binary(Binary(a, op, b), op2, c) else Binary(a, op, Binary(b, op2, c)),
               |Row(a, op, b, op2, c)|)
  {
    hide Parse, Power, Known, Class, RowAt;
    RowStands(a, op, b, op2, c, rest);
    if Class(op.kind) > Class(op2.kind) {
      FirstTakesAt(Row(a, op, b, op2, c) + rest, a, op, b, op2, c);
    } else {
      SecondTakesAt(Row(a, op, b, op2, c) + rest, a, op, b, op2, c);
    }
  }

  lemma RowStands(a: Expr, op: Token, b: Expr, op2: Token, c: Expr, rest: seq<Token>)
    requires rest != [] && Power(rest[0].kind) == DEFAULT_BP
    ensures RowAt(Row(a, op, b, op2, c) + rest, a, op, b, op2, c)
  {
    hide Closed, Stands, Power;
    var ts := Row(a, op, b, op2, c) + rest;
    Prefixed(Row(a, op, b, op2, c), rest);
    RowParts(ts, Closed(a), op, Closed(b), op2, Closed(c));
  }

  lemma RowParts(ts: seq<Token>, a: seq<Token>, op: Token, b: seq<Token>, op2: Token, c: seq<Token>)
    requires Stands(ts, 0, a + ([op] + (b + ([op2] + c))))
    ensures |a| + 1 + |b| < |ts| && ts[|a|] == op && ts[|a| + 1 + |b|] == op2
    ensures Stands(ts, 0, a) && Stands(ts, |a| + 1, b) && Stands(ts, |a| + 1 + |b|, [op2] + c)
  {
    hide Stands;
    StandsParts(ts, 0, a, [op] + (b + ([op2] + c)));
    StandsParts(ts, |a|, [op], b + ([op2] + c));
    StandsParts(ts, |a| + 1, b, [op2] + c);
  }

  lemma Prefixed(xs: seq<Token>, rest: seq<Token>)
    ensures Stands(xs + rest, 0, xs)
    ensures rest != [] ==> (xs + rest)[|xs|] == rest[0]
  {
    assert (xs + rest)[0..|xs|] == xs;
  }

  /** A prefix operator, an operand, an infix operator and another operand. */
  function SignedRow(op: Token, a: Expr, op2: Token, b: Expr): seq<Token>
  {
    [op] + (Closed(a) + ([op2] + Closed(b)))
  }

  ghost predicate SignedAt(ts: seq<Token>, op: Token, a: Expr, op2: Token, b: Expr)
  {
    var p := 1 + |Closed(a)|;
    var end := p + 1 + |Closed(b)|;
    && end < |ts| && ts[0] == op && ts[p] == op2 && Power(ts[end].kind) == DEFAULT_BP
    && Stands(ts, 1, Closed(a)) && Stands(ts, p, [op2] + Closed(b))
  }

  lemma SignedStands(op: Token, a: Expr, op2: Token, b: Expr, rest: seq<Token>)
    requires rest != [] && Power(rest[0].kind) == DEFAULT_BP
    ensures SignedAt(SignedRow(op, a, op2, b) + rest, op, a, op2, b)
  {
    hide Closed, Stands, Power;
    var ts := SignedRow(op, a, op2, b) + rest;
    Prefixed(SignedRow(op, a, op2, b), rest);
    StandsParts(ts, 0, [op], Closed(a) + ([op2] + Closed(b)));
    StandsParts(ts, 1, Closed(a), [op2] + Closed(b));
  }

  lemma SignFirst(ts: seq<Token>, op: Token, a: Expr, op2: Token, b: Expr)
    requires Known(a) && Known(b) && IsPrefixKind(op.kind) && Class(op2.kind) > 0 && op2.kind != DASH
    requires SignedAt(ts, op, a, op2, b)
    ensures Parse(ts, 0, DEFAULT_BP) == Ok(Binary(Prefix(op, a), op2, b), 1 + |Closed(a)| + 1 + |Closed(b)|)
  {
    hide Parse, Extend, Start, Power, Known, Closed, NudOf, LedOf, Class, Stands, IsPrefixKind;
    Stronger(op2.kind, op2.kind);
    KindsAre(op.kind);
    OperandAlone(ts, 1, a, UNARY_BP);
    StartsPrefix(ts, 0);
    ParseIs(ts, 0, DEFAULT_BP);
    LastOperator(ts, 1 + |Closed(a)|, Prefix(op, a), op2, b, DEFAULT_BP);
  }

  lemma SignLast(ts: seq<Token>, op: Token, a: Expr, op2: Token, b: Expr)
    requires Known(a) && Known(b) && IsPrefixKind(op.kind) && op2.kind == DASH
    requires SignedAt(ts, op, a, op2, b)
    ensures Parse(ts, 0, DEFAULT_BP) == Ok(Prefix(op, Binary(a, op2, b)), 1 + |Closed(a)| + 1 + |Closed(b)|)
  {
    hide Parse, Extend, Start, Power, Known, Closed, NudOf, LedOf, Stands, IsPrefixKind;
    var end := 1 + |Closed(a)| + 1 + |Closed(b)|;
    Stronger(op2.kind, op2.kind);
    KindsAre(op.kind);
    TakesOperand(ts, 1, a, UNARY_BP);
    LastOperator(ts, 1 + |Closed(a)|, a, op2, b, UNARY_BP);
    StartsPrefix(ts, 0);
    ParseIs(ts, 0, DEFAULT_BP);
    Stops(ts, end, Prefix(op, Binary(a, op2, b)), DEFAULT_BP);
  }

  /** A prefix operator takes its operand before every infix operator but minus. */
  lemma PrefixTakes(op: Token, a: Expr, op2: Token, b: Expr, rest: seq<Token>)
    requires Known(a) && Known(b) && IsPrefixKind(op.kind) && Class(op2.kind) > 0
    requires rest != [] && Power(rest[0].kind) == DEFAULT_BP
    ensures Parse(SignedRow(op, a, op2, b) + rest, 0, DEFAULT_BP)
         == Ok(if op2.kind == DASH then Prefix(op, Binary(a, op2, b)) else Binary(Prefix(op, a), op2, b),
               |SignedRow(op, a, op2, b)|)
  {
    hide Parse, Power, Known, Class, SignedAt, IsPrefixKind;
    SignedStands(op, a, op2, b, rest);
    if op2.kind == DASH {
      SignLast(SignedRow(op, a, op2, b) + rest, op, a, op2, b);
    } else {
      SignFirst(SignedRow(op, a, op2, b) + rest, op, a, op2, b);
    }
  }
}
