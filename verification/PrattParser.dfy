// The expression parser, and a printer that puts parentheses only where the parser needs them.
module PrattParser {
  import opened Options
  import opened PrattTables

  datatype Token = Token(kind: Kind, text: string)

  datatype Expr =
    | Num(text: string)
    | Sym(text: string)
    | Null
    | Prefix(op: Token, e: Expr)
    | Binary(l: Expr, op: Token, r: Expr)

  /** An expression and the position behind it.  Unsupported: the expression has a form that is not modelled. */
  datatype Parsed = Ok(e: Expr, pos: nat) | SyntaxError | Unsupported

  /** The token at a position exists. */
  predicate Has(ts: seq<Token>, pos: nat)
  {
    pos < |ts|
  }

  // ---- Parsing, as functions ----

  /** `parseExpr`: what the first token starts, then everything that binds more strongly than bp. */
  function Parse(ts: seq<Token>, pos: nat, bp: int): (r: Parsed)
    ensures r.Ok? ==> pos < r.pos <= |ts|
    decreases |ts| - pos, 2
  {
    var left := Start(ts, pos);
    if !left.Ok? then left else Extend(ts, left.pos, left.e, bp)
  }

  function Start(ts: seq<Token>, pos: nat): (r: Parsed)
    ensures r.Ok? ==> pos < r.pos <= |ts|
    decreases |ts| - pos, 1
  {
    if !Has(ts, pos) then SyntaxError else
    var t := ts[pos];
    match NudOf(t.kind)
    case None => SyntaxError
    case Some(PrimaryExpr) =>
      if t.kind == NUMBER then Ok(Num(t.text), pos + 1)
      else if t.kind == IDENTIFIER then Ok(Sym(t.text), pos + 1)
      else Unsupported
    case Some(NullExpr) => Ok(Null, pos + 1)
    case Some(PrefixExpr) =>
      var r := Parse(ts, pos + 1, UNARY_BP);
      if r.Ok? then Ok(Prefix(t, r.e), r.pos) else r
    case Some(GroupingExpr) =>
      var r := Parse(ts, pos + 1, DEFAULT_BP);
      if !r.Ok? then r
      else if Has(ts, r.pos) && ts[r.pos].kind == CLOSE_PAREN then Ok(r.e, r.pos + 1)
      else SyntaxError
    case Some(_) => Unsupported
  }

  /** The loop of `parseExpr`: left grows as long as the next token binds more strongly than bp. */
  function Extend(ts: seq<Token>, pos: nat, left: Expr, bp: int): (r: Parsed)
    ensures r.Ok? ==> pos <= r.pos < |ts|
    decreases |ts| - pos, 0
  {
    if !Has(ts, pos) then SyntaxError else
    var t := ts[pos];
    if Power(t.kind) <= bp then Ok(left, pos) else
    match LedOf(t.kind)
    case None => SyntaxError
    case Some(BinaryExpr) =>
      var r := Parse(ts, pos + 1, Power(t.kind) - 1);
      if r.Ok? then Extend(ts, r.pos, Binary(left, t, r.e), bp) else r
    case Some(_) => Unsupported
  }

  // ---- Printing ----

  /** An expression with the operators the tables know. */
  predicate Known(e: Expr)
  {
    match e
    case Num(_) => true
    case Sym(_) => true
    case Null => true
    case Prefix(op, x) => IsPrefix(op.kind) && Known(x)
    case Binary(l, op, r) => IsInfix(op.kind) && Known(l) && Known(r)
  }

  /** Next to an operator that binds with strength b the expression has to be in parentheses. */
  predicate Wraps(e: Expr, b: int)
  {
    match e
    case Binary(_, op, _) => Power(op.kind) <= b
    case Prefix(_, _) => b >= PRIMARY_BP
    case _ => false
  }

  function Bare(e: Expr): (ts: seq<Token>)
    ensures ts != []
    decreases e, 0
  {
    match e
    case Num(x) => [Token(NUMBER, x)]
    case Sym(x) => [Token(IDENTIFIER, x)]
    case Null => [Token(NULL, "null")]
    case Prefix(op, x) => [op] + Print(x, UNARY_BP)
    case Binary(l, op, r) => Print(l, Power(op.kind)) + [op] + Print(r, Power(op.kind) - 1)
  }

  /** The tokens of an expression that stands where operators bind with strength b. */
  function Print(e: Expr, b: int): (ts: seq<Token>)
    ensures ts != []
    decreases e, 1
  {
    if Wraps(e, b) then [Token(OPEN_PAREN, "(")] + Bare(e) + [Token(CLOSE_PAREN, ")")] else Bare(e)
  }

  // ---- Round trip ----

  /** The tokens of an expression stand at a position. */
  predicate Stands(ts: seq<Token>, pos: nat, xs: seq<Token>)
  {
    pos + |xs| <= |ts| && ts[pos..pos + |xs|] == xs
  }

  /** A token of strength n may follow: nothing in e, printed without parentheses, would take it. */
  predicate MayFollow(e: Expr, n: int)
  {
    match e
    case Binary(_, op, _) => n < Power(op.kind)
    case Prefix(_, _) => n <= UNARY_BP
    case _ => true
  }

  /** Strengths of what can follow an operand. */
  predicate Ordinary(n: int)
  {
    n <= MULTIPLICATIVE_BP || n == PRIMARY_BP
  }

  lemma StandsParts(ts: seq<Token>, pos: nat, a: seq<Token>, b: seq<Token>)
    requires Stands(ts, pos, a + b)
    ensures Stands(ts, pos, a) && Stands(ts, pos + |a|, b)
    ensures a != [] ==> pos < |ts| && ts[pos] == a[0]
    ensures b != [] ==> pos + |a| < |ts| && ts[pos + |a|] == b[0]
  {
    assert (a + b)[..|a|] == a && (a + b)[|a|..] == b;
    assert ts[pos..pos + |a + b|][..|a|] == ts[pos..pos + |a|];
    assert ts[pos..pos + |a + b|][|a|..] == ts[pos + |a|..pos + |a| + |b|];
    assert a != [] ==> ts[pos..pos + |a|][0] == a[0];
    assert b != [] ==> ts[pos + |a|..pos + |a| + |b|][0] == b[0];
  }

  /** Infix powers. */
  lemma InfixPowers(k: Kind)
    requires IsInfix(k)
    ensures Ordinary(Power(k)) && Power(k) >= BITWISE_BP && (k == DASH <==> Power(k) == PRIMARY_BP)
  {
  }

  // One step of the parser at a time.

  lemma ParseIs(ts: seq<Token>, pos: nat, bp: int)
    requires Start(ts, pos).Ok?
    ensures Parse(ts, pos, bp) == Extend(ts, Start(ts, pos).pos, Start(ts, pos).e, bp)
  {
  }

  lemma StartsPrefix(ts: seq<Token>, pos: nat)
    requires pos < |ts| && IsPrefix(ts[pos].kind)
    ensures var r := Parse(ts, pos + 1, UNARY_BP); r.Ok? ==> Start(ts, pos) == Ok(Prefix(ts[pos], r.e), r.pos)
  {
    hide Parse;
  }

  lemma StartsGroup(ts: seq<Token>, pos: nat)
    requires pos < |ts| && ts[pos].kind == OPEN_PAREN
    ensures var r := Parse(ts, pos + 1, DEFAULT_BP);
            r.Ok? && r.pos < |ts| && ts[r.pos].kind == CLOSE_PAREN ==> Start(ts, pos) == Ok(r.e, r.pos + 1)
  {
    hide Parse;
  }

  lemma Stops(ts: seq<Token>, pos: nat, left: Expr, bp: int)
    requires pos < |ts| && Power(ts[pos].kind) <= bp
    ensures Extend(ts, pos, left, bp) == Ok(left, pos)
  {
    hide Parse;
  }

  lemma GoesOn(ts: seq<Token>, pos: nat, left: Expr, bp: int)
    requires pos < |ts| && IsInfix(ts[pos].kind) && bp < Power(ts[pos].kind)
    ensures var r := Parse(ts, pos + 1, Power(ts[pos].kind) - 1);
            r.Ok? ==> Extend(ts, pos, left, bp) == Extend(ts, r.pos, Binary(left, ts[pos], r.e), bp)
  {
    hide Parse;
  }

  lemma ClosesAt(t: Token)
    requires t.kind == CLOSE_PAREN
    ensures Power(t.kind) == DEFAULT_BP
  {
  }

  /** Every operator binds more strongly than what stands after an expression, and parentheses take no side. */
  lemma Enclosed(e: Expr)
    requires Known(e)
    ensures MayFollow(e, DEFAULT_BP) && Ordinary(DEFAULT_BP) && (e.Binary? ==> DEFAULT_BP < Power(e.op.kind))
  {
    if e.Binary? {
      InfixPowers(e.op.kind);
    }
  }

  /** What is printed is parsed: from the first token of e the parser comes to where e is all it has on the left. */
  lemma {:induction false} ParsesBack(ts: seq<Token>, pos: nat, e: Expr, b: int, bp: int)
    requires Known(e) && bp <= b && Stands(ts, pos, Print(e, b))
    requires var end := pos + |Print(e, b)|;
             end < |ts| && Ordinary(Power(ts[end].kind)) && (!Wraps(e, b) ==> MayFollow(e, Power(ts[end].kind)))
    ensures Parse(ts, pos, bp) == Extend(ts, pos + |Print(e, b)|, e, bp)
    decreases e, 3
  {
    hide Parse, Start, Extend, Bare, Power, Known, Stands, MayFollow, NudOf, LedOf;
    if Wraps(e, b) {
      GroupParsesBack(ts, pos, e, b, bp);
    } else {
      BareParsesBack(ts, pos, e, bp);
    }
  }

  lemma {:induction false} GroupParsesBack(ts: seq<Token>, pos: nat, e: Expr, b: int, bp: int)
    requires Known(e) && Wraps(e, b) && Stands(ts, pos, Print(e, b))
    ensures Parse(ts, pos, bp) == Extend(ts, pos + |Print(e, b)|, e, bp)
    decreases e, 2
  {
    hide Parse, Start, Extend, Bare, Power, Known, Stands, MayFollow, NudOf, LedOf, Wraps, Ordinary;
    var open, close := [Token(OPEN_PAREN, "(")], [Token(CLOSE_PAREN, ")")];
    var end := pos + 1 + |Bare(e)|;
    assert Print(e, b) == open + (Bare(e) + close);
    StandsParts(ts, pos, open, Bare(e) + close);
    StandsParts(ts, pos + 1, Bare(e), close);
    ClosesAt(ts[end]);
    Enclosed(e);
    BareParsesBack(ts, pos + 1, e, DEFAULT_BP);
    Stops(ts, end, e, DEFAULT_BP);
    StartsGroup(ts, pos);
    ParseIs(ts, pos, bp);
  }

  lemma {:induction false} BareParsesBack(ts: seq<Token>, pos: nat, e: Expr, bp: int)
    requires Known(e) && Stands(ts, pos, Bare(e))
    requires e.Binary? ==> bp < Power(e.op.kind)
    requires var end := pos + |Bare(e)|;
             end < |ts| && Ordinary(Power(ts[end].kind)) && MayFollow(e, Power(ts[end].kind))
    ensures Parse(ts, pos, bp) == Extend(ts, pos + |Bare(e)|, e, bp)
    decreases e, 1
  {
    hide Parse, Extend, Start, Power, NudOf, LedOf, Stands, Known, Bare, MayFollow, Ordinary;
    match e
    case Prefix(_, _) => PrefixParsesBack(ts, pos, e, bp);
    case Binary(_, _, _) => BinaryParsesBack(ts, pos, e, bp);
    case _ => AtomParsesBack(ts, pos, e, bp);
  }

  lemma AtomParsesBack(ts: seq<Token>, pos: nat, e: Expr, bp: int)
    requires Stands(ts, pos, Bare(e)) && (e.Num? || e.Sym? || e.Null?)
    ensures Parse(ts, pos, bp) == Extend(ts, pos + |Bare(e)|, e, bp)
  {
    hide Parse, Extend;
    assert ts[pos..pos + |Bare(e)|][0] == Bare(e)[0];
    ParseIs(ts, pos, bp);
  }

  lemma {:induction false} PrefixParsesBack(ts: seq<Token>, pos: nat, e: Expr, bp: int)
    requires Known(e) && Stands(ts, pos, Bare(e)) && e.Prefix?
    requires var end := pos + |Bare(e)|;
             end < |ts| && Ordinary(Power(ts[end].kind)) && MayFollow(e, Power(ts[end].kind))
    ensures Parse(ts, pos, bp) == Extend(ts, pos + |Bare(e)|, e, bp)
    decreases e, 0
  {
    hide Parse, Extend, Start, Power, NudOf, LedOf, Stands, Print;
    var x := e.e;
    var end := pos + |Bare(e)|;
    StandsParts(ts, pos, [e.op], Print(x, UNARY_BP));
    ParsesBack(ts, pos + 1, x, UNARY_BP, UNARY_BP);
    Stops(ts, end, x, UNARY_BP);
    StartsPrefix(ts, pos);
    ParseIs(ts, pos, bp);
  }

  lemma {:induction false} BinaryParsesBack(ts: seq<Token>, pos: nat, e: Expr, bp: int)
    requires Known(e) && Stands(ts, pos, Bare(e)) && e.Binary? && bp < Power(e.op.kind)
    requires var end := pos + |Bare(e)|;
             end < |ts| && Ordinary(Power(ts[end].kind)) && MayFollow(e, Power(ts[end].kind))
    ensures Parse(ts, pos, bp) == Extend(ts, pos + |Bare(e)|, e, bp)
    decreases e, 0
  {
    hide Parse, Extend, Start, Power, NudOf, LedOf, Stands, Print;
    var k := Power(e.op.kind);
    var a, c := Print(e.l, k), Print(e.r, k - 1);
    var end := pos + |Bare(e)|;
    InfixPowers(e.op.kind);
    assert Bare(e) == a + ([e.op] + c);
    StandsParts(ts, pos, a, [e.op] + c);
    StandsParts(ts, pos + |a|, [e.op], c);
    ParsesBack(ts, pos, e.l, k, bp);
    ParsesBack(ts, pos + |a| + 1, e.r, k - 1, k - 1);
    Stops(ts, end, e.r, k - 1);
    GoesOn(ts, pos + |a|, e.l, bp);
  }

  /** Printing and parsing: followed by a token that binds nothing, the tokens of an expression are parsed to that
      expression, and exactly those tokens are used. */
  lemma RoundTrip(e: Expr, rest: seq<Token>)
    requires Known(e) && rest != [] && Power(rest[0].kind) == DEFAULT_BP
    ensures Parse(Print(e, DEFAULT_BP) + rest, 0, DEFAULT_BP) == Ok(e, |Print(e, DEFAULT_BP)|)
  {
    hide Parse, Extend, Start, Power, NudOf, LedOf, Bare, Print;
    var xs := Print(e, DEFAULT_BP);
    var ts := xs + rest;
    assert ts[0..|xs|] == xs && ts[|xs|] == rest[0];
    Enclosed(e);
    ParsesBack(ts, 0, e, DEFAULT_BP, DEFAULT_BP);
    Stops(ts, |xs|, e, DEFAULT_BP);
  }

  /** Different expressions are printed differently. */
  lemma PrintsApart(a: Expr, b: Expr)
    requires Known(a) && Known(b) && Print(a, DEFAULT_BP) == Print(b, DEFAULT_BP)
    ensures a == b
  {
    hide Parse, Print, Known;
    RoundTrip(a, [Token(EOF, "")]);
    RoundTrip(b, [Token(EOF, "")]);
  }

  /** Two operators and their operands, without parentheses around either pair. */
  function InARow(a: Expr, op: Token, b: Expr, op2: Token, c: Expr): seq<Token>
  {
    Print(a, Power(op.kind)) + [op] + Print(b, Power(op2.kind)) + [op2] + Print(c, Power(op2.kind) - 1)
  }

  lemma RowPrintsRight(a: Expr, op: Token, b: Expr, op2: Token, c: Expr)
    requires IsInfix(op.kind) && IsInfix(op2.kind) && Power(op.kind) <= Power(op2.kind)
    ensures Print(Binary(a, op, Binary(b, op2, c)), DEFAULT_BP) == InARow(a, op, b, op2, c)
  {
    hide Power, LedOf;
    InfixPowers(op.kind);
    var inner := Binary(b, op2, c);
    assert Print(inner, Power(op.kind) - 1) == Print(b, Power(op2.kind)) + [op2] + Print(c, Power(op2.kind) - 1);
  }

  lemma RowPrintsLeft(a: Expr, op: Token, b: Expr, op2: Token, c: Expr)
    requires IsInfix(op.kind) && IsInfix(op2.kind) && Power(op.kind) > Power(op2.kind) && !b.Binary?
    ensures Print(Binary(Binary(a, op, b), op2, c), DEFAULT_BP) == InARow(a, op, b, op2, c)
  {
    hide Power, LedOf;
    InfixPowers(op.kind);
    InfixPowers(op2.kind);
    var inner := Binary(a, op, b);
    PowerTop(op.kind);
    assert Print(b, Power(op.kind) - 1) == Print(b, Power(op2.kind));
    assert Print(inner, Power(op2.kind)) == Print(a, Power(op.kind)) + [op] + Print(b, Power(op.kind) - 1);
  }

  lemma PowerTop(k: Kind)
    ensures Power(k) <= PRIMARY_BP
  {
  }

  /** Of two operators in a row the second takes the middle operand unless the first binds more strongly: operators of
      one strength group to the right. */
  lemma Groups(a: Expr, op: Token, b: Expr, op2: Token, c: Expr, rest: seq<Token>)
    requires Known(a) && Known(b) && Known(c) && !b.Binary? && IsInfix(op.kind) && IsInfix(op2.kind)
    requires rest != [] && Power(rest[0].kind) == DEFAULT_BP
    ensures Parse(InARow(a, op, b, op2, c) + rest, 0, DEFAULT_BP)
         == Ok(if Power(op.kind) <= Power(op2.kind)
               then Binary(a, op, Binary(b, op2, c)) else Binary(Binary(a, op, b), op2, c),
               |InARow(a, op, b, op2, c)|)
  {
    hide Parse, Power, LedOf, NudOf, Print, InARow;
    if Power(op.kind) <= Power(op2.kind) {
      RowPrintsRight(a, op, b, op2, c);
      RoundTrip(Binary(a, op, Binary(b, op2, c)), rest);
    } else {
      RowPrintsLeft(a, op, b, op2, c);
      RoundTrip(Binary(Binary(a, op, b), op2, c), rest);
    }
  }

  /** A minus sign takes its left operand from every other infix operator, whatever the operands are. */
  lemma MinusFirst(a: Expr, op: Token, b: Expr, minus: Token, c: Expr, rest: seq<Token>)
    requires Known(a) && Known(b) && Known(c) && !b.Binary? && IsInfix(op.kind) && minus.kind == DASH
    requires rest != [] && Power(rest[0].kind) == DEFAULT_BP
    ensures Parse(InARow(a, op, b, minus, c) + rest, 0, DEFAULT_BP)
         == Ok(Binary(a, op, Binary(b, minus, c)), |InARow(a, op, b, minus, c)|)
  {
    hide Parse, Print, InARow, NudOf, Known;
    PowerTop(op.kind);
    Groups(a, op, b, minus, c, rest);
  }

  // ---- Fewest parentheses ----

  /** So many tokens were used for e, with a token of strength n after them: at least those of e without parentheses,
      and two more if that token would otherwise have been taken by e. */
  ghost predicate Paid(e: Expr, used: int, n: int)
  {
    used >= |Bare(e)| + 2 || (used >= |Bare(e)| && MayFollow(e, n))
  }

  /** A fair price covers what is printed next to an operator of that strength. */
  lemma PaidCovers(e: Expr, used: int, n: int)
    requires Paid(e, used, n) && n <= PRIMARY_BP
    ensures used >= |Print(e, n)|
  {
    hide Power;
  }

  /** What an expression starts with is paid for, whatever follows. */
  lemma {:induction false} StartPays(ts: seq<Token>, pos: nat)
    requires Start(ts, pos).Ok?
    ensures var r := Start(ts, pos); r.pos < |ts| ==> Paid(r.e, r.pos - pos, Power(ts[r.pos].kind))
    decreases |ts| - pos, 1
  {
    hide Power, Extend, MayFollow;
    var r := Start(ts, pos);
    var k := NudOf(ts[pos].kind);
    if k == Some(PrefixExpr) {
      ParsePays(ts, pos + 1, UNARY_BP);
      PrefixPays(ts[pos], Parse(ts, pos + 1, UNARY_BP), pos + 1, ts);
    } else if k == Some(GroupingExpr) {
      ParsePays(ts, pos + 1, DEFAULT_BP);
    } else {
      AtomPays(r.e, if r.pos < |ts| then Power(ts[r.pos].kind) else 0);
    }
  }

  lemma AtomPays(e: Expr, n: int)
    requires !e.Prefix? && !e.Binary?
    ensures Paid(e, 1, n)
  {
  }

  lemma PrefixPays(op: Token, x: Parsed, pos: nat, ts: seq<Token>)
    requires x.Ok? && x.pos < |ts| && Power(ts[x.pos].kind) <= UNARY_BP
    requires Paid(x.e, x.pos - pos, Power(ts[x.pos].kind))
    requires x.e.Binary? && Power(x.e.op.kind) <= UNARY_BP ==> x.pos - pos >= |Bare(x.e)| + 2
    ensures Paid(Prefix(op, x.e), x.pos - pos + 1, Power(ts[x.pos].kind))
  {
    hide Power;
    assert Bare(Prefix(op, x.e)) == [op] + Print(x.e, UNARY_BP);
  }

  /** Everything parsed is paid for, and stops at a token that does not bind more strongly than bp; an infix operator
      that was taken without parentheses binds more strongly than bp. */
  lemma {:induction false} ParsePays(ts: seq<Token>, pos: nat, bp: int)
    requires Parse(ts, pos, bp).Ok?
    ensures var r := Parse(ts, pos, bp);
            && r.pos < |ts| && Power(ts[r.pos].kind) <= bp && Paid(r.e, r.pos - pos, Power(ts[r.pos].kind))
            && (r.e.Binary? && Power(r.e.op.kind) <= bp ==> r.pos - pos >= |Bare(r.e)| + 2)
    decreases |ts| - pos, 2
  {
    hide Power, Start, Extend, Paid;
    var l := Start(ts, pos);
    ParseIs(ts, pos, bp);
    ExtendWithin(ts, l.pos, l.e, bp);
    StartPays(ts, pos);
    if l.e.Binary? {
      StartGroups(ts, pos);
    }
    ExtendPays(ts, pos, l.pos, l.e, bp);
  }

  lemma ExtendWithin(ts: seq<Token>, pos: nat, left: Expr, bp: int)
    requires Extend(ts, pos, left, bp).Ok?
    ensures pos < |ts|
  {
  }

  lemma BinaryStart(ts: seq<Token>, pos: nat)
    requires Start(ts, pos).Ok? && Start(ts, pos).e.Binary?
    ensures var r := Parse(ts, pos + 1, DEFAULT_BP); r.Ok? && Start(ts, pos) == Ok(r.e, r.pos + 1)
  {
    hide Parse;
  }

  /** A binary expression at the start stood in parentheses. */
  lemma {:induction false} StartGroups(ts: seq<Token>, pos: nat)
    requires Start(ts, pos).Ok? && Start(ts, pos).e.Binary?
    ensures Start(ts, pos).pos - pos >= |Bare(Start(ts, pos).e)| + 2
    decreases |ts| - pos, 1
  {
    hide Power, Extend, MayFollow, Start, Parse, Bare;
    BinaryStart(ts, pos);
    StartWithin(ts, pos);
    ParsePays(ts, pos + 1, DEFAULT_BP);
  }

  lemma StartWithin(ts: seq<Token>, pos: nat)
    requires Start(ts, pos).Ok?
    ensures pos < |ts|
  {
  }

  /** The loop: left, which began at `from`, has been paid for. */
  lemma {:induction false} ExtendPays(ts: seq<Token>, from: nat, pos: nat, left: Expr, bp: int)
    requires from <= pos < |ts| && Extend(ts, pos, left, bp).Ok? && Paid(left, pos - from, Power(ts[pos].kind))
    requires left.Binary? && Power(left.op.kind) <= bp ==> pos - from >= |Bare(left)| + 2
    ensures var r := Extend(ts, pos, left, bp);
            && r.pos < |ts| && Power(ts[r.pos].kind) <= bp && Paid(r.e, r.pos - from, Power(ts[r.pos].kind))
            && (r.e.Binary? && Power(r.e.op.kind) <= bp ==> r.pos - from >= |Bare(r.e)| + 2)
    decreases |ts| - pos, 0
  {
    hide Power, Parse, Paid, Bare;
    var t := ts[pos];
    if Power(t.kind) > bp {
      var x := Parse(ts, pos + 1, Power(t.kind) - 1);
      ParsePays(ts, pos + 1, Power(t.kind) - 1);
      BinaryPays(ts, from, pos, left, x);
      ExtendPays(ts, from, x.pos, Binary(left, t, x.e), bp);
    }
  }

  lemma BinaryPays(ts: seq<Token>, from: nat, pos: nat, left: Expr, x: Parsed)
    requires from <= pos < |ts| && x.Ok? && x.pos < |ts| && Paid(left, pos - from, Power(ts[pos].kind))
    requires var k := Power(ts[pos].kind);
             && Power(ts[x.pos].kind) <= k - 1 && Paid(x.e, x.pos - pos - 1, Power(ts[x.pos].kind))
             && (x.e.Binary? && Power(x.e.op.kind) <= k - 1 ==> x.pos - pos - 1 >= |Bare(x.e)| + 2)
    ensures Paid(Binary(left, ts[pos], x.e), x.pos - from, Power(ts[x.pos].kind))
  {
    hide Power, Bare;
    var k := Power(ts[pos].kind);
    PowerTop(ts[pos].kind);
    PaidCovers(left, pos - from, k);
    BareBinary(left, ts[pos], x.e);
    assert x.pos - pos - 1 >= |Print(x.e, k - 1)|;
  }

  lemma BareBinary(l: Expr, op: Token, r: Expr)
    ensures |Bare(Binary(l, op, r))| == |Print(l, Power(op.kind))| + 1 + |Print(r, Power(op.kind) - 1)|
  {
  }

  /** No tokens that are parsed to an expression are fewer than those it is printed as. */
  lemma Shortest(ts: seq<Token>, e: Expr, used: nat)
    requires Parse(ts, 0, DEFAULT_BP) == Ok(e, used)
    ensures used >= |Print(e, DEFAULT_BP)|
  {
    hide Power, Parse;
    ParsePays(ts, 0, DEFAULT_BP);
  }

  // ---- The parser object ----

  datatype Result = Tree(e: Expr) | Panic | NotModelled

  /** The parser has done what the function says: the same tree and position, or the same failure. */
  ghost predicate Did(r: Result, pos: nat, f: Parsed)
  {
    match f
    case Ok(e, p) => r == Tree(e) && pos == p
    case SyntaxError => r == Panic
    case Unsupported => r == NotModelled
  }

  class Parser {
    const tokens: seq<Token>
    var pos: nat

    constructor (tokens: seq<Token>)
      ensures this.tokens == tokens && pos == 0
    {
      this.tokens, pos := tokens, 0;
    }

    method Move() returns (t: Token)
      requires pos < |tokens|
      modifies this
      ensures t == tokens[old(pos)] && pos == old(pos) + 1
    {
      t := tokens[pos];
      pos := pos + 1;
    }

    /** `parseExpr`. */
    method ParseExpr(bp: int) returns (r: Result)
      modifies this
      ensures Did(r, pos, Parse(tokens, old(pos), bp))
      decreases |tokens| - pos, 2
    {
      r := ParseStart();
      if !r.Tree? {
        return;
      }
      var left := r.e;
      ghost var whole := Parse(tokens, old(pos), bp);
      while true
        invariant old(pos) < pos <= |tokens| && whole == Extend(tokens, pos, left, bp)
        decreases |tokens| - pos
      {
        if pos >= |tokens| {
          return Panic;
        }
        var kind := tokens[pos].kind;
        if Power(kind) <= bp {
          return Tree(left);
        }
        var rule := LedOf(kind);
        if rule == None {
          return Panic;
        }
        if rule != Some(BinaryExpr) {
          return NotModelled;
        }
        r := ParseBinary(left);
        if !r.Tree? {
          return;
        }
        left := r.e;
      }
    }

    /** The handler of the token that an expression starts with. */
    method ParseStart() returns (r: Result)
      modifies this
      ensures Did(r, pos, Start(tokens, old(pos)))
      decreases |tokens| - pos, 1
    {
      if pos >= |tokens| {
        return Panic;
      }
      var kind := tokens[pos].kind;
      match NudOf(kind)
      case None => r := Panic;
      case Some(PrimaryExpr) =>
        if kind == NUMBER {
          var t := Move();
          r := Tree(Num(t.text));
        } else if kind == IDENTIFIER {
          var t := Move();
          r := Tree(Sym(t.text));
        } else {
          r := NotModelled;
        }
      case Some(NullExpr) =>
        var t := Move();
        r := Tree(Null);
      case Some(PrefixExpr) =>
        var t := Move();
        r := ParseExpr(UNARY_BP);
        if r.Tree? {
          r := Tree(Prefix(t, r.e));
        }
      case Some(GroupingExpr) =>
        var t := Move();
        r := ParseExpr(DEFAULT_BP);
        if r.Tree? {
          if pos < |tokens| && tokens[pos].kind == CLOSE_PAREN {
            t := Move();
          } else {
            r := Panic;
          }
        }
      case Some(_) => r := NotModelled;
    }

    /** `parseBinaryExpr`: the right operand is parsed with one less than the power of the operator. */
    method ParseBinary(left: Expr) returns (r: Result)
      requires pos < |tokens| && IsInfix(tokens[pos].kind)
      modifies this
      ensures var t := tokens[old(pos)];
              var f := Parse(tokens, old(pos) + 1, Power(t.kind) - 1);
              Did(r, pos, if f.Ok? then Ok(Binary(left, t, f.e), f.pos) else f)
      decreases |tokens| - pos, 0
    {
      var t := Move();
      r := ParseExpr(Power(t.kind) - 1);
      if r.Tree? {
        r := Tree(Binary(left, t, r.e));
      }
    }
  }
}
