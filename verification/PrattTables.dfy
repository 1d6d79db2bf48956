// The tables that the expression parser works with once all entries have been made: how strongly a token binds, and
// what it does at the start of an expression or after one.
module PrattTables {
  import opened Options

  datatype Kind =
    | EOF | SEMI_COLON | COMMA | CLOSE_PAREN | CLOSE_BRACKET | CLOSE_CURLY | COLON
    | ASSIGNMENT | PLUS_EQUALS | MINUS_EQUALS | BITWIZE_LEFTSHIFT | BITWIZE_RIGHTSHIFT
    | AND | OR | DOT_DOT | BITWISE_AND | BITWISE_OR | BITWISE_XOR
    | LESS | LESS_EQUALS | GREATER | GREATER_EQUALS | EQUALS | NOT_EQUALS | QUESTION
    | PLUS | DASH | SLASH | STAR | PERCENT
    | NUMBER | STRING | IDENTIFIER | TYPEOF | NOT | BITWISE_NOT | OPEN_BRACKET
    | DOT | OPEN_PAREN | NULL | FN | NEW
    | OPEN_CURLY | SAY | CONST | IF | USING | FOREACH | WHILE | CLASS | INTERFACE | RETURN | BREAK | OPEN_ATOMIC

  // Binding powers, from the weakest.
  const DEFAULT_BP := 0
  const ASSIGNMENT_BP := 2
  const BITWISE_BP := 3
  const LOGICAL_BP := 4
  const RELATIONAL_BP := 5
  const ADDITIVE_BP := 6
  const MULTIPLICATIVE_BP := 7
  const UNARY_BP := 8
  const CALL_BP := 9
  const MEMBER_BP := 10
  const PRIMARY_BP := 11

  datatype NudRule = PrimaryExpr | PrefixExpr | ArrayLiteral | NullExpr | GroupingExpr | FuncExpr | NewExpr

  datatype LedRule = AssignmentExpr | BinaryExpr | RangeExpr | MemberExpr | CallExpr

  /** The power of a token.  A token that may start an expression binds most strongly, whatever power it was given
      before as an infix operator; only a later entry takes that back. */
  function Power(k: Kind): (p: int)
    ensures 0 <= p <= PRIMARY_BP
  {
    match k
    case ASSIGNMENT | PLUS_EQUALS | MINUS_EQUALS => ASSIGNMENT_BP
    case BITWIZE_LEFTSHIFT | BITWIZE_RIGHTSHIFT => BITWISE_BP
    case AND | OR | DOT_DOT | BITWISE_AND | BITWISE_OR | BITWISE_XOR => LOGICAL_BP
    case LESS | LESS_EQUALS | GREATER | GREATER_EQUALS | EQUALS | NOT_EQUALS | QUESTION => RELATIONAL_BP
    case PLUS => ADDITIVE_BP
    case SLASH | STAR | PERCENT => MULTIPLICATIVE_BP
    case DOT | OPEN_BRACKET => MEMBER_BP
    case DASH | NUMBER | STRING | IDENTIFIER | TYPEOF | NOT | BITWISE_NOT | OPEN_PAREN | NULL | NEW => PRIMARY_BP
    case _ => DEFAULT_BP
  }

  function NudOf(k: Kind): Option<NudRule>
  {
    match k
    case NUMBER | STRING | IDENTIFIER => Some(PrimaryExpr)
    case TYPEOF | DASH | NOT | BITWISE_NOT => Some(PrefixExpr)
    case OPEN_BRACKET => Some(ArrayLiteral)
    case NULL => Some(NullExpr)
    case OPEN_PAREN => Some(GroupingExpr)
    case FN => Some(FuncExpr)
    case NEW => Some(NewExpr)
    case _ => None
  }

  function LedOf(k: Kind): Option<LedRule>
  {
    match k
    case ASSIGNMENT | PLUS_EQUALS | MINUS_EQUALS => Some(AssignmentExpr)
    case BITWIZE_LEFTSHIFT | BITWIZE_RIGHTSHIFT | AND | OR | BITWISE_AND | BITWISE_OR | BITWISE_XOR => Some(BinaryExpr)
    case LESS | LESS_EQUALS | GREATER | GREATER_EQUALS | EQUALS | NOT_EQUALS | QUESTION => Some(BinaryExpr)
    case PLUS | DASH | SLASH | STAR | PERCENT => Some(BinaryExpr)
    case DOT_DOT => Some(RangeExpr)
    case DOT | OPEN_BRACKET => Some(MemberExpr)
    case OPEN_PAREN => Some(CallExpr)
    case _ => None
  }

  predicate IsInfix(k: Kind)
  {
    LedOf(k) == Some(BinaryExpr)
  }

  predicate IsPrefix(k: Kind)
  {
    NudOf(k) == Some(PrefixExpr)
  }

  // ---- How the tables are filled ----

  /** What a group of entries says about a token: its power, and what it does. */
  datatype Said<T> = Silent | Says(power: int, rule: T)

  function AssignmentsSay(k: Kind): Said<LedRule>
  {
    if k == ASSIGNMENT || k == PLUS_EQUALS || k == MINUS_EQUALS
    then Says(ASSIGNMENT_BP, AssignmentExpr)
    else if k == BITWIZE_LEFTSHIFT || k == BITWIZE_RIGHTSHIFT
    then Says(BITWISE_BP, BinaryExpr)
    else Silent
  }

  function LogicalsSay(k: Kind): Said<LedRule>
  {
    if k == AND || k == OR || k == BITWISE_AND || k == BITWISE_OR || k == BITWISE_XOR
    then Says(LOGICAL_BP, BinaryExpr)
    else if k == DOT_DOT
    then Says(LOGICAL_BP, RangeExpr)
    else Silent
  }

  function RelationsSay(k: Kind): Said<LedRule>
  {
    if k == LESS || k == LESS_EQUALS || k == GREATER || k == GREATER_EQUALS || k == EQUALS || k == NOT_EQUALS
        || k == QUESTION
    then Says(RELATIONAL_BP, BinaryExpr)
    else Silent
  }

  function ArithmeticSay(k: Kind): Said<LedRule>
  {
    if k == PLUS || k == DASH
    then Says(ADDITIVE_BP, BinaryExpr)
    else if k == SLASH || k == STAR || k == PERCENT
    then Says(MULTIPLICATIVE_BP, BinaryExpr)
    else Silent
  }

  function LiteralsSay(k: Kind): Said<NudRule>
  {
    if k == NUMBER || k == STRING || k == IDENTIFIER
    then Says(PRIMARY_BP, PrimaryExpr)
    else Silent
  }

  function PrefixesSay(k: Kind): Said<NudRule>
  {
    if k == TYPEOF || k == DASH || k == NOT || k == BITWISE_NOT
    then Says(PRIMARY_BP, PrefixExpr)
    else if k == OPEN_BRACKET
    then Says(PRIMARY_BP, ArrayLiteral)
    else Silent
  }

  function MembersSay(k: Kind): Said<LedRule>
  {
    if k == DOT || k == OPEN_BRACKET
    then Says(MEMBER_BP, MemberExpr)
    else if k == OPEN_PAREN
    then Says(CALL_BP, CallExpr)
    else Silent
  }

  function GroupingsSay(k: Kind): Said<NudRule>
  {
    if k == NULL
    then Says(PRIMARY_BP, NullExpr)
    else if k == OPEN_PAREN
    then Says(PRIMARY_BP, GroupingExpr)
    else if k == FN
    then Says(PRIMARY_BP, FuncExpr)
    else if k == NEW
    then Says(PRIMARY_BP, NewExpr)
    else Silent
  }

  predicate StartsStatement(k: Kind)
  {
    || k == OPEN_CURLY || k == SAY || k == CONST || k == FN || k == IF || k == USING
    || k == FOREACH || k == WHILE || k == CLASS || k == INTERFACE || k == RETURN || k == BREAK || k == OPEN_ATOMIC
  }

  /** The last entry for a token decides. */
  function LastPower(k: Kind): int
  {
    if StartsStatement(k) then DEFAULT_BP
    else if GroupingsSay(k).Says? then GroupingsSay(k).power
    else if MembersSay(k).Says? then MembersSay(k).power
    else if PrefixesSay(k).Says? then PrefixesSay(k).power
    else if LiteralsSay(k).Says? then LiteralsSay(k).power
    else InfixPower(k)
  }

  /** The power of a token when only the entries for operators between operands have been made. */
  function InfixPower(k: Kind): int
  {
    if ArithmeticSay(k).Says? then ArithmeticSay(k).power
    else if RelationsSay(k).Says? then RelationsSay(k).power
    else if LogicalsSay(k).Says? then LogicalsSay(k).power
    else if AssignmentsSay(k).Says? then AssignmentsSay(k).power
    else DEFAULT_BP
  }

  function LastNud(k: Kind): Option<NudRule>
  {
    if GroupingsSay(k).Says? then Some(GroupingsSay(k).rule)
    else if PrefixesSay(k).Says? then Some(PrefixesSay(k).rule)
    else if LiteralsSay(k).Says? then Some(LiteralsSay(k).rule)
    else None
  }

  function LastLed(k: Kind): Option<LedRule>
  {
    if MembersSay(k).Says? then Some(MembersSay(k).rule)
    else if ArithmeticSay(k).Says? then Some(ArithmeticSay(k).rule)
    else if RelationsSay(k).Says? then Some(RelationsSay(k).rule)
    else if LogicalsSay(k).Says? then Some(LogicalsSay(k).rule)
    else if AssignmentsSay(k).Says? then Some(AssignmentsSay(k).rule)
    else None
  }

  lemma AssignmentsAre(k: Kind)
    ensures AssignmentsSay(k) == match k
              case ASSIGNMENT | PLUS_EQUALS | MINUS_EQUALS => Says(ASSIGNMENT_BP, AssignmentExpr)
              case BITWIZE_LEFTSHIFT | BITWIZE_RIGHTSHIFT => Says(BITWISE_BP, BinaryExpr)
              case _ => Silent
  {
  }

  lemma LogicalsAre(k: Kind)
    ensures LogicalsSay(k) == match k
              case AND | OR | BITWISE_AND | BITWISE_OR | BITWISE_XOR => Says(LOGICAL_BP, BinaryExpr)
              case DOT_DOT => Says(LOGICAL_BP, RangeExpr)
              case _ => Silent
  {
  }

  lemma RelationsAre(k: Kind)
    ensures RelationsSay(k) == match k
              case LESS | LESS_EQUALS | GREATER | GREATER_EQUALS => Says(RELATIONAL_BP, BinaryExpr)
              case EQUALS | NOT_EQUALS | QUESTION => Says(RELATIONAL_BP, BinaryExpr)
              case _ => Silent
  {
  }

  lemma ArithmeticAre(k: Kind)
    ensures ArithmeticSay(k) == match k
              case PLUS | DASH => Says(ADDITIVE_BP, BinaryExpr)
              case SLASH | STAR | PERCENT => Says(MULTIPLICATIVE_BP, BinaryExpr)
              case _ => Silent
  {
  }

  lemma LiteralsAre(k: Kind)
    ensures LiteralsSay(k) == match k
              case NUMBER | STRING | IDENTIFIER => Says(PRIMARY_BP, PrimaryExpr)
              case _ => Silent
  {
  }

  lemma PrefixesAre(k: Kind)
    ensures PrefixesSay(k) == match k
              case TYPEOF | DASH | NOT | BITWISE_NOT => Says(PRIMARY_BP, PrefixExpr)
              case OPEN_BRACKET => Says(PRIMARY_BP, ArrayLiteral)
              case _ => Silent
  {
  }

  lemma MembersAre(k: Kind)
    ensures MembersSay(k) == match k
              case DOT | OPEN_BRACKET => Says(MEMBER_BP, MemberExpr)
              case OPEN_PAREN => Says(CALL_BP, CallExpr)
              case _ => Silent
  {
  }

  lemma GroupingsAre(k: Kind)
    ensures GroupingsSay(k) == match k
              case NULL => Says(PRIMARY_BP, NullExpr)
              case OPEN_PAREN => Says(PRIMARY_BP, GroupingExpr)
              case FN => Says(PRIMARY_BP, FuncExpr)
              case NEW => Says(PRIMARY_BP, NewExpr)
              case _ => Silent
  {
  }

  lemma StatementsAre(k: Kind)
    ensures StartsStatement(k) == match k
              case OPEN_CURLY | SAY | CONST | FN | IF | USING => true
              case FOREACH | WHILE | CLASS | INTERFACE | RETURN | BREAK | OPEN_ATOMIC => true
              case _ => false
  {
  }

  /** What the last entries say is what the tables hold. */
  lemma LastEntries(k: Kind)
    ensures LastPower(k) == Power(k) && LastNud(k) == NudOf(k) && LastLed(k) == LedOf(k)
  {
    hide AssignmentsSay, LogicalsSay, RelationsSay, ArithmeticSay, LiteralsSay, PrefixesSay, MembersSay, GroupingsSay;
    hide StartsStatement;
    AssignmentsAre(k);
    LogicalsAre(k);
    RelationsAre(k);
    ArithmeticAre(k);
    LiteralsAre(k);
    PrefixesAre(k);
    MembersAre(k);
    GroupingsAre(k);
    StatementsAre(k);
  }

  /** As an infix operator the minus sign is entered with the power of a sum, but it ends up with the strongest. */
  lemma MinusOverwritten()
    ensures InfixPower(DASH) == InfixPower(PLUS) == ADDITIVE_BP
            && Power(DASH) == PRIMARY_BP > Power(PLUS) == ADDITIVE_BP
    ensures forall k :: IsInfix(k) && k != DASH ==> Power(k) == InfixPower(k) < Power(DASH)
  {
  }

  /** The tables as the program fills them, entry by entry; a kind without an entry has the default power. */
  class Tables {
    var bp: map<Kind, int>
    var nuds: map<Kind, NudRule>
    var leds: map<Kind, LedRule>

    function Bp(k: Kind): int
      reads this
    {
      if k in bp then bp[k] else DEFAULT_BP
    }

    function NudAt(k: Kind): Option<NudRule>
      reads this
    {
      if k in nuds then Some(nuds[k]) else None
    }

    function LedAt(k: Kind): Option<LedRule>
      reads this
    {
      if k in leds then Some(leds[k]) else None
    }

    constructor ()
      ensures forall k :: Bp(k) == DEFAULT_BP && NudAt(k) == None && LedAt(k) == None
    {
      bp, nuds, leds := map[], map[], map[];
    }

    /** `led`: an entry for what the token does after an expression. */
    method EnterLed(kind: Kind, power: int, rule: LedRule)
      modifies this
      ensures forall k :: Bp(k) == if k == kind then power else old(Bp(k))
      ensures forall k :: LedAt(k) == if k == kind then Some(rule) else old(LedAt(k))
      ensures forall k :: NudAt(k) == old(NudAt(k))
    {
      bp := bp[kind := power];
      leds := leds[kind := rule];
    }

    /** `nud`: an entry for what the token starts; it also gives the token the strongest power. */
    method EnterNud(kind: Kind, rule: NudRule)
      modifies this
      ensures forall k :: Bp(k) == if k == kind then PRIMARY_BP else old(Bp(k))
      ensures forall k :: NudAt(k) == if k == kind then Some(rule) else old(NudAt(k))
      ensures forall k :: LedAt(k) == old(LedAt(k))
    {
      bp := bp[kind := PRIMARY_BP];
      nuds := nuds[kind := rule];
    }

    /** `statement`: a token that starts a statement gets the default power. */
    method EnterStatement(kind: Kind)
      modifies this
      ensures forall k :: Bp(k) == if k == kind then DEFAULT_BP else old(Bp(k))
      ensures forall k :: NudAt(k) == old(NudAt(k)) && LedAt(k) == old(LedAt(k))
    {
      bp := bp[kind := DEFAULT_BP];
    }

    /** Assignment and shifts. */
    method Assignments()
      modifies this
      ensures forall k :: Bp(k) == if AssignmentsSay(k).Says? then AssignmentsSay(k).power else old(Bp(k))
      ensures forall k :: LedAt(k) == if AssignmentsSay(k).Says? then Some(AssignmentsSay(k).rule) else old(LedAt(k))
      ensures forall k :: NudAt(k) == old(NudAt(k))
    {
      hide Bp, NudAt, LedAt;
      EnterLed(ASSIGNMENT, ASSIGNMENT_BP, AssignmentExpr);
      EnterLed(PLUS_EQUALS, ASSIGNMENT_BP, AssignmentExpr);
      EnterLed(MINUS_EQUALS, ASSIGNMENT_BP, AssignmentExpr);
      EnterLed(BITWIZE_LEFTSHIFT, BITWISE_BP, BinaryExpr);
      EnterLed(BITWIZE_RIGHTSHIFT, BITWISE_BP, BinaryExpr);
    }

    /** Logical and bitwise operators, and ranges. */
    method Logicals()
      modifies this
      ensures forall k :: Bp(k) == if LogicalsSay(k).Says? then LogicalsSay(k).power else old(Bp(k))
      ensures forall k :: LedAt(k) == if LogicalsSay(k).Says? then Some(LogicalsSay(k).rule) else old(LedAt(k))
      ensures forall k :: NudAt(k) == old(NudAt(k))
    {
      hide Bp, NudAt, LedAt;
      EnterLed(AND, LOGICAL_BP, BinaryExpr);
      EnterLed(OR, LOGICAL_BP, BinaryExpr);
      EnterLed(DOT_DOT, LOGICAL_BP, RangeExpr);
      EnterLed(BITWISE_AND, LOGICAL_BP, BinaryExpr);
      EnterLed(BITWISE_OR, LOGICAL_BP, BinaryExpr);
      EnterLed(BITWISE_XOR, LOGICAL_BP, BinaryExpr);
    }

    /** Comparisons. */
    method Relations()
      modifies this
      ensures forall k :: Bp(k) == if RelationsSay(k).Says? then RelationsSay(k).power else old(Bp(k))
      ensures forall k :: LedAt(k) == if RelationsSay(k).Says? then Some(RelationsSay(k).rule) else old(LedAt(k))
      ensures forall k :: NudAt(k) == old(NudAt(k))
    {
      hide Bp, NudAt, LedAt;
      EnterLed(LESS, RELATIONAL_BP, BinaryExpr);
      EnterLed(LESS_EQUALS, RELATIONAL_BP, BinaryExpr);
      EnterLed(GREATER, RELATIONAL_BP, BinaryExpr);
      EnterLed(GREATER_EQUALS, RELATIONAL_BP, BinaryExpr);
      EnterLed(EQUALS, RELATIONAL_BP, BinaryExpr);
      EnterLed(NOT_EQUALS, RELATIONAL_BP, BinaryExpr);
      EnterLed(QUESTION, RELATIONAL_BP, BinaryExpr);
    }

    /** Sums and products: here the minus sign gets the power of a sum. */
    method Arithmetic()
      modifies this
      ensures forall k :: Bp(k) == if ArithmeticSay(k).Says? then ArithmeticSay(k).power else old(Bp(k))
      ensures forall k :: LedAt(k) == if ArithmeticSay(k).Says? then Some(ArithmeticSay(k).rule) else old(LedAt(k))
      ensures forall k :: NudAt(k) == old(NudAt(k))
    {
      hide Bp, NudAt, LedAt;
      EnterLed(PLUS, ADDITIVE_BP, BinaryExpr);
      EnterLed(DASH, ADDITIVE_BP, BinaryExpr);
      EnterLed(SLASH, MULTIPLICATIVE_BP, BinaryExpr);
      EnterLed(STAR, MULTIPLICATIVE_BP, BinaryExpr);
      EnterLed(PERCENT, MULTIPLICATIVE_BP, BinaryExpr);
    }

    /** Literals and names. */
    method Literals()
      modifies this
      ensures forall k :: Bp(k) == if LiteralsSay(k).Says? then LiteralsSay(k).power else old(Bp(k))
      ensures forall k :: NudAt(k) == if LiteralsSay(k).Says? then Some(LiteralsSay(k).rule) else old(NudAt(k))
      ensures forall k :: LedAt(k) == old(LedAt(k))
    {
      hide Bp, NudAt, LedAt;
      EnterNud(NUMBER, PrimaryExpr);
      EnterNud(STRING, PrimaryExpr);
      EnterNud(IDENTIFIER, PrimaryExpr);
    }

    /** Prefix operators and arrays: here the minus sign loses the power of a sum. */
    method Prefixes()
      modifies this
      ensures forall k :: Bp(k) == if PrefixesSay(k).Says? then PrefixesSay(k).power else old(Bp(k))
      ensures forall k :: NudAt(k) == if PrefixesSay(k).Says? then Some(PrefixesSay(k).rule) else old(NudAt(k))
      ensures forall k :: LedAt(k) == old(LedAt(k))
    {
      hide Bp, NudAt, LedAt;
      EnterNud(TYPEOF, PrefixExpr);
      EnterNud(DASH, PrefixExpr);
      EnterNud(NOT, PrefixExpr);
      EnterNud(BITWISE_NOT, PrefixExpr);
      EnterNud(OPEN_BRACKET, ArrayLiteral);
    }

    /** Members, indexing and calls. */
    method Members()
      modifies this
      ensures forall k :: Bp(k) == if MembersSay(k).Says? then MembersSay(k).power else old(Bp(k))
      ensures forall k :: LedAt(k) == if MembersSay(k).Says? then Some(MembersSay(k).rule) else old(LedAt(k))
      ensures forall k :: NudAt(k) == old(NudAt(k))
    {
      hide Bp, NudAt, LedAt;
      EnterLed(DOT, MEMBER_BP, MemberExpr);
      EnterLed(OPEN_BRACKET, MEMBER_BP, MemberExpr);
      EnterLed(OPEN_PAREN, CALL_BP, CallExpr);
    }

    /** What else starts an expression. */
    method Groupings()
      modifies this
      ensures forall k :: Bp(k) == if GroupingsSay(k).Says? then GroupingsSay(k).power else old(Bp(k))
      ensures forall k :: NudAt(k) == if GroupingsSay(k).Says? then Some(GroupingsSay(k).rule) else old(NudAt(k))
      ensures forall k :: LedAt(k) == old(LedAt(k))
    {
      hide Bp, NudAt, LedAt;
      EnterNud(NULL, NullExpr);
      EnterNud(OPEN_PAREN, GroupingExpr);
      EnterNud(FN, FuncExpr);
      EnterNud(NEW, NewExpr);
    }

    /** Statements. */
    method Statements()
      modifies this
      ensures forall k :: Bp(k) == if StartsStatement(k) then DEFAULT_BP else old(Bp(k))
      ensures forall k :: NudAt(k) == old(NudAt(k)) && LedAt(k) == old(LedAt(k))
    {
      hide Bp, NudAt, LedAt;
      EnterStatement(OPEN_CURLY);
      EnterStatement(SAY);
      EnterStatement(CONST);
      EnterStatement(FN);
      EnterStatement(IF);
      EnterStatement(USING);
      EnterStatement(FOREACH);
      EnterStatement(WHILE);
      EnterStatement(CLASS);
      EnterStatement(INTERFACE);
      EnterStatement(RETURN);
      EnterStatement(BREAK);
      EnterStatement(OPEN_ATOMIC);
    }

    /** `BuildTokensTable`: after all entries, in the order in which they are made, the tables are the functions
        above. */
    method BuildTokensTable()
      requires forall k :: Bp(k) == DEFAULT_BP && NudAt(k) == None && LedAt(k) == None
      modifies this
      ensures forall k :: Bp(k) == Power(k)
      ensures forall k :: NudAt(k) == NudOf(k)
      ensures forall k :: LedAt(k) == LedOf(k)
    {
      hide Bp, NudAt, LedAt, AssignmentsSay, LogicalsSay, RelationsSay, ArithmeticSay, LiteralsSay, PrefixesSay,
           MembersSay, GroupingsSay, StartsStatement;
      hide Power, NudOf, LedOf;
      Assignments();
      Logicals();
      Relations();
      Arithmetic();
      Literals();
      Prefixes();
      Members();
      Groupings();
      Statements();
      forall k
        ensures Bp(k) == Power(k) && NudAt(k) == NudOf(k) && LedAt(k) == LedOf(k)
      {
        LastEntries(k);
      }
    }
  }
}
